/**
 * The simulator itself: the arrays, lists and counters of sim-outorder.c, updated in place by the
 * loops of its stages.  Each method is proved to do to the state what its stage function says, so
 * the theorems about runs are about this object.
 */
module OooProcessor {
  import opened OooTypes
  import S = OooStages
  import T = OooTheorems
  import R = OooRun

  datatype Status = Running | Stopped(panic: Panic)

  /** What one iteration of a stage loop did: `Idle` ends the loop. */
  datatype Move = Idle | Moved | Failed(panic: Panic)

  lemma InsertStep(q: seq<Link>, l: Link, i: nat)
    requires i <= |q|
    ensures i < |q| && q[i].x < l.x ==> q[..i] + S.InsertSorted(q[i..], l) == q[..i + 1] + S.InsertSorted(q[i + 1..], l)
    ensures !(i < |q| && q[i].x < l.x) ==> q[..i] + S.InsertSorted(q[i..], l) == q[..i] + [l] + q[i..]
  {
    var rest := q[i..];
    if i < |q| && q[i].x < l.x {
      assert rest[0] == q[i] && rest[1..] == q[i + 1..];
      assert q[..i + 1] == q[..i] + [q[i]];
      hide S.InsertSorted;
      Regroup(q[..i], q[i], S.InsertSorted(q[i + 1..], l));
    } else {
      assert rest != [] ==> rest[0] == q[i];
      assert S.InsertSorted(rest, l) == [l] + rest;
      hide S.InsertSorted;
      Regroup(q[..i], l, rest);
    }
  }

  lemma Regroup(a: seq<Link>, l: Link, b: seq<Link>)
    ensures a + ([l] + b) == a + [l] + b
  {
  }

  /** Insertion into a list kept in increasing order of `x`. */
  method InsertSorted(q: seq<Link>, l: Link) returns (r: seq<Link>)
    ensures r == S.InsertSorted(q, l)
  {
    hide S.InsertSorted;
    var i := 0;
    while i < |q| && q[i].x < l.x
      invariant 0 <= i <= |q|
      invariant S.InsertSorted(q, l) == q[..i] + S.InsertSorted(q[i..], l)
    {
      InsertStep(q, l, i);
      i := i + 1;
    }
    InsertStep(q, l, i);
    r := q[..i] + [l] + q[i..];
  }

  lemma WrapIsMod(i: nat, n: nat)
    requires 0 < n && i < 2 * n
    ensures i % n == S.Wrap(i, n)
  {
  }

  lemma NoNodes(s: State, nodes: seq<Link>, width: nat, units: nat -> S.Unit)
    requires S.Ring(s.w) && nodes == []
    ensures S.IssueNodes(s, nodes, width, units) == Ok(s)
  {
  }

  lemma StepBack(head: nat, n: nat, k: nat)
    requires head < n && k < n && k != head
    ensures var j := S.Wrap(k + n - 1, n);
      (k + n - 1) % n == j && j < n && 0 <= S.RingPos(head, n, j) < S.RingPos(head, n, k)
  {
    WrapIsMod(k + n - 1, n);
  }

  class Processor {
    const c: Config
    const st: array<Station>
    var rh: nat
    var rt: nat
    var rn: nat
    var lh: nat
    var lt: nat
    var ln: nat
    var lastSeq: nat
    var free: seq<nat>
    var events: seq<Link>
    var readyq: seq<Link>
    var now: nat
    const cv: array<Creator>
    const scv: array<Creator>
    var useSpec: set<Reg>
    var specMode: bool
    var recoverPC: nat
    var arch: Values
    var overlay: Values
    var fq: seq<Fetched>
    var fetchPC: nat
    var delay: nat
    ghost var h: History

    ghost function View(): State
      reads this, st, cv, scv
    {
      State(Window(st[..], c.nr, c.nl, rh, rt, rn, lh, lt, ln, lastSeq), Queues(free, events, readyq, now),
            Vectors(cv[..], scv[..], useSpec), Front(specMode, recoverPC, arch, overlay, fq, fetchPC, delay), h)
    }

    ghost predicate Valid()
      reads this, st, cv, scv
    {
      S.Sized(View()) && cv != scv
    }

    /** sim_init and the start of sim_main. */
    constructor (c: Config)
      requires c.nr > 0 && c.nl > 0
      ensures this.c == c && View() == S.Initial(c)
      ensures Valid() && fresh(st) && fresh(cv) && fresh(scv)
    {
      this.c := c;
      var blank := Station(Alu, 0, 0, 0, false, false, false, false, 0, 0, 0, false, false, false,
                           [NA, NA], S.BlankChains(), [NA, NA, NA], [false, false, false]);
      st := new Station[c.nr + c.nl](_ => blank);
      rh, rt, rn, lh, lt, ln, lastSeq := 0, 0, 0, 0, 0, 0, 0;
      free, events, readyq, now := seq(c.links, i => i), [], [], 0;
      cv := new Creator[TOTAL_REGS](_ => NoCreator);
      scv := new Creator[TOTAL_REGS](_ => NoCreator);
      useSpec := {};
      specMode, recoverPC, arch, overlay, fq, fetchPC, delay := false, 0, c.init, map[], [], c.entry, 0;
      h := History([], [], []);
    }

    /** The object has become what the stage says, or has stopped where the stage does. */
    ghost predicate Agrees(o: Outcome<State>, r: Status)
      reads this, st, cv, scv
    {
      match o
      case Panic(p) => r == Stopped(p)
      case Ok(s) => r == Running && View() == s
    }

    /** readyq_enqueue */
    method ReadyEnqueue(slot: nat) returns (r: Status)
      requires Valid() && slot < st.Length
      modifies this`free, this`readyq, st
      ensures Agrees(S.ReadyEnqueue(old(View()), slot), r)
    {
      if st[slot].queued {
        return Stopped(AlreadyQueued);
      }
      if free == [] {
        return Stopped(OutOfLinks);
      }
      var l := Link(free[0], slot, st[slot].tag, st[slot].seqno);
      free := free[1..];
      if InLsq(st[slot]) || st[slot].urgent {
        readyq := [l] + readyq;
      } else {
        readyq := InsertSorted(readyq, l);
      }
      st[slot] := st[slot].(queued := true);
      r := Running;
    }

    /** eventq_queue_event */
    method QueueEvent(slot: nat, lat: Latency) returns (r: Status)
      requires Valid() && slot < st.Length
      modifies this`free, this`events
      ensures Agrees(S.QueueEvent(old(View()), slot, lat), r)
    {
      if st[slot].completed {
        return Stopped(EventCompleted);
      }
      if free == [] {
        return Stopped(OutOfLinks);
      }
      var l := Link(free[0], slot, st[slot].tag, now + lat);
      free := free[1..];
      events := InsertSorted(events, l);
      r := Running;
    }

    /** The head of the RUU leaves the window. */
    method RetireRuu()
      requires Valid() && rn > 0
      modifies this`rh, this`rn, st
      ensures Valid() && View() == old(View()).(w := S.RetireRuu(old(View()).w))
    {
      st[rh] := st[rh].(tag := st[rh].tag + 1);
      WrapIsMod(rh + 1, c.nr);
      rh, rn := (rh + 1) % c.nr, rn - 1;
    }

    /** The head of the LSQ leaves the window. */
    method RetireLsq()
      requires Valid() && ln > 0
      modifies this`lh, this`ln, st
      ensures Valid() && View() == old(View()).(w := S.RetireLsq(old(View()).w))
    {
      var i := c.nr + lh;
      st[i] := st[i].(tag := st[i].tag + 1);
      WrapIsMod(lh + 1, c.nl);
      lh, ln := (lh + 1) % c.nl, ln - 1;
    }

    ghost predicate MovesTo(o: Step, m: Move)
      reads this, st, cv, scv
    {
      match o
      case Stop => m == Idle
      case Halt(p) => m == Failed(p)
      case Next(s) => m == Moved && View() == s
    }

    /** One iteration of the loop of ruu_commit. */
    method CommitOne(port: bool) returns (m: Move)
      requires Valid()
      modifies this`rh, this`rn, this`lh, this`ln, this`h, st
      ensures MovesTo(S.CommitOne(old(View()), port), m) && (m.Idle? ==> View() == old(View()))
    {
      hide S.RetireRuu, S.RetireLsq, S.RingPos;
      if rn == 0 || !st[rh].completed {
        return Idle;
      }
      var rs, lsq := st[rh], st[c.nr + lh];
      if rs.kind.Addr? {
        if ln == 0 || !InLsq(lsq) {
          return Failed(OutOfSync);
        }
        if !lsq.completed || (lsq.kind.Store? && !port) {
          return Idle;
        }
        RetireLsq();
      }
      if rs.odeps[0] != [] || rs.odeps[1] != [] {
        return Failed(RetiredOdeps);
      }
      RetireRuu();
      h := h.(retired := h.retired + [Entry(rs.seqno, rs.pc)]);
      m := Moved;
    }

    /** ruu_commit */
    method Commit(ports: nat -> bool) returns (r: Status)
      requires Valid()
      modifies this`rh, this`rn, this`lh, this`ln, this`h, st
      ensures Agrees(S.Commit(old(View()), c.commitWidth, ports), r)
    {
      hide View, S.CommitOne, S.RingPos;
      var width := c.commitWidth;
      while width > 0
        invariant Valid()
        invariant S.Commit(old(View()), c.commitWidth, ports) == S.Commit(View(), width, ports)
        decreases width
      {
        var m := CommitOne(ports(width));
        match m {
          case Idle => break;
          case Failed(p) => return Stopped(p);
          case Moved => width := width - 1;
        }
      }
      r := Running;
    }

    // -------------------------------------------------------------- recovery

    /** RSLINK_FREE_LIST */
    method FreeChain(chain: seq<Link>)
      requires Valid()
      modifies this`free
      ensures View() == old(View()).(q := S.FreeList(old(View()).q, chain))
    {
      ghost var q0 := View().q;
      var k := 0;
      while k < |chain|
        invariant 0 <= k <= |chain|
        invariant View() == old(View()).(q := View().q)
        invariant S.FreeList(q0, chain) == S.FreeList(View().q, chain[k..])
      {
        free := [chain[k].id] + free;
        assert chain[k..][1..] == chain[k + 1..];
        k := k + 1;
      }
      assert chain[k..] == [];
    }

    /** A squashed station gives back its links and invalidates those that name it. */
    method SquashSlot(slot: nat)
      requires Valid() && slot < st.Length
      modifies this`free, st
      ensures Valid() && View() == S.SquashSlot(old(View()), slot)
    {
      hide S.FreeList, S.RingPos;
      FreeChain(st[slot].odeps[0]);
      FreeChain(st[slot].odeps[1]);
      st[slot] := st[slot].(odeps := S.BlankChains(), tag := st[slot].tag + 1);
    }

    /** The youngest LSQ entry leaves the window. */
    method SquashLsq()
      requires Valid() && ln > 0
      modifies this`free, this`lt, this`ln, st
      ensures Valid() && View() == S.SquashLsq(old(View()))
    {
      hide S.RingPos, S.SquashSlot;
      WrapIsMod(lt + c.nl - 1, c.nl);
      var i := (lt + c.nl - 1) % c.nl;
      SquashSlot(c.nr + i);
      lt, ln := i, ln - 1;
    }

    /** The youngest RUU entry leaves the window. */
    method SquashRuu()
      requires Valid() && rn > 0
      modifies this`free, this`rt, this`rn, st
      ensures Valid() && View() == S.SquashRuu(old(View()))
    {
      hide S.RingPos, S.SquashSlot;
      WrapIsMod(rt + c.nr - 1, c.nr);
      var i := (rt + c.nr - 1) % c.nr;
      SquashSlot(i);
      rt, rn := i, rn - 1;
    }

    /** The youngest instruction leaves the window, in both halves if it has two. */
    method SquashOne() returns (r: Status)
      requires Valid()
      modifies this`free, this`rt, this`rn, this`lt, this`ln, st
      ensures Agrees(S.SquashOne(old(View())), r) && (r.Running? ==> Valid())
    {
      hide S.SquashLsq, S.SquashRuu, S.RingPos;
      if rn == 0 {
        return Stopped(EmptyRuu);
      }
      WrapIsMod(rt + c.nr - 1, c.nr);
      var i := (rt + c.nr - 1) % c.nr;
      if i == rh {
        return Stopped(HeadAndTailBroken);
      }
      if st[i].kind.Addr? {
        if ln == 0 {
          return Stopped(OutOfSync);
        }
        SquashLsq();
      }
      SquashRuu();
      r := Running;
    }

    /** ruu_recover: squash from the tail back to the branch */
    method RecoverWindow(branch: nat) returns (r: Status)
      requires Valid()
      modifies this`free, this`rt, this`rn, this`lt, this`ln, st
      ensures Agrees(S.RecoverWindow(old(View()), branch), r) && (r.Running? ==> Valid())
    {
      hide S.SquashOne, S.RingPos, S.Wrap;
      var i := Youngest();
      while i != branch
        invariant Valid() && i == S.Wrap(rt + c.nr - 1, c.nr)
        invariant S.RecoverWindow(old(View()), branch) == S.RecoverWindow(View(), branch)
        decreases rn
      {
        var m := SquashOne();
        if m.Stopped? {
          return m;
        }
        i := Youngest();
      }
      r := Running;
    }

    /** Index of the youngest RUU entry. */
    method Youngest() returns (i: nat)
      requires Valid()
      ensures i == S.Wrap(rt + c.nr - 1, c.nr)
    {
      WrapIsMod(rt + c.nr - 1, c.nr);
      i := (rt + c.nr - 1) % c.nr;
    }

    /** tracer_recover: the speculative state is dropped and fetch resumes on the right path */
    method TracerRecover() returns (r: Status)
      requires Valid()
      modifies this`specMode, this`overlay, this`fq, this`fetchPC
      ensures match S.TracerRecover(old(View()).f)
        case Panic(p) => r == Stopped(p)
        case Ok(f1) => r == Running && View() == old(View()).(f := f1)
    {
      hide S.RingPos;
      if !specMode {
        return Stopped(CannotRecover);
      }
      specMode, overlay, fq, fetchPC := false, map[], [], recoverPC;
      r := Running;
    }

    /** What a mispredicted branch does when it completes. */
    method Recover(branch: nat) returns (r: Status)
      requires Valid()
      modifies this`free, this`rt, this`rn, this`lt, this`ln, st
      modifies this`useSpec, this`specMode, this`overlay, this`fq, this`fetchPC, this`delay
      ensures Agrees(S.Recover(c, old(View()), branch), r) && (r.Running? ==> Valid())
    {
      hide S.RecoverWindow, S.TracerRecover, S.RingPos;
      r := RecoverWindow(branch);
      if r.Running? {
        r := TracerRecover();
        useSpec, delay := {}, c.branchPenalty;
      }
    }

    // -------------------------------------------------------------- writeback

    /** eventq_next_event: the slot of the next operation to complete, or -1 */
    method NextEvent() returns (slot: int)
      requires Valid()
      modifies this`free, this`events
      ensures Valid() && View() == old(View()).(q := S.PopEvent(old(View()).q, st[..]).q)
      ensures slot == (match S.PopEvent(old(View()).q, st[..]) case NoEvent(_) => -1 case Event(_, l) => l.slot)
    {
      hide S.RingPos;
      ghost var q0 := View().q;
      while events != [] && events[0].x <= now
        invariant Valid() && View() == old(View()).(q := View().q)
        invariant S.PopEvent(q0, st[..]) == S.PopEvent(View().q, st[..])
        decreases |events|
      {
        var l := events[0];
        events := events[1..];
        free := [l.id] + free;
        if l.slot < st.Length && st[l.slot].tag == l.tag {
          return l.slot;
        }
      }
      slot := -1;
    }

    /** Follow one output-dependence link of a completed operation. */
    method WakeOne(l: Link) returns (r: Status)
      requires Valid()
      modifies this`free, this`readyq, st
      ensures Agrees(S.WakeOne(old(View()), l), r) && (r.Running? ==> Valid())
    {
      hide S.ReadyEnqueue, S.RingPos;
      if l.slot >= st.Length || l.x >= 3 {
        return Stopped(WildLink);
      }
      if st[l.slot].tag == l.tag {
        if st[l.slot].ready[l.x] {
          return Stopped(AlreadySatisfied);
        }
        r := WakeSlot(l.slot, l.x);
        if r.Stopped? {
          return;
        }
      }
      free := [l.id] + free;
      r := Running;
    }

    /** One operand becomes ready; with all of them ready the operation, unless a load, is queued. */
    method WakeSlot(slot: nat, j: nat) returns (r: Status)
      requires Valid() && slot < st.Length && j < 3
      modifies this`free, this`readyq, st
      ensures Agrees(S.WakeSlot(old(View()), slot, j), r) && (r.Running? ==> Valid())
    {
      hide S.ReadyEnqueue, S.RingPos;
      st[slot] := st[slot].(ready := st[slot].ready[j := true]);
      assert View() == S.SetReady(old(View()), slot, j);
      r := Running;
      if OpsReady(st[slot]) && !st[slot].kind.Load? {
        r := ReadyEnqueue(slot);
      }
    }

    /** The loop over an output chain in ruu_writeback. */
    method WakeAll(chain: seq<Link>) returns (r: Status)
      requires Valid()
      modifies this`free, this`readyq, st
      ensures Agrees(S.WakeAll(old(View()), chain), r) && (r.Running? ==> Valid())
    {
      hide S.WakeOne, View, S.RingPos;
      var k := 0;
      while k < |chain|
        invariant 0 <= k <= |chain| && Valid()
        invariant S.WakeAll(old(View()), chain) == S.WakeAll(View(), chain[k..])
      {
        assert chain[k..][0] == chain[k] && chain[k..][1..] == chain[k + 1..];
        r := WakeOne(chain[k]);
        if r.Stopped? {
          return;
        }
        k := k + 1;
      }
      assert chain[k..] == [];
      r := Running;
    }

    /** Output `i` of a completed operation: clear the creator entry, wake the dependents. */
    method Broadcast(slot: nat, i: nat) returns (r: Status)
      requires Valid() && slot < st.Length && i < 2
      modifies this`free, this`readyq, st, cv, scv
      ensures Agrees(S.Broadcast(old(View()), slot, i), r) && (r.Running? ==> Valid())
    {
      hide S.WakeAll, S.RingPos;
      var rs := st[slot];
      var n := rs.onames[i];
      if n == NA {
        return Running;
      }
      if rs.spec {
        if scv[n] == Creator(slot, i) {
          scv[n] := NoCreator;
        }
      } else {
        if cv[n] == Creator(slot, i) {
          cv[n] := NoCreator;
        }
      }
      assert View() == old(View()).(v := S.ClearCreator(old(View()).v, rs, slot, i));
      st[slot] := rs.(odeps := rs.odeps[i := []]);
      r := WakeAll(rs.odeps[i]);
    }

    /** Completion of the operation in `slot`. */
    method Complete(slot: nat) returns (r: Status)
      requires Valid() && slot < st.Length
      modifies this`free, this`readyq, this`rt, this`rn, this`lt, this`ln, st, cv, scv
      modifies this`useSpec, this`specMode, this`overlay, this`fq, this`fetchPC, this`delay
      ensures Agrees(S.Complete(c, old(View()), slot), r) && (r.Running? ==> Valid())
    {
      hide S.Broadcast, S.Recover, S.RingPos;
      var rs := st[slot];
      if !OpsReady(rs) || rs.queued || !rs.issued || rs.completed {
        return Stopped(CompletedNotReady);
      }
      if rs.recover && InLsq(rs) {
        return Stopped(MispredictedMem);
      }
      st[slot] := rs.(completed := true);
      if rs.recover {
        r := Recover(slot);
        if r.Stopped? {
          return;
        }
      }
      r := Broadcast(slot, 0);
      if r.Running? {
        r := Broadcast(slot, 1);
      }
    }

    /** ruu_writeback */
    method Writeback() returns (r: Status)
      requires Valid()
      modifies this, st, cv, scv
      ensures Agrees(S.Writeback(c, old(View())), r) && (r.Running? ==> Valid())
    {
      hide S.Complete, S.PopEvent, S.RingPos;
      while true
        invariant Valid()
        invariant S.Writeback(c, old(View())) == S.Writeback(c, View())
        decreases |events|
      {
        var slot := NextEvent();
        if slot < 0 {
          return Running;
        }
        r := Complete(slot);
        if r.Stopped? {
          return;
        }
      }
    }

    // -------------------------------------------------------------- memory scheduling

    /** The inner loop of lsq_refresh: cancel earlier records of an address. */
    static method Hide(unknowns: array<nat>, n: nat, a: nat)
      requires n <= unknowns.Length
      modifies unknowns
      ensures unknowns[..n] == S.Hide(old(unknowns[..n]), a)
    {
      var i := 0;
      while i < n
        invariant 0 <= i <= n
        invariant forall k :: 0 <= k < i ==> unknowns[k] == if old(unknowns[k]) == a then 0 else old(unknowns[k])
        invariant forall k :: i <= k < n ==> unknowns[k] == old(unknowns[k])
      {
        if unknowns[i] == a {
          unknowns[i] := 0;
        }
        i := i + 1;
      }
    }

    /** What the scan of one LSQ entry leaves. */
    ghost predicate Scans(o: Outcome<S.Scan>, unknowns: array<nat>, n: nat, m: Move)
      reads this, st, cv, scv, unknowns
    {
      match o
      case Panic(p) => m == Failed(p)
      case Ok(sc) =>
        && m == (if sc.more then Moved else Idle) && View() == sc.s
        && n <= unknowns.Length && unknowns[..n] == sc.unknowns
    }

    /** One LSQ entry in the scan of lsq_refresh. */
    method ScanOne(k: nat, unknowns: array<nat>, n: nat) returns (m: Move, n': nat)
      requires Valid() && k < ln && unknowns.Length == MAX_STD_UNKNOWNS && n <= unknowns.Length
      modifies this`free, this`readyq, st, unknowns
      ensures Scans(S.ScanOne(old(View()), k, old(unknowns[..n])), unknowns, n', m) && (!m.Failed? ==> Valid())
    {
      hide S.ReadyEnqueue, S.Hide, S.RingPos;
      WrapIsMod(lh + k, c.nl);
      var i := c.nr + (lh + k) % c.nl;
      var rs := st[i];
      m, n' := Moved, n;
      if rs.kind.Store? {
        if !rs.ready[1] {
          m := Idle;
        } else if OpsReady(rs) {
          Hide(unknowns, n, rs.addr);
        } else if n == MAX_STD_UNKNOWNS {
          m := Failed(StdUnknownOverflow);
        } else {
          unknowns[n] := rs.addr;
          n' := n + 1;
        }
      } else if rs.kind.Load? && S.Waiting(rs) && OpsReady(rs) && rs.addr !in unknowns[..n] {
        var r := ReadyEnqueue(i);
        m := if r.Stopped? then Failed(r.panic) else Moved;
      }
    }

    /** lsq_refresh */
    method Refresh() returns (r: Status)
      requires Valid()
      modifies this`free, this`readyq, st
      ensures Agrees(S.Refresh(old(View())), r) && (r.Running? ==> Valid())
    {
      hide S.ScanOne, S.RingPos;
      var unknowns := new nat[MAX_STD_UNKNOWNS];
      var n: nat, k: nat := 0, 0;
      assert unknowns[..n] == [];
      while k < ln
        invariant Valid() && 0 <= k <= ln && n <= unknowns.Length
        invariant S.Refresh(old(View())) == S.RefreshFrom(View(), k, unknowns[..n])
        decreases ln - k
      {
        var m;
        m, n := ScanOne(k, unknowns, n);
        match m {
          case Failed(p) => return Stopped(p);
          case Idle => break;
          case Moved => k := k + 1;
        }
      }
      r := Running;
    }

    /** The store-forwarding scan of ruu_issue: from LSQ index `i` towards the head. */
    method Forward(i: nat, addr: nat) returns (r: S.Found)
      requires Valid() && i < c.nl
      ensures r == S.Forward(View().w, i, addr)
    {
      hide S.RingPos, S.Wrap;
      var k: nat := i;
      while k != lh
        invariant k < c.nl
        invariant S.Forward(View().w, i, addr) == S.Forward(View().w, k, addr)
        decreases S.RingPos(lh, c.nl, k)
      {
        StepBack(lh, c.nl, k);
        k := (k + c.nl - 1) % c.nl;
        if st[c.nr + k].kind.Store? && st[c.nr + k].addr == addr {
          return S.Found(c.nr + k);
        }
      }
      r := S.NotFound;
    }

    // -------------------------------------------------------------- issue

    ghost predicate Issues(o: Outcome<S.Issued>, m: Move)
      reads this, st, cv, scv
    {
      match o
      case Panic(p) => m == Failed(p)
      case Ok(i) => m == (if i.used then Moved else Idle) && View() == i.s
    }

    method IssueLatency(slot: nat, u: S.Unit) returns (lat: Latency)
      requires Valid() && slot < st.Length && u.Unit?
      ensures lat == S.IssueLatency(View().w, slot, u)
    {
      hide S.Forward, S.RingPos;
      lat := u.oplat;
      if st[slot].kind.Load? && slot >= c.nr {
        var found := Forward(slot - c.nr, st[slot].addr);
        lat := if found.Found? then 1 else u.cache;
        if u.tlb > lat {
          lat := u.tlb;
        }
      }
    }

    /** Issue an operation that is off the ready queue. */
    method Release(slot: nat, u: S.Unit) returns (m: Move)
      requires Valid() && slot < st.Length
      modifies this`free, this`readyq, this`events, st
      ensures Issues(S.Release(old(View()), slot, u), m) && (!m.Failed? ==> Valid())
    {
      hide S.ReadyEnqueue, S.Start, S.IssueLatency, S.RingPos;
      var rs := st[slot];
      m := Moved;
      if rs.kind.Store? {
        if rs.onames[0] != NA || rs.onames[1] != NA {
          return Failed(StoreCreatesResult);
        }
        if rs.recover {
          return Failed(MispredictedStore);
        }
        st[slot] := rs.(issued := true, completed := true);
      } else if rs.noUnit || u.Unit? {
        var lat: Latency := 1;
        if !rs.noUnit {
          lat := IssueLatency(slot, u);
        }
        var r := Start(slot, lat);
        m := if r.Stopped? then Failed(r.panic) else Moved;
      } else {
        var r := ReadyEnqueue(slot);
        m := if r.Stopped? then Failed(r.panic) else Idle;
      }
    }

    method Start(slot: nat, lat: Latency) returns (r: Status)
      requires Valid() && slot < st.Length
      modifies this`free, this`events, st
      ensures Agrees(S.Start(old(View()), slot, lat), r) && (r.Running? ==> Valid())
    {
      hide S.QueueEvent, S.RingPos;
      st[slot] := st[slot].(issued := true);
      r := QueueEvent(slot, lat);
    }

    /** One iteration of the issue loop of ruu_issue. */
    method IssueOne(node: Link, u: S.Unit) returns (m: Move)
      requires Valid()
      modifies this`free, this`readyq, this`events, st
      ensures Issues(S.IssueOne(old(View()), node, u), m) && (!m.Failed? ==> Valid())
    {
      hide S.Release, S.RingPos;
      m := Idle;
      if node.slot < st.Length && st[node.slot].tag == node.tag {
        var rs := st[node.slot];
        if !OpsReady(rs) || !rs.queued || rs.issued || rs.completed {
          return Failed(IssuedNotReady);
        }
        st[node.slot] := rs.(queued := false);
        m := Release(node.slot, u);
      }
      free := [node.id] + free;
    }

    /** One iteration of the loop that puts nodes back on the ready queue. */
    method Requeue(node: Link) returns (r: Status)
      requires Valid()
      modifies this`free, this`readyq, st
      ensures Agrees(S.Requeue(old(View()), node), r) && (r.Running? ==> Valid())
    {
      hide S.ReadyEnqueue, S.RingPos;
      r := Running;
      if node.slot < st.Length && st[node.slot].tag == node.tag {
        st[node.slot] := st[node.slot].(queued := false);
        r := ReadyEnqueue(node.slot);
      }
      free := [node.id] + free;
    }

    /** The first loop of ruu_issue: how many nodes it has handled and the width it has left. */
    method IssueWithin(nodes: seq<Link>, units: nat -> S.Unit) returns (r: Status, k: nat, width: nat)
      requires Valid()
      modifies this`free, this`readyq, this`events, st
      ensures r.Running? ==> Valid() && k <= |nodes| && (k < |nodes| ==> width == 0)
      ensures r.Running? ==>
        S.IssueNodes(old(View()), nodes, c.issueWidth, units) == S.IssueNodes(View(), nodes[k..], width, units)
      ensures r.Stopped? ==> S.IssueNodes(old(View()), nodes, c.issueWidth, units) == Outcome.Panic(r.panic)
    {
      hide S.IssueOne, S.RingPos, View;
      r, k, width := Running, 0, c.issueWidth;
      assert nodes[0..] == nodes;
      while k < |nodes| && width > 0
        invariant Valid() && 0 <= k <= |nodes|
        invariant S.IssueNodes(old(View()), nodes, c.issueWidth, units) ==
          S.IssueNodes(View(), nodes[k..], width, units)
        decreases |nodes| - k
      {
        assert nodes[k..][0] == nodes[k] && nodes[k..][1..] == nodes[k + 1..];
        var m := IssueOne(nodes[k], units(|nodes| - k));
        match m {
          case Failed(p) =>
            r := Stopped(p);
            return;
          case Moved => width := width - 1;
          case Idle =>
        }
        k := k + 1;
      }
    }

    /** The second loop of ruu_issue, which puts the other nodes back. */
    method RequeueRest(nodes: seq<Link>, units: nat -> S.Unit) returns (r: Status)
      requires Valid()
      modifies this`free, this`readyq, st
      ensures Agrees(S.IssueNodes(old(View()), nodes, 0, units), r) && (r.Running? ==> Valid())
    {
      hide S.Requeue, S.RingPos, View;
      var k := 0;
      assert nodes[0..] == nodes;
      while k < |nodes|
        invariant Valid() && 0 <= k <= |nodes|
        invariant S.IssueNodes(old(View()), nodes, 0, units) == S.IssueNodes(View(), nodes[k..], 0, units)
        decreases |nodes| - k
      {
        assert nodes[k..][0] == nodes[k] && nodes[k..][1..] == nodes[k + 1..];
        r := Requeue(nodes[k]);
        if r.Stopped? {
          return;
        }
        k := k + 1;
      }
      assert nodes[k..] == [];
      r := Running;
    }

    /** ruu_issue */
    method Issue(units: nat -> S.Unit) returns (r: Status)
      requires Valid()
      modifies this`free, this`readyq, this`events, st
      ensures Agrees(S.Issue(old(View()), c.issueWidth, units), r) && (r.Running? ==> Valid())
    {
      hide S.IssueNodes, S.RingPos;
      var nodes := readyq;
      readyq := [];
      assert View() == old(View()).(q := old(View()).q.(readyq := []));
      var k, width;
      r, k, width := IssueWithin(nodes, units);
      if r.Running? {
        if k == |nodes| {
          NoNodes(View(), nodes[k..], width, units);
        } else {
          r := RequeueRest(nodes[k..], units);
        }
      }
    }

    // -------------------------------------------------------------- dispatch

    /** A new operation takes the tail of the RUU. */
    method AllocRuu(kind: Kind, op: Op, pc: nat, next: nat, pred: nat)
      requires Valid() && rn < c.nr
      modifies this`rt, this`rn, this`lastSeq, st
      ensures View() == S.AllocRuu(old(View()), kind, op, pc, next, pred)
      ensures Valid()
    {
      hide S.Fresh, S.RingPos, Valid;
      ValidParts();
      var rs := S.Fresh(st[rt], kind, op, pc, next, pred, specMode, 0, lastSeq + 1);
      assert rs == S.Fresh(View().w.st[rt], kind, op, pc, next, pred, specMode, 0, lastSeq + 1);
      hide View, S.Wrap;
      Put(rt, rs);
      AdvanceRuu();
      SizedValid();
    }

    method AdvanceRuu()
      requires rt < c.nr
      modifies `rt, `rn, `lastSeq
      ensures var w := old(View()).w;
        View() == old(View()).(w := w.(rt := S.Wrap(w.rt + 1, w.nr), rn := w.rn + 1, lastSeq := w.lastSeq + 1))
    {
      WrapIsMod(rt + 1, c.nr);
      rt, rn, lastSeq := (rt + 1) % c.nr, rn + 1, lastSeq + 1;
    }

    method AdvanceLsq()
      requires lt < c.nl
      modifies `lt, `ln, `lastSeq
      ensures var w := old(View()).w;
        View() == old(View()).(w := w.(lt := S.Wrap(w.lt + 1, w.nl), ln := w.ln + 1, lastSeq := w.lastSeq + 1))
    {
      WrapIsMod(lt + 1, c.nl);
      lt, ln, lastSeq := (lt + 1) % c.nl, ln + 1, lastSeq + 1;
    }

    /** Overwrite one station. */
    method Put(i: nat, rs: Station)
      requires i < st.Length
      modifies st
      ensures View() == old(View()).(w := S.Put(old(View()).w, i, rs))
    {
      st[i] := rs;
    }

    lemma ValidParts()
      requires Valid()
      ensures S.Sized(View()) && cv != scv && st.Length == c.nr + c.nl && rt < c.nr && lt < c.nl
    {
    }

    lemma SizedValid()
      requires S.Sized(View()) && cv != scv
      ensures Valid()
    {
    }

    /** A new load or store takes the tail of the LSQ. */
    method AllocLsq(kind: Kind, op: Op, pc: nat, next: nat, pred: nat, addr: nat)
      requires Valid() && ln < c.nl
      modifies this`lt, this`ln, this`lastSeq, st
      ensures View() == S.AllocLsq(old(View()), kind, op, pc, next, pred, addr)
      ensures Valid()
    {
      hide S.Fresh, S.RingPos, Valid;
      ValidParts();
      var i := c.nr + lt;
      var rs := S.Fresh(st[i], kind, op, pc, next, pred, specMode, addr, lastSeq + 1);
      assert rs == S.Fresh(View().w.st[i], kind, op, pc, next, pred, specMode, addr, lastSeq + 1);
      hide View, S.Wrap;
      Put(i, rs);
      AdvanceLsq();
      SizedValid();
    }

    /** ruu_link_idep */
    method LinkIdep(slot: nat, j: nat, name: Reg) returns (r: Status)
      requires Valid() && slot < st.Length && j < 3
      modifies this`free, st
      ensures Agrees(S.LinkIdep(old(View()), slot, j, name), r) && (r.Running? ==> Valid())
    {
      hide S.RingPos;
      var maker := if name in useSpec then scv[name] else cv[name];
      var rs := st[slot].(inames := st[slot].inames[j := name]);
      if name == NA || maker.NoCreator? {
        st[slot] := rs.(ready := rs.ready[j := true]);
        return Running;
      }
      if maker.slot >= st.Length || maker.odep >= 2 || maker.slot == slot {
        return Stopped(WildLink);
      }
      if free == [] {
        return Stopped(OutOfLinks);
      }
      var l := Link(free[0], slot, rs.tag, j);
      free := free[1..];
      st[slot] := rs.(ready := rs.ready[j := false]);
      var p := st[maker.slot];
      st[maker.slot] := p.(odeps := p.odeps[maker.odep := [l] + p.odeps[maker.odep]]);
      r := Running;
    }

    /** ruu_install_odep */
    method InstallOdep(slot: nat, i: nat, name: Reg)
      requires Valid() && slot < st.Length && i < 2
      modifies this`useSpec, st, cv, scv
      ensures Valid() && View() == S.InstallOdep(old(View()), slot, i, name)
    {
      hide S.RingPos, S.SetCreateVector;
      var rs := st[slot].(onames := st[slot].onames[i := name]);
      if name == NA {
        st[slot] := rs;
        return;
      }
      st[slot] := rs.(odeps := rs.odeps[i := []]);
      SetCreateVector(name, Creator(slot, i));
    }

    /** SET_CREATE_VECTOR */
    method SetCreateVector(name: Reg, maker: Creator)
      requires Valid()
      modifies this`useSpec, cv, scv
      ensures Valid() && View() == old(View()).(v := S.SetCreateVector(old(View()).v, specMode, name, maker))
    {
      hide S.RingPos;
      if specMode {
        useSpec := useSpec + {name};
        scv[name] := maker;
      } else {
        cv[name] := maker;
      }
    }

    /** Name the three inputs, then the two outputs, of a new operation. */
    method Connect(slot: nat, ins: Ins, outs: Outs) returns (r: Status)
      requires Valid() && slot < st.Length
      modifies this`free, this`useSpec, st, cv, scv
      ensures Agrees(S.Connect(old(View()), slot, ins, outs), r) && (r.Running? ==> Valid())
    {
      hide S.LinkIdep, S.InstallOdep, S.RingPos;
      r := LinkIdep(slot, 0, ins[0]);
      if r.Stopped? {
        return;
      }
      r := LinkIdep(slot, 1, ins[1]);
      if r.Stopped? {
        return;
      }
      r := LinkIdep(slot, 2, ins[2]);
      if r.Stopped? {
        return;
      }
      InstallOdep(slot, 0, outs[0]);
      InstallOdep(slot, 1, outs[1]);
    }

    method EnqueueIfReady(slot: nat) returns (r: Status)
      requires Valid() && slot < st.Length
      modifies this`free, this`readyq, st
      ensures Agrees(S.EnqueueIfReady(old(View()), slot), r) && (r.Running? ==> Valid())
    {
      hide S.ReadyEnqueue, S.RingPos;
      r := Running;
      if OpsReady(st[slot]) {
        r := ReadyEnqueue(slot);
      }
    }

    /** Dispatch of an instruction that does not access memory. */
    method AllocateAlu(op: Op, pc: nat, eff: Effect, pred: nat) returns (r: Status)
      requires Valid() && rn < c.nr
      modifies this`free, this`readyq, this`useSpec, this`rt, this`rn, this`lastSeq, st, cv, scv
      ensures Agrees(S.AllocateAlu(old(View()), op, pc, eff, pred), r) && (r.Running? ==> Valid())
    {
      hide S.AllocRuu, S.Connect, S.EnqueueIfReady, S.RingPos;
      var slot := rt;
      AllocRuu(Alu, op, pc, eff.next, pred);
      r := Connect(slot, op.ins, op.outs);
      if r.Running? {
        r := EnqueueIfReady(slot);
      }
    }

    /** The RUU half of a load or store. */
    method AllocateAddr(op: Op, pc: nat, eff: Effect, pred: nat) returns (r: Status)
      requires Valid() && rn < c.nr
      modifies this`free, this`useSpec, this`rt, this`rn, this`lastSeq, st, cv, scv
      ensures Agrees(S.AllocateAddr(old(View()), op, pc, eff, pred), r) && (r.Running? ==> Valid())
    {
      hide S.AllocRuu, S.Connect, S.RingPos;
      var slot := rt;
      AllocRuu(Addr, op, pc, eff.next, pred);
      r := Connect(slot, [NA, op.ins[1], op.ins[2]], [DTMP, NA]);
    }

    /** The LSQ half of a load or store. */
    method AllocateAccess(op: Op, pc: nat, eff: Effect, pred: nat) returns (r: Status)
      requires Valid() && ln < c.nl
      modifies this`free, this`useSpec, this`lt, this`ln, this`lastSeq, st, cv, scv
      ensures Agrees(S.AllocateAccess(old(View()), op, pc, eff, pred), r) && (r.Running? ==> Valid())
    {
      hide S.AllocLsq, S.Connect, S.RingPos;
      var slot := c.nr + lt;
      AllocLsq(S.MemKind(op), op, pc, eff.next, pred, eff.addr);
      r := Connect(slot, [op.ins[0], DTMP, NA], op.outs);
    }

    /** Dispatch of a load or store. */
    method AllocateMem(op: Op, pc: nat, eff: Effect, pred: nat) returns (r: Status)
      requires Valid() && rn < c.nr && ln < c.nl
      modifies this`free, this`readyq, this`useSpec, this`rt, this`rn, this`lt, this`ln, this`lastSeq, st, cv, scv
      ensures Agrees(S.AllocateMem(old(View()), op, pc, eff, pred), r) && (r.Running? ==> Valid())
    {
      hide S.AllocateAddr, S.AllocateAccess, S.EnqueueIfReady, S.RingPos;
      var ruu, lsq := rt, c.nr + lt;
      r := AllocateAddr(op, pc, eff, pred);
      if r.Stopped? {
        return;
      }
      r := AllocateAccess(op, pc, eff, pred);
      if r.Stopped? {
        return;
      }
      r := EnqueueIfReady(ruu);
      if r.Running? && op.mem.StoreOp? {
        r := EnqueueIfReady(lsq);
      }
    }

    /** Execute the instruction at the head of the fetch queue and take it off; redirect fetch if need be. */
    method Decode(op: Op, eff: Effect)
      requires Valid() && fq != []
      modifies this`arch, this`overlay, this`fq, this`fetchPC, this`delay
      ensures Valid() && View() == old(View()).(f := S.Decode(c, old(View()).f, op, eff))
    {
      hide S.RingPos;
      if specMode {
        overlay := overlay + eff.writes;
      } else {
        arch := arch + eff.writes;
      }
      if S.Redirects(c, op, fq[0], eff) {
        fq, fetchPC := [], eff.next;
        if !c.perfect {
          delay := c.branchPenalty;
        }
      } else {
        fq := fq[1..];
      }
    }

    /** The instruction at the head of the fetch queue enters the window. */
    method Admit(op: Op, eff: Effect) returns (r: Status)
      requires Valid() && fq != [] && rn < c.nr && ln < c.nl
      modifies this`free, this`readyq, this`useSpec, this`rt, this`rn, this`lt, this`ln, this`lastSeq, st, cv, scv
      ensures Agrees(S.Admit(c, old(View()), op, eff), r) && (r.Running? ==> Valid())
    {
      hide S.AllocateAlu, S.AllocateMem, S.Carried, S.RingPos;
      r := Running;
      if !op.nop {
        var fe := fq[0];
        if op.mem.NoMem? {
          r := AllocateAlu(op, fe.pc, eff, S.Carried(c, op, fe, eff));
        } else {
          r := AllocateMem(op, fe.pc, eff, S.Carried(c, op, fe, eff));
        }
      }
    }

    /** Once the instruction is in the window: trace it, and start mis-speculation if fetch went wrong. */
    method Follow(op: Op, eff: Effect, slot: nat, seqno: nat, ghost s: State) returns (m: Move)
      requires Valid() && fq != [] && S.Sized(s) && s.f == View().f && s.h == h && |s.w.st| == st.Length
      requires slot == s.w.rt && seqno == s.w.lastSeq + 1
      modifies this`arch, this`overlay, this`fq, this`fetchPC, this`delay, this`specMode, this`recoverPC, this`h, st
      ensures MovesTo(S.Follow(c, s, old(View()), op, eff), m) && !m.Idle? && (m.Moved? ==> Valid())
    {
      hide S.Decode, S.Redirects, S.Carried, S.Traced, S.MarkRecover, S.RingPos;
      var fe := fq[0];
      var wrong := !specMode && S.Carried(c, op, fe, eff) != eff.next && !S.Redirects(c, op, fe, eff);
      if !specMode {
        h := S.Traced(h, op, fe.pc, seqno);
      }
      Decode(op, eff);
      if wrong {
        if op.nop {
          return Failed(NullStation);
        }
        StartSpeculating(slot, eff.next);
      }
      m := Moved;
    }

    /** The operation in `slot` is mispredicted: what is dispatched from now on is speculative. */
    method StartSpeculating(slot: nat, pc: nat)
      requires Valid() && slot < st.Length
      modifies this`specMode, this`recoverPC, st
      ensures Valid()
      ensures View() ==
        old(View()).(w := S.MarkRecover(old(View()).w, slot), f := old(View()).f.(specMode := true, recoverPC := pc))
    {
      hide S.RingPos;
      st[slot] := st[slot].(recover := true);
      specMode, recoverPC := true, pc;
    }

    /** One iteration of the loop of ruu_dispatch. */
    method DispatchOne() returns (m: Move)
      requires Valid()
      modifies this, st, cv, scv
      ensures MovesTo(S.DispatchOne(c, old(View())), m)
      ensures (m.Moved? ==> Valid()) && (m.Idle? ==> View() == old(View()))
    {
      hide S.Admit, S.Follow, S.RingPos;
      if rn >= c.nr || ln >= c.nl || fq == [] || (specMode && !c.includeSpec) {
        return Idle;
      }
      var fe := fq[0];
      var op := c.decode(fe.ir);
      if op.trap && rn != 0 {
        return Idle;
      }
      if op.trap && specMode {
        return Failed(DrainedAndSpeculative);
      }
      var eff := c.exec(fe.ir, fe.pc, arch + overlay);
      var slot, seqno := rt, lastSeq + 1;
      ghost var s := View();
      var r := Admit(op, eff);
      if r.Stopped? {
        return Failed(r.panic);
      }
      m := Follow(op, eff, slot, seqno, s);
    }

    /** ruu_dispatch */
    method Dispatch() returns (r: Status)
      requires Valid()
      modifies this, st, cv, scv
      ensures Agrees(S.Dispatch(c, old(View()), c.decodeWidth * c.fetchSpeed), r) && (r.Running? ==> Valid())
    {
      hide S.DispatchOne, S.RingPos, View;
      var width: nat := c.decodeWidth * c.fetchSpeed;
      while width > 0
        invariant Valid()
        invariant S.Dispatch(c, old(View()), c.decodeWidth * c.fetchSpeed) == S.Dispatch(c, View(), width)
        decreases width
      {
        var m := DispatchOne();
        match m {
          case Idle => break;
          case Failed(p) => return Stopped(p);
          case Moved => width := width - 1;
        }
      }
      r := Running;
    }

    // -------------------------------------------------------------- fetch

    /** One instruction joins the fetch queue. */
    method FetchInst(guess: nat)
      requires Valid()
      modifies this`fq, this`fetchPC
      ensures Valid() && View() == old(View()).(f := S.FetchInst(c, old(View()).f, guess))
    {
      hide S.RingPos;
      var pc := fetchPC;
      fetchPC := if guess == 0 then Config.Fall(pc) else guess;
      fq := fq + [Fetched(c.Inst(pc), pc, fetchPC)];
    }

    /** ruu_fetch */
    method Fetch(inputs: nat -> S.FetchInput)
      requires Valid()
      modifies this`fq, this`fetchPC, this`delay
      ensures Valid() &&
        View() == old(View()).(f := S.Fetch(c, old(View()).f, c.decodeWidth * c.fetchSpeed, c.fetchSpeed, inputs))
    {
      hide S.RingPos, S.FetchInst, S.Guess;
      var width: nat, branches: nat := c.decodeWidth * c.fetchSpeed, c.fetchSpeed;
      ghost var all := S.Fetch(c, View().f, width, branches, inputs);
      while width > 0 && |fq| < c.ifq
        invariant Valid() && View() == old(View()).(f := View().f)
        invariant all == S.Fetch(c, View().f, width, branches, inputs)
        decreases width
      {
        var input := inputs(width);
        if input.Miss? && c.InText(fetchPC) {
          delay := delay + input.lat - 1;
          return;
        }
        var guess := S.Guess(c, fetchPC, input);
        FetchInst(guess);
        if guess != 0 {
          if branches <= 1 {
            return;
          }
          branches := branches - 1;
        }
        width := width - 1;
      }
    }

    // -------------------------------------------------------------- whole runs

    /** One iteration of the loop of sim_main: the stages run from last to first. */
    method Cycle(i: S.Inputs) returns (r: Status)
      requires Valid()
      modifies this, st, cv, scv
      ensures Agrees(S.Cycle(c, old(View()), i), r) && (r.Running? ==> Valid())
    {
      hide S.Commit, S.Writeback, S.Refresh, S.Issue, S.Dispatch, S.Fetch, S.RingPos;
      if rn < ln {
        return Stopped(RuuBelowLsq);
      }
      r := Commit(i.ports);
      if r.Stopped? {
        return;
      }
      r := Writeback();
      if r.Stopped? {
        return;
      }
      r := Refresh();
      if r.Stopped? {
        return;
      }
      r := Issue(i.units);
      if r.Stopped? {
        return;
      }
      r := Dispatch();
      if r.Stopped? {
        return;
      }
      FetchAndTick(i.fetches);
    }

    method FetchAndTick(fetches: nat -> S.FetchInput)
      requires Valid()
      modifies this`fq, this`fetchPC, this`delay, this`now
      ensures Valid() && View() == S.FetchAndTick(c, old(View()), fetches)
    {
      hide S.Fetch, S.RingPos;
      if delay == 0 {
        Fetch(fetches);
      } else {
        delay := delay - 1;
      }
      now := now + 1;
    }

    /**
     * sim_main: run for as many cycles as the environment has answers for.  The state reached is
     * one the theorems are about, and the simulator stops early only for an excused reason.
     */
    method Simulate(inputs: seq<S.Inputs>) returns (r: Status)
      requires Valid() && c.Valid() && View() == S.Initial(c)
      modifies this, st, cv, scv
      ensures Agrees(S.Run(c, inputs), r)
      ensures r.Running? ==> Valid() && T.Reachable(c, View())
      ensures r.Stopped? ==> R.Excused(c, r.panic)
    {
      hide S.Cycle, S.Initial, View, S.RingPos, R.Excused;
      var k := 0;
      r := Running;
      while k < |inputs|
        invariant 0 <= k <= |inputs| && Valid() && r == Running
        invariant S.Run(c, inputs[..k]) == Ok(View())
      {
        r := Cycle(inputs[k]);
        assert inputs[..k + 1][..k] == inputs[..k];
        if r.Stopped? {
          StopsEarly(c, inputs, k + 1);
          T.StopIsExcused(c, inputs);
          return;
        }
        k := k + 1;
      }
      assert inputs[..k] == inputs;
    }
  }

  lemma {:induction false} StopsEarly(c: Config, inputs: seq<S.Inputs>, k: nat)
    requires c.nr > 0 && c.nl > 0 && k <= |inputs| && S.Run(c, inputs[..k]).Panic?
    ensures S.Run(c, inputs) == S.Run(c, inputs[..k])
    decreases |inputs| - k
  {
    hide S.Cycle, S.Initial;
    if k < |inputs| {
      assert inputs[..k + 1][..k] == inputs[..k];
      StopsEarly(c, inputs, k + 1);
    } else {
      assert inputs[..k] == inputs;
    }
  }
}
