/**
 * The pipeline stages of sim-outorder.c as functions of the core's state.  Every internal
 * consistency check of the simulator is kept: it yields a `Panic`.
 */
module OooStages {
  import opened OooTypes

  // ---------------------------------------------------------------- circular buffers

  /** `i % n` for `i < 2 * n`. */
  function Wrap(i: nat, n: nat): nat {
    if i < n then i else i - n
  }

  /** Distance of index `i` from the head of a ring of `n` entries. */
  function RingPos(head: int, n: int, i: int): int {
    if i >= head then i - head else i + n - head
  }

  /** Both rings are in shape: head plus count meets tail. */
  predicate Ring(w: Window) {
    && w.nr > 0 && w.nl > 0 && |w.st| == w.nr + w.nl
    && w.rh < w.nr && w.rn <= w.nr && w.rt == Wrap(w.rh + w.rn, w.nr)
    && w.lh < w.nl && w.ln <= w.nl && w.lt == Wrap(w.lh + w.ln, w.nl)
  }

  predicate LiveR(w: Window, s: int) {
    0 <= s < w.nr && RingPos(w.rh, w.nr, s) < w.rn
  }

  predicate LiveL(w: Window, s: int) {
    w.nr <= s < w.nr + w.nl && RingPos(w.lh, w.nl, s - w.nr) < w.ln
  }

  /** The slot holds an operation that is in the machine. */
  predicate Live(w: Window, s: int) {
    LiveR(w, s) || LiveL(w, s)
  }

  /** Only the contents of stations differ. */
  predicate SameRings(w: Window, w': Window) {
    w' == w.(st := w'.st) && |w'.st| == |w.st|
  }

  function Put(w: Window, slot: nat, rs: Station): Window
    requires slot < |w.st|
  {
    w.(st := w.st[slot := rs])
  }

  // ---------------------------------------------------------------- links and queues

  predicate Valid(st: seq<Station>, l: Link) {
    l.slot < |st| && st[l.slot].tag == l.tag
  }

  /** Take a link record off the free list. */
  function NewLink(q: Queues, slot: nat, tag: nat, x: nat): Outcome<(Queues, Link)> {
    if q.free == [] then Outcome.Panic(OutOfLinks)
    else Ok((q.(free := q.free[1..]), Link(q.free[0], slot, tag, x)))
  }

  function FreeLink(q: Queues, l: Link): Queues {
    q.(free := [l.id] + q.free)
  }

  function FreeList(q: Queues, chain: seq<Link>): (r: Queues)
    ensures r == q.(free := r.free)
    decreases |chain|
  {
    if chain == [] then q else FreeList(FreeLink(q, chain[0]), chain[1..])
  }

  /** Insert before the first node whose key is not smaller. */
  function InsertSorted(q: seq<Link>, l: Link): seq<Link> {
    if q == [] || q[0].x >= l.x then [l] + q else [q[0]] + InsertSorted(q[1..], l)
  }

  /** readyq_enqueue */
  function ReadyEnqueue(s: State, slot: nat): (r: Outcome<State>)
    requires Ring(s.w) && slot < |s.w.st|
    ensures r.Ok? ==> SameRings(s.w, r.value.w)
  {
    var rs := s.w.st[slot];
    if rs.queued then Outcome.Panic(AlreadyQueued) else
    var (q1, l) :- NewLink(s.q, slot, rs.tag, rs.seqno);
    var ready := if InLsq(rs) || rs.urgent then [l] + q1.readyq else InsertSorted(q1.readyq, l);
    Ok(s.(w := Put(s.w, slot, rs.(queued := true)), q := q1.(readyq := ready)))
  }

  /** eventq_queue_event; latencies are at least one, so the event is in the future */
  function QueueEvent(s: State, slot: nat, lat: Latency): (r: Outcome<State>)
    requires Ring(s.w) && slot < |s.w.st|
    ensures r.Ok? ==> SameRings(s.w, r.value.w)
  {
    var rs := s.w.st[slot];
    if rs.completed then Outcome.Panic(EventCompleted) else
    var (q1, l) :- NewLink(s.q, slot, rs.tag, s.q.now + lat);
    Ok(s.(q := q1.(events := InsertSorted(q1.events, l))))
  }

  datatype NextEvent = NoEvent(q: Queues) | Event(q: Queues, link: Link)

  /** eventq_next_event: pop due events, dropping those of squashed operations */
  function PopEvent(q: Queues, st: seq<Station>): (r: NextEvent)
    ensures |r.q.events| <= |q.events|
    ensures r.Event? ==> |r.q.events| < |q.events| && Valid(st, r.link)
    decreases |q.events|
  {
    if q.events == [] || q.events[0].x > q.now then NoEvent(q) else
    var l := q.events[0];
    var q1 := FreeLink(q.(events := q.events[1..]), l);
    if Valid(st, l) then Event(q1, l) else PopEvent(q1, st)
  }

  // ---------------------------------------------------------------- create vector

  function CreateVector(v: Vectors, n: Reg): Creator
    requires |v.cv| == |v.scv| == TOTAL_REGS
  {
    if n in v.useSpec then v.scv[n] else v.cv[n]
  }

  function SetCreateVector(v: Vectors, spec: bool, n: Reg, c: Creator): Vectors
    requires |v.cv| == |v.scv| == TOTAL_REGS
  {
    if spec then v.(useSpec := v.useSpec + {n}, scv := v.scv[n := c]) else v.(cv := v.cv[n := c])
  }

  predicate Sized(s: State) {
    Ring(s.w) && |s.v.cv| == |s.v.scv| == TOTAL_REGS
  }

  // ---------------------------------------------------------------- commit

  /** Drop the oldest LSQ entry. */
  function RetireLsq(w: Window): Window
    requires Ring(w) && w.ln > 0
  {
    var i := w.nr + w.lh;
    Put(w, i, w.st[i].(tag := w.st[i].tag + 1)).(lh := Wrap(w.lh + 1, w.nl), ln := w.ln - 1)
  }

  /** Drop the oldest RUU entry. */
  function RetireRuu(w: Window): Window
    requires Ring(w) && w.rn > 0
  {
    Put(w, w.rh, w.st[w.rh].(tag := w.st[w.rh].tag + 1)).(rh := Wrap(w.rh + 1, w.nr), rn := w.rn - 1)
  }

  /** One iteration of ruu_commit; `port` says whether a store port is free. */
  function CommitOne(s: State, port: bool): (r: Step)
    requires Sized(s)
    ensures r.Next? ==> Sized(r.s)
  {
    if s.w.rn == 0 then Stop else
    var rs := s.w.st[s.w.rh];
    var lsq := s.w.st[s.w.nr + s.w.lh];
    if !rs.completed then Stop
    else if rs.kind.Addr? && (s.w.ln == 0 || !InLsq(lsq)) then Halt(OutOfSync)
    else if rs.kind.Addr? && !lsq.completed then Stop
    else if rs.kind.Addr? && lsq.kind.Store? && !port then Stop
    else
      var w1 := if rs.kind.Addr? then RetireLsq(s.w) else s.w;
      if rs.odeps[0] != [] || rs.odeps[1] != [] then Halt(RetiredOdeps)
      else Next(s.(w := RetireRuu(w1), h := s.h.(retired := s.h.retired + [Entry(rs.seqno, rs.pc)])))
  }

  /** ruu_commit; `ports(k)` is the answer of the resource pool with `k` slots of width left. */
  function Commit(s: State, width: nat, ports: nat -> bool): (r: Outcome<State>)
    requires Sized(s)
    ensures r.Ok? ==> Sized(r.value)
    decreases width
  {
    if width == 0 then Ok(s) else
    match CommitOne(s, ports(width))
    case Stop => Ok(s)
    case Halt(p) => Outcome.Panic(p)
    case Next(s1) => Commit(s1, width - 1, ports)
  }

  // ---------------------------------------------------------------- recovery

  function BlankChains(): Chains { [[], []] }

  /** Squash the station in `slot`: release its chains and invalidate links to it. */
  function SquashSlot(s: State, slot: nat): (r: State)
    requires Ring(s.w) && slot < |s.w.st|
    ensures r.q == s.q.(free := r.q.free)
  {
    var rs := s.w.st[slot];
    s.(w := Put(s.w, slot, rs.(odeps := BlankChains(), tag := rs.tag + 1)),
       q := FreeList(FreeList(s.q, rs.odeps[0]), rs.odeps[1]))
  }

  /** Squash the youngest LSQ entry. */
  function SquashLsq(s: State): (r: State)
    requires Ring(s.w) && s.w.ln > 0
    ensures Ring(r.w) && r.q == s.q.(free := r.q.free)
  {
    var i := Wrap(s.w.lt + s.w.nl - 1, s.w.nl);
    var s1 := SquashSlot(s, s.w.nr + i);
    s1.(w := s1.w.(lt := i, ln := s1.w.ln - 1))
  }

  /** Squash the youngest RUU entry. */
  function SquashRuu(s: State): (r: State)
    requires Ring(s.w) && s.w.rn > 0
    ensures Ring(r.w) && r.q == s.q.(free := r.q.free)
  {
    var i := Wrap(s.w.rt + s.w.nr - 1, s.w.nr);
    var s1 := SquashSlot(s, i);
    s1.(w := s1.w.(rt := i, rn := s1.w.rn - 1))
  }

  /** One iteration of the loop of ruu_recover: squash the youngest instruction. */
  function SquashOne(s: State): (r: Outcome<State>)
    requires Ring(s.w)
    ensures r.Ok? ==> Ring(r.value.w) && r.value.w.rn < s.w.rn && |r.value.w.st| == |s.w.st|
    ensures r.Ok? ==> r.value == s.(w := r.value.w, q := s.q.(free := r.value.q.free))
  {
    var i := Wrap(s.w.rt + s.w.nr - 1, s.w.nr);
    if s.w.rn == 0 then Outcome.Panic(EmptyRuu)
    else if i == s.w.rh then Outcome.Panic(HeadAndTailBroken)
    else if s.w.st[i].kind.Addr? && s.w.ln == 0 then Outcome.Panic(OutOfSync)
    else Ok(SquashRuu(if s.w.st[i].kind.Addr? then SquashLsq(s) else s))
  }

  /** The loop of ruu_recover: squash from the tail back to the branch. */
  function RecoverWindow(s: State, branch: nat): (r: Outcome<State>)
    requires Ring(s.w)
    ensures r.Ok? ==> Ring(r.value.w) && |r.value.w.st| == |s.w.st|
    ensures r.Ok? ==> r.value == s.(w := r.value.w, q := s.q.(free := r.value.q.free))
    decreases s.w.rn
  {
    if Wrap(s.w.rt + s.w.nr - 1, s.w.nr) == branch then Ok(s) else
    var s1 :- SquashOne(s);
    RecoverWindow(s1, branch)
  }

  /** tracer_recover: drop the speculative overlay and refetch from the right path. */
  function TracerRecover(f: Front): Outcome<Front> {
    if !f.specMode then Outcome.Panic(CannotRecover)
    else Ok(f.(specMode := false, overlay := map[], fq := [], fetchPC := f.recoverPC))
  }

  /** Everything a mispredicted branch does when it completes. */
  function Recover(c: Config, s: State, branch: nat): (r: Outcome<State>)
    requires Sized(s)
    ensures r.Ok? ==> Sized(r.value) && |r.value.w.st| == |s.w.st| && r.value.q.events == s.q.events
  {
    var s1 :- RecoverWindow(s, branch);
    var f1 :- TracerRecover(s1.f);
    Ok(s1.(v := s1.v.(useSpec := {}), f := f1.(delay := c.branchPenalty)))
  }

  // ---------------------------------------------------------------- writeback

  /** Operand `j` of the operation in `slot` becomes ready. */
  function SetReady(s: State, slot: nat, j: nat): (r: State)
    requires Ring(s.w) && slot < |s.w.st| && j < 3
    ensures SameRings(s.w, r.w)
  {
    s.(w := Put(s.w, slot, s.w.st[slot].(ready := s.w.st[slot].ready[j := true])))
  }

  /** Operand `j` of `slot` becomes ready, and the operation is queued once that was the last operand. */
  function WakeSlot(s: State, slot: nat, j: nat): (r: Outcome<State>)
    requires Ring(s.w) && slot < |s.w.st| && j < 3
    ensures r.Ok? ==> SameRings(s.w, r.value.w) && r.value.v == s.v && r.value.q.events == s.q.events
  {
    var s1 := SetReady(s, slot, j);
    if OpsReady(s1.w.st[slot]) && !s1.w.st[slot].kind.Load? then ReadyEnqueue(s1, slot) else Ok(s1)
  }

  /** Follow one output-dependence link of a completed operation. */
  function WakeOne(s: State, l: Link): (r: Outcome<State>)
    requires Ring(s.w)
    ensures r.Ok? ==> SameRings(s.w, r.value.w) && r.value.v == s.v && r.value.q.events == s.q.events
  {
    if l.slot >= |s.w.st| || l.x >= 3 then Outcome.Panic(WildLink) else
    if !Valid(s.w.st, l) then Ok(s.(q := FreeLink(s.q, l))) else
    if s.w.st[l.slot].ready[l.x] then Outcome.Panic(AlreadySatisfied) else
    var s1 :- WakeSlot(s, l.slot, l.x);
    Ok(s1.(q := FreeLink(s1.q, l)))
  }

  function WakeAll(s: State, chain: seq<Link>): (r: Outcome<State>)
    requires Ring(s.w)
    ensures r.Ok? ==> SameRings(s.w, r.value.w) && r.value.v == s.v && r.value.q.events == s.q.events
    decreases |chain|
  {
    if chain == [] then Ok(s) else
    var s1 :- WakeOne(s, chain[0]);
    WakeAll(s1, chain[1..])
  }

  /** Forget the creator entry of output `i` of `slot`, if it is still the latest creator. */
  function ClearCreator(v: Vectors, rs: Station, slot: nat, i: nat): Vectors
    requires |v.cv| == |v.scv| == TOTAL_REGS && i < 2
  {
    var n := rs.onames[i];
    var mine := Creator(slot, i);
    if rs.spec then (if v.scv[n] == mine then v.(scv := v.scv[n := NoCreator]) else v)
    else (if v.cv[n] == mine then v.(cv := v.cv[n := NoCreator]) else v)
  }

  /** Broadcast output `i` of a completed operation. */
  function Broadcast(s: State, slot: nat, i: nat): (r: Outcome<State>)
    requires Sized(s) && slot < |s.w.st| && i < 2
    ensures r.Ok? ==> Sized(r.value) && SameRings(s.w, r.value.w) && r.value.q.events == s.q.events
  {
    var rs := s.w.st[slot];
    if rs.onames[i] == NA then Ok(s) else
    var w1 := Put(s.w, slot, rs.(odeps := rs.odeps[i := []]));
    WakeAll(s.(v := ClearCreator(s.v, rs, slot, i), w := w1), rs.odeps[i])
  }

  /** Broadcast both outputs. */
  function Deliver(s: State, slot: nat): (r: Outcome<State>)
    requires Sized(s) && slot < |s.w.st|
    ensures r.Ok? ==> Sized(r.value) && SameRings(s.w, r.value.w) && r.value.q.events == s.q.events
  {
    var s1 :- Broadcast(s, slot, 0);
    Broadcast(s1, slot, 1)
  }

  /** Completion of the operation in `slot` whose event has just been popped. */
  function Complete(c: Config, s: State, slot: nat): (r: Outcome<State>)
    requires Sized(s) && slot < |s.w.st|
    ensures r.Ok? ==> Sized(r.value) && r.value.q.events == s.q.events
  {
    var rs := s.w.st[slot];
    if !OpsReady(rs) || rs.queued || !rs.issued || rs.completed then Outcome.Panic(CompletedNotReady)
    else if rs.recover && InLsq(rs) then Outcome.Panic(MispredictedMem)
    else
      var s1 := s.(w := Put(s.w, slot, rs.(completed := true)));
      var s2 :- if rs.recover then Recover(c, s1, slot) else Ok(s1);
      Deliver(s2, slot)
  }

  /** ruu_writeback */
  function Writeback(c: Config, s: State): (r: Outcome<State>)
    requires Sized(s)
    ensures r.Ok? ==> Sized(r.value)
    decreases |s.q.events|
  {
    match PopEvent(s.q, s.w.st)
    case NoEvent(q1) => Ok(s.(q := q1))
    case Event(q1, l) =>
      var s1 :- Complete(c, s.(q := q1), l.slot);
      Writeback(c, s1)
  }

  // ---------------------------------------------------------------- memory scheduling

  /** Overwrite every entry equal to `a` by the bogus address zero. */
  function Hide(unknowns: seq<nat>, a: nat): (r: seq<nat>)
    ensures |r| == |unknowns|
  {
    seq(|unknowns|, i requires 0 <= i < |unknowns| => if unknowns[i] == a then 0 else unknowns[i])
  }

  predicate Waiting(rs: Station) {
    !rs.queued && !rs.issued && !rs.completed
  }

  /** The scan of lsq_refresh after some LSQ entries: state, data-unknown store addresses, go on? */
  datatype Scan = Scan(s: State, unknowns: seq<nat>, more: bool)

  /** The `k`-th LSQ entry in the scan of lsq_refresh. */
  function ScanOne(s: State, k: nat, unknowns: seq<nat>): (r: Outcome<Scan>)
    requires Ring(s.w) && k < s.w.ln
    ensures r.Ok? ==> SameRings(s.w, r.value.s.w) && r.value.s.v == s.v
  {
    var i := s.w.nr + Wrap(s.w.lh + k, s.w.nl);
    var rs := s.w.st[i];
    if rs.kind.Store? then
      if !rs.ready[1] then Ok(Scan(s, unknowns, false))
      else if OpsReady(rs) then Ok(Scan(s, Hide(unknowns, rs.addr), true))
      else if |unknowns| == MAX_STD_UNKNOWNS then Outcome.Panic(StdUnknownOverflow)
      else Ok(Scan(s, unknowns + [rs.addr], true))
    else if rs.kind.Load? && Waiting(rs) && OpsReady(rs) && rs.addr !in unknowns then
      var s1 :- ReadyEnqueue(s, i);
      Ok(Scan(s1, unknowns, true))
    else Ok(Scan(s, unknowns, true))
  }

  /** lsq_refresh from the `k`-th LSQ entry on */
  function RefreshFrom(s: State, k: nat, unknowns: seq<nat>): (r: Outcome<State>)
    requires Ring(s.w) && k <= s.w.ln
    ensures r.Ok? ==> SameRings(s.w, r.value.w) && r.value.v == s.v
    decreases s.w.ln - k
  {
    if k == s.w.ln then Ok(s) else
    var r :- ScanOne(s, k, unknowns);
    if r.more then RefreshFrom(r.s, k + 1, r.unknowns) else Ok(r.s)
  }

  /** lsq_refresh */
  function Refresh(s: State): (r: Outcome<State>)
    requires Sized(s)
    ensures r.Ok? ==> Sized(r.value)
  {
    RefreshFrom(s, 0, [])
  }

  // ---------------------------------------------------------------- issue

  datatype Found = NotFound | Found(slot: nat)

  /** The store-forwarding scan: walk the LSQ from index `i` towards the head. */
  function Forward(w: Window, i: nat, addr: nat): Found
    requires Ring(w) && i < w.nl
    decreases RingPos(w.lh, w.nl, i)
  {
    if i == w.lh then NotFound else
    var j := Wrap(i + w.nl - 1, w.nl);
    var rs := w.st[w.nr + j];
    if rs.kind.Store? && rs.addr == addr then Found(w.nr + j) else Forward(w, j, addr)
  }

  /** Answer of the functional-unit pool, with the latencies the memory system would give. */
  datatype Unit = NoUnit | Unit(oplat: Latency, cache: Latency, tlb: nat)

  /** Issue latency of the operation in `slot` on unit `u`. */
  function IssueLatency(w: Window, slot: nat, u: Unit): Latency
    requires Ring(w) && slot < |w.st| && u.Unit?
  {
    if w.st[slot].kind.Load? && slot >= w.nr then
      var base: Latency := if Forward(w, slot - w.nr, w.st[slot].addr).Found? then 1 else u.cache;
      if u.tlb > base then u.tlb else base
    else u.oplat
  }

  datatype Issued = Issued(s: State, used: bool)

  /** Take the operation in `slot` off the ready queue. */
  function Unqueue(s: State, slot: nat): State
    requires slot < |s.w.st|
  {
    s.(w := Put(s.w, slot, s.w.st[slot].(queued := false)))
  }

  /** Begin executing the operation in `slot`. */
  function Start(s: State, slot: nat, lat: Latency): (r: Outcome<State>)
    requires Ring(s.w) && slot < |s.w.st|
    ensures r.Ok? ==> SameRings(s.w, r.value.w)
  {
    QueueEvent(s.(w := Put(s.w, slot, s.w.st[slot].(issued := true))), slot, lat)
  }

  /** Issue the unqueued operation in `slot`: stores complete, others start if they get a unit. */
  function Release(s: State, slot: nat, u: Unit): (r: Outcome<Issued>)
    requires Ring(s.w) && slot < |s.w.st|
    ensures r.Ok? ==> SameRings(s.w, r.value.s.w) && r.value.s.v == s.v
  {
    var rs := s.w.st[slot];
    if rs.kind.Store? then
      if rs.onames[0] != NA || rs.onames[1] != NA then Outcome.Panic(StoreCreatesResult)
      else if rs.recover then Outcome.Panic(MispredictedStore)
      else Ok(Issued(s.(w := Put(s.w, slot, rs.(issued := true, completed := true))), true))
    else if rs.noUnit || u.Unit? then
      var s1 :- Start(s, slot, if rs.noUnit then 1 else IssueLatency(s.w, slot, u));
      Ok(Issued(s1, true))
    else
      var s1 :- ReadyEnqueue(s, slot);
      Ok(Issued(s1, false))
  }

  /** One iteration of the issue loop of ruu_issue. */
  function IssueOne(s: State, node: Link, u: Unit): (r: Outcome<Issued>)
    requires Ring(s.w)
    ensures r.Ok? ==> SameRings(s.w, r.value.s.w) && r.value.s.v == s.v
  {
    if !Valid(s.w.st, node) then Ok(Issued(s.(q := FreeLink(s.q, node)), false)) else
    var rs := s.w.st[node.slot];
    if !OpsReady(rs) || !rs.queued || rs.issued || rs.completed then Outcome.Panic(IssuedNotReady) else
    var r :- Release(Unqueue(s, node.slot), node.slot, u);
    Ok(Issued(r.s.(q := FreeLink(r.s.q, node)), r.used))
  }

  /** One iteration of the loop that puts operations beyond the issue width back. */
  function Requeue(s: State, node: Link): (r: Outcome<State>)
    requires Ring(s.w)
    ensures r.Ok? ==> SameRings(s.w, r.value.w) && r.value.v == s.v
  {
    if !Valid(s.w.st, node) then Ok(s.(q := FreeLink(s.q, node))) else
    var s1 :- ReadyEnqueue(Unqueue(s, node.slot), node.slot);
    Ok(s1.(q := FreeLink(s1.q, node)))
  }

  /** Issue within the width, put back beyond it. */
  function HandleNode(s: State, node: Link, width: nat, u: Unit): (r: Outcome<Issued>)
    requires Ring(s.w)
    ensures r.Ok? ==> SameRings(s.w, r.value.s.w) && r.value.s.v == s.v && (r.value.used ==> width > 0)
  {
    if width > 0 then IssueOne(s, node, u) else
    var s1 :- Requeue(s, node);
    Ok(Issued(s1, false))
  }

  /** The two loops of ruu_issue over the nodes of the old ready queue. */
  function IssueNodes(s: State, nodes: seq<Link>, width: nat, units: nat -> Unit): (r: Outcome<State>)
    requires Ring(s.w)
    ensures r.Ok? ==> SameRings(s.w, r.value.w) && r.value.v == s.v
    decreases |nodes|
  {
    if nodes == [] then Ok(s) else
    var r :- HandleNode(s, nodes[0], width, units(|nodes|));
    IssueNodes(r.s, nodes[1..], if r.used then width - 1 else width, units)
  }

  /** ruu_issue */
  function Issue(s: State, width: nat, units: nat -> Unit): (r: Outcome<State>)
    requires Sized(s)
    ensures r.Ok? ==> Sized(r.value)
  {
    IssueNodes(s.(q := s.q.(readyq := [])), s.q.readyq, width, units)
  }

  // ---------------------------------------------------------------- dispatch

  /** A station filled in for a new operation; operand and output names come afterwards. */
  function Fresh(rs: Station, kind: Kind, op: Op, pc: nat, next: nat, pred: nat, spec: bool,
                 addr: nat, seqno: nat): Station
  {
    rs.(kind := kind, pc := pc, nextPC := next, predPC := pred,
         urgent := !kind.Addr? && (op.longLat || op.ctrl), noUnit := !kind.Addr? && op.noUnit,
         recover := false, spec := spec, addr := addr, seqno := seqno,
         queued := false, issued := false, completed := false,
         onames := [NA, NA], inames := [NA, NA, NA], ready := [true, true, true])
  }

  /** Put a fresh operation at the tail of the RUU. */
  function AllocRuu(s: State, kind: Kind, op: Op, pc: nat, next: nat, pred: nat): (r: State)
    requires Sized(s) && s.w.rn < s.w.nr
    ensures Sized(r) && |r.w.st| == |s.w.st|
  {
    var rs := Fresh(s.w.st[s.w.rt], kind, op, pc, next, pred, s.f.specMode, 0, s.w.lastSeq + 1);
    s.(w := Put(s.w, s.w.rt, rs).(rt := Wrap(s.w.rt + 1, s.w.nr), rn := s.w.rn + 1, lastSeq := s.w.lastSeq + 1))
  }

  /** Put a fresh operation at the tail of the LSQ. */
  function AllocLsq(s: State, kind: Kind, op: Op, pc: nat, next: nat, pred: nat, addr: nat): (r: State)
    requires Sized(s) && s.w.ln < s.w.nl
    ensures Sized(r) && |r.w.st| == |s.w.st|
  {
    var i := s.w.nr + s.w.lt;
    var rs := Fresh(s.w.st[i], kind, op, pc, next, pred, s.f.specMode, addr, s.w.lastSeq + 1);
    s.(w := Put(s.w, i, rs).(lt := Wrap(s.w.lt + 1, s.w.nl), ln := s.w.ln + 1, lastSeq := s.w.lastSeq + 1))
  }

  /** ruu_link_idep */
  function LinkIdep(s: State, slot: nat, j: nat, name: Reg): (r: Outcome<State>)
    requires Sized(s) && slot < |s.w.st| && j < 3
    ensures r.Ok? ==> Sized(r.value) && SameRings(s.w, r.value.w)
  {
    var rs := s.w.st[slot];
    var named := rs.(inames := rs.inames[j := name]);
    if name == NA || CreateVector(s.v, name).NoCreator? then
      Ok(s.(w := Put(s.w, slot, named.(ready := rs.ready[j := true]))))
    else
      var maker := CreateVector(s.v, name);
      if maker.slot >= |s.w.st| || maker.odep >= 2 || maker.slot == slot then Outcome.Panic(WildLink) else
      var (q1, l) :- NewLink(s.q, slot, rs.tag, j);
      var p := s.w.st[maker.slot];
      var w1 := Put(s.w, slot, named.(ready := rs.ready[j := false]));
      Ok(s.(w := Put(w1, maker.slot, p.(odeps := p.odeps[maker.odep := [l] + p.odeps[maker.odep]])), q := q1))
  }

  /** ruu_install_odep */
  function InstallOdep(s: State, slot: nat, i: nat, name: Reg): (r: State)
    requires Sized(s) && slot < |s.w.st| && i < 2
    ensures Sized(r) && SameRings(s.w, r.w)
  {
    var rs := s.w.st[slot];
    if name == NA then s.(w := Put(s.w, slot, rs.(onames := rs.onames[i := NA])))
    else
      s.(w := Put(s.w, slot, rs.(onames := rs.onames[i := name], odeps := rs.odeps[i := []])),
         v := SetCreateVector(s.v, s.f.specMode, name, Creator(slot, i)))
  }

  /** Names a new operation's three inputs and two outputs. */
  function Connect(s: State, slot: nat, ins: Ins, outs: Outs): (r: Outcome<State>)
    requires Sized(s) && slot < |s.w.st|
    ensures r.Ok? ==> Sized(r.value) && SameRings(s.w, r.value.w)
  {
    var s0 :- LinkIdep(s, slot, 0, ins[0]);
    var s1 :- LinkIdep(s0, slot, 1, ins[1]);
    var s2 :- LinkIdep(s1, slot, 2, ins[2]);
    Ok(InstallOdep(InstallOdep(s2, slot, 0, outs[0]), slot, 1, outs[1]))
  }

  function EnqueueIfReady(s: State, slot: nat): (r: Outcome<State>)
    requires Sized(s) && slot < |s.w.st|
    ensures r.Ok? ==> Sized(r.value) && SameRings(s.w, r.value.w)
  {
    if OpsReady(s.w.st[slot]) then ReadyEnqueue(s, slot) else Ok(s)
  }

  /** Dispatch of an instruction that does not access memory. */
  function AllocateAlu(s: State, op: Op, pc: nat, eff: Effect, pred: nat): (r: Outcome<State>)
    requires Sized(s) && s.w.rn < s.w.nr
    ensures r.Ok? ==> Sized(r.value) && |r.value.w.st| == |s.w.st|
  {
    var s1 :- Connect(AllocRuu(s, Alu, op, pc, eff.next, pred), s.w.rt, op.ins, op.outs);
    EnqueueIfReady(s1, s.w.rt)
  }

  /** A load or store enters the RUU as the computation of its address. */
  function AllocateAddr(s: State, op: Op, pc: nat, eff: Effect, pred: nat): (r: Outcome<State>)
    requires Sized(s) && s.w.rn < s.w.nr
    ensures r.Ok? ==>
      Sized(r.value) && |r.value.w.st| == |s.w.st| && r.value.w.ln == s.w.ln && r.value.w.nl == s.w.nl &&
        r.value.w.nr == s.w.nr && r.value.w.lt == s.w.lt
  {
    Connect(AllocRuu(s, Addr, op, pc, eff.next, pred), s.w.rt, [NA, op.ins[1], op.ins[2]], [DTMP, NA])
  }

  function MemKind(op: Op): Kind {
    if op.mem.StoreOp? then Store else Load
  }

  /** ... and enters the LSQ as the access itself, which waits for the address. */
  function AllocateAccess(s: State, op: Op, pc: nat, eff: Effect, pred: nat): (r: Outcome<State>)
    requires Sized(s) && s.w.ln < s.w.nl
    ensures r.Ok? ==> Sized(r.value) && |r.value.w.st| == |s.w.st|
  {
    Connect(AllocLsq(s, MemKind(op), op, pc, eff.next, pred, eff.addr), s.w.nr + s.w.lt, [op.ins[0], DTMP, NA], op.outs)
  }

  /** Queue the LSQ half if it is a store; loads wait for lsq_refresh. */
  function EnqueueStore(s: State, op: Op, d: nat): (r: Outcome<State>)
    requires Sized(s) && d < |s.w.st|
    ensures r.Ok? ==> Sized(r.value) && SameRings(s.w, r.value.w)
  {
    if op.mem.StoreOp? then EnqueueIfReady(s, d) else Ok(s)
  }

  /** Dispatch of a load or store. */
  function AllocateMem(s: State, op: Op, pc: nat, eff: Effect, pred: nat): (r: Outcome<State>)
    requires Sized(s) && s.w.rn < s.w.nr && s.w.ln < s.w.nl
    ensures r.Ok? ==> Sized(r.value) && |r.value.w.st| == |s.w.st|
  {
    var s1 :- AllocateAddr(s, op, pc, eff, pred);
    var s2 :- AllocateAccess(s1, op, pc, eff, pred);
    var s3 :- EnqueueIfReady(s2, s.w.rt);
    EnqueueStore(s3, op, s.w.nr + s.w.lt)
  }

  /** Window and queue side of dispatching one instruction other than NOP. */
  function Allocate(s: State, op: Op, pc: nat, eff: Effect, pred: nat): (r: Outcome<State>)
    requires Sized(s) && s.w.rn < s.w.nr && s.w.ln < s.w.nl
    ensures r.Ok? ==> Sized(r.value) && |r.value.w.st| == |s.w.st|
  {
    if op.mem.NoMem? then AllocateAlu(s, op, pc, eff, pred) else AllocateMem(s, op, pc, eff, pred)
  }

  /** What the register and memory accessors show: speculative values over precise ones. */
  function Shown(f: Front): Values {
    f.arch + f.overlay
  }

  /** Apply an instruction's writes to precise or to speculative storage. */
  function Write(f: Front, writes: Values): Front {
    if f.specMode then f.(overlay := f.overlay + writes) else f.(arch := f.arch + writes)
  }

  /** Fetch is sent to the actual next PC at decode, so no mis-speculation starts. */
  predicate Redirects(c: Config, op: Op, fe: Fetched, eff: Effect) {
    || (fe.pred != eff.next && c.perfect)
    || (op.ctrl && op.dirJump && eff.target != fe.pred && fe.pred != Config.Fall(fe.pc))
  }

  /** Front-end side of dispatching: execute, redirect fetch, consume the instruction. */
  function Decode(c: Config, f: Front, op: Op, eff: Effect): Front
    requires f.fq != []
  {
    var fe := f.fq[0];
    var f1 := Write(f, eff.writes);
    if Redirects(c, op, fe, eff) then
      f1.(fq := [], fetchPC := eff.next, delay := if c.perfect then f.delay else c.branchPenalty)
    else f1.(fq := f.fq[1..])
  }

  /** The operation in `slot` is where mis-speculation starts. */
  function MarkRecover(w: Window, slot: nat): (r: Window)
    requires slot < |w.st|
    ensures SameRings(w, r)
  {
    Put(w, slot, w.st[slot].(recover := true))
  }

  /** The prediction the dispatched operation carries. */
  function Carried(c: Config, op: Op, fe: Fetched, eff: Effect): nat {
    if Redirects(c, op, fe, eff) && c.perfect then eff.next else fe.pred
  }

  /** The histories after the instruction `fe` has been dispatched on the right path. */
  function Traced(h: History, op: Op, pc: nat, seqno: nat): History {
    h.(path := h.path + [pc], dispatched := if op.nop then h.dispatched else h.dispatched + [Entry(seqno, pc)])
  }

  /** `s1` is `s` with the operation in the window; mis-speculation starts at a wrong prediction. */
  function Follow(c: Config, s: State, s1: State, op: Op, eff: Effect): (r: Step)
    requires Sized(s) && Sized(s1) && |s1.w.st| == |s.w.st| && s.f.fq != []
    ensures r.Next? ==> Sized(r.s)
  {
    var fe := s.f.fq[0];
    var f1 := Decode(c, s.f, op, eff);
    if s.f.specMode then Next(s1.(f := f1)) else
    var h1 := Traced(s.h, op, fe.pc, s.w.lastSeq + 1);
    if Carried(c, op, fe, eff) == eff.next || Redirects(c, op, fe, eff) then Next(s1.(f := f1, h := h1))
    else if op.nop then Halt(NullStation)
    else Next(s1.(w := MarkRecover(s1.w, s.w.rt), f := f1.(specMode := true, recoverPC := eff.next), h := h1))
  }

  /** The instruction at the head of the fetch queue enters the window. */
  function Admit(c: Config, s: State, op: Op, eff: Effect): (r: Outcome<State>)
    requires Sized(s) && s.f.fq != [] && s.w.rn < s.w.nr && s.w.ln < s.w.nl
    ensures r.Ok? ==> Sized(r.value) && |r.value.w.st| == |s.w.st|
  {
    var fe := s.f.fq[0];
    if op.nop then Ok(s) else Allocate(s, op, fe.pc, eff, Carried(c, op, fe, eff))
  }

  /** One iteration of ruu_dispatch. */
  function DispatchOne(c: Config, s: State): (r: Step)
    requires Sized(s)
    ensures r.Next? ==> Sized(r.s)
  {
    if s.w.rn >= s.w.nr || s.w.ln >= s.w.nl || s.f.fq == [] || (s.f.specMode && !c.includeSpec) then Stop else
    var fe := s.f.fq[0];
    var op := c.decode(fe.ir);
    if op.trap && s.w.rn != 0 then Stop
    else if op.trap && s.f.specMode then Halt(DrainedAndSpeculative)
    else
      var eff := c.exec(fe.ir, fe.pc, Shown(s.f));
      match Admit(c, s, op, eff)
      case Panic(p) => Halt(p)
      case Ok(s1) => Follow(c, s, s1, op, eff)
  }

  /** ruu_dispatch */
  function Dispatch(c: Config, s: State, width: nat): (r: Outcome<State>)
    requires Sized(s)
    ensures r.Ok? ==> Sized(r.value)
    decreases width
  {
    if width == 0 then Ok(s) else
    match DispatchOne(c, s)
    case Stop => Ok(s)
    case Halt(p) => Outcome.Panic(p)
    case Next(s1) => Dispatch(c, s1, width - 1)
  }

  // ---------------------------------------------------------------- fetch

  /** Answers of the instruction cache and of the branch predictor (zero: no prediction). */
  datatype FetchInput = Miss(lat: Latency) | Hit(guess: nat)

  /** The predicted target of the instruction at `pc`, zero for none: only control instructions have one. */
  function Guess(c: Config, pc: nat, input: FetchInput): nat {
    if input.Hit? && c.decode(c.Inst(pc)).ctrl then input.guess else 0
  }

  /** The instruction at the fetch PC joins the queue, and fetch follows the prediction. */
  function FetchInst(c: Config, f: Front, guess: nat): Front {
    var pred := if guess == 0 then Config.Fall(f.fetchPC) else guess;
    f.(fq := f.fq + [Fetched(c.Inst(f.fetchPC), f.fetchPC, pred)], fetchPC := pred)
  }

  /** ruu_fetch; `width` instructions and `branches` predicted-taken branches may still be fetched */
  function Fetch(c: Config, f: Front, width: nat, branches: nat, inputs: nat -> FetchInput): Front
    decreases width
  {
    if width == 0 || |f.fq| >= c.ifq then f else
    var input := inputs(width);
    if input.Miss? && c.InText(f.fetchPC) then f.(delay := f.delay + input.lat - 1) else
    var guess := Guess(c, f.fetchPC, input);
    var f1 := FetchInst(c, f, guess);
    if guess != 0 && branches <= 1 then f1
    else Fetch(c, f1, width - 1, if guess == 0 then branches else branches - 1, inputs)
  }

  // ---------------------------------------------------------------- a cycle

  /** Everything the environment decides in one cycle. */
  datatype Inputs = Inputs(ports: nat -> bool, units: nat -> Unit, fetches: nat -> FetchInput)

  /** Fetch, unless it is blocked, and advance the clock. */
  function FetchAndTick(c: Config, s: State, fetches: nat -> FetchInput): State {
    var f1 := if s.f.delay == 0 then Fetch(c, s.f, c.decodeWidth * c.fetchSpeed, c.fetchSpeed, fetches)
              else s.f.(delay := s.f.delay - 1);
    s.(f := f1, q := s.q.(now := s.q.now + 1))
  }

  /** One iteration of the loop of sim_main. */
  function Cycle(c: Config, s: State, i: Inputs): (r: Outcome<State>)
    requires Sized(s)
    ensures r.Ok? ==> Sized(r.value)
  {
    if s.w.rn < s.w.ln then Outcome.Panic(RuuBelowLsq) else
    var s1 :- Commit(s, c.commitWidth, i.ports);
    var s2 :- Writeback(c, s1);
    var s3 :- Refresh(s2);
    var s4 :- Issue(s3, c.issueWidth, i.units);
    var s5 :- Dispatch(c, s4, c.decodeWidth * c.fetchSpeed);
    Ok(FetchAndTick(c, s5, i.fetches))
  }

  /** The state sim_init and the start of sim_main leave. */
  function Initial(c: Config): (s: State)
    requires c.nr > 0 && c.nl > 0
    ensures Sized(s)
  {
    var blank := Station(Alu, 0, 0, 0, false, false, false, false, 0, 0, 0, false, false, false,
                         [NA, NA], BlankChains(), [NA, NA, NA], [false, false, false]);
    var none := seq(TOTAL_REGS, i => NoCreator);
    State(
      Window(seq(c.nr + c.nl, i => blank), c.nr, c.nl, 0, 0, 0, 0, 0, 0, 0),
      Queues(seq(c.links, i => i), [], [], 0),
      Vectors(none, none, {}),
      Front(false, 0, c.init, map[], [], c.entry, 0),
      History([], [], []))
  }

  /** The state after a run of cycles. */
  function Run(c: Config, inputs: seq<Inputs>): (r: Outcome<State>)
    requires c.nr > 0 && c.nl > 0
    ensures r.Ok? ==> Sized(r.value)
    decreases |inputs|
  {
    if inputs == [] then Ok(Initial(c)) else
    var s :- Run(c, inputs[..|inputs| - 1]);
    Cycle(c, s, inputs[|inputs| - 1])
  }
}
