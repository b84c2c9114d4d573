/**
 * What stations hold: in every reachable state each operation in the window is the instruction the
 * program has at its PC, with the registers, flags and address of that instruction.
 */
module OooMeaning {
  import opened OooTypes
  import opened OooStages
  import opened OooInv
  import opened OooFrames
  import opened OooStores
  import opened OooAlloc
  import opened OooTrack
  import OooFollow

  // ---------------------------------------------------------------- stages that fill no station

  /** The same operation: only its phase, its readiness, its links and its instance may differ. */
  predicate SameText(rs: Station, rs': Station) {
    rs' == rs.(tag := rs'.tag, queued := rs'.queued, issued := rs'.issued, completed := rs'.completed,
               odeps := rs'.odeps, ready := rs'.ready)
  }

  ghost predicate SameTexts(st: seq<Station>, st': seq<Station>) {
    |st'| == |st| && forall t :: 0 <= t < |st| ==> SameText(st[t], st'[t])
  }

  lemma TextsTrans(st: seq<Station>, st': seq<Station>, st'': seq<Station>)
    requires SameTexts(st, st') && SameTexts(st', st'')
    ensures SameTexts(st, st'')
  {
  }

  lemma QuietText(w: Window, w': Window)
    requires Quiet(w, w')
    ensures SameTexts(w.st, w'.st)
  {
  }

  lemma CommitOneText(s: State, port: bool)
    requires Sized(s) && CommitOne(s, port).Next?
    ensures SameTexts(s.w.st, CommitOne(s, port).s.w.st)
  {
  }

  lemma {:induction false} CommitText(s: State, width: nat, ports: nat -> bool)
    requires Sized(s) && Commit(s, width, ports).Ok?
    ensures SameTexts(s.w.st, Commit(s, width, ports).value.w.st)
    decreases width
  {
    hide CommitOne;
    if width > 0 && CommitOne(s, ports(width)).Next? {
      CommitOneText(s, ports(width));
      CommitText(CommitOne(s, ports(width)).s, width - 1, ports);
    }
  }

  lemma SquashLsqText(s: State)
    requires Ring(s.w) && s.w.ln > 0
    ensures SameTexts(s.w.st, SquashLsq(s).w.st) && SquashLsq(s).w.rn == s.w.rn
  {
    hide FreeList;
  }

  lemma SquashRuuText(s: State)
    requires Ring(s.w) && s.w.rn > 0
    ensures SameTexts(s.w.st, SquashRuu(s).w.st)
  {
    hide FreeList;
  }

  lemma SquashOneText(s: State)
    requires Ring(s.w) && SquashOne(s).Ok?
    ensures SameTexts(s.w.st, SquashOne(s).value.w.st)
  {
    hide SquashLsq, SquashRuu;
    if s.w.st[Wrap(s.w.rt + s.w.nr - 1, s.w.nr)].kind.Addr? {
      SquashLsqText(s);
      SquashRuuText(SquashLsq(s));
    } else {
      SquashRuuText(s);
    }
  }

  lemma {:induction false} RecoverWindowText(s: State, branch: nat)
    requires Ring(s.w) && RecoverWindow(s, branch).Ok?
    ensures SameTexts(s.w.st, RecoverWindow(s, branch).value.w.st)
    decreases s.w.rn
  {
    hide SquashOne;
    if Wrap(s.w.rt + s.w.nr - 1, s.w.nr) != branch {
      SquashOneText(s);
      RecoverWindowText(SquashOne(s).value, branch);
    }
  }

  lemma EnqueueText(s: State, slot: nat)
    requires Ring(s.w) && slot < |s.w.st| && ReadyEnqueue(s, slot).Ok?
    ensures SameTexts(s.w.st, ReadyEnqueue(s, slot).value.w.st)
  {
    hide InsertSorted;
  }

  lemma ReadyText(s: State, slot: nat, j: nat)
    requires Ring(s.w) && slot < |s.w.st| && j < 3
    ensures SameTexts(s.w.st, SetReady(s, slot, j).w.st)
  {
  }

  lemma WakeOneText(s: State, l: Link)
    requires Ring(s.w) && WakeOne(s, l).Ok?
    ensures SameTexts(s.w.st, WakeOne(s, l).value.w.st)
  {
    hide ReadyEnqueue, SetReady, SameText;
    if l.slot < |s.w.st| && l.x < 3 && Valid(s.w.st, l) {
      ReadyText(s, l.slot, l.x);
      var s1 := SetReady(s, l.slot, l.x);
      if OpsReady(s1.w.st[l.slot]) && !s1.w.st[l.slot].kind.Load? {
        EnqueueText(s1, l.slot);
        TextsTrans(s.w.st, s1.w.st, ReadyEnqueue(s1, l.slot).value.w.st);
      }
    } else {
      TextsSame(s.w.st);
    }
  }

  lemma TextsSame(st: seq<Station>)
    ensures SameTexts(st, st)
  {
  }

  lemma {:induction false} WakeAllText(s: State, chain: seq<Link>)
    requires Ring(s.w) && WakeAll(s, chain).Ok?
    ensures SameTexts(s.w.st, WakeAll(s, chain).value.w.st)
    decreases |chain|
  {
    hide WakeOne;
    if chain == [] {
    } else {
      WakeOneText(s, chain[0]);
      WakeAllText(WakeOne(s, chain[0]).value, chain[1..]);
    }
  }

  lemma BroadcastText(s: State, slot: nat, i: nat)
    requires Sized(s) && slot < |s.w.st| && i < 2 && Broadcast(s, slot, i).Ok?
    ensures SameTexts(s.w.st, Broadcast(s, slot, i).value.w.st)
  {
    hide WakeAll;
    var rs := s.w.st[slot];
    if rs.onames[i] != NA {
      var w1 := Put(s.w, slot, rs.(odeps := rs.odeps[i := []]));
      WakeAllText(s.(v := ClearCreator(s.v, rs, slot, i), w := w1), rs.odeps[i]);
    }
  }

  lemma CompleteText(c: Config, s: State, slot: nat)
    requires Sized(s) && slot < |s.w.st| && Complete(c, s, slot).Ok?
    ensures SameTexts(s.w.st, Complete(c, s, slot).value.w.st)
  {
    hide RecoverWindow, Broadcast;
    var rs := s.w.st[slot];
    var s1 := s.(w := Put(s.w, slot, rs.(completed := true)));
    assert SameTexts(s.w.st, s1.w.st);
    if rs.recover {
      RecoverWindowText(s1, slot);
    }
    var s2 := if rs.recover then Recover(c, s1, slot).value else s1;
    assert SameTexts(s1.w.st, s2.w.st);
    BroadcastText(s2, slot, 0);
    BroadcastText(Broadcast(s2, slot, 0).value, slot, 1);
  }

  lemma {:induction false} WritebackText(c: Config, s: State)
    requires Sized(s) && Writeback(c, s).Ok?
    ensures SameTexts(s.w.st, Writeback(c, s).value.w.st)
    decreases |s.q.events|
  {
    hide Complete, PopEvent;
    match PopEvent(s.q, s.w.st)
    case NoEvent(_) =>
    case Event(q1, l) =>
      CompleteText(c, s.(q := q1), l.slot);
      WritebackText(c, Complete(c, s.(q := q1), l.slot).value);
  }

  lemma ScanOneText(s: State, k: nat, unknowns: seq<nat>)
    requires Ring(s.w) && k < s.w.ln && ScanOne(s, k, unknowns).Ok?
    ensures SameTexts(s.w.st, ScanOne(s, k, unknowns).value.s.w.st)
  {
    hide ReadyEnqueue, Hide, SameText;
    TextsSame(s.w.st);
    var i := s.w.nr + Wrap(s.w.lh + k, s.w.nl);
    if ReadyEnqueue(s, i).Ok? {
      EnqueueText(s, i);
    }
  }

  lemma {:induction false} RefreshFromText(s: State, k: nat, unknowns: seq<nat>)
    requires Ring(s.w) && k <= s.w.ln && RefreshFrom(s, k, unknowns).Ok?
    ensures SameTexts(s.w.st, RefreshFrom(s, k, unknowns).value.w.st)
    decreases s.w.ln - k
  {
    hide ScanOne;
    if k < s.w.ln {
      ScanOneText(s, k, unknowns);
      var r := ScanOne(s, k, unknowns).value;
      if r.more {
        RefreshFromText(r.s, k + 1, r.unknowns);
      }
    }
  }

  // ---------------------------------------------------------------- operations that leave the window

  ghost predicate Fewer(w: Window, w': Window) {
    w'.nr == w.nr && w'.nl == w.nl && |w'.st| == |w.st| && forall t :: Live(w', t) ==> Live(w, t)
  }

  lemma RetireLsqFewer(w: Window)
    requires Ring(w) && w.ln > 0
    ensures Ring(RetireLsq(w)) && Fewer(w, RetireLsq(w))
  {
  }

  lemma RetireRuuFewer(w: Window)
    requires Ring(w) && w.rn > 0
    ensures Ring(RetireRuu(w)) && Fewer(w, RetireRuu(w))
  {
  }

  lemma CommitOneFewer(s: State, port: bool)
    requires Sized(s) && CommitOne(s, port).Next?
    ensures Fewer(s.w, CommitOne(s, port).s.w)
  {
    hide RetireLsq, RetireRuu, RingPos;
    if s.w.st[s.w.rh].kind.Addr? {
      RetireLsqFewer(s.w);
      RetiredLsq(s.w);
      RetireRuuFewer(RetireLsq(s.w));
    } else {
      RetireRuuFewer(s.w);
    }
  }

  lemma RetiredLsq(w: Window)
    requires Ring(w) && w.ln > 0
    ensures RetireLsq(w).rn == w.rn
  {
  }

  lemma {:induction false} CommitFewer(s: State, width: nat, ports: nat -> bool)
    requires Sized(s) && Commit(s, width, ports).Ok?
    ensures Fewer(s.w, Commit(s, width, ports).value.w)
    decreases width
  {
    hide CommitOne, RingPos;
    if width == 0 || !CommitOne(s, ports(width)).Next? {
    } else {
      CommitOneFewer(s, ports(width));
      CommitFewer(CommitOne(s, ports(width)).s, width - 1, ports);
    }
  }

  lemma LaterFewer(w: Window, w': Window)
    requires Later(w, w')
    ensures Fewer(w, w')
  {
  }

  // ---------------------------------------------------------------- what an operation is

  /** An instruction that does not access memory is one operation, any other two; a NOP is none. */
  predicate Suits(op: Op, kind: Kind) {
    && !op.nop
    && match kind
       case Alu => op.mem.NoMem?
       case Addr => !op.mem.NoMem?
       case Load => op.mem.LoadOp?
       case Store => op.mem.StoreOp?
  }

  /** The registers an operation reads: the address goes from one half to the other in a reserved one. */
  function Sources(op: Op, kind: Kind): Ins {
    match kind
    case Alu => op.ins
    case Addr => [NA, op.ins[1], op.ins[2]]
    case _ => [op.ins[0], DTMP, NA]
  }

  /** The registers it writes. */
  function Results(op: Op, kind: Kind): Outs {
    if kind.Addr? then [DTMP, NA] else op.outs
  }

  /** The instruction the program has at the operation's PC. */
  function OpOf(c: Config, rs: Station): Op { c.decode(c.Inst(rs.pc)) }

  /** The station has the names and flags of its instruction. */
  predicate Described(c: Config, rs: Station) {
    var op := OpOf(c, rs);
    && Suits(op, rs.kind) && rs.inames == Sources(op, rs.kind) && rs.onames == Results(op, rs.kind)
    && rs.urgent == (!rs.kind.Addr? && (op.longLat || op.ctrl)) && rs.noUnit == (!rs.kind.Addr? && op.noUnit)
  }

  /** A jump to a known target that was predicted taken to another; decode sends fetch to the right place. */
  predicate Misfetch(op: Op, pc: nat, pred: nat, target: nat) {
    op.ctrl && op.dirJump && target != pred && pred != Config.Fall(pc)
  }

  /**
   * The station has the next PC and the address of its instruction executed on `vals`, and it is
   * where mis-speculation starts exactly if it is on the right path, was predicted to go elsewhere
   * and could not be put right at decode.
   */
  predicate Executed(c: Config, rs: Station, vals: Values) {
    var eff := c.exec(c.Inst(rs.pc), rs.pc, vals);
    && rs.nextPC == eff.next && (InLsq(rs) ==> rs.addr == eff.addr) && (c.perfect ==> rs.predPC == eff.next)
    && (rs.recover <==>
          !InLsq(rs) && !rs.spec && rs.predPC != eff.next && !Misfetch(OpOf(c, rs), rs.pc, rs.predPC, eff.target))
  }

  /** Positions in a trace of the instructions other than NOP. */
  ghost function Origins(c: Config, path: seq<nat>): (r: seq<nat>)
    ensures |r| == |Effective(c, path)| && forall k :: 0 <= k < |r| ==> r[k] < |path|
  {
    if path == [] then [] else
    var last := path[|path| - 1];
    Origins(c, path[..|path| - 1]) + (if c.decode(c.Inst(last)).nop then [] else [|path| - 1])
  }

  /** The operation is the `k`-th of the right path: what the sequential machine executes there. */
  ghost predicate IsNth(c: Config, h: History, rs: Station, k: int) {
    && 0 <= k < |h.dispatched| && k < |Origins(c, h.path)|
    && h.dispatched[k].seqno == (if InLsq(rs) then rs.seqno - 1 else rs.seqno)
    && var m := SeqRun(c, Origins(c, h.path)[k]);
    && rs.pc == m.pc && Executed(c, rs, m.vals)
  }

  /** Right-path instructions were numbered in order. */
  ghost predicate Rising(es: seq<Entry>, last: nat) {
    && (forall k :: 0 <= k < |es| ==> es[k].seqno <= last)
    && forall j, k :: 0 <= j < k < |es| ==> es[j].seqno < es[k].seqno
  }

  /** A trap is on the right path and older than everything else in the window. */
  ghost predicate TrapsFirst(c: Config, w: Window)
    requires Ring(w)
  {
    forall t, u :: LiveR(w, t) && OpOf(c, w.st[t]).trap && Live(w, u) ==>
      !w.st[t].spec && w.st[t].seqno <= w.st[u].seqno
  }

  /** Every operation in the window is what the program says. */
  ghost predicate Meant(c: Config, w: Window, h: History)
    requires Ring(w)
  {
    && (forall t :: Live(w, t) ==> Described(c, w.st[t]) && exists vals :: Executed(c, w.st[t], vals))
    && (forall t :: Live(w, t) && !w.st[t].spec ==> exists k :: IsNth(c, h, w.st[t], k))
    && Rising(h.dispatched, w.lastSeq) && TrapsFirst(c, w)
  }

  /** Losing operations changes nothing about the others. */
  lemma FewerMeant(c: Config, w: Window, w': Window, h: History, h': History)
    requires Ring(w) && Ring(w') && Meant(c, w, h) && Fewer(w, w') && SameTexts(w.st, w'.st) && w'.lastSeq == w.lastSeq
    requires h'.path == h.path && h'.dispatched == h.dispatched
    ensures Meant(c, w', h')
  {
    hide RingPos, Suits, Sources, Results, Misfetch, Origins, SeqRun;
    forall t | Live(w', t) ensures Described(c, w'.st[t]) && exists vals :: Executed(c, w'.st[t], vals) {
      var vals :| Executed(c, w.st[t], vals);
      assert Executed(c, w'.st[t], vals);
    }
    forall t | Live(w', t) && !w'.st[t].spec ensures exists k :: IsNth(c, h', w'.st[t], k) {
      var k :| IsNth(c, h, w.st[t], k);
      assert IsNth(c, h', w'.st[t], k);
    }
  }

  // ---------------------------------------------------------------- a longer history

  lemma {:induction false} OriginsGrow(c: Config, path: seq<nat>, pc: nat)
    ensures Origins(c, path + [pc]) == Origins(c, path) + (if c.decode(c.Inst(pc)).nop then [] else [|path|])
  {
    assert (path + [pc])[..|path|] == path;
  }

  lemma TracedMeant(c: Config, w: Window, h: History, op: Op, pc: nat, seqno: nat)
    requires Ring(w) && Meant(c, w, h) && op == c.decode(c.Inst(pc)) && (!op.nop ==> seqno > w.lastSeq)
    ensures var h' := Traced(h, op, pc, seqno);
      && (forall t :: Live(w, t) && !w.st[t].spec ==> exists k :: IsNth(c, h', w.st[t], k))
      && Rising(h'.dispatched, if op.nop then w.lastSeq else seqno)
  {
    hide RingPos, Described, Executed, Origins, SeqRun;
    var h' := Traced(h, op, pc, seqno);
    OriginsGrow(c, h.path, pc);
    forall t | Live(w, t) && !w.st[t].spec ensures exists k :: IsNth(c, h', w.st[t], k) {
      var k :| IsNth(c, h, w.st[t], k);
      assert IsNth(c, h', w.st[t], k);
    }
  }

  // ---------------------------------------------------------------- dispatch fills stations

  /** Only the operation in `d` may be new. */
  ghost predicate Renames(st: seq<Station>, st': seq<Station>, d: nat) {
    |st'| == |st| && d < |st| && forall t :: 0 <= t < |st| && t != d ==> SameText(st[t], st'[t])
  }

  lemma RenamesTrans(st: seq<Station>, st': seq<Station>, st'': seq<Station>, d: nat)
    requires Renames(st, st', d) && Renames(st', st'', d)
    ensures Renames(st, st'', d)
  {
  }

  lemma LinkText(s: State, slot: nat, j: nat, name: Reg)
    requires Sized(s) && slot < |s.w.st| && j < 3 && LinkIdep(s, slot, j, name).Ok?
    ensures var st' := LinkIdep(s, slot, j, name).value.w.st; var rs := s.w.st[slot];
      Renames(s.w.st, st', slot) && SameText(rs.(inames := rs.inames[j := name]), st'[slot])
  {
  }

  lemma InstallText(s: State, slot: nat, i: nat, name: Reg)
    requires Sized(s) && slot < |s.w.st| && i < 2
    ensures var st' := InstallOdep(s, slot, i, name).w.st; var rs := s.w.st[slot];
      Renames(s.w.st, st', slot) && SameText(rs.(onames := rs.onames[i := name]), st'[slot])
  {
  }

  lemma LinksText(s: State, slot: nat, ins: Ins)
    requires Sized(s) && slot < |s.w.st| && LinkIdep(s, slot, 0, ins[0]).Ok?
    requires LinkIdep(LinkIdep(s, slot, 0, ins[0]).value, slot, 1, ins[1]).Ok?
    requires LinkIdep(LinkIdep(LinkIdep(s, slot, 0, ins[0]).value, slot, 1, ins[1]).value, slot, 2, ins[2]).Ok?
    ensures var s1 := LinkIdep(LinkIdep(s, slot, 0, ins[0]).value, slot, 1, ins[1]).value;
      var s2 := LinkIdep(s1, slot, 2, ins[2]).value;
      Renames(s.w.st, s2.w.st, slot) && SameText(s.w.st[slot].(inames := ins), s2.w.st[slot])
  {
    hide LinkIdep, SameText;
    var s0 := LinkIdep(s, slot, 0, ins[0]).value;
    var s1 := LinkIdep(s0, slot, 1, ins[1]).value;
    var s2 := LinkIdep(s1, slot, 2, ins[2]).value;
    LinkText(s, slot, 0, ins[0]);
    LinkText(s0, slot, 1, ins[1]);
    LinkText(s1, slot, 2, ins[2]);
    RenamesTrans3(s.w.st, s0.w.st, s1.w.st, s2.w.st, slot);
    NamedInputs(s.w.st[slot], s0.w.st[slot], s1.w.st[slot], s2.w.st[slot], ins);
  }

  lemma RenamesTrans3(st: seq<Station>, st0: seq<Station>, st1: seq<Station>, st2: seq<Station>, d: nat)
    requires Renames(st, st0, d) && Renames(st0, st1, d) && Renames(st1, st2, d)
    ensures Renames(st, st2, d)
  {
  }

  lemma NamedInputs(rs: Station, rs0: Station, rs1: Station, rs2: Station, ins: Ins)
    requires SameText(rs.(inames := rs.inames[0 := ins[0]]), rs0)
    requires SameText(rs0.(inames := rs0.inames[1 := ins[1]]), rs1)
    requires SameText(rs1.(inames := rs1.inames[2 := ins[2]]), rs2)
    ensures SameText(rs.(inames := ins), rs2)
  {
    assert rs2.inames == ins;
  }

  /** A connected operation has the names it was given. */
  lemma ConnectText(s: State, slot: nat, ins: Ins, outs: Outs)
    requires Sized(s) && slot < |s.w.st| && Connect(s, slot, ins, outs).Ok?
    ensures var st' := Connect(s, slot, ins, outs).value.w.st;
      Renames(s.w.st, st', slot) && SameText(s.w.st[slot].(inames := ins, onames := outs), st'[slot])
  {
    hide LinkIdep, InstallOdep;
    LinksText(s, slot, ins);
    var s0 := LinkIdep(s, slot, 0, ins[0]).value;
    var s1 := LinkIdep(s0, slot, 1, ins[1]).value;
    var s2 := LinkIdep(s1, slot, 2, ins[2]).value;
    var s3 := InstallOdep(s2, slot, 0, outs[0]);
    InstallText(s2, slot, 0, outs[0]);
    InstallText(s3, slot, 1, outs[1]);
    RenamesTrans3(s.w.st, s2.w.st, s3.w.st, InstallOdep(s3, slot, 1, outs[1]).w.st, slot);
    assert InstallOdep(s3, slot, 1, outs[1]).w.st[slot].onames == outs;
  }

  /** The station holds operation `kind` of the instruction `op` at `pc`. */
  predicate Holds(rs: Station, kind: Kind, op: Op, pc: nat, eff: Effect, pred: nat, spec: bool, seqno: nat) {
    && rs.kind == kind && rs.pc == pc && rs.nextPC == eff.next && rs.predPC == pred && rs.spec == spec
    && rs.seqno == seqno && !rs.recover && (InLsq(rs) ==> rs.addr == eff.addr)
    && rs.inames == Sources(op, kind) && rs.onames == Results(op, kind)
    && rs.urgent == (!kind.Addr? && (op.longLat || op.ctrl)) && rs.noUnit == (!kind.Addr? && op.noUnit)
  }

  lemma TextHolds(rs: Station, rs': Station, kind: Kind, op: Op, pc: nat, eff: Effect, pred: nat, spec: bool,
                  seqno: nat)
    requires SameText(rs, rs') && Holds(rs, kind, op, pc, eff, pred, spec, seqno)
    ensures Holds(rs', kind, op, pc, eff, pred, spec, seqno)
  {
  }

  /** One operation has entered the window, at slot `d`. */
  ghost predicate Joins(s: State, s1: State, d: nat) {
    && s1 == s.(w := s1.w, q := s1.q, v := s1.v) && Sized(s) && Sized(s1) && Renames(s.w.st, s1.w.st, d)
    && s1.w.nr == s.w.nr && s1.w.nl == s.w.nl && s1.w.lastSeq == s.w.lastSeq + 1
    && (forall t :: Live(s1.w, t) <==> Live(s.w, t) || t == d)
  }

  lemma AllocRuuJoins(s: State, kind: Kind, op: Op, pc: nat, next: nat, pred: nat)
    requires Sized(s) && s.w.rn < s.w.nr && (kind.Alu? || kind.Addr?)
    ensures Joins(s, AllocRuu(s, kind, op, pc, next, pred), s.w.rt)
  {
    AllocRuuAdds(s, kind, op, pc, next, pred);
    hide RingPos;
  }

  lemma AllocLsqJoins(s: State, kind: Kind, op: Op, pc: nat, next: nat, pred: nat, addr: nat)
    requires Sized(s) && s.w.ln < s.w.nl && (kind.Load? || kind.Store?)
    ensures Joins(s, AllocLsq(s, kind, op, pc, next, pred, addr), s.w.nr + s.w.lt)
  {
    AllocLsqAdds(s, kind, op, pc, next, pred, addr);
    hide RingPos;
  }

  /** Filling in names and queuing do not change what has joined. */
  lemma JoinsOn(s: State, s1: State, s2: State, d: nat)
    requires Joins(s, s1, d) && Sized(s2) && Renames(s1.w.st, s2.w.st, d) && SameRings(s1.w, s2.w)
    requires s2 == s1.(w := s2.w, q := s2.q, v := s2.v)
    ensures Joins(s, s2, d)
  {
    hide RingPos, SameText, Renames;
    RenamesTrans(s.w.st, s1.w.st, s2.w.st, d);
    forall t ensures Live(s2.w, t) <==> Live(s1.w, t) {
    }
    hide Live;
    assert s2 == s.(w := s2.w, q := s2.q, v := s2.v);
  }

  lemma ConnectKeeps(s: State, slot: nat, ins: Ins, outs: Outs)
    requires Sized(s) && slot < |s.w.st| && Connect(s, slot, ins, outs).Ok?
    ensures var r := Connect(s, slot, ins, outs).value; r == s.(w := r.w, q := r.q, v := r.v)
  {
  }

  lemma AluJoins(s: State, op: Op, pc: nat, eff: Effect, pred: nat)
    requires Sized(s) && s.w.rn < s.w.nr && AllocateAlu(s, op, pc, eff, pred).Ok?
    ensures var r := AllocateAlu(s, op, pc, eff, pred).value;
      Joins(s, r, s.w.rt) && Holds(r.w.st[s.w.rt], Alu, op, pc, eff, pred, s.f.specMode, s.w.lastSeq + 1)
  {
    var s0 := AllocRuu(s, Alu, op, pc, eff.next, pred);
    var s1 := Connect(s0, s.w.rt, op.ins, op.outs).value;
    assert Holds(s0.w.st[s.w.rt].(inames := op.ins, onames := op.outs), Alu, op, pc, eff, pred, s.f.specMode,
                 s.w.lastSeq + 1);
    hide AllocRuu, Connect, EnqueueIfReady, Joins, Holds;
    AllocRuuJoins(s, Alu, op, pc, eff.next, pred);
    ConnectText(s0, s.w.rt, op.ins, op.outs);
    ConnectKeeps(s0, s.w.rt, op.ins, op.outs);
    JoinsOn(s, s0, s1, s.w.rt);
    QueueJoins(s, s1, s.w.rt);
    TextHolds(s0.w.st[s.w.rt].(inames := op.ins, onames := op.outs), s1.w.st[s.w.rt], Alu, op, pc, eff, pred,
              s.f.specMode, s.w.lastSeq + 1);
    TextHolds(s1.w.st[s.w.rt], EnqueueIfReady(s1, s.w.rt).value.w.st[s.w.rt], Alu, op, pc, eff, pred,
              s.f.specMode, s.w.lastSeq + 1);
  }

  lemma QueueJoins(s: State, s1: State, d: nat)
    requires Joins(s, s1, d) && Sized(s1) && d < |s1.w.st| && EnqueueIfReady(s1, d).Ok?
    ensures var s2 := EnqueueIfReady(s1, d).value; Joins(s, s2, d) && SameTexts(s1.w.st, s2.w.st)
  {
    hide ReadyEnqueue, Joins;
    TextsSame(s1.w.st);
    if OpsReady(s1.w.st[d]) {
      EnqueueText(s1, d);
      EnqueueKeeps(s1, d);
    }
    JoinsOn(s, s1, EnqueueIfReady(s1, d).value, d);
  }

  lemma EnqueueKeeps(s: State, d: nat)
    requires Ring(s.w) && d < |s.w.st| && ReadyEnqueue(s, d).Ok?
    ensures var r := ReadyEnqueue(s, d).value; r == s.(w := r.w, q := r.q, v := r.v)
  {
    hide InsertSorted;
  }

  lemma AddrJoins(s: State, op: Op, pc: nat, eff: Effect, pred: nat)
    requires Sized(s) && s.w.rn < s.w.nr && AllocateAddr(s, op, pc, eff, pred).Ok?
    ensures var r := AllocateAddr(s, op, pc, eff, pred).value;
      Joins(s, r, s.w.rt) && Holds(r.w.st[s.w.rt], Addr, op, pc, eff, pred, s.f.specMode, s.w.lastSeq + 1)
  {
    var s0 := AllocRuu(s, Addr, op, pc, eff.next, pred);
    var ins: Ins := [NA, op.ins[1], op.ins[2]];
    assert Holds(s0.w.st[s.w.rt].(inames := ins, onames := [DTMP, NA]), Addr, op, pc, eff, pred, s.f.specMode,
                 s.w.lastSeq + 1);
    hide AllocRuu, Connect, Joins, Holds;
    AllocRuuJoins(s, Addr, op, pc, eff.next, pred);
    ConnectText(s0, s.w.rt, ins, [DTMP, NA]);
    ConnectKeeps(s0, s.w.rt, ins, [DTMP, NA]);
    var s1 := Connect(s0, s.w.rt, ins, [DTMP, NA]).value;
    JoinsOn(s, s0, s1, s.w.rt);
    TextHolds(s0.w.st[s.w.rt].(inames := ins, onames := [DTMP, NA]), s1.w.st[s.w.rt], Addr, op, pc, eff, pred,
              s.f.specMode, s.w.lastSeq + 1);
  }

  /** The new LSQ station, once it is named. */
  lemma AccessFilled(s: State, op: Op, pc: nat, eff: Effect, pred: nat)
    requires Sized(s) && s.w.ln < s.w.nl
    ensures var d, kind := s.w.nr + s.w.lt, MemKind(op);
      var rs := AllocLsq(s, kind, op, pc, eff.next, pred, eff.addr).w.st[d];
      Holds(rs.(inames := [op.ins[0], DTMP, NA], onames := op.outs), kind, op, pc, eff, pred, s.f.specMode,
            s.w.lastSeq + 1)
  {
  }

  lemma AccessJoins(s: State, op: Op, pc: nat, eff: Effect, pred: nat)
    requires Sized(s) && s.w.ln < s.w.nl && AllocateAccess(s, op, pc, eff, pred).Ok?
    ensures var r := AllocateAccess(s, op, pc, eff, pred).value; var d := s.w.nr + s.w.lt;
      Joins(s, r, d) && Holds(r.w.st[d], MemKind(op), op, pc, eff, pred, s.f.specMode, s.w.lastSeq + 1)
  {
    hide AllocLsq, Connect, Joins, Holds, Sources, Results, Renames, SameText;
    var d, kind := s.w.nr + s.w.lt, MemKind(op);
    var s0 := AllocLsq(s, kind, op, pc, eff.next, pred, eff.addr);
    var ins: Ins := [op.ins[0], DTMP, NA];
    AccessFilled(s, op, pc, eff, pred);
    AllocLsqJoins(s, kind, op, pc, eff.next, pred, eff.addr);
    ConnectText(s0, d, ins, op.outs);
    ConnectKeeps(s0, d, ins, op.outs);
    var s1 := Connect(s0, d, ins, op.outs).value;
    JoinsOn(s, s0, s1, d);
    TextHolds(s0.w.st[d].(inames := ins, onames := op.outs), s1.w.st[d], kind, op, pc, eff, pred,
              s.f.specMode, s.w.lastSeq + 1);
  }

  /** The kind of the RUU half of an instruction. */
  function RuuKind(op: Op): Kind { if op.mem.NoMem? then Alu else Addr }

  /** The instruction `op` at `pc` has entered the window, in one or two halves. */
  ghost predicate Arrives(s: State, r: State, op: Op, pc: nat, eff: Effect, pred: nat) {
    && r == s.(w := r.w, q := r.q, v := r.v) && Sized(s) && Sized(r) && |r.w.st| == |s.w.st|
    && r.w.nr == s.w.nr && r.w.nl == s.w.nl && r.w.lastSeq == s.w.lastSeq + (if op.mem.NoMem? then 1 else 2)
    && forall t :: Live(r.w, t) ==>
         || (Live(s.w, t) && SameText(s.w.st[t], r.w.st[t]))
         || (t == s.w.rt && Holds(r.w.st[t], RuuKind(op), op, pc, eff, pred, s.f.specMode, s.w.lastSeq + 1))
         || (t == s.w.nr + s.w.lt && !op.mem.NoMem? &&
             Holds(r.w.st[t], MemKind(op), op, pc, eff, pred, s.f.specMode, s.w.lastSeq + 2))
  }

  lemma AluArrives(s: State, op: Op, pc: nat, eff: Effect, pred: nat)
    requires Sized(s) && s.w.rn < s.w.nr && op.mem.NoMem? && AllocateAlu(s, op, pc, eff, pred).Ok?
    ensures Arrives(s, AllocateAlu(s, op, pc, eff, pred).value, op, pc, eff, pred)
  {
    hide AllocateAlu, Holds, SameText, RingPos;
    AluJoins(s, op, pc, eff, pred);
  }

  /** Both halves, before they are queued. */
  lemma HalvesArrive(s: State, s1: State, s2: State, op: Op, pc: nat, eff: Effect, pred: nat)
    requires Joins(s, s1, s.w.rt) && Joins(s1, s2, s.w.nr + s.w.lt) && !op.mem.NoMem?
    requires Holds(s1.w.st[s.w.rt], Addr, op, pc, eff, pred, s.f.specMode, s.w.lastSeq + 1)
    requires Holds(s2.w.st[s.w.nr + s.w.lt], MemKind(op), op, pc, eff, pred, s.f.specMode, s.w.lastSeq + 2)
    ensures Arrives(s, s2, op, pc, eff, pred)
  {
    var d := s.w.rt;
    assert d != s.w.nr + s.w.lt;
    TextHolds(s1.w.st[d], s2.w.st[d], Addr, op, pc, eff, pred, s.f.specMode, s.w.lastSeq + 1);
    hide Holds, RingPos;
  }

  lemma TextArrives(s: State, r: State, r': State, op: Op, pc: nat, eff: Effect, pred: nat)
    requires Arrives(s, r, op, pc, eff, pred) && Sized(r') && SameRings(r.w, r'.w) && SameTexts(r.w.st, r'.w.st)
    requires r' == r.(w := r'.w, q := r'.q, v := r'.v)
    ensures Arrives(s, r', op, pc, eff, pred)
  {
    hide RingPos;
  }

  lemma MemArrives(s: State, op: Op, pc: nat, eff: Effect, pred: nat)
    requires Sized(s) && s.w.rn < s.w.nr && s.w.ln < s.w.nl && !op.mem.NoMem? && AllocateMem(s, op, pc, eff, pred).Ok?
    ensures Arrives(s, AllocateMem(s, op, pc, eff, pred).value, op, pc, eff, pred)
  {
    hide AllocateAddr, AllocateAccess, EnqueueIfReady, Holds, SameText, RingPos, Joins, Arrives;
    var s1 := AllocateAddr(s, op, pc, eff, pred).value;
    AddrJoins(s, op, pc, eff, pred);
    JoinsParts(s, s1, s.w.rt);
    var s2 := AllocateAccess(s1, op, pc, eff, pred).value;
    AccessJoins(s1, op, pc, eff, pred);
    HalvesArrive(s, s1, s2, op, pc, eff, pred);
    QueueArrives(s, s2, s.w.rt, op, pc, eff, pred);
    var s3 := EnqueueIfReady(s2, s.w.rt).value;
    if op.mem.StoreOp? {
      QueueArrives(s, s3, s.w.nr + s.w.lt, op, pc, eff, pred);
    }
  }

  lemma JoinsParts(s: State, s1: State, d: nat)
    requires Joins(s, s1, d)
    ensures s1.f == s.f && s1.w.lastSeq == s.w.lastSeq + 1
  {
  }

  lemma QueueArrives(s: State, r: State, d: nat, op: Op, pc: nat, eff: Effect, pred: nat)
    requires Arrives(s, r, op, pc, eff, pred) && Sized(r) && d < |r.w.st| && EnqueueIfReady(r, d).Ok?
    ensures Arrives(s, EnqueueIfReady(r, d).value, op, pc, eff, pred)
  {
    hide ReadyEnqueue, Arrives;
    TextsSame(r.w.st);
    if OpsReady(r.w.st[d]) {
      EnqueueText(r, d);
      EnqueueKeeps(r, d);
    }
    TextArrives(s, r, EnqueueIfReady(r, d).value, op, pc, eff, pred);
  }

  // ---------------------------------------------------------------- one dispatch

  /** A new operation is what the program says. */
  lemma NewIsMeant(c: Config, rs: Station, rs': Station, kind: Kind, fe: Fetched, vals: Values, spec: bool, seqno: nat)
    requires var op := c.decode(fe.ir); var eff := c.exec(fe.ir, fe.pc, vals); var pred := Carried(c, op, fe, eff);
      && fe.ir == c.Inst(fe.pc) && Suits(op, kind) && Holds(rs, kind, op, fe.pc, eff, pred, spec, seqno)
      && rs' == rs.(recover := !InLsq(rs) && !spec && pred != eff.next && !Redirects(c, op, fe, eff))
    ensures Described(c, rs') && Executed(c, rs', vals)
  {
  }

  /** The window once dispatch has decided whether mis-speculation starts. */
  function Marked(w: Window, slot: nat, start: bool): Window
    requires slot < |w.st|
  {
    if start then MarkRecover(w, slot) else w
  }

  /** Mis-speculation starts with this instruction. */
  predicate Strays(c: Config, s: State)
    requires s.f.fq != []
  {
    var fe := s.f.fq[0];
    var op := c.decode(fe.ir);
    var eff := c.exec(fe.ir, fe.pc, Shown(s.f));
    !s.f.specMode && Carried(c, op, fe, eff) != eff.next && !Redirects(c, op, fe, eff)
  }

  /** What dispatching one instruction does to the window and the histories. */
  lemma DispatchIs(c: Config, s: State)
    requires Sized(s) && DispatchOne(c, s).Next?
    ensures s.f.fq != []
    ensures var fe := s.f.fq[0]; var op := c.decode(fe.ir); var eff := c.exec(fe.ir, fe.pc, Shown(s.f));
      var r := DispatchOne(c, s).s;
      && (!s.f.specMode ==> r.h == Traced(s.h, op, fe.pc, s.w.lastSeq + 1))
      && (op.trap ==> s.w.rn == 0 && !s.f.specMode) && s.w.rn < s.w.nr && s.w.ln < s.w.nl && s.w.rt < |s.w.st|
      && if op.nop then r.w == s.w && (s.f.specMode ==> r.h == s.h)
         else
           && Allocate(s, op, fe.pc, eff, Carried(c, op, fe, eff)).Ok?
           && var s1 := Allocate(s, op, fe.pc, eff, Carried(c, op, fe, eff)).value;
           r.w == Marked(s1.w, s.w.rt, Strays(c, s)) && (s.f.specMode ==> r.h == s1.h)
  {
    hide Allocate, Decode, Redirects, Carried;
  }

  lemma AllocateArrives(s: State, op: Op, pc: nat, eff: Effect, pred: nat)
    requires Sized(s) && s.w.rn < s.w.nr && s.w.ln < s.w.nl && Allocate(s, op, pc, eff, pred).Ok?
    ensures Arrives(s, Allocate(s, op, pc, eff, pred).value, op, pc, eff, pred)
  {
    hide AllocateAlu, AllocateMem, Arrives;
    if op.mem.NoMem? {
      AluArrives(s, op, pc, eff, pred);
    } else {
      MemArrives(s, op, pc, eff, pred);
    }
  }

  /** An operation that was in the window before is in it unchanged. */
  predicate Old(s: State, w: Window, t: int) {
    && |w.st| == |s.w.st| && 0 <= t < |w.st| && Live(s.w, t) && SameText(s.w.st[t], w.st[t])
  }

  /** An operation that dispatch has just put into the window. */
  ghost predicate New(c: Config, s: State, w: Window, t: int)
    requires s.f.fq != []
  {
    && 0 <= t < |w.st|
    && var rs := w.st[t];
    && rs.pc == s.f.fq[0].pc && rs.spec == s.f.specMode && Described(c, rs) && Executed(c, rs, Shown(s.f))
    && rs.seqno == s.w.lastSeq + (if InLsq(rs) then 2 else 1)
  }

  /** Every operation in the window after a dispatch is an old one or a new one. */
  lemma OldOrNew(c: Config, s: State, t: int)
    requires Sized(s) && DispatchOne(c, s).Next? && s.f.fq != [] && s.f.fq[0].ir == c.Inst(s.f.fq[0].pc) && KindsOk(s.w)
    requires Live(DispatchOne(c, s).s.w, t) && !c.decode(s.f.fq[0].ir).nop
    ensures Old(s, DispatchOne(c, s).s.w, t) || New(c, s, DispatchOne(c, s).s.w, t)
  {
    hide DispatchOne, Allocate, Arrives, Marked, Strays, Old, New, Redirects, Carried, RingPos, KindsOk;
    var fe := s.f.fq[0];
    var op := c.decode(fe.ir);
    var eff := c.exec(fe.ir, fe.pc, Shown(s.f));
    DispatchIs(c, s);
    AllocateArrives(s, op, fe.pc, eff, Carried(c, op, fe, eff));
    ArrivedIs(c, s, Allocate(s, op, fe.pc, eff, Carried(c, op, fe, eff)).value, DispatchOne(c, s).s.w, t);
  }

  lemma ArrivedIs(c: Config, s: State, s1: State, w: Window, t: int)
    requires s.f.fq != [] && s.f.fq[0].ir == c.Inst(s.f.fq[0].pc) && Ring(s.w) && s.w.rn < s.w.nr && s.w.rt < |s1.w.st|
    requires var fe := s.f.fq[0]; var op := c.decode(fe.ir); var eff := c.exec(fe.ir, fe.pc, Shown(s.f));
      !op.nop && Arrives(s, s1, op, fe.pc, eff, Carried(c, op, fe, eff))
    requires w == Marked(s1.w, s.w.rt, Strays(c, s)) && Live(w, t)
    ensures Old(s, w, t) || New(c, s, w, t)
  {
    hide Holds, Redirects, Carried, Described, Executed, RingPos, Strays;
    assert Live(s1.w, t);
    RtIsFree(s.w);
    if Live(s.w, t) && SameText(s.w.st[t], s1.w.st[t]) {
    } else if t == s.w.rt {
      NewRuu(c, s, s1, w);
    } else {
      NewLsq(c, s, s1, w);
    }
  }

  lemma RtIsFree(w: Window)
    requires Ring(w) && w.rn < w.nr
    ensures !Live(w, w.rt) && w.rt < w.nr
  {
  }

  lemma NewRuu(c: Config, s: State, s1: State, w: Window)
    requires s.f.fq != [] && s.w.rt < |s1.w.st| && w == Marked(s1.w, s.w.rt, Strays(c, s))
    requires s.f.fq[0].ir == c.Inst(s.f.fq[0].pc)
    requires var fe := s.f.fq[0]; var op := c.decode(fe.ir); var eff := c.exec(fe.ir, fe.pc, Shown(s.f));
      !op.nop &&
        Holds(s1.w.st[s.w.rt], RuuKind(op), op, fe.pc, eff, Carried(c, op, fe, eff), s.f.specMode, s.w.lastSeq + 1)
    ensures New(c, s, w, s.w.rt)
  {
    var fe := s.f.fq[0];
    NewIsMeant(c, s1.w.st[s.w.rt], w.st[s.w.rt], RuuKind(c.decode(fe.ir)), fe, Shown(s.f), s.f.specMode,
               s.w.lastSeq + 1);
    hide Described, Executed, Redirects, Carried;
  }

  lemma NewLsq(c: Config, s: State, s1: State, w: Window)
    requires s.f.fq != [] && s.w.rt < s.w.nr && s.w.nr + s.w.lt < |s1.w.st| && w == Marked(s1.w, s.w.rt, Strays(c, s))
    requires s.f.fq[0].ir == c.Inst(s.f.fq[0].pc)
    requires var fe := s.f.fq[0]; var op := c.decode(fe.ir); var eff := c.exec(fe.ir, fe.pc, Shown(s.f));
      !op.nop && !op.mem.NoMem? &&
      Holds(s1.w.st[s.w.nr + s.w.lt], MemKind(op), op, fe.pc, eff, Carried(c, op, fe, eff), s.f.specMode,
            s.w.lastSeq + 2)
    ensures New(c, s, w, s.w.nr + s.w.lt)
  {
    var fe, d := s.f.fq[0], s.w.nr + s.w.lt;
    NewIsMeant(c, s1.w.st[d], w.st[d], MemKind(c.decode(fe.ir)), fe, Shown(s.f), s.f.specMode, s.w.lastSeq + 2);
    hide Described, Executed, Redirects, Carried;
  }

  lemma OldMeant(c: Config, s: State, w: Window, t: int)
    requires Ring(s.w) && Meant(c, s.w, s.h) && Old(s, w, t)
    ensures Described(c, w.st[t]) && exists vals :: Executed(c, w.st[t], vals)
  {
    hide RingPos, Suits, Sources, Results, Misfetch;
    var vals :| Executed(c, s.w.st[t], vals);
    assert Executed(c, w.st[t], vals);
  }

  lemma OldNth(c: Config, s: State, w: Window, h: History, t: int)
    requires Ring(s.w) && Old(s, w, t) && !w.st[t].spec
    requires forall u :: Live(s.w, u) && !s.w.st[u].spec ==> exists k :: IsNth(c, h, s.w.st[u], k)
    ensures exists k :: IsNth(c, h, w.st[t], k)
  {
    hide RingPos, Suits, Sources, Results, Misfetch, Origins, SeqRun;
    var k :| IsNth(c, h, s.w.st[t], k);
    assert IsNth(c, h, w.st[t], k);
  }

  /** A new operation of the right path is the next the sequential machine executes. */
  lemma NewNth(c: Config, s: State, w: Window, t: int)
    requires FrontOk(c, s.f, s.h) && s.f.fq != [] && !s.f.specMode && New(c, s, w, t)
    requires !c.decode(c.Inst(s.f.fq[0].pc)).nop
    ensures var h := Traced(s.h, c.decode(c.Inst(s.f.fq[0].pc)), s.f.fq[0].pc, s.w.lastSeq + 1);
      exists k :: IsNth(c, h, w.st[t], k)
  {
    var pc := s.f.fq[0].pc;
    var h := Traced(s.h, c.decode(c.Inst(pc)), pc, s.w.lastSeq + 1);
    assert Shown(s.f) == s.f.arch;
    assert |Pcs(s.h.dispatched)| == |Effective(c, s.h.path)|;
    OriginsGrow(c, s.h.path, pc);
    hide Origins, SeqRun, Executed, Described, FetchOk, Effective;
    assert IsNth(c, h, w.st[t], |s.h.dispatched|);
  }

  lemma TrapsStay(c: Config, s: State, w: Window, t: int, u: int)
    requires Ring(s.w) && Numbered(s.w) && TrapsFirst(c, s.w) && s.f.fq != [] && s.w.nr == w.nr
    requires Old(s, w, t) && LiveR(s.w, t) && OpOf(c, w.st[t]).trap && (Old(s, w, u) || New(c, s, w, u))
    ensures !w.st[t].spec && w.st[t].seqno <= w.st[u].seqno
  {
    hide RingPos, Described, Executed;
  }

  lemma DispatchParts(c: Config, s: State)
    requires CoreOk(c, s, s.q.now + 1)
    ensures FrontOk(c, s.f, s.h) && Ring(s.w) && Numbered(s.w) && KindsOk(s.w) && s.w.ln <= s.w.rn
    ensures forall k :: 0 <= k < |s.f.fq| ==> s.f.fq[k].ir == c.Inst(s.f.fq[k].pc)
  {
    assert Paired(s.w);
    hide OrderedRuu, OrderedLsq, Numbered, KindsOk, SpecOk, OperandsOk, VectorsOk, HistoryOk, LifeOk, ProgressOk,
         LoadsOk, LinksOk, RingPos, SeqRun;
  }

  lemma NumberedOn(c: Config, s: State)
    requires Sized(s) && DispatchOne(c, s).Next? && s.f.fq != [] && !c.decode(s.f.fq[0].ir).nop
    ensures DispatchOne(c, s).s.w.lastSeq > s.w.lastSeq && DispatchOne(c, s).s.w.nr == s.w.nr
  {
    var fe := s.f.fq[0];
    var op := c.decode(fe.ir);
    var eff := c.exec(fe.ir, fe.pc, Shown(s.f));
    DispatchIs(c, s);
    AllocateArrives(s, op, fe.pc, eff, Carried(c, op, fe, eff));
    hide DispatchOne, Allocate, Holds, SameText, Redirects, Carried, RingPos;
  }

  /** The histories after a dispatch. */
  lemma HistoryIs(c: Config, s: State)
    requires Sized(s) && DispatchOne(c, s).Next?
    ensures s.f.fq != []
    ensures var op := c.decode(s.f.fq[0].ir);
      DispatchOne(c, s).s.h == if s.f.specMode then s.h else Traced(s.h, op, s.f.fq[0].pc, s.w.lastSeq + 1)
  {
    DispatchIs(c, s);
    var fe := s.f.fq[0];
    var op := c.decode(fe.ir);
    var eff := c.exec(fe.ir, fe.pc, Shown(s.f));
    if !op.nop {
      AllocateArrives(s, op, fe.pc, eff, Carried(c, op, fe, eff));
    }
    hide DispatchOne, Allocate, Holds, SameText, Redirects, Carried, RingPos, Traced;
  }

  /** What is old keeps its place in the histories, and right-path instructions stay numbered in order. */
  lemma HistoryMeant(c: Config, s: State)
    requires CoreOk(c, s, s.q.now + 1) && Sized(s) && Meant(c, s.w, s.h) && DispatchOne(c, s).Next?
    ensures var r := DispatchOne(c, s).s;
      && (forall u :: Live(s.w, u) && !s.w.st[u].spec ==> exists k :: IsNth(c, r.h, s.w.st[u], k))
      && Rising(r.h.dispatched, r.w.lastSeq)
  {
    hide CoreOk, DispatchOne, IsNth, Described, Executed, RingPos, FrontOk, Numbered, KindsOk;
    DispatchParts(c, s);
    HistoryIs(c, s);
    var fe := s.f.fq[0];
    if c.decode(fe.ir).nop {
      NopWindow(c, s);
    } else {
      NumberedOn(c, s);
    }
    if !s.f.specMode {
      TracedMeant(c, s.w, s.h, c.decode(fe.ir), fe.pc, s.w.lastSeq + 1);
    }
  }

  lemma NopWindow(c: Config, s: State)
    requires Sized(s) && DispatchOne(c, s).Next? && s.f.fq != [] && c.decode(s.f.fq[0].ir).nop
    ensures DispatchOne(c, s).s.w == s.w
  {
    DispatchIs(c, s);
    hide DispatchOne;
  }

  /** Every operation after a dispatch is what the program says. */
  lemma EachMeant(c: Config, s: State, t: int)
    requires CoreOk(c, s, s.q.now + 1) && Sized(s) && Meant(c, s.w, s.h) && DispatchOne(c, s).Next?
    requires Live(DispatchOne(c, s).s.w, t)
    ensures var r := DispatchOne(c, s).s; var rs := r.w.st[t];
      && Described(c, rs) && (exists vals :: Executed(c, rs, vals)) && (!rs.spec ==> exists k :: IsNth(c, r.h, rs, k))
  {
    hide CoreOk, DispatchOne, IsNth, Described, Executed, RingPos, FrontOk, Numbered, KindsOk, Meant, Traced, Old, New;
    var r := DispatchOne(c, s).s;
    DispatchParts(c, s);
    HistoryIs(c, s);
    HistoryMeant(c, s);
    if c.decode(s.f.fq[0].ir).nop {
      NopWindow(c, s);
      OldSame(s, t);
      OldMeant(c, s, r.w, t);
      if !r.w.st[t].spec {
        OldNth(c, s, r.w, r.h, t);
      }
    } else {
      OldOrNew(c, s, t);
      if Old(s, r.w, t) {
        OldMeant(c, s, r.w, t);
        if !r.w.st[t].spec {
          OldNth(c, s, r.w, r.h, t);
        }
      } else {
        NewParts(c, s, r.w, t);
        if !r.w.st[t].spec {
          NewNth(c, s, r.w, t);
        }
      }
    }
  }

  lemma OldSame(s: State, t: int)
    requires Ring(s.w) && Live(s.w, t)
    ensures Old(s, s.w, t)
  {
  }

  lemma NewParts(c: Config, s: State, w: Window, t: int)
    requires s.f.fq != [] && New(c, s, w, t)
    ensures 0 <= t < |w.st| && Described(c, w.st[t]) && Executed(c, w.st[t], Shown(s.f)) && w.st[t].spec == s.f.specMode
    ensures OpOf(c, w.st[t]) == c.decode(c.Inst(s.f.fq[0].pc))
    ensures w.st[t].seqno == s.w.lastSeq + (if InLsq(w.st[t]) then 2 else 1)
  {
    hide Described, Executed;
  }

  lemma TrapsMeant(c: Config, s: State)
    requires c.Valid() && CoreOk(c, s, s.q.now + 1) && Sized(s) && Meant(c, s.w, s.h) && DispatchOne(c, s).Next?
    ensures TrapsFirst(c, DispatchOne(c, s).s.w)
  {
    hide CoreOk, DispatchOne, RingPos, FrontOk, Numbered, KindsOk, Meant, Old, New, OpOf;
    var r := DispatchOne(c, s).s;
    OooFollow.DispatchOneOk(c, s);
    DispatchParts(c, s);
    DispatchParts(c, r);
    MeantTraps(c, s.w, s.h);
    HistoryIs(c, s);
    if c.decode(s.f.fq[0].ir).nop {
      NopWindow(c, s);
    } else {
      NumberedOn(c, s);
      forall t, u | LiveR(r.w, t) && OpOf(c, r.w.st[t]).trap && Live(r.w, u)
        ensures !r.w.st[t].spec && r.w.st[t].seqno <= r.w.st[u].seqno
      {
        TrapBefore(c, s, t, u);
      }
    }
  }

  lemma TrapBefore(c: Config, s: State, t: int, u: int)
    requires c.Valid() && CoreOk(c, s, s.q.now + 1) && Sized(s) && Meant(c, s.w, s.h) && DispatchOne(c, s).Next?
    requires s.f.fq != [] && !c.decode(s.f.fq[0].ir).nop
    requires var w := DispatchOne(c, s).s.w; LiveR(w, t) && w.nr == s.w.nr && OpOf(c, w.st[t]).trap && Live(w, u)
    requires KindsOk(DispatchOne(c, s).s.w)
    ensures var w := DispatchOne(c, s).s.w; !w.st[t].spec && w.st[t].seqno <= w.st[u].seqno
  {
    hide CoreOk, DispatchOne, RingPos, FrontOk, Numbered, Meant, Old, New, OpOf;
    var w := DispatchOne(c, s).s.w;
    DispatchParts(c, s);
    OldOrNew(c, s, t);
    OldOrNew(c, s, u);
    if Old(s, w, t) {
      OldIsRuu(s, w, t);
      MeantTraps(c, s.w, s.h);
      TrapsStay(c, s, w, t, u);
    } else {
      NewParts(c, s, w, t);
      TrapAlone(c, s);
      OldIsLive(s, w, u);
      NewParts(c, s, w, u);
    }
  }

  lemma MeantTraps(c: Config, w: Window, h: History)
    requires Ring(w) && Meant(c, w, h)
    ensures TrapsFirst(c, w)
  {
  }

  lemma OldIsRuu(s: State, w: Window, t: int)
    requires Ring(s.w) && Old(s, w, t) && t < s.w.nr
    ensures LiveR(s.w, t)
  {
  }

  lemma OldIsLive(s: State, w: Window, u: int)
    requires Ring(s.w) && s.w.rn == 0 && s.w.ln == 0
    ensures !Old(s, w, u)
  {
  }

  /** A trap is dispatched on the right path and into an empty RUU. */
  lemma TrapAlone(c: Config, s: State)
    requires Sized(s) && DispatchOne(c, s).Next? && s.f.fq != [] && c.decode(s.f.fq[0].ir).trap
    ensures s.w.rn == 0 && !s.f.specMode
  {
    DispatchIs(c, s);
    hide DispatchOne;
  }

  lemma DispatchOneMeant(c: Config, s: State)
    requires c.Valid() && CoreOk(c, s, s.q.now + 1) && Sized(s) && Meant(c, s.w, s.h) && DispatchOne(c, s).Next?
    ensures Meant(c, DispatchOne(c, s).s.w, DispatchOne(c, s).s.h)
  {
    var r := DispatchOne(c, s).s;
    TrapsMeant(c, s);
    HistoryMeant(c, s);
    hide CoreOk, DispatchOne, IsNth, Described, Executed, RingPos;
    forall t | Live(r.w, t) ensures Described(c, r.w.st[t]) && exists vals :: Executed(c, r.w.st[t], vals) {
      EachMeant(c, s, t);
    }
    forall t | Live(r.w, t) && !r.w.st[t].spec ensures exists k :: IsNth(c, r.h, r.w.st[t], k) {
      EachMeant(c, s, t);
    }
  }

  lemma {:induction false} DispatchMeant(c: Config, s: State, width: nat)
    requires c.Valid() && CoreOk(c, s, s.q.now + 1) && Sized(s) && Meant(c, s.w, s.h) && Dispatch(c, s, width).Ok?
    ensures Meant(c, Dispatch(c, s, width).value.w, Dispatch(c, s, width).value.h)
    decreases width
  {
    hide CoreOk, DispatchOne, Meant, RingPos;
    if width == 0 || !DispatchOne(c, s).Next? {
    } else {
      OooFollow.DispatchOneOk(c, s);
      DispatchOneMeant(c, s);
      DispatchMeant(c, DispatchOne(c, s).s, width - 1);
    }
  }

  // ---------------------------------------------------------------- a cycle

  lemma CommitMeant(c: Config, s: State, width: nat, ports: nat -> bool)
    requires Sized(s) && Meant(c, s.w, s.h) && Commit(s, width, ports).Ok?
    ensures Meant(c, Commit(s, width, ports).value.w, Commit(s, width, ports).value.h)
  {
    hide Commit, Meant, RingPos;
    var r := Commit(s, width, ports).value;
    CommitText(s, width, ports);
    CommitFewer(s, width, ports);
    CommitKeeps(s, width, ports);
    FewerMeant(c, s.w, r.w, s.h, r.h);
  }

  lemma {:induction false} CommitKeeps(s: State, width: nat, ports: nat -> bool)
    requires Sized(s) && Commit(s, width, ports).Ok?
    ensures var r := Commit(s, width, ports).value;
      r.h == s.h.(retired := r.h.retired) && r.w.lastSeq == s.w.lastSeq
    decreases width
  {
    if width == 0 || !CommitOne(s, ports(width)).Next? {
    } else {
      CommitKeeps(CommitOne(s, ports(width)).s, width - 1, ports);
    }
  }

  lemma WritebackMeant(c: Config, s: State)
    requires Sized(s) && Meant(c, s.w, s.h) && Writeback(c, s).Ok?
    ensures Meant(c, Writeback(c, s).value.w, Writeback(c, s).value.h)
  {
    hide Writeback, Meant, Later, RingPos;
    var r := Writeback(c, s).value;
    WritebackText(c, s);
    WritebackLater(c, s);
    LaterFewer(s.w, r.w);
    WritebackKeeps(c, s);
    FewerMeant(c, s.w, r.w, s.h, r.h);
  }

  lemma {:induction false} WritebackKeeps(c: Config, s: State)
    requires Sized(s) && Writeback(c, s).Ok?
    ensures Writeback(c, s).value.h == s.h && Writeback(c, s).value.w.lastSeq == s.w.lastSeq
    decreases |s.q.events|
  {
    hide Complete, PopEvent;
    match PopEvent(s.q, s.w.st)
    case NoEvent(_) =>
    case Event(q1, l) =>
      CompleteKeeps(c, s.(q := q1), l.slot);
      WritebackKeeps(c, Complete(c, s.(q := q1), l.slot).value);
  }

  lemma CompleteKeeps(c: Config, s: State, slot: nat)
    requires Sized(s) && slot < |s.w.st| && Complete(c, s, slot).Ok?
    ensures Complete(c, s, slot).value.h == s.h && Complete(c, s, slot).value.w.lastSeq == s.w.lastSeq
  {
    hide RecoverWindow, Broadcast;
    var rs := s.w.st[slot];
    var s1 := s.(w := Put(s.w, slot, rs.(completed := true)));
    if rs.recover {
      RecoverKeeps(s1, slot);
    }
    var s2 := if rs.recover then Recover(c, s1, slot).value else s1;
    BroadcastKeeps(s2, slot, 0);
    BroadcastKeeps(Broadcast(s2, slot, 0).value, slot, 1);
  }

  lemma {:induction false} RecoverKeeps(s: State, branch: nat)
    requires Ring(s.w) && RecoverWindow(s, branch).Ok?
    ensures RecoverWindow(s, branch).value.h == s.h && RecoverWindow(s, branch).value.w.lastSeq == s.w.lastSeq
    decreases s.w.rn
  {
    if Wrap(s.w.rt + s.w.nr - 1, s.w.nr) == branch {
    } else {
      SquashKeeps(s);
      hide SquashOne;
      RecoverKeeps(SquashOne(s).value, branch);
    }
  }

  lemma SquashKeeps(s: State)
    requires Ring(s.w) && SquashOne(s).Ok?
    ensures SquashOne(s).value.h == s.h && SquashOne(s).value.w.lastSeq == s.w.lastSeq
  {
    hide FreeList;
  }

  lemma BroadcastKeeps(s: State, slot: nat, i: nat)
    requires Sized(s) && slot < |s.w.st| && i < 2 && Broadcast(s, slot, i).Ok?
    ensures Broadcast(s, slot, i).value.h == s.h && Broadcast(s, slot, i).value.w.lastSeq == s.w.lastSeq
  {
    hide WakeAll;
    var rs := s.w.st[slot];
    if rs.onames[i] != NA {
      var w1 := Put(s.w, slot, rs.(odeps := rs.odeps[i := []]));
      WakeAllKeeps(s.(v := ClearCreator(s.v, rs, slot, i), w := w1), rs.odeps[i]);
    }
  }

  lemma {:induction false} WakeAllKeeps(s: State, chain: seq<Link>)
    requires Ring(s.w) && WakeAll(s, chain).Ok?
    ensures WakeAll(s, chain).value.h == s.h && WakeAll(s, chain).value.w.lastSeq == s.w.lastSeq
    decreases |chain|
  {
    hide InsertSorted;
    if chain == [] {
    } else {
      WakeAllKeeps(WakeOne(s, chain[0]).value, chain[1..]);
    }
  }

  lemma QuietMeant(c: Config, w: Window, w': Window, h: History)
    requires Ring(w) && Ring(w') && Meant(c, w, h) && Quiet(w, w')
    ensures Meant(c, w', h)
  {
    QuietText(w, w');
    hide Meant, RingPos;
    FewerMeant(c, w, w', h, h);
  }

  /** Without a store with a result in the text there is none in the window. */
  lemma MeantFree(c: Config, w: Window, h: History)
    requires c.Valid() && Ring(w) && Meant(c, w, h) && !StoresHaveResults(c)
    ensures ResultFree(w)
  {
    hide RingPos, Executed, IsNth, StoresHaveResults;
    forall t | Live(w, t) && w.st[t].kind.Store? ensures w.st[t].onames == [NA, NA] {
      TextStores(c, w.st[t].pc);
    }
  }
}
