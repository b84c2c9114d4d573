/**
 * ruu_dispatch: instructions enter the window in program order, on the right path those of the
 * sequential machine.
 */
module OooDispatch {
  import opened OooTypes
  import opened OooStages
  import opened OooInv
  import opened OooFrames
  import opened OooQueues
  import opened OooIssue
  import opened OooCommit
  import opened OooRecover
  import opened OooComplete
  import opened OooAlloc
  import opened OooLink
  import opened OooNames
  import opened OooInstall
  import OooRefresh

  // ---------------------------------------------------------------- entering the window

  lemma AddMid(w: Window, w': Window, d: int, q: Queues, v: Vectors, m: bool, k: int)
    requires Adds(w, w', d) && MidOk(w, q, v, m, k) && k <= w.lastSeq && w'.st[d].spec == m
    requires OrderedRuu(w') && OrderedLsq(w')
    ensures MidOk(w', q, v, m, k)
  {
    hide OrderedRuu, OrderedLsq, Numbered, KindsOk, SpecOk, VectorsOk, OperandsOk, LifeOk, LoadsOk, ProgressUpTo,
         RingPos, Adds;
    AddNumbered(w, w', d);
    AddSpec(w, w', d, m);
    AddVectors(w, w', v, d);
    AddOperands(w, w', d);
    AddLife(w, w', d, q);
    AddLoads(w, w', d, k);
    AddsRing(w, w', d);
  }

  lemma AddsRing(w: Window, w': Window, d: int)
    requires Adds(w, w', d)
    ensures Ring(w') && Newest(w', d) && w'.lastSeq == w.lastSeq + 1 && 0 <= d < |w'.st| && |w'.st| == |w.st|
    ensures w'.st[d].onames == [NA, NA] && w'.st[d].ready == [true, true, true]
  {
    hide RingPos;
  }

  lemma AllocRuuSets(s: State, kind: Kind, op: Op, pc: nat, next: nat, pred: nat)
    requires Sized(s) && s.w.rn < s.w.nr
    ensures var s1 := AllocRuu(s, kind, op, pc, next, pred); s1 == s.(w := s1.w) && s1.w.st[s.w.rt].spec == s.f.specMode
  {
  }

  lemma AllocLsqSets(s: State, kind: Kind, op: Op, pc: nat, next: nat, pred: nat, addr: nat)
    requires Sized(s) && s.w.ln < s.w.nl
    ensures var s1 := AllocLsq(s, kind, op, pc, next, pred, addr);
      s1 == s.(w := s1.w) && s1.w.st[s.w.nr + s.w.lt].spec == s.f.specMode
  {
  }

  /** A fresh RUU operation is ready to be named. */
  lemma AllocRuuOk(s: State, kind: Kind, op: Op, pc: nat, next: nat, pred: nat, k: int)
    requires MidOk(s.w, s.q, s.v, s.f.specMode, k) && k <= s.w.lastSeq && Sized(s) && s.w.rn < s.w.nr &&
      (kind.Alu? || kind.Addr?)
    ensures Linking(AllocRuu(s, kind, op, pc, next, pred), s.w.rt, 0, k)
  {
    MidRings(s.w, s.q, s.v, s.f.specMode, k);
    hide MidOk, RingPos, Wrap, AllocRuu, Adds, Newest, OrderedRuu, OrderedLsq, Numbered;
    AllocRuuAdds(s, kind, op, pc, next, pred);
    AllocRuuSets(s, kind, op, pc, next, pred);
    var s1 := AllocRuu(s, kind, op, pc, next, pred);
    AllocRuuOrdered(s, kind, op, pc, next, pred);
    AddMid(s.w, s1.w, s.w.rt, s.q, s.v, s.f.specMode, k);
    AddsRing(s.w, s1.w, s.w.rt);
  }

  lemma MidRings(w: Window, q: Queues, v: Vectors, m: bool, k: int)
    requires MidOk(w, q, v, m, k)
    ensures Ring(w) && OrderedRuu(w) && OrderedLsq(w) && Numbered(w)
  {
  }

  lemma AllocLsqOk(s: State, kind: Kind, op: Op, pc: nat, next: nat, pred: nat, addr: nat, k: int)
    requires MidOk(s.w, s.q, s.v, s.f.specMode, k) && k <= s.w.lastSeq && Sized(s) && s.w.ln < s.w.nl &&
      (kind.Load? || kind.Store?)
    ensures Linking(AllocLsq(s, kind, op, pc, next, pred, addr), s.w.nr + s.w.lt, 0, k)
  {
    hide MidOk, RingPos, AllocLsq, Adds, Newest;
    var d := s.w.nr + s.w.lt;
    AllocLsqMid(s, kind, op, pc, next, pred, addr, k);
    AllocLsqAdds(s, kind, op, pc, next, pred, addr);
    AllocLsqSets(s, kind, op, pc, next, pred, addr);
    AddsRing(s.w, AllocLsq(s, kind, op, pc, next, pred, addr).w, d);
  }

  lemma AllocLsqMid(s: State, kind: Kind, op: Op, pc: nat, next: nat, pred: nat, addr: nat, k: int)
    requires MidOk(s.w, s.q, s.v, s.f.specMode, k) && k <= s.w.lastSeq && Sized(s) && s.w.ln < s.w.nl &&
      (kind.Load? || kind.Store?)
    ensures var s1 := AllocLsq(s, kind, op, pc, next, pred, addr); MidOk(s1.w, s1.q, s1.v, s.f.specMode, k)
  {
    hide MidOk, RingPos, AllocLsq, Adds, OrderedRuu, OrderedLsq, Numbered;
    MidRings(s.w, s.q, s.v, s.f.specMode, k);
    AllocLsqAdds(s, kind, op, pc, next, pred, addr);
    AllocLsqSets(s, kind, op, pc, next, pred, addr);
    AllocLsqOrdered(s, kind, op, pc, next, pred, addr);
    AddMid(s.w, AllocLsq(s, kind, op, pc, next, pred, addr).w, s.w.nr + s.w.lt, s.q, s.v, s.f.specMode, k);
  }

  // ---------------------------------------------------------------- pairing and histories

  /** All LSQ entries are paired and the youngest RUU entry, an address computation, is not yet. */
  ghost predicate HalfPaired(w: Window)
    requires Ring(w)
  {
    var ea := EaSlots(w.st, w.nr, w.rh, w.rn);
    && |ea| == w.ln + 1 && w.st[ea[w.ln]].seqno == w.lastSeq
    && forall k :: 0 <= k < w.ln ==> w.st[LsqSlot(w, k)].seqno == w.st[ea[k]].seqno + 1
  }

  lemma AllocEa(s: State, kind: Kind, op: Op, pc: nat, next: nat, pred: nat)
    requires Sized(s) && s.w.rn < s.w.nr
    ensures var w, w' := s.w, AllocRuu(s, kind, op, pc, next, pred).w;
      && EaSlots(w'.st, w'.nr, w'.rh, w'.rn) == EaSlots(w.st, w.nr, w.rh, w.rn) + (if kind.Addr? then [w.rt] else [])
      && RightPath(w'.st, w'.nr, w'.rh, w'.rn) ==
           RightPath(w.st, w.nr, w.rh, w.rn) + (if s.f.specMode then [] else [Entry(w.lastSeq + 1, pc)])
  {
    var w, w' := s.w, AllocRuu(s, kind, op, pc, next, pred).w;
    EaSnoc(w'.st, w.nr, w.rh, w.rn);
    EaSlotsSame(w.st, w'.st, w.nr, w.rh, w.rn);
    RightSnoc(w'.st, w.nr, w.rh, w.rn);
    RightPathSame(w.st, w'.st, w.nr, w.rh, w.rn);
    hide EaSlots, RightPath;
  }

  /** Facts about the window after an allocation that pairing needs. */
  lemma AllocKeeps(s: State, kind: Kind, op: Op, pc: nat, next: nat, pred: nat, t: int)
    requires Sized(s) && s.w.rn < s.w.nr && Live(s.w, t)
    ensures var w' := AllocRuu(s, kind, op, pc, next, pred).w; w'.st[t] == s.w.st[t]
  {
  }

  lemma EaIsLive(w: Window, k: nat)
    requires Ring(w) && k < |EaSlots(w.st, w.nr, w.rh, w.rn)|
    ensures Live(w, EaSlots(w.st, w.nr, w.rh, w.rn)[k])
  {
    EaSlotsLive(w, w.rh, w.rn, k);
  }

  lemma AllocPaired(s: State, kind: Kind, op: Op, pc: nat, next: nat, pred: nat)
    requires Sized(s) && s.w.rn < s.w.nr && Paired(s.w)
    ensures var w' := AllocRuu(s, kind, op, pc, next, pred).w; if kind.Addr? then HalfPaired(w') else Paired(w')
  {
    var w, w' := s.w, AllocRuu(s, kind, op, pc, next, pred).w;
    var ea, ea' := EaSlots(w.st, w.nr, w.rh, w.rn), EaSlots(w'.st, w'.nr, w'.rh, w'.rn);
    AllocEa(s, kind, op, pc, next, pred);
    assert w'.st[w.rt].seqno == w'.lastSeq && w'.ln == w.ln && w'.lh == w.lh && w'.nl == w.nl;
    hide EaSlots, RightPath;
    forall k | 0 <= k < w.ln ensures w'.st[LsqSlot(w', k)].seqno == w'.st[ea'[k]].seqno + 1 {
      assert ea'[k] == ea[k];
      EaIsLive(w, k);
      OooRefresh.LsqAt(w, k);
      AllocKeeps(s, kind, op, pc, next, pred, LsqSlot(w, k));
      AllocKeeps(s, kind, op, pc, next, pred, ea[k]);
      assert LsqSlot(w', k) == LsqSlot(w, k);
      hide AllocRuu, RingPos;
    }
  }

  lemma OrderHalfPaired(w: Window, w': Window)
    requires Ring(w) && SameOrder(w, w') && HalfPaired(w)
    ensures HalfPaired(w')
  {
    EaSlotsSame(w.st, w'.st, w.nr, w.rh, w.rn);
    hide EaSlots, RingPos;
    forall k | 0 <= k < w.ln ensures LsqSlot(w', k) == LsqSlot(w, k) {
    }
  }

  lemma AllocLsqIs(s: State, kind: Kind, op: Op, pc: nat, next: nat, pred: nat, addr: nat)
    requires Sized(s) && s.w.ln < s.w.nl
    ensures var w, w' := s.w, AllocLsq(s, kind, op, pc, next, pred, addr).w;
      && w'.nr == w.nr && w'.nl == w.nl && w'.rh == w.rh && w'.rn == w.rn && w'.lh == w.lh && w'.ln == w.ln + 1
      && |w'.st| == |w.st| && w'.st[w.nr + w.lt].seqno == w.lastSeq + 1
      && forall t :: 0 <= t < |w.st| && t != w.nr + w.lt ==> w'.st[t] == w.st[t]
  {
  }

  lemma LsqEnd(w: Window, k: nat)
    requires Ring(w) && k <= w.ln < w.nl
    ensures (LsqSlot(w, k) == w.nr + w.lt) <==> k == w.ln
  {
  }

  lemma AllocLsqPaired(s: State, kind: Kind, op: Op, pc: nat, next: nat, pred: nat, addr: nat)
    requires Sized(s) && s.w.ln < s.w.nl && HalfPaired(s.w)
    ensures Paired(AllocLsq(s, kind, op, pc, next, pred, addr).w)
  {
    var w, w' := s.w, AllocLsq(s, kind, op, pc, next, pred, addr).w;
    var ea := EaSlots(w.st, w.nr, w.rh, w.rn);
    AllocLsqIs(s, kind, op, pc, next, pred, addr);
    hide AllocLsq, EaSlots, RingPos;
    EaSlotsSame(w.st, w'.st, w.nr, w.rh, w.rn);
    forall k | 0 <= k < w'.ln ensures w'.st[LsqSlot(w', k)].seqno == w'.st[ea[k]].seqno + 1 {
      LsqEnd(w, k);
      assert LsqSlot(w', k) == LsqSlot(w, k);
    }
  }

  lemma AllocLsqHistory(s: State, kind: Kind, op: Op, pc: nat, next: nat, pred: nat, addr: nat, h: History)
    requires Sized(s) && s.w.ln < s.w.nl && HistoryOk(s.w, h)
    ensures HistoryOk(AllocLsq(s, kind, op, pc, next, pred, addr).w, h)
  {
    RightPathSame(s.w.st, AllocLsq(s, kind, op, pc, next, pred, addr).w.st, s.w.nr, s.w.rh, s.w.rn);
  }

  /** The history after the operation numbered `seqno` has been dispatched. */
  function Dispatched(h: History, spec: bool, seqno: nat, pc: nat): History {
    if spec then h else h.(dispatched := h.dispatched + [Entry(seqno, pc)])
  }

  lemma AllocHistory(s: State, kind: Kind, op: Op, pc: nat, next: nat, pred: nat, h: History)
    requires Sized(s) && s.w.rn < s.w.nr && HistoryOk(s.w, h)
    ensures HistoryOk(AllocRuu(s, kind, op, pc, next, pred).w, Dispatched(h, s.f.specMode, s.w.lastSeq + 1, pc))
  {
    AllocEa(s, kind, op, pc, next, pred);
    hide EaSlots, RightPath, AllocRuu, RingPos;
  }

  // ---------------------------------------------------------------- queueing what is ready

  /** The operation in `d` is on its way if it can be. */
  predicate Moving(w: Window, d: int)
    requires 0 <= d < |w.st|
  {
    OpsReady(w.st[d]) && !w.st[d].kind.Load? ==> w.st[d].queued || w.st[d].issued
  }

  lemma QuietMid(s: State, s': State, k: int)
    requires MidOk(s.w, s.q, s.v, s.f.specMode, k) && Quiet(s.w, s'.w) && s'.v == s.v
    requires LifeOk(s'.w, s'.q, []) && LoadsOk(s'.w) && ProgressUpTo(s'.w, k) && EventsOk(s'.q, s'.q.now + 1)
    ensures MidOk(s'.w, s'.q, s'.v, s.f.specMode, k)
  {
    QuietAlike(s.w, s'.w);
    assert SameOrder(s.w, s'.w);
    hide OrderedRuu, OrderedLsq, Numbered, KindsOk, SpecOk, VectorsOk, OperandsOk, LifeOk, LoadsOk, ProgressUpTo,
         RingPos, Quiet, SameOrder, EventsOk;
    SameOrderedRuu(s.w, s'.w);
    SameOrderedLsq(s.w, s'.w);
    OrderNumbered(s.w, s'.w);
    QuietSpec(s.w, s'.w, s.f.specMode);
    QuietVectors(s.w, s'.w, s.v, 0, 2);
    QuietOperands(s.w, s'.w, 0, 2);
  }

  lemma EnqueueProgress(s: State, d: int, k: int)
    requires Ring(s.w) && Live(s.w, d) && ReadyEnqueue(s, d).Ok? && ProgressUpTo(s.w, k)
    ensures var r := ReadyEnqueue(s, d).value; ProgressUpTo(r.w, k)
  {
    EnqueueSets(s, d);
    hide ReadyEnqueue, RingPos;
  }

  lemma EnqueueNew(s: State, d: nat, k: int)
    requires MidOk(s.w, s.q, s.v, s.f.specMode, k) && Sized(s) && d < |s.w.st| && Live(s.w, d) && Waiting(s.w.st[d]) &&
      !s.w.st[d].kind.Load?
    ensures match EnqueueIfReady(s, d)
      case Panic(p) => p == OutOfLinks
      case Ok(r) =>
        && MidOk(r.w, r.q, r.v, s.f.specMode, k) && OnlyPhases(s, r) && Moving(r.w, d)
        && forall t :: 0 <= t < |s.w.st| && t != d ==> r.w.st[t] == s.w.st[t]
  {
    SamePhases(s);
    if OpsReady(s.w.st[d]) {
      EnqueueQuiet(s, d);
      if ReadyEnqueue(s, d).Ok? {
        var r := ReadyEnqueue(s, d).value;
        assert LoadsOk(s.w) && LifeOk(s.w, s.q, []) && ProgressUpTo(s.w, k) && EventsOk(s.q, s.q.now + 1);
        hide MidOk, LoadsOk, LifeOk, ProgressUpTo, RingPos;
        EnqueueSets(s, d);
        EnqueueLife(s, [], d);
        EnqueueFlow(s, d);
        EnqueueProgress(s, d, k);
        hide ReadyEnqueue, Quiet;
        QuietMid(s, r, k);
      }
    }
    hide MidOk, RingPos, ReadyEnqueue, Quiet;
  }

  lemma EnqueueNewLinks(s: State, d: nat, id: nat)
    requires Sized(s) && d < |s.w.st| && EnqueueIfReady(s, d).Ok?
    ensures var r := EnqueueIfReady(s, d).value; LinkCnt(r.w, r.q, id) == LinkCnt(s.w, s.q, id)
  {
    if OpsReady(s.w.st[d]) {
      EnqueueLinks(s, d, id);
    }
    hide LinkCnt, ReadyEnqueue;
  }

  // ---------------------------------------------------------------- one instruction

  /** What dispatching an operation at `pc` leaves. */
  ghost predicate Entered(s: State, r: State, pc: nat) {
    && MidOk(r.w, r.q, r.v, s.f.specMode, s.w.lastSeq) && ProgressOk(r.w) && Paired(r.w)
    && HistoryOk(r.w, Dispatched(s.h, s.f.specMode, s.w.lastSeq + 1, pc))
    && r == s.(w := r.w, q := r.q, v := r.v) && r.q.now == s.q.now && r.w.nr == s.w.nr && r.w.nl == s.w.nl
  }

  lemma AllMoving(w: Window, q: Queues, v: Vectors, m: bool, k: int, a: int, b: int)
    requires MidOk(w, q, v, m, k) && 0 <= a < |w.st| && 0 <= b < |w.st| && Moving(w, a) && Moving(w, b)
    requires forall t :: Live(w, t) && w.st[t].seqno > k ==> t == a || t == b
    ensures ProgressOk(w)
  {
    hide OrderedRuu, OrderedLsq, Numbered, KindsOk, SpecOk, VectorsOk, OperandsOk, LifeOk, LoadsOk, RingPos;
  }

  lemma OnlyNewest(w: Window, q: Queues, v: Vectors, m: bool, k: int, d: int, t: int)
    requires MidOk(w, q, v, m, k) && Newest(w, d) && w.lastSeq == k + 1 && Live(w, t) && w.st[t].seqno > k
    ensures t == d
  {
    hide OrderedRuu, OrderedLsq, KindsOk, SpecOk, VectorsOk, OperandsOk, LifeOk, LoadsOk, ProgressUpTo, RingPos;
  }

  lemma PhasesOrder(s: State, s': State)
    requires OnlyPhases(s, s') && Ring(s.w)
    ensures SameOrder(s.w, s'.w) && s' == s.(w := s'.w, q := s'.q) && s'.q.now == s.q.now
    ensures forall t :: Live(s'.w, t) <==> Live(s.w, t)
  {
    hide RingPos;
  }

  lemma NewestWaits(w: Window, d: int)
    requires Ring(w) && Newest(w, d)
    ensures Live(w, d) && 0 <= d < |w.st| && Waiting(w.st[d]) && w.st[d].seqno == w.lastSeq
  {
    hide RingPos;
  }

  lemma AluProgress(s: State, r: State, d: nat, k: int)
    requires MidOk(s.w, s.q, s.v, s.f.specMode, k) && Newest(s.w, d) && s.w.lastSeq == k + 1
    requires MidOk(r.w, r.q, r.v, s.f.specMode, k) && OnlyPhases(s, r) && d < |r.w.st| && Moving(r.w, d)
    ensures ProgressOk(r.w)
  {
    hide MidOk, RingPos, Moving;
    MidParts(s.w, s.q, s.v, s.f.specMode, k);
    hide Numbered, SpecOk, VectorsOk, OperandsOk;
    PhasesOrder(s, r);
    MidParts(r.w, r.q, r.v, s.f.specMode, k);
    forall t | Live(r.w, t) && r.w.st[t].seqno > k ensures t == d {
      OnlyNewest(s.w, s.q, s.v, s.f.specMode, k, d, t);
    }
    hide OnlyPhases, Newest;
    AllMoving(r.w, r.q, r.v, s.f.specMode, k, d, d);
  }

  lemma AllocIs(s: State, kind: Kind, op: Op, pc: nat, next: nat, pred: nat)
    requires Sized(s) && s.w.rn < s.w.nr
    ensures var s1 := AllocRuu(s, kind, op, pc, next, pred);
      && s1 == s.(w := s1.w) && s1.w.lastSeq == s.w.lastSeq + 1 && s1.w.nr == s.w.nr && s1.w.nl == s.w.nl
      && s1.w.st[s.w.rt].kind == kind && |s1.w.st| == |s.w.st| && s.w.rt < |s.w.st|
      && s1.w.ln == s.w.ln && s1.w.lt == s.w.lt
  {
  }

  /** Naming leaves pairing and histories alone. */
  lemma NamesRings(s: State, s': State, h: History)
    requires Ring(s.w) && OnlyNames(s, s') && HistoryOk(s.w, h)
    ensures Ring(s'.w) && HistoryOk(s'.w, h) && s' == s.(w := s'.w, q := s'.q, v := s'.v) && s'.q.now == s.q.now
    ensures SameRings(s.w, s'.w)
    ensures Paired(s.w) ==> Paired(s'.w)
    ensures HalfPaired(s.w) ==> HalfPaired(s'.w)
  {
    OrderHistory(s.w, s'.w, h);
    if Paired(s.w) {
      OrderPaired(s.w, s'.w);
    }
    if HalfPaired(s.w) {
      OrderHalfPaired(s.w, s'.w);
    }
    hide Paired, HalfPaired, HistoryOk, RingPos;
  }

  /** State after the newest operation has been connected. */
  lemma AluConnect(s: State, op: Op, pc: nat, eff: Effect, pred: nat)
    requires MidOk(s.w, s.q, s.v, s.f.specMode, s.w.lastSeq) && Sized(s) && s.w.rn < s.w.nr && Paired(s.w) &&
      HistoryOk(s.w, s.h)
    ensures match Connect(AllocRuu(s, Alu, op, pc, eff.next, pred), s.w.rt, op.ins, op.outs)
      case Panic(p) => p == OutOfLinks
      case Ok(r) =>
        && MidOk(r.w, r.q, r.v, s.f.specMode, s.w.lastSeq) && Newest(r.w, s.w.rt) && Paired(r.w)
        && HistoryOk(r.w, Dispatched(s.h, s.f.specMode, s.w.lastSeq + 1, pc)) && r.w.st[s.w.rt].kind.Alu?
        && r == s.(w := r.w, q := r.q, v := r.v) && r.q.now == s.q.now && r.w.nr == s.w.nr && r.w.nl == s.w.nl &&
          r.w.lastSeq == s.w.lastSeq + 1
  {
    hide MidOk, Paired, HistoryOk, Linking, Newest, Connect, RingPos;
    var s1 := AllocRuu(s, Alu, op, pc, eff.next, pred);
    AllocIs(s, Alu, op, pc, eff.next, pred);
    AllocRuuOk(s, Alu, op, pc, eff.next, pred, s.w.lastSeq);
    AllocPaired(s, Alu, op, pc, eff.next, pred);
    AllocHistory(s, Alu, op, pc, eff.next, pred, s.h);
    hide AllocRuu, Dispatched;
    ConnectOk(s1, s.w.rt, op.ins, op.outs, s.w.lastSeq);
    if Connect(s1, s.w.rt, op.ins, op.outs).Ok? {
      NamesRings(s1, Connect(s1, s.w.rt, op.ins, op.outs).value, Dispatched(s.h, s.f.specMode, s.w.lastSeq + 1, pc));
    }
  }

  lemma AluOk(s: State, op: Op, pc: nat, eff: Effect, pred: nat)
    requires MidOk(s.w, s.q, s.v, s.f.specMode, s.w.lastSeq) && Sized(s) && s.w.rn < s.w.nr && Paired(s.w) &&
      HistoryOk(s.w, s.h)
    ensures match AllocateAlu(s, op, pc, eff, pred)
      case Panic(p) => p == OutOfLinks
      case Ok(r) => Entered(s, r, pc) && Newish(r.w, s.w.rt) && r.w.st[s.w.rt].kind.Alu?
  {
    hide MidOk, Paired, HistoryOk, Newest, Connect, AllocRuu, RingPos, Dispatched, OnlyPhases, EnqueueIfReady;
    AluConnect(s, op, pc, eff, pred);
    var o := Connect(AllocRuu(s, Alu, op, pc, eff.next, pred), s.w.rt, op.ins, op.outs);
    if o.Ok? {
      var s2 := o.value;
      NewestWaits(s2.w, s.w.rt);
      EnqueueNew(s2, s.w.rt, s.w.lastSeq);
      if EnqueueIfReady(s2, s.w.rt).Ok? {
        AluFinish(s, s2, EnqueueIfReady(s2, s.w.rt).value, pc);
      }
    }
  }

  /** In the window, the last numbered in its class, not completed. */
  predicate Newish(w: Window, d: int)
    requires Ring(w)
  {
    Live(w, d) && w.st[d].seqno == w.lastSeq && !w.st[d].completed
  }

  lemma OrderRings(w: Window, w': Window, h: History)
    requires Ring(w) && SameOrder(w, w') && Paired(w) && HistoryOk(w, h)
    ensures Ring(w') && Paired(w') && HistoryOk(w', h) && w'.nr == w.nr && w'.nl == w.nl && w'.lastSeq == w.lastSeq
  {
    hide Paired, HistoryOk, RingPos;
    OrderPaired(w, w');
    OrderHistory(w, w', h);
  }

  lemma AluFinish(s: State, s2: State, r: State, pc: nat)
    requires Sized(s) && s.w.rt < |s2.w.st|
    requires
      && MidOk(s2.w, s2.q, s2.v, s.f.specMode, s.w.lastSeq) && Newest(s2.w, s.w.rt) && Paired(s2.w)
      && HistoryOk(s2.w, Dispatched(s.h, s.f.specMode, s.w.lastSeq + 1, pc)) && s2.w.st[s.w.rt].kind.Alu?
      && s2 == s.(w := s2.w, q := s2.q, v := s2.v) && s2.q.now == s.q.now && s2.w.nr == s.w.nr && s2.w.nl == s.w.nl
      && s2.w.lastSeq == s.w.lastSeq + 1
    requires MidOk(r.w, r.q, r.v, s.f.specMode, s.w.lastSeq) && OnlyPhases(s2, r) && s.w.rt < |r.w.st| &&
      Moving(r.w, s.w.rt)
    ensures Entered(s, r, pc) && Newish(r.w, s.w.rt) && r.w.st[s.w.rt].kind.Alu?
  {
    hide MidOk, Paired, HistoryOk, RingPos, Dispatched, Quiet, ProgressOk, Moving, Newest, OrderedRuu, OrderedLsq,
         Numbered;
    MidRings(s2.w, s2.q, s2.v, s.f.specMode, s.w.lastSeq);
    AluProgress(s2, r, s.w.rt, s.w.lastSeq);
    PhasesOrder(s2, r);
    OrderRings(s2.w, r.w, Dispatched(s.h, s.f.specMode, s.w.lastSeq + 1, pc));
    QuietIncomplete(s2.w, r.w, s.w.rt);
  }

  lemma QuietIncomplete(w: Window, w': Window, d: int)
    requires Ring(w) && Quiet(w, w') && Newest(w, d) && d < w.nr
    ensures Newish(w', d) && w'.st[d].kind == w.st[d].kind
  {
    hide RingPos;
  }

  /** An operation waiting in the window with a given number. */
  ghost predicate Entering(w: Window, d: int, seqno: int)
    requires Ring(w)
  {
    Live(w, d) && w.st[d].seqno == seqno && Waiting(w.st[d])
  }

  lemma NamesEntering(s: State, s': State, d: int, seqno: int)
    requires Ring(s.w) && OnlyNames(s, s') && Entering(s.w, d, seqno) && Ring(s'.w)
    ensures Entering(s'.w, d, seqno) && s'.w.st[d].kind == s.w.st[d].kind
  {
    hide RingPos;
  }

  /** The RUU half of a load or store is in the window. */
  ghost predicate HalfEntered(s: State, r: State, pc: nat) {
    && Sized(r) && MidOk(r.w, r.q, r.v, s.f.specMode, s.w.lastSeq) && HalfPaired(r.w)
    && HistoryOk(r.w, Dispatched(s.h, s.f.specMode, s.w.lastSeq + 1, pc))
    && Entering(r.w, s.w.rt, s.w.lastSeq + 1) && r.w.st[s.w.rt].kind.Addr?
    && r == s.(w := r.w, q := r.q, v := r.v) && r.q.now == s.q.now && r.w.nr == s.w.nr && r.w.nl == s.w.nl
    && r.w.lastSeq == s.w.lastSeq + 1 && r.w.ln == s.w.ln && r.w.lt == s.w.lt
  }

  lemma AddrOk(s: State, op: Op, pc: nat, eff: Effect, pred: nat)
    requires MidOk(s.w, s.q, s.v, s.f.specMode, s.w.lastSeq) && Sized(s) && s.w.rn < s.w.nr && Paired(s.w) &&
      HistoryOk(s.w, s.h)
    ensures match AllocateAddr(s, op, pc, eff, pred)
      case Panic(p) => p == OutOfLinks
      case Ok(r) => HalfEntered(s, r, pc)
  {
    hide MidOk, Paired, HalfPaired, HistoryOk, Linking, Newest, Connect, RingPos;
    var s1 := AllocRuu(s, Addr, op, pc, eff.next, pred);
    var ins: Ins, outs: Outs := [NA, op.ins[1], op.ins[2]], [DTMP, NA];
    AllocIs(s, Addr, op, pc, eff.next, pred);
    AllocRuuOk(s, Addr, op, pc, eff.next, pred, s.w.lastSeq);
    AllocPaired(s, Addr, op, pc, eff.next, pred);
    AllocHistory(s, Addr, op, pc, eff.next, pred, s.h);
    hide AllocRuu, Dispatched;
    ConnectOk(s1, s.w.rt, ins, outs, s.w.lastSeq);
    var o := Connect(s1, s.w.rt, ins, outs);
    if o.Ok? {
      NamesRings(s1, o.value, Dispatched(s.h, s.f.specMode, s.w.lastSeq + 1, pc));
      NewestWaits(o.value.w, s.w.rt);
    }
  }

  /** Both halves of a load or store are in the window. */
  ghost predicate BothEntered(s: State, r: State, pc: nat) {
    && Sized(r) && MidOk(r.w, r.q, r.v, s.f.specMode, s.w.lastSeq) && Paired(r.w)
    && HistoryOk(r.w, Dispatched(s.h, s.f.specMode, s.w.lastSeq + 1, pc))
    && Entering(r.w, s.w.rt, s.w.lastSeq + 1) && r.w.st[s.w.rt].kind.Addr?
    && Entering(r.w, s.w.nr + s.w.lt, s.w.lastSeq + 2)
    && r == s.(w := r.w, q := r.q, v := r.v) && r.q.now == s.q.now && r.w.nr == s.w.nr && r.w.nl == s.w.nl
    && r.w.lastSeq == s.w.lastSeq + 2
  }

  lemma AllocLsqEntering(s: State, kind: Kind, op: Op, pc: nat, next: nat, pred: nat, addr: nat, d: int, seqno: int)
    requires Sized(s) && s.w.ln < s.w.nl && Entering(s.w, d, seqno)
    ensures var r := AllocLsq(s, kind, op, pc, next, pred, addr);
      && Entering(r.w, d, seqno) && r.w.st[d] == s.w.st[d] && r.w.st[s.w.nr + s.w.lt].kind == kind
      && r.w.lastSeq == s.w.lastSeq + 1 && r.w.nr == s.w.nr && r.w.nl == s.w.nl && r == s.(w := r.w)
  {
  }

  lemma AccessOk(s0: State, s: State, op: Op, pc: nat, eff: Effect, pred: nat)
    requires Sized(s0) && HalfEntered(s0, s, pc) && s.w.ln < s.w.nl && !op.mem.NoMem?
    ensures match AllocateAccess(s, op, pc, eff, pred)
      case Panic(p) => p == OutOfLinks
      case Ok(r) => BothEntered(s0, r, pc) && r.w.st[s.w.nr + s.w.lt].kind == MemKind(op)
  {
    hide MidOk, Paired, HalfPaired, HistoryOk, Linking, Newest, Connect, RingPos, Dispatched, AllocLsq;
    var s1 := AllocLsq(s, MemKind(op), op, pc, eff.next, pred, eff.addr);
    var d := s.w.nr + s.w.lt;
    var h := Dispatched(s0.h, s0.f.specMode, s0.w.lastSeq + 1, pc);
    var ins: Ins := [op.ins[0], DTMP, NA];
    AllocLsqEntering(s, MemKind(op), op, pc, eff.next, pred, eff.addr, s0.w.rt, s.w.lastSeq);
    AllocLsqOk(s, MemKind(op), op, pc, eff.next, pred, eff.addr, s0.w.lastSeq);
    AllocLsqPaired(s, MemKind(op), op, pc, eff.next, pred, eff.addr);
    AllocLsqHistory(s, MemKind(op), op, pc, eff.next, pred, eff.addr, h);
    ConnectOk(s1, d, ins, op.outs, s0.w.lastSeq);
    var o := Connect(s1, d, ins, op.outs);
    if o.Ok? {
      AccessFinish(s0, s, s1, o.value, pc, h);
    }
  }

  lemma AccessFinish(s0: State, s: State, s1: State, r: State, pc: nat, h: History)
    requires Sized(s0) && HalfEntered(s0, s, pc) && Sized(s1) && Entering(s1.w, s0.w.rt, s.w.lastSeq) &&
      s1.w.st[s0.w.rt] == s.w.st[s0.w.rt]
    requires s1 == s.(w := s1.w) && s1.w.nr == s.w.nr && s1.w.nl == s.w.nl && s1.w.lastSeq == s.w.lastSeq + 1
    requires h == Dispatched(s0.h, s0.f.specMode, s0.w.lastSeq + 1, pc) && Paired(s1.w) && HistoryOk(s1.w, h)
    requires Sized(r) && MidOk(r.w, r.q, r.v, s.f.specMode, s0.w.lastSeq) && Newest(r.w, s.w.nr + s.w.lt) &&
      OnlyNames(s1, r)
    ensures BothEntered(s0, r, pc) && r.w.st[s.w.nr + s.w.lt].kind == s1.w.st[s.w.nr + s.w.lt].kind
  {
    hide MidOk, Paired, HalfPaired, HistoryOk, Newest, RingPos, Dispatched;
    NamesRings(s1, r, h);
    NamesEntering(s1, r, s0.w.rt, s.w.lastSeq);
    NewestWaits(r.w, s.w.nr + s.w.lt);
  }

  // ---------------------------------------------------------------- queueing both halves

  lemma PhasesEntering(s: State, s': State, d: int, seqno: int)
    requires Ring(s.w) && OnlyPhases(s, s') && Entering(s.w, d, seqno) && s'.w.st[d] == s.w.st[d]
    ensures Ring(s'.w) && Entering(s'.w, d, seqno)
  {
    hide RingPos;
  }

  lemma StoreNew(s: State, op: Op, d: nat, k: int)
    requires MidOk(s.w, s.q, s.v, s.f.specMode, k) && Sized(s) && d < |s.w.st| && Live(s.w, d) && Waiting(s.w.st[d])
    requires s.w.st[d].kind == MemKind(op) && !op.mem.NoMem?
    ensures match EnqueueStore(s, op, d)
      case Panic(p) => p == OutOfLinks
      case Ok(r) =>
        && MidOk(r.w, r.q, r.v, s.f.specMode, k) && OnlyPhases(s, r) && Moving(r.w, d)
        && forall t :: 0 <= t < |s.w.st| && t != d ==> r.w.st[t] == s.w.st[t]
  {
    hide MidOk, EnqueueIfReady, RingPos, OnlyPhases;
    SamePhases(s);
    if op.mem.StoreOp? {
      EnqueueNew(s, d, k);
    }
  }

  /** Queueing both halves leaves both on their way. */
  lemma QueueBoth(s: State, op: Op, a: nat, b: nat, k: int)
    requires MidOk(s.w, s.q, s.v, s.f.specMode, k) && Sized(s) && a < |s.w.st| && b < |s.w.st| && a != b &&
      !op.mem.NoMem?
    requires Entering(s.w, a, k + 1) && Entering(s.w, b, k + 2) && !s.w.st[a].kind.Load? &&
      s.w.st[b].kind == MemKind(op)
    ensures match EnqueueIfReady(s, a)
      case Panic(p) => p == OutOfLinks
      case Ok(s1) => BothQueued(s, s1, op, a, b, k)
  {
    hide MidOk, EnqueueIfReady, RingPos, OnlyPhases, EnqueueStore, Moving;
    EnqueueNew(s, a, k);
    if EnqueueIfReady(s, a).Ok? {
      var s1 := EnqueueIfReady(s, a).value;
      PhasesEntering(s, s1, b, k + 2);
      PhasesOrder(s, s1);
      StoreNew(s1, op, b, k);
      if EnqueueStore(s1, op, b).Ok? {
        var s2 := EnqueueStore(s1, op, b).value;
        HandledTrans(s, s1, s2);
        PhasesOrder(s1, s2);
        MovingSame(s1.w, s2.w, a);
      }
    }
  }

  lemma MovingSame(w: Window, w': Window, a: int)
    requires 0 <= a < |w.st| == |w'.st| && Moving(w, a) && w'.st[a] == w.st[a]
    ensures Moving(w', a)
  {
  }

  ghost predicate BothQueued(s: State, s1: State, op: Op, a: nat, b: nat, k: int)
    requires Sized(s1) && b < |s1.w.st|
  {
    match EnqueueStore(s1, op, b)
    case Panic(p) => p == OutOfLinks
    case Ok(r) =>
      a < |r.w.st| && MidOk(r.w, r.q, r.v, s.f.specMode, k) && OnlyPhases(s, r) && Moving(r.w, a) && Moving(r.w, b)
  }

  lemma TwoNewest(w: Window, q: Queues, v: Vectors, m: bool, k: int, a: int, b: int, t: int)
    requires MidOk(w, q, v, m, k) && Entering(w, a, k + 1) && Entering(w, b, k + 2) && w.lastSeq == k + 2
    requires Live(w, t) && w.st[t].seqno > k
    ensures t == a || t == b
  {
    hide OrderedRuu, OrderedLsq, KindsOk, SpecOk, VectorsOk, OperandsOk, LifeOk, LoadsOk, ProgressUpTo, RingPos;
  }

  lemma MemProgress(s: State, r: State, a: nat, b: nat, k: int)
    requires MidOk(s.w, s.q, s.v, s.f.specMode, k) && Entering(s.w, a, k + 1) && Entering(s.w, b, k + 2) &&
      s.w.lastSeq == k + 2
    requires MidOk(r.w, r.q, r.v, s.f.specMode, k) && OnlyPhases(s, r)
    requires a < |r.w.st| && b < |r.w.st| && Moving(r.w, a) && Moving(r.w, b)
    ensures ProgressOk(r.w)
  {
    hide MidOk, RingPos, Moving;
    MidParts(s.w, s.q, s.v, s.f.specMode, k);
    hide Numbered, SpecOk, VectorsOk, OperandsOk;
    PhasesOrder(s, r);
    MidParts(r.w, r.q, r.v, s.f.specMode, k);
    forall t | Live(r.w, t) && r.w.st[t].seqno > k ensures t == a || t == b {
      TwoNewest(s.w, s.q, s.v, s.f.specMode, k, a, b, t);
    }
    hide OnlyPhases, Entering;
    AllMoving(r.w, r.q, r.v, s.f.specMode, k, a, b);
  }

  lemma MemFinish(s: State, s2: State, r: State, a: nat, b: nat, pc: nat)
    requires Sized(s) && BothEntered(s, s2, pc) && a == s.w.rt && b == s.w.nr + s.w.lt
    requires MidOk(r.w, r.q, r.v, s.f.specMode, s.w.lastSeq) && OnlyPhases(s2, r)
    requires a < |r.w.st| && b < |r.w.st| && Moving(r.w, a) && Moving(r.w, b)
    ensures Entered(s, r, pc)
  {
    hide MidOk, Paired, HistoryOk, RingPos, Dispatched, OnlyPhases, ProgressOk, Moving, Entering;
    MemProgress(s2, r, a, b, s.w.lastSeq);
    PhasesOrder(s2, r);
    OrderRings(s2.w, r.w, Dispatched(s.h, s.f.specMode, s.w.lastSeq + 1, pc));
  }

  lemma MemOk(s: State, op: Op, pc: nat, eff: Effect, pred: nat)
    requires MidOk(s.w, s.q, s.v, s.f.specMode, s.w.lastSeq) && Sized(s) && s.w.rn < s.w.nr && s.w.ln < s.w.nl
    requires Paired(s.w) && HistoryOk(s.w, s.h) && !op.mem.NoMem?
    ensures match AllocateMem(s, op, pc, eff, pred)
      case Panic(p) => p == OutOfLinks
      case Ok(r) => Entered(s, r, pc)
  {
    hide MidOk, Paired, HalfPaired, HistoryOk, RingPos, Dispatched, Entering, Moving, OnlyPhases, Entered;
    hide AllocateAddr, AllocateAccess, EnqueueIfReady, EnqueueStore;
    AddrOk(s, op, pc, eff, pred);
    if AllocateAddr(s, op, pc, eff, pred).Ok? {
      var s1 := AllocateAddr(s, op, pc, eff, pred).value;
      AccessOk(s, s1, op, pc, eff, pred);
      if AllocateAccess(s1, op, pc, eff, pred).Ok? {
        var s2 := AllocateAccess(s1, op, pc, eff, pred).value;
        MemQueue(s, s2, op, pc);
      }
    }
  }

  lemma MemQueue(s: State, s2: State, op: Op, pc: nat)
    requires Sized(s) && BothEntered(s, s2, pc) && !op.mem.NoMem? && s.w.rt < |s2.w.st| && s.w.nr + s.w.lt < |s2.w.st|
    requires s2.w.st[s.w.nr + s.w.lt].kind == MemKind(op)
    ensures match EnqueueIfReady(s2, s.w.rt)
      case Panic(p) => p == OutOfLinks
      case Ok(s3) => StoreQueued(s, s3, op, pc)
  {
    hide MidOk, Paired, HalfPaired, HistoryOk, RingPos, Dispatched, Entering, Moving, OnlyPhases, Entered;
    hide EnqueueIfReady, EnqueueStore;
    QueueBoth(s2, op, s.w.rt, s.w.nr + s.w.lt, s.w.lastSeq);
    if EnqueueIfReady(s2, s.w.rt).Ok? {
      var s3 := EnqueueIfReady(s2, s.w.rt).value;
      if EnqueueStore(s3, op, s.w.nr + s.w.lt).Ok? {
        MemFinish(s, s2, EnqueueStore(s3, op, s.w.nr + s.w.lt).value, s.w.rt, s.w.nr + s.w.lt, pc);
      }
    }
  }

  ghost predicate StoreQueued(s: State, s3: State, op: Op, pc: nat)
    requires Sized(s3) && s.w.nr + s.w.lt < |s3.w.st|
  {
    match EnqueueStore(s3, op, s.w.nr + s.w.lt)
    case Panic(p) => p == OutOfLinks
    case Ok(r) => Entered(s, r, pc)
  }

  // ---------------------------------------------------------------- links

  lemma AllocLinks(s: State, kind: Kind, op: Op, pc: nat, next: nat, pred: nat, id: nat)
    requires Sized(s) && s.w.rn < s.w.nr
    ensures var r := AllocRuu(s, kind, op, pc, next, pred); LinkCnt(r.w, r.q, id) == LinkCnt(s.w, s.q, id)
  {
    ChainCntSame(s.w.st, AllocRuu(s, kind, op, pc, next, pred).w.st, id);
    hide ChainCnt;
  }

  lemma AllocLsqLinks(s: State, kind: Kind, op: Op, pc: nat, next: nat, pred: nat, addr: nat, id: nat)
    requires Sized(s) && s.w.ln < s.w.nl
    ensures var r := AllocLsq(s, kind, op, pc, next, pred, addr); LinkCnt(r.w, r.q, id) == LinkCnt(s.w, s.q, id)
  {
    ChainCntSame(s.w.st, AllocLsq(s, kind, op, pc, next, pred, addr).w.st, id);
    hide ChainCnt;
  }

  lemma AluLinks(s: State, op: Op, pc: nat, eff: Effect, pred: nat, id: nat)
    requires MidOk(s.w, s.q, s.v, s.f.specMode, s.w.lastSeq) && Sized(s) && s.w.rn < s.w.nr
    requires AllocateAlu(s, op, pc, eff, pred).Ok?
    ensures var r := AllocateAlu(s, op, pc, eff, pred).value; LinkCnt(r.w, r.q, id) == LinkCnt(s.w, s.q, id)
  {
    hide MidOk, Linking, Connect, RingPos, AllocRuu, EnqueueIfReady, LinkCnt;
    var s1 := AllocRuu(s, Alu, op, pc, eff.next, pred);
    AllocLinks(s, Alu, op, pc, eff.next, pred, id);
    AllocRuuOk(s, Alu, op, pc, eff.next, pred, s.w.lastSeq);
    ConnectLinks(s1, s.w.rt, op.ins, op.outs, s.w.lastSeq, id);
    EnqueueNewLinks(Connect(s1, s.w.rt, op.ins, op.outs).value, s.w.rt, id);
  }

  lemma AddrLinks(s: State, op: Op, pc: nat, eff: Effect, pred: nat, id: nat)
    requires MidOk(s.w, s.q, s.v, s.f.specMode, s.w.lastSeq) && Sized(s) && s.w.rn < s.w.nr
    requires AllocateAddr(s, op, pc, eff, pred).Ok?
    ensures var r := AllocateAddr(s, op, pc, eff, pred).value; LinkCnt(r.w, r.q, id) == LinkCnt(s.w, s.q, id)
  {
    hide MidOk, Linking, Connect, RingPos, AllocRuu, LinkCnt;
    AllocLinks(s, Addr, op, pc, eff.next, pred, id);
    AllocRuuOk(s, Addr, op, pc, eff.next, pred, s.w.lastSeq);
    ConnectLinks(AllocRuu(s, Addr, op, pc, eff.next, pred), s.w.rt, [NA, op.ins[1], op.ins[2]], [DTMP, NA], s.w.lastSeq,
      id);
  }

  lemma AccessLinks(s: State, op: Op, pc: nat, eff: Effect, pred: nat, k: int, id: nat)
    requires MidOk(s.w, s.q, s.v, s.f.specMode, k) && k <= s.w.lastSeq && Sized(s) && s.w.ln < s.w.nl
    requires AllocateAccess(s, op, pc, eff, pred).Ok?
    ensures var r := AllocateAccess(s, op, pc, eff, pred).value; LinkCnt(r.w, r.q, id) == LinkCnt(s.w, s.q, id)
  {
    hide MidOk, Linking, Connect, RingPos, AllocLsq, LinkCnt;
    var kind := MemKind(op);
    AllocLsqLinks(s, kind, op, pc, eff.next, pred, eff.addr, id);
    AllocLsqOk(s, kind, op, pc, eff.next, pred, eff.addr, k);
    ConnectLinks(AllocLsq(s, kind, op, pc, eff.next, pred, eff.addr), s.w.nr + s.w.lt, [op.ins[0], DTMP, NA], op.outs,
      k, id);
  }

  lemma StoreLinks(s: State, op: Op, d: nat, id: nat)
    requires Sized(s) && d < |s.w.st| && EnqueueStore(s, op, d).Ok?
    ensures var r := EnqueueStore(s, op, d).value; LinkCnt(r.w, r.q, id) == LinkCnt(s.w, s.q, id)
  {
    hide EnqueueIfReady, LinkCnt;
    if op.mem.StoreOp? {
      EnqueueNewLinks(s, d, id);
    }
  }

  lemma MemLinks(s: State, op: Op, pc: nat, eff: Effect, pred: nat, id: nat)
    requires MidOk(s.w, s.q, s.v, s.f.specMode, s.w.lastSeq) && Sized(s) && s.w.rn < s.w.nr && s.w.ln < s.w.nl
    requires Paired(s.w) && HistoryOk(s.w, s.h) && AllocateMem(s, op, pc, eff, pred).Ok?
    ensures var r := AllocateMem(s, op, pc, eff, pred).value; LinkCnt(r.w, r.q, id) == LinkCnt(s.w, s.q, id)
  {
    hide MidOk, Paired, HalfPaired, HistoryOk, RingPos, Dispatched, Entering;
    hide AllocateAddr, AllocateAccess, EnqueueIfReady, EnqueueStore, LinkCnt;
    AddrOk(s, op, pc, eff, pred);
    AddrLinks(s, op, pc, eff, pred, id);
    var s1 := AllocateAddr(s, op, pc, eff, pred).value;
    AccessLinks(s1, op, pc, eff, pred, s.w.lastSeq, id);
    var s2 := AllocateAccess(s1, op, pc, eff, pred).value;
    EnqueueNewLinks(s2, s.w.rt, id);
    StoreLinks(EnqueueIfReady(s2, s.w.rt).value, op, s.w.nr + s.w.lt, id);
  }

  /** Dispatching one instruction keeps every invariant of the window and loses no link. */
  lemma AllocateOk(s: State, op: Op, pc: nat, eff: Effect, pred: nat)
    requires MidOk(s.w, s.q, s.v, s.f.specMode, s.w.lastSeq) && Sized(s) && s.w.rn < s.w.nr && s.w.ln < s.w.nl
    requires Paired(s.w) && HistoryOk(s.w, s.h)
    ensures match Allocate(s, op, pc, eff, pred)
      case Panic(p) => p == OutOfLinks
      case Ok(r) =>
        && Entered(s, r, pc) && (forall id: nat :: LinkCnt(r.w, r.q, id) == LinkCnt(s.w, s.q, id))
        && (op.mem.NoMem? ==> Ring(r.w) && Newish(r.w, s.w.rt) && r.w.st[s.w.rt].kind.Alu?)
  {
    hide MidOk, Paired, HistoryOk, RingPos, AllocateAlu, AllocateMem, LinkCnt, Newish, Entered;
    if op.mem.NoMem? {
      AluOk(s, op, pc, eff, pred);
      if AllocateAlu(s, op, pc, eff, pred).Ok? {
        forall id: nat
          ensures var r := AllocateAlu(s, op, pc, eff, pred).value; LinkCnt(r.w, r.q, id) == LinkCnt(s.w, s.q, id)
        {
          AluLinks(s, op, pc, eff, pred, id);
        }
      }
    } else {
      MemOk(s, op, pc, eff, pred);
      if AllocateMem(s, op, pc, eff, pred).Ok? {
        forall id: nat
          ensures var r := AllocateMem(s, op, pc, eff, pred).value; LinkCnt(r.w, r.q, id) == LinkCnt(s.w, s.q, id)
        {
          MemLinks(s, op, pc, eff, pred, id);
        }
      }
    }
  }
}
