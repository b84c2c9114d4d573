/**
 * ruu_dispatch as a whole: window, front end and histories move together.
 */
module OooFollow {
  import opened OooTypes
  import opened OooStages
  import opened OooInv
  import opened OooFrames
  import opened OooQueues
  import opened OooCommit
  import opened OooComplete
  import opened OooAlloc
  import opened OooNames
  import opened OooDispatch
  import opened OooFrontEnd

  // ---------------------------------------------------------------- mis-speculation starts

  lemma RecoverSame(w: Window, d: nat)
    requires d < |w.st|
    ensures SameDelivery(w, 0, 2, MarkRecover(w, d), 0, 2) && SameSched(w, MarkRecover(w, d)) &&
      SameOrder(w, MarkRecover(w, d))
  {
  }

  lemma RecoverPending(w: Window, d: nat, b: int)
    requires Ring(w) && SpecOk(w, false) && d < w.nr && Newish(w, d)
    ensures Pending(MarkRecover(w, d), b) <==> b == d
  {
    hide RingPos;
    assert !Pending(w, b);
  }

  lemma RecoverSpec(w: Window, d: nat)
    requires Ring(w) && SpecOk(w, false) && Numbered(w) && d < w.nr && Newish(w, d)
    ensures SpecOk(MarkRecover(w, d), true)
  {
    hide RingPos;
    var w' := MarkRecover(w, d);
    forall b ensures Pending(w', b) <==> b == d {
      RecoverPending(w, d, b);
    }
    assert Pending(w', d);
    hide Pending;
  }

  lemma RecoverNumbered(w: Window, d: nat)
    requires Ring(w) && Numbered(w) && KindsOk(w) && d < w.nr && w.st[d].kind.Alu?
    ensures Numbered(MarkRecover(w, d)) && KindsOk(MarkRecover(w, d))
  {
    hide RingPos;
  }

  lemma RecoverLife(w: Window, q: Queues, d: nat)
    requires Ring(w) && LifeOk(w, q, []) && d < |w.st|
    ensures LifeOk(MarkRecover(w, d), q, [])
  {
    forall t | Live(w, t) ensures PhaseOk(MarkRecover(w, d).st[t]) {
      assert SlotOk(w, q, [], t);
      hide RingPos;
    }
    LifeFrame(w, MarkRecover(w, d), q);
  }

  /** A mispredicted branch that has just been dispatched starts mis-speculation. */
  lemma RecoverRest(w: Window, q: Queues, v: Vectors, d: nat)
    requires Ring(w) && RestOk(w, q, v, false) && d < w.nr && Newish(w, d) && w.st[d].kind.Alu?
    ensures RestOk(MarkRecover(w, d), q, v, true)
  {
    var w' := MarkRecover(w, d);
    RecoverSame(w, d);
    hide MarkRecover, Numbered, KindsOk, VectorsOk, OperandsOk, SpecOk, LifeOk, ProgressOk, LoadsOk, RingPos,
         SameDelivery, SameSched, SameOrder, Newish;
    RecoverSpec(w, d);
    RecoverNumbered(w, d);
    RecoverLife(w, q, d);
    SameVectors(w, v, 0, 2, w', 0, 2);
    SameOperands(w, 0, 2, w', 0, 2);
    SameSchedFlow(w, w');
  }

  lemma RecoverRings(w: Window, d: nat, h: History)
    requires Ring(w) && RingsOk(w, h) && d < |w.st|
    ensures RingsOk(MarkRecover(w, d), h)
  {
    RecoverSame(w, d);
    hide MarkRecover, OrderedRuu, OrderedLsq, Paired, HistoryOk, RingPos, SameDelivery, SameSched;
    SameOrderedRuu(w, MarkRecover(w, d));
    SameOrderedLsq(w, MarkRecover(w, d));
    OrderPaired(w, MarkRecover(w, d));
    OrderHistory(w, MarkRecover(w, d), h);
  }

  lemma RecoverLinks(w: Window, q: Queues, d: nat, id: nat)
    requires d < |w.st|
    ensures LinkCnt(MarkRecover(w, d), q, id) == LinkCnt(w, q, id)
  {
    ChainCntSame(w.st, MarkRecover(w, d).st, id);
    hide ChainCnt;
  }

  // ---------------------------------------------------------------- between the two forms of the invariant

  lemma CoreMid(c: Config, s: State)
    requires CoreOk(c, s, s.q.now + 1)
    ensures MidOk(s.w, s.q, s.v, s.f.specMode, s.w.lastSeq) && Paired(s.w) && HistoryOk(s.w, s.h)
  {
    hide OrderedRuu, OrderedLsq, Numbered, KindsOk, Paired, SpecOk, VectorsOk, OperandsOk, HistoryOk;
    hide LifeOk, LoadsOk, EventsOk, LinksOk, FrontOk, RingPos;
  }

  lemma EnteredRest(s: State, r: State, pc: nat)
    requires Entered(s, r, pc)
    ensures Ring(r.w) && RestOk(r.w, r.q, r.v, s.f.specMode) &&
      RingsOk(r.w, Dispatched(s.h, s.f.specMode, s.w.lastSeq + 1, pc))
    ensures EventsOk(r.q, r.q.now + 1) && r == s.(w := r.w, q := r.q, v := r.v) && r.q.now == s.q.now &&
      r.w.nr == s.w.nr && r.w.nl == s.w.nl
  {
    hide OrderedRuu, OrderedLsq, Numbered, KindsOk, Paired, SpecOk, VectorsOk, OperandsOk, HistoryOk;
    hide LifeOk, LoadsOk, EventsOk, RingPos, ProgressOk, ProgressUpTo, Dispatched;
  }

  /** Histories only grow, and dispatch retires nothing. */
  predicate Grows(h: History, h': History) {
    h.path <= h'.path && h.dispatched <= h'.dispatched && h'.retired == h.retired
  }

  // ---------------------------------------------------------------- what admission leaves

  /** The window and queues after the instruction has been admitted. */
  ghost predicate Admitted(c: Config, s: State, s1: State, op: Op) {
    var h := if op.nop then s.h else Dispatched(s.h, s.f.specMode, s.w.lastSeq + 1, NextPC(s.f));
    && Ring(s1.w) && RestOk(s1.w, s1.q, s1.v, s.f.specMode) && RingsOk(s1.w, h)
    && EventsOk(s1.q, s1.q.now + 1) && LinksOk(c, s1.w, s1.q)
    && s1 == s.(w := s1.w, q := s1.q, v := s1.v) && s1.q.now == s.q.now && s1.w.nr == s.w.nr && s1.w.nl == s.w.nl
    && (!op.nop && op.mem.NoMem? ==> Newish(s1.w, s.w.rt) && s1.w.st[s.w.rt].kind.Alu?)
  }

  lemma AdmitOk(c: Config, s: State, op: Op, eff: Effect)
    requires CoreOk(c, s, s.q.now + 1) && Sized(s) && s.f.fq != [] && s.w.rn < s.w.nr && s.w.ln < s.w.nl
    ensures match Admit(c, s, op, eff)
      case Panic(p) => p == OutOfLinks
      case Ok(s1) => Admitted(c, s, s1, op)
  {
    hide CoreOk, RestOk, RingsOk, EventsOk, LinkCnt, FrontOk, Allocate, Dispatched, Newish, RingPos, MidOk, Paired,
         HistoryOk, Entered;
    SplitCore(c, s, s.q.now + 1);
    if !op.nop {
      CoreMid(c, s);
      var fe := s.f.fq[0];
      var pred := Carried(c, op, fe, eff);
      AllocateOk(s, op, fe.pc, eff, pred);
      if Allocate(s, op, fe.pc, eff, pred).Ok? {
        EnteredRest(s, Allocate(s, op, fe.pc, eff, pred).value, fe.pc);
      }
    }
  }

  // ---------------------------------------------------------------- the step

  lemma TraceRings(w: Window, h: History, h': History)
    requires Ring(w) && RingsOk(w, h) && h'.dispatched == h.dispatched && h'.retired == h.retired
    ensures RingsOk(w, h')
  {
    hide OrderedRuu, OrderedLsq, Paired, RightPath;
  }

  /** Dispatch on the wrong path. */
  lemma FollowWrong(c: Config, s: State, s1: State, op: Op, eff: Effect)
    requires Sized(s) && Sized(s1) && |s1.w.st| == |s.w.st| && s.f.fq != [] && Admitted(c, s, s1, op) && s.f.specMode
    requires FrontOk(c, s.f, s.h) && s.w.nr == c.nr && s.w.nl == c.nl
    ensures CoreOk(c, s1.(f := Decode(c, s.f, op, eff)), s1.q.now + 1)
  {
    hide CoreOk, RestOk, RingsOk, EventsOk, LinksOk, FrontOk, Newish, RingPos, Decode;
    WrongPathStep(c, s.f, s.h, op, eff);
    SplitCore(c, s1.(f := Decode(c, s.f, op, eff)), s1.q.now + 1);
  }

  /** Dispatch on the right path, of an instruction fetch has followed correctly. */
  lemma FollowRight(c: Config, s: State, s1: State, f1: Front, h1: History, op: Op)
    requires Sized(s1) && Admitted(c, s, s1, op) && !s.f.specMode && !f1.specMode
    requires FrontOk(c, f1, h1) && s.w.nr == c.nr && s.w.nl == c.nl &&
      h1 == Traced(s.h, op, NextPC(s.f), s.w.lastSeq + 1)
    ensures CoreOk(c, s1.(f := f1, h := h1), s1.q.now + 1)
  {
    hide CoreOk, RestOk, RingsOk, EventsOk, LinksOk, FrontOk, Newish, RingPos, NextPC;
    TraceRings(s1.w, if op.nop then s.h else Dispatched(s.h, false, s.w.lastSeq + 1, NextPC(s.f)), h1);
    SplitCore(c, s1.(f := f1, h := h1), s1.q.now + 1);
  }

  /** Dispatch on the right path, of a mispredicted branch. */
  lemma FollowMiss(c: Config, s: State, s1: State, f1: Front, h1: History, op: Op)
    requires Sized(s) && Sized(s1) && |s1.w.st| == |s.w.st| && Admitted(c, s, s1, op) && !s.f.specMode && f1.specMode
    requires !op.nop && op.mem.NoMem?
    requires FrontOk(c, f1, h1) && s.w.nr == c.nr && s.w.nl == c.nl &&
      h1 == Traced(s.h, op, NextPC(s.f), s.w.lastSeq + 1)
    ensures CoreOk(c, s1.(w := MarkRecover(s1.w, s.w.rt), f := f1, h := h1), s1.q.now + 1)
  {
    hide CoreOk, RestOk, RingsOk, EventsOk, LinkCnt, FrontOk, Newish, RingPos, NextPC, MarkRecover;
    var w' := MarkRecover(s1.w, s.w.rt);
    TraceRings(s1.w, Dispatched(s.h, false, s.w.lastSeq + 1, NextPC(s.f)), h1);
    RecoverRest(s1.w, s1.q, s1.v, s.w.rt);
    RecoverRings(s1.w, s.w.rt, h1);
    forall id: nat ensures LinkCnt(w', s1.q, id) == LinkCnt(s1.w, s1.q, id) {
      RecoverLinks(s1.w, s1.q, s.w.rt, id);
    }
    SplitCore(c, s1.(w := w', f := f1, h := h1), s1.q.now + 1);
  }

  lemma FollowOk(c: Config, s: State, s1: State)
    requires c.Valid() && Sized(s) && Sized(s1) && |s1.w.st| == |s.w.st| && s.f.fq != []
    requires Admitted(c, s, s1, c.decode(s.f.fq[0].ir)) && FrontOk(c, s.f, s.h) && s.w.nr == c.nr && s.w.nl == c.nl
    ensures var fe := s.f.fq[0]; var eff := c.exec(fe.ir, fe.pc, Shown(s.f));
      var r := Follow(c, s, s1, c.decode(fe.ir), eff);
      r.Next? && CoreOk(c, r.s, r.s.q.now + 1) && r.s.q.now == s.q.now && Grows(s.h, r.s.h)
  {
    hide CoreOk, Admitted, FrontOk, RingPos, MarkRecover, Decode, Shown, Redirects;
    var fe := s.f.fq[0];
    var op := c.decode(fe.ir);
    var eff := c.exec(fe.ir, fe.pc, Shown(s.f));
    AdmittedNow(c, s, s1, op);
    if s.f.specMode {
      FollowWrong(c, s, s1, op, eff);
    } else {
      FollowOn(c, s, s1, op, eff);
    }
  }

  lemma AdmittedNow(c: Config, s: State, s1: State, op: Op)
    requires Admitted(c, s, s1, op)
    ensures s1.q.now == s.q.now && s1.h == s.h && s1.f == s.f
  {
    hide RestOk, RingsOk, EventsOk, LinksOk, Newish, RingPos;
  }

  lemma DecodeMode(c: Config, f: Front, op: Op, eff: Effect)
    requires f.fq != []
    ensures Decode(c, f, op, eff).specMode == f.specMode
  {
  }

  lemma FrontFetch(c: Config, f: Front, h: History)
    requires FrontOk(c, f, h)
    ensures FetchOk(c, f)
  {
  }

  /** What a right-path dispatch leaves, by whether fetch was right or is redirected. */
  lemma FollowIs(c: Config, s: State, s1: State, op: Op, eff: Effect)
    requires Sized(s) && Sized(s1) && |s1.w.st| == |s.w.st| && s.f.fq != [] && !s.f.specMode
    ensures var fe := s.f.fq[0]; var f1 := Decode(c, s.f, op, eff); var h1 := Traced(s.h, op, fe.pc, s.w.lastSeq + 1);
      var r := Follow(c, s, s1, op, eff);
      && (Redirects(c, op, fe, eff) || fe.pred == eff.next ==> r == Next(s1.(f := f1, h := h1)))
      && (!(Redirects(c, op, fe, eff) || fe.pred == eff.next) && !op.nop ==>
            r == Next(s1.(w := MarkRecover(s1.w, s.w.rt), f := f1.(specMode := true, recoverPC := eff.next), h := h1)))
      && Grows(s.h, h1)
  {
    hide Decode, MarkRecover, Redirects, RingPos;
  }

  lemma FollowOn(c: Config, s: State, s1: State, op: Op, eff: Effect)
    requires c.Valid() && Sized(s) && Sized(s1) && |s1.w.st| == |s.w.st| && s.f.fq != [] && !s.f.specMode
    requires Admitted(c, s, s1, op) && FrontOk(c, s.f, s.h) && s.w.nr == c.nr && s.w.nl == c.nl
    requires op == c.decode(s.f.fq[0].ir) && eff == c.exec(s.f.fq[0].ir, s.f.fq[0].pc, Shown(s.f))
    ensures var r := Follow(c, s, s1, op, eff);
      r.Next? && CoreOk(c, r.s, s1.q.now + 1) && r.s.q == s1.q && Grows(s.h, r.s.h)
  {
    var fe := s.f.fq[0];
    var f1 := Decode(c, s.f, op, eff);
    var h1 := Traced(s.h, op, fe.pc, s.w.lastSeq + 1);
    assert h1.path == s.h.path + [fe.pc];
    hide CoreOk, Admitted, FrontOk, FetchOk, RingPos, MarkRecover, Decode, Shown, Redirects, Follow, Traced, Grows,
         Ring;
    FollowIs(c, s, s1, op, eff);
    RightPathStep(c, s.f, s.h, s.w.lastSeq + 1);
    FrontFetch(c, s.f, s.h);
    DecodeFetch(c, s.f, op, eff);
    DecodeMode(c, s.f, op, eff);
    if Redirects(c, op, fe, eff) || fe.pred == eff.next {
      FollowRight(c, s, s1, f1, h1, op);
    } else {
      PredictedWrong(c, s.f);
      FollowMiss(c, s, s1, f1.(specMode := true, recoverPC := eff.next), h1, op);
    }
  }

  lemma Busy(c: Config, s: State, from: nat)
    requires CoreOk(c, s, from) && s.f.specMode
    ensures s.w.rn > 0
  {
    assert SpecOk(s.w, true);
    var b :| Pending(s.w, b);
    hide CoreOk, SpecOk;
  }

  /** One instruction is dispatched, or dispatch stops; only an empty link pool halts the simulator. */
  lemma DispatchOneOk(c: Config, s: State)
    requires c.Valid() && CoreOk(c, s, s.q.now + 1) && Sized(s)
    ensures match DispatchOne(c, s)
      case Stop => true
      case Halt(p) => p == OutOfLinks
      case Next(r) => CoreOk(c, r, r.q.now + 1) && r.q.now == s.q.now && Grows(s.h, r.h)
  {
    hide CoreOk, Admit, Follow, Admitted, FrontOk, LinksOk, BodyOk, FlowOk, RingPos, Shown;
    CoreParts(c, s, s.q.now + 1);
    if s.f.specMode {
      Busy(c, s, s.q.now + 1);
    }
    if s.w.rn < s.w.nr && s.w.ln < s.w.nl && s.f.fq != [] {
      var fe := s.f.fq[0];
      var op := c.decode(fe.ir);
      var eff := c.exec(fe.ir, fe.pc, Shown(s.f));
      AdmitOk(c, s, op, eff);
      if Admit(c, s, op, eff).Ok? {
        FollowOk(c, s, Admit(c, s, op, eff).value);
      }
    }
  }

  lemma {:induction false} DispatchOk(c: Config, s: State, width: nat)
    requires c.Valid() && CoreOk(c, s, s.q.now + 1) && Sized(s)
    ensures match Dispatch(c, s, width)
      case Panic(p) => p == OutOfLinks
      case Ok(r) => CoreOk(c, r, r.q.now + 1) && r.q.now == s.q.now && Grows(s.h, r.h)
    decreases width
  {
    hide CoreOk, DispatchOne, RingPos;
    if width == 0 {
    } else {
      DispatchOneOk(c, s);
      if DispatchOne(c, s).Next? {
        DispatchOk(c, DispatchOne(c, s).s, width - 1);
      }
    }
  }
}
