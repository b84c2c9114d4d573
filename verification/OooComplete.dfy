/**
 * Popping due events and completing their operations; ruu_writeback as a whole.
 */
module OooComplete {
  import opened OooTypes
  import opened OooStages
  import opened OooInv
  import opened OooFrames
  import opened OooQueues
  import opened OooIssue
  import opened OooCommit
  import opened OooRecover
  import opened OooWriteback

  // ---------------------------------------------------------------- events

  lemma EventTail(q: Queues, from: nat)
    requires q.events != [] && EventsOk(q, from)
    ensures EventsOk(FreeLink(q.(events := q.events[1..]), q.events[0]), from)
  {
  }

  /** An event of a squashed operation can be dropped. */
  lemma DropEvent(w: Window, q: Queues)
    requires Ring(w) && LifeOk(w, q, []) && q.events != [] && !Valid(w.st, q.events[0])
    ensures LifeOk(w, FreeLink(q.(events := q.events[1..]), q.events[0]), [])
  {
    var l, q1 := q.events[0], FreeLink(q.(events := q.events[1..]), q.events[0]);
    forall t | 0 <= t < |w.st| ensures SlotOk(w, q1, [], t) {
      assert SlotOk(w, q, [], t);
      hide RingPos;
    }
    hide SlotOk, RingPos;
  }

  /** A valid event belongs to a live operation that is executing. */
  lemma EventRuns(w: Window, q: Queues)
    requires Ring(w) && LifeOk(w, q, []) && q.events != [] && Valid(w.st, q.events[0])
    ensures var rs := w.st[q.events[0].slot]; Live(w, q.events[0].slot) && rs.issued && !rs.completed && PhaseOk(rs)
  {
    assert SlotOk(w, q, [], q.events[0].slot);
    hide RingPos;
  }

  function Mark(w: Window, x: nat): Window
    requires x < |w.st|
  {
    Put(w, x, w.st[x].(completed := true))
  }

  lemma TakeEvent(w: Window, q: Queues)
    requires Ring(w) && LifeOk(w, q, []) && q.events != [] && Valid(w.st, q.events[0])
    ensures LifeOk(Mark(w, q.events[0].slot), FreeLink(q.(events := q.events[1..]), q.events[0]), [])
  {
    EventRuns(w, q);
    var l, q1 := q.events[0], FreeLink(q.(events := q.events[1..]), q.events[0]);
    var w1 := Mark(w, l.slot);
    TagsKept(q.readyq, w.st, w1.st);
    assert TagsOk(q1.events, w.st);
    TagsKept(q1.events, w.st, w1.st);
    forall t | 0 <= t < |w.st| ensures SlotOk(w1, q1, [], t) {
      assert SlotOk(w, q, [], t);
      hide RingPos;
    }
    hide SlotOk, TagsOk, RingPos;
  }

  /**
   * What popping finds: nothing more is due this cycle, or a valid event, which then fires
   * exactly in the cycle it was scheduled for, of an operation that is executing.
   */
  lemma {:induction false} PopOk(w: Window, q: Queues)
    requires Ring(w) && LifeOk(w, q, []) && EventsOk(q, q.now)
    ensures match PopEvent(q, w.st)
      case NoEvent(q1) => LifeOk(w, q1, []) && EventsOk(q1, q.now + 1) && q1.now == q.now
      case Event(q1, l) =>
        && l.x == q.now && l.slot < |w.st| && q1.now == q.now && EventsOk(q1, q.now)
        && Live(w, l.slot) && w.st[l.slot].issued && !w.st[l.slot].completed && PhaseOk(w.st[l.slot])
        && LifeOk(Mark(w, l.slot), q1, [])
    decreases |q.events|
  {
    if q.events != [] && q.events[0].x <= q.now {
      EventTail(q, q.now);
      if Valid(w.st, q.events[0]) {
        EventRuns(w, q);
        TakeEvent(w, q);
      } else {
        DropEvent(w, q);
        PopOk(w, FreeLink(q.(events := q.events[1..]), q.events[0]));
      }
      hide LifeOk, RingPos;
    } else {
      hide LifeOk, RingPos;
    }
  }

  lemma {:induction false} PopLinks(w: Window, q: Queues, id: nat)
    ensures LinkCnt(w, PopEvent(q, w.st).q, id) == LinkCnt(w, q, id)
    decreases |q.events|
  {
    if q.events != [] && q.events[0].x <= q.now {
      var q1 := FreeLink(q.(events := q.events[1..]), q.events[0]);
      FreeCons(q.events[0], q.(events := q.events[1..]), id);
      assert LinkCnt(w, q1, id) == LinkCnt(w, q, id);
      if !Valid(w.st, q.events[0]) {
        PopLinks(w, q1, id);
      }
    }
  }

  // ---------------------------------------------------------------- exempting the broadcaster

  /** Same operations and same dependence state, with the same results counted as delivered. */
  ghost predicate SameDelivery(w: Window, x: int, e: int, w': Window, x': int, e': int) {
    && Alike(w, w')
    && (forall s :: 0 <= s < |w.st| ==> w'.st[s].odeps == w.st[s].odeps && w'.st[s].ready == w.st[s].ready)
    && (forall p, i :: 0 <= p < |w.st| && 0 <= i < 2 ==> (Done(w', x', e', p, i) <==> Done(w, x, e, p, i)))
  }

  lemma SameOperand(w: Window, x: int, e: int, w': Window, x': int, e': int, s: int, j: int)
    requires Ring(w) && SameDelivery(w, x, e, w', x', e') && Live(w, s) && 0 <= j < 3
    ensures Delivered(w, x, e, s, j) ==> Delivered(w', x', e', s, j)
    ensures HasSource(w, s, j) ==> HasSource(w', s, j)
  {
    var n := w.st[s].inames[j];
    forall p, i ensures Youngest(w', n, w.st[s].seqno, p, i) <==> Youngest(w, n, w.st[s].seqno, p, i) {
      ShapeYoungest(w, w', n, w.st[s].seqno, p, i);
    }
    forall p, i | Youngest(w, n, w.st[s].seqno, p, i) ensures Done(w', x', e', p, i) <==> Done(w, x, e, p, i) {
    }
    hide Youngest, RingPos;
  }

  lemma SameChain(w: Window, x: int, e: int, w': Window, x': int, e': int, p: int, i: int)
    requires Ring(w) && SameDelivery(w, x, e, w', x', e') && 0 <= p < |w.st| && 0 <= i < 2 && ChainOk(w, x, e, p, i)
    ensures ChainOk(w', x', e', p, i)
  {
    forall s, j | 0 <= s < |w.st| && 0 <= j < 3 ensures Waits(w', s, j, p, i) <==> Waits(w, s, j, p, i) {
      ShapeYoungest(w, w', w.st[s].inames[j], w.st[s].seqno, p, i);
      hide Youngest;
    }
    hide Waits;
  }

  lemma SameOperands(w: Window, x: int, e: int, w': Window, x': int, e': int)
    requires Ring(w) && SameDelivery(w, x, e, w', x', e') && OperandsOk(w, x, e)
    ensures OperandsOk(w', x', e')
  {
    forall s, j | Live(w, s) && 0 <= j < 3
      ensures Delivered(w, x, e, s, j) ==> Delivered(w', x', e', s, j)
      ensures HasSource(w, s, j) ==> HasSource(w', s, j)
    {
      SameOperand(w, x, e, w', x', e', s, j);
    }
    forall p, i | 0 <= p < |w.st| && 0 <= i < 2 ensures ChainOk(w', x', e', p, i) {
      SameChain(w, x, e, w', x', e', p, i);
    }
    hide Delivered, HasSource, ChainOk, RingPos;
  }

  lemma SameNames(w: Window, x: int, e: int, w': Window, x': int, e': int, n: Reg, spec: bool, c: Creator)
    requires Ring(w) && SameDelivery(w, x, e, w', x', e') && Names(w, x, e, n, spec, c)
    ensures Names(w', x', e', n, spec, c)
  {
    forall p, i ensures YoungestIn(w', n, spec, p, i) <==> YoungestIn(w, n, spec, p, i) {
      ShapeYoungestIn(w, w', n, spec, p, i);
    }
    forall p, i | YoungestIn(w, n, spec, p, i) ensures Done(w', x', e', p, i) <==> Done(w, x, e, p, i) {
    }
    hide YoungestIn, RingPos;
  }

  lemma SameVectors(w: Window, v: Vectors, x: int, e: int, w': Window, x': int, e': int)
    requires Ring(w) && SameDelivery(w, x, e, w', x', e') && VectorsOk(w, v, x, e)
    ensures VectorsOk(w', v, x', e')
  {
    forall n: Reg | n != NA
      ensures Names(w', x', e', n, false, v.cv[n])
      ensures n in v.useSpec ==> Names(w', x', e', n, true, v.scv[n]) && SpecWriter(w', n)
      ensures n !in v.useSpec ==> !SpecWriter(w', n)
    {
      SameNames(w, x, e, w', x', e', n, false, v.cv[n]);
      ShapeSpecWriter(w, w', n);
      if n in v.useSpec {
        SameNames(w, x, e, w', x', e', n, true, v.scv[n]);
      }
      hide Names, SpecWriter;
    }
  }

  lemma MarkSame(w: Window, x: int)
    requires 0 <= x < |w.st| && !w.st[x].completed
    ensures SameDelivery(w, 0, 2, Mark(w, x), x, 0)
  {
  }

  lemma AllDelivered(w: Window, x: int)
    ensures SameDelivery(w, x, 2, w, 0, 2)
  {
  }

  // ---------------------------------------------------------------- marking an operation completed

  lemma MarkSpec(w: Window, x: int, m: bool)
    requires Ring(w) && SpecOk(w, m) && 0 <= x < |w.st| && !w.st[x].recover
    ensures SpecOk(Mark(w, x), m)
  {
    hide RingPos;
    forall b ensures Pending(Mark(w, x), b) <==> Pending(w, b) {
    }
  }

  /** Completing the mispredicted operation dooms everything younger, which is all that is speculative. */
  lemma MarkDoomed(w: Window, x: int, m: bool)
    requires Ring(w) && SpecOk(w, m) && Numbered(w) && KindsOk(w) && Live(w, x) && w.st[x].recover && !w.st[x].completed
    ensures m && Doomed(Mark(w, x), x)
  {
    assert Pending(w, x);
    forall b | LiveR(w, b) && w.st[b].recover && b != x ensures w.st[b].completed {
      assert Pending(w, b) <==> !w.st[b].completed;
    }
    hide RingPos;
  }

  /** The operation in `x` is about to be marked completed, its event having been popped. */
  ghost predicate Completing(s: State, x: int) {
    && BodyOk(s, 0, 2) && ProgressOk(s.w) && LoadsOk(s.w) && EventsOk(s.q, s.q.now)
    && Live(s.w, x) && s.w.st[x].issued && !s.w.st[x].completed && PhaseOk(s.w.st[x])
    && LifeOk(Mark(s.w, x), s.q, [])
  }

  function Marked(s: State, x: nat): State
    requires x < |s.w.st|
  {
    s.(w := Mark(s.w, x))
  }

  lemma MarkShape(w: Window, x: int)
    requires Ring(w) && 0 <= x < |w.st|
    ensures SameOrder(w, Mark(w, x)) && SameSched(w, Mark(w, x))
  {
  }

  /** Everything but speculation survives marking. */
  lemma MarkRest(s: State, x: int)
    requires Completing(s, x)
    ensures var w1 := Mark(s.w, x);
      && Ordered(w1) && Paired(w1) && HistoryOk(w1, s.h) && VectorsOk(w1, s.v, x, 0) && OperandsOk(w1, x, 0)
      && FlowOk(w1, s.q, [], s.q.now)
  {
    var w1 := Mark(s.w, x);
    MarkShape(s.w, x);
    MarkSame(s.w, x);
    hide Ordered, Paired, SpecOk, VectorsOk, OperandsOk, HistoryOk, LifeOk, ProgressOk, LoadsOk, RingPos, Mark,
         SameDelivery, SameOrder;
    SameOrdered(s.w, w1);
    OrderPaired(s.w, w1);
    OrderHistory(s.w, w1, s.h);
    SameVectors(s.w, s.v, 0, 2, w1, x, 0);
    SameOperands(s.w, 0, 2, w1, x, 0);
    SameSchedFlow(s.w, w1);
  }

  lemma MarkPlain(s: State, x: int)
    requires Completing(s, x) && !s.w.st[x].recover
    ensures Broadcasting(Marked(s, x), x, 0)
  {
    MarkRest(s, x);
    MarkSpec(s.w, x, s.f.specMode);
    assert Live(Mark(s.w, x), x);
    hide Ordered, Paired, SpecOk, VectorsOk, OperandsOk, HistoryOk, FlowOk, RingPos;
  }

  lemma CompletingParts(s: State, x: int)
    requires Completing(s, x)
    ensures Ring(s.w) && Numbered(s.w) && KindsOk(s.w) && SpecOk(s.w, s.f.specMode) && Live(s.w, x)
    ensures 0 <= x < |s.w.st| && Sized(s) && !s.w.st[x].completed
  {
  }

  lemma MarkSquashing(s: State, x: int)
    requires Completing(s, x) && s.w.st[x].recover
    ensures s.f.specMode && Squashing(Marked(s, x), x)
  {
    CompletingParts(s, x);
    MarkRest(s, x);
    MarkDoomed(s.w, x, s.f.specMode);
    hide Completing, OrderedRuu, OrderedLsq, Numbered, KindsOk, Paired, SpecOk, OperandsOk, HistoryOk, LifeOk,
         ProgressOk, LoadsOk, RingPos, Doomed, Names, SpecWriter;
  }

  // ---------------------------------------------------------------- recovery

  lemma RecoverBody(s: State, b: nat)
    requires Squashing(s, b) && RuuTail(s.w) == b && |s.v.scv| == TOTAL_REGS && EventsOk(s.q, s.q.now)
    ensures Broadcasting(s.(v := s.v.(useSpec := {}), f := s.f.(specMode := false)), b, 0)
  {
    var w := s.w;
    assert OrderedRuu(w) && KindsOk(w) && Paired(w) && Doomed(w, b) && PreciseOk(w, s.v.cv, b, 0);
    hide SquashOk, RingsOk, OrderedRuu, OrderedLsq, Numbered, KindsOk, Paired, PreciseOk;
    forall t | Live(w, t) ensures !w.st[t].spec {
      NothingSpeculative(w, b, t);
      hide Doomed, RingPos, RuuTail;
    }
    RecoveredSpec(w, b);
    RecoveredVectors(w, s.v, b, 0);
    RecoverFolds(s, b);
    hide SpecOk, VectorsOk, RingPos, RuuTail;
  }

  lemma RecoverFolds(s: State, b: nat)
    requires Squashing(s, b) && EventsOk(s.q, s.q.now)
    ensures Ordered(s.w) && Paired(s.w) && OperandsOk(s.w, b, 0) && HistoryOk(s.w, s.h) && FlowOk(s.w, s.q, [], s.q.now)
    ensures Live(s.w, b) && 0 <= b < |s.w.st| && s.w.st[b].completed
  {
    hide OrderedRuu, OrderedLsq, Numbered, KindsOk, Paired, PreciseOk, OperandsOk, HistoryOk, LifeOk, ProgressOk,
         LoadsOk;
  }

  lemma FrontRecovers(c: Config, f: Front, h: History)
    requires FrontOk(c, f, h) && f.specMode
    ensures TracerRecover(f).Ok? && FrontOk(c, TracerRecover(f).value.(delay := c.branchPenalty), h)
    ensures !TracerRecover(f).value.specMode
  {
  }

  /** What completing `x` leaves alone, misprediction or not. */
  ghost predicate Kept(s: State, s': State) {
    && s'.h == s.h && s'.q.events == s.q.events && s'.q.now == s.q.now
    && s'.w.nr == s.w.nr && s'.w.nl == s.w.nl && |s'.w.st| == |s.w.st|
  }

  lemma BroadcastingFront(s: State, s': State, x: int, e: int)
    requires Broadcasting(s, x, e) && s' == s.(f := s'.f) && s'.f.specMode == s.f.specMode
    ensures Broadcasting(s', x, e)
  {
    hide Ordered, Paired, SpecOk, VectorsOk, OperandsOk, HistoryOk, FlowOk, RingPos;
  }

  lemma WindowSize(s: State, b: nat)
    requires Ring(s.w) && RecoverWindow(s, b).Ok?
    ensures RecoverWindow(s, b).value.w.nr == s.w.nr && RecoverWindow(s, b).value.w.nl == s.w.nl
    decreases s.w.rn
  {
    if RuuTail(s.w) != b {
      assert SquashOne(s).value.w.nr == s.w.nr && SquashOne(s).value.w.nl == s.w.nl;
      WindowSize(SquashOne(s).value, b);
    }
    hide SquashOne;
  }

  /** Recovery never stops on an inconsistency and leaves only the right path. */
  lemma RecoverOk(c: Config, s: State, x: nat)
    requires Completing(s, x) && s.w.st[x].recover && FrontOk(c, s.f, s.h) && Sized(Marked(s, x))
    ensures Recover(c, Marked(s, x), x).Ok?
    ensures var r := Recover(c, Marked(s, x), x).value;
      Broadcasting(r, x, 0) && FrontOk(c, r.f, r.h) && Kept(s, r)
  {
    hide Completing, Broadcasting, FrontOk, Squashing, RecoverWindow, Ring, EventsOk;
    MarkSquashing(s, x);
    CompletingEvents(s, x);
    var s1 := Marked(s, x);
    RecoverWindowOk(s1, x);
    WindowSize(s1, x);
    var s2 := RecoverWindow(s1, x).value;
    FrontRecovers(c, s.f, s.h);
    EventsOnly(s.q, s2.q, s.q.now);
    RecoverBody(s2, x);
    var r := Recover(c, s1, x).value;
    BroadcastingFront(s2.(v := s2.v.(useSpec := {}), f := s2.f.(specMode := false)), r, x, 0);
  }

  lemma CompletingEvents(s: State, x: nat)
    requires Completing(s, x)
    ensures EventsOk(s.q, s.q.now) && Ring(s.w) && x < |s.w.st| && Ring(Mark(s.w, x))
  {
  }

  lemma EventsOnly(q: Queues, q': Queues, from: nat)
    requires EventsOk(q, from) && q'.events == q.events
    ensures EventsOk(q', from)
  {
  }

  lemma MarkLinks(s: State, x: nat, id: nat)
    requires x < |s.w.st|
    ensures LinkCnt(Mark(s.w, x), s.q, id) == LinkCnt(s.w, s.q, id)
  {
    ChainCntSame(s.w.st, Mark(s.w, x).st, id);
  }

  // ---------------------------------------------------------------- completing an operation

  lemma FinishBroadcasts(s: State, x: int)
    requires Broadcasting(s, x, 2)
    ensures BodyOk(s, 0, 2) && FlowOk(s.w, s.q, [], s.q.now)
  {
    AllDelivered(s.w, x);
    hide Ordered, Paired, SpecOk, VectorsOk, OperandsOk, HistoryOk, FlowOk, RingPos, SameDelivery;
    SameVectors(s.w, s.v, x, 2, s.w, 0, 2);
    SameOperands(s.w, x, 2, s.w, 0, 2);
  }

  lemma WakesTrans(s: State, s1: State, s2: State)
    requires OnlyWakes(s, s1) && OnlyWakes(s1, s2)
    ensures OnlyWakes(s, s2)
  {
  }

  lemma DeliverOk(s: State, x: nat)
    requires Broadcasting(s, x, 0) && Sized(s) && x < |s.w.st|
    ensures match Deliver(s, x)
      case Panic(p) => p == OutOfLinks
      case Ok(r) => BodyOk(r, 0, 2) && FlowOk(r.w, r.q, [], r.q.now) && OnlyWakes(s, r)
  {
    hide Broadcasting, BodyOk, FlowOk, RingPos, Broadcast, OnlyWakes, Ring;
    BroadcastOk(s, x, 0);
    if Broadcast(s, x, 0).Ok? {
      var s1 := Broadcast(s, x, 0).value;
      BroadcastOk(s1, x, 1);
      if Broadcast(s1, x, 1).Ok? {
        FinishBroadcasts(Broadcast(s1, x, 1).value, x);
        WakesTrans(s, s1, Broadcast(s1, x, 1).value);
      }
    }
  }

  /** The consistency checks of ruu_writeback pass. */
  lemma ChecksPass(s: State, x: nat)
    requires Completing(s, x) && x < |s.w.st|
    ensures var rs := s.w.st[x];
      OpsReady(rs) && !rs.queued && rs.issued && !rs.completed && !(rs.recover && InLsq(rs))
  {
    hide RingPos, OrderedRuu, OrderedLsq, Numbered, Paired, SpecOk, VectorsOk, OperandsOk, HistoryOk, LifeOk,
         ProgressOk, LoadsOk;
  }

  lemma KeptByWakes(s: State, s1: State, r: State)
    requires Kept(s, s1) && OnlyWakes(s1, r) && SameRings(s1.w, r.w)
    ensures Kept(s, r) && r.f == s1.f
  {
  }

  lemma CompleteOk(c: Config, s: State, x: nat)
    requires Completing(s, x) && FrontOk(c, s.f, s.h) && Sized(s) && x < |s.w.st|
    ensures match Complete(c, s, x)
      case Panic(p) => p == OutOfLinks
      case Ok(r) => BodyOk(r, 0, 2) && FlowOk(r.w, r.q, [], r.q.now) && FrontOk(c, r.f, r.h) && Kept(s, r)
  {
    hide Completing, Broadcasting, BodyOk, FlowOk, FrontOk, RingPos, Recover, Deliver, OnlyWakes, Wrap;
    ChecksPass(s, x);
    var s1 := Marked(s, x);
    if s.w.st[x].recover {
      RecoverOk(c, s, x);
      var s2 := Recover(c, s1, x).value;
      DeliverOk(s2, x);
      if Deliver(s2, x).Ok? {
        KeptByWakes(s, s2, Deliver(s2, x).value);
      }
    } else {
      MarkPlain(s, x);
      DeliverOk(s1, x);
      if Deliver(s1, x).Ok? {
        KeptByWakes(s, s1, Deliver(s1, x).value);
      }
    }
  }

  lemma DeliverLinks(s: State, x: nat, id: nat)
    requires Sized(s) && x < |s.w.st| && Deliver(s, x).Ok?
    ensures var r := Deliver(s, x).value; LinkCnt(r.w, r.q, id) == LinkCnt(s.w, s.q, id)
  {
    hide Broadcast, LinkCnt, Ring;
    BroadcastLinks(s, x, 0, id);
    BroadcastLinks(Broadcast(s, x, 0).value, x, 1, id);
  }

  lemma CompleteLinks(c: Config, s: State, x: nat, id: nat)
    requires Sized(s) && x < |s.w.st| && Complete(c, s, x).Ok?
    ensures var r := Complete(c, s, x).value; LinkCnt(r.w, r.q, id) == LinkCnt(s.w, s.q, id)
  {
    hide Deliver, LinkCnt, Wrap, RecoverWindow;
    var s1 := Marked(s, x);
    MarkLinks(s, x, id);
    if s.w.st[x].recover {
      RecoverLinks(s1, x, id);
      DeliverLinks(Recover(c, s1, x).value, x, id);
    } else {
      DeliverLinks(s1, x, id);
    }
  }

  // ---------------------------------------------------------------- the stage

  lemma PoppedCompleting(c: Config, s: State, q1: Queues, l: Link)
    requires CoreOk(c, s, s.q.now) && PopEvent(s.q, s.w.st) == Event(q1, l)
    ensures l.slot < |s.w.st| && Completing(s.(q := q1), l.slot) && l.x == s.q.now && q1.now == s.q.now
  {
    PopOk(s.w, s.q);
    assert BodyOk(s.(q := q1), 0, 2) by {
      hide Ordered, Paired, SpecOk, VectorsOk, OperandsOk, HistoryOk, FlowOk, LinksOk, FrontOk;
    }
    hide PopEvent, BodyOk, LifeOk, ProgressOk, LoadsOk, LinksOk, FrontOk, RingPos, Mark;
  }

  lemma DoneForNow(c: Config, s: State, q1: Queues)
    requires CoreOk(c, s, s.q.now) && PopEvent(s.q, s.w.st) == NoEvent(q1)
    requires forall id: nat :: LinkCnt(s.w, q1, id) == LinkCnt(s.w, s.q, id)
    ensures q1.now == s.q.now && CoreOk(c, s.(q := q1), s.q.now + 1)
  {
    PopOk(s.w, s.q);
    hide PopEvent, Ordered, Paired, SpecOk, VectorsOk, OperandsOk, HistoryOk, LifeOk, ProgressOk, LoadsOk, LinkCnt,
         FrontOk, RingPos;
  }

  lemma CoreParts(c: Config, s: State, from: nat)
    requires CoreOk(c, s, from)
    ensures Sized(s) && FrontOk(c, s.f, s.h) && LinksOk(c, s.w, s.q) && BodyOk(s, 0, 2) && FlowOk(s.w, s.q, [], from)
    ensures s.w.nr == c.nr && s.w.nl == c.nl
  {
  }

  lemma CompleteNext(c: Config, s: State)
    requires CoreOk(c, s, s.q.now) && Sized(s) && PopEvent(s.q, s.w.st).Event?
    ensures var e := PopEvent(s.q, s.w.st);
      && e.link.x == s.q.now
      && match Complete(c, s.(q := e.q), e.link.slot)
         case Panic(p) => p == OutOfLinks
         case Ok(r) => CoreOk(c, r, r.q.now) && r.h == s.h && r.q.now == s.q.now && |r.q.events| < |s.q.events|
  {
    var e := PopEvent(s.q, s.w.st);
    PoppedCompleting(c, s, e.q, e.link);
    CoreParts(c, s, s.q.now);
    hide CoreOk, PopEvent, Completing, BodyOk, FlowOk, FrontOk, LinkCnt, Complete, Ring;
    var s1 := s.(q := e.q);
    CompleteOk(c, s1, e.link.slot);
    if Complete(c, s1, e.link.slot).Ok? {
      var r := Complete(c, s1, e.link.slot).value;
      forall id: nat ensures LinkCnt(r.w, r.q, id) == LinkCnt(s.w, s.q, id) {
        PopLinks(s.w, s.q, id);
        CompleteLinks(c, s1, e.link.slot, id);
      }
      FoldCore(c, r);
    }
  }

  lemma FoldCore(c: Config, s: State)
    requires BodyOk(s, 0, 2) && FlowOk(s.w, s.q, [], s.q.now) && LinksOk(c, s.w, s.q) && FrontOk(c, s.f, s.h)
    requires s.w.nr == c.nr && s.w.nl == c.nl
    ensures CoreOk(c, s, s.q.now)
  {
  }

  /**
   * ruu_writeback keeps the core invariant, serves every event of this cycle, never loses a
   * dispatched or retired instruction, and stops only for want of links.
   */
  lemma {:induction false} WritebackOk(c: Config, s: State)
    requires CoreOk(c, s, s.q.now)
    ensures match Writeback(c, s)
      case Panic(p) => p == OutOfLinks
      case Ok(r) => CoreOk(c, r, r.q.now + 1) && r.h == s.h && r.q.now == s.q.now
    decreases |s.q.events|
  {
    hide CoreOk, PopEvent, Complete, Ring, LinkCnt;
    CoreParts(c, s, s.q.now);
    match PopEvent(s.q, s.w.st)
    case NoEvent(q1) =>
      forall id: nat ensures LinkCnt(s.w, q1, id) == LinkCnt(s.w, s.q, id) {
        PopLinks(s.w, s.q, id);
      }
      DoneForNow(c, s, q1);
    case Event(q1, l) =>
      CompleteNext(c, s);
      if Complete(c, s.(q := q1), l.slot).Ok? {
        WritebackOk(c, Complete(c, s.(q := q1), l.slot).value);
      }
  }
}
