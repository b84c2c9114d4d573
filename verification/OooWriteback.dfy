/**
 * ruu_writeback: a due event completes its operation, recovers from a misprediction it reveals,
 * and delivers its results.
 */
module OooWriteback {
  import opened OooTypes
  import opened OooStages
  import opened OooInv
  import opened OooFrames
  import opened OooQueues
  import opened OooIssue
  import opened OooCommit
  import opened OooRecover
  import opened OooWake
  import opened OooBroadcast

  // ---------------------------------------------------------------- an output that is not there

  lemma SkipDone(w: Window, x: int, e: int, p: int, i: int)
    requires 0 <= p < |w.st| && !(p == x && i == e)
    ensures Done(w, x, e + 1, p, i) <==> Done(w, x, e, p, i)
  {
  }

  lemma SkipOperand(w: Window, x: int, e: int, s: int, j: int)
    requires Ring(w) && 0 <= x < |w.st| && 0 <= e < 2 && w.st[x].onames[e] == NA && Live(w, s) && 0 <= j < 3
    requires Delivered(w, x, e, s, j)
    ensures Delivered(w, x, e + 1, s, j)
  {
    var n := w.st[s].inames[j];
    if n != NA {
      forall p, i | Youngest(w, n, w.st[s].seqno, p, i) ensures Done(w, x, e + 1, p, i) {
        SkipDone(w, x, e, p, i);
      }
    }
    hide RingPos;
  }

  lemma SkipChain(w: Window, x: int, e: int, p: int, i: int)
    requires Ring(w) && 0 <= x < |w.st| && 0 <= e < 2 && w.st[x].onames[e] == NA
    requires 0 <= p < |w.st| && 0 <= i < 2 && ChainOk(w, x, e, p, i)
    ensures ChainOk(w, x, e + 1, p, i)
  {
    if !(p == x && i == e) {
      SkipDone(w, x, e, p, i);
    }
    hide RingPos, Waits;
  }

  lemma SkipOperands(w: Window, x: int, e: int)
    requires Ring(w) && 0 <= x < |w.st| && 0 <= e < 2 && w.st[x].onames[e] == NA && OperandsOk(w, x, e)
    ensures OperandsOk(w, x, e + 1)
  {
    var e' := e + 1;
    forall s, j | Live(w, s) && 0 <= j < 3 && w.st[s].ready[j] ensures Delivered(w, x, e', s, j) {
      SkipOperand(w, x, e, s, j);
      hide Delivered, RingPos;
    }
    forall p, i | 0 <= p < |w.st| && 0 <= i < 2 ensures ChainOk(w, x, e', p, i) {
      SkipChain(w, x, e, p, i);
      hide ChainOk;
    }
    hide Delivered, HasSource, ChainOk, RingPos;
  }

  lemma SkipNames(w: Window, x: int, e: int, n: Reg, spec: bool, c: Creator)
    requires Ring(w) && 0 <= x < |w.st| && 0 <= e < 2 && w.st[x].onames[e] == NA && n != NA &&
      Names(w, x, e, n, spec, c)
    ensures Names(w, x, e + 1, n, spec, c)
  {
    forall p, i | YoungestIn(w, n, spec, p, i) ensures Done(w, x, e + 1, p, i) <==> Done(w, x, e, p, i) {
      SkipDone(w, x, e, p, i);
    }
    hide RingPos;
  }

  lemma SkipVectors(w: Window, v: Vectors, x: int, e: int)
    requires Ring(w) && 0 <= x < |w.st| && 0 <= e < 2 && w.st[x].onames[e] == NA && VectorsOk(w, v, x, e)
    ensures VectorsOk(w, v, x, e + 1)
  {
    var e' := e + 1;
    forall n: Reg | n != NA
      ensures Names(w, x, e', n, false, v.cv[n])
      ensures n in v.useSpec ==> Names(w, x, e', n, true, v.scv[n])
    {
      SkipNames(w, x, e, n, false, v.cv[n]);
      if n in v.useSpec {
        SkipNames(w, x, e, n, true, v.scv[n]);
      }
      hide Names;
    }
    hide Names, SpecWriter, RingPos;
  }

  // ---------------------------------------------------------------- detaching the chain

  /** Only output chains differ. */
  ghost predicate OnlyChains(w: Window, w': Window) {
    SameRings(w, w') && forall s :: 0 <= s < |w.st| ==> w'.st[s] == w.st[s].(odeps := w'.st[s].odeps)
  }

  lemma ChainsLife(w: Window, w': Window, q: Queues)
    requires Ring(w) && OnlyChains(w, w') && LifeOk(w, q, [])
    ensures LifeOk(w', q, [])
  {
    TagsKept(q.readyq, w.st, w'.st);
    TagsKept(q.events, w.st, w'.st);
    forall t | 0 <= t < |w.st| ensures SlotOk(w', q, [], t) {
      assert SlotOk(w, q, [], t);
      hide RingPos;
    }
    hide SlotOk, TagsOk, RingPos;
  }

  lemma ChainsFlow(w: Window, w': Window, q: Queues, from: nat)
    requires Ring(w) && OnlyChains(w, w') && FlowOk(w, q, [], from)
    ensures FlowOk(w', q, [], from)
  {
    ChainsLife(w, w', q);
    SameSchedFlow(w, w');
    hide LifeOk, LoadsOk, ProgressOk, EventsOk;
  }

  function Detach(w: Window, x: nat, i: nat): Window
    requires x < |w.st| && i < 2
  {
    Put(w, x, w.st[x].(odeps := w.st[x].odeps[i := []]))
  }

  lemma DetachUnserved(w: Window, x: nat, e: nat)
    requires Ring(w) && x < |w.st| && e < 2 && ChainOk(w, x, e, x, e)
    ensures Unserved(Detach(w, x, e), w.st[x].odeps[e])
    ensures OnlyChains(w, Detach(w, x, e))
  {
    var w1, chain := Detach(w, x, e), w.st[x].odeps[e];
    TagsKept(chain, w.st, w1.st);
    forall s, j | 0 <= s < |w.st| && 0 <= j < 3
      ensures CntOp(chain, s, w1.st[s].tag, j) <= 1
      ensures CntOp(chain, s, w1.st[s].tag, j) == 1 ==> Live(w1, s) && !w1.st[s].ready[j]
    {
      assert CntOp(chain, s, w.st[s].tag, j) == if Waits(w, s, j, x, e) then 1 else 0;
      hide RingPos, Youngest;
    }
    hide RingPos, CntOp, TagsOk, Waits;
  }

  lemma ReadiesDelivers(w: Window, w': Window, x: nat, e: nat)
    requires Ring(w) && x < |w.st| && e < 2 && ChainOk(w, x, e, x, e) && w.st[x].completed && w.st[x].onames[e] != NA
    requires Readies(Detach(w, x, e), w', w.st[x].odeps[e])
    ensures Delivers(w, w', x, e)
  {
    var w1, chain := Detach(w, x, e), w.st[x].odeps[e];
    forall s, j | 0 <= s < |w.st| && 0 <= j < 3 ensures w'.st[s].ready[j] <==>
      w.st[s].ready[j] || Waits(w, s, j, x, e) {
      assert CntOp(chain, s, w.st[s].tag, j) == if Waits(w, s, j, x, e) then 1 else 0;
      hide Waits;
    }
    hide Waits, CntOp, RingPos;
  }

  lemma OrderSpec(w: Window, w': Window, m: bool)
    requires Ring(w) && SameOrder(w, w') && SameRecover(w, w') && SpecOk(w, m)
    requires forall s :: 0 <= s < |w.st| ==> w'.st[s].completed == w.st[s].completed
    ensures SpecOk(w', m)
  {
    hide RingPos;
    forall b ensures Pending(w', b) <==> Pending(w, b) {
    }
  }

  /** Delivering keeps the body. */
  lemma DeliversBody(s: State, s': State, x: int, e: int)
    requires BodyOk(s, x, e) && 0 <= x < |s.w.st| && 0 <= e < 2 && Delivers(s.w, s'.w, x, e)
    requires s'.v == ClearCreator(s.v, s.w.st[x], x, e) && s'.f == s.f && s'.h == s.h
    ensures BodyOk(s', x, e + 1)
  {
    assert Numbered(s.w) && SameOrder(s.w, s'.w) && SameRecover(s.w, s'.w);
    OrderSpec(s.w, s'.w, s.f.specMode);
    hide Ordered, Numbered, Paired, SpecOk, VectorsOk, OperandsOk, HistoryOk, RingPos, Delivers, SameOrder, SameRecover,
         ClearCreator;
    SameOrdered(s.w, s'.w);
    OrderPaired(s.w, s'.w);
    DeliversVectors(s.w, s'.w, s.v, x, e);
    DeliversOperands(s.w, s'.w, x, e);
    OrderHistory(s.w, s'.w, s.h);
  }

  // ---------------------------------------------------------------- one output

  /** State between the broadcasts of the outputs of `x`. */
  ghost predicate Broadcasting(s: State, x: int, e: int) {
    && BodyOk(s, x, e) && FlowOk(s.w, s.q, [], s.q.now)
    && Live(s.w, x) && s.w.st[x].completed && 0 <= x < |s.w.st|
  }

  /** The parts of the state that completing an operation without misprediction leaves alone. */
  ghost predicate OnlyWakes(s: State, s': State) {
    s' == s.(w := s'.w, q := s.q.(free := s'.q.free, readyq := s'.q.readyq), v := s'.v)
    && s'.w.nr == s.w.nr && s'.w.nl == s.w.nl
  }

  lemma BroadcastSkip(s: State, x: int, e: int)
    requires Broadcasting(s, x, e) && 0 <= e < 2 && s.w.st[x].onames[e] == NA
    ensures Broadcasting(s, x, e + 1)
  {
    SkipVectors(s.w, s.v, x, e);
    SkipOperands(s.w, x, e);
    hide Ordered, Paired, SpecOk, VectorsOk, OperandsOk, HistoryOk, FlowOk, RingPos;
  }

  lemma BodyChain(s: State, x: int, e: int, p: int, i: int)
    requires BodyOk(s, x, e) && 0 <= p < |s.w.st| && 0 <= i < 2
    ensures ChainOk(s.w, x, e, p, i)
  {
  }

  lemma BroadcastWake(s: State, x: int, e: int)
    requires Broadcasting(s, x, e) && 0 <= e < 2 && s.w.st[x].onames[e] != NA && Sized(s)
    ensures match Broadcast(s, x, e)
      case Panic(p) => p == OutOfLinks
      case Ok(r) => Broadcasting(r, x, e + 1) && OnlyWakes(s, r)
  {
    BodyChain(s, x, e, x, e);
    DetachUnserved(s.w, x, e);
    hide BodyOk, FlowOk, ChainOk, RingPos, Unserved, OnlyChains, Readies;
    var w1 := Detach(s.w, x, e);
    ChainsFlow(s.w, w1, s.q, s.q.now);
    var s1 := s.(w := w1, v := ClearCreator(s.v, s.w.st[x], x, e));
    WakeAllOk(s1, s.w.st[x].odeps[e], s.q.now);
    if Broadcast(s, x, e).Ok? {
      var r := Broadcast(s, x, e).value;
      ReadiesDelivers(s.w, r.w, x, e);
      DeliversBody(s, r, x, e);
      DeliversLive(s.w, r.w, x, e, x);
      hide WakeAll, Delivers;
    }
  }

  lemma DeliversLive(w: Window, w': Window, x: int, e: int, s: int)
    requires Ring(w) && 0 <= x < |w.st| && 0 <= e < 2 && Delivers(w, w', x, e) && Live(w, s)
    ensures Live(w', s) && w'.st[s].completed == w.st[s].completed && w'.nr == w.nr && w'.nl == w.nl &&
      |w'.st| == |w.st|
  {
    hide RingPos;
  }

  lemma BroadcastOk(s: State, x: int, e: int)
    requires Broadcasting(s, x, e) && 0 <= e < 2 && Sized(s)
    ensures match Broadcast(s, x, e)
      case Panic(p) => p == OutOfLinks
      case Ok(r) => Broadcasting(r, x, e + 1) && OnlyWakes(s, r)
  {
    if s.w.st[x].onames[e] == NA {
      BroadcastSkip(s, x, e);
      hide Broadcasting;
    } else {
      BroadcastWake(s, x, e);
    }
  }

  lemma BroadcastLinks(s: State, x: int, e: int, id: nat)
    requires Sized(s) && 0 <= x < |s.w.st| && 0 <= e < 2 && Broadcast(s, x, e).Ok?
    ensures var r := Broadcast(s, x, e).value; LinkCnt(r.w, r.q, id) == LinkCnt(s.w, s.q, id)
  {
    hide RingPos;
    if s.w.st[x].onames[e] != NA {
      var rs := s.w.st[x];
      var rs1 := rs.(odeps := rs.odeps[e := []]);
      var s1 := s.(w := Put(s.w, x, rs1), v := ClearCreator(s.v, rs, x, e));
      ChainCntUpdate(s.w.st, x, rs1, id);
      WakeLinks(s1, rs.odeps[e], id);
      hide WakeAll;
    }
  }
}
