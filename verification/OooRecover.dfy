/**
 * ruu_recover: the wrong path is squashed from the tail back to the mispredicted branch.
 */
module OooRecover {
  import opened OooTypes
  import opened OooStages
  import opened OooInv
  import opened OooFrames
  import opened OooDrop
  import opened OooCommit
  import OooQueues

  // ---------------------------------------------------------------- the rings

  /** Slot of the youngest RUU entry. */
  function RuuTail(w: Window): int
    requires Ring(w)
  {
    Wrap(w.rt + w.nr - 1, w.nr)
  }

  /** Slot of the youngest LSQ entry. */
  function LsqTail(w: Window): int
    requires Ring(w)
  {
    w.nr + Wrap(w.lt + w.nl - 1, w.nl)
  }

  lemma SquashRuuDrops(s: State)
    requires Ring(s.w) && s.w.rn > 0
    ensures Drops(s.w, SquashRuu(s).w, RuuTail(s.w))
  {
  }

  lemma SquashLsqDrops(s: State)
    requires Ring(s.w) && s.w.ln > 0
    ensures Drops(s.w, SquashLsq(s).w, LsqTail(s.w))
  {
  }

  lemma SquashRuuOrdered(s: State)
    requires Ring(s.w) && s.w.rn > 0 && OrderedRuu(s.w) && OrderedLsq(s.w)
    ensures OrderedRuu(SquashRuu(s).w) && OrderedLsq(SquashRuu(s).w)
  {
    var w, w' := s.w, SquashRuu(s).w;
    forall t | LiveR(w', t) ensures LiveR(w, t) && w'.st[t] == w.st[t] {
    }
    hide RingPos, SquashRuu;
  }

  lemma SquashLsqOrdered(s: State)
    requires Ring(s.w) && s.w.ln > 0 && OrderedRuu(s.w) && OrderedLsq(s.w)
    ensures OrderedRuu(SquashLsq(s).w) && OrderedLsq(SquashLsq(s).w)
  {
    var w, w' := s.w, SquashLsq(s).w;
    forall t | LiveL(w', t) ensures LiveL(w, t) && w'.st[t] == w.st[t] {
    }
    hide RingPos, SquashLsq;
  }

  lemma RuuTailLast(w: Window, s: int)
    requires Ring(w) && OrderedRuu(w) && w.rn > 0 && LiveR(w, s)
    ensures LiveR(w, RuuTail(w)) && (s != RuuTail(w) ==> w.st[s].seqno < w.st[RuuTail(w)].seqno)
  {
    assert RingPos(w.rh, w.nr, RuuTail(w)) == w.rn - 1;
  }

  lemma LsqTailLast(w: Window, s: int)
    requires Ring(w) && OrderedLsq(w) && w.ln > 0 && LiveL(w, s)
    ensures LiveL(w, LsqTail(w)) && (s != LsqTail(w) ==> w.st[s].seqno < w.st[LsqTail(w)].seqno)
  {
    assert RingPos(w.lh, w.nl, LsqTail(w) - w.nr) == w.ln - 1;
  }

  // ---------------------------------------------------------------- pairing and histories at the tail

  lemma EaCons(st: seq<Station>, nr: nat, head: nat, n: nat)
    requires head < nr <= |st|
    ensures EaSlots(st, nr, head, 0) == []
    ensures EaSlots(st, nr, head, n + 1) ==
      (if st[head].kind.Addr? then [head] else []) + EaSlots(st, nr, Wrap(head + 1, nr), n)
  {
  }

  lemma RightCons(st: seq<Station>, nr: nat, head: nat, n: nat)
    requires head < nr <= |st|
    ensures RightPath(st, nr, head, 0) == []
    ensures RightPath(st, nr, head, n + 1) ==
      (if st[head].spec then [] else [Entry(st[head].seqno, st[head].pc)]) + RightPath(st, nr, Wrap(head + 1, nr), n)
  {
  }

  lemma {:induction false} EaSnoc(st: seq<Station>, nr: nat, head: nat, n: nat)
    requires head < nr <= |st| && n < nr
    ensures EaSlots(st, nr, head, n + 1) ==
      EaSlots(st, nr, head, n) + (if st[Wrap(head + n, nr)].kind.Addr? then [Wrap(head + n, nr)] else [])
    decreases n
  {
    hide EaSlots;
    EaCons(st, nr, head, n);
    if n == 0 {
      EaCons(st, nr, Wrap(head + 1, nr), 0);
    } else {
      EaCons(st, nr, head, n - 1);
      EaSnoc(st, nr, Wrap(head + 1, nr), n - 1);
      assert Wrap(Wrap(head + 1, nr) + (n - 1), nr) == Wrap(head + n, nr);
    }
  }

  lemma {:induction false} RightSnoc(st: seq<Station>, nr: nat, head: nat, n: nat)
    requires head < nr <= |st| && n < nr
    ensures RightPath(st, nr, head, n + 1) ==
      RightPath(st, nr, head, n) + (if st[Wrap(head + n, nr)].spec then []
        else [Entry(st[Wrap(head + n, nr)].seqno, st[Wrap(head + n, nr)].pc)])
    decreases n
  {
    hide RightPath;
    RightCons(st, nr, head, n);
    if n == 0 {
      RightCons(st, nr, Wrap(head + 1, nr), 0);
    } else {
      RightCons(st, nr, head, n - 1);
      RightSnoc(st, nr, Wrap(head + 1, nr), n - 1);
      assert Wrap(Wrap(head + 1, nr) + (n - 1), nr) == Wrap(head + n, nr);
    }
  }

  lemma TailIndex(w: Window)
    requires Ring(w) && w.rn > 0
    ensures RuuTail(w) == Wrap(w.rh + (w.rn - 1), w.nr)
  {
  }

  lemma SquashEa(s: State)
    requires Ring(s.w) && s.w.rn > 0
    ensures var w, w' := s.w, SquashRuu(s).w;
      EaSlots(w.st, w.nr, w.rh, w.rn) ==
        EaSlots(w'.st, w'.nr, w'.rh, w'.rn) + (if w.st[RuuTail(w)].kind.Addr? then [RuuTail(w)] else [])
  {
    var w, w' := s.w, SquashRuu(s).w;
    TailIndex(w);
    EaSnoc(w.st, w.nr, w.rh, w.rn - 1);
    EaSlotsSame(w.st, w'.st, w.nr, w.rh, w.rn - 1);
    hide EaSlots;
  }

  /** An address computation at the RUU tail has its other half at the LSQ tail. */
  lemma TailsPaired(w: Window)
    requires Ring(w) && Paired(w) && w.rn > 0 && w.st[RuuTail(w)].kind.Addr?
    ensures w.ln > 0 && w.st[LsqTail(w)].seqno == w.st[RuuTail(w)].seqno + 1
  {
    TailIndex(w);
    EaSnoc(w.st, w.nr, w.rh, w.rn - 1);
    assert LsqSlot(w, w.ln - 1) == LsqTail(w);
    hide EaSlots;
  }

  lemma SquashAluPaired(s: State)
    requires Ring(s.w) && s.w.rn > 0 && Paired(s.w) && !s.w.st[RuuTail(s.w)].kind.Addr?
    ensures Paired(SquashRuu(s).w)
  {
    var w, w' := s.w, SquashRuu(s).w;
    hide RingPos, EaSlots;
    var ea := EaSlots(w.st, w.nr, w.rh, w.rn);
    SquashEa(s);
    assert EaSlots(w'.st, w.nr, w'.rh, w'.rn) == ea;
    forall k | 0 <= k < w.ln ensures w'.st[LsqSlot(w', k)].seqno == w'.st[ea[k]].seqno + 1 {
      assert LsqSlot(w', k) == LsqSlot(w, k);
    }
  }

  lemma SquashPairKeeps(s: State)
    requires Ring(s.w) && s.w.rn > 0 && s.w.ln > 0
    ensures var w, w2 := s.w, SquashRuu(SquashLsq(s)).w;
      && w2.nr == w.nr && w2.nl == w.nl && w2.rh == w.rh && w2.lh == w.lh && w2.ln == w.ln - 1 && |w2.st| == |w.st|
      && forall t :: 0 <= t < |w.st| ==> w2.st[t].seqno == w.st[t].seqno
  {
  }

  lemma SquashPairEa(s: State)
    requires Ring(s.w) && s.w.rn > 0 && s.w.ln > 0 && s.w.st[RuuTail(s.w)].kind.Addr?
    ensures var w, w2 := s.w, SquashRuu(SquashLsq(s)).w;
      EaSlots(w.st, w.nr, w.rh, w.rn) == EaSlots(w2.st, w2.nr, w2.rh, w2.rn) + [RuuTail(w)]
  {
    hide EaSlots, RingPos;
    EaSlotsSame(s.w.st, SquashLsq(s).w.st, s.w.nr, s.w.rh, s.w.rn);
    SquashEa(SquashLsq(s));
  }

  lemma SquashPairPaired(s: State)
    requires Ring(s.w) && s.w.rn > 0 && s.w.ln > 0 && Paired(s.w) && s.w.st[RuuTail(s.w)].kind.Addr?
    ensures Paired(SquashRuu(SquashLsq(s)).w)
  {
    SquashPairKeeps(s);
    SquashPairEa(s);
    hide RingPos, EaSlots, SquashRuu, SquashLsq, RuuTail;
    var w, w2 := s.w, SquashRuu(SquashLsq(s)).w;
    var ea := EaSlots(w.st, w.nr, w.rh, w.rn);
    var ea' := EaSlots(w2.st, w2.nr, w2.rh, w2.rn);
    forall k | 0 <= k < w2.ln ensures w2.st[LsqSlot(w2, k)].seqno == w2.st[ea'[k]].seqno + 1 {
      assert LsqSlot(w2, k) == LsqSlot(w, k);
      assert ea'[k] == ea[k];
    }
  }

  lemma SquashHistory(s: State, h: History)
    requires Ring(s.w) && s.w.rn > 0 && HistoryOk(s.w, h) && s.w.st[RuuTail(s.w)].spec
    ensures HistoryOk(SquashRuu(s).w, h)
  {
    var w, w' := s.w, SquashRuu(s).w;
    TailIndex(w);
    RightSnoc(w.st, w.nr, w.rh, w.rn - 1);
    RightPathSame(w.st, w'.st, w.nr, w.rh, w.rn - 1);
  }

  lemma SquashLsqHistory(s: State, h: History)
    requires Ring(s.w) && s.w.ln > 0 && HistoryOk(s.w, h)
    ensures HistoryOk(SquashLsq(s).w, h)
  {
    RightPathSame(s.w.st, SquashLsq(s).w.st, s.w.nr, s.w.rh, s.w.rn);
  }

  /** Squashing returns the links of the squashed chains to the pool. */
  lemma SquashLinks(s: State, slot: int, id: nat)
    requires Ring(s.w) && 0 <= slot < |s.w.st|
    ensures var r := SquashSlot(s, slot); LinkCnt(r.w, r.q, id) == LinkCnt(s.w, s.q, id)
  {
    var rs := s.w.st[slot];
    FreeListCnt(s.q, rs.odeps[0], id);
    FreeListCnt(FreeList(s.q, rs.odeps[0]), rs.odeps[1], id);
    ChainCntUpdate(s.w.st, slot, rs.(odeps := BlankChains(), tag := rs.tag + 1), id);
  }

  // ---------------------------------------------------------------- one squash

  /** Every live operation younger than the branch, and no other, is speculative. */
  ghost predicate Doomed(w: Window, b: int)
    requires Ring(w)
  {
    && LiveR(w, b) && w.st[b].completed && w.st[b].recover
    && (forall s :: Live(w, s) ==> (w.st[s].spec <==> w.st[s].seqno > w.st[b].seqno))
    && (forall s :: LiveR(w, s) && w.st[s].recover ==> w.st[s].completed)
  }

  /** The precise create vector is right. */
  ghost predicate PreciseOk(w: Window, cv: seq<Creator>, x: int, e: int)
    requires Ring(w)
  {
    |cv| == TOTAL_REGS && forall n: Reg :: n != NA ==> Names(w, x, e, n, false, cv[n])
  }

  /** What holds while the wrong path behind branch `b` is being squashed, heads and tails apart. */
  ghost predicate SquashOk(w: Window, q: Queues, cv: seq<Creator>, b: int)
    requires Ring(w)
  {
    && Numbered(w) && KindsOk(w) && PreciseOk(w, cv, b, 0) && OperandsOk(w, b, 0) && Doomed(w, b)
    && LifeOk(w, q, []) && ProgressOk(w) && LoadsOk(w)
  }

  ghost predicate YoungestLive(w: Window, d: int)
    requires Ring(w)
  {
    Live(w, d) && forall s :: Live(w, s) && s != d ==> w.st[s].seqno < w.st[d].seqno
  }

  lemma DropPrecise(w: Window, w': Window, d: int, cv: seq<Creator>, x: int, e: int)
    requires Drops(w, w', d) && PreciseOk(w, cv, x, e) && w.st[d].spec
    ensures PreciseOk(w', cv, x, e)
  {
    forall n: Reg | n != NA ensures Names(w', x, e, n, false, cv[n]) {
      DropNames(w, w', d, x, e, n, false, cv[n]);
      hide Names, RingPos;
    }
    hide Names, RingPos;
  }

  lemma DropDoomed(w: Window, w': Window, d: int, b: int)
    requires Drops(w, w', d) && Doomed(w, b) && d != b
    ensures Doomed(w', b)
  {
    hide RingPos;
  }

  lemma LifeFree(w: Window, q: Queues, q': Queues)
    requires Ring(w) && LifeOk(w, q, []) && q' == q.(free := q'.free)
    ensures LifeOk(w, q', [])
  {
    OooQueues.LifeSame(w, q, q', []);
  }

  /** Squashing the youngest operation, a speculative one, keeps everything. */
  lemma DropYoung(w: Window, w': Window, d: int, q: Queues, q': Queues, cv: seq<Creator>, b: int)
    requires Drops(w, w', d) && SquashOk(w, q, cv, b) && YoungestLive(w, d) && d != b && q' == q.(free := q'.free)
    ensures SquashOk(w', q', cv, b)
  {
    assert w.st[d].spec;
    assert AtEnd(w, b, 0, d);
    DropNumbered(w, w', d);
    DropPrecise(w, w', d, cv, b, 0);
    DropOperands(w, w', d, b, 0);
    DropDoomed(w, w', d, b);
    DropLife(w, w', d, q);
    LifeFree(w', q, q');
    DropFlow(w, w', d, b, 0);
    hide Numbered, KindsOk, PreciseOk, OperandsOk, Doomed, LifeOk, ProgressOk, LoadsOk, RingPos, Drops;
  }

  // ---------------------------------------------------------------- who is youngest

  /** LSQ entries are never between the RUU tail and its successor. */
  lemma RuuTailIsYoungest(w: Window)
    requires Ring(w) && OrderedRuu(w) && Numbered(w) && Paired(w) && w.rn > 0 && !w.st[RuuTail(w)].kind.Addr?
    ensures YoungestLive(w, RuuTail(w))
  {
    var d := RuuTail(w);
    RuuTailLast(w, d) by {
      assert LiveR(w, d);
    }
    forall s | Live(w, s) && s != d ensures w.st[s].seqno < w.st[d].seqno {
      if LiveR(w, s) {
        RuuTailLast(w, s);
      } else {
        var k := RingPos(w.lh, w.nl, s - w.nr);
        assert LsqSlot(w, k) == s;
        EaSlotsLive(w, w.rh, w.rn, k);
        RuuTailLast(w, EaSlots(w.st, w.nr, w.rh, w.rn)[k]);
      }
    }
    hide RingPos, Paired, RuuTail;
  }

  lemma LsqTailIsYoungest(w: Window)
    requires Ring(w) && OrderedRuu(w) && OrderedLsq(w) && Paired(w) && w.rn > 0 && w.st[RuuTail(w)].kind.Addr?
    ensures w.ln > 0 && YoungestLive(w, LsqTail(w))
  {
    TailsPaired(w);
    var d := LsqTail(w);
    assert LiveL(w, d);
    forall s | Live(w, s) && s != d ensures w.st[s].seqno < w.st[d].seqno {
      if LiveR(w, s) {
        RuuTailLast(w, s);
      } else {
        LsqTailLast(w, s);
      }
    }
    hide RingPos, Paired, RuuTail, LsqTail;
  }

  lemma RuuTailNext(s: State)
    requires Ring(s.w) && OrderedRuu(s.w) && OrderedLsq(s.w) && Numbered(s.w) && Paired(s.w)
    requires s.w.rn > 0 && s.w.st[RuuTail(s.w)].kind.Addr? && s.w.ln > 0
    ensures RuuTail(SquashLsq(s).w) == RuuTail(s.w) && YoungestLive(SquashLsq(s).w, RuuTail(s.w))
  {
    var w, w' := s.w, SquashLsq(s).w;
    var d := RuuTail(w);
    TailsPaired(w);
    SquashLsqDrops(s);
    assert RuuTail(w') == d;
    assert LiveR(w, d);
    assert w'.st[d].seqno == w.st[d].seqno;
    hide SquashLsq;
    forall t | Live(w', t) && t != d ensures w'.st[t].seqno < w'.st[d].seqno {
      if LiveR(w, t) {
        RuuTailLast(w, t);
      } else {
        LsqTailLast(w, t);
        assert w.st[t].seqno != w.st[d].seqno;
      }
    }
    hide RingPos, Paired, RuuTail, LsqTail;
  }

  // ---------------------------------------------------------------- the loop

  ghost predicate Squashing(s: State, b: int) {
    Ring(s.w) && SquashOk(s.w, s.q, s.v.cv, b) && RingsOk(s.w, s.h)
  }

  lemma SquashingRing(s: State, b: int)
    requires Squashing(s, b)
    ensures Ring(s.w)
  {
  }

  lemma SquashAlu(s: State, b: int)
    requires Squashing(s, b) && s.w.rn > 0 && RuuTail(s.w) != b && !s.w.st[RuuTail(s.w)].kind.Addr?
    ensures Squashing(SquashRuu(s), b)
  {
    var d := RuuTail(s.w);
    assert Numbered(s.w) && Doomed(s.w, b);
    RuuTailIsYoungest(s.w);
    assert s.w.st[d].spec;
    hide SquashOk, OrderedRuu, OrderedLsq, Numbered, Paired, Doomed, HistoryOk, RingPos, RuuTail, SquashRuu,
         YoungestLive, Drops;
    SquashRuuDrops(s);
    DropYoung(s.w, SquashRuu(s).w, d, s.q, SquashRuu(s).q, s.v.cv, b);
    SquashRuuOrdered(s);
    SquashAluPaired(s);
    SquashHistory(s, s.h);
    SquashRest(s);
  }

  lemma SquashRest(s: State)
    requires Ring(s.w)
    ensures s.w.rn > 0 ==> SquashRuu(s) == s.(w := SquashRuu(s).w, q := SquashRuu(s).q)
    ensures s.w.ln > 0 ==> SquashLsq(s) == s.(w := SquashLsq(s).w, q := SquashLsq(s).q)
  {
  }

  lemma SquashHalf(s: State, b: int)
    requires Squashing(s, b) && s.w.rn > 0 && s.w.st[RuuTail(s.w)].kind.Addr?
    ensures s.w.ln > 0
    ensures var s1 := SquashLsq(s);
      && Ring(s1.w) && SquashOk(s1.w, s1.q, s.v.cv, b) && OrderedRuu(s1.w) && OrderedLsq(s1.w) && HistoryOk(s1.w, s.h)
      && RuuTail(s1.w) == RuuTail(s.w) && YoungestLive(s1.w, RuuTail(s.w))
  {
    assert Numbered(s.w) && Doomed(s.w, b);
    assert LsqTail(s.w) != b;
    hide SquashOk, OrderedRuu, OrderedLsq, Numbered, Paired, Doomed, HistoryOk, RingPos, SquashLsq, YoungestLive, Drops;
    LsqTailIsYoungest(s.w);
    SquashLsqDrops(s);
    DropYoung(s.w, SquashLsq(s).w, LsqTail(s.w), s.q, SquashLsq(s).q, s.v.cv, b);
    SquashLsqOrdered(s);
    SquashLsqHistory(s, s.h);
    RuuTailNext(s);
  }

  lemma SquashPair(s: State, b: int)
    requires Squashing(s, b) && s.w.rn > 0 && RuuTail(s.w) != b && s.w.st[RuuTail(s.w)].kind.Addr?
    ensures s.w.ln > 0 && Squashing(SquashRuu(SquashLsq(s)), b)
  {
    SquashHalf(s, b);
    var s1 := SquashLsq(s);
    var d := RuuTail(s.w);
    assert s1.w.st[d].spec by {
      assert Doomed(s1.w, b);
      hide RingPos, SquashLsq, RuuTail;
    }
    hide SquashOk, OrderedRuu, OrderedLsq, Paired, HistoryOk, RingPos, RuuTail, SquashRuu, YoungestLive, Drops;
    SquashRest(s);
    SquashRest(s1);
    assert s1.w.rn > 0;
    hide SquashLsq;
    SquashRuuDrops(s1);
    DropYoung(s1.w, SquashRuu(s1).w, d, s1.q, SquashRuu(s1).q, s.v.cv, b);
    SquashRuuOrdered(s1);
    SquashPairPaired(s);
    SquashHistory(s1, s.h);
  }

  lemma SquashOneOk(s: State, b: int)
    requires Squashing(s, b) && RuuTail(s.w) != b
    ensures SquashOne(s).Ok? && Squashing(SquashOne(s).value, b)
  {
    assert s.w.rn > 0 && (RuuTail(s.w) == s.w.rh ==> false) by {
      assert LiveR(s.w, b);
    }
    hide Squashing, SquashOk, RingsOk, RingPos, SquashRuu, SquashLsq;
    if s.w.st[RuuTail(s.w)].kind.Addr? {
      SquashPair(s, b);
    } else {
      SquashAlu(s, b);
    }
  }

  /** The loop of ruu_recover never stops on an inconsistency and leaves the branch at the tail. */
  lemma {:induction false} RecoverWindowOk(s: State, b: nat)
    requires Squashing(s, b)
    ensures RecoverWindow(s, b).Ok?
    ensures var r := RecoverWindow(s, b).value; Squashing(r, b) && RuuTail(r.w) == b
    decreases s.w.rn
  {
    hide Squashing, SquashOne;
    SquashingRing(s, b);
    if RuuTail(s.w) != b {
      SquashOneOk(s, b);
      RecoverWindowOk(SquashOne(s).value, b);
    }
  }

  lemma SquashTailLinks(s: State, id: nat)
    requires Ring(s.w)
    ensures s.w.rn > 0 ==> LinkCnt(SquashRuu(s).w, SquashRuu(s).q, id) == LinkCnt(s.w, s.q, id)
    ensures s.w.ln > 0 ==> LinkCnt(SquashLsq(s).w, SquashLsq(s).q, id) == LinkCnt(s.w, s.q, id)
  {
    hide RingPos, FreeList;
    if s.w.rn > 0 {
      SquashLinks(s, RuuTail(s.w), id);
    }
    if s.w.ln > 0 {
      SquashLinks(s, LsqTail(s.w), id);
    }
  }

  lemma SquashOneLinks(s: State, id: nat)
    requires Ring(s.w) && SquashOne(s).Ok?
    ensures var r := SquashOne(s).value; LinkCnt(r.w, r.q, id) == LinkCnt(s.w, s.q, id)
  {
    hide RingPos, LinkCnt;
    SquashTailLinks(s, id);
    if s.w.st[RuuTail(s.w)].kind.Addr? {
      SquashTailLinks(SquashLsq(s), id);
    }
  }

  lemma {:induction false} RecoverLinks(s: State, b: nat, id: nat)
    requires Ring(s.w) && RecoverWindow(s, b).Ok?
    ensures var r := RecoverWindow(s, b).value; LinkCnt(r.w, r.q, id) == LinkCnt(s.w, s.q, id)
    decreases s.w.rn
  {
    hide LinkCnt, SquashOne, Ring;
    if RuuTail(s.w) != b {
      SquashOneLinks(s, id);
      RecoverLinks(SquashOne(s).value, b, id);
    }
  }

  // ---------------------------------------------------------------- the right path is left

  /** With the branch at the tail nothing speculative is left. */
  lemma NothingSpeculative(w: Window, b: int, s: int)
    requires Ring(w) && OrderedRuu(w) && KindsOk(w) && Paired(w) && Doomed(w, b) && RuuTail(w) == b && Live(w, s)
    ensures !w.st[s].spec
  {
    if LiveR(w, s) {
      RuuTailLast(w, s);
    } else {
      var k := RingPos(w.lh, w.nl, s - w.nr);
      assert LsqSlot(w, k) == s;
      EaSlotsLive(w, w.rh, w.rn, k);
      var p := EaSlots(w.st, w.nr, w.rh, w.rn)[k];
      RuuTailLast(w, p);
      assert p != b;
    }
  }

  lemma RecoveredSpec(w: Window, b: int)
    requires Ring(w) && Doomed(w, b) && forall s :: Live(w, s) ==> !w.st[s].spec
    ensures SpecOk(w, false)
  {
    hide RingPos;
  }

  lemma RecoveredVectors(w: Window, v: Vectors, x: int, e: int)
    requires Ring(w) && PreciseOk(w, v.cv, x, e) && |v.scv| == TOTAL_REGS
    requires forall s :: Live(w, s) ==> !w.st[s].spec
    ensures VectorsOk(w, v.(useSpec := {}), x, e)
  {
    forall n: Reg ensures !SpecWriter(w, n) {
      hide RingPos;
    }
    hide SpecWriter, Names, RingPos;
  }
}
