/**
 * ruu_commit: the oldest operation retires, together with its LSQ half.
 */
module OooCommit {
  import opened OooTypes
  import opened OooStages
  import opened OooInv
  import opened OooFrames
  import opened OooDrop

  // ---------------------------------------------------------------- the rings

  lemma RetireRuuDrops(w: Window)
    requires Ring(w) && w.rn > 0 && w.st[w.rh].odeps == BlankChains()
    ensures Drops(w, RetireRuu(w), w.rh)
  {
  }

  lemma RetireLsqDrops(w: Window)
    requires Ring(w) && w.ln > 0 && w.st[w.nr + w.lh].odeps == BlankChains()
    ensures Drops(w, RetireLsq(w), w.nr + w.lh)
  {
  }

  lemma RetireRuuOrdered(w: Window)
    requires Ring(w) && w.rn > 0 && OrderedRuu(w) && OrderedLsq(w)
    ensures OrderedRuu(RetireRuu(w)) && OrderedLsq(RetireRuu(w))
  {
    var w' := RetireRuu(w);
    forall s | LiveR(w', s) ensures LiveR(w, s) && RingPos(w'.rh, w.nr, s) == RingPos(w.rh, w.nr, s) - 1 &&
      w'.st[s] == w.st[s] {
    }
    hide RingPos;
  }

  lemma RetireLsqOrdered(w: Window)
    requires Ring(w) && w.ln > 0 && OrderedRuu(w) && OrderedLsq(w)
    ensures OrderedRuu(RetireLsq(w)) && OrderedLsq(RetireLsq(w))
  {
    var w' := RetireLsq(w);
    forall s | LiveL(w', s)
      ensures LiveL(w, s) && RingPos(w'.lh, w.nl, s - w.nr) == RingPos(w.lh, w.nl, s - w.nr) - 1 && w'.st[s] == w.st[s]
    {
    }
    hide RingPos;
  }

  /** Retiring the two halves in either order is the same. */
  lemma RetireCommutes(w: Window)
    requires Ring(w) && w.rn > 0 && w.ln > 0
    ensures RetireRuu(RetireLsq(w)) == RetireLsq(RetireRuu(w))
  {
    assert RetireRuu(RetireLsq(w)).st == RetireLsq(RetireRuu(w)).st;
  }

  // ---------------------------------------------------------------- who is oldest

  lemma {:induction false} EaSlotsLive(w: Window, head: nat, n: nat, k: nat)
    requires Ring(w) && n <= w.rn && head == Wrap(w.rh + (w.rn - n), w.nr)
    requires k < |EaSlots(w.st, w.nr, head, n)|
    ensures var s := EaSlots(w.st, w.nr, head, n)[k]; LiveR(w, s) && w.st[s].kind.Addr?
    decreases n
  {
    if n == 0 {
    } else {
      if w.st[head].kind.Addr? && k == 0 {
      } else {
        var k' := if w.st[head].kind.Addr? then k - 1 else k;
        EaSlotsLive(w, Wrap(head + 1, w.nr), n - 1, k');
      }
    }
  }

  lemma RuuHeadFirst(w: Window, s: int)
    requires Ring(w) && OrderedRuu(w) && w.rn > 0 && LiveR(w, s)
    ensures LiveR(w, w.rh) && (s != w.rh ==> w.st[w.rh].seqno < w.st[s].seqno)
  {
  }

  lemma LsqHeadFirst(w: Window, s: int)
    requires Ring(w) && OrderedLsq(w) && w.ln > 0 && LiveL(w, s)
    ensures LiveL(w, w.nr + w.lh) && (s != w.nr + w.lh ==> w.st[w.nr + w.lh].seqno < w.st[s].seqno)
  {
  }

  /** The RUU head is older than everything else in the machine. */
  lemma RuuHeadOldest(w: Window, s: int)
    requires Ring(w) && OrderedRuu(w) && Paired(w) && w.rn > 0 && Live(w, s) && s != w.rh
    ensures LiveR(w, w.rh) && w.st[w.rh].seqno < w.st[s].seqno
  {
    if LiveR(w, s) {
      RuuHeadFirst(w, s);
    } else {
      var k := RingPos(w.lh, w.nl, s - w.nr);
      assert LsqSlot(w, k) == s;
      EaSlotsLive(w, w.rh, w.rn, k);
      RuuHeadFirst(w, EaSlots(w.st, w.nr, w.rh, w.rn)[k]);
    }
  }

  /** An address computation at the RUU head has its other half at the LSQ head. */
  lemma HeadsPaired(w: Window)
    requires Ring(w) && KindsOk(w) && Paired(w) && w.rn > 0 && w.st[w.rh].kind.Addr?
    ensures w.ln > 0 && LiveL(w, w.nr + w.lh) && InLsq(w.st[w.nr + w.lh])
    ensures w.st[w.nr + w.lh].seqno == w.st[w.rh].seqno + 1
  {
    assert EaSlots(w.st, w.nr, w.rh, w.rn)[0] == w.rh;
    assert LsqSlot(w, 0) == w.nr + w.lh;
  }

  // ---------------------------------------------------------------- pairing and histories

  lemma RetireEa(w: Window)
    requires Ring(w) && w.rn > 0
    ensures EaSlots(w.st, w.nr, w.rh, w.rn) ==
      (if w.st[w.rh].kind.Addr? then [w.rh] else []) + EaSlots(RetireRuu(w).st, w.nr, RetireRuu(w).rh, RetireRuu(w).rn)
  {
    EaSlotsSame(w.st, RetireRuu(w).st, w.nr, RetireRuu(w).rh, RetireRuu(w).rn);
  }

  lemma RetireAluPaired(w: Window)
    requires Ring(w) && w.rn > 0 && Paired(w) && !w.st[w.rh].kind.Addr?
    ensures Paired(RetireRuu(w))
  {
    var w' := RetireRuu(w);
    assert Ring(w');
    hide RingPos, EaSlots, Wrap;
    var ea := EaSlots(w.st, w.nr, w.rh, w.rn);
    RetireEa(w);
    assert EaSlots(w'.st, w.nr, w'.rh, w'.rn) == ea;
    forall k | 0 <= k < w.ln ensures w'.st[LsqSlot(w', k)].seqno == w'.st[ea[k]].seqno + 1 {
      assert LsqSlot(w', k) == LsqSlot(w, k);
    }
  }

  lemma RetirePairPaired(w: Window)
    requires Ring(w) && w.rn > 0 && w.ln > 0 && Paired(w) && w.st[w.rh].kind.Addr?
    ensures Paired(RetireLsq(RetireRuu(w)))
  {
    hide EaSlots, RingPos;
    var w1 := RetireRuu(w);
    var w2 := RetireLsq(w1);
    var ea := EaSlots(w.st, w.nr, w.rh, w.rn);
    var ea' := EaSlots(w2.st, w2.nr, w2.rh, w2.rn);
    RetireEa(w);
    EaSlotsSame(w1.st, w2.st, w.nr, w2.rh, w2.rn);
    assert ea == [w.rh] + ea';
    forall k | 0 <= k < w2.ln ensures w2.st[LsqSlot(w2, k)].seqno == w2.st[ea'[k]].seqno + 1 {
      assert LsqSlot(w2, k) == LsqSlot(w, k + 1);
      assert ea'[k] == ea[k + 1];
    }
  }

  lemma RetireHistory(w: Window, h: History)
    requires Ring(w) && w.rn > 0 && HistoryOk(w, h) && !w.st[w.rh].spec
    ensures HistoryOk(RetireRuu(w), h.(retired := h.retired + [Entry(w.st[w.rh].seqno, w.st[w.rh].pc)]))
  {
    var w' := RetireRuu(w);
    RightPathSame(w.st, w'.st, w.nr, w'.rh, w'.rn);
  }

  lemma RetireLsqHistory(w: Window, h: History)
    requires Ring(w) && w.ln > 0 && HistoryOk(w, h)
    ensures HistoryOk(RetireLsq(w), h)
  {
    RightPathSame(w.st, RetireLsq(w).st, w.nr, w.rh, w.rn);
  }

  // ---------------------------------------------------------------- speculation

  lemma DropOldSpec(w: Window, w': Window, d: int, m: bool)
    requires Drops(w, w', d) && SpecOk(w, m) && !(w.st[d].recover && !w.st[d].completed)
    ensures SpecOk(w', m)
  {
    hide RingPos;
    forall b ensures Pending(w', b) <==> Pending(w, b) {
    }
  }

  /** The oldest operation is on the right path. */
  lemma OldestNotSpec(w: Window, d: int, m: bool)
    requires Ring(w) && SpecOk(w, m) && Live(w, d)
    requires forall s :: Live(w, s) && s != d ==> w.st[d].seqno < w.st[s].seqno
    ensures !w.st[d].spec
  {
    hide RingPos;
    if m {
      var b :| Pending(w, b);
    }
  }

  // ---------------------------------------------------------------- one retirement

  /** Everything that does not depend on the rings' heads and tails. */
  ghost predicate RestOk(w: Window, q: Queues, v: Vectors, m: bool)
    requires Ring(w)
  {
    && Numbered(w) && KindsOk(w) && VectorsOk(w, v, 0, 2) && OperandsOk(w, 0, 2) && SpecOk(w, m)
    && LifeOk(w, q, []) && ProgressOk(w) && LoadsOk(w)
  }

  ghost predicate Oldest(w: Window, d: int)
    requires Ring(w)
  {
    Live(w, d) && forall s :: Live(w, s) && s != d ==> w.st[d].seqno < w.st[s].seqno
  }

  lemma DropOldVectors(w: Window, w': Window, d: int, v: Vectors)
    requires Drops(w, w', d) && VectorsOk(w, v, 0, 2) && Oldest(w, d) && w.st[d].completed && !w.st[d].spec
    ensures VectorsOk(w', v, 0, 2)
  {
    forall n: Reg | n != NA
      ensures Names(w', 0, 2, n, false, v.cv[n])
      ensures n in v.useSpec ==> Names(w', 0, 2, n, true, v.scv[n]) && SpecWriter(w', n)
      ensures n !in v.useSpec ==> !SpecWriter(w', n)
    {
      DropNames(w, w', d, 0, 2, n, false, v.cv[n]);
      DropSpecWriter(w, w', d, n);
      if n in v.useSpec {
        DropNames(w, w', d, 0, 2, n, true, v.scv[n]);
      }
      hide Names, SpecWriter, RingPos;
    }
    hide Names, SpecWriter, RingPos;
  }

  /** Retiring the oldest operation, once it has completed, keeps everything. */
  lemma DropOldRest(w: Window, w': Window, d: int, q: Queues, v: Vectors, m: bool)
    requires Drops(w, w', d) && RestOk(w, q, v, m) && Oldest(w, d) && w.st[d].completed
    ensures RestOk(w', q, v, m) && !w.st[d].spec
  {
    OldestNotSpec(w, d, m);
    assert AtEnd(w, 0, 2, d);
    DropNumbered(w, w', d);
    DropOldVectors(w, w', d, v);
    DropOperands(w, w', d, 0, 2);
    DropOldSpec(w, w', d, m);
    DropLife(w, w', d, q);
    DropFlow(w, w', d, 0, 2);
    hide Numbered, KindsOk, VectorsOk, OperandsOk, SpecOk, LifeOk, ProgressOk, LoadsOk, RingPos, Drops;
  }

  /** A completed operation has no consumers left on its output chains. */
  lemma CompletedChains(w: Window, d: int)
    requires Ring(w) && OperandsOk(w, 0, 2) && 0 <= d < |w.st| && w.st[d].completed
    ensures w.st[d].odeps == BlankChains()
  {
    assert ChainOk(w, 0, 2, d, 0) && ChainOk(w, 0, 2, d, 1);
    assert w.st[d].odeps == [w.st[d].odeps[0], w.st[d].odeps[1]];
    hide Waits, RingPos;
  }

  lemma RuuHeadIsOldest(w: Window)
    requires Ring(w) && OrderedRuu(w) && Paired(w) && w.rn > 0
    ensures Oldest(w, w.rh)
  {
    assert LiveR(w, w.rh);
    forall s | Live(w, s) && s != w.rh ensures w.st[w.rh].seqno < w.st[s].seqno {
      RuuHeadOldest(w, s);
    }
    hide RingPos, Paired;
  }

  /** Once its RUU half has retired, the LSQ head is the oldest operation. */
  lemma LsqHeadIsOldest(w: Window)
    requires Ring(w) && OrderedRuu(w) && OrderedLsq(w) && Numbered(w) && KindsOk(w) && Paired(w)
    requires w.rn > 0 && w.st[w.rh].kind.Addr? && w.ln > 0
    ensures Oldest(RetireRuu(w), w.nr + w.lh)
  {
    var w1 := RetireRuu(w);
    var d := w.nr + w.lh;
    HeadsPaired(w);
    assert LiveL(w1, d) && w1.st[d] == w.st[d];
    forall s | Live(w1, s) && s != d ensures w1.st[d].seqno < w1.st[s].seqno {
      if LiveL(w1, s) {
        LsqHeadFirst(w, s);
      } else {
        assert LiveR(w, s) && s != w.rh;
        RuuHeadFirst(w, s);
      }
    }
    hide RingPos, Paired;
  }

  // ---------------------------------------------------------------- the stage

  /** The part of the body that the rings decide. */
  ghost predicate RingsOk(w: Window, h: History)
    requires Ring(w)
  {
    OrderedRuu(w) && OrderedLsq(w) && Paired(w) && HistoryOk(w, h)
  }

  lemma RetireAlu(w: Window, q: Queues, v: Vectors, m: bool, h: History)
    requires Ring(w) && RestOk(w, q, v, m) && RingsOk(w, h)
    requires w.rn > 0 && w.st[w.rh].completed && !w.st[w.rh].kind.Addr?
    ensures var w' := RetireRuu(w);
      Ring(w') && RestOk(w', q, v, m) &&
        RingsOk(w', h.(retired := h.retired + [Entry(w.st[w.rh].seqno, w.st[w.rh].pc)]))
  {
    RuuHeadIsOldest(w);
    CompletedChains(w, w.rh);
    RetireRuuDrops(w);
    DropOldRest(w, RetireRuu(w), w.rh, q, v, m);
    RetireRuuOrdered(w);
    RetireAluPaired(w);
    RetireHistory(w, h);
    hide RestOk, OrderedRuu, OrderedLsq, Paired, HistoryOk, RingPos;
  }

  lemma RestParts(w: Window, q: Queues, v: Vectors, m: bool)
    requires Ring(w) && RestOk(w, q, v, m)
    ensures OperandsOk(w, 0, 2) && Numbered(w) && KindsOk(w)
  {
  }

  lemma RetireFirst(w: Window, q: Queues, v: Vectors, m: bool, h: History)
    requires Ring(w) && RestOk(w, q, v, m) && RingsOk(w, h)
    requires w.rn > 0 && w.st[w.rh].completed && w.st[w.rh].kind.Addr? && w.ln > 0
    ensures var w1 := RetireRuu(w);
      && Ring(w1) && RestOk(w1, q, v, m) && OrderedRuu(w1) && OrderedLsq(w1) && Oldest(w1, w1.nr + w1.lh)
      && HistoryOk(w1, h.(retired := h.retired + [Entry(w.st[w.rh].seqno, w.st[w.rh].pc)]))
  {
    hide RestOk, OperandsOk, Numbered, KindsOk, OrderedRuu, OrderedLsq, Paired, HistoryOk, RingPos, Oldest;
    RestParts(w, q, v, m);
    RuuHeadIsOldest(w);
    CompletedChains(w, w.rh);
    RetireRuuDrops(w);
    DropOldRest(w, RetireRuu(w), w.rh, q, v, m);
    LsqHeadIsOldest(w);
    RetireRuuOrdered(w);
    RetireHistory(w, h);
  }

  lemma RetireSecond(w: Window, q: Queues, v: Vectors, m: bool, h: History)
    requires Ring(w) && RestOk(w, q, v, m) && OrderedRuu(w) && OrderedLsq(w) && HistoryOk(w, h)
    requires w.ln > 0 && w.st[w.nr + w.lh].completed && Oldest(w, w.nr + w.lh)
    ensures var w' := RetireLsq(w);
      && Ring(w') && RestOk(w', q, v, m) && OrderedRuu(w') && OrderedLsq(w') && HistoryOk(w', h)
  {
    hide RestOk, OperandsOk, Numbered, KindsOk, OrderedRuu, OrderedLsq, Paired, HistoryOk, RingPos, Oldest;
    RestParts(w, q, v, m);
    CompletedChains(w, w.nr + w.lh);
    RetireLsqDrops(w);
    DropOldRest(w, RetireLsq(w), w.nr + w.lh, q, v, m);
    RetireLsqOrdered(w);
    RetireLsqHistory(w, h);
  }

  lemma RetirePair(w: Window, q: Queues, v: Vectors, m: bool, h: History)
    requires Ring(w) && RestOk(w, q, v, m) && RingsOk(w, h)
    requires w.rn > 0 && w.st[w.rh].completed && w.st[w.rh].kind.Addr? && w.ln > 0 && w.st[w.nr + w.lh].completed
    ensures var w' := RetireLsq(RetireRuu(w));
      Ring(w') && RestOk(w', q, v, m) &&
        RingsOk(w', h.(retired := h.retired + [Entry(w.st[w.rh].seqno, w.st[w.rh].pc)]))
  {
    hide RestOk, OrderedRuu, OrderedLsq, Paired, HistoryOk, RingPos, Oldest;
    RetireFirst(w, q, v, m, h);
    RetireSecond(RetireRuu(w), q, v, m, h.(retired := h.retired + [Entry(w.st[w.rh].seqno, w.st[w.rh].pc)]));
    RetirePairPaired(w);
  }

  lemma SplitCore(c: Config, s: State, from: nat)
    ensures CoreOk(c, s, from) <==>
      && Ring(s.w) && RestOk(s.w, s.q, s.v, s.f.specMode) && RingsOk(s.w, s.h)
      && EventsOk(s.q, from) && LinksOk(c, s.w, s.q) && FrontOk(c, s.f, s.h)
      && s.w.nr == c.nr && s.w.nl == c.nl
  {
    hide OrderedRuu, OrderedLsq, Numbered, KindsOk, Paired, SpecOk, VectorsOk, OperandsOk, HistoryOk;
    hide LifeOk, ProgressOk, LoadsOk, EventsOk, LinksOk, FrontOk;
  }

  lemma CoreSized(c: Config, s: State, from: nat)
    requires CoreOk(c, s, from)
    ensures Sized(s)
  {
  }

  lemma RetireLinks(w: Window, q: Queues, id: nat)
    requires Ring(w)
    ensures w.rn > 0 ==> LinkCnt(RetireRuu(w), q, id) == LinkCnt(w, q, id)
    ensures w.ln > 0 ==> LinkCnt(RetireLsq(w), q, id) == LinkCnt(w, q, id)
  {
    if w.rn > 0 {
      ChainCntSame(w.st, RetireRuu(w).st, id);
    }
    if w.ln > 0 {
      ChainCntSame(w.st, RetireLsq(w).st, id);
    }
  }

  lemma FrontRetired(c: Config, f: Front, h: History, r: seq<Entry>)
    requires FrontOk(c, f, h)
    ensures FrontOk(c, f, h.(retired := r))
  {
  }

  /** From `s` to `s'` instructions have only retired. */
  ghost predicate OnlyRetires(s: State, s': State) {
    s' == s.(w := s'.w, h := s.h.(retired := s'.h.retired)) && s.h.retired <= s'.h.retired
  }

  lemma RetiresRefl(s: State)
    ensures OnlyRetires(s, s)
  {
  }

  lemma RetiresTrans(s: State, s1: State, s2: State)
    requires OnlyRetires(s, s1) && OnlyRetires(s1, s2)
    ensures OnlyRetires(s, s2)
  {
  }

  /** Retiring one instruction. */
  lemma CommitOneOk(c: Config, s: State, port: bool, from: nat)
    requires CoreOk(c, s, from)
    ensures match CommitOne(s, port)
      case Halt(_) => false
      case Stop => true
      case Next(r) =>
        && CoreOk(c, r, from) && OnlyRetires(s, r)
        && r.h.retired == s.h.retired + [Entry(s.w.st[s.w.rh].seqno, s.w.st[s.w.rh].pc)]
  {
    assert Sized(s);
    SplitCore(c, s, from);
    if s.w.rn > 0 && s.w.st[s.w.rh].completed {
      CompletedChains(s.w, s.w.rh);
      if s.w.st[s.w.rh].kind.Addr? {
        HeadsPaired(s.w);
      }
      match CommitOne(s, port)
      case Halt(_) =>
      case Stop =>
      case Next(r) => CommitNext(c, s, port, from, r);
    }
    hide CoreOk, RestOk, RingsOk, EventsOk, LinksOk, FrontOk, RingPos;
  }

  lemma CommitNext(c: Config, s: State, port: bool, from: nat, r: State)
    requires CoreOk(c, s, from) && Sized(s) && CommitOne(s, port) == Next(r)
    ensures CoreOk(c, r, from)
  {
    hide RestOk, RingsOk, EventsOk, LinkCnt, FrontOk, RingPos, CoreOk;
    SplitCore(c, s, from);
    SplitCore(c, r, from);
    var w := s.w;
    if w.st[w.rh].kind.Addr? {
      RetireCommutes(w);
      RetirePair(w, s.q, s.v, s.f.specMode, s.h);
      forall id: nat ensures LinkCnt(r.w, r.q, id) == LinkCnt(w, s.q, id) {
        RetireLinks(w, s.q, id);
        RetireLinks(RetireRuu(w), s.q, id);
      }
    } else {
      RetireAlu(w, s.q, s.v, s.f.specMode, s.h);
      forall id: nat ensures LinkCnt(r.w, r.q, id) == LinkCnt(w, s.q, id) {
        RetireLinks(w, s.q, id);
      }
    }
    FrontRetired(c, s.f, s.h, r.h.retired);
  }

  /** ruu_commit never stops on an inconsistency, keeps the core invariant and only appends to what has retired. */
  lemma {:induction false} CommitOk(c: Config, s: State, width: nat, ports: nat -> bool, from: nat)
    requires CoreOk(c, s, from)
    ensures match Commit(s, width, ports)
      case Panic(_) => false
      case Ok(r) => CoreOk(c, r, from) && OnlyRetires(s, r)
    decreases width
  {
    hide CoreOk, CommitOne, Ring, OnlyRetires;
    CoreSized(c, s, from);
    RetiresRefl(s);
    if width == 0 {
    } else {
      CommitOneOk(c, s, ports(width), from);
      match CommitOne(s, ports(width))
      case Stop =>
      case Halt(_) =>
      case Next(s1) =>
        CommitOk(c, s1, width - 1, ports, from);
        RetiresTrans(s, s1, Commit(s1, width - 1, ports).value);
    }
  }
}
