/**
 * Facts about link lists, and which invariants survive changes that leave program order and
 * dependences alone.
 */
module OooFrames {
  import opened OooTypes
  import opened OooStages
  import opened OooInv

  // ---------------------------------------------------------------- link lists

  predicate Hits(l: Link, slot: int, tag: int) {
    l.slot == slot && l.tag == tag
  }

  lemma {:induction false} CntInsert(q: seq<Link>, l: Link, slot: int, tag: int)
    ensures Cnt(InsertSorted(q, l), slot, tag) == Cnt(q, slot, tag) + (if Hits(l, slot, tag) then 1 else 0)
    decreases |q|
  {
    if q == [] || q[0].x >= l.x {
      assert ([l] + q)[1..] == q;
    } else {
      CntInsert(q[1..], l, slot, tag);
      assert ([q[0]] + InsertSorted(q[1..], l))[1..] == InsertSorted(q[1..], l);
    }
  }

  lemma CntCons(l: Link, q: seq<Link>, slot: int, tag: int)
    ensures Cnt([l] + q, slot, tag) == Cnt(q, slot, tag) + (if Hits(l, slot, tag) then 1 else 0)
  {
    assert ([l] + q)[1..] == q;
  }

  /** No link names an instance newer than all tags in the list. */
  lemma {:induction false} CntStale(q: seq<Link>, slot: int, tag: int)
    requires forall k :: 0 <= k < |q| ==> q[k].slot == slot ==> q[k].tag < tag
    ensures Cnt(q, slot, tag) == 0
    ensures forall x :: CntOp(q, slot, tag, x) == 0
    decreases |q|
  {
    if q == [] {
    } else {
      CntStale(q[1..], slot, tag);
    }
  }

  lemma {:induction false} CntFound(q: seq<Link>, k: nat)
    requires k < |q|
    ensures Cnt(q, q[k].slot, q[k].tag) >= 1
    ensures CntOp(q, q[k].slot, q[k].tag, q[k].x) >= 1
    decreases |q|
  {
    if k == 0 {
    } else {
      CntFound(q[1..], k - 1);
    }
  }

  lemma {:induction false} CntWitness(q: seq<Link>, slot: int, tag: int) returns (k: nat)
    requires Cnt(q, slot, tag) >= 1
    ensures k < |q| && Hits(q[k], slot, tag)
    decreases |q|
  {
    if Hits(q[0], slot, tag) {
      k := 0;
    } else {
      var k' := CntWitness(q[1..], slot, tag);
      k := k' + 1;
    }
  }

  lemma {:induction false} InsertMembers(q: seq<Link>, l: Link)
    ensures |InsertSorted(q, l)| == |q| + 1
    ensures forall k :: 0 <= k < |q| + 1 ==> InsertSorted(q, l)[k] == l || InsertSorted(q, l)[k] in q
    decreases |q|
  {
    if q != [] && q[0].x < l.x {
      InsertMembers(q[1..], l);
    }
  }

  lemma {:induction false} InsertKeepsSorted(q: seq<Link>, l: Link)
    requires SortedBy(q)
    ensures SortedBy(InsertSorted(q, l))
    decreases |q|
  {
    if q != [] && q[0].x < l.x {
      InsertKeepsSorted(q[1..], l);
      InsertMembers(q[1..], l);
      var r := InsertSorted(q[1..], l);
      forall k | 0 <= k < |r| ensures q[0].x <= r[k].x {
        if r[k] != l {
          assert r[k] in q[1..];
        }
      }
    }
  }

  lemma {:induction false} IdInsert(q: seq<Link>, l: Link, id: nat)
    ensures IdCnt(InsertSorted(q, l), id) == IdCnt(q, id) + (if l.id == id then 1 else 0)
    decreases |q|
  {
    if q == [] || q[0].x >= l.x {
      assert ([l] + q)[1..] == q;
    } else {
      IdInsert(q[1..], l, id);
      assert ([q[0]] + InsertSorted(q[1..], l))[1..] == InsertSorted(q[1..], l);
    }
  }

  lemma IdCons(l: Link, q: seq<Link>, id: nat)
    ensures IdCnt([l] + q, id) == IdCnt(q, id) + (if l.id == id then 1 else 0)
  {
    assert ([l] + q)[1..] == q;
  }

  lemma FreeCons(l: Link, q: Queues, id: nat)
    ensures FreeCnt(FreeLink(q, l).free, id) == FreeCnt(q.free, id) + (if l.id == id then 1 else 0)
  {
    assert ([l.id] + q.free)[1..] == q.free;
  }

  lemma {:induction false} FreeListCnt(q: Queues, chain: seq<Link>, id: nat)
    ensures FreeCnt(FreeList(q, chain).free, id) == FreeCnt(q.free, id) + IdCnt(chain, id)
    decreases |chain|
  {
    if chain == [] {
    } else {
      FreeCons(chain[0], q, id);
      FreeListCnt(FreeLink(q, chain[0]), chain[1..], id);
    }
  }

  lemma {:induction false} ChainCntUpdate(st: seq<Station>, i: nat, rs: Station, id: nat)
    requires i < |st|
    ensures ChainCnt(st[i := rs], id) + StationCnt(st[i], id) == ChainCnt(st, id) + StationCnt(rs, id)
    decreases |st|
  {
    if i == 0 {
      assert st[i := rs][1..] == st[1..];
    } else {
      ChainCntUpdate(st[1..], i - 1, rs, id);
      assert st[i := rs][1..] == st[1..][i - 1 := rs];
    }
  }

  lemma {:induction false} ChainCntSame(st: seq<Station>, st': seq<Station>, id: nat)
    requires |st| == |st'|
    requires forall s :: 0 <= s < |st| ==> st'[s].odeps == st[s].odeps
    ensures ChainCnt(st', id) == ChainCnt(st, id)
    decreases |st|
  {
    if st == [] {
    } else {
      ChainCntSame(st[1..], st'[1..], id);
    }
  }

  // ---------------------------------------------------------------- changes that keep the shape

  /** Same operations in the same order. */
  ghost predicate SameOrder(w: Window, w': Window) {
    && SameRings(w, w')
    && forall s :: 0 <= s < |w.st| ==>
         && w'.st[s].kind == w.st[s].kind && w'.st[s].seqno == w.st[s].seqno
         && w'.st[s].spec == w.st[s].spec && w'.st[s].pc == w.st[s].pc
  }

  /** The same operations are those at which mis-speculation started. */
  ghost predicate SameRecover(w: Window, w': Window) {
    |w'.st| == |w.st| && forall s :: 0 <= s < |w.st| ==> w'.st[s].recover == w.st[s].recover
  }

  /** Moreover with the same outputs. */
  ghost predicate Shape(w: Window, w': Window) {
    && SameOrder(w, w')
    && forall s :: 0 <= s < |w.st| ==>
         w'.st[s].tag == w.st[s].tag && w'.st[s].addr == w.st[s].addr && w'.st[s].onames == w.st[s].onames
  }

  /** Moreover with the same inputs. */
  ghost predicate Alike(w: Window, w': Window) {
    Shape(w, w') && forall s :: 0 <= s < |w.st| ==> w'.st[s].inames == w.st[s].inames
  }

  /** Only the phase of operations changes, and only stores without results complete. */
  ghost predicate Quiet(w: Window, w': Window) {
    && SameRings(w, w')
    && (forall s :: 0 <= s < |w.st| ==>
          w'.st[s] == w.st[s].(queued := w'.st[s].queued, issued := w'.st[s].issued, completed := w'.st[s].completed))
    && (forall s :: 0 <= s < |w.st| && w'.st[s].completed != w.st[s].completed ==>
          s >= w.nr && w.st[s].onames == [NA, NA])
  }

  lemma QuietAlike(w: Window, w': Window)
    requires Quiet(w, w')
    ensures Alike(w, w')
  {
  }

  lemma QuietTrans(w: Window, w': Window, w'': Window)
    requires Quiet(w, w') && Quiet(w', w'')
    ensures Quiet(w, w'')
  {
  }

  lemma SameOrderedRuu(w: Window, w': Window)
    requires Ring(w) && SameOrder(w, w') && OrderedRuu(w)
    ensures OrderedRuu(w')
  {
    hide RingPos;
  }

  lemma SameOrderedLsq(w: Window, w': Window)
    requires Ring(w) && SameOrder(w, w') && OrderedLsq(w)
    ensures OrderedLsq(w')
  {
    hide RingPos;
  }

  lemma OrderNumbered(w: Window, w': Window)
    requires Ring(w) && SameOrder(w, w') && SameRecover(w, w') && Numbered(w) && KindsOk(w)
    ensures Numbered(w') && KindsOk(w')
  {
    hide RingPos;
  }

  lemma SameOrdered(w: Window, w': Window)
    requires Ring(w) && SameOrder(w, w') && SameRecover(w, w') && Ordered(w)
    ensures Ordered(w')
  {
    SameOrderedRuu(w, w');
    SameOrderedLsq(w, w');
    OrderNumbered(w, w');
    hide OrderedRuu, OrderedLsq, Numbered, KindsOk;
  }

  lemma {:induction false} EaSlotsSame(st: seq<Station>, st': seq<Station>, nr: nat, head: nat, n: nat)
    requires head < nr <= |st| == |st'|
    requires n <= nr
    requires forall s :: 0 <= s < nr && RingPos(head, nr, s) < n ==> st'[s].kind == st[s].kind
    ensures EaSlots(st', nr, head, n) == EaSlots(st, nr, head, n)
    decreases n
  {
    if n == 0 {
    } else {
      assert RingPos(head, nr, head) == 0;
      EaSlotsSame(st, st', nr, Wrap(head + 1, nr), n - 1);
    }
  }

  lemma {:induction false} RightPathSame(st: seq<Station>, st': seq<Station>, nr: nat, head: nat, n: nat)
    requires head < nr <= |st| == |st'|
    requires n <= nr
    requires forall s :: 0 <= s < nr && RingPos(head, nr, s) < n ==>
      st'[s].spec == st[s].spec && st'[s].seqno == st[s].seqno && st'[s].pc == st[s].pc
    ensures RightPath(st', nr, head, n) == RightPath(st, nr, head, n)
    decreases n
  {
    if n == 0 {
    } else {
      assert RingPos(head, nr, head) == 0;
      RightPathSame(st, st', nr, Wrap(head + 1, nr), n - 1);
    }
  }

  lemma OrderPaired(w: Window, w': Window)
    requires Ring(w) && SameOrder(w, w') && Paired(w)
    ensures Paired(w')
  {
    EaSlotsSame(w.st, w'.st, w.nr, w.rh, w.rn);
  }

  lemma OrderHistory(w: Window, w': Window, h: History)
    requires Ring(w) && SameOrder(w, w') && HistoryOk(w, h)
    ensures HistoryOk(w', h)
  {
    RightPathSame(w.st, w'.st, w.nr, w.rh, w.rn);
  }

  lemma QuietSpec(w: Window, w': Window, m: bool)
    requires Ring(w) && Quiet(w, w') && SpecOk(w, m)
    ensures SpecOk(w', m)
  {
    if m {
      var b :| Pending(w, b);
      assert Pending(w', b);
    }
    forall b | Pending(w', b) ensures Pending(w, b) {
    }
  }

  lemma ShapeYoungest(w: Window, w': Window, n: Reg, before: int, p: int, i: int)
    requires Ring(w) && Shape(w, w')
    ensures Youngest(w', n, before, p, i) <==> Youngest(w, n, before, p, i)
  {
    forall p', i' ensures Writes(w', p', i', n) == Writes(w, p', i', n) {
    }
  }

  lemma ShapeYoungestIn(w: Window, w': Window, n: Reg, spec: bool, p: int, i: int)
    requires Ring(w) && Shape(w, w')
    ensures YoungestIn(w', n, spec, p, i) <==> YoungestIn(w, n, spec, p, i)
  {
    forall p', i' ensures Writes(w', p', i', n) == Writes(w, p', i', n) {
    }
  }

  lemma QuietNames(w: Window, w': Window, x: int, e: int, n: Reg, spec: bool, c: Creator)
    requires Ring(w) && Quiet(w, w') && n != NA && Names(w, x, e, n, spec, c)
    ensures Names(w', x, e, n, spec, c)
  {
    QuietAlike(w, w');
    forall p, i ensures YoungestIn(w', n, spec, p, i) <==> YoungestIn(w, n, spec, p, i) {
      ShapeYoungestIn(w, w', n, spec, p, i);
    }
    forall p, i | YoungestIn(w, n, spec, p, i) ensures Done(w', x, e, p, i) == Done(w, x, e, p, i) {
    }
  }

  lemma ShapeSpecWriter(w: Window, w': Window, n: Reg)
    requires Ring(w) && Shape(w, w')
    ensures SpecWriter(w', n) <==> SpecWriter(w, n)
  {
    forall p, i ensures Writes(w', p, i, n) == Writes(w, p, i, n) {
    }
  }

  lemma QuietVectors(w: Window, w': Window, v: Vectors, x: int, e: int)
    requires Ring(w) && Quiet(w, w') && VectorsOk(w, v, x, e)
    ensures VectorsOk(w', v, x, e)
  {
    QuietAlike(w, w');
    forall n: Reg | n != NA
      ensures Names(w', x, e, n, false, v.cv[n])
      ensures n in v.useSpec ==> Names(w', x, e, n, true, v.scv[n]) && SpecWriter(w', n)
      ensures n !in v.useSpec ==> !SpecWriter(w', n)
    {
      QuietNames(w, w', x, e, n, false, v.cv[n]);
      ShapeSpecWriter(w, w', n);
      if n in v.useSpec {
        QuietNames(w, w', x, e, n, true, v.scv[n]);
      }
      hide Names, SpecWriter;
    }
  }

  lemma QuietOperand(w: Window, w': Window, x: int, e: int, s: int, j: int)
    requires Ring(w) && Quiet(w, w') && Live(w, s) && 0 <= j < 3
    ensures Delivered(w, x, e, s, j) ==> Delivered(w', x, e, s, j)
    ensures HasSource(w, s, j) ==> HasSource(w', s, j)
  {
    QuietAlike(w, w');
    var n := w.st[s].inames[j];
    forall p, i ensures Youngest(w', n, w.st[s].seqno, p, i) <==> Youngest(w, n, w.st[s].seqno, p, i) {
      ShapeYoungest(w, w', n, w.st[s].seqno, p, i);
    }
    if n != NA {
      forall p, i | Youngest(w, n, w.st[s].seqno, p, i) ensures Done(w', x, e, p, i) == Done(w, x, e, p, i) {
      }
    }
  }

  lemma QuietChain(w: Window, w': Window, x: int, e: int, p: int, i: int)
    requires Ring(w) && Quiet(w, w') && 0 <= p < |w.st| && 0 <= i < 2 && ChainOk(w, x, e, p, i)
    ensures ChainOk(w', x, e, p, i)
  {
    QuietAlike(w, w');
    forall s, j | 0 <= s < |w.st| && 0 <= j < 3 ensures Waits(w', s, j, p, i) <==> Waits(w, s, j, p, i) {
      ShapeYoungest(w, w', w.st[s].inames[j], w.st[s].seqno, p, i);
      hide Youngest;
    }
    hide Waits;
  }

  lemma QuietOperands(w: Window, w': Window, x: int, e: int)
    requires Ring(w) && Quiet(w, w') && OperandsOk(w, x, e)
    ensures OperandsOk(w', x, e)
  {
    forall s, j | Live(w, s) && 0 <= j < 3
      ensures Delivered(w, x, e, s, j) ==> Delivered(w', x, e, s, j)
      ensures HasSource(w, s, j) ==> HasSource(w', s, j)
    {
      QuietOperand(w, w', x, e, s, j);
    }
    forall p, i | 0 <= p < |w.st| && 0 <= i < 2 ensures ChainOk(w', x, e, p, i) {
      QuietChain(w, w', x, e, p, i);
    }
    hide Delivered, HasSource, ChainOk, RingPos;
  }

  lemma QuietClear(w: Window, w': Window, addr: int, before: int)
    requires Ring(w) && Quiet(w, w') && MemoryClear(w, addr, before)
    ensures MemoryClear(w', addr, before)
  {
    hide RingPos;
    forall t ensures OlderStore(w', t, before) <==> OlderStore(w, t, before) {
    }
  }

  /** Phase changes keep program order, speculation, dependences and histories. */
  lemma QuietBody(s: State, s': State, x: int, e: int)
    requires BodyOk(s, x, e) && Quiet(s.w, s'.w)
    requires s'.v == s.v && s'.f.specMode == s.f.specMode && s'.h == s.h
    ensures BodyOk(s', x, e)
  {
    QuietAlike(s.w, s'.w);
    SameOrdered(s.w, s'.w);
    OrderPaired(s.w, s'.w);
    QuietSpec(s.w, s'.w, s.f.specMode);
    QuietVectors(s.w, s'.w, s.v, x, e);
    QuietOperands(s.w, s'.w, x, e);
    OrderHistory(s.w, s'.w, s.h);
    hide Ordered, Paired, SpecOk, VectorsOk, OperandsOk, HistoryOk;
  }

  /** Nothing that scheduling looks at differs. */
  ghost predicate SameSched(w: Window, w': Window) {
    && SameRings(w, w')
    && forall s :: 0 <= s < |w.st| ==>
         && w'.st[s].kind == w.st[s].kind && w'.st[s].addr == w.st[s].addr && w'.st[s].seqno == w.st[s].seqno
         && w'.st[s].ready == w.st[s].ready && w'.st[s].queued == w.st[s].queued && w'.st[s].issued == w.st[s].issued
  }

  lemma SameSchedClear(w: Window, w': Window, addr: int, before: int)
    requires Ring(w) && SameSched(w, w') && MemoryClear(w, addr, before)
    ensures MemoryClear(w', addr, before)
  {
    hide RingPos;
    forall t ensures OlderStore(w', t, before) <==> OlderStore(w, t, before) {
    }
    forall t | YoungestStore(w', t, addr, before) ensures YoungestStore(w, t, addr, before) {
    }
  }

  lemma SameSchedFlow(w: Window, w': Window)
    requires Ring(w) && SameSched(w, w')
    ensures LoadsOk(w) ==> LoadsOk(w')
    ensures ProgressOk(w) ==> ProgressOk(w')
  {
    hide RingPos;
    if LoadsOk(w) {
      forall t | LiveL(w', t) && w'.st[t].kind.Load? && (w'.st[t].queued || w'.st[t].issued)
        ensures MemoryClear(w', w'.st[t].addr, w'.st[t].seqno)
      {
        SameSchedClear(w, w', w.st[t].addr, w.st[t].seqno);
        hide MemoryClear;
      }
      hide MemoryClear;
    }
  }
}
