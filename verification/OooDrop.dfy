/**
 * One operation leaves the window: the oldest one at commit, the youngest one at a squash.
 */
module OooDrop {
  import opened OooTypes
  import opened OooStages
  import opened OooInv
  import opened OooFrames
  import opened OooQueues

  /** The operation in `d` has left; its slot has a new tag and empty chains. */
  ghost predicate Drops(w: Window, w': Window, d: int) {
    && Ring(w) && Ring(w') && w'.nr == w.nr && w'.nl == w.nl && w'.lastSeq == w.lastSeq
    && Live(w, d)
    && (forall s :: LiveR(w', s) <==> LiveR(w, s) && s != d)
    && (forall s :: LiveL(w', s) <==> LiveL(w, s) && s != d)
    && w'.st == w.st[d := w.st[d].(tag := w.st[d].tag + 1, odeps := BlankChains())]
  }

  /** `d` is the oldest operation and has delivered its results, or it is the youngest one. */
  ghost predicate AtEnd(w: Window, x: int, e: int, d: int)
    requires Ring(w) && Live(w, d)
  {
    || (Done(w, x, e, d, 0) && Done(w, x, e, d, 1) && forall s :: Live(w, s) && s != d ==>
      w.st[d].seqno < w.st[s].seqno)
    || (forall s :: Live(w, s) && s != d ==> w.st[s].seqno < w.st[d].seqno)
  }

  lemma DropNumbered(w: Window, w': Window, d: int)
    requires Drops(w, w', d) && Numbered(w) && KindsOk(w)
    ensures Numbered(w') && KindsOk(w')
  {
    hide RingPos;
  }

  // ---------------------------------------------------------------- scheduling

  lemma DropSlot(w: Window, w': Window, d: int, q: Queues, s: int)
    requires Drops(w, w', d) && LifeOk(w, q, []) && 0 <= s < |w.st|
    ensures SlotOk(w', q, [], s)
  {
    assert SlotOk(w, q, [], s);
    if s == d {
      CntStale(q.readyq, d, w'.st[d].tag);
      CntStale(q.events, d, w'.st[d].tag);
    }
    hide RingPos;
  }

  lemma DropLife(w: Window, w': Window, d: int, q: Queues)
    requires Drops(w, w', d) && LifeOk(w, q, [])
    ensures LifeOk(w', q, [])
  {
    TagsKept(q.readyq, w.st, w'.st);
    TagsKept(q.events, w.st, w'.st);
    forall s | 0 <= s < |w.st| ensures SlotOk(w', q, [], s) {
      DropSlot(w, w', d, q, s);
    }
    hide SlotOk, RingPos;
  }

  lemma DropClear(w: Window, w': Window, d: int, x: int, e: int, s: int)
    requires Drops(w, w', d) && AtEnd(w, x, e, d) && LiveL(w', s)
    requires MemoryClear(w, w.st[s].addr, w.st[s].seqno)
    ensures MemoryClear(w', w.st[s].addr, w.st[s].seqno)
  {
    hide RingPos;
    var addr, before := w.st[s].addr, w.st[s].seqno;
    forall t ensures OlderStore(w', t, before) <==> OlderStore(w, t, before) && t != d {
    }
    forall t | YoungestStore(w', t, addr, before) ensures YoungestStore(w, t, addr, before) {
    }
  }

  lemma DropFlow(w: Window, w': Window, d: int, x: int, e: int)
    requires Drops(w, w', d) && AtEnd(w, x, e, d)
    ensures ProgressOk(w) ==> ProgressOk(w')
    ensures LoadsOk(w) ==> LoadsOk(w')
  {
    hide RingPos;
    if LoadsOk(w) {
      forall s | LiveL(w', s) && w'.st[s].kind.Load? && (w'.st[s].queued || w'.st[s].issued)
        ensures MemoryClear(w', w'.st[s].addr, w'.st[s].seqno)
      {
        DropClear(w, w', d, x, e, s);
        hide MemoryClear;
      }
    }
  }

  // ---------------------------------------------------------------- dependences

  lemma DropWrites(w: Window, w': Window, d: int, n: Reg, p: int, i: int)
    requires Drops(w, w', d)
    ensures Writes(w', p, i, n) <==> Writes(w, p, i, n) && p != d
  {
    hide RingPos;
  }

  /** For what stays, the youngest older creator stays the same, unless it has left. */
  lemma DropYoungest(w: Window, w': Window, d: int, x: int, e: int, n: Reg, s: int, p: int, i: int)
    requires Drops(w, w', d) && AtEnd(w, x, e, d) && Live(w', s)
    ensures Youngest(w', n, w.st[s].seqno, p, i) <==> Youngest(w, n, w.st[s].seqno, p, i) && p != d
  {
    hide RingPos;
    forall p', i' ensures Writes(w', p', i', n) <==> Writes(w, p', i', n) && p' != d {
      DropWrites(w, w', d, n, p', i');
    }
  }

  lemma DropDelivered(w: Window, w': Window, d: int, x: int, e: int, s: int, j: int)
    requires Drops(w, w', d) && AtEnd(w, x, e, d) && Live(w', s) && 0 <= j < 3 && Delivered(w, x, e, s, j)
    ensures Delivered(w', x, e, s, j)
  {
    hide RingPos;
    var n := w.st[s].inames[j];
    forall p, i | Youngest(w', n, w.st[s].seqno, p, i) ensures n != NA ==> Done(w', x, e, p, i) {
      DropYoungest(w, w', d, x, e, n, s, p, i);
    }
    hide Youngest;
  }

  /** An operand that still waits has its creator in the window. */
  lemma DropHasSource(w: Window, w': Window, d: int, x: int, e: int, s: int, j: int)
    requires Drops(w, w', d) && AtEnd(w, x, e, d) && OperandsOk(w, x, e)
    requires Live(w', s) && 0 <= j < 3 && !w.st[s].ready[j]
    ensures HasSource(w', s, j)
  {
    hide RingPos;
    var n := w.st[s].inames[j];
    assert HasSource(w, s, j);
    var p, i :| Youngest(w, n, w.st[s].seqno, p, i);
    assert Waits(w, s, j, p, i);
    assert ChainOk(w, x, e, p, i);
    assert w.st[p].odeps[i] != [];
    assert p != d;
    DropYoungest(w, w', d, x, e, n, s, p, i);
    hide Youngest, ChainOk, Waits;
  }

  lemma DropWaits(w: Window, w': Window, d: int, x: int, e: int, s: int, j: int, p: int, i: int)
    requires Drops(w, w', d) && AtEnd(w, x, e, d) && 0 <= s < |w.st| && 0 <= j < 3
    ensures Waits(w', s, j, p, i) <==> Waits(w, s, j, p, i) && s != d && p != d
  {
    hide RingPos;
    if Live(w', s) {
      DropYoungest(w, w', d, x, e, w.st[s].inames[j], s, p, i);
    }
    hide Youngest;
  }

  lemma DropChain(w: Window, w': Window, d: int, x: int, e: int, p: int, i: int)
    requires Drops(w, w', d) && AtEnd(w, x, e, d) && 0 <= p < |w.st| && 0 <= i < 2 && ChainOk(w, x, e, p, i)
    ensures ChainOk(w', x, e, p, i)
  {
    hide RingPos;
    var chain := w'.st[p].odeps[i];
    forall s, j | 0 <= s < |w.st| && 0 <= j < 3
      ensures CntOp(chain, s, w'.st[s].tag, j) == if Waits(w', s, j, p, i) then 1 else 0
    {
      DropWaits(w, w', d, x, e, s, j, p, i);
      if s == d && p != d {
        CntStale(chain, d, w'.st[d].tag);
      }
      hide Waits;
    }
    hide Waits;
  }

  lemma DropOperands(w: Window, w': Window, d: int, x: int, e: int)
    requires Drops(w, w', d) && AtEnd(w, x, e, d) && OperandsOk(w, x, e)
    ensures OperandsOk(w', x, e)
  {
    forall s, j | Live(w', s) && 0 <= j < 3
      ensures w.st[s].ready[j] ==> Delivered(w', x, e, s, j)
      ensures !w.st[s].ready[j] ==> HasSource(w', s, j)
    {
      if w.st[s].ready[j] {
        DropDelivered(w, w', d, x, e, s, j);
      } else {
        DropHasSource(w, w', d, x, e, s, j);
      }
      hide Delivered, HasSource, RingPos;
    }
    forall p, i | 0 <= p < |w.st| && 0 <= i < 2 ensures ChainOk(w', x, e, p, i) {
      DropChain(w, w', d, x, e, p, i);
      hide ChainOk;
    }
    hide Delivered, HasSource, ChainOk, RingPos;
  }

  // ---------------------------------------------------------------- create vectors

  /**
   * A create vector for class `spec` stays right when an operation of the other class leaves, or
   * when the oldest one leaves after delivering its results.
   */
  lemma DropNames(w: Window, w': Window, d: int, x: int, e: int, n: Reg, spec: bool, c: Creator)
    requires Drops(w, w', d) && Names(w, x, e, n, spec, c)
    requires w.st[d].spec == spec ==>
      Done(w, x, e, d, 0) && Done(w, x, e, d, 1) && forall s :: Live(w, s) && s != d ==> w.st[d].seqno < w.st[s].seqno
    ensures Names(w', x, e, n, spec, c)
  {
    hide RingPos;
    forall p, i ensures Writes(w', p, i, n) <==> Writes(w, p, i, n) && p != d {
      DropWrites(w, w', d, n, p, i);
    }
    forall p, i | p != d ensures YoungestIn(w', n, spec, p, i) <==> YoungestIn(w, n, spec, p, i) {
    }
  }

  lemma DropSpecWriter(w: Window, w': Window, d: int, n: Reg)
    requires Drops(w, w', d)
    ensures SpecWriter(w', n) ==> SpecWriter(w, n)
    ensures !w.st[d].spec ==> (SpecWriter(w', n) <==> SpecWriter(w, n))
  {
    forall p, i ensures Writes(w', p, i, n) <==> Writes(w, p, i, n) && p != d {
      DropWrites(w, w', d, n, p, i);
    }
    hide RingPos;
  }
}
