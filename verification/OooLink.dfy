/**
 * Naming the registers of a new operation: ruu_link_idep, ruu_install_odep and the create vector.
 */
module OooLink {
  import opened OooTypes
  import opened OooStages
  import opened OooInv
  import opened OooFrames
  import opened OooQueues
  import opened OooBroadcast
  import opened OooAlloc
  import OooWake

  // ---------------------------------------------------------------- the create vector

  lemma SpecAfterRight(w: Window, m: bool, s: int, t: int)
    requires Ring(w) && SpecOk(w, m) && Live(w, s) && Live(w, t) && w.st[s].spec && !w.st[t].spec
    ensures w.st[t].seqno < w.st[s].seqno
  {
    hide RingPos;
    var b :| Pending(w, b);
  }

  /** The youngest creator overall is the youngest of the class that counts. */
  lemma OverallIsInClass(w: Window, m: bool, n: Reg, spec: bool, p: int, i: int)
    requires Ring(w) && Numbered(w) && SpecOk(w, m) && (if spec then SpecWriter(w, n) else !SpecWriter(w, n))
    ensures Youngest(w, n, w.lastSeq + 1, p, i) <==> YoungestIn(w, n, spec, p, i)
  {
    hide RingPos;
    forall p', i' | Writes(w, p', i', n) ensures w.st[p'].seqno < w.lastSeq + 1 {
    }
    if spec {
      var p0, i0 :| Writes(w, p0, i0, n) && w.st[p0].spec;
      forall p', i' | Writes(w, p', i', n) && !w.st[p'].spec ensures Rank(w, p', i') < Rank(w, p0, i0) {
        SpecAfterRight(w, m, p0, p');
      }
    }
    hide SpecOk, Numbered;
  }

  /**
   * The create vector names output `i` of `p` iff that is the youngest live creation of `n` and
   * its operation has not completed.
   */
  lemma CreateVectorExact(w: Window, v: Vectors, m: bool, n: Reg, p: nat, i: nat)
    requires Ring(w) && Numbered(w) && SpecOk(w, m) && VectorsOk(w, v, 0, 2) && n != NA
    ensures CreateVector(v, n) == Creator(p, i) <==> Youngest(w, n, w.lastSeq + 1, p, i) && !w.st[p].completed
  {
    var spec := n in v.useSpec;
    var c := CreateVector(v, n);
    assert Names(w, 0, 2, n, spec, c);
    assert if spec then SpecWriter(w, n) else !SpecWriter(w, n);
    OverallIsInClass(w, m, n, spec, p, i);
    if c.Creator? && YoungestIn(w, n, spec, p, i) {
      YoungestInUnique(w, n, spec, p, i, c.slot, c.odep);
    }
    hide RingPos, YoungestIn, Youngest, SpecOk, Numbered, SpecWriter;
  }

  // ---------------------------------------------------------------- the new operation

  /** The operation in `d` is the newest and has not started; it creates nothing yet. */
  ghost predicate Newest(w: Window, d: int)
    requires Ring(w)
  {
    && Live(w, d) && w.st[d].seqno == w.lastSeq
    && !w.st[d].queued && !w.st[d].issued && !w.st[d].completed
  }

  lemma NewestIsLast(w: Window, d: int, s: int)
    requires Ring(w) && Numbered(w) && Newest(w, d) && Live(w, s) && s != d
    ensures w.st[s].seqno < w.st[d].seqno
  {
    hide RingPos;
  }

  /** Before the newest operation means everything, while it creates nothing itself. */
  lemma BeforeNewest(w: Window, d: int, n: Reg, p: int, i: int)
    requires Ring(w) && Numbered(w) && Newest(w, d) && w.st[d].onames == [NA, NA] && n != NA
    ensures Youngest(w, n, w.st[d].seqno, p, i) <==> Youngest(w, n, w.lastSeq + 1, p, i)
  {
    forall p', i' | Writes(w, p', i', n) ensures w.st[p'].seqno < w.st[d].seqno {
      assert p' != d;
      NewestIsLast(w, d, p');
    }
    hide RingPos;
  }

  // ---------------------------------------------------------------- an input

  /** Only the inputs of `d`, and output chains, differ. */
  ghost predicate Relinks(w: Window, w': Window, d: int, j: int) {
    && SameRings(w, w') && 0 <= d < |w.st| && 0 <= j < 3
    && (forall s :: 0 <= s < |w.st| && s != d ==> w'.st[s] == w.st[s].(odeps := w'.st[s].odeps))
    && w'.st[d] == w.st[d].(inames := w'.st[d].inames, ready := w'.st[d].ready)
    && (forall k :: 0 <= k < 3 && k != j ==>
      w'.st[d].inames[k] == w.st[d].inames[k] && w'.st[d].ready[k] == w.st[d].ready[k])
  }

  lemma RelinkYoungest(w: Window, w': Window, d: int, j: int, n: Reg, before: int, p: int, i: int)
    requires Ring(w) && Relinks(w, w', d, j)
    ensures Youngest(w', n, before, p, i) <==> Youngest(w, n, before, p, i)
  {
    forall p', i' ensures Writes(w', p', i', n) == Writes(w, p', i', n) {
      hide RingPos;
    }
    hide RingPos;
  }

  lemma RelinkOperand(w: Window, w': Window, d: int, j: int, s: int, k: int)
    requires Ring(w) && Relinks(w, w', d, j) && Live(w, s) && 0 <= k < 3 && !(s == d && k == j)
    ensures Delivered(w, 0, 2, s, k) ==> Delivered(w', 0, 2, s, k)
    ensures HasSource(w, s, k) ==> HasSource(w', s, k)
    ensures w'.st[s].ready[k] == w.st[s].ready[k]
  {
    var n := w.st[s].inames[k];
    forall p, i ensures Youngest(w', n, w.st[s].seqno, p, i) <==> Youngest(w, n, w.st[s].seqno, p, i) {
      RelinkYoungest(w, w', d, j, n, w.st[s].seqno, p, i);
    }
    hide RingPos, Youngest;
  }

  lemma RelinkWaits(w: Window, w': Window, d: int, j: int, s: int, k: int, p: int, i: int)
    requires Ring(w) && Relinks(w, w', d, j) && 0 <= s < |w.st| && 0 <= k < 3 && !(s == d && k == j)
    ensures Waits(w', s, k, p, i) <==> Waits(w, s, k, p, i)
  {
    RelinkYoungest(w, w', d, j, w.st[s].inames[k], w.st[s].seqno, p, i);
    hide RingPos, Youngest;
  }

  /** The operand named now is ready: its register has no creator that has not delivered. */
  ghost predicate LinksReady(w: Window, w': Window, d: int, j: int, name: Reg)
    requires Ring(w)
  {
    && Relinks(w, w', d, j) && w'.st[d].inames[j] == name && w'.st[d].ready[j]
    && forall s :: 0 <= s < |w.st| ==> w'.st[s].odeps == w.st[s].odeps
  }

  /** The operand named now waits on chain `i` of `p`. */
  ghost predicate LinksWaiting(w: Window, w': Window, d: int, j: int, name: Reg, p: int, i: int, l: Link)
    requires Ring(w)
  {
    && Relinks(w, w', d, j) && w'.st[d].inames[j] == name && !w'.st[d].ready[j]
    && 0 <= p < |w.st| && 0 <= i < 2 && l.slot == d && l.tag == w.st[d].tag && l.x == j && p != d
    && w'.st[p].odeps == w.st[p].odeps[i := [l] + w.st[p].odeps[i]]
    && forall s :: 0 <= s < |w.st| && s != p ==> w'.st[s].odeps == w.st[s].odeps
  }

  lemma ReadyChain(w: Window, w': Window, d: int, j: int, name: Reg, p: int, i: int)
    requires Ring(w) && LinksReady(w, w', d, j, name) && w.st[d].ready[j] && 0 <= p < |w.st| && 0 <= i < 2 &&
      ChainOk(w, 0, 2, p, i)
    ensures ChainOk(w', 0, 2, p, i)
  {
    forall s, k | 0 <= s < |w.st| && 0 <= k < 3 ensures Waits(w', s, k, p, i) <==> Waits(w, s, k, p, i) {
      if !(s == d && k == j) {
        RelinkWaits(w, w', d, j, s, k, p, i);
      }
    }
    hide RingPos, Waits;
  }

  lemma ReadyOperands(w: Window, w': Window, d: int, j: int, name: Reg)
    requires Ring(w) && LinksReady(w, w', d, j, name) && w.st[d].ready[j] && OperandsOk(w, 0, 2) && Live(w, d)
    requires name != NA ==> forall p, i :: Youngest(w, name, w.st[d].seqno, p, i) ==> w.st[p].completed
    ensures OperandsOk(w', 0, 2)
  {
    ReadyDelivered(w, w', d, j, name);
    forall s, k | Live(w', s) && 0 <= k < 3 && !(s == d && k == j)
      ensures w'.st[s].ready[k] ==> Delivered(w', 0, 2, s, k)
      ensures !w'.st[s].ready[k] ==> HasSource(w', s, k)
    {
      RelinkOperand(w, w', d, j, s, k);
      hide Delivered, HasSource, RingPos;
    }
    forall p, i | 0 <= p < |w.st| && 0 <= i < 2 ensures ChainOk(w', 0, 2, p, i) {
      ReadyChain(w, w', d, j, name, p, i);
      hide ChainOk;
    }
    hide Delivered, HasSource, ChainOk, RingPos, Youngest;
  }

  lemma ReadyDelivered(w: Window, w': Window, d: int, j: int, name: Reg)
    requires Ring(w) && LinksReady(w, w', d, j, name) && Live(w, d)
    requires name != NA ==> forall p, i :: Youngest(w, name, w.st[d].seqno, p, i) ==> w.st[p].completed
    ensures Live(w', d) && Delivered(w', 0, 2, d, j)
  {
    forall p, i ensures Youngest(w', name, w.st[d].seqno, p, i) <==> Youngest(w, name, w.st[d].seqno, p, i) {
      RelinkYoungest(w, w', d, j, name, w.st[d].seqno, p, i);
    }
    forall p, i | Youngest(w, name, w.st[d].seqno, p, i) ensures 0 <= p < |w.st| &&
      w'.st[p].completed == w.st[p].completed {
      hide RingPos;
    }
    hide RingPos, Youngest;
  }

  lemma WaitingHasSource(w: Window, w': Window, d: int, j: int, name: Reg, p: int, i: int, l: Link)
    requires Ring(w) && LinksWaiting(w, w', d, j, name, p, i, l) && Live(w, d) && name != NA
    requires Youngest(w, name, w.st[d].seqno, p, i)
    ensures HasSource(w', d, j) && Waits(w', d, j, p, i)
  {
    RelinkYoungest(w, w', d, j, name, w.st[d].seqno, p, i);
    hide RingPos, Youngest;
  }

  lemma WaitingChain(w: Window, w': Window, d: int, j: int, name: Reg, p: int, i: int, l: Link, p': int, i': int)
    requires Ring(w) && Numbered(w) && LinksWaiting(w, w', d, j, name, p, i, l) && w.st[d].ready[j] && Live(w, d) &&
      name != NA
    requires Youngest(w, name, w.st[d].seqno, p, i) && !w.st[p].completed
    requires 0 <= p' < |w.st| && 0 <= i' < 2 && ChainOk(w, 0, 2, p', i')
    ensures ChainOk(w', 0, 2, p', i')
  {
    var chain, chain' := w.st[p'].odeps[i'], w'.st[p'].odeps[i'];
    WaitingHasSource(w, w', d, j, name, p, i, l);
    forall s, k | 0 <= s < |w.st| && 0 <= k < 3
      ensures CntOp(chain', s, w'.st[s].tag, k) == if Waits(w', s, k, p', i') then 1 else 0
    {
      assert CntOp(chain, s, w.st[s].tag, k) == if Waits(w, s, k, p', i') then 1 else 0;
      OooWake.CntOpCons(l, chain, s, w.st[s].tag, k);
      if s == d && k == j {
        assert !Waits(w, s, k, p', i');
        if Waits(w', d, j, p', i') {
          WaitsUnique(w, w', d, j, p, i, p', i');
        }
      } else {
        RelinkWaits(w, w', d, j, s, k, p', i');
      }
      hide Waits, RingPos, Youngest;
    }
    WaitingTags(w, w', d, j, name, p, i, l, p', i');
    hide Waits, RingPos, Youngest, CntOp, TagsOk;
  }

  lemma WaitsUnique(w: Window, w': Window, d: int, j: int, p: int, i: int, p': int, i': int)
    requires Ring(w) && Numbered(w) && Relinks(w, w', d, j) && Waits(w', d, j, p, i) && Waits(w', d, j, p', i')
    ensures p' == p && i' == i
  {
    var n := w'.st[d].inames[j];
    RelinkYoungest(w, w', d, j, n, w.st[d].seqno, p, i);
    RelinkYoungest(w, w', d, j, n, w.st[d].seqno, p', i');
    YoungestUnique(w, n, w.st[d].seqno, p, i, p', i');
    hide RingPos, Youngest;
  }

  lemma WaitingTags(w: Window, w': Window, d: int, j: int, name: Reg, p: int, i: int, l: Link, p': int, i': int)
    requires Ring(w) && LinksWaiting(w, w', d, j, name, p, i, l) && name != NA &&
      Youngest(w, name, w.st[d].seqno, p, i) && !w.st[p].completed
    requires 0 <= p' < |w.st| && 0 <= i' < 2 && ChainOk(w, 0, 2, p', i')
    ensures var chain' := w'.st[p'].odeps[i'];
      && (chain' != [] ==> Live(w', p') && w'.st[p'].onames[i'] != NA && !Done(w', 0, 2, p', i'))
      && TagsOk(chain', w'.st) && forall k :: 0 <= k < |chain'| ==> chain'[k].x < 3
  {
    var chain := w.st[p'].odeps[i'];
    TagsKept(chain, w.st, w'.st);
    if p' == p && i' == i {
      TagsInsert(chain, l, w'.st);
    }
    hide RingPos, CntOp, Waits;
  }

  lemma WaitingOperands(w: Window, w': Window, d: int, j: int, name: Reg, p: int, i: int, l: Link)
    requires Ring(w) && Numbered(w) && LinksWaiting(w, w', d, j, name, p, i, l) && w.st[d].ready[j] &&
      OperandsOk(w, 0, 2)
    requires Live(w, d) && name != NA && Youngest(w, name, w.st[d].seqno, p, i) && !w.st[p].completed
    ensures OperandsOk(w', 0, 2)
  {
    WaitingHasSource(w, w', d, j, name, p, i, l);
    forall s, k | Live(w', s) && 0 <= k < 3 && !(s == d && k == j)
      ensures w'.st[s].ready[k] ==> Delivered(w', 0, 2, s, k)
      ensures !w'.st[s].ready[k] ==> HasSource(w', s, k)
    {
      RelinkOperand(w, w', d, j, s, k);
      hide Delivered, HasSource, RingPos;
    }
    forall p', i' | 0 <= p' < |w.st| && 0 <= i' < 2 ensures ChainOk(w', 0, 2, p', i') {
      WaitingChain(w, w', d, j, name, p, i, l, p', i');
      hide ChainOk;
    }
    hide Delivered, HasSource, ChainOk, RingPos, Youngest, Waits;
  }
}
