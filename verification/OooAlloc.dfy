/**
 * A fresh operation, without register names yet, enters the window as the youngest one.
 */
module OooAlloc {
  import opened OooTypes
  import opened OooStages
  import opened OooInv
  import opened OooFrames
  import opened OooQueues
  import opened OooRecover

  /** A station that has just been filled in. */
  predicate IsFresh(rs: Station) {
    && !rs.queued && !rs.issued && !rs.completed && !rs.recover
    && rs.onames == [NA, NA] && rs.inames == [NA, NA, NA] && rs.ready == [true, true, true]
  }

  /** The fresh operation in `d` has entered the window. */
  ghost predicate Adds(w: Window, w': Window, d: int) {
    && Ring(w) && Ring(w') && w'.nr == w.nr && w'.nl == w.nl
    && 0 <= d < |w.st| && !Live(w, d)
    && (forall s :: LiveR(w', s) <==> LiveR(w, s) || (s == d && d < w.nr))
    && (forall s :: LiveL(w', s) <==> LiveL(w, s) || (s == d && d >= w.nr))
    && w'.st == w.st[d := w'.st[d]]
    && IsFresh(w'.st[d]) && w'.st[d].tag == w.st[d].tag && w'.st[d].odeps == w.st[d].odeps
    && w'.lastSeq == w.lastSeq + 1 == w'.st[d].seqno
    && (InLsq(w'.st[d]) <==> d >= w.nr)
  }

  lemma AllocRuuAdds(s: State, kind: Kind, op: Op, pc: nat, next: nat, pred: nat)
    requires Sized(s) && s.w.rn < s.w.nr && (kind.Alu? || kind.Addr?)
    ensures Adds(s.w, AllocRuu(s, kind, op, pc, next, pred).w, s.w.rt)
  {
  }

  lemma AllocLsqAdds(s: State, kind: Kind, op: Op, pc: nat, next: nat, pred: nat, addr: nat)
    requires Sized(s) && s.w.ln < s.w.nl && (kind.Load? || kind.Store?)
    ensures Adds(s.w, AllocLsq(s, kind, op, pc, next, pred, addr).w, s.w.nr + s.w.lt)
  {
  }

  lemma AllocRuuOrdered(s: State, kind: Kind, op: Op, pc: nat, next: nat, pred: nat)
    requires Sized(s) && s.w.rn < s.w.nr && OrderedRuu(s.w) && OrderedLsq(s.w) && Numbered(s.w)
    ensures var w' := AllocRuu(s, kind, op, pc, next, pred).w; OrderedRuu(w') && OrderedLsq(w')
  {
    var w, w' := s.w, AllocRuu(s, kind, op, pc, next, pred).w;
    assert RingPos(w.rh, w.nr, w.rt) == w.rn;
    forall t | LiveR(w', t) && t != w.rt ensures LiveR(w, t) && w'.st[t] == w.st[t] {
    }
    hide RingPos;
  }

  lemma AllocLsqOrdered(s: State, kind: Kind, op: Op, pc: nat, next: nat, pred: nat, addr: nat)
    requires Sized(s) && s.w.ln < s.w.nl && OrderedRuu(s.w) && OrderedLsq(s.w) && Numbered(s.w)
    ensures var w' := AllocLsq(s, kind, op, pc, next, pred, addr).w; OrderedRuu(w') && OrderedLsq(w')
  {
    var w, w' := s.w, AllocLsq(s, kind, op, pc, next, pred, addr).w;
    assert RingPos(w.lh, w.nl, w.lt) == w.ln;
    forall t | LiveL(w', t) && t != w.nr + w.lt ensures LiveL(w, t) && w'.st[t] == w.st[t] {
    }
    hide RingPos;
  }

  lemma AddNumbered(w: Window, w': Window, d: int)
    requires Adds(w, w', d) && Numbered(w) && KindsOk(w)
    ensures Numbered(w') && KindsOk(w')
  {
    hide RingPos;
  }

  lemma AddSpec(w: Window, w': Window, d: int, m: bool)
    requires Adds(w, w', d) && SpecOk(w, m) && Numbered(w) && w'.st[d].spec == m
    ensures SpecOk(w', m)
  {
    hide RingPos;
    forall b | b != d ensures Pending(w', b) <==> Pending(w, b) {
    }
  }

  // ---------------------------------------------------------------- dependences

  lemma AddWrites(w: Window, w': Window, d: int, n: Reg, p: int, i: int)
    requires Adds(w, w', d) && n != NA
    ensures Writes(w', p, i, n) <==> Writes(w, p, i, n)
  {
    hide RingPos;
  }

  lemma AddYoungest(w: Window, w': Window, d: int, n: Reg, before: int, p: int, i: int)
    requires Adds(w, w', d) && n != NA
    ensures Youngest(w', n, before, p, i) <==> Youngest(w, n, before, p, i)
  {
    hide RingPos;
    forall p', i' ensures Writes(w', p', i', n) <==> Writes(w, p', i', n) {
      AddWrites(w, w', d, n, p', i');
    }
  }

  lemma AddOperand(w: Window, w': Window, d: int, s: int, j: int)
    requires Adds(w, w', d) && Live(w', s) && 0 <= j < 3
    requires s != d && w.st[s].ready[j] ==> Delivered(w, 0, 2, s, j)
    requires s != d && !w.st[s].ready[j] ==> HasSource(w, s, j)
    ensures w'.st[s].ready[j] ==> Delivered(w', 0, 2, s, j)
    ensures !w'.st[s].ready[j] ==> HasSource(w', s, j)
  {
    var n := w'.st[s].inames[j];
    if s != d && n != NA {
      forall p, i ensures Youngest(w', n, w.st[s].seqno, p, i) <==> Youngest(w, n, w.st[s].seqno, p, i) {
        AddYoungest(w, w', d, n, w.st[s].seqno, p, i);
      }
    }
    hide RingPos, Youngest;
  }

  lemma AddWaits(w: Window, w': Window, d: int, s: int, j: int, p: int, i: int)
    requires Adds(w, w', d) && OperandsOk(w, 0, 2) && 0 <= s < |w.st| && 0 <= j < 3
    ensures Waits(w', s, j, p, i) <==> Waits(w, s, j, p, i)
  {
    var n := w.st[s].inames[j];
    if s != d && Live(w, s) && !w.st[s].ready[j] {
      assert HasSource(w, s, j);
      AddYoungest(w, w', d, n, w.st[s].seqno, p, i);
    }
    hide RingPos, Youngest, Delivered, ChainOk;
  }

  lemma AddChain(w: Window, w': Window, d: int, p: int, i: int)
    requires Adds(w, w', d) && OperandsOk(w, 0, 2) && 0 <= p < |w.st| && 0 <= i < 2
    ensures ChainOk(w', 0, 2, p, i)
  {
    var chain := w.st[p].odeps[i];
    assert ChainOk(w, 0, 2, p, i);
    TagsKept(chain, w.st, w'.st);
    forall s, j | 0 <= s < |w.st| && 0 <= j < 3 ensures Waits(w', s, j, p, i) <==> Waits(w, s, j, p, i) {
      AddWaits(w, w', d, s, j, p, i);
    }
    hide Waits, RingPos, HasSource, Delivered;
  }

  lemma AddOperands(w: Window, w': Window, d: int)
    requires Adds(w, w', d) && OperandsOk(w, 0, 2)
    ensures OperandsOk(w', 0, 2)
  {
    forall s, j | Live(w', s) && 0 <= j < 3
      ensures w'.st[s].ready[j] ==> Delivered(w', 0, 2, s, j)
      ensures !w'.st[s].ready[j] ==> HasSource(w', s, j)
    {
      AddOperand(w, w', d, s, j);
      hide Delivered, HasSource, RingPos;
    }
    forall p, i | 0 <= p < |w.st| && 0 <= i < 2 ensures ChainOk(w', 0, 2, p, i) {
      AddChain(w, w', d, p, i);
    }
    hide Delivered, HasSource, ChainOk, RingPos;
  }

  lemma AddNames(w: Window, w': Window, d: int, n: Reg, spec: bool, c: Creator)
    requires Adds(w, w', d) && n != NA && Names(w, 0, 2, n, spec, c)
    ensures Names(w', 0, 2, n, spec, c) && (SpecWriter(w', n) <==> SpecWriter(w, n))
  {
    hide RingPos;
    forall p, i ensures Writes(w', p, i, n) <==> Writes(w, p, i, n) {
      AddWrites(w, w', d, n, p, i);
    }
    forall p, i ensures YoungestIn(w', n, spec, p, i) <==> YoungestIn(w, n, spec, p, i) {
    }
  }

  lemma AddVectors(w: Window, w': Window, v: Vectors, d: int)
    requires Adds(w, w', d) && VectorsOk(w, v, 0, 2)
    ensures VectorsOk(w', v, 0, 2)
  {
    forall n: Reg | n != NA
      ensures Names(w', 0, 2, n, false, v.cv[n])
      ensures n in v.useSpec ==> Names(w', 0, 2, n, true, v.scv[n]) && SpecWriter(w', n)
      ensures n !in v.useSpec ==> !SpecWriter(w', n)
    {
      AddNames(w, w', d, n, false, v.cv[n]);
      if n in v.useSpec {
        AddNames(w, w', d, n, true, v.scv[n]);
      }
      hide Names, SpecWriter, RingPos;
    }
    hide Names, SpecWriter, RingPos;
  }

  // ---------------------------------------------------------------- scheduling

  /** Operations numbered up to `k` are on their way once they have their operands. */
  ghost predicate ProgressUpTo(w: Window, k: int)
    requires Ring(w)
  {
    forall s :: Live(w, s) && w.st[s].seqno <= k && OpsReady(w.st[s]) && !w.st[s].kind.Load? ==>
      w.st[s].queued || w.st[s].issued
  }

  lemma AddLife(w: Window, w': Window, d: int, q: Queues)
    requires Adds(w, w', d) && LifeOk(w, q, [])
    ensures LifeOk(w', q, [])
  {
    TagsKept(q.readyq, w.st, w'.st);
    TagsKept(q.events, w.st, w'.st);
    forall t | 0 <= t < |w.st| ensures SlotOk(w', q, [], t) {
      assert SlotOk(w, q, [], t);
      hide RingPos;
    }
    hide SlotOk, TagsOk, RingPos;
  }

  lemma AddClear(w: Window, w': Window, d: int, addr: int, before: int)
    requires Adds(w, w', d) && MemoryClear(w, addr, before) && before <= w.lastSeq
    ensures MemoryClear(w', addr, before)
  {
    hide RingPos;
    forall t ensures OlderStore(w', t, before) <==> OlderStore(w, t, before) {
    }
    forall t | YoungestStore(w', t, addr, before) ensures YoungestStore(w, t, addr, before) {
    }
  }

  lemma AddLoads(w: Window, w': Window, d: int, k: int)
    requires Adds(w, w', d) && LoadsOk(w) && Numbered(w) && ProgressUpTo(w, k) && k <= w.lastSeq
    ensures LoadsOk(w') && ProgressUpTo(w', k)
  {
    hide RingPos;
    forall t | LiveL(w', t) && w'.st[t].kind.Load? && (w'.st[t].queued || w'.st[t].issued)
      ensures MemoryClear(w', w'.st[t].addr, w'.st[t].seqno)
    {
      AddClear(w, w', d, w.st[t].addr, w.st[t].seqno);
      hide MemoryClear;
    }
    hide MemoryClear;
  }
}
