/**
 * Delivering output `i` of the completed operation `x` keeps dependences and create vectors right.
 */
module OooBroadcast {
  import opened OooTypes
  import opened OooStages
  import opened OooInv
  import opened OooFrames
  import opened OooWake

  /** There is only one youngest creator. */
  lemma YoungestUnique(w: Window, n: Reg, before: int, p: int, i: int, p': int, i': int)
    requires Ring(w) && Numbered(w) && Youngest(w, n, before, p, i) && Youngest(w, n, before, p', i')
    ensures p == p' && i == i'
  {
    assert Rank(w, p, i) == Rank(w, p', i');
    hide RingPos;
  }

  lemma YoungestInUnique(w: Window, n: Reg, spec: bool, p: int, i: int, p': int, i': int)
    requires Ring(w) && Numbered(w) && YoungestIn(w, n, spec, p, i) && YoungestIn(w, n, spec, p', i')
    ensures p == p' && i == i'
  {
    assert Rank(w, p, i) == Rank(w, p', i');
    hide RingPos;
  }

  /** `w'` is `w` after output `e` of `x` has been delivered to the operands that waited for it. */
  ghost predicate Delivers(w: Window, w': Window, x: int, e: int)
    requires Ring(w) && 0 <= x < |w.st| && 0 <= e < 2
  {
    && Alike(w, w') && SameRecover(w, w')
    && (forall s :: 0 <= s < |w.st| ==> w'.st[s].completed == w.st[s].completed)
    && (forall s, j :: 0 <= s < |w.st| && 0 <= j < 3 ==>
      (w'.st[s].ready[j] <==> w.st[s].ready[j] || Waits(w, s, j, x, e)))
    && (forall p, i :: 0 <= p < |w.st| && 0 <= i < 2 && !(p == x && i == e) ==> w'.st[p].odeps[i] == w.st[p].odeps[i])
    && w'.st[x].odeps[e] == [] && w.st[x].completed && w.st[x].onames[e] != NA
  }

  lemma DoneStep(w: Window, w': Window, x: int, e: int, p: int, i: int)
    requires Ring(w) && 0 <= x < |w.st| && 0 <= e < 2 && 0 <= p < |w.st| && 0 <= i < 2 && |w'.st| == |w.st|
    requires w'.st[p].completed == w.st[p].completed
    ensures Done(w', x, e + 1, p, i) <==> Done(w, x, e, p, i) || (p == x && i == e && w.st[x].completed)
  {
  }

  lemma DeliversOperand(w: Window, w': Window, x: int, e: int, s: int, j: int)
    requires Ring(w) && Numbered(w) && 0 <= x < |w.st| && 0 <= e < 2 && Delivers(w, w', x, e) && Live(w, s) &&
      0 <= j < 3
    requires w.st[s].ready[j] ==> Delivered(w, x, e, s, j)
    requires !w.st[s].ready[j] ==> HasSource(w, s, j)
    ensures w'.st[s].ready[j] ==> Delivered(w', x, e + 1, s, j)
    ensures !w'.st[s].ready[j] ==> HasSource(w', s, j)
  {
    var n, before := w.st[s].inames[j], w.st[s].seqno;
    forall p, i ensures Youngest(w', n, before, p, i) <==> Youngest(w, n, before, p, i) {
      ShapeYoungest(w, w', n, before, p, i);
    }
    hide RingPos;
    if w'.st[s].ready[j] && n != NA {
      forall p, i | Youngest(w', n, before, p, i) ensures Done(w', x, e + 1, p, i) {
        DoneStep(w, w', x, e, p, i);
        if !w.st[s].ready[j] {
          YoungestUnique(w, n, before, p, i, x, e);
        }
      }
    }
    hide Youngest;
  }

  lemma DeliversWaits(w: Window, w': Window, x: int, e: int, s: int, j: int, p: int, i: int)
    requires Ring(w) && Numbered(w) && 0 <= x < |w.st| && 0 <= e < 2 && Delivers(w, w', x, e) && 0 <= s < |w.st| &&
      0 <= j < 3
    ensures Waits(w', s, j, p, i) <==> Waits(w, s, j, p, i) && !(p == x && i == e)
  {
    ShapeYoungest(w, w', w.st[s].inames[j], w.st[s].seqno, p, i);
    if Waits(w, s, j, p, i) && Waits(w, s, j, x, e) {
      YoungestUnique(w, w.st[s].inames[j], w.st[s].seqno, p, i, x, e);
    }
    hide RingPos, Youngest;
  }

  lemma DeliversChain(w: Window, w': Window, x: int, e: int, p: int, i: int)
    requires Ring(w) && Numbered(w) && 0 <= x < |w.st| && 0 <= e < 2 && Delivers(w, w', x, e)
    requires 0 <= p < |w.st| && 0 <= i < 2 && ChainOk(w, x, e, p, i)
    ensures ChainOk(w', x, e + 1, p, i)
  {
    forall s, j | 0 <= s < |w.st| && 0 <= j < 3 ensures Waits(w', s, j, p, i) <==>
      Waits(w, s, j, p, i) && !(p == x && i == e) {
      DeliversWaits(w, w', x, e, s, j, p, i);
    }
    DoneStep(w, w', x, e, p, i);
    hide RingPos, Waits;
  }

  lemma DeliversOperands(w: Window, w': Window, x: int, e: int)
    requires Ring(w) && Numbered(w) && 0 <= x < |w.st| && 0 <= e < 2 && Delivers(w, w', x, e) && OperandsOk(w, x, e)
    ensures OperandsOk(w', x, e + 1)
  {
    forall s, j | Live(w, s) && 0 <= j < 3
      ensures w'.st[s].ready[j] ==> Delivered(w', x, e + 1, s, j)
      ensures !w'.st[s].ready[j] ==> HasSource(w', s, j)
    {
      DeliversOperand(w, w', x, e, s, j);
      hide Delivered, HasSource, RingPos;
    }
    var e' := e + 1;
    forall p, i | 0 <= p < |w.st| && 0 <= i < 2 ensures ChainOk(w', x, e', p, i) {
      DeliversChain(w, w', x, e, p, i);
      hide ChainOk;
    }
    hide Delivered, HasSource, ChainOk, RingPos;
  }

  // ---------------------------------------------------------------- create vectors

  /** The creator entry after output `e` of `x` is delivered. */
  function Cleared(c: Creator, x: int, e: int): Creator {
    if c.Creator? && c.slot == x && c.odep == e then NoCreator else c
  }

  lemma DeliversNames(w: Window, w': Window, x: int, e: int, n: Reg, spec: bool, c: Creator)
    requires Ring(w) && Numbered(w) && 0 <= x < |w.st| && 0 <= e < 2 && Delivers(w, w', x, e) &&
      Names(w, x, e, n, spec, c)
    ensures Names(w', x, e + 1, n, spec, Cleared(c, x, e))
  {
    forall p, i ensures YoungestIn(w', n, spec, p, i) <==> YoungestIn(w, n, spec, p, i) {
      ShapeYoungestIn(w, w', n, spec, p, i);
    }
    forall p, i | YoungestIn(w, n, spec, p, i)
      ensures Done(w', x, e + 1, p, i) <==> Done(w, x, e, p, i) || (p == x && i == e)
      ensures c.Creator? ==> p == c.slot && i == c.odep
    {
      DoneStep(w, w', x, e, p, i);
      if c.Creator? {
        YoungestInUnique(w, n, spec, p, i, c.slot, c.odep);
      }
      hide YoungestIn;
    }
    hide YoungestIn, RingPos;
  }

  lemma ClearIsCleared(v: Vectors, rs: Station, x: nat, e: nat, n: Reg)
    requires |v.cv| == |v.scv| == TOTAL_REGS && e < 2
    ensures var v' := ClearCreator(v, rs, x, e);
      && v'.useSpec == v.useSpec && |v'.cv| == |v'.scv| == TOTAL_REGS
      && v'.cv[n] == (if n == rs.onames[e] && !rs.spec then Cleared(v.cv[n], x, e) else v.cv[n])
      && v'.scv[n] == (if n == rs.onames[e] && rs.spec then Cleared(v.scv[n], x, e) else v.scv[n])
  {
  }

  lemma DeliversVector(w: Window, w': Window, v: Vectors, x: int, e: int, n: Reg)
    requires Ring(w) && Numbered(w) && 0 <= x < |w.st| && 0 <= e < 2 && Delivers(w, w', x, e) && VectorsOk(w, v, x, e)
    requires n != NA
    ensures var v' := ClearCreator(v, w.st[x], x, e);
      && |v'.cv| == |v'.scv| == TOTAL_REGS && v'.useSpec == v.useSpec
      && Names(w', x, e + 1, n, false, v'.cv[n])
      && (n in v.useSpec ==> Names(w', x, e + 1, n, true, v'.scv[n]))
  {
    ClearIsCleared(v, w.st[x], x, e, n);
    DeliversNames(w, w', x, e, n, false, v.cv[n]);
    assert v.cv[n] == Creator(x, e) ==> w.st[x].onames[e] == n && !w.st[x].spec;
    if n in v.useSpec {
      DeliversNames(w, w', x, e, n, true, v.scv[n]);
      assert v.scv[n] == Creator(x, e) ==> w.st[x].onames[e] == n && w.st[x].spec;
    }
    hide RingPos, YoungestIn;
  }

  lemma DeliversVectors(w: Window, w': Window, v: Vectors, x: int, e: int)
    requires Ring(w) && Numbered(w) && 0 <= x < |w.st| && 0 <= e < 2 && Delivers(w, w', x, e) && VectorsOk(w, v, x, e)
    ensures VectorsOk(w', ClearCreator(v, w.st[x], x, e), x, e + 1)
  {
    var v' := ClearCreator(v, w.st[x], x, e);
    DeliversVector(w, w', v, x, e, 1);
    forall n: Reg | n != NA
      ensures Names(w', x, e + 1, n, false, v'.cv[n])
      ensures n in v'.useSpec ==> Names(w', x, e + 1, n, true, v'.scv[n]) && SpecWriter(w', n)
      ensures n !in v'.useSpec ==> !SpecWriter(w', n)
    {
      DeliversVector(w, w', v, x, e, n);
      ShapeSpecWriter(w, w', n);
      hide Names, SpecWriter, RingPos;
    }
    hide Names, SpecWriter, RingPos;
  }
}
