/**
 * ruu_install_odep: the newest operation becomes the creator of its outputs.
 */
module OooInstall {
  import opened OooTypes
  import opened OooStages
  import opened OooInv
  import opened OooFrames
  import opened OooQueues
  import opened OooWriteback
  import opened OooAlloc
  import opened OooLink
  import opened OooNames

  /** Output `i` of `d` is named. */
  ghost predicate Installs(w: Window, w': Window, d: int, i: int, name: Reg) {
    && 0 <= d < |w.st| && 0 <= i < 2
    && w' == w.(st := w.st[d := w.st[d].(onames := w.st[d].onames[i := name])])
  }

  /** The newest operation, with output `i` and later ones not named. */
  ghost predicate Unclaimed(w: Window, d: int, i: int)
    requires Ring(w)
  {
    Newest(w, d) && 0 <= i < 2 && forall k :: i <= k < 2 ==> w.st[d].onames[k] == NA
  }

  lemma InstallYoungest(w: Window, w': Window, d: int, i: int, name: Reg, n: Reg, before: int, p: int, k: int)
    requires Ring(w) && Installs(w, w', d, i, name) && Newest(w, d) && before <= w.lastSeq
    ensures Youngest(w', n, before, p, k) <==> Youngest(w, n, before, p, k)
  {
    forall p', k' ensures p' != d ==> (Writes(w', p', k', n) <==> Writes(w, p', k', n)) {
      hide RingPos;
    }
    hide RingPos;
  }

  lemma InstallOperand(w: Window, w': Window, d: int, i: int, name: Reg, s: int, j: int)
    requires Ring(w) && Installs(w, w', d, i, name) && Newest(w, d) && Live(w, s) && w.st[s].seqno <= w.lastSeq &&
      0 <= j < 3
    ensures Delivered(w, 0, 2, s, j) ==> Delivered(w', 0, 2, s, j)
    ensures HasSource(w, s, j) ==> HasSource(w', s, j)
  {
    var n := w.st[s].inames[j];
    forall p, k ensures Youngest(w', n, w.st[s].seqno, p, k) <==> Youngest(w, n, w.st[s].seqno, p, k) {
      InstallYoungest(w, w', d, i, name, n, w.st[s].seqno, p, k);
    }
    forall p, k | Youngest(w, n, w.st[s].seqno, p, k) ensures 0 <= p < |w.st| &&
      w'.st[p].completed == w.st[p].completed {
      hide RingPos;
    }
    hide RingPos, Youngest;
  }

  lemma InstallChain(w: Window, w': Window, d: int, i: int, name: Reg, p: int, k: int)
    requires Ring(w) && Installs(w, w', d, i, name) && Unclaimed(w, d, i) && Numbered(w)
    requires 0 <= p < |w.st| && 0 <= k < 2 && ChainOk(w, 0, 2, p, k)
    ensures ChainOk(w', 0, 2, p, k)
  {
    TagsKept(w.st[p].odeps[k], w.st, w'.st);
    forall s, j | 0 <= s < |w.st| && 0 <= j < 3 ensures Waits(w', s, j, p, k) <==> Waits(w, s, j, p, k) {
      if Live(w, s) {
        InstallYoungest(w, w', d, i, name, w.st[s].inames[j], w.st[s].seqno, p, k);
      }
      hide RingPos, Youngest;
    }
    hide RingPos, Waits, TagsOk, CntOp;
  }

  lemma InstallOperands(w: Window, w': Window, d: int, i: int, name: Reg)
    requires Ring(w) && Installs(w, w', d, i, name) && Unclaimed(w, d, i) && Numbered(w) && OperandsOk(w, 0, 2)
    ensures OperandsOk(w', 0, 2)
  {
    forall s, j | Live(w, s) && 0 <= j < 3
      ensures Delivered(w, 0, 2, s, j) ==> Delivered(w', 0, 2, s, j)
      ensures HasSource(w, s, j) ==> HasSource(w', s, j)
    {
      InstallOperand(w, w', d, i, name, s, j);
      hide Delivered, HasSource, RingPos;
    }
    forall p, k | 0 <= p < |w.st| && 0 <= k < 2 ensures ChainOk(w', 0, 2, p, k) {
      InstallChain(w, w', d, i, name, p, k);
      hide ChainOk;
    }
    hide Delivered, HasSource, ChainOk, RingPos;
  }

  // ---------------------------------------------------------------- create vectors

  lemma InstallWrites(w: Window, w': Window, d: int, i: int, name: Reg, n: Reg, p: int, k: int)
    requires Ring(w) && Installs(w, w', d, i, name) && Unclaimed(w, d, i) && n != NA && name != NA
    ensures Writes(w', p, k, n) <==> Writes(w, p, k, n) || (p == d && k == i && n == name)
  {
    hide RingPos;
  }

  /** The new creation is the youngest of its class. */
  lemma InstallMine(w: Window, w': Window, d: int, i: int, name: Reg)
    requires Ring(w) && Installs(w, w', d, i, name) && Unclaimed(w, d, i) && Numbered(w) && name != NA
    ensures Names(w', 0, 2, name, w.st[d].spec, Creator(d, i))
  {
    forall p, k ensures Writes(w', p, k, name) <==> Writes(w, p, k, name) || (p == d && k == i) {
      InstallWrites(w, w', d, i, name, name, p, k);
    }
    forall p, k | Writes(w', p, k, name) ensures Rank(w', p, k) <= Rank(w', d, i) {
      if p != d {
        NewestIsLast(w, d, p);
      }
      hide RingPos;
    }
    hide RingPos;
  }

  /** Other registers, and the other class, are not affected. */
  lemma InstallOther(w: Window, w': Window, d: int, i: int, name: Reg, n: Reg, spec: bool, c: Creator)
    requires Ring(w) && Installs(w, w', d, i, name) && Unclaimed(w, d, i) && n != NA && name != NA
    requires n != name || w.st[d].spec != spec
    requires Names(w, 0, 2, n, spec, c)
    ensures Names(w', 0, 2, n, spec, c)
  {
    forall p, k ensures Writes(w', p, k, n) <==> Writes(w, p, k, n) || (p == d && k == i && n == name) {
      InstallWrites(w, w', d, i, name, n, p, k);
    }
    hide RingPos, Writes;
    forall p, k ensures YoungestIn(w', n, spec, p, k) <==> YoungestIn(w, n, spec, p, k) {
    }
    forall p, k | YoungestIn(w, n, spec, p, k) ensures Done(w', 0, 2, p, k) <==> Done(w, 0, 2, p, k) {
    }
  }

  lemma InstallSpecWriter(w: Window, w': Window, d: int, i: int, name: Reg, n: Reg)
    requires Ring(w) && Installs(w, w', d, i, name) && Unclaimed(w, d, i) && n != NA && name != NA
    ensures SpecWriter(w', n) <==> SpecWriter(w, n) || (n == name && w.st[d].spec)
  {
    forall p, k ensures Writes(w', p, k, n) <==> Writes(w, p, k, n) || (p == d && k == i && n == name) {
      InstallWrites(w, w', d, i, name, n, p, k);
    }
    if n == name && w.st[d].spec {
      assert Writes(w', d, i, n) && w'.st[d].spec;
    }
    hide RingPos;
  }

  lemma InstallVectors(w: Window, w': Window, v: Vectors, d: int, i: int, name: Reg)
    requires Ring(w) && Installs(w, w', d, i, name) && Unclaimed(w, d, i) && Numbered(w) && VectorsOk(w, v, 0, 2) &&
      name != NA
    ensures VectorsOk(w', SetCreateVector(v, w.st[d].spec, name, Creator(d, i)), 0, 2)
  {
    var v' := SetCreateVector(v, w.st[d].spec, name, Creator(d, i));
    InstallMine(w, w', d, i, name);
    forall n: Reg | n != NA
      ensures Names(w', 0, 2, n, false, v'.cv[n])
      ensures n in v'.useSpec ==> Names(w', 0, 2, n, true, v'.scv[n]) && SpecWriter(w', n)
      ensures n !in v'.useSpec ==> !SpecWriter(w', n)
    {
      InstallSpecWriter(w, w', d, i, name, n);
      if n != name || w.st[d].spec {
        InstallOther(w, w', d, i, name, n, false, v.cv[n]);
      }
      if (n != name || !w.st[d].spec) && n in v.useSpec {
        InstallOther(w, w', d, i, name, n, true, v.scv[n]);
      }
      hide Names, SpecWriter, RingPos, Installs, Unclaimed;
    }
    hide Names, SpecWriter, RingPos;
  }

  // ---------------------------------------------------------------- the step

  lemma InstallFrames(w: Window, w': Window, d: int, i: int, name: Reg, q: Queues, m: bool, k: int)
    requires Ring(w) && Installs(w, w', d, i, name) && LifeOk(w, q, []) && SpecOk(w, m) && LoadsOk(w) &&
      ProgressUpTo(w, k)
    ensures LifeOk(w', q, []) && SpecOk(w', m) && LoadsOk(w') && ProgressUpTo(w', k) && SameOrder(w, w')
  {
    LifeFrame(w, w', q) by {
      forall t | Live(w, t) ensures PhaseOk(w'.st[t]) {
        assert SlotOk(w, q, [], t);
      }
      hide RingPos;
    }
    OrderSpec(w, w', m);
    SameSchedFlow(w, w');
    hide LifeOk, SpecOk, LoadsOk, RingPos;
  }

  lemma InstallMid(w: Window, w': Window, d: int, i: int, name: Reg, q: Queues, v: Vectors, m: bool, k: int)
    requires MidOk(w, q, v, m, k) && Installs(w, w', d, i, name) && Unclaimed(w, d, i) && name != NA &&
      w.st[d].spec == m
    ensures MidOk(w', q, SetCreateVector(v, m, name, Creator(d, i)), m, k)
  {
    hide OrderedRuu, OrderedLsq, Numbered, KindsOk, SpecOk, VectorsOk, OperandsOk, LifeOk, LoadsOk, ProgressUpTo,
         RingPos, SameOrder, Newest;
    InstallFrames(w, w', d, i, name, q, m, k);
    SameOrderedRuu(w, w');
    SameOrderedLsq(w, w');
    OrderNumbered(w, w');
    InstallVectors(w, w', v, d, i, name);
    InstallOperands(w, w', d, i, name);
  }

  lemma InstallIs(s: State, d: nat, i: nat, name: Reg)
    requires Sized(s) && d < |s.w.st| && i < 2 && s.w.st[d].odeps[i] == []
    ensures var r := InstallOdep(s, d, i, name);
      && Installs(s.w, r.w, d, i, name)
      && r == s.(w := r.w, v := if name == NA then s.v else SetCreateVector(s.v, s.f.specMode, name, Creator(d, i)))
  {
    assert s.w.st[d].odeps[i := []] == s.w.st[d].odeps;
  }

  lemma UnclaimedChain(w: Window, d: int, i: int)
    requires Ring(w) && Unclaimed(w, d, i) && OperandsOk(w, 0, 2)
    ensures w.st[d].odeps[i] == []
  {
    assert ChainOk(w, 0, 2, d, i);
    hide RingPos, Waits;
  }

  lemma InstallOk(s: State, d: nat, i: nat, name: Reg, k: int)
    requires MidOk(s.w, s.q, s.v, s.f.specMode, k) && Unclaimed(s.w, d, i) && Sized(s) && d < |s.w.st| &&
      s.w.st[d].spec == s.f.specMode
    ensures var r := InstallOdep(s, d, i, name);
      && MidOk(r.w, r.q, r.v, s.f.specMode, k) && Newest(r.w, d) && (i == 0 ==> Unclaimed(r.w, d, 1))
      && SameOrder(s.w, r.w) && r == s.(w := r.w, v := r.v) && r.w.lastSeq == s.w.lastSeq
  {
    hide MidOk, RingPos, OperandsOk, Numbered, SpecOk, VectorsOk;
    MidParts(s.w, s.q, s.v, s.f.specMode, k);
    UnclaimedChain(s.w, d, i);
    InstallIs(s, d, i, name);
    var r := InstallOdep(s, d, i, name);
    hide InstallOdep;
    if name == NA {
      assert s.w.st[d].onames[i := NA] == s.w.st[d].onames;
      assert r.w.st == s.w.st;
      assert r.w == s.w;
    } else {
      InstallMid(s.w, r.w, d, i, name, s.q, s.v, s.f.specMode, k);
    }
  }

  lemma InstallLinks(s: State, d: nat, i: nat, name: Reg, id: nat)
    requires Sized(s) && d < |s.w.st| && i < 2 && s.w.st[d].odeps[i] == []
    ensures var r := InstallOdep(s, d, i, name); LinkCnt(r.w, r.q, id) == LinkCnt(s.w, s.q, id)
  {
    InstallIs(s, d, i, name);
    ChainCntSame(s.w.st, InstallOdep(s, d, i, name).w.st, id);
    hide InstallOdep;
  }

  // ---------------------------------------------------------------- all names

  lemma SameOrderTrans(w: Window, w': Window, w'': Window)
    requires SameOrder(w, w') && SameOrder(w', w'')
    ensures SameOrder(w, w'')
  {
  }

  /** State while the inputs of the newest operation are being named, those from `j` on still to come. */
  ghost predicate Linking(s: State, d: nat, j: nat, k: int) {
    && MidOk(s.w, s.q, s.v, s.f.specMode, k) && k < s.w.lastSeq && Sized(s) && d < |s.w.st|
    && Newest(s.w, d) && s.w.st[d].onames == [NA, NA] && s.w.st[d].spec == s.f.specMode
    && forall i :: j <= i < 3 ==> s.w.st[d].ready[i]
  }

  /** Only window, vectors and free list differ, and the window only in names and links. */
  ghost predicate OnlyNames(s: State, s': State) {
    SameOrder(s.w, s'.w) && SamePhase(s.w, s'.w) && s' == s.(w := s'.w, q := s.q.(free := s'.q.free), v := s'.v)
  }

  ghost predicate SamePhase(w: Window, w': Window) {
    && |w'.st| == |w.st|
    && forall t :: 0 <= t < |w.st| ==>
         w'.st[t].queued == w.st[t].queued && w'.st[t].issued == w.st[t].issued &&
           w'.st[t].completed == w.st[t].completed
  }

  lemma NamesTrans(s: State, s1: State, s2: State)
    requires OnlyNames(s, s1) && OnlyNames(s1, s2)
    ensures OnlyNames(s, s2)
  {
    SameOrderTrans(s.w, s1.w, s2.w);
    hide SameOrder;
  }

  lemma LinkingStep(s: State, d: nat, j: nat, name: Reg, k: int)
    requires Linking(s, d, j, k) && j < 3
    ensures Sized(s) && d < |s.w.st|
    ensures match LinkIdep(s, d, j, name)
      case Panic(p) => p == OutOfLinks
      case Ok(r) => Linking(r, d, j + 1, k) && OnlyNames(s, r)
  {
    hide MidOk, Newest, RingPos, LinkIdep, Shape;
    LinkOk(s, d, j, name, k);
    if LinkIdep(s, d, j, name).Ok? {
      var r := LinkIdep(s, d, j, name).value;
      LinkOnly(s, d, j, name);
      LinkPhase(s, d, j, name);
      ShapeOrder(s.w, r.w);
    }
  }

  lemma LinkPhase(s: State, d: nat, j: nat, name: Reg)
    requires Sized(s) && d < |s.w.st| && j < 3 && LinkIdep(s, d, j, name).Ok?
    ensures SamePhase(s.w, LinkIdep(s, d, j, name).value.w)
  {
  }

  lemma ShapeOrder(w: Window, w': Window)
    requires Shape(w, w')
    ensures SameOrder(w, w')
  {
  }

  lemma InstallBoth(s: State, d: nat, outs: Outs, k: int)
    requires Linking(s, d, 3, k) && Sized(s) && d < |s.w.st|
    ensures var r := InstallOdep(InstallOdep(s, d, 0, outs[0]), d, 1, outs[1]);
      MidOk(r.w, r.q, r.v, s.f.specMode, k) && Newest(r.w, d) && OnlyNames(s, r)
  {
    NothingNamed(s, d, k);
    hide Linking, MidOk, Newest, RingPos, InstallOdep, SameOrder, OnlyNames, Unclaimed;
    InstallOk(s, d, 0, outs[0], k);
    var s1 := InstallOdep(s, d, 0, outs[0]);
    NamesSpecBit(s, s1, d);
    InstallOk(s1, d, 1, outs[1], k);
    NamesTrans(s, s1, InstallOdep(s1, d, 1, outs[1]));
  }

  lemma NothingNamed(s: State, d: nat, k: int)
    requires Linking(s, d, 3, k)
    ensures Sized(s) && d < |s.w.st| && Unclaimed(s.w, d, 0) && MidOk(s.w, s.q, s.v, s.f.specMode, k) && k < s.w.lastSeq
    ensures s.w.st[d].spec == s.f.specMode && Newest(s.w, d)
  {
    hide MidOk, RingPos;
  }

  lemma NamesSpecBit(s: State, s': State, d: int)
    requires OnlyNames(s, s') && 0 <= d < |s.w.st|
    ensures s'.w.st[d].spec == s.w.st[d].spec && |s'.w.st| == |s.w.st| && s'.f == s.f && s'.w.lastSeq == s.w.lastSeq
  {
    OrderedSpecBit(s.w, s'.w, d);
  }

  lemma OrderedSpecBit(w: Window, w': Window, d: int)
    requires SameOrder(w, w') && 0 <= d < |w.st|
    ensures w'.st[d].spec == w.st[d].spec && |w'.st| == |w.st|
  {
  }

  /**
   * Naming all registers of the newest operation keeps the invariants: each operand is ready or
   * waits on the chain of the youngest older creator, and the operation is the new creator.
   */
  lemma ConnectOk(s: State, d: nat, ins: Ins, outs: Outs, k: int)
    requires Linking(s, d, 0, k) && Sized(s) && d < |s.w.st|
    ensures match Connect(s, d, ins, outs)
      case Panic(p) => p == OutOfLinks
      case Ok(r) => MidOk(r.w, r.q, r.v, s.f.specMode, k) && Newest(r.w, d) && OnlyNames(s, r)
  {
    hide Linking, MidOk, Newest, OnlyNames, LinkIdep, InstallOdep, Ring;
    LinkingStep(s, d, 0, ins[0], k);
    if LinkIdep(s, d, 0, ins[0]).Ok? {
      var s0 := LinkIdep(s, d, 0, ins[0]).value;
      LinkingStep(s0, d, 1, ins[1], k);
      if LinkIdep(s0, d, 1, ins[1]).Ok? {
        var s1 := LinkIdep(s0, d, 1, ins[1]).value;
        LinkingStep(s1, d, 2, ins[2], k);
        if LinkIdep(s1, d, 2, ins[2]).Ok? {
          var s2 := LinkIdep(s1, d, 2, ins[2]).value;
          InstallBoth(s2, d, outs, k);
          var r := InstallOdep(InstallOdep(s2, d, 0, outs[0]), d, 1, outs[1]);
          NamesTrans(s, s0, s1);
          NamesTrans(s, s1, s2);
          NamesTrans(s, s2, r);
          SpecKept(s, s0);
          SpecKept(s, s1);
          SpecKept(s, s2);
        }
      }
    }
  }

  lemma SpecKept(s: State, s': State)
    requires OnlyNames(s, s')
    ensures s'.f == s.f
  {
  }

  lemma BothLinks(s: State, d: nat, outs: Outs, k: int, id: nat)
    requires Linking(s, d, 3, k) && Sized(s) && d < |s.w.st|
    ensures var r := InstallOdep(InstallOdep(s, d, 0, outs[0]), d, 1, outs[1]);
      LinkCnt(r.w, r.q, id) == LinkCnt(s.w, s.q, id)
  {
    assert Unclaimed(s.w, d, 0);
    hide MidOk, Newest, RingPos, InstallOdep, SameOrder, LinkCnt, Unclaimed, OperandsOk;
    MidParts(s.w, s.q, s.v, s.f.specMode, k);
    UnclaimedChain(s.w, d, 0);
    InstallLinks(s, d, 0, outs[0], id);
    InstallOk(s, d, 0, outs[0], k);
    var s1 := InstallOdep(s, d, 0, outs[0]);
    MidParts(s1.w, s1.q, s1.v, s.f.specMode, k);
    UnclaimedChain(s1.w, d, 1);
    InstallLinks(s1, d, 1, outs[1], id);
  }

  lemma ConnectLinks(s: State, d: nat, ins: Ins, outs: Outs, k: int, id: nat)
    requires Linking(s, d, 0, k) && Sized(s) && d < |s.w.st| && Connect(s, d, ins, outs).Ok?
    ensures var r := Connect(s, d, ins, outs).value; LinkCnt(r.w, r.q, id) == LinkCnt(s.w, s.q, id)
  {
    hide Linking, MidOk, Newest, OnlyNames, LinkIdep, InstallOdep, Ring, LinkCnt;
    LinkingStep(s, d, 0, ins[0], k);
    LinkLinks(s, d, 0, ins[0], id);
    var s0 := LinkIdep(s, d, 0, ins[0]).value;
    LinkingStep(s0, d, 1, ins[1], k);
    LinkLinks(s0, d, 1, ins[1], id);
    var s1 := LinkIdep(s0, d, 1, ins[1]).value;
    LinkingStep(s1, d, 2, ins[2], k);
    LinkLinks(s1, d, 2, ins[2], id);
    BothLinks(LinkIdep(s1, d, 2, ins[2]).value, d, outs, k, id);
  }
}
