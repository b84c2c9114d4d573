/**
 * A new operation gets its register names: every step keeps the invariants, so a dispatched
 * operation waits exactly for the youngest older creators of its inputs.
 */
module OooNames {
  import opened OooTypes
  import opened OooStages
  import opened OooInv
  import opened OooFrames
  import opened OooQueues
  import opened OooIssue
  import opened OooBroadcast
  import opened OooWriteback
  import opened OooComplete
  import opened OooAlloc
  import opened OooLink

  /** What holds throughout the dispatch of an instruction; operations up to `k` were there before. */
  ghost predicate MidOk(w: Window, q: Queues, v: Vectors, m: bool, k: int) {
    && Ring(w) && OrderedRuu(w) && OrderedLsq(w) && Numbered(w) && KindsOk(w) && SpecOk(w, m)
    && VectorsOk(w, v, 0, 2) && OperandsOk(w, 0, 2)
    && LifeOk(w, q, []) && LoadsOk(w) && ProgressUpTo(w, k) && EventsOk(q, q.now + 1)
  }

  // ---------------------------------------------------------------- steps that only touch inputs and chains

  lemma RelinkShape(w: Window, w': Window, d: int, j: int)
    requires Relinks(w, w', d, j)
    ensures SameOrder(w, w') && Shape(w, w') && forall s :: 0 <= s < |w.st| ==> w'.st[s].completed == w.st[s].completed
  {
  }

  lemma ShapeNames(w: Window, w': Window, n: Reg, spec: bool, c: Creator)
    requires Ring(w) && Shape(w, w') && Names(w, 0, 2, n, spec, c)
    requires forall s :: 0 <= s < |w.st| ==> w'.st[s].completed == w.st[s].completed
    ensures Names(w', 0, 2, n, spec, c)
  {
    forall p, i ensures YoungestIn(w', n, spec, p, i) <==> YoungestIn(w, n, spec, p, i) {
      ShapeYoungestIn(w, w', n, spec, p, i);
    }
    forall p, i | YoungestIn(w, n, spec, p, i) ensures 0 <= p < |w.st| {
      hide RingPos;
    }
    hide YoungestIn, RingPos;
  }

  lemma ShapeVectors(w: Window, w': Window, v: Vectors)
    requires Ring(w) && Shape(w, w') && VectorsOk(w, v, 0, 2)
    requires forall s :: 0 <= s < |w.st| ==> w'.st[s].completed == w.st[s].completed
    ensures VectorsOk(w', v, 0, 2)
  {
    forall n: Reg | n != NA
      ensures Names(w', 0, 2, n, false, v.cv[n])
      ensures n in v.useSpec ==> Names(w', 0, 2, n, true, v.scv[n]) && SpecWriter(w', n)
      ensures n !in v.useSpec ==> !SpecWriter(w', n)
    {
      ShapeNames(w, w', n, false, v.cv[n]);
      ShapeSpecWriter(w, w', n);
      if n in v.useSpec {
        ShapeNames(w, w', n, true, v.scv[n]);
      }
      hide Names, SpecWriter;
    }
  }

  lemma RelinkLife(w: Window, w': Window, d: int, j: int, q: Queues)
    requires Ring(w) && Relinks(w, w', d, j) && Newest(w, d) && LifeOk(w, q, [])
    ensures LifeOk(w', q, [])
  {
    TagsKept(q.readyq, w.st, w'.st);
    TagsKept(q.events, w.st, w'.st);
    forall t | 0 <= t < |w.st| ensures SlotOk(w', q, [], t) {
      assert SlotOk(w, q, [], t);
      hide RingPos;
    }
    hide SlotOk, TagsOk, RingPos;
  }

  lemma RelinkClear(w: Window, w': Window, d: int, j: int, addr: int, before: int)
    requires Ring(w) && Relinks(w, w', d, j) && MemoryClear(w, addr, before) && before <= w.st[d].seqno
    ensures MemoryClear(w', addr, before)
  {
    hide RingPos;
    forall t ensures OlderStore(w', t, before) <==> OlderStore(w, t, before) && t != d {
    }
    forall t | YoungestStore(w', t, addr, before) ensures YoungestStore(w, t, addr, before) {
    }
  }

  lemma RelinkLoads(w: Window, w': Window, d: int, j: int, k: int)
    requires Ring(w) && Relinks(w, w', d, j) && Newest(w, d) && LoadsOk(w) && Numbered(w) && ProgressUpTo(w, k) &&
      k < w.lastSeq
    ensures LoadsOk(w') && ProgressUpTo(w', k)
  {
    hide RingPos;
    forall t | LiveL(w', t) && w'.st[t].kind.Load? && (w'.st[t].queued || w'.st[t].issued)
      ensures MemoryClear(w', w'.st[t].addr, w'.st[t].seqno)
    {
      RelinkClear(w, w', d, j, w.st[t].addr, w.st[t].seqno);
      hide MemoryClear;
    }
    hide MemoryClear;
  }

  lemma RelinkMid(w: Window, w': Window, d: int, j: int, q: Queues, q': Queues, v: Vectors, m: bool, k: int)
    requires MidOk(w, q, v, m, k) && Relinks(w, w', d, j) && Newest(w, d) && k < w.lastSeq && OperandsOk(w', 0, 2)
    requires q' == q.(free := q'.free)
    ensures MidOk(w', q', v, m, k)
  {
    RelinkShape(w, w', d, j);
    hide OrderedRuu, OrderedLsq, Numbered, KindsOk, SpecOk, VectorsOk, OperandsOk, LifeOk, LoadsOk, ProgressUpTo,
         RingPos, Relinks, SameOrder, Shape, Newest;
    SameOrderedRuu(w, w');
    SameOrderedLsq(w, w');
    OrderNumbered(w, w');
    OrderSpec(w, w', m);
    ShapeVectors(w, w', v);
    RelinkLife(w, w', d, j, q);
    LifeSame(w', q, q', []);
    RelinkLoads(w, w', d, j, k);
  }

  // ---------------------------------------------------------------- one input

  lemma MidParts(w: Window, q: Queues, v: Vectors, m: bool, k: int)
    requires MidOk(w, q, v, m, k)
    ensures Ring(w) && Numbered(w) && SpecOk(w, m) && VectorsOk(w, v, 0, 2) && OperandsOk(w, 0, 2)
    ensures |v.cv| == |v.scv| == TOTAL_REGS
  {
  }

  lemma LinkReadyIs(s: State, d: nat, j: nat, name: Reg)
    requires Sized(s) && d < |s.w.st| && j < 3 && (name == NA || CreateVector(s.v, name).NoCreator?)
    ensures LinkIdep(s, d, j, name).Ok?
    ensures var r := LinkIdep(s, d, j, name).value; LinksReady(s.w, r.w, d, j, name) && r == s.(w := r.w)
  {
  }

  lemma LinkWaitingIs(s: State, d: nat, j: nat, name: Reg)
    requires Sized(s) && d < |s.w.st| && j < 3 && name != NA && CreateVector(s.v, name).Creator?
    requires var c := CreateVector(s.v, name); c.slot < |s.w.st| && c.odep < 2 && c.slot != d
    ensures match LinkIdep(s, d, j, name)
      case Panic(p) => p == OutOfLinks
      case Ok(r) =>
        var c := CreateVector(s.v, name);
        && s.q.free != [] && r == s.(w := r.w, q := s.q.(free := s.q.free[1..]))
        && LinksWaiting(s.w, r.w, d, j, name, c.slot, c.odep, Link(s.q.free[0], d, s.w.st[d].tag, j))
  {
  }

  /** The operation in `d` is new and its input `j` has not been named. */
  ghost predicate Unnamed(w: Window, d: int, j: int)
    requires Ring(w)
  {
    Newest(w, d) && w.st[d].onames == [NA, NA] && 0 <= j < 3 && w.st[d].ready[j]
  }

  /** No undelivered creator: the operand is ready. */
  lemma LinkReady(s: State, d: nat, j: nat, name: Reg, k: int)
    requires MidOk(s.w, s.q, s.v, s.f.specMode, k) && Unnamed(s.w, d, j) && k < s.w.lastSeq && Sized(s) && d < |s.w.st|
    requires name == NA || CreateVector(s.v, name).NoCreator?
    ensures LinkIdep(s, d, j, name).Ok?
    ensures var r := LinkIdep(s, d, j, name).value; MidOk(r.w, r.q, r.v, s.f.specMode, k) && Relinks(s.w, r.w, d, j)
  {
    hide MidOk, Numbered, SpecOk, VectorsOk, OperandsOk, LinkIdep, RingPos, Relinks;
    MidParts(s.w, s.q, s.v, s.f.specMode, k);
    LinkReadyIs(s, d, j, name);
    var r := LinkIdep(s, d, j, name).value;
    if name != NA {
      forall p, i | Youngest(s.w, name, s.w.st[d].seqno, p, i) ensures s.w.st[p].completed {
        BeforeNewest(s.w, d, name, p, i);
        CreateVectorExact(s.w, s.v, s.f.specMode, name, p, i);
        hide CreateVector;
      }
    }
    ReadyOperands(s.w, r.w, d, j, name);
    RelinkMid(s.w, r.w, d, j, s.q, r.q, s.v, s.f.specMode, k);
  }

  /** An undelivered creator: the operand waits on its chain. */
  lemma LinkWaiting(s: State, d: nat, j: nat, name: Reg, k: int)
    requires MidOk(s.w, s.q, s.v, s.f.specMode, k) && Unnamed(s.w, d, j) && k < s.w.lastSeq && Sized(s) && d < |s.w.st|
    requires name != NA && CreateVector(s.v, name).Creator?
    ensures match LinkIdep(s, d, j, name)
      case Panic(p) => p == OutOfLinks
      case Ok(r) => MidOk(r.w, r.q, r.v, s.f.specMode, k) && Relinks(s.w, r.w, d, j)
  {
    hide MidOk, Numbered, SpecOk, VectorsOk, OperandsOk, LinkIdep, RingPos, Relinks;
    MidParts(s.w, s.q, s.v, s.f.specMode, k);
    var c := CreateVector(s.v, name);
    CreateVectorExact(s.w, s.v, s.f.specMode, name, c.slot, c.odep);
    BeforeNewest(s.w, d, name, c.slot, c.odep);
    assert c.slot < |s.w.st| && c.odep < 2 && c.slot != d;
    hide Youngest, CreateVector;
    LinkWaitingIs(s, d, j, name);
    if LinkIdep(s, d, j, name).Ok? {
      var r := LinkIdep(s, d, j, name).value;
      WaitingOperands(s.w, r.w, d, j, name, c.slot, c.odep, Link(s.q.free[0], d, s.w.st[d].tag, j));
      RelinkMid(s.w, r.w, d, j, s.q, r.q, s.v, s.f.specMode, k);
    }
  }

  lemma RelinkUnnamed(w: Window, w': Window, d: int, j: int)
    requires Ring(w) && Relinks(w, w', d, j) && Newest(w, d)
    ensures Newest(w', d) && w'.lastSeq == w.lastSeq && w'.st[d].onames == w.st[d].onames
    ensures forall i :: 0 <= i < 3 && i != j ==> w'.st[d].ready[i] == w.st[d].ready[i]
  {
    hide RingPos;
  }

  lemma LinkOk(s: State, d: nat, j: nat, name: Reg, k: int)
    requires MidOk(s.w, s.q, s.v, s.f.specMode, k) && Unnamed(s.w, d, j) && k < s.w.lastSeq && Sized(s) && d < |s.w.st|
    ensures match LinkIdep(s, d, j, name)
      case Panic(p) => p == OutOfLinks
      case Ok(r) =>
        && MidOk(r.w, r.q, r.v, s.f.specMode, k) && Newest(r.w, d) && r.w.lastSeq == s.w.lastSeq
        && r.w.st[d].onames == [NA, NA] && Shape(s.w, r.w)
        && forall i :: 0 <= i < 3 && i != j ==> r.w.st[d].ready[i] == s.w.st[d].ready[i]
  {
    hide MidOk, RingPos, LinkIdep;
    if name == NA || CreateVector(s.v, name).NoCreator? {
      LinkReady(s, d, j, name, k);
    } else {
      LinkWaiting(s, d, j, name, k);
    }
    if LinkIdep(s, d, j, name).Ok? {
      var r := LinkIdep(s, d, j, name).value;
      RelinkShape(s.w, r.w, d, j);
      RelinkUnnamed(s.w, r.w, d, j);
    }
    hide Relinks, Shape, Newest;
  }

  lemma LinkOnly(s: State, d: nat, j: nat, name: Reg)
    requires Sized(s) && d < |s.w.st| && j < 3 && LinkIdep(s, d, j, name).Ok?
    ensures var r := LinkIdep(s, d, j, name).value; r == s.(w := r.w, q := s.q.(free := r.q.free))
  {
  }

  lemma PushChain(st: seq<Station>, slot: nat, i: nat, l: Link, id: nat)
    requires slot < |st| && i < 2
    ensures var p := st[slot];
      ChainCnt(st[slot := p.(odeps := p.odeps[i := [l] + p.odeps[i]])], id) ==
        ChainCnt(st, id) + (if l.id == id then 1 else 0)
  {
    var p := st[slot];
    ChainCntUpdate(st, slot, p.(odeps := p.odeps[i := [l] + p.odeps[i]]), id);
    IdCons(l, p.odeps[i], id);
    hide ChainCnt;
  }

  lemma WaitingCnt(w: Window, w': Window, d: int, j: int, name: Reg, p: int, i: int, l: Link, id: nat)
    requires Ring(w) && LinksWaiting(w, w', d, j, name, p, i, l)
    ensures ChainCnt(w'.st, id) == ChainCnt(w.st, id) + (if l.id == id then 1 else 0)
  {
    hide RingPos, ChainCnt;
    PushChain(w.st, p, i, l, id);
    ChainCntSame(w.st[p := w.st[p].(odeps := w'.st[p].odeps)], w'.st, id);
  }

  lemma LinkBounds(s: State, d: nat, j: nat, name: Reg)
    requires Sized(s) && d < |s.w.st| && j < 3 && LinkIdep(s, d, j, name).Ok? && name != NA &&
      CreateVector(s.v, name).Creator?
    ensures var c := CreateVector(s.v, name); c.slot < |s.w.st| && c.odep < 2 && c.slot != d
  {
  }

  lemma LinkLinks(s: State, d: nat, j: nat, name: Reg, id: nat)
    requires Sized(s) && d < |s.w.st| && j < 3 && LinkIdep(s, d, j, name).Ok?
    ensures var r := LinkIdep(s, d, j, name).value; LinkCnt(r.w, r.q, id) == LinkCnt(s.w, s.q, id)
  {
    hide LinkIdep, RingPos, ChainCnt, IdCnt;
    var r := LinkIdep(s, d, j, name).value;
    if name == NA || CreateVector(s.v, name).NoCreator? {
      LinkReadyIs(s, d, j, name);
      ChainCntSame(s.w.st, r.w.st, id);
    } else {
      var c := CreateVector(s.v, name);
      LinkBounds(s, d, j, name);
      LinkWaitingIs(s, d, j, name);
      WaitingCnt(s.w, r.w, d, j, name, c.slot, c.odep, Link(s.q.free[0], d, s.w.st[d].tag, j), id);
      hide LinksWaiting;
    }
  }
}
