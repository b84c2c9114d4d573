/**
 * Broadcasting one result: the operands on the output chain become ready and operations that
 * then have all operands are queued.
 */
module OooWake {
  import opened OooTypes
  import opened OooStages
  import opened OooInv
  import opened OooFrames
  import opened OooQueues
  import opened OooIssue

  /** Operands only become ready and operations only become queued. */
  ghost predicate Rouses(w: Window, w': Window) {
    && SameRings(w, w')
    && (forall s :: 0 <= s < |w.st| ==>
          && w'.st[s] == w.st[s].(queued := w'.st[s].queued, ready := w'.st[s].ready)
          && (w.st[s].queued ==> w'.st[s].queued)
          && forall j :: 0 <= j < 3 && w.st[s].ready[j] ==> w'.st[s].ready[j])
  }

  lemma RousesTrans(w: Window, w': Window, w'': Window)
    requires Rouses(w, w') && Rouses(w', w'')
    ensures Rouses(w, w'')
  {
  }

  /** Readiness of older stores only helps. */
  lemma RousesClear(w: Window, w': Window, addr: int, before: int)
    requires Ring(w) && Rouses(w, w') && MemoryClear(w, addr, before)
    ensures MemoryClear(w', addr, before)
  {
    hide RingPos;
    forall t ensures OlderStore(w', t, before) <==> OlderStore(w, t, before) {
    }
    forall t | YoungestStore(w', t, addr, before) ensures YoungestStore(w, t, addr, before) {
    }
  }

  // ---------------------------------------------------------------- one link

  /** The links still to be followed name operands that wait, each once. */
  ghost predicate Unserved(w: Window, rest: seq<Link>)
    requires Ring(w)
  {
    && TagsOk(rest, w.st)
    && (forall k :: 0 <= k < |rest| ==> rest[k].x < 3)
    && (forall s, j :: 0 <= s < |w.st| && 0 <= j < 3 ==> CntOp(rest, s, w.st[s].tag, j) <= 1)
    && (forall s, j :: 0 <= s < |w.st| && 0 <= j < 3 && CntOp(rest, s, w.st[s].tag, j) == 1 ==>
          Live(w, s) && !w.st[s].ready[j])
  }

  lemma SetReadyLife(s: State, slot: nat, j: nat)
    requires Ring(s.w) && slot < |s.w.st| && j < 3 && !s.w.st[slot].ready[j] && LifeOk(s.w, s.q, [])
    ensures LifeOk(SetReady(s, slot, j).w, s.q, [])
    ensures Rouses(s.w, SetReady(s, slot, j).w)
  {
    var w' := SetReady(s, slot, j).w;
    assert SlotOk(s.w, s.q, [], slot);
    TagsKept(s.q.readyq, s.w.st, w'.st);
    TagsKept(s.q.events, s.w.st, w'.st);
    forall t | 0 <= t < |s.w.st| ensures SlotOk(w', s.q, [], t) {
      assert SlotOk(s.w, s.q, [], t);
      hide RingPos;
    }
    hide SlotOk, TagsOk, RingPos;
  }

  lemma SetReadyFlow(s: State, slot: nat, j: nat)
    requires Ring(s.w) && slot < |s.w.st| && j < 3 && !s.w.st[slot].ready[j] && LoadsOk(s.w) && ProgressOk(s.w)
    ensures var w' := SetReady(s, slot, j).w;
      LoadsOk(w') && forall t :: Live(w', t) && t != slot && OpsReady(w'.st[t]) && !w'.st[t].kind.Load? ==>
        w'.st[t].queued || w'.st[t].issued
  {
    var w' := SetReady(s, slot, j).w;
    assert Rouses(s.w, w');
    hide RingPos;
    forall t | LiveL(w', t) && w'.st[t].kind.Load? && (w'.st[t].queued || w'.st[t].issued)
      ensures MemoryClear(w', w'.st[t].addr, w'.st[t].seqno)
    {
      RousesClear(s.w, w', s.w.st[t].addr, s.w.st[t].seqno);
      hide MemoryClear;
    }
    hide MemoryClear;
  }

  lemma WakeSlotOk(s: State, slot: nat, j: nat, from: nat)
    requires Ring(s.w) && Live(s.w, slot) && j < 3 && !s.w.st[slot].ready[j] && FlowOk(s.w, s.q, [], from)
    ensures match WakeSlot(s, slot, j)
      case Panic(p) => p == OutOfLinks
      case Ok(r) => FlowOk(r.w, r.q, [], from)
  {
    assert PhaseOk(s.w.st[slot]) by {
      assert SlotOk(s.w, s.q, [], slot);
    }
    SetReadyLife(s, slot, j);
    SetReadyFlow(s, slot, j);
    var s1 := SetReady(s, slot, j);
    if OpsReady(s1.w.st[slot]) && !s1.w.st[slot].kind.Load? {
      assert Live(s1.w, slot) && Waiting(s1.w.st[slot]);
      hide RingPos, LifeOk, LoadsOk;
      EnqueueQuiet(s1, slot);
      if ReadyEnqueue(s1, slot).Ok? {
        EnqueueLife(s1, [], slot);
        EnqueueFlow(s1, slot);
        EnqueueSets(s1, slot);
      }
      hide ReadyEnqueue;
    } else {
      hide RingPos, LifeOk, LoadsOk;
    }
  }

  /** Exactly the operands named by `hit` become ready. */
  ghost predicate Readies(w: Window, w': Window, chain: seq<Link>) {
    && Rouses(w, w')
    && forall t, j :: 0 <= t < |w.st| && 0 <= j < 3 ==>
         (w'.st[t].ready[j] <==> w.st[t].ready[j] || CntOp(chain, t, w.st[t].tag, j) > 0)
  }

  ghost predicate OnlyReadyq(s: State, s': State) {
    s' == s.(w := s'.w, q := s.q.(free := s'.q.free, readyq := s'.q.readyq))
  }

  lemma WakeSlotIs(s: State, slot: nat, j: nat)
    requires Ring(s.w) && slot < |s.w.st| && j < 3 && WakeSlot(s, slot, j).Ok?
    ensures var rs, rs' := s.w.st[slot], WakeSlot(s, slot, j).value.w.st[slot];
      && rs' == rs.(ready := rs.ready[j := true], queued := rs'.queued) && (rs.queued ==> rs'.queued)
      && WakeSlot(s, slot, j).value.w == Put(s.w, slot, rs')
  {
    var s1 := SetReady(s, slot, j);
    if OpsReady(s1.w.st[slot]) && !s1.w.st[slot].kind.Load? {
      EnqueueSets(s1, slot);
      hide ReadyEnqueue;
    }
  }

  lemma WakeSlotSets(s: State, slot: nat, j: nat)
    requires Ring(s.w) && slot < |s.w.st| && j < 3 && WakeSlot(s, slot, j).Ok?
    ensures var r := WakeSlot(s, slot, j).value;
      && Rouses(s.w, r.w)
      && r.w.st[slot].ready == s.w.st[slot].ready[j := true]
      && forall t :: 0 <= t < |s.w.st| && t != slot ==> r.w.st[t].ready == s.w.st[t].ready
  {
    WakeSlotIs(s, slot, j);
    hide WakeSlot, RingPos;
  }

  lemma WakeSlotOnly(s: State, slot: nat, j: nat)
    requires Ring(s.w) && slot < |s.w.st| && j < 3 && WakeSlot(s, slot, j).Ok?
    ensures OnlyReadyq(s, WakeSlot(s, slot, j).value)
  {
  }

  lemma CntOpCons(l: Link, rest: seq<Link>, t: int, tag: int, j: int)
    ensures CntOp([l] + rest, t, tag, j) == CntOp(rest, t, tag, j) + (if Hits(l, t, tag) && l.x == j then 1 else 0)
  {
    assert ([l] + rest)[1..] == rest;
  }

  lemma WakeOneOk(s: State, l: Link, rest: seq<Link>, from: nat)
    requires Ring(s.w) && Unserved(s.w, [l] + rest) && FlowOk(s.w, s.q, [], from)
    ensures match WakeOne(s, l)
      case Panic(p) => p == OutOfLinks
      case Ok(r) => FlowOk(r.w, r.q, [], from)
  {
    assert ([l] + rest)[0] == l;
    if Valid(s.w.st, l) {
      CntFound([l] + rest, 0);
      assert CntOp([l] + rest, l.slot, l.tag, l.x) == 1;
      WakeSlotOk(s, l.slot, l.x, from);
      if WakeSlot(s, l.slot, l.x).Ok? {
        var r := WakeSlot(s, l.slot, l.x).value;
        LifeSame(r.w, r.q, FreeLink(r.q, l), []);
      }
      hide LifeOk, ProgressOk, LoadsOk, RingPos, WakeSlot;
    } else {
      LifeSame(s.w, s.q, FreeLink(s.q, l), []);
      hide LifeOk, ProgressOk, LoadsOk, RingPos;
    }
  }

  lemma WakeOneSets(s: State, l: Link)
    requires Ring(s.w) && WakeOne(s, l).Ok?
    ensures var r := WakeOne(s, l).value;
      Readies(s.w, r.w, [l]) && OnlyReadyq(s, r)
  {
    var r := WakeOne(s, l).value;
    if Valid(s.w.st, l) {
      WakeSlotSets(s, l.slot, l.x);
      WakeSlotOnly(s, l.slot, l.x);
    }
    forall t, j | 0 <= t < |s.w.st| && 0 <= j < 3
      ensures r.w.st[t].ready[j] <==> s.w.st[t].ready[j] || CntOp([l], t, s.w.st[t].tag, j) > 0
    {
      CntOpCons(l, [], t, s.w.st[t].tag, j);
      assert [l] + [] == [l];
    }
    hide RingPos, WakeSlot;
  }

  lemma UnservedOperand(w: Window, w': Window, l: Link, rest: seq<Link>, s: int, j: int)
    requires Ring(w) && Unserved(w, [l] + rest) && Readies(w, w', [l]) && 0 <= s < |w.st| && 0 <= j < 3
    ensures CntOp(rest, s, w'.st[s].tag, j) <= 1
    ensures CntOp(rest, s, w'.st[s].tag, j) == 1 ==> Live(w', s) && !w'.st[s].ready[j]
  {
    CntOpCons(l, rest, s, w.st[s].tag, j);
    CntOpCons(l, [], s, w.st[s].tag, j);
    assert [l] + [] == [l];
    hide RingPos, TagsOk;
  }

  lemma TagsTail(l: Link, rest: seq<Link>, st: seq<Station>)
    requires TagsOk([l] + rest, st)
    ensures TagsOk(rest, st)
  {
    assert forall k :: 0 <= k < |rest| ==> rest[k] == ([l] + rest)[k + 1];
  }

  lemma UnservedNext(w: Window, w': Window, l: Link, rest: seq<Link>)
    requires Ring(w) && Unserved(w, [l] + rest) && Readies(w, w', [l])
    ensures Unserved(w', rest)
  {
    TagsTail(l, rest, w.st);
    TagsKept(rest, w.st, w'.st);
    forall k | 0 <= k < |rest| ensures rest[k].x < 3 {
      assert rest[k] == ([l] + rest)[k + 1];
    }
    forall s, j | 0 <= s < |w.st| && 0 <= j < 3
      ensures CntOp(rest, s, w'.st[s].tag, j) <= 1
      ensures CntOp(rest, s, w'.st[s].tag, j) == 1 ==> Live(w', s) && !w'.st[s].ready[j]
    {
      hide Unserved, Readies;
      UnservedOperand(w, w', l, rest, s, j);
    }
    hide RingPos, TagsOk, CntOp;
  }

  lemma ReadiesTrans(w: Window, w1: Window, w2: Window, l: Link, rest: seq<Link>)
    requires Readies(w, w1, [l]) && Readies(w1, w2, rest)
    ensures Readies(w, w2, [l] + rest)
  {
    RousesTrans(w, w1, w2);
    forall t, j | 0 <= t < |w.st| && 0 <= j < 3
      ensures w2.st[t].ready[j] <==> w.st[t].ready[j] || CntOp([l] + rest, t, w.st[t].tag, j) > 0
    {
      CntOpCons(l, rest, t, w.st[t].tag, j);
      CntOpCons(l, [], t, w.st[t].tag, j);
      assert [l] + [] == [l];
    }
  }

  /** Walking a chain makes exactly the operands on it ready, each of which was waiting. */
  lemma {:induction false} WakeAllOk(s: State, chain: seq<Link>, from: nat)
    requires Ring(s.w) && Unserved(s.w, chain) && FlowOk(s.w, s.q, [], from)
    ensures match WakeAll(s, chain)
      case Panic(p) => p == OutOfLinks
      case Ok(r) => FlowOk(r.w, r.q, [], from) && Readies(s.w, r.w, chain) && OnlyReadyq(s, r)
    decreases |chain|
  {
    if chain == [] {
      assert Readies(s.w, s.w, chain);
    } else {
      assert chain == [chain[0]] + chain[1..];
      hide Unserved, FlowOk, WakeOne, RingPos, Readies;
      WakeOneOk(s, chain[0], chain[1..], from);
      if WakeOne(s, chain[0]).Ok? {
        var s1 := WakeOne(s, chain[0]).value;
        WakeOneSets(s, chain[0]);
        UnservedNext(s.w, s1.w, chain[0], chain[1..]);
        WakeAllOk(s1, chain[1..], from);
        if WakeAll(s1, chain[1..]).Ok? {
          ReadiesTrans(s.w, s1.w, WakeAll(s1, chain[1..]).value.w, chain[0], chain[1..]);
        }
      }
    }
  }

  lemma WakeSlotLinks(s: State, slot: nat, j: nat, id: nat)
    requires Ring(s.w) && slot < |s.w.st| && j < 3 && WakeSlot(s, slot, j).Ok?
    ensures var r := WakeSlot(s, slot, j).value; LinkCnt(r.w, r.q, id) == LinkCnt(s.w, s.q, id)
  {
    var s1 := SetReady(s, slot, j);
    ChainCntSame(s.w.st, s1.w.st, id);
    if OpsReady(s1.w.st[slot]) && !s1.w.st[slot].kind.Load? {
      EnqueueLinks(s1, slot, id);
    }
  }

  lemma {:induction false} WakeLinks(s: State, chain: seq<Link>, id: nat)
    requires Ring(s.w) && WakeAll(s, chain).Ok?
    ensures var r := WakeAll(s, chain).value; LinkCnt(r.w, r.q, id) == LinkCnt(s.w, s.q, id) + IdCnt(chain, id)
    decreases |chain|
  {
    hide LinkCnt, RingPos, WakeSlot;
    if chain == [] {
    } else {
      var l := chain[0];
      if Valid(s.w.st, l) {
        WakeSlotLinks(s, l.slot, l.x, id);
        var s1 := WakeSlot(s, l.slot, l.x).value;
        FreeLinks(s1.w, s1.q, l, id);
      } else {
        FreeLinks(s.w, s.q, l, id);
      }
      WakeLinks(WakeOne(s, l).value, chain[1..], id);
    }
  }
}
