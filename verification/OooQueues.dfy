/**
 * Ready queue and event queue: each operation below keeps the life-cycle invariant, conserves
 * link records and changes nothing but phases.
 */
module OooQueues {
  import opened OooTypes
  import opened OooStages
  import opened OooInv
  import opened OooFrames

  lemma TagsKept(q: seq<Link>, st: seq<Station>, st': seq<Station>)
    requires TagsOk(q, st) && |st| == |st'|
    requires forall s :: 0 <= s < |st| ==> st[s].tag <= st'[s].tag
    ensures TagsOk(q, st')
  {
  }

  lemma TagsInsert(q: seq<Link>, l: Link, st: seq<Station>)
    requires TagsOk(q, st) && l.slot < |st| && l.tag <= st[l.slot].tag
    ensures TagsOk(InsertSorted(q, l), st) && TagsOk([l] + q, st)
  {
    InsertMembers(q, l);
  }

  /** The life cycle looks only at tags and phases. */
  lemma LifeFrame(w: Window, w': Window, q: Queues)
    requires Ring(w) && SameRings(w, w') && LifeOk(w, q, [])
    requires forall s :: 0 <= s < |w.st| ==>
      && w'.st[s].tag == w.st[s].tag && w'.st[s].queued == w.st[s].queued
      && w'.st[s].issued == w.st[s].issued && w'.st[s].completed == w.st[s].completed
    requires forall s :: Live(w, s) ==> PhaseOk(w'.st[s])
    ensures LifeOk(w', q, [])
  {
    TagsKept(q.readyq, w.st, w'.st);
    TagsKept(q.events, w.st, w'.st);
    forall t | 0 <= t < |w.st| ensures SlotOk(w', q, [], t) {
      assert SlotOk(w, q, [], t);
      hide RingPos, PhaseOk;
    }
    hide SlotOk, TagsOk, RingPos;
  }

  /** The free list plays no part in the life cycle. */
  lemma LifeSame(w: Window, q: Queues, q': Queues, pend: seq<Link>)
    requires Ring(w) && LifeOk(w, q, pend) && q'.readyq == q.readyq && q'.events == q.events
    ensures LifeOk(w, q', pend)
  {
    forall t | 0 <= t < |w.st| ensures SlotOk(w, q', pend, t) {
      assert SlotOk(w, q, pend, t);
    }
    hide SlotOk, TagsOk;
  }

  /** What enqueuing on the ready queue does to the counts. */
  lemma EnqueueCounts(s: State, slot: int, t: int, tag: int)
    requires Ring(s.w) && 0 <= slot < |s.w.st| && ReadyEnqueue(s, slot).Ok?
    ensures Cnt(ReadyEnqueue(s, slot).value.q.readyq, t, tag)
         == Cnt(s.q.readyq, t, tag) + (if t == slot && tag == s.w.st[slot].tag then 1 else 0)
  {
    var rs := s.w.st[slot];
    var l := Link(s.q.free[0], slot, rs.tag, rs.seqno);
    CntInsert(s.q.readyq, l, t, tag);
    CntCons(l, s.q.readyq, t, tag);
  }

  /** Enqueuing conserves link records. */
  lemma EnqueueLinks(s: State, slot: int, id: nat)
    requires Ring(s.w) && 0 <= slot < |s.w.st| && ReadyEnqueue(s, slot).Ok?
    ensures var r := ReadyEnqueue(s, slot).value; LinkCnt(r.w, r.q, id) == LinkCnt(s.w, s.q, id)
  {
    var r := ReadyEnqueue(s, slot).value;
    var rs := s.w.st[slot];
    var l := Link(s.q.free[0], slot, rs.tag, rs.seqno);
    IdInsert(s.q.readyq, l, id);
    IdCons(l, s.q.readyq, id);
    ChainCntSame(s.w.st, r.w.st, id);
    assert s.q.free[1..] == r.q.free;
    hide IdCnt, ChainCnt, InsertSorted, RingPos;
  }

  lemma EnqueueQuiet(s: State, slot: int)
    requires Ring(s.w) && 0 <= slot < |s.w.st| && !s.w.st[slot].queued
    ensures ReadyEnqueue(s, slot).Ok? || ReadyEnqueue(s, slot).panic == OutOfLinks
    ensures ReadyEnqueue(s, slot).Ok? ==>
      var r := ReadyEnqueue(s, slot).value;
      Quiet(s.w, r.w) && r == s.(w := r.w, q := s.q.(free := r.q.free, readyq := r.q.readyq))
  {
  }

  lemma EnqueueSets(s: State, slot: int)
    requires Ring(s.w) && 0 <= slot < |s.w.st| && ReadyEnqueue(s, slot).Ok?
    ensures ReadyEnqueue(s, slot).value.w == Put(s.w, slot, s.w.st[slot].(queued := true))
  {
  }

  lemma EnqueueLife(s: State, pend: seq<Link>, slot: int)
    requires Ring(s.w) && LifeOk(s.w, s.q, pend) && Live(s.w, slot)
    requires var rs := s.w.st[slot]; OpsReady(rs) && Waiting(rs)
    requires ReadyEnqueue(s, slot).Ok?
    ensures var r := ReadyEnqueue(s, slot).value; LifeOk(r.w, r.q, pend)
  {
    var r := ReadyEnqueue(s, slot).value;
    EnqueueTags(s, slot);
    EnqueueSets(s, slot);
    EnqueueQuiet(s, slot);
    hide ReadyEnqueue, RingPos, TagsOk, Quiet;
    TagsKept(pend, s.w.st, r.w.st);
    TagsKept(s.q.events, s.w.st, r.w.st);
    forall t | 0 <= t < |s.w.st| ensures SlotOk(r.w, r.q, pend, t) {
      EnqueueCounts(s, slot, t, s.w.st[t].tag);
      assert SlotOk(s.w, s.q, pend, t);
    }
    hide SlotOk;
  }

  lemma EnqueueTags(s: State, slot: int)
    requires Ring(s.w) && 0 <= slot < |s.w.st| && TagsOk(s.q.readyq, s.w.st) && ReadyEnqueue(s, slot).Ok?
    ensures var r := ReadyEnqueue(s, slot).value; TagsOk(r.q.readyq, r.w.st)
  {
    var r := ReadyEnqueue(s, slot).value;
    var rs := s.w.st[slot];
    TagsInsert(s.q.readyq, Link(s.q.free[0], slot, rs.tag, rs.seqno), s.w.st);
    TagsKept(r.q.readyq, s.w.st, r.w.st);
    hide TagsOk;
  }

  // ---------------------------------------------------------------- issue

  /** A node of a squashed operation can be dropped. */
  lemma DropNode(w: Window, q: Queues, node: Link, rest: seq<Link>)
    requires Ring(w) && LifeOk(w, q, [node] + rest) && !Valid(w.st, node)
    ensures LifeOk(w, q, rest)
  {
    var pend := [node] + rest;
    assert TagsOk(rest, w.st) by {
      assert forall k :: 0 <= k < |rest| ==> rest[k] == pend[k + 1];
    }
    forall t | 0 <= t < |w.st| ensures SlotOk(w, q, rest, t) {
      assert SlotOk(w, q, pend, t);
      CntCons(node, rest, t, w.st[t].tag);
      hide RingPos;
    }
    hide SlotOk, TagsOk;
  }

  /** A valid ready node belongs to a live queued operation with all operands. */
  lemma NodeIsQueued(w: Window, q: Queues, node: Link, rest: seq<Link>)
    requires Ring(w) && LifeOk(w, q, [node] + rest) && Valid(w.st, node)
    ensures Live(w, node.slot) && w.st[node.slot].queued && PhaseOk(w.st[node.slot])
  {
    assert SlotOk(w, q, [node] + rest, node.slot);
    CntCons(node, rest, node.slot, node.tag);
    hide RingPos;
  }

  /** Taking a valid node off makes its operation wait again. */
  lemma TakeNode(w: Window, q: Queues, node: Link, rest: seq<Link>)
    requires Ring(w) && LifeOk(w, q, [node] + rest) && Valid(w.st, node)
    ensures LifeOk(Put(w, node.slot, w.st[node.slot].(queued := false)), q, rest)
    ensures Live(w, node.slot)
  {
    NodeIsQueued(w, q, node, rest);
    var pend := [node] + rest;
    var w1 := Put(w, node.slot, w.st[node.slot].(queued := false));
    assert TagsOk(rest, w.st) by {
      assert forall k :: 0 <= k < |rest| ==> rest[k] == pend[k + 1];
    }
    TagsKept(q.readyq, w.st, w1.st);
    TagsKept(rest, w.st, w1.st);
    TagsKept(q.events, w.st, w1.st);
    forall t | 0 <= t < |w.st| ensures SlotOk(w1, q, rest, t) {
      assert SlotOk(w, q, pend, t);
      CntCons(node, rest, t, w.st[t].tag);
      hide RingPos;
    }
    hide SlotOk, TagsOk;
  }

  /** A store completes as it issues, without an event. */
  lemma StoreLife(w: Window, q: Queues, rest: seq<Link>, slot: int)
    requires Ring(w) && LifeOk(w, q, rest) && Live(w, slot)
    requires Waiting(w.st[slot]) && OpsReady(w.st[slot])
    ensures LifeOk(Put(w, slot, w.st[slot].(issued := true, completed := true)), q, rest)
  {
    var w1 := Put(w, slot, w.st[slot].(issued := true, completed := true));
    TagsKept(q.readyq, w.st, w1.st);
    TagsKept(rest, w.st, w1.st);
    TagsKept(q.events, w.st, w1.st);
    forall t | 0 <= t < |w.st| ensures SlotOk(w1, q, rest, t) {
      assert SlotOk(w, q, rest, t);
      hide RingPos;
    }
    hide SlotOk, TagsOk;
  }

  lemma StartFacts(s: State, slot: int, lat: Latency)
    requires Ring(s.w) && 0 <= slot < |s.w.st| && !s.w.st[slot].completed
    ensures Start(s, slot, lat).Ok? <==> s.q.free != []
    ensures Start(s, slot, lat).Panic? ==> Start(s, slot, lat).panic == OutOfLinks
    ensures Start(s, slot, lat).Ok? ==>
      var r := Start(s, slot, lat).value;
      var l := Link(s.q.free[0], slot, s.w.st[slot].tag, s.q.now + lat);
      && r.w == Put(s.w, slot, s.w.st[slot].(issued := true))
      && r == s.(w := r.w, q := s.q.(free := s.q.free[1..], events := InsertSorted(s.q.events, l)))
  {
  }

  lemma StartLife(s: State, rest: seq<Link>, slot: int, lat: Latency)
    requires Ring(s.w) && LifeOk(s.w, s.q, rest) && Live(s.w, slot)
    requires Waiting(s.w.st[slot]) && OpsReady(s.w.st[slot]) && !s.w.st[slot].kind.Store?
    requires Start(s, slot, lat).Ok?
    ensures var r := Start(s, slot, lat).value; LifeOk(r.w, r.q, rest)
  {
    StartFacts(s, slot, lat);
    var r := Start(s, slot, lat).value;
    hide Start;
    var l := Link(s.q.free[0], slot, s.w.st[slot].tag, s.q.now + lat);
    TagsInsert(s.q.events, l, s.w.st);
    TagsKept(s.q.readyq, s.w.st, r.w.st);
    TagsKept(rest, s.w.st, r.w.st);
    TagsKept(r.q.events, s.w.st, r.w.st);
    forall t | 0 <= t < |s.w.st| ensures SlotOk(r.w, r.q, rest, t) {
      assert SlotOk(s.w, s.q, rest, t);
      CntInsert(s.q.events, l, t, s.w.st[t].tag);
      hide RingPos;
    }
    hide SlotOk, TagsOk;
  }

  lemma StartEvents(s: State, slot: int, lat: Latency)
    requires Ring(s.w) && 0 <= slot < |s.w.st| && Start(s, slot, lat).Ok? && EventsOk(s.q, s.q.now + 1)
    ensures EventsOk(Start(s, slot, lat).value.q, s.q.now + 1)
  {
    StartFacts(s, slot, lat);
    var l := Link(s.q.free[0], slot, s.w.st[slot].tag, s.q.now + lat);
    InsertKeepsSorted(s.q.events, l);
    InsertMembers(s.q.events, l);
  }

  lemma StartLinks(s: State, slot: int, lat: Latency, id: nat)
    requires Ring(s.w) && 0 <= slot < |s.w.st| && Start(s, slot, lat).Ok?
    ensures var r := Start(s, slot, lat).value; LinkCnt(r.w, r.q, id) == LinkCnt(s.w, s.q, id)
  {
    StartFacts(s, slot, lat);
    var r := Start(s, slot, lat).value;
    hide Start;
    IdInsert(s.q.events, Link(s.q.free[0], slot, s.w.st[slot].tag, s.q.now + lat), id);
    ChainCntSame(s.w.st, r.w.st, id);
  }
}
