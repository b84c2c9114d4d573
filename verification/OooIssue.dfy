/**
 * ruu_issue and lsq_refresh: what the ready queue releases, and which loads get onto it.
 */
module OooIssue {
  import opened OooTypes
  import opened OooStages
  import opened OooInv
  import opened OooFrames
  import opened OooQueues
  import opened OooStores

  /** Only phases and queues differ. */
  ghost predicate OnlyPhases(s: State, s': State) {
    Quiet(s.w, s'.w) && s' == s.(w := s'.w, q := s'.q) && s'.q.now == s.q.now
  }

  /** Operations become queued or issued only if they were queued before, and none stops progressing. */
  ghost predicate Advances(w: Window, w': Window) {
    && Quiet(w, w')
    && forall s :: 0 <= s < |w.st| ==>
         ((w'.st[s].queued || w'.st[s].issued) <==> (w.st[s].queued || w.st[s].issued))
  }

  lemma AdvancesFlow(w: Window, w': Window)
    requires Ring(w) && Advances(w, w')
    ensures ProgressOk(w) ==> ProgressOk(w')
    ensures LoadsOk(w) ==> LoadsOk(w')
  {
    hide RingPos;
    if LoadsOk(w) {
      forall s | LiveL(w', s) && w'.st[s].kind.Load? && (w'.st[s].queued || w'.st[s].issued)
        ensures MemoryClear(w', w'.st[s].addr, w'.st[s].seqno)
      {
        QuietClear(w, w', w.st[s].addr, w.st[s].seqno);
      }
      hide MemoryClear;
    }
  }

  /** Queuing a waiting operation, which must be clear of older stores if it is a load. */
  lemma EnqueueFlow(s: State, slot: int)
    requires Ring(s.w) && Live(s.w, slot) && ReadyEnqueue(s, slot).Ok? && LoadsOk(s.w)
    requires LiveL(s.w, slot) && s.w.st[slot].kind.Load? ==> MemoryClear(s.w, s.w.st[slot].addr, s.w.st[slot].seqno)
    ensures var r := ReadyEnqueue(s, slot).value; LoadsOk(r.w) && (ProgressOk(s.w) ==> ProgressOk(r.w))
  {
    EnqueueQuiet(s, slot);
    EnqueueSets(s, slot);
    var r := ReadyEnqueue(s, slot).value;
    hide ReadyEnqueue, RingPos;
    forall t | LiveL(r.w, t) && r.w.st[t].kind.Load? && (r.w.st[t].queued || r.w.st[t].issued)
      ensures MemoryClear(r.w, r.w.st[t].addr, r.w.st[t].seqno)
    {
      assert MemoryClear(s.w, s.w.st[t].addr, s.w.st[t].seqno);
      QuietClear(s.w, r.w, s.w.st[t].addr, s.w.st[t].seqno);
      hide MemoryClear;
    }
    hide MemoryClear;
  }

  // ---------------------------------------------------------------- releasing one operation

  /** The operation in `slot` is waiting to be released. */
  ghost predicate Releasable(w: Window, slot: int)
    requires Ring(w)
  {
    Live(w, slot) && Waiting(w.st[slot]) && OpsReady(w.st[slot])
    && (w.st[slot].kind.Store? ==> slot >= w.nr && !w.st[slot].recover)
  }

  lemma ReleaseQuiet(s: State, slot: int, u: Unit)
    requires Ring(s.w) && Releasable(s.w, slot)
    ensures Release(s, slot, u).Panic? ==> IssueStops(s.w, Release(s, slot, u).panic)
    ensures Release(s, slot, u).Ok? ==> OnlyPhases(s, Release(s, slot, u).value.s)
  {
    var rs := s.w.st[slot];
    if !rs.kind.Store? {
      if rs.noUnit || u.Unit? {
        StartFacts(s, slot, if rs.noUnit then 1 else IssueLatency(s.w, slot, u));
        hide Start;
      } else {
        EnqueueQuiet(s, slot);
        hide ReadyEnqueue;
      }
    }
    hide RingPos;
  }

  lemma ReleaseSets(s: State, slot: int, u: Unit)
    requires Ring(s.w) && Releasable(s.w, slot) && Release(s, slot, u).Ok?
    ensures var r := Release(s, slot, u).value.s;
      (r.w.st[slot].queued || r.w.st[slot].issued) && forall t :: 0 <= t < |s.w.st| && t != slot ==>
        r.w.st[t] == s.w.st[t]
  {
    hide RingPos;
  }

  lemma ReleaseLife(s: State, rest: seq<Link>, slot: int, u: Unit)
    requires Ring(s.w) && LifeOk(s.w, s.q, rest) && Releasable(s.w, slot) && Release(s, slot, u).Ok?
    ensures var r := Release(s, slot, u).value.s; LifeOk(r.w, r.q, rest)
  {
    var rs := s.w.st[slot];
    if rs.kind.Store? {
      StoreLife(s.w, s.q, rest, slot);
    } else if rs.noUnit || u.Unit? {
      StartLife(s, rest, slot, if rs.noUnit then 1 else IssueLatency(s.w, slot, u));
    } else {
      EnqueueLife(s, rest, slot);
    }
    hide LifeOk, RingPos;
  }

  lemma ReleaseEvents(s: State, slot: int, u: Unit)
    requires Ring(s.w) && Releasable(s.w, slot) && Release(s, slot, u).Ok? && EventsOk(s.q, s.q.now + 1)
    ensures EventsOk(Release(s, slot, u).value.s.q, s.q.now + 1)
  {
    var rs := s.w.st[slot];
    if !rs.kind.Store? && (rs.noUnit || u.Unit?) {
      StartEvents(s, slot, if rs.noUnit then 1 else IssueLatency(s.w, slot, u));
      hide EventsOk;
    }
  }

  lemma ReleaseLinks(s: State, slot: int, u: Unit, id: nat)
    requires Ring(s.w) && Releasable(s.w, slot) && Release(s, slot, u).Ok?
    ensures var r := Release(s, slot, u).value.s; LinkCnt(r.w, r.q, id) == LinkCnt(s.w, s.q, id)
  {
    var rs := s.w.st[slot];
    if rs.kind.Store? {
      ChainCntSame(s.w.st, Release(s, slot, u).value.s.w.st, id);
    } else if rs.noUnit || u.Unit? {
      StartLinks(s, slot, if rs.noUnit then 1 else IssueLatency(s.w, slot, u), id);
      hide LinkCnt;
    } else {
      EnqueueLinks(s, slot, id);
      hide LinkCnt;
    }
  }

  // ---------------------------------------------------------------- the issue loop

  /** What handling one node of the old ready queue must leave, `rest` being the nodes still to come. */
  ghost predicate Handled(s: State, rest: seq<Link>, s': State)
    requires Ring(s.w)
  {
    && OnlyPhases(s, s')
    && FlowOk(s'.w, s'.q, rest, s.q.now + 1)
  }

  lemma UnqueueOk(s: State, node: Link, rest: seq<Link>)
    requires Ring(s.w) && KindsOk(s.w) && LifeOk(s.w, s.q, [node] + rest) && Valid(s.w.st, node)
    ensures var s1 := Unqueue(s, node.slot);
      && s.w.st[node.slot].queued && PhaseOk(s.w.st[node.slot])
      && Quiet(s.w, s1.w) && Releasable(s1.w, node.slot) && LifeOk(s1.w, s1.q, rest)
  {
    NodeIsQueued(s.w, s.q, node, rest);
    TakeNode(s.w, s.q, node, rest);
    hide LifeOk, RingPos;
  }

  /** Putting the operation back in motion restores progress and memory order. */
  lemma RestartFlow(s: State, slot: int, s': State)
    requires Ring(s.w) && Live(s.w, slot) && s.w.st[slot].queued && ProgressOk(s.w) && LoadsOk(s.w)
    requires OnlyPhases(Unqueue(s, slot), s')
    requires s'.w.st[slot].queued || s'.w.st[slot].issued
    requires forall t :: 0 <= t < |s.w.st| && t != slot ==> s'.w.st[t] == s.w.st[t]
    ensures OnlyPhases(s, s') && ProgressOk(s'.w) && LoadsOk(s'.w)
  {
    var s1 := Unqueue(s, slot);
    assert Quiet(s.w, s1.w);
    QuietTrans(s.w, s1.w, s'.w);
    assert Advances(s.w, s'.w);
    AdvancesFlow(s.w, s'.w);
    hide ProgressOk, LoadsOk, RingPos;
  }

  lemma IssueOneOk(s: State, node: Link, rest: seq<Link>, u: Unit)
    requires Ring(s.w) && KindsOk(s.w) && FlowOk(s.w, s.q, [node] + rest, s.q.now + 1)
    ensures match IssueOne(s, node, u)
      case Panic(p) => IssueStops(s.w, p)
      case Ok(r) => Handled(s, rest, r.s)
  {
    if Valid(s.w.st, node) {
      var s1 := Unqueue(s, node.slot);
      UnqueueOk(s, node, rest);
      ReleaseQuiet(s1, node.slot, u);
      if Release(s1, node.slot, u).Ok? {
        var r := Release(s1, node.slot, u).value.s;
        ReleaseSets(s1, node.slot, u);
        ReleaseLife(s1, rest, node.slot, u);
        ReleaseEvents(s1, node.slot, u);
        RestartFlow(s, node.slot, r);
        LifeSame(r.w, r.q, FreeLink(r.q, node), rest);
      }
      hide LifeOk, ProgressOk, LoadsOk, Release, RingPos;
    } else {
      DropNode(s.w, s.q, node, rest);
      LifeSame(s.w, s.q, FreeLink(s.q, node), rest);
      hide LifeOk, ProgressOk, LoadsOk, RingPos;
    }
  }

  lemma RequeueOk(s: State, node: Link, rest: seq<Link>)
    requires Ring(s.w) && KindsOk(s.w) && FlowOk(s.w, s.q, [node] + rest, s.q.now + 1)
    ensures match Requeue(s, node)
      case Panic(p) => p == OutOfLinks
      case Ok(r) => Handled(s, rest, r)
  {
    if Valid(s.w.st, node) {
      var s1 := Unqueue(s, node.slot);
      UnqueueOk(s, node, rest);
      EnqueueQuiet(s1, node.slot);
      if ReadyEnqueue(s1, node.slot).Ok? {
        var r := ReadyEnqueue(s1, node.slot).value;
        EnqueueSets(s1, node.slot);
        EnqueueLife(s1, rest, node.slot);
        RestartFlow(s, node.slot, r);
        LifeSame(r.w, r.q, FreeLink(r.q, node), rest);
      }
      hide LifeOk, ProgressOk, LoadsOk, ReadyEnqueue, RingPos;
    } else {
      DropNode(s.w, s.q, node, rest);
      LifeSame(s.w, s.q, FreeLink(s.q, node), rest);
      hide LifeOk, ProgressOk, LoadsOk, RingPos;
    }
  }

  lemma SamePhases(s: State)
    ensures OnlyPhases(s, s)
  {
  }

  lemma HandledTrans(s: State, s1: State, s2: State)
    requires OnlyPhases(s, s1) && OnlyPhases(s1, s2)
    ensures OnlyPhases(s, s2)
  {
    QuietTrans(s.w, s1.w, s2.w);
  }

  lemma HandleOk(s: State, node: Link, rest: seq<Link>, width: nat, u: Unit)
    requires Ring(s.w) && Ordered(s.w) && FlowOk(s.w, s.q, [node] + rest, s.q.now + 1)
    ensures match HandleNode(s, node, width, u)
      case Panic(p) => IssueStops(s.w, p)
      case Ok(r) => Handled(s, rest, r.s) && Ordered(r.s.w)
  {
    if width == 0 {
      RequeueOk(s, node, rest);
    } else {
      IssueOneOk(s, node, rest, u);
    }
    var o := HandleNode(s, node, width, u);
    if o.Ok? {
      QuietAlike(s.w, o.value.s.w);
      SameOrdered(s.w, o.value.s.w);
    }
    hide Requeue, IssueOne, Quiet, FlowOk, Ordered, RingPos;
  }

  lemma {:induction false} IssueNodesOk(s: State, nodes: seq<Link>, width: nat, units: nat -> Unit)
    requires Ring(s.w) && Ordered(s.w) && FlowOk(s.w, s.q, nodes, s.q.now + 1)
    ensures match IssueNodes(s, nodes, width, units)
      case Panic(p) => IssueStops(s.w, p)
      case Ok(r) => OnlyPhases(s, r) && FlowOk(r.w, r.q, [], s.q.now + 1)
    decreases |nodes|
  {
    hide HandleNode, FlowOk, Ordered, RingPos, ResultFree, Quiet;
    if nodes == [] {
      SamePhases(s);
    } else {
      assert nodes == [nodes[0]] + nodes[1..];
      HandleOk(s, nodes[0], nodes[1..], width, units(|nodes|));
      var o := HandleNode(s, nodes[0], width, units(|nodes|));
      if o.Ok? {
        var width' := if o.value.used then width - 1 else width;
        IssueNodesOk(o.value.s, nodes[1..], width', units);
        match IssueNodes(o.value.s, nodes[1..], width', units)
        case Panic(p) => QuietStops(s.w, o.value.s.w, p);
        case Ok(r) => HandledTrans(s, o.value.s, r);
      }
    }
  }

  lemma UnqueueLinks(s: State, slot: int, id: nat)
    requires 0 <= slot < |s.w.st|
    ensures LinkCnt(Unqueue(s, slot).w, s.q, id) == LinkCnt(s.w, s.q, id)
  {
    ChainCntSame(s.w.st, Unqueue(s, slot).w.st, id);
  }

  lemma FreeLinks(w: Window, q: Queues, l: Link, id: nat)
    ensures LinkCnt(w, FreeLink(q, l), id) == LinkCnt(w, q, id) + (if l.id == id then 1 else 0)
  {
    FreeCons(l, q, id);
  }

  lemma NodeLinks(s: State, node: Link, rest: seq<Link>, width: nat, u: Unit, id: nat)
    requires Ring(s.w) && Ordered(s.w) && FlowOk(s.w, s.q, [node] + rest, s.q.now + 1)
    requires HandleNode(s, node, width, u).Ok?
    ensures var r := HandleNode(s, node, width, u).value.s;
      LinkCnt(r.w, r.q, id) == LinkCnt(s.w, s.q, id) + (if node.id == id then 1 else 0)
  {
    hide LinkCnt, LifeOk, ProgressOk, LoadsOk, EventsOk, OrderedRuu, OrderedLsq, Numbered, KindsOk, RingPos;
    if Valid(s.w.st, node) {
      var s1 := Unqueue(s, node.slot);
      UnqueueOk(s, node, rest);
      UnqueueLinks(s, node.slot, id);
      if width == 0 {
        EnqueueLinks(s1, node.slot, id);
        var r := ReadyEnqueue(s1, node.slot).value;
        FreeLinks(r.w, r.q, node, id);
      } else {
        ReleaseLinks(s1, node.slot, u, id);
        var r := Release(s1, node.slot, u).value.s;
        FreeLinks(r.w, r.q, node, id);
      }
    } else {
      FreeLinks(s.w, s.q, node, id);
    }
  }

  lemma {:induction false} IssueLinks(s: State, nodes: seq<Link>, width: nat, units: nat -> Unit, id: nat)
    requires Ring(s.w) && Ordered(s.w) && FlowOk(s.w, s.q, nodes, s.q.now + 1)
    requires IssueNodes(s, nodes, width, units).Ok?
    ensures var r := IssueNodes(s, nodes, width, units).value;
      LinkCnt(r.w, r.q, id) == LinkCnt(s.w, s.q, id) + IdCnt(nodes, id)
    decreases |nodes|
  {
    hide HandleNode, Quiet, FlowOk, Ordered, RingPos, LinkCnt;
    if nodes == [] {
    } else {
      assert nodes == [nodes[0]] + nodes[1..];
      HandleOk(s, nodes[0], nodes[1..], width, units(|nodes|));
      NodeLinks(s, nodes[0], nodes[1..], width, units(|nodes|), id);
      var r := HandleNode(s, nodes[0], width, units(|nodes|)).value;
      IssueLinks(r.s, nodes[1..], if r.used then width - 1 else width, units, id);
    }
  }

  lemma PhasesCore(c: Config, s: State, s': State, from: nat, from': nat)
    requires CoreOk(c, s, from) && OnlyPhases(s, s') && FlowOk(s'.w, s'.q, [], from')
    requires forall id: nat :: LinkCnt(s'.w, s'.q, id) == LinkCnt(s.w, s.q, id)
    ensures CoreOk(c, s', from')
  {
    hide FlowOk, BodyOk, LinkCnt, FrontOk;
    QuietBody(s, s', 0, 2);
  }

  /** ruu_issue keeps the core invariant; it stops only if the link pool is empty or a store has a result. */
  lemma IssueOk(c: Config, s: State, width: nat, units: nat -> Unit)
    requires CoreOk(c, s, s.q.now + 1)
    ensures match Issue(s, width, units)
      case Panic(p) => IssueStops(s.w, p)
      case Ok(r) => CoreOk(c, r, r.q.now + 1) && OnlyPhases(s, r)
  {
    assert Sized(s) && Ordered(s.w) && FlowOk(s.w, s.q, [], s.q.now + 1);
    hide CoreOk, FlowOk, Ordered, LinkCnt, RingPos, IssueNodes;
    var s0 := s.(q := s.q.(readyq := []));
    FlowMoves(s.w, s.q);
    IssueNodesOk(s0, s.q.readyq, width, units);
    if Issue(s, width, units).Ok? {
      var r := Issue(s, width, units).value;
      forall id: nat ensures LinkCnt(r.w, r.q, id) == LinkCnt(s.w, s.q, id) {
        IssueLinks(s0, s.q.readyq, width, units, id);
        TakenLinks(s.w, s.q, id);
      }
      PhasesCore(c, s, r, s.q.now + 1, s.q.now + 1);
    }
  }

  lemma TakenLinks(w: Window, q: Queues, id: nat)
    ensures LinkCnt(w, q, id) == LinkCnt(w, q.(readyq := []), id) + IdCnt(q.readyq, id)
  {
  }

  /** Taking the whole ready queue off. */
  lemma FlowMoves(w: Window, q: Queues)
    requires Ring(w) && FlowOk(w, q, [], q.now + 1)
    ensures FlowOk(w, q.(readyq := []), q.readyq, q.now + 1)
  {
    forall t | 0 <= t < |w.st| ensures SlotOk(w, q.(readyq := []), q.readyq, t) {
      assert SlotOk(w, q, [], t);
      hide RingPos;
    }
    hide SlotOk, RingPos;
  }
}
