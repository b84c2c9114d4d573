/**
 * When ruu_issue starts an operation, its event is due after the latency of its unit, which for a
 * load depends on the store-forwarding scan.
 */
module OooTiming {
  import opened OooTypes
  import opened OooStages
  import opened OooInv
  import opened OooFrames
  import opened OooIssue

  /** The operation in `slot` can start with the answer `u` of the unit pool. */
  predicate Startable(rs: Station, u: Unit) {
    rs.noUnit || u.Unit?
  }

  /**
   * How long the operation in `slot` takes: one cycle if it needs no unit, and the latency of its unit
   * if it is not a load.
   */
  function StartLatency(w: Window, slot: nat, u: Unit): Latency
    requires Ring(w) && slot < |w.st| && Startable(w.st[slot], u)
  {
    if w.st[slot].noUnit then 1 else if !w.st[slot].kind.Load? then u.oplat else IssueLatency(w, slot, u)
  }

  /** Instance `tag` of `slot` has an event at cycle `at`. */
  ghost predicate Due(events: seq<Link>, slot: int, tag: int, at: int) {
    exists e :: 0 <= e < |events| && events[e].slot == slot && events[e].tag == tag && events[e].x == at
  }

  lemma {:induction false} InsertKeeps(q: seq<Link>, l: Link, e: Link)
    ensures e in InsertSorted(q, l) <==> e == l || e in q
    decreases |q|
  {
    if q == [] || q[0].x >= l.x {
    } else {
      InsertKeeps(q[1..], l, e);
    }
  }

  lemma InsertDue(q: seq<Link>, l: Link, slot: int, tag: int, at: int)
    ensures Due(InsertSorted(q, l), slot, tag, at) <==>
      Due(q, slot, tag, at) || (l.slot == slot && l.tag == tag && l.x == at)
  {
    hide InsertSorted;
    var r := InsertSorted(q, l);
    if Due(r, slot, tag, at) {
      var e :| 0 <= e < |r| && r[e].slot == slot && r[e].tag == tag && r[e].x == at;
      InsertKeeps(q, l, r[e]);
    }
    if Due(q, slot, tag, at) {
      var e :| 0 <= e < |q| && q[e].slot == slot && q[e].tag == tag && q[e].x == at;
      InsertKeeps(q, l, q[e]);
    }
    InsertKeeps(q, l, l);
  }

  lemma {:induction false} DueCounted(q: seq<Link>, slot: int, tag: int, at: int)
    requires Due(q, slot, tag, at)
    ensures Cnt(q, slot, tag) >= 1
  {
    var e :| 0 <= e < |q| && q[e].slot == slot && q[e].tag == tag && q[e].x == at;
    if e == 0 {
    } else {
      assert q[1..][e - 1] == q[e];
      DueCounted(q[1..], slot, tag, at);
    }
  }

  lemma ReleaseTimed(s: State, d: nat, u: Unit, slot: nat, at: int)
    requires Ring(s.w) && d < |s.w.st| && Release(s, d, u).Ok? && slot < |s.w.st|
    ensures var r := Release(s, d, u).value.s; var rs := s.w.st[slot];
      && (Due(s.q.events, slot, rs.tag, at) ==> Due(r.q.events, slot, rs.tag, at))
      && (!rs.kind.Store? && !rs.issued && r.w.st[slot].issued ==>
            d == slot && Startable(rs, u) && Due(r.q.events, slot, rs.tag, s.q.now + StartLatency(s.w, slot, u)))
  {
    hide InsertSorted, Due, Forward;
    var rs := s.w.st[d];
    if !rs.kind.Store? && Startable(rs, u) {
      var s1 := s.(w := Put(s.w, d, rs.(issued := true)));
      var l := Link(s.q.free[0], d, rs.tag, s.q.now + StartLatency(s.w, d, u));
      InsertDue(s.q.events, l, slot, s.w.st[slot].tag, at);
      InsertDue(s.q.events, l, d, rs.tag, l.x);
    }
  }

  lemma HandleTimed(s: State, node: Link, width: nat, u: Unit, slot: nat, at: int)
    requires Ring(s.w) && HandleNode(s, node, width, u).Ok? && slot < |s.w.st|
    ensures var r := HandleNode(s, node, width, u).value.s; var rs := s.w.st[slot];
      && (Due(s.q.events, slot, rs.tag, at) ==> Due(r.q.events, slot, rs.tag, at))
      && (!rs.kind.Store? && !rs.issued && r.w.st[slot].issued ==>
            Startable(rs, u) && Due(r.q.events, slot, rs.tag, s.q.now + StartLatency(s.w, slot, u)))
  {
    hide Release, InsertSorted, Due, StartLatency;
    if width > 0 && Valid(s.w.st, node) && IssueOne(s, node, u).Ok? {
      var s1 := Unqueue(s, node.slot);
      ReleaseTimed(s1, node.slot, u, slot, at);
      if !s.w.st[slot].kind.Store? && !s.w.st[slot].issued && Release(s1, node.slot, u).value.s.w.st[slot].issued {
        QuietLatency(s.w, s1.w, slot, u);
      }
    }
  }

  // ---------------------------------------------------------------- the scan sees the same stores

  lemma QuietStation(w: Window, w': Window, t: nat)
    requires Quiet(w, w') && t < |w.st|
    ensures SameRings(w, w') && w'.st[t].kind == w.st[t].kind && w'.st[t].addr == w.st[t].addr
  {
  }

  /** One step of the forwarding scan. */
  lemma ForwardStep(w: Window, i: nat, addr: nat)
    requires Ring(w) && i < w.nl
    ensures i == w.lh ==> Forward(w, i, addr) == NotFound
    ensures i != w.lh ==> var j := Wrap(i + w.nl - 1, w.nl); var rs := w.st[w.nr + j];
      && j < w.nl && 0 <= RingPos(w.lh, w.nl, j) < RingPos(w.lh, w.nl, i)
      && Forward(w, i, addr) == if rs.kind.Store? && rs.addr == addr then Found(w.nr + j) else Forward(w, j, addr)
  {
  }

  lemma {:induction false} QuietForward(w: Window, w': Window, i: nat, addr: nat)
    requires Ring(w) && Quiet(w, w') && i < w.nl
    ensures Ring(w') && Forward(w', i, addr) == Forward(w, i, addr)
    decreases RingPos(w.lh, w.nl, i)
  {
    hide Quiet, RingPos, Forward;
    ForwardStep(w, i, addr);
    QuietStation(w, w', w.nr + Wrap(i + w.nl - 1, w.nl));
    ForwardStep(w', i, addr);
    if i == w.lh {
    } else {
      QuietForward(w, w', Wrap(i + w.nl - 1, w.nl), addr);
    }
  }

  lemma QuietLatency(w: Window, w': Window, slot: nat, u: Unit)
    requires Ring(w) && Quiet(w, w') && slot < |w.st| && Startable(w.st[slot], u)
    ensures Ring(w') && Startable(w'.st[slot], u) && StartLatency(w', slot, u) == StartLatency(w, slot, u)
  {
    hide Forward, RingPos;
    if slot >= w.nr {
      QuietForward(w, w', slot - w.nr, w.st[slot].addr);
    }
  }

  // ---------------------------------------------------------------- the issue loop

  /** Only what was queued is started or put back. */
  lemma HandleQueued(s: State, node: Link, rest: seq<Link>, width: nat, u: Unit, slot: nat)
    requires Ring(s.w) && KindsOk(s.w) && FlowOk(s.w, s.q, [node] + rest, s.q.now + 1)
    requires HandleNode(s, node, width, u).Ok? && slot < |s.w.st|
    ensures var rs := HandleNode(s, node, width, u).value.s.w.st[slot];
      rs.queued || rs.issued ==> s.w.st[slot].queued || s.w.st[slot].issued
  {
    hide LifeOk, ProgressOk, LoadsOk, EventsOk, KindsOk, InsertSorted, Forward, RingPos;
    if Valid(s.w.st, node) {
      UnqueueOk(s, node, rest);
    }
  }

  /** Some unit has been given to the operation in `slot`, and its event is due accordingly. */
  ghost predicate Timed(w: Window, q: Queues, slot: nat, units: nat -> Unit)
    requires Ring(w) && slot < |w.st|
  {
    exists k :: Startable(w.st[slot], units(k)) &&
      Due(q.events, slot, w.st[slot].tag, q.now + StartLatency(w, slot, units(k)))
  }

  lemma {:induction false} EventsStay(s: State, nodes: seq<Link>, width: nat, units: nat -> Unit, slot: nat, at: int)
    requires Ring(s.w) && Ordered(s.w) && FlowOk(s.w, s.q, nodes, s.q.now + 1) && IssueNodes(s, nodes, width, units).Ok?
    requires slot < |s.w.st| && Due(s.q.events, slot, s.w.st[slot].tag, at)
    ensures Due(IssueNodes(s, nodes, width, units).value.q.events, slot, s.w.st[slot].tag, at)
    decreases |nodes|
  {
    hide HandleNode, FlowOk, Ordered, RingPos, Due;
    if nodes == [] {
    } else {
      assert nodes == [nodes[0]] + nodes[1..];
      HandleOk(s, nodes[0], nodes[1..], width, units(|nodes|));
      HandleTimed(s, nodes[0], width, units(|nodes|), slot, at);
      var r := HandleNode(s, nodes[0], width, units(|nodes|)).value;
      EventsStay(r.s, nodes[1..], if r.used then width - 1 else width, units, slot, at);
    }
  }

  lemma {:induction false} NodesTimed(s: State, nodes: seq<Link>, width: nat, units: nat -> Unit, slot: nat)
    requires Ring(s.w) && Ordered(s.w) && FlowOk(s.w, s.q, nodes, s.q.now + 1) && IssueNodes(s, nodes, width, units).Ok?
    requires slot < |s.w.st| && !s.w.st[slot].kind.Store? && !s.w.st[slot].issued
    requires IssueNodes(s, nodes, width, units).value.w.st[slot].issued
    ensures s.w.st[slot].queued && Timed(s.w, IssueNodes(s, nodes, width, units).value.q, slot, units)
    decreases |nodes|
  {
    hide HandleNode, FlowOk, Ordered, RingPos, Due, StartLatency, Timed, IssueNodes;
    if nodes == [] {
      NoNodes(s, width, units);
    } else {
      assert nodes == [nodes[0]] + nodes[1..];
      var u := units(|nodes|);
      OrderedKinds(s.w);
      HandleOk(s, nodes[0], nodes[1..], width, u);
      FirstNode(s, nodes, width, units);
      var r := HandleNode(s, nodes[0], width, u).value;
      HandleQueued(s, nodes[0], nodes[1..], width, u, slot);
      if r.s.w.st[slot].issued {
        HandleTimed(s, nodes[0], width, u, slot, 0);
        StartedNow(s, nodes, width, units, slot);
      } else {
        NodesTimed(r.s, nodes[1..], if r.used then width - 1 else width, units, slot);
        TimedBefore(s, r.s, IssueNodes(s, nodes, width, units).value.q, slot, units);
      }
    }
  }

  lemma NoNodes(s: State, width: nat, units: nat -> Unit)
    requires Ring(s.w)
    ensures IssueNodes(s, [], width, units) == Ok(s)
  {
  }

  lemma OrderedKinds(w: Window)
    requires Ring(w) && Ordered(w)
    ensures KindsOk(w)
  {
  }

  lemma FirstNode(s: State, nodes: seq<Link>, width: nat, units: nat -> Unit)
    requires Ring(s.w) && nodes != [] && IssueNodes(s, nodes, width, units).Ok?
    ensures HandleNode(s, nodes[0], width, units(|nodes|)).Ok?
    ensures var r := HandleNode(s, nodes[0], width, units(|nodes|)).value;
      IssueNodes(s, nodes, width, units) == IssueNodes(r.s, nodes[1..], if r.used then width - 1 else width, units)
  {
    hide HandleNode;
  }

  /** The first node starts the operation in `slot`. */
  lemma StartedNow(s: State, nodes: seq<Link>, width: nat, units: nat -> Unit, slot: nat)
    requires Ring(s.w) && Ordered(s.w) && FlowOk(s.w, s.q, nodes, s.q.now + 1) && IssueNodes(s, nodes, width, units).Ok?
    requires nodes != [] && slot < |s.w.st| && Startable(s.w.st[slot], units(|nodes|)) &&
      HandleNode(s, nodes[0], width, units(|nodes|)).Ok?
    requires Due(HandleNode(s, nodes[0], width, units(|nodes|)).value.s.q.events, slot, s.w.st[slot].tag,
                 s.q.now + StartLatency(s.w, slot, units(|nodes|)))
    ensures Timed(s.w, IssueNodes(s, nodes, width, units).value.q, slot, units)
  {
    hide HandleNode, FlowOk, Ordered, RingPos, Due, StartLatency, IssueNodes;
    assert nodes == [nodes[0]] + nodes[1..];
    var u := units(|nodes|);
    HandleOk(s, nodes[0], nodes[1..], width, u);
    FirstNode(s, nodes, width, units);
    var r := HandleNode(s, nodes[0], width, u).value;
    var width' := if r.used then width - 1 else width;
    IssueNodesOk(r.s, nodes[1..], width', units);
    EventsStay(r.s, nodes[1..], width', units, slot, s.q.now + StartLatency(s.w, slot, u));
  }

  lemma TimedBefore(s: State, s': State, q: Queues, slot: nat, units: nat -> Unit)
    requires Ring(s.w) && OnlyPhases(s, s') && slot < |s.w.st| && Timed(s'.w, q, slot, units)
    ensures Timed(s.w, q, slot, units)
  {
    hide Due, StartLatency, RingPos;
    var k :| Startable(s'.w.st[slot], units(k)) &&
      Due(q.events, slot, s'.w.st[slot].tag, q.now + StartLatency(s'.w, slot, units(k)));
    QuietLatency(s.w, s'.w, slot, units(k));
  }

  /** Whatever ruu_issue starts was queued, and its event is due after the latency of the unit it was given. */
  lemma IssueTimed(c: Config, s: State, width: nat, units: nat -> Unit, slot: nat)
    requires CoreOk(c, s, s.q.now + 1) && Sized(s) && Issue(s, width, units).Ok? && slot < |s.w.st|
    requires !s.w.st[slot].kind.Store? && !s.w.st[slot].issued && Issue(s, width, units).value.w.st[slot].issued
    ensures s.w.st[slot].queued && Timed(s.w, Issue(s, width, units).value.q, slot, units)
  {
    assert Ordered(s.w) && FlowOk(s.w, s.q, [], s.q.now + 1);
    hide CoreOk, FlowOk, Ordered, RingPos, IssueNodes, Timed;
    FlowMoves(s.w, s.q);
    NodesTimed(s.(q := s.q.(readyq := [])), s.q.readyq, width, units, slot);
  }
}
