/**
 * A potential that every issue, completion, dispatch and recovery lowers as long as nothing
 * retires: the phases of the window's operations, oldest first, read as digits.
 */
module OooPotential {
  import opened OooTypes
  import opened OooStages
  import opened OooInv
  import opened OooFrames
  import opened OooIssue
  import opened OooTiming
  import opened OooTrack
  import opened OooComplete

  // ---------------------------------------------------------------- digits

  function Pow4(n: nat): nat {
    if n == 0 then 1 else 4 * Pow4(n - 1)
  }

  ghost predicate Digits(v: seq<nat>) {
    forall i :: 0 <= i < |v| ==> v[i] <= 3
  }

  /** The number with these digits, the first being the most significant. */
  function Num(v: seq<nat>): nat {
    if v == [] then 0 else v[0] * Pow4(|v| - 1) + Num(v[1..])
  }

  lemma Scale(a: nat, b: nat, n: nat)
    requires a < b
    ensures a * n + n <= b * n
  {
    assert b * n == a * n + n + (b - a - 1) * n;
  }

  lemma {:induction false} NumBelow(v: seq<nat>)
    requires Digits(v)
    ensures Num(v) < Pow4(|v|)
  {
    if v == [] {
    } else {
      NumBelow(v[1..]);
      var n := Pow4(|v| - 1);
      assert v[0] * n <= 3 * n by {
        if v[0] < 3 {
          Scale(v[0], 3, n);
        }
      }
    }
  }

  lemma {:induction false} NumMono(v: seq<nat>, v': seq<nat>)
    requires |v'| == |v| && forall i :: 0 <= i < |v| ==> v'[i] <= v[i]
    ensures Num(v') <= Num(v)
  {
    if v == [] {
    } else {
      NumMono(v[1..], v'[1..]);
      if v'[0] < v[0] {
        Scale(v'[0], v[0], Pow4(|v| - 1));
      }
    }
  }

  /** A lower digit outweighs whatever happens to the digits after it. */
  lemma {:induction false} NumLess(v: seq<nat>, v': seq<nat>, p: nat)
    requires |v'| == |v| && Digits(v') && p < |v| && v'[p] < v[p] && forall i :: 0 <= i < p ==> v'[i] <= v[i]
    ensures Num(v') < Num(v)
  {
    var n := Pow4(|v| - 1);
    if v'[0] < v[0] {
      Scale(v'[0], v[0], n);
      NumBelow(v'[1..]);
    } else {
      NumLess(v[1..], v'[1..], p - 1);
    }
  }

  // ---------------------------------------------------------------- the potential

  function Phase(rs: Station): nat {
    if rs.completed then 0 else if rs.issued then 1 else 2
  }

  /** Phases by distance from the heads of the RUU and then the LSQ; free places count most. */
  function Phases(w: Window): (r: seq<nat>)
    requires Ring(w)
    ensures |r| == w.nr + w.nl
  {
    seq(w.nr + w.nl, p requires 0 <= p < w.nr + w.nl => PhaseAt(w, p))
  }

  function PhaseAt(w: Window, p: nat): (r: nat)
    requires Ring(w) && p < w.nr + w.nl
    ensures r <= 3
  {
    if p < w.nr then (if p < w.rn then Phase(w.st[Wrap(w.rh + p, w.nr)]) else 3)
    else (if p - w.nr < w.ln then Phase(w.st[w.nr + Wrap(w.lh + (p - w.nr), w.nl)]) else 3)
  }

  function Potential(w: Window): nat
    requires Ring(w)
  {
    Num(Phases(w))
  }

  /** The place of a live slot among the digits. */
  function Place(w: Window, t: int): (p: nat)
    requires Ring(w) && Live(w, t)
    ensures p < w.nr + w.nl && PhaseAt(w, p) == Phase(w.st[t])
    ensures if t < w.nr then p == RingPos(w.rh, w.nr, t) else p == w.nr + RingPos(w.lh, w.nl, t - w.nr)
  {
    if t < w.nr then RingPos(w.rh, w.nr, t) else w.nr + RingPos(w.lh, w.nl, t - w.nr)
  }

  /** The live slot at a place that is not free. */
  lemma SlotAt(w: Window, p: nat) returns (t: nat)
    requires Ring(w) && p < w.nr + w.nl && (if p < w.nr then p < w.rn else p - w.nr < w.ln)
    ensures Live(w, t) && t < |w.st| && Place(w, t) == p && (t < w.nr <==> p < w.nr)
  {
    t := if p < w.nr then Wrap(w.rh + p, w.nr) else w.nr + Wrap(w.lh + (p - w.nr), w.nl);
  }

  lemma PotentialFalls(w: Window, w': Window, p: nat)
    requires Ring(w) && Ring(w') && w'.nr == w.nr && w'.nl == w.nl && p < w.nr + w.nl
    requires PhaseAt(w', p) < PhaseAt(w, p) && forall i: nat :: i < p ==> PhaseAt(w', i) <= PhaseAt(w, i)
    ensures Potential(w') < Potential(w)
  {
    hide PhaseAt, Num, Ring;
    NumLess(Phases(w), Phases(w'), p);
  }

  lemma PotentialKept(w: Window, w': Window)
    requires Ring(w) && Ring(w') && w'.nr == w.nr && w'.nl == w.nl
    requires forall i: nat :: i < w.nr + w.nl ==> PhaseAt(w', i) <= PhaseAt(w, i)
    ensures Potential(w') <= Potential(w)
  {
    hide PhaseAt, Num, Ring;
    NumMono(Phases(w), Phases(w'));
  }

  // ---------------------------------------------------------------- stages that only change phases

  /** Rings are the same and no operation goes back. */
  ghost predicate Onward(w: Window, w': Window) {
    SameRings(w, w') && forall t :: 0 <= t < |w.st| ==> Phase(w'.st[t]) <= Phase(w.st[t])
  }

  lemma OnwardPhase(w: Window, w': Window, i: nat)
    requires Ring(w) && Onward(w, w') && i < w.nr + w.nl
    ensures Ring(w') && PhaseAt(w', i) <= PhaseAt(w, i)
  {
    hide Phase;
  }

  lemma OnwardKept(w: Window, w': Window)
    requires Ring(w) && Onward(w, w')
    ensures Ring(w') && Potential(w') <= Potential(w)
  {
    hide Potential, PhaseAt;
    forall i: nat | i < w.nr + w.nl ensures PhaseAt(w', i) <= PhaseAt(w, i) {
      OnwardPhase(w, w', i);
    }
    hide Phase;
    PotentialKept(w, w');
  }

  lemma OnwardFalls(w: Window, w': Window, t: int)
    requires Ring(w) && Onward(w, w') && Live(w, t) && Phase(w'.st[t]) < Phase(w.st[t])
    ensures Ring(w') && Potential(w') < Potential(w)
  {
    hide Potential, PhaseAt, Phase, RingPos;
    forall i: nat | i < w.nr + w.nl ensures PhaseAt(w', i) <= PhaseAt(w, i) {
      OnwardPhase(w, w', i);
    }
    assert Live(w', t);
    assert Place(w', t) == Place(w, t);
    PotentialFalls(w, w', Place(w, t));
  }

  lemma OnwardTrans(w: Window, w': Window, w'': Window)
    requires Onward(w, w') && Onward(w', w'')
    ensures Onward(w, w'')
  {
  }

  // ---------------------------------------------------------------- writeback

  /** A place that is in use stays in use by the same operation or becomes free. */
  lemma LaterPhase(w: Window, w': Window, i: nat)
    requires Ring(w) && Ring(w') && Later(w, w') && i < w.nr + w.nl &&
      (if i < w.nr then i < w'.rn else i - w.nr < w'.ln)
    ensures PhaseAt(w', i) <= PhaseAt(w, i)
  {
    hide PhaseAt, RingPos;
    var t := SlotAt(w', i);
    var u := SlotAt(w, i);
    SameSlot(w, w', t, u, i);
  }

  lemma SameSlot(w: Window, w': Window, t: nat, u: nat, i: nat)
    requires Ring(w) && Ring(w') && w'.nr == w.nr && w'.nl == w.nl && w'.rh == w.rh && w'.lh == w.lh
    requires Live(w', t) && Live(w, u) && Place(w', t) == i == Place(w, u)
    ensures t == u
  {
    hide PhaseAt;
  }

  /** An operation that stays in the window and advances lowers the potential, whatever is squashed after it. */
  lemma LaterFalls(w: Window, w': Window, t: nat)
    requires Ring(w) && Ring(w') && Later(w, w') && Live(w, t) && Live(w', t) && (t >= w.nr ==> w'.rn == w.rn)
    requires Phase(w'.st[t]) < Phase(w.st[t])
    ensures Potential(w') < Potential(w)
  {
    hide PhaseAt, Potential, Later, Phase;
    LaterRings(w, w');
    var p := Place(w, t);
    assert p == Place(w', t);
    forall i: nat | i < p ensures PhaseAt(w', i) <= PhaseAt(w, i) {
      if (if i < w.nr then i < w'.rn else i - w.nr < w'.ln) {
        LaterPhase(w, w', i);
      } else {
        FreePlace(w, w', i);
      }
    }
    PotentialFalls(w, w', p);
  }

  lemma LaterRings(w: Window, w': Window)
    requires Later(w, w')
    ensures w'.nr == w.nr && w'.nl == w.nl && w'.rh == w.rh && w'.lh == w.lh && |w'.st| == |w.st|
  {
  }

  lemma FreePlace(w: Window, w': Window, i: nat)
    requires Ring(w) && Ring(w') && w'.nr == w.nr && w'.nl == w.nl && i < w.nr && w'.rn == w.rn && i >= w'.rn
    ensures PhaseAt(w', i) == PhaseAt(w, i)
  {
  }

  /** The squash stops behind the branch. */
  lemma {:induction false} BranchStays(s: State, branch: nat)
    requires Ring(s.w) && LiveR(s.w, branch) && RecoverWindow(s, branch).Ok?
    ensures LiveR(RecoverWindow(s, branch).value.w, branch)
    decreases s.w.rn
  {
    if Wrap(s.w.rt + s.w.nr - 1, s.w.nr) == branch {
    } else {
      SquashedTail(s, branch);
      hide SquashOne;
      BranchStays(SquashOne(s).value, branch);
    }
  }

  lemma SquashedTail(s: State, t: nat)
    requires Ring(s.w) && LiveR(s.w, t) && t != Wrap(s.w.rt + s.w.nr - 1, s.w.nr) && SquashOne(s).Ok?
    ensures LiveR(SquashOne(s).value.w, t)
  {
    hide FreeList;
  }

  lemma CompletedStays(c: Config, s: State, slot: nat)
    requires Sized(s) && slot < |s.w.st| && Live(s.w, slot) && KindsOk(s.w) && Complete(c, s, slot).Ok?
    ensures var r := Complete(c, s, slot).value; Sized(r) && Live(r.w, slot) && (slot >= s.w.nr ==> r.w.rn == s.w.rn)
  {
    hide RecoverWindow, Deliver, RingPos;
    var rs := s.w.st[slot];
    var s1 := s.(w := Put(s.w, slot, rs.(completed := true)));
    if rs.recover {
      BranchStays(s1, slot);
    }
  }

  lemma CompleteFalls(c: Config, s: State, slot: nat)
    requires Sized(s) && slot < |s.w.st| && Live(s.w, slot) && KindsOk(s.w) && Complete(c, s, slot).Ok?
    ensures Sized(Complete(c, s, slot).value) && Potential(Complete(c, s, slot).value.w) < Potential(s.w)
  {
    CompletesRunning(c, s, slot);
    hide Complete, Potential, Later, RingPos, KindsOk;
    CompletedStays(c, s, slot);
    CompleteLater(c, s, slot);
    LaterRings(s.w, Complete(c, s, slot).value.w);
    LaterFalls(s.w, Complete(c, s, slot).value.w, slot);
  }

  lemma CompletesRunning(c: Config, s: State, slot: nat)
    requires Sized(s) && slot < |s.w.st| && Complete(c, s, slot).Ok?
    ensures s.w.st[slot].issued && !s.w.st[slot].completed
  {
    hide Recover, Deliver;
  }

  /** Writeback lowers the potential unless it leaves the window alone. */
  lemma {:induction false} WritebackFalls(c: Config, s: State)
    requires CoreOk(c, s, s.q.now) && Sized(s) && Writeback(c, s).Ok?
    ensures var r := Writeback(c, s).value; Sized(r) && (r.w == s.w || Potential(r.w) < Potential(s.w))
    decreases |s.q.events|
  {
    hide CoreOk, PopEvent, Complete, Ring, Potential, KindsOk, Live;
    match PopEvent(s.q, s.w.st)
    case NoEvent(_) =>
    case Event(q1, l) =>
      EventIsLive(c, s, q1, l);
      CompleteNext(c, s);
      CompleteFalls(c, s.(q := q1), l.slot);
      WritebackFalls(c, Complete(c, s.(q := q1), l.slot).value);
  }

  lemma EventIsLive(c: Config, s: State, q1: Queues, l: Link)
    requires CoreOk(c, s, s.q.now) && PopEvent(s.q, s.w.st) == Event(q1, l)
    ensures l.slot < |s.w.st| && Live(s.w, l.slot) && KindsOk(s.w)
  {
    PopOk(s.w, s.q);
    hide PopEvent, OrderedRuu, OrderedLsq, Numbered, KindsOk, SpecOk, OperandsOk, VectorsOk, Paired, HistoryOk, LifeOk,
         ProgressOk, LoadsOk, LinksOk, FrontOk, RingPos;
  }

  // ---------------------------------------------------------------- dispatch

  lemma FullerKept(s: State, s': State)
    requires Ring(s.w) && Ring(s'.w) && Fuller(s, s')
    ensures Potential(s'.w) <= Potential(s.w)
  {
    hide PhaseAt, Potential;
    forall i: nat | i < s.w.nr + s.w.nl ensures PhaseAt(s'.w, i) <= PhaseAt(s.w, i) {
      FullerPhase(s, s', i);
    }
    PotentialKept(s.w, s'.w);
  }

  lemma FullerPhase(s: State, s': State, i: nat)
    requires Ring(s.w) && Ring(s'.w) && Fuller(s, s') && i < s.w.nr + s.w.nl
    ensures PhaseAt(s'.w, i) <= PhaseAt(s.w, i)
  {
    if (if i < s.w.nr then i < s.w.rn else i - s.w.nr < s.w.ln) {
      hide PhaseAt, RingPos;
      var t := SlotAt(s.w, i);
      var u := SlotAt(s'.w, i);
      SameSlot(s'.w, s.w, t, u, i);
    }
  }

  // ---------------------------------------------------------------- refresh and issue

  /** All events are due within `m` cycles. */
  ghost predicate EventsWithin(q: Queues, m: int) {
    forall k :: 0 <= k < |q.events| ==> q.events[k].x <= q.now + m
  }

  /** The window gets no further, and the events stay. */
  ghost predicate Still(s: State, s': State) {
    && SameRings(s.w, s'.w) && s'.q.events == s.q.events && s'.q.now == s.q.now
    && forall t :: 0 <= t < |s.w.st| ==> Phase(s'.w.st[t]) == Phase(s.w.st[t])
  }

  lemma ScanStill(s: State, k: nat, unknowns: seq<nat>)
    requires Ring(s.w) && k < s.w.ln && ScanOne(s, k, unknowns).Ok?
    ensures Still(s, ScanOne(s, k, unknowns).value.s)
  {
    hide InsertSorted, Hide;
  }

  lemma {:induction false} RefreshStill(s: State, k: nat, unknowns: seq<nat>)
    requires Ring(s.w) && k <= s.w.ln && RefreshFrom(s, k, unknowns).Ok?
    ensures Still(s, RefreshFrom(s, k, unknowns).value)
    decreases s.w.ln - k
  {
    hide ScanOne, Phase;
    if k == s.w.ln {
    } else {
      ScanStill(s, k, unknowns);
      var r := ScanOne(s, k, unknowns).value;
      if r.more {
        RefreshStill(r.s, k + 1, r.unknowns);
      }
    }
  }

  /** The unit pool answers every request within `m` cycles. */
  ghost predicate Granted(u: Unit, m: int) {
    u.Unit? && 1 <= m && u.oplat <= m && u.cache <= m && u.tlb <= m
  }

  lemma {:induction false} InsertWithin(q: seq<Link>, l: Link, bound: int)
    requires l.x <= bound && forall k :: 0 <= k < |q| ==> q[k].x <= bound
    ensures forall k :: 0 <= k < |InsertSorted(q, l)| ==> InsertSorted(q, l)[k].x <= bound
    decreases |q|
  {
    if q == [] || q[0].x >= l.x {
    } else {
      InsertWithin(q[1..], l, bound);
    }
  }

  lemma ReleaseWithin(s: State, d: nat, u: Unit, m: int)
    requires Ring(s.w) && d < |s.w.st| && Release(s, d, u).Ok? && Granted(u, m) && EventsWithin(s.q, m)
    ensures var r := Release(s, d, u).value.s; EventsWithin(r.q, m) && r.q.now == s.q.now
  {
    hide InsertSorted, Forward;
    var rs := s.w.st[d];
    if !rs.kind.Store? {
      var l := Link(s.q.free[0], d, rs.tag, s.q.now + StartLatency(s.w, d, u));
      InsertWithin(s.q.events, l, s.q.now + m);
    }
  }

  lemma HandleOnward(s: State, node: Link, width: nat, u: Unit, m: int)
    requires Ring(s.w) && HandleNode(s, node, width, u).Ok? && Granted(u, m) && EventsWithin(s.q, m)
    ensures var r := HandleNode(s, node, width, u).value.s;
      Onward(s.w, r.w) && EventsWithin(r.q, m) && r.q.now == s.q.now
  {
    HandleOnlyOnward(s, node, width, u);
    hide Release, InsertSorted, Onward;
    if width > 0 && Valid(s.w.st, node) && IssueOne(s, node, u).Ok? {
      ReleaseWithin(Unqueue(s, node.slot), node.slot, u, m);
    }
  }

  lemma ReleaseOnward(s: State, d: nat, u: Unit)
    requires Ring(s.w) && d < |s.w.st| && Release(s, d, u).Ok?
    ensures Onward(s.w, Release(s, d, u).value.s.w)
  {
    hide InsertSorted, Forward;
  }

  lemma EnqueueOnward(s: State, d: nat)
    requires Ring(s.w) && d < |s.w.st| && ReadyEnqueue(s, d).Ok?
    ensures Onward(s.w, ReadyEnqueue(s, d).value.w)
  {
    hide InsertSorted;
  }

  lemma HandleOnlyOnward(s: State, node: Link, width: nat, u: Unit)
    requires Ring(s.w) && HandleNode(s, node, width, u).Ok?
    ensures Onward(s.w, HandleNode(s, node, width, u).value.s.w)
  {
    if Valid(s.w.st, node) {
      var s1 := Unqueue(s, node.slot);
      assert Onward(s.w, s1.w);
      hide Onward, Release, ReadyEnqueue, Unqueue;
      if width > 0 {
        ReleaseOnward(s1, node.slot, u);
        OnwardTrans(s.w, s1.w, Release(s1, node.slot, u).value.s.w);
      } else {
        EnqueueOnward(s1, node.slot);
        OnwardTrans(s.w, s1.w, ReadyEnqueue(s1, node.slot).value.w);
      }
    }
  }

  lemma {:induction false} NodesOnward(s: State, nodes: seq<Link>, width: nat, units: nat -> Unit, m: int)
    requires Ring(s.w) && IssueNodes(s, nodes, width, units).Ok? && EventsWithin(s.q, m) &&
      forall k :: Granted(units(k), m)
    ensures var r := IssueNodes(s, nodes, width, units).value;
      Onward(s.w, r.w) && EventsWithin(r.q, m) && r.q.now == s.q.now
    decreases |nodes|
  {
    hide HandleNode, EventsWithin, Phase, Granted;
    if nodes == [] {
    } else {
      HandleOnward(s, nodes[0], width, units(|nodes|), m);
      var r := HandleNode(s, nodes[0], width, units(|nodes|)).value;
      NodesOnward(r.s, nodes[1..], if r.used then width - 1 else width, units, m);
      OnwardTrans(s.w, r.s.w, IssueNodes(s, nodes, width, units).value.w);
    }
  }

  /** A node of the ready queue that is valid starts its operation. */
  lemma ValidStarts(s: State, node: Link, rest: seq<Link>, width: nat, u: Unit)
    requires Ring(s.w) && KindsOk(s.w) && FlowOk(s.w, s.q, [node] + rest, s.q.now + 1) && Valid(s.w.st, node)
    requires width > 0 && u.Unit? && HandleNode(s, node, width, u).Ok?
    ensures var r := HandleNode(s, node, width, u).value.s;
      Live(s.w, node.slot) && |r.w.st| == |s.w.st| && Phase(r.w.st[node.slot]) < Phase(s.w.st[node.slot])
  {
    UnqueueOk(s, node, rest);
    hide LifeOk, ProgressOk, LoadsOk, EventsOk, KindsOk, InsertSorted, Forward, RingPos;
  }

  /** The nodes of the old ready queue: some operation starts, or none of them is valid and nothing changes. */
  lemma {:induction false} NodesFall(s: State, nodes: seq<Link>, width: nat, units: nat -> Unit, m: int)
    requires Ring(s.w) && Ordered(s.w) && FlowOk(s.w, s.q, nodes, s.q.now + 1) && IssueNodes(s, nodes, width, units).Ok?
    requires width > 0 && EventsWithin(s.q, m) && forall k :: Granted(units(k), m)
    ensures var r := IssueNodes(s, nodes, width, units).value;
      && Ring(r.w)
      && if exists k :: 0 <= k < |nodes| && Valid(s.w.st, nodes[k]) then Potential(r.w) < Potential(s.w)
         else r.w == s.w && r.q.events == s.q.events
    decreases |nodes|
  {
    hide HandleNode, EventsWithin, Phase, FlowOk, Ordered, Potential, Onward, KindsOk, RingPos, Valid;
    if nodes == [] {
    } else {
      assert nodes == [nodes[0]] + nodes[1..];
      var u := units(|nodes|);
      assert Granted(u, m);
      OrderedKinds(s.w);
      HandleOk(s, nodes[0], nodes[1..], width, u);
      HandleOnward(s, nodes[0], width, u, m);
      var r := HandleNode(s, nodes[0], width, u).value;
      if Valid(s.w.st, nodes[0]) {
        ValidStarts(s, nodes[0], nodes[1..], width, u);
        OnwardFalls(s.w, r.s.w, nodes[0].slot);
        NodesOnward(r.s, nodes[1..], if r.used then width - 1 else width, units, m);
        OnwardKept(r.s.w, IssueNodes(s, nodes, width, units).value.w);
      } else {
        StaleNode(s, nodes[0], width, u);
        NodesFall(r.s, nodes[1..], width, units, m);
        TailValid(s.w.st, nodes);
      }
    }
  }

  lemma StaleNode(s: State, node: Link, width: nat, u: Unit)
    requires Ring(s.w) && !Valid(s.w.st, node)
    ensures HandleNode(s, node, width, u) == Ok(Issued(s.(q := FreeLink(s.q, node)), false))
  {
  }

  lemma TailValid(st: seq<Station>, nodes: seq<Link>)
    requires nodes != [] && !Valid(st, nodes[0])
    ensures (exists k :: 0 <= k < |nodes| && Valid(st, nodes[k])) <==>
      exists k :: 0 <= k < |nodes[1..]| && Valid(st, nodes[1..][k])
  {
    hide Valid;
    if k :| 0 <= k < |nodes| && Valid(st, nodes[k]) {
      assert nodes[1..][k - 1] == nodes[k];
    }
    if k :| 0 <= k < |nodes[1..]| && Valid(st, nodes[1..][k]) {
      assert nodes[1..][k] == nodes[k + 1];
    }
  }
}
