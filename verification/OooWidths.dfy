/**
 * What each stage does with its width: which instructions commit, which operations issue, which
 * instructions are dispatched and fetched, and why the next one is not.
 */
module OooWidths {
  import opened OooTypes
  import opened OooStages
  import opened OooInv
  import opened OooFrames
  import OooIssue
  import opened OooQueues
  import opened OooCommit
  import opened OooTiming

  // ---------------------------------------------------------------- commit

  /** The `j`-th oldest RUU entry. */
  function RuuAt(w: Window, j: nat): Station
    requires Ring(w) && j < w.nr
  {
    w.st[Wrap(w.rh + j, w.nr)]
  }

  /** The `k`-th oldest LSQ entry. */
  function LsqAt(w: Window, k: nat): Station
    requires Ring(w) && k < w.nl
  {
    w.st[w.nr + Wrap(w.lh + k, w.nl)]
  }

  /** How many of the `j` oldest RUU entries have another half in the LSQ. */
  function Pairs(w: Window, j: nat): nat
    requires Ring(w) && j <= w.nr
  {
    if j == 0 then 0 else Pairs(w, j - 1) + (if RuuAt(w, j - 1).kind.Addr? then 1 else 0)
  }

  /**
   * The `j`-th oldest instruction may retire when all older ones have: its operations have completed,
   * and there is a port if it is a store.
   */
  predicate Retirable(w: Window, j: nat, port: bool)
    requires Ring(w)
  {
    && j < w.rn && RuuAt(w, j).completed
    && (RuuAt(w, j).kind.Addr? ==>
          && Pairs(w, j) < w.ln
          && var l := LsqAt(w, Pairs(w, j));
          l.completed && (l.kind.Store? ==> port))
  }

  /** The `n` oldest RUU entries as the histories record them. */
  function OldestEntries(w: Window, n: nat): seq<Entry>
    requires Ring(w) && n <= w.nr
  {
    seq(n, j requires 0 <= j < n => Entry(RuuAt(w, j).seqno, RuuAt(w, j).pc))
  }

  /** `w'` is `w` without its oldest instruction. */
  ghost predicate Shifted(w: Window, w': Window)
    requires Ring(w) && w.rn > 0
  {
    var h := if RuuAt(w, 0).kind.Addr? then 1 else 0;
    && Ring(w') && w'.nr == w.nr && w'.nl == w.nl && w'.rn == w.rn - 1 && w'.ln == w.ln - h
    && (forall j: nat :: j < w'.rn ==> RuuAt(w', j) == RuuAt(w, j + 1))
    && (forall k: nat :: k < w'.ln ==> LsqAt(w', k) == LsqAt(w, k + h))
  }

  lemma RuuShift(w: Window, j: nat)
    requires Ring(w) && w.rn > 0 && j < w.rn - 1
    ensures Ring(RetireRuu(w)) && RuuAt(RetireRuu(w), j) == RuuAt(w, j + 1)
  {
  }

  lemma LsqShift(w: Window, k: nat)
    requires Ring(w) && w.ln > 0 && k < w.ln - 1
    ensures Ring(RetireLsq(w)) && LsqAt(RetireLsq(w), k) == LsqAt(w, k + 1)
  {
  }

  lemma RuuStays(w: Window, j: nat)
    requires Ring(w) && w.ln > 0 && j < w.nr
    ensures Ring(RetireLsq(w)) && RetireLsq(w).rn == w.rn && RuuAt(RetireLsq(w), j) == RuuAt(w, j)
  {
  }

  lemma LsqStays(w: Window, k: nat)
    requires Ring(w) && w.rn > 0 && k < w.nl
    ensures Ring(RetireRuu(w)) && RetireRuu(w).ln == w.ln && LsqAt(RetireRuu(w), k) == LsqAt(w, k)
  {
  }

  lemma RetireRuuShifts(w: Window)
    requires Ring(w) && w.rn > 0 && !RuuAt(w, 0).kind.Addr?
    ensures Shifted(w, RetireRuu(w))
  {
    var w' := RetireRuu(w);
    assert Ring(w') && w'.nr == w.nr && w'.nl == w.nl && w'.rn == w.rn - 1 && w'.ln == w.ln;
    hide RetireRuu, RuuAt, LsqAt;
    forall j: nat | j < w'.rn ensures RuuAt(w', j) == RuuAt(w, j + 1) {
      RuuShift(w, j);
    }
    forall k: nat | k < w'.ln ensures LsqAt(w', k) == LsqAt(w, k) {
      LsqStays(w, k);
    }
  }

  lemma RetireBothShifts(w: Window)
    requires Ring(w) && w.rn > 0 && w.ln > 0 && RuuAt(w, 0).kind.Addr?
    ensures Ring(RetireLsq(w)) && RetireLsq(w).rn == w.rn && Shifted(w, RetireRuu(RetireLsq(w)))
  {
    var w1 := RetireLsq(w);
    var w' := RetireRuu(w1);
    assert Ring(w1) && w1.rn == w.rn && w1.ln == w.ln - 1 && w1.nr == w.nr && w1.nl == w.nl;
    assert Ring(w') && w'.nr == w.nr && w'.nl == w.nl && w'.rn == w.rn - 1 && w'.ln == w.ln - 1;
    hide RetireRuu, RetireLsq, RuuAt, LsqAt;
    forall j: nat | j < w'.rn ensures RuuAt(w', j) == RuuAt(w, j + 1) {
      RuuShift(w1, j);
      RuuStays(w, j + 1);
    }
    forall k: nat | k < w'.ln ensures LsqAt(w', k) == LsqAt(w, k + 1) {
      LsqStays(w1, k);
      LsqShift(w, k);
    }
  }

  lemma {:induction false} PairsShift(w: Window, w': Window, j: nat)
    requires Ring(w) && w.rn > 0 && Shifted(w, w') && j <= w'.rn
    ensures Pairs(w, j + 1) == Pairs(w', j) + (if RuuAt(w, 0).kind.Addr? then 1 else 0)
  {
    hide RuuAt, LsqAt;
    if j == 0 {
      assert Pairs(w, 1) == Pairs(w, 0) + (if RuuAt(w, 0).kind.Addr? then 1 else 0);
    } else {
      PairsShift(w, w', j - 1);
      assert RuuAt(w', j - 1) == RuuAt(w, j);
    }
  }

  lemma RetirableShift(w: Window, w': Window, j: nat, port: bool)
    requires Ring(w) && w.rn > 0 && Shifted(w, w')
    ensures Retirable(w', j, port) <==> Retirable(w, j + 1, port)
  {
    hide RuuAt, LsqAt, Pairs;
    if j < w'.rn {
      PairsShift(w, w', j);
    }
  }

  /** One iteration retires the oldest instruction exactly if it may retire. */
  lemma CommitOneExact(c: Config, s: State, port: bool, from: nat)
    requires CoreOk(c, s, from) && Sized(s)
    ensures match CommitOne(s, port)
      case Halt(_) => false
      case Stop => !Retirable(s.w, 0, port)
      case Next(r) => Retirable(s.w, 0, port) && Shifted(s.w, r.w) && r.h.retired == s.h.retired + OldestEntries(s.w, 1)
  {
    hide CoreOk, RingPos;
    CommitOneOk(c, s, port, from);
    CommitOneSteps(s, port);
  }

  lemma CommitOneSteps(s: State, port: bool)
    requires Sized(s) && !CommitOne(s, port).Halt?
    ensures CommitOne(s, port).Next? <==> Retirable(s.w, 0, port)
    ensures CommitOne(s, port).Next? ==> var r := CommitOne(s, port).s;
      Shifted(s.w, r.w) && r.h.retired == s.h.retired + OldestEntries(s.w, 1)
  {
    if CommitOne(s, port).Next? {
      if RuuAt(s.w, 0).kind.Addr? {
        RetireBothShifts(s.w);
      } else {
        RetireRuuShifts(s.w);
      }
    }
    hide Shifted, RetireLsq, RetireRuu;
  }

  /** ... with the port it is granted when `j` of the width has been used. */
  predicate MayRetire(w: Window, j: nat, width: nat, ports: nat -> bool)
    requires Ring(w) && j <= width
  {
    Retirable(w, j, ports(width - j))
  }

  /** The number of instructions that retire, and that they are the oldest ones that may. */
  ghost predicate Retires(w: Window, width: nat, ports: nat -> bool, n: int)
    requires Ring(w)
  {
    && 0 <= n <= width && n <= w.rn
    && (forall j: nat :: j < n ==> MayRetire(w, j, width, ports))
    && (n < width ==> !MayRetire(w, n, width, ports))
  }

  lemma RetiresMore(w: Window, w': Window, width: nat, ports: nat -> bool, n: int)
    requires Ring(w) && w.rn > 0 && width > 0 && Retirable(w, 0, ports(width)) && Shifted(w, w')
    requires Retires(w', width - 1, ports, n)
    ensures Retires(w, width, ports, n + 1)
  {
    hide Retirable, Shifted;
    ShiftedRings(w, w');
    forall j: nat | j < n + 1 ensures MayRetire(w, j, width, ports) {
      if j > 0 {
        assert MayRetire(w', j - 1, width - 1, ports);
        RetirableShift(w, w', j - 1, ports(width - j));
      }
    }
    if n + 1 < width {
      RetirableShift(w, w', n, ports(width - 1 - n));
    }
  }

  lemma ShiftedRings(w: Window, w': Window)
    requires Ring(w) && w.rn > 0 && Shifted(w, w')
    ensures Ring(w') && w'.rn == w.rn - 1 && w'.nr == w.nr
  {
  }

  lemma OldestMore(w: Window, w': Window, n: nat)
    requires Ring(w) && w.rn > 0 && Shifted(w, w') && n <= w'.rn
    ensures OldestEntries(w, n + 1) == OldestEntries(w, 1) + OldestEntries(w', n)
  {
    hide RuuAt, LsqAt;
  }

  /**
   * ruu_commit retires exactly the oldest instructions that may retire, up to its width, and stops at
   * the first that may not: one that has not completed, or a store without a port.
   */
  lemma {:induction false} CommitIsExact(c: Config, s: State, width: nat, ports: nat -> bool, from: nat)
    requires CoreOk(c, s, from) && Sized(s)
    ensures Commit(s, width, ports).Ok?
    ensures var r := Commit(s, width, ports).value; var n := |r.h.retired| - |s.h.retired|;
      Retires(s.w, width, ports, n) && r.h.retired == s.h.retired + OldestEntries(s.w, n)
    decreases width
  {
    hide CoreOk, CommitOne, RingPos, Retirable, Shifted, RuuAt, OldestEntries, Retires;
    if width == 0 {
      NoneRetire(s.w, width, ports);
    } else {
      CommitOneExact(c, s, ports(width), from);
      match CommitOne(s, ports(width))
      case Stop => NoneRetire(s.w, width, ports);
      case Next(s1) =>
        CommitOneOk(c, s, ports(width), from);
        RetirableBound(s.w, 0, ports(width));
        CommitIsExact(c, s1, width - 1, ports, from);
        var n := |Commit(s1, width - 1, ports).value.h.retired| - |s1.h.retired|;
        RetiresBound(s1.w, width - 1, ports, n);
        RetiresMore(s.w, s1.w, width, ports, n);
        OldestMore(s.w, s1.w, n);
        OldestSize(s.w, 1);
        ShiftedRings(s.w, s1.w);
    }
  }

  lemma OldestSize(w: Window, n: nat)
    requires Ring(w) && n <= w.nr
    ensures |OldestEntries(w, n)| == n
  {
  }

  lemma RetirableBound(w: Window, j: nat, port: bool)
    requires Ring(w) && Retirable(w, j, port)
    ensures w.rn > j
  {
  }

  lemma RetiresBound(w: Window, width: nat, ports: nat -> bool, n: int)
    requires Ring(w) && Retires(w, width, ports, n)
    ensures 0 <= n <= w.rn
  {
  }

  lemma NoneRetire(w: Window, width: nat, ports: nat -> bool)
    requires Ring(w) && (width == 0 || !Retirable(w, 0, ports(width)))
    ensures Retires(w, width, ports, 0) && OldestEntries(w, 0) == []
  {
    hide Retirable;
  }

  // ---------------------------------------------------------------- issue

  /** The operation can start with the answer `u` of the unit pool; stores need no unit. */
  predicate Able(rs: Station, u: Unit) {
    rs.kind.Store? || Startable(rs, u)
  }

  /** How many of the first `k` nodes have started their operation once the stations are `st'`. */
  function Started(st: seq<Station>, st': seq<Station>, nodes: seq<Link>, k: nat): nat
    requires |st'| == |st| && k <= |nodes|
  {
    if k == 0 then 0
    else Started(st, st', nodes, k - 1) + (if Valid(st, nodes[k - 1]) && st'[nodes[k - 1].slot].issued then 1 else 0)
  }

  /** The `k`-th node, if valid, starts its operation exactly if width is left for it and it is able to. */
  predicate Chosen(w: Window, w': Window, nodes: seq<Link>, width: nat, units: nat -> Unit, k: nat)
    requires |w'.st| == |w.st| && k < |nodes|
  {
    Valid(w.st, nodes[k]) ==>
      (w'.st[nodes[k].slot].issued <==>
        Started(w.st, w'.st, nodes, k) < width && Able(w.st[nodes[k].slot], units(|nodes| - k)))
  }

  lemma {:induction false} NotCounted(q: seq<Link>, slot: int, tag: int, k: nat)
    requires Cnt(q, slot, tag) == 0 && k < |q|
    ensures !(q[k].slot == slot && q[k].tag == tag)
  {
    if k == 0 {
    } else {
      assert q[1..][k - 1] == q[k];
      NotCounted(q[1..], slot, tag, k - 1);
    }
  }

  /** An operation has no second valid node. */
  lemma OnlyNode(w: Window, q: Queues, node: Link, rest: seq<Link>, k: nat)
    requires Ring(w) && LifeOk(w, q, [node] + rest) && Valid(w.st, node) && k < |rest|
    ensures !(Valid(w.st, rest[k]) && rest[k].slot == node.slot)
  {
    assert SlotOk(w, q, [node] + rest, node.slot);
    CntCons(node, rest, node.slot, node.tag);
    hide RingPos;
    if Valid(w.st, rest[k]) && rest[k].slot == node.slot {
      NotCounted(rest, node.slot, node.tag, k);
    }
  }

  /** What one node does to which operations have issued. */
  lemma HandleExact(s: State, node: Link, rest: seq<Link>, width: nat, u: Unit)
    requires Ring(s.w) && KindsOk(s.w) && FlowOk(s.w, s.q, [node] + rest, s.q.now + 1)
    requires HandleNode(s, node, width, u).Ok?
    ensures var o := HandleNode(s, node, width, u).value;
      && |o.s.w.st| == |s.w.st|
      && (forall t :: 0 <= t < |s.w.st| && !(Valid(s.w.st, node) && t == node.slot) ==>
            o.s.w.st[t].issued == s.w.st[t].issued)
      && (Valid(s.w.st, node) ==> (o.s.w.st[node.slot].issued <==> width > 0 && Able(s.w.st[node.slot], u)))
      && (o.used <==> Valid(s.w.st, node) && o.s.w.st[node.slot].issued)
  {
    hide LifeOk, ProgressOk, LoadsOk, EventsOk, KindsOk, InsertSorted, Forward, RingPos;
    if Valid(s.w.st, node) {
      OooIssue.UnqueueOk(s, node, rest);
    }
  }

  lemma {:induction false} Untouched(s: State, nodes: seq<Link>, width: nat, units: nat -> Unit, slot: nat)
    requires Ring(s.w) && Ordered(s.w) && FlowOk(s.w, s.q, nodes, s.q.now + 1) && IssueNodes(s, nodes, width, units).Ok?
    requires slot < |s.w.st| && forall k :: 0 <= k < |nodes| ==> !(Valid(s.w.st, nodes[k]) && nodes[k].slot == slot)
    ensures IssueNodes(s, nodes, width, units).value.w.st[slot].issued == s.w.st[slot].issued
    decreases |nodes|
  {
    hide HandleNode, FlowOk, Ordered, KindsOk, RingPos, IssueNodes;
    if nodes == [] {
      NoNodes(s, width, units);
    } else {
      assert nodes == [nodes[0]] + nodes[1..];
      var u := units(|nodes|);
      OrderedKinds(s.w);
      OooIssue.HandleOk(s, nodes[0], nodes[1..], width, u);
      FirstNode(s, nodes, width, units);
      HandleExact(s, nodes[0], nodes[1..], width, u);
      var r := HandleNode(s, nodes[0], width, u).value;
      SameTags(s.w, r.s.w);
      forall k | 0 <= k < |nodes[1..]| ensures !(Valid(r.s.w.st, nodes[1..][k]) && nodes[1..][k].slot == slot) {
        assert nodes[1..][k] == nodes[k + 1];
      }
      Untouched(r.s, nodes[1..], if r.used then width - 1 else width, units, slot);
    }
  }

  lemma SameTags(w: Window, w': Window)
    requires Quiet(w, w')
    ensures |w'.st| == |w.st| && forall l :: Valid(w'.st, l) <==> Valid(w.st, l)
    ensures forall t, u :: 0 <= t < |w.st| ==> (Able(w'.st[t], u) <==> Able(w.st[t], u))
  {
  }

  lemma {:induction false} StartedTail(st: seq<Station>, st1: seq<Station>, st': seq<Station>, nodes: seq<Link>, k: nat)
    requires |st'| == |st| == |st1| && 0 < k <= |nodes| && forall l :: Valid(st1, l) <==> Valid(st, l)
    ensures Started(st, st', nodes, k) ==
      (if Valid(st, nodes[0]) && st'[nodes[0].slot].issued then 1 else 0) + Started(st1, st', nodes[1..], k - 1)
  {
    hide Valid;
    if k == 1 {
      assert Started(st, st', nodes, 0) == 0;
    } else {
      StartedTail(st, st1, st', nodes, k - 1);
      assert nodes[1..][k - 2] == nodes[k - 1];
    }
  }

  lemma {:induction false} NodesExact(s: State, nodes: seq<Link>, width: nat, units: nat -> Unit, k: nat)
    requires Ring(s.w) && Ordered(s.w) && FlowOk(s.w, s.q, nodes, s.q.now + 1) && IssueNodes(s, nodes, width, units).Ok?
    requires k < |nodes|
    ensures Chosen(s.w, IssueNodes(s, nodes, width, units).value.w, nodes, width, units, k)
    decreases |nodes|
  {
    hide HandleNode, FlowOk, Ordered, KindsOk, RingPos, IssueNodes, Valid, Able;
    assert nodes == [nodes[0]] + nodes[1..];
    var u := units(|nodes|);
    OrderedKinds(s.w);
    OooIssue.HandleOk(s, nodes[0], nodes[1..], width, u);
    FirstNode(s, nodes, width, units);
    HandleExact(s, nodes[0], nodes[1..], width, u);
    var r := HandleNode(s, nodes[0], width, u).value;
    var width' := if r.used then width - 1 else width;
    SameTags(s.w, r.s.w);
    var w' := IssueNodes(s, nodes, width, units).value.w;
    FirstStays(s, nodes, width, units);
    if k > 0 {
      NodesExact(r.s, nodes[1..], width', units, k - 1);
      StartedTail(s.w.st, r.s.w.st, w'.st, nodes, k);
      assert nodes[1..][k - 1] == nodes[k];
      ValidBound(s.w.st, nodes[k]);
    }
  }

  lemma ValidBound(st: seq<Station>, l: Link)
    ensures Valid(st, l) ==> l.slot < |st|
  {
  }

  /** What the first node does, the others do not undo. */
  lemma FirstStays(s: State, nodes: seq<Link>, width: nat, units: nat -> Unit)
    requires Ring(s.w) && Ordered(s.w) && FlowOk(s.w, s.q, nodes, s.q.now + 1) && IssueNodes(s, nodes, width, units).Ok?
    requires nodes != [] && HandleNode(s, nodes[0], width, units(|nodes|)).Ok?
    ensures Valid(s.w.st, nodes[0]) ==>
      && |HandleNode(s, nodes[0], width, units(|nodes|)).value.s.w.st| == |s.w.st|
      && IssueNodes(s, nodes, width, units).value.w.st[nodes[0].slot].issued ==
           HandleNode(s, nodes[0], width, units(|nodes|)).value.s.w.st[nodes[0].slot].issued
  {
    assert FlowOk(s.w, s.q, nodes, s.q.now + 1) ==> LifeOk(s.w, s.q, nodes);
    hide HandleNode, FlowOk, Ordered, KindsOk, RingPos, IssueNodes, LifeOk;
    assert nodes == [nodes[0]] + nodes[1..];
    var u := units(|nodes|);
    OooIssue.HandleOk(s, nodes[0], nodes[1..], width, u);
    FirstNode(s, nodes, width, units);
    var r := HandleNode(s, nodes[0], width, u).value;
    SameTags(s.w, r.s.w);
    if Valid(s.w.st, nodes[0]) {
      forall k | 0 <= k < |nodes[1..]|
        ensures !(Valid(r.s.w.st, nodes[1..][k]) && nodes[1..][k].slot == nodes[0].slot)
      {
        OnlyNode(s.w, s.q, nodes[0], nodes[1..], k);
      }
      Untouched(r.s, nodes[1..], if r.used then width - 1 else width, units, nodes[0].slot);
    }
  }

  /**
   * ruu_issue serves the ready queue in order: the operation of a valid node starts exactly if fewer
   * operations than the width have started before it and it gets a unit or needs none.
   */
  lemma IssueIsExact(c: Config, s: State, width: nat, units: nat -> Unit, k: nat)
    requires CoreOk(c, s, s.q.now + 1) && Sized(s) && Issue(s, width, units).Ok? && k < |s.q.readyq|
    ensures var w' := Issue(s, width, units).value.w;
      |w'.st| == |s.w.st| && Chosen(s.w, w', s.q.readyq, width, units, k)
  {
    assert Ordered(s.w) && FlowOk(s.w, s.q, [], s.q.now + 1);
    hide CoreOk, FlowOk, Ordered, RingPos, IssueNodes, Chosen;
    OooIssue.FlowMoves(s.w, s.q);
    NodesExact(s.(q := s.q.(readyq := [])), s.q.readyq, width, units, k);
  }

  // ---------------------------------------------------------------- how long it takes

  /** The operation of the `k`-th node, if it starts, has its event after the latency of the unit it was given. */
  ghost predicate OnTime(w: Window, s': State, nodes: seq<Link>, units: nat -> Unit, k: nat)
    requires Ring(w) && |s'.w.st| == |w.st| && k < |nodes|
  {
    var l, u := nodes[k], units(|nodes| - k);
    Valid(w.st, l) && !w.st[l.slot].kind.Store? && s'.w.st[l.slot].issued ==>
      Startable(w.st[l.slot], u) && Due(s'.q.events, l.slot, l.tag, s'.q.now + StartLatency(w, l.slot, u))
  }

  /** What has a valid node has not started yet. */
  lemma NotYet(w: Window, q: Queues, node: Link, rest: seq<Link>)
    requires Ring(w) && LifeOk(w, q, [node] + rest) && Valid(w.st, node)
    ensures !w.st[node.slot].issued
  {
    assert SlotOk(w, q, [node] + rest, node.slot);
    CntCons(node, rest, node.slot, node.tag);
    hide RingPos;
  }

  lemma FirstOnTime(s: State, nodes: seq<Link>, width: nat, units: nat -> Unit)
    requires Ring(s.w) && Ordered(s.w) && FlowOk(s.w, s.q, nodes, s.q.now + 1) && IssueNodes(s, nodes, width, units).Ok?
    requires nodes != []
    ensures var s' := IssueNodes(s, nodes, width, units).value;
      |s'.w.st| == |s.w.st| && OnTime(s.w, s', nodes, units, 0)
  {
    hide HandleNode, FlowOk, Ordered, KindsOk, RingPos, IssueNodes, LifeOk, Due, StartLatency;
    assert nodes == [nodes[0]] + nodes[1..];
    var u := units(|nodes|);
    FlowLife(s, nodes);
    OooIssue.HandleOk(s, nodes[0], nodes[1..], width, u);
    FirstNode(s, nodes, width, units);
    var r := HandleNode(s, nodes[0], width, u).value;
    if Valid(s.w.st, nodes[0]) {
      var slot := nodes[0].slot;
      FirstStays(s, nodes, width, units);
      NotYet(s.w, s.q, nodes[0], nodes[1..]);
      HandleTimed(s, nodes[0], width, u, slot, 0);
      var width' := if r.used then width - 1 else width;
      OooIssue.IssueNodesOk(r.s, nodes[1..], width', units);
      if r.s.w.st[slot].issued && !s.w.st[slot].kind.Store? {
        EventsStay(r.s, nodes[1..], width', units, slot, s.q.now + StartLatency(s.w, slot, u));
      }
    }
  }

  lemma FlowLife(s: State, nodes: seq<Link>)
    requires Ring(s.w) && FlowOk(s.w, s.q, nodes, s.q.now + 1)
    ensures LifeOk(s.w, s.q, nodes)
  {
    hide LifeOk;
  }

  lemma OnTimeBefore(s: State, r: State, s': State, nodes: seq<Link>, units: nat -> Unit, k: nat)
    requires Ring(s.w) && OooIssue.OnlyPhases(s, r) && Ring(r.w) && |s'.w.st| == |s.w.st| && 0 < k < |nodes|
    requires OnTime(r.w, s', nodes[1..], units, k - 1)
    ensures OnTime(s.w, s', nodes, units, k)
  {
    hide Due, StartLatency, RingPos;
    assert nodes[1..][k - 1] == nodes[k];
    var l, u := nodes[k], units(|nodes| - k);
    if Valid(s.w.st, l) && Startable(s.w.st[l.slot], u) {
      QuietLatency(s.w, r.w, l.slot, u);
    }
  }

  lemma {:induction false} NodesOnTime(s: State, nodes: seq<Link>, width: nat, units: nat -> Unit, k: nat)
    requires Ring(s.w) && Ordered(s.w) && FlowOk(s.w, s.q, nodes, s.q.now + 1) && IssueNodes(s, nodes, width, units).Ok?
    requires k < |nodes|
    ensures var s' := IssueNodes(s, nodes, width, units).value;
      |s'.w.st| == |s.w.st| && OnTime(s.w, s', nodes, units, k)
    decreases |nodes|
  {
    hide HandleNode, FlowOk, Ordered, KindsOk, RingPos, IssueNodes, OnTime;
    if k == 0 {
      FirstOnTime(s, nodes, width, units);
    } else {
      assert nodes == [nodes[0]] + nodes[1..];
      var u := units(|nodes|);
      OooIssue.HandleOk(s, nodes[0], nodes[1..], width, u);
      FirstNode(s, nodes, width, units);
      var r := HandleNode(s, nodes[0], width, u).value;
      NodesOnTime(r.s, nodes[1..], if r.used then width - 1 else width, units, k - 1);
      OnTimeBefore(s, r.s, IssueNodes(s, nodes, width, units).value, nodes, units, k);
    }
  }

  /**
   * Whatever ruu_issue starts takes one cycle if it needs no unit, and otherwise the latency of the unit
   * it was given; for loads, `ForwardedLoadsAreFast` says what that is.
   */
  lemma IssueIsOnTime(c: Config, s: State, width: nat, units: nat -> Unit, k: nat)
    requires CoreOk(c, s, s.q.now + 1) && Sized(s) && Issue(s, width, units).Ok? && k < |s.q.readyq|
    ensures var s' := Issue(s, width, units).value;
      |s'.w.st| == |s.w.st| && OnTime(s.w, s', s.q.readyq, units, k)
  {
    assert Ordered(s.w) && FlowOk(s.w, s.q, [], s.q.now + 1);
    hide CoreOk, FlowOk, Ordered, RingPos, IssueNodes, OnTime;
    OooIssue.FlowMoves(s.w, s.q);
    NodesOnTime(s.(q := s.q.(readyq := [])), s.q.readyq, width, units, k);
  }
}
