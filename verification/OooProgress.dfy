/**
 * Liveness: as long as store ports and functional units are granted and latencies are bounded,
 * every instruction dispatched on the right path retires within a bounded number of cycles.
 */
module OooProgress {
  import opened OooTypes
  import opened OooStages
  import opened OooInv
  import OooIssue
  import opened OooCommit
  import opened OooComplete
  import opened OooFollow
  import opened OooRefresh
  import opened OooTrack
  import opened OooPotential
  import opened OooRun
  import opened OooTheorems
  import OooMeaning

  /** Every request for a store port or a functional unit is granted, with latencies of at most `m`. */
  ghost predicate Generous(i: Inputs, m: int) {
    (forall k :: i.ports(k)) && forall k :: Granted(i.units(k), m)
  }

  /** The oldest instruction has completed, with both its halves if it has two. */
  predicate HeadDone(w: Window)
    requires Ring(w)
  {
    w.st[w.rh].completed && (w.st[w.rh].kind.Addr? ==> w.st[w.nr + w.lh].completed)
  }

  // ---------------------------------------------------------------- commit

  lemma CommitWaits(s: State, width: nat, ports: nat -> bool)
    requires Sized(s) && s.w.rn > 0 && !HeadDone(s.w) && Commit(s, width, ports).Ok?
    ensures Commit(s, width, ports) == Ok(s)
  {
  }

  lemma HeadCommits(c: Config, s: State, from: nat)
    requires CoreOk(c, s, from) && Sized(s) && s.w.rn > 0 && HeadDone(s.w)
    ensures CommitOne(s, true).Next?
  {
    hide CoreOk, CommitOne, HeadDone, RingPos;
    CommitOneOk(c, s, true, from);
    HeadGoes(s);
  }

  lemma HeadGoes(s: State)
    requires Sized(s) && s.w.rn > 0 && HeadDone(s.w)
    ensures !CommitOne(s, true).Stop?
  {
    hide RetireRuu, RetireLsq;
  }

  lemma CommitGoes(c: Config, s: State, width: nat, ports: nat -> bool, from: nat)
    requires CoreOk(c, s, from) && Sized(s) && s.w.rn > 0 && HeadDone(s.w) && width > 0 && ports(width)
    ensures Commit(s, width, ports).Ok? && |Commit(s, width, ports).value.h.retired| > |s.h.retired|
  {
    hide CoreOk, CommitOne, HeadDone, RingPos;
    HeadCommits(c, s, from);
    CommitOneOk(c, s, true, from);
    CommitOk(c, CommitOne(s, true).s, width - 1, ports, from);
  }

  lemma HasOther(s: State)
    requires Sized(s) && s.w.rn > 0 && !CommitOne(s, true).Halt?
    ensures Live(s.w, s.w.rh) && (s.w.st[s.w.rh].completed && s.w.st[s.w.rh].kind.Addr? ==> Live(s.w, s.w.nr + s.w.lh))
  {
    hide RetireRuu, RetireLsq;
  }

  /** An instruction at the head that has not completed has an operation that has not. */
  lemma HeadUndone(c: Config, s: State, from: nat) returns (t: nat)
    requires CoreOk(c, s, from) && Sized(s) && s.w.rn > 0 && !HeadDone(s.w)
    ensures Live(s.w, t) && !s.w.st[t].completed
  {
    hide CoreOk, CommitOne, RingPos;
    CommitOneOk(c, s, true, from);
    HasOther(s);
    t := if !s.w.st[s.w.rh].completed then s.w.rh else s.w.nr + s.w.lh;
  }

  // ---------------------------------------------------------------- a cycle in which nothing retires

  lemma PoppedWithin(q: Queues, q': Queues, m: int)
    requires Popped(q, q') && EventsWithin(q, m)
    ensures EventsWithin(q', m)
  {
  }

  /** The stages of a cycle from writeback to dispatch. */
  ghost predicate Stages(c: Config, i: Inputs, s: State, s2: State, r: State, t: State, d: State) {
    && Sized(s) && Sized(s2) && Sized(r) && Sized(t) && Sized(d)
    && Writeback(c, s) == Ok(s2) && Refresh(s2) == Ok(r) && Issue(r, c.issueWidth, i.units) == Ok(t)
    && Dispatch(c, t, c.decodeWidth * c.fetchSpeed) == Ok(d)
  }

  /** What holds between the stages. */
  lemma StagesOk(c: Config, i: Inputs, s: State, s2: State, r: State, t: State, d: State)
    requires c.Valid() && CoreOk(c, s, s.q.now) && Stages(c, i, s, s2, r, t, d)
    ensures s2.q.now == s.q.now == r.q.now
    ensures CoreOk(c, s2, s2.q.now + 1) && CoreOk(c, r, r.q.now + 1)
  {
    hide CoreOk, Writeback, Refresh, Issue, Dispatch, RingPos, Scanned, OooIssue.OnlyPhases;
    WritebackOk(c, s);
    RefreshOk(c, s2, s2.q.now + 1);
    PhasesKeep(s2, r);
  }

  /** Events stay within the latencies that the units have. */
  lemma StagesWithin(c: Config, i: Inputs, s: State, s2: State, r: State, t: State, d: State, m: int)
    requires Stages(c, i, s, s2, r, t, d) && EventsWithin(s.q, m) && Generous(i, m)
    ensures EventsWithin(d.q, m) && d.q.now == s.q.now
  {
    hide Writeback, RefreshFrom, IssueNodes, Dispatch, Granted, Later, Onward, RingPos;
    WritebackLater(c, s);
    PoppedWithin(s.q, s2.q, m);
    RefreshStill(s2, 0, []);
    var r0 := r.(q := r.q.(readyq := []));
    NodesOnward(r0, r.q.readyq, c.issueWidth, i.units, m);
    DispatchFuller(c, t, c.decodeWidth * c.fetchSpeed);
  }

  lemma StillOnward(s: State, s': State)
    requires Still(s, s')
    ensures Onward(s.w, s'.w)
  {
  }

  /** The potential never rises, and falls if writeback or issue does anything. */
  lemma StagesFall(c: Config, i: Inputs, s: State, s2: State, r: State, t: State, d: State, m: int)
    requires c.Valid() && CoreOk(c, s, s.q.now) && Stages(c, i, s, s2, r, t, d) && EventsWithin(s.q, m) &&
      Generous(i, m) && c.issueWidth > 0
    ensures Potential(d.w) <= Potential(s.w)
    ensures Potential(d.w) < Potential(s.w) ||
      (s2.w == s.w && d.q.events == s2.q.events && Still(s2, r) && !HasValid(r))
  {
    hide CoreOk, Writeback, RefreshFrom, IssueNodes, Dispatch, Granted, Later, Onward, RingPos, Potential, Still,
         FlowOk, Ordered;
    StagesOk(c, i, s, s2, r, t, d);
    WritebackFalls(c, s);
    WritebackLater(c, s);
    PoppedWithin(s.q, s2.q, m);
    RefreshStill(s2, 0, []);
    StillEvents(s2, r, m);
    StillOnward(s2, r);
    OnwardKept(s2.w, r.w);
    IssueFalls(c, r, c.issueWidth, i.units, m);
    DispatchFuller(c, t, c.decodeWidth * c.fetchSpeed);
    FullerKept(t, d);
    FullerEvents(t, d);
  }

  lemma StillEvents(s: State, s': State, m: int)
    requires Still(s, s') && EventsWithin(s.q, m)
    ensures EventsWithin(s'.q, m) && s'.q.events == s.q.events
  {
  }

  lemma FullerEvents(s: State, s': State)
    requires Fuller(s, s')
    ensures s'.q.events == s.q.events
  {
  }

  /** Some node of the ready queue is valid. */
  ghost predicate HasValid(s: State) {
    exists k :: 0 <= k < |s.q.readyq| && Valid(s.w.st, s.q.readyq[k])
  }

  lemma IssueFalls(c: Config, s: State, width: nat, units: nat -> Unit, m: int)
    requires CoreOk(c, s, s.q.now + 1) && Sized(s) && Issue(s, width, units).Ok? && width > 0
    requires EventsWithin(s.q, m) && forall k :: Granted(units(k), m)
    ensures var r := Issue(s, width, units).value;
      Ring(r.w) && if HasValid(s) then Potential(r.w) < Potential(s.w) else r.w == s.w && r.q.events == s.q.events
  {
    assert Ordered(s.w) && FlowOk(s.w, s.q, [], s.q.now + 1);
    hide CoreOk, FlowOk, Ordered, RingPos, IssueNodes, Potential, Granted, Valid;
    OooIssue.FlowMoves(s.w, s.q);
    NodesFall(s.(q := s.q.(readyq := [])), s.q.readyq, width, units, m);
  }

  lemma {:induction false} CountedNode(q: seq<Link>, slot: int, tag: int) returns (k: nat)
    requires Cnt(q, slot, tag) >= 1
    ensures k < |q| && q[k].slot == slot && q[k].tag == tag
  {
    if q[0].slot == slot && q[0].tag == tag {
      k := 0;
    } else {
      k := CountedNode(q[1..], slot, tag);
      k := k + 1;
    }
  }

  lemma StillUndone(s: State, s': State, t: nat)
    requires Still(s, s') && Live(s.w, t) && t < |s.w.st| && !s.w.st[t].completed
    ensures |s'.w.st| == |s.w.st| && Live(s'.w, t) && !s'.w.st[t].completed
  {
    hide RingPos;
    assert Phase(s'.w.st[t]) == Phase(s.w.st[t]);
  }

  /** If nothing is ready to issue, the oldest operation that has not completed has an event to come. */
  lemma EventToCome(c: Config, s: State, r: State) returns (k: nat)
    requires CoreOk(c, s, s.q.now + 1) && Sized(s) && Sized(r) && Refresh(s) == Ok(r) && Still(s, r) && !HasValid(r)
    requires s.w.rn > 0 && !HeadDone(s.w)
    ensures k < |s.q.events| && s.q.events[k].x >= s.q.now + 1
  {
    hide CoreOk, Refresh, RingPos, OldestUndone, HeadDone;
    var t := HeadUndone(c, s, s.q.now + 1);
    LiveBounds(s.w, t);
    StillUndone(s, r, t);
    var x := FindOldest(r.w, t);
    RefreshProgress(c, s, x);
    QueuedIsValid(r, x);
    k := CountedNode(r.q.events, x, r.w.st[x].tag);
    EventsLater(c, s);
  }

  lemma QueuedIsValid(r: State, x: int)
    requires Underway(r, x) && !HasValid(r)
    ensures r.w.st[x].issued
  {
    if !r.w.st[x].issued {
      var k := CountedNode(r.q.readyq, x, r.w.st[x].tag);
      hide Cnt;
    }
  }

  lemma LiveBounds(w: Window, t: int)
    requires Ring(w) && Live(w, t)
    ensures 0 <= t < |w.st|
  {
  }

  lemma EventsLater(c: Config, s: State)
    requires CoreOk(c, s, s.q.now + 1)
    ensures forall k :: 0 <= k < |s.q.events| ==> s.q.events[k].x >= s.q.now + 1
  {
    hide BodyOk, LinksOk, FrontOk, LifeOk, ProgressOk, LoadsOk, RingPos;
  }

  /** As long as the oldest instruction has not completed, a cycle lowers the potential or the events come nearer. */
  lemma StagesAdvance(c: Config, i: Inputs, s: State, s2: State, r: State, t: State, d: State, m: int, n: int)
    requires c.Valid() && CoreOk(c, s, s.q.now) && Stages(c, i, s, s2, r, t, d) && c.issueWidth > 0
    requires s.w.rn > 0 && !HeadDone(s.w) && Generous(i, n) && m <= n && EventsWithin(s.q, m)
    ensures Potential(d.w) < Potential(s.w) || (Potential(d.w) == Potential(s.w) && m >= 1 && EventsWithin(d.q, m))
  {
    hide CoreOk, Stages, Potential, Generous, HasValid, HeadDone, Still, RingPos;
    StagesSized(c, i, s, s2, r, t, d);
    StagesFall(c, i, s, s2, r, t, d, n);
    if Potential(d.w) == Potential(s.w) {
      StagesOk(c, i, s, s2, r, t, d);
      StagesWithin(c, i, s, s2, r, t, d, n);
      var k := EventToCome(c, s2, r);
      WritebackLater(c, s);
      hide Writeback, Refresh;
      assert s2.q.events[k] in s.q.events;
      PoppedWithin(s.q, s2.q, m);
    }
  }

  lemma StagesSized(c: Config, i: Inputs, s: State, s2: State, r: State, t: State, d: State)
    requires Stages(c, i, s, s2, r, t, d)
    ensures Sized(s) && Sized(s2) && Sized(r) && Sized(t) && Sized(d) && Writeback(c, s) == Ok(s2) &&
      Refresh(s2) == Ok(r)
  {
  }

  // ---------------------------------------------------------------- a cycle

  /** The states a cycle passes through once commit is over. */
  lemma CycleStages(c: Config, s: State, s1: State, i: Inputs) returns (s2: State, r: State, t: State, d: State)
    requires Sized(s) && Cycle(c, s, i).Ok? && Commit(s, c.commitWidth, i.ports) == Ok(s1)
    ensures Stages(c, i, s1, s2, r, t, d) && Cycle(c, s, i).value == FetchAndTick(c, d, i.fetches)
  {
    hide Commit, Writeback, Refresh, Issue, Dispatch, FetchAndTick, RingPos;
    s2 := Writeback(c, s1).value;
    r := Refresh(s2).value;
    t := Issue(r, c.issueWidth, i.units).value;
    d := Dispatch(c, t, c.decodeWidth * c.fetchSpeed).value;
  }

  lemma TickWithin(c: Config, d: State, fetches: nat -> FetchInput, m: int)
    requires EventsWithin(d.q, m)
    ensures var s := FetchAndTick(c, d, fetches); s.w == d.w && s.v == d.v && EventsWithin(s.q, m - 1)
  {
    hide Fetch;
  }

  /** Latencies bound the events of every state. */
  lemma CycleWithin(c: Config, s: State, i: Inputs, m: int)
    requires CoreOk(c, s, s.q.now) && Sized(s) && Cycle(c, s, i).Ok? && Generous(i, m) && EventsWithin(s.q, m)
    ensures EventsWithin(Cycle(c, s, i).value.q, m)
  {
    hide CoreOk, Commit, Cycle, Stages, Generous, RingPos, FetchAndTick;
    CommitOk(c, s, c.commitWidth, i.ports, s.q.now);
    var s1 := Commit(s, c.commitWidth, i.ports).value;
    var s2, r, t, d := CycleStages(c, s, s1, i);
    StagesWithin(c, i, s1, s2, r, t, d, m);
    TickWithin(c, d, i.fetches, m);
  }

  /** What a state owes until its oldest instruction retires: potential first, then the time to the last event. */
  ghost predicate Owes(s: State, n: nat, debt: int) {
    Sized(s) && s.w.rn > 0 && exists m: nat :: m <= n && EventsWithin(s.q, m) && Potential(s.w) * (n + 1) + m <= debt
  }

  lemma Charge(a: nat, b: nat, n: nat, m: nat, m': nat, debt: int)
    requires a * (n + 1) + m <= debt && m' <= n && (b < a || (b == a && m' < m))
    ensures b * (n + 1) + m' <= debt - 1
  {
    if b < a {
      Scale(b, a, n + 1);
    }
  }

  /** A cycle retires the oldest instruction or pays off some of the debt. */
  lemma CyclePays(c: Config, s: State, i: Inputs, n: nat, debt: int)
    requires c.Valid() && CoreOk(c, s, s.q.now) && Owes(s, n, debt) && Cycle(c, s, i).Ok? && Generous(i, n)
    requires c.commitWidth > 0 && c.issueWidth > 0
    ensures var s' := Cycle(c, s, i).value; |s'.h.retired| > |s.h.retired| || Owes(s', n, debt - 1)
  {
    hide CoreOk, Commit, Cycle, Stages, RingPos, FetchAndTick, HeadDone, Potential, EventsWithin, Granted;
    var m: nat :| m <= n && EventsWithin(s.q, m) && Potential(s.w) * (n + 1) + m <= debt;
    if HeadDone(s.w) {
      CommitGoes(c, s, c.commitWidth, i.ports, s.q.now);
      CycleKeeps(c, s, i);
    } else {
      CommitOk(c, s, c.commitWidth, i.ports, s.q.now);
      CommitWaits(s, c.commitWidth, i.ports);
      var s2, r, t, d := CycleStages(c, s, s, i);
      CyclePaysWaiting(c, s, i, n, debt, m, s2, r, t, d);
    }
  }

  lemma CyclePaysWaiting(c: Config, s: State, i: Inputs, n: nat, debt: int, m: nat, s2: State, r: State, t: State,
                         d: State)
    requires c.Valid() && CoreOk(c, s, s.q.now) && Stages(c, i, s, s2, r, t, d) && Generous(i, n) && c.issueWidth > 0
    requires s.w.rn > 0 && !HeadDone(s.w) && m <= n && EventsWithin(s.q, m) && Potential(s.w) * (n + 1) + m <= debt
    ensures Owes(FetchAndTick(c, d, i.fetches), n, debt - 1)
  {
    hide CoreOk, Stages, Generous, HeadDone, Potential, RingPos, FetchAndTick;
    StagesSized(c, i, s, s2, r, t, d);
    HeadStays(c, i, s, s2, r, t, d);
    StagesAdvance(c, i, s, s2, r, t, d, m, n);
    WithinMore(s.q, m, n);
    StagesWithin(c, i, s, s2, r, t, d, n);
    TickWithin(c, d, i.fetches, n);
    GenerousBound(i, n);
    var s' := FetchAndTick(c, d, i.fetches);
    if Potential(d.w) < Potential(s.w) {
      Charge(Potential(s.w), Potential(d.w), n, m, n - 1, debt);
      OwesIs(s', n, n - 1, debt - 1);
    } else {
      TickWithin(c, d, i.fetches, m);
      Charge(Potential(s.w), Potential(d.w), n, m, m - 1, debt);
      OwesIs(s', n, m - 1, debt - 1);
    }
  }

  lemma OwesIs(s: State, n: nat, m: nat, debt: int)
    requires Sized(s) && s.w.rn > 0 && m <= n && EventsWithin(s.q, m) && Potential(s.w) * (n + 1) + m <= debt
    ensures Owes(s, n, debt)
  {
  }

  lemma WithinMore(q: Queues, m: int, n: int)
    requires EventsWithin(q, m) && m <= n
    ensures EventsWithin(q, n)
  {
  }

  lemma GenerousBound(i: Inputs, n: int)
    requires Generous(i, n)
    ensures n >= 1
  {
    assert Granted(i.units(0), n);
  }

  /** The window still has an oldest instruction. */
  lemma HeadStays(c: Config, i: Inputs, s: State, s2: State, r: State, t: State, d: State)
    requires Stages(c, i, s, s2, r, t, d) && s.w.rn > 0
    ensures d.w.rn > 0
  {
    hide Writeback, RefreshFrom, IssueNodes, Dispatch, RingPos;
    WritebackLater(c, s);
    RefreshStill(s2, 0, []);
    DispatchFuller(c, t, c.decodeWidth * c.fetchSpeed);
  }

  /** What commit has retired stays retired through the rest of the cycle. */
  lemma CycleKeeps(c: Config, s: State, i: Inputs)
    requires c.Valid() && CoreOk(c, s, s.q.now) && Sized(s) && Cycle(c, s, i).Ok? &&
      Commit(s, c.commitWidth, i.ports).Ok?
    ensures Commit(s, c.commitWidth, i.ports).value.h.retired <= Cycle(c, s, i).value.h.retired
  {
    hide CoreOk, Commit, Writeback, Refresh, Issue, Dispatch, Stages, RingPos, Scanned, OooIssue.OnlyPhases, Cycle;
    CommitOk(c, s, c.commitWidth, i.ports, s.q.now);
    var s1 := Commit(s, c.commitWidth, i.ports).value;
    var s2, r, t, d := CycleStages(c, s, s1, i);
    StagesHistory(c, i, s1, s2, r, t, d);
  }

  lemma StagesHistory(c: Config, i: Inputs, s: State, s2: State, r: State, t: State, d: State)
    requires c.Valid() && CoreOk(c, s, s.q.now) && Stages(c, i, s, s2, r, t, d)
    ensures s.h.retired <= d.h.retired
  {
    hide CoreOk, Writeback, Refresh, Issue, Dispatch, RingPos, Scanned, OooIssue.OnlyPhases;
    StagesOk(c, i, s, s2, r, t, d);
    WritebackOk(c, s);
    RefreshOk(c, s2, s2.q.now + 1);
    PhasesKeep(s2, r);
    OooIssue.IssueOk(c, r, c.issueWidth, i.units);
    PhasesKeep(r, t);
    DispatchOk(c, t, c.decodeWidth * c.fetchSpeed);
  }

  // ---------------------------------------------------------------- runs

  lemma {:induction false} PrefixOk(c: Config, all: seq<Inputs>, k: nat)
    requires c.nr > 0 && c.nl > 0 && Run(c, all).Ok? && k <= |all|
    ensures Run(c, all[..k]).Ok?
    decreases |all|
  {
    hide Cycle, Initial;
    if k == |all| {
      assert all[..k] == all;
    } else {
      PrefixOk(c, all[..|all| - 1], k);
      assert all[..|all| - 1][..k] == all[..k];
    }
  }

  /** The state after `k` cycles of the run. */
  function After(c: Config, all: seq<Inputs>, k: nat): (s: State)
    requires c.nr > 0 && c.nl > 0 && Run(c, all).Ok? && k <= |all|
    ensures Sized(s)
  {
    PrefixOk(c, all, k);
    Run(c, all[..k]).value
  }

  /** One more cycle. */
  lemma Onto(c: Config, all: seq<Inputs>, k: nat)
    requires c.Valid() && Run(c, all).Ok? && k < |all|
    ensures var s := After(c, all, k);
      && CoreOk(c, s, s.q.now) && Cycle(c, s, all[k]) == Ok(After(c, all, k + 1)) && Longer(s.h, After(c, all, k + 1).h)
  {
    hide Cycle, Initial, CoreOk, RingPos, OooMeaning.Meant;
    PrefixOk(c, all, k);
    PrefixOk(c, all, k + 1);
    assert all[..k + 1][..k] == all[..k];
    RunOk(c, all[..k]);
    CycleOk(c, After(c, all, k), all[k]);
  }

  lemma {:induction false} Lasts(c: Config, all: seq<Inputs>, j: nat, k: nat)
    requires c.Valid() && Run(c, all).Ok? && j <= k <= |all|
    ensures Longer(After(c, all, j).h, After(c, all, k).h)
    decreases k
  {
    hide After, CoreOk, Cycle;
    if j == k {
    } else {
      Lasts(c, all, j, k - 1);
      Onto(c, all, k - 1);
    }
  }

  lemma {:induction false} RunWithin(c: Config, all: seq<Inputs>, k: nat, n: nat)
    requires c.Valid() && Run(c, all).Ok? && k <= |all| && n >= 1 && forall j :: 0 <= j < |all| ==> Generous(all[j], n)
    ensures EventsWithin(After(c, all, k).q, n)
    decreases k
  {
    hide CoreOk, Cycle, Generous;
    if k == 0 {
      assert all[..0] == [];
    } else {
      RunWithin(c, all, k - 1, n);
      Onto(c, all, k - 1);
      CycleWithin(c, After(c, all, k - 1), all[k - 1], n);
    }
  }

  /** From cycle `j` on the debt shrinks until the oldest instruction retires. */
  lemma {:induction false} DebtShrinks(c: Config, all: seq<Inputs>, j: nat, k: nat, n: nat, debt: int)
    requires c.Valid() && Run(c, all).Ok? && j <= k <= |all| && forall i :: 0 <= i < |all| ==> Generous(all[i], n)
    requires c.commitWidth > 0 && c.issueWidth > 0 && Owes(After(c, all, j), n, debt)
    ensures |After(c, all, k).h.retired| > |After(c, all, j).h.retired| || Owes(After(c, all, k), n, debt - (k - j))
    decreases k
  {
    hide After, CoreOk, Cycle, Owes, Generous;
    if j == k {
    } else {
      DebtShrinks(c, all, j, k - 1, n, debt);
      Onto(c, all, k - 1);
      if |After(c, all, k - 1).h.retired| <= |After(c, all, j).h.retired| {
        CyclePays(c, After(c, all, k - 1), all[k - 1], n, debt - (k - 1 - j));
        Lasts(c, all, j, k - 1);
      }
    }
  }

  /** The number of cycles within which the oldest instruction retires. */
  function Patience(c: Config, n: nat): nat {
    (n + 1) * Pow4(c.nr + c.nl)
  }

  /** What any state owes at most. */
  function Debt(s: State, n: nat): nat
    requires Ring(s.w)
  {
    Potential(s.w) * (n + 1) + n
  }

  lemma FullDebt(s: State, n: nat)
    requires Sized(s) && s.w.rn > 0 && EventsWithin(s.q, n)
    ensures Owes(s, n, Debt(s, n))
  {
    hide Potential;
    OwesIs(s, n, n, Debt(s, n));
  }

  lemma DebtBelow(c: Config, s: State, n: nat)
    requires Sized(s) && s.w.nr == c.nr && s.w.nl == c.nl
    ensures Debt(s, n) < Patience(c, n)
  {
    hide Phases, Num, Pow4;
    PhasesAre(s.w);
    NumBelow(Phases(s.w));
    Scale(Potential(s.w), Pow4(c.nr + c.nl), n + 1);
  }

  lemma PhasesAre(w: Window)
    requires Ring(w)
    ensures Digits(Phases(w))
  {
    hide PhaseAt;
  }

  lemma PaidOff(s: State, n: nat, debt: int)
    requires debt < 0
    ensures !Owes(s, n, debt)
  {
    hide Potential;
    if Owes(s, n, debt) {
      var m: nat :| m <= n && EventsWithin(s.q, m) && Potential(s.w) * (n + 1) + m <= debt;
      Product(Potential(s.w), n + 1);
    }
  }

  lemma Product(a: nat, b: nat)
    ensures a * b >= 0
  {
  }

  lemma ReachedOk(c: Config, all: seq<Inputs>, k: nat)
    requires c.Valid() && Run(c, all).Ok? && k <= |all|
    ensures CoreOk(c, After(c, all, k), After(c, all, k).q.now) && Reachable(c, After(c, all, k))
  {
    hide CoreOk, Cycle, Initial, RingPos, OooMeaning.Meant;
    PrefixOk(c, all, k);
    RunOk(c, all[..k]);
    assert Run(c, all[..k]) == Ok(After(c, all, k));
  }

  /** A run that no error stops, in which ports and units are granted with latencies of at most `n`. */
  ghost predicate Fair(c: Config, all: seq<Inputs>, n: nat) {
    && c.Valid() && c.commitWidth > 0 && c.issueWidth > 0 && Run(c, all).Ok?
    && n >= 1 && forall i :: 0 <= i < |all| ==> Generous(all[i], n)
  }

  /** The oldest instruction of a window that is not empty retires within the bound. */
  lemma HeadRetires(c: Config, all: seq<Inputs>, j: nat, n: nat)
    requires Fair(c, all, n) && j + Patience(c, n) <= |all| && After(c, all, j).w.rn > 0
    ensures |After(c, all, j + Patience(c, n)).h.retired| > |After(c, all, j).h.retired|
  {
    hide After, CoreOk, Generous, Patience, Debt, Owes, Run, Reachable, RingPos;
    var s := After(c, all, j);
    ReachedOk(c, all, j);
    NrNl(c, s, s.q.now);
    RunWithin(c, all, j, n);
    FullDebt(s, n);
    DebtBelow(c, s, n);
    DebtShrinks(c, all, j, j + Patience(c, n), n, Debt(s, n));
    PaidOff(After(c, all, j + Patience(c, n)), n, Debt(s, n) - Patience(c, n));
  }

  /** While some right-path instruction has not retired, the window is not empty. */
  lemma NotEmpty(c: Config, s: State)
    requires Reachable(c, s) && |s.h.retired| < |s.h.dispatched|
    ensures s.w.rn > 0
  {
    hide Reachable;
    OnlyRightPathCommits(c, s);
  }

  /** Cycles enough for `k` instructions to retire. */
  function Rounds(c: Config, n: nat, k: nat): nat {
    if k == 0 then 0 else Rounds(c, n, k - 1) + Patience(c, n)
  }

  lemma RoundsAre(c: Config, n: nat, k: nat)
    ensures Rounds(c, n, 0) == 0 && (k > 0 ==> Rounds(c, n, k) == Rounds(c, n, k - 1) + Patience(c, n))
  {
  }

  lemma FairParts(c: Config, all: seq<Inputs>, n: nat)
    requires Fair(c, all, n)
    ensures c.Valid() && Run(c, all).Ok?
  {
  }

  lemma {:induction false} ManyRetire(c: Config, all: seq<Inputs>, j: nat, n: nat, k: nat)
    requires Fair(c, all, n) && j + Rounds(c, n, k) <= |all| && k <= |After(c, all, j).h.dispatched|
    ensures |After(c, all, j + Rounds(c, n, k)).h.retired| >= k
    decreases k
  {
    hide After, Patience, Fair, Reachable, Run, Rounds, CoreOk;
    FairParts(c, all, n);
    RoundsAre(c, n, k);
    if k == 0 {
    } else {
      ManyRetire(c, all, j, n, k - 1);
      var at := j + Rounds(c, n, k - 1);
      Lasts(c, all, j, at);
      Lasts(c, all, at, at + Patience(c, n));
      if |After(c, all, at).h.retired| < k {
        ReachedOk(c, all, at);
        NotEmpty(c, After(c, all, at));
        HeadRetires(c, all, at, n);
      }
    }
  }

  /**
   * Every instruction that has been dispatched on the right path retires, however the predictor
   * and the caches answer, in a run that grants ports and units and that no error stops.
   */
  lemma EveryInstructionRetires(c: Config, all: seq<Inputs>, j: nat, n: nat, k: nat)
    requires Fair(c, all, n) && j + Rounds(c, n, k + 1) <= |all| && k < |After(c, all, j).h.dispatched|
    ensures var s := Run(c, all).value; k < |s.h.retired| && s.h.retired[k] == After(c, all, j).h.dispatched[k]
  {
    hide After, Rounds, Generous, Reachable, Run, CoreOk, RingPos;
    ManyRetire(c, all, j, n, k + 1);
    Lasts(c, all, j + Rounds(c, n, k + 1), |all|);
    Lasts(c, all, j, |all|);
    AfterAll(c, all);
    ReachedOk(c, all, |all|);
    OnlyRightPathCommits(c, After(c, all, |all|));
  }

  lemma AfterAll(c: Config, all: seq<Inputs>)
    requires c.nr > 0 && c.nl > 0 && Run(c, all).Ok?
    ensures After(c, all, |all|) == Run(c, all).value
  {
    hide Cycle, Initial;
    assert all[..|all|] == all;
  }
}
