/**
 * What a cycle does, stage by stage, and what a misprediction costs: no stage does less than its
 * width and the state of the machine allow.
 */
module OooCycle {
  import opened OooTypes
  import opened OooStages
  import opened OooInv
  import OooIssue
  import OooMeaning
  import opened OooCommit
  import opened OooComplete
  import opened OooRefresh
  import opened OooRun
  import opened OooTheorems
  import opened OooProgress
  import opened OooWidths
  import opened OooResolve
  import OooFollow
  import OooSupply

  // ---------------------------------------------------------------- commit

  /** Only completed operations have left, and nothing else has changed but the histories. */
  ghost predicate OnlyDone(s: State, s': State) {
    && Ring(s.w) && Ring(s'.w) && s'.w.nr == s.w.nr && s'.w.nl == s.w.nl
    && s'.q == s.q && s'.f == s.f && s'.v == s.v && s'.h == s.h.(retired := s'.h.retired)
    && (forall t :: Live(s.w, t) && !s.w.st[t].completed ==> Live(s'.w, t))
    && (forall t :: Live(s'.w, t) ==> Live(s.w, t) && s'.w.st[t] == s.w.st[t])
  }

  lemma OnlyDoneTrans(s: State, s': State, s'': State)
    requires OnlyDone(s, s') && OnlyDone(s', s'')
    ensures OnlyDone(s, s'')
  {
    hide RingPos;
  }

  lemma RetireRuuDone(s: State)
    requires Ring(s.w) && s.w.rn > 0 && s.w.st[s.w.rh].completed
    ensures OnlyDone(s, s.(w := RetireRuu(s.w)))
  {
  }

  lemma RetireLsqDone(s: State)
    requires Ring(s.w) && s.w.ln > 0 && s.w.st[s.w.nr + s.w.lh].completed
    ensures OnlyDone(s, s.(w := RetireLsq(s.w)))
  {
  }

  lemma CommitOneDone(s: State, port: bool)
    requires Sized(s) && CommitOne(s, port).Next?
    ensures OnlyDone(s, CommitOne(s, port).s)
  {
    hide RingPos, OnlyDone;
    var s1 := s;
    if s.w.st[s.w.rh].kind.Addr? {
      RetireLsqDone(s);
      s1 := s.(w := RetireLsq(s.w));
      RetireRuuDone(s1);
      OnlyDoneTrans(s, s1, s1.(w := RetireRuu(s1.w)));
    } else {
      RetireRuuDone(s);
    }
    DoneHistory(s, s1.(w := RetireRuu(s1.w)), CommitOne(s, port).s);
  }

  lemma DoneHistory(s: State, s1: State, s2: State)
    requires OnlyDone(s, s1) && s2 == s1.(h := s1.h.(retired := s2.h.retired))
    ensures OnlyDone(s, s2)
  {
    hide RingPos;
  }

  lemma {:induction false} CommitDone(s: State, width: nat, ports: nat -> bool)
    requires Sized(s) && Commit(s, width, ports).Ok?
    ensures OnlyDone(s, Commit(s, width, ports).value)
    decreases width
  {
    hide CommitOne, RingPos;
    if width > 0 && CommitOne(s, ports(width)).Next? {
      hide OnlyDone;
      var s1 := CommitOne(s, ports(width)).s;
      CommitOneDone(s, ports(width));
      CommitDone(s1, width - 1, ports);
      OnlyDoneTrans(s, s1, Commit(s, width, ports).value);
    }
  }

  /** Commit neither resolves a branch nor changes which event is due. */
  lemma StillResolving(s: State, s1: State)
    requires OnlyDone(s, s1)
    ensures Resolving(s1) <==> Resolving(s)
  {
    hide RingPos;
    if Resolving(s) {
      var b :| Pending(s.w, b) && DueNow(s, b);
      assert Live(s1.w, b);
      assert Pending(s1.w, b) && DueNow(s1, b);
    }
    if Resolving(s1) {
      var b :| Pending(s1.w, b) && DueNow(s1, b);
      assert Pending(s.w, b) && DueNow(s, b);
    }
  }

  // ---------------------------------------------------------------- all stages

  ghost predicate WritesBack(c: Config, s1: State, s2: State) {
    Ring(s1.w) && WrittenBack(c, s1, s2) && s2.h == s1.h
  }

  /** Loads that no older store can affect have been queued. */
  ghost predicate Releases(s2: State, r: State) {
    Ring(s2.w) && SameRings(s2.w, r.w) && Scanned(s2.w, 0, r.w) && r.f == s2.f && r.h == s2.h
  }

  /** The operations that issue has started, of those in the ready queue, and when they will complete. */
  ghost predicate Issues(c: Config, i: Inputs, r: State, t: State) {
    && Ring(r.w) && |t.w.st| == |r.w.st| && t.f == r.f && t.h == r.h
    && (forall k :: 0 <= k < |r.q.readyq| ==> Chosen(r.w, t.w, r.q.readyq, c.issueWidth, i.units, k))
    && forall k :: 0 <= k < |r.q.readyq| ==> OnTime(r.w, t, r.q.readyq, i.units, k)
  }

  /** Fetch works unless it is held up, and then comes one cycle nearer to working. */
  ghost predicate FetchesOrWaits(c: Config, i: Inputs, d: State, s': State, got: seq<Fetched>) {
    && s' == d.(f := s'.f, q := d.q.(now := d.q.now + 1))
    && if d.f.delay == 0 then
         OooSupply.Fetches(c, d.f, s'.f, c.decodeWidth * c.fetchSpeed, c.fetchSpeed, i.fetches, got)
       else s'.f == d.f.(delay := d.f.delay - 1) && got == []
  }

  /** The instructions that retire in a cycle are the oldest ones up to the first that may not. */
  ghost predicate Commits(c: Config, i: Inputs, s: State, s': State) {
    var n := |s'.h.retired| - |s.h.retired|;
    Ring(s.w) && Retires(s.w, c.commitWidth, i.ports, n) && s'.h.retired == s.h.retired + OldestEntries(s.w, n)
  }

  lemma CommitsInOrder(c: Config, s: State, i: Inputs)
    requires Reachable(c, s) && Sized(s) && Cycle(c, s, i).Ok?
    ensures Commits(c, i, s, Cycle(c, s, i).value)
  {
    hide Cycle, Commit, Stages, CoreOk, RingPos, Retires, OldestEntries;
    ReachableOk(c, s);
    CommitIsExact(c, s, c.commitWidth, i.ports, s.q.now);
    var s1 := Commit(s, c.commitWidth, i.ports).value;
    CommitOk(c, s, c.commitWidth, i.ports, s.q.now);
    var s2, r, t, d := CycleStages(c, s, s1, i);
    StagesRetire(c, i, s1, s2, r, t, d);
    TickHistory(c, d, i.fetches);
  }

  lemma TickHistory(c: Config, d: State, fetches: nat -> FetchInput)
    ensures FetchAndTick(c, d, fetches).h == d.h
  {
    hide Fetch;
  }

  lemma StagesRetire(c: Config, i: Inputs, s: State, s2: State, r: State, t: State, d: State)
    requires c.Valid() && CoreOk(c, s, s.q.now) && Stages(c, i, s, s2, r, t, d)
    ensures d.h.retired == s.h.retired
  {
    hide CoreOk, Writeback, Refresh, Issue, Dispatch, RingPos, Scanned, OooIssue.OnlyPhases;
    StagesOk(c, i, s, s2, r, t, d);
    WritebackOk(c, s);
    RefreshOk(c, s2, s2.q.now + 1);
    PhasesKeep(s2, r);
    OooIssue.IssueOk(c, r, c.issueWidth, i.units);
    PhasesKeep(r, t);
    OooFollow.DispatchOk(c, t, c.decodeWidth * c.fetchSpeed);
  }

  lemma IssuesIs(c: Config, i: Inputs, r: State, t: State)
    requires CoreOk(c, r, r.q.now + 1) && Sized(r) && Issue(r, c.issueWidth, i.units) == Ok(t)
    ensures Issues(c, i, r, t)
  {
    hide CoreOk, Issue, RingPos, Chosen, OnTime;
    OooIssue.IssueOk(c, r, c.issueWidth, i.units);
    forall k | 0 <= k < |r.q.readyq| ensures |t.w.st| == |r.w.st| &&
      Chosen(r.w, t.w, r.q.readyq, c.issueWidth, i.units, k) {
      IssueIsExact(c, r, c.issueWidth, i.units, k);
    }
    forall k | 0 <= k < |r.q.readyq| ensures |t.w.st| == |r.w.st| && OnTime(r.w, t, r.q.readyq, i.units, k) {
      IssueIsOnTime(c, r, c.issueWidth, i.units, k);
    }
  }

  lemma FetchIs(c: Config, i: Inputs, d: State) returns (got: seq<Fetched>)
    ensures FetchesOrWaits(c, i, d, FetchAndTick(c, d, i.fetches), got)
  {
    hide Fetch, OooSupply.Fetches;
    got := [];
    if d.f.delay == 0 {
      got := OooSupply.FetchIsExact(c, d.f, c.decodeWidth * c.fetchSpeed, c.fetchSpeed, i.fetches);
    }
  }

  ghost predicate Does(c: Config, i: Inputs, s: State, s1: State, s2: State, r: State, t: State, d: State, n: nat,
                       m: nat)
  {
    && OnlyDone(s, s1) && Commits(c, i, s, s1) && WritesBack(c, s1, s2) && Releases(s2, r) && Issues(c, i, r, t)
    && OooSupply.Dispatches(c, t, d, c.decodeWidth * c.fetchSpeed, n, m)
  }

  /**
   * A cycle in six steps, each of which does exactly what its width, its inputs and the state before
   * it allow: commit, writeback, release of loads, issue, dispatch and fetch.
   */
  lemma CycleIsExact(c: Config, s: State, i: Inputs)
      returns (s1: State, s2: State, r: State, t: State, d: State, n: nat, m: nat, got: seq<Fetched>)
    requires Reachable(c, s) && Sized(s) && Cycle(c, s, i).Ok?
    ensures Does(c, i, s, s1, s2, r, t, d, n, m) && FetchesOrWaits(c, i, d, Cycle(c, s, i).value, got)
  {
    hide Cycle, Commit, Writeback, Refresh, Issue, Dispatch, CoreOk, RingPos, Scanned, OooSupply.Dispatches,
         FetchAndTick, FetchesOrWaits, WrittenBack, Issues, Resolving, OnlyDone, Retires, OldestEntries;
    ReachableOk(c, s);
    CommitOk(c, s, c.commitWidth, i.ports, s.q.now);
    s1 := Commit(s, c.commitWidth, i.ports).value;
    CommitDone(s, c.commitWidth, i.ports);
    CommitIsExact(c, s, c.commitWidth, i.ports, s.q.now);
    s2, r, t, d := CycleStages(c, s, s1, i);
    StagesOk(c, i, s1, s2, r, t, d);
    WritebackIsExact(c, s1);
    WritebackOk(c, s1);
    RefreshOk(c, s2, s2.q.now + 1);
    IssuesIs(c, i, r, t);
    n, m := OooSupply.DispatchIsExact(c, t, c.decodeWidth * c.fetchSpeed);
    got := FetchIs(c, i, d);
  }

  // ---------------------------------------------------------------- the cost of a misprediction

  lemma ModeOf(c: Config, s: State)
    requires CoreOk(c, s, s.q.now)
    ensures Ring(s.w) && (Resolving(s) ==> s.f.specMode)
  {
    CoreSpec(c, s);
    hide CoreOk, LifeOk, EventsOk, FrontOk, RingPos, DueNow;
  }

  /** The front end as dispatch finds it. */
  lemma BeforeDispatch(c: Config, i: Inputs, s: State, s1: State, s2: State, r: State, t: State, d: State, n: nat,
                       m: nat)
    requires Does(c, i, s, s1, s2, r, t, d, n, m) && Ring(s.w)
    ensures t.f == (if Resolving(s) then Resumed(c, s.f) else s.f) && t.h.path == s.h.path
    ensures OooSupply.Dispatches(c, t, d, c.decodeWidth * c.fetchSpeed, n, m)
  {
    hide RingPos, Resolving, Chosen, OnTime, OooSupply.Dispatches, Scanned, Commits;
    StillResolving(s, s1);
  }

  lemma EmptyQueue(c: Config, t: State, d: State, width: nat, n: nat, m: nat)
    requires OooSupply.Dispatches(c, t, d, width, n, m)
    ensures t.f.fq == [] ==> d == t
    ensures t.f.specMode ==> d.f.specMode
  {
    hide OooSupply.Fits;
  }

  lemma ModeStays(c: Config, i: Inputs, d: State, s': State, got: seq<Fetched>)
    requires FetchesOrWaits(c, i, d, s', got)
    ensures s'.f.specMode == d.f.specMode && s'.h == d.h
    ensures d.f.delay > 0 ==> s'.f == d.f.(delay := d.f.delay - 1)
  {
    hide OooSupply.Open, OooSupply.EntryOk, OooSupply.Missed;
  }

  /** What a cycle does to a front end that waits or that resumes; spec_mode goes off in no other way. */
  lemma FrontOfCycle(c: Config, s: State, i: Inputs)
    requires Reachable(c, s) && Sized(s) && Cycle(c, s, i).Ok?
    ensures Waited(c, s, Cycle(c, s, i).value)
  {
    hide Cycle, Does, FetchesOrWaits, CoreOk, RingPos, OooSupply.Dispatches, Resolving;
    ReachableOk(c, s);
    ModeOf(c, s);
    var s1, s2, r, t, d, n, m, got := CycleIsExact(c, s, i);
    BeforeDispatch(c, i, s, s1, s2, r, t, d, n, m);
    EmptyQueue(c, t, d, c.decodeWidth * c.fetchSpeed, n, m);
    ModeStays(c, i, d, Cycle(c, s, i).value, got);
  }

  ghost predicate Waited(c: Config, s: State, s': State) {
    && Ring(s.w) && (Resolving(s) ==> s.f.specMode)
    && (Resolving(s) && c.branchPenalty > 0 ==>
          s'.f == Resumed(c, s.f).(delay := c.branchPenalty - 1) && s'.h.path == s.h.path)
    && (s.f.specMode ==> (s'.f.specMode <==> !Resolving(s)))
    && (!s.f.specMode && s.f.fq == [] && s.f.delay > 0 ==>
          s'.f == s.f.(delay := s.f.delay - 1) && s'.h.path == s.h.path)
  }

  /** The state after `k` cycles is reachable, and so is the next one. */
  lemma Steps(c: Config, all: seq<Inputs>, k: nat)
    requires c.Valid() && Run(c, all).Ok? && k < |all|
    ensures var s := After(c, all, k); Reachable(c, s) && Cycle(c, s, all[k]) == Ok(After(c, all, k + 1))
  {
    hide Cycle, CoreOk;
    Onto(c, all, k);
    ReachedOk(c, all, k);
  }

  /** Nothing is fetched or dispatched: the front end is held up for `left` more cycles. */
  predicate HeldUp(c: Config, f: Front, pc: nat, left: nat) {
    !f.specMode && f.overlay == map[] && f.fq == [] && f.fetchPC == pc && f.delay == left
  }

  /**
   * A misprediction costs the branch penalty.  Speculation ends in the cycle in which the event of the
   * mispredicted branch is due, and in no other.  In that cycle and in the next ones, as many as the
   * penalty, nothing is dispatched and nothing fetched; then fetch resumes where the sequential machine
   * is.
   */
  lemma {:induction false} MispredictionCosts(c: Config, all: seq<Inputs>, k: nat, j: nat)
    requires c.Valid() && Run(c, all).Ok? && k + 1 + j <= |all|
    requires After(c, all, k).f.specMode
    ensures Ring(After(c, all, k).w) && (Resolving(After(c, all, k)) <==> !After(c, all, k + 1).f.specMode)
    ensures var s, s' := After(c, all, k), After(c, all, k + 1 + j);
      !After(c, all, k + 1).f.specMode && j < c.branchPenalty ==>
        HeldUp(c, s'.f, SeqRun(c, |s'.h.path|).pc, c.branchPenalty - 1 - j) && s'.h.path == s.h.path
  {
    hide After, Cycle, Resolving;
    Steps(c, all, k);
    FrontOfCycle(c, After(c, all, k), all[k]);
    if !After(c, all, k + 1).f.specMode && j < c.branchPenalty {
      if j == 0 {
        RecoveryPoint(c, After(c, all, k));
      } else {
        MispredictionCosts(c, all, k, j - 1);
        Steps(c, all, k + j);
        FrontOfCycle(c, After(c, all, k + j), all[k + j]);
      }
    }
  }

  lemma RecoveryPoint(c: Config, s: State)
    requires Reachable(c, s) && s.f.specMode
    ensures s.f.recoverPC == SeqRun(c, |s.h.path|).pc
  {
    SequentialRefinement(c, s);
    hide SeqRun;
  }
}
