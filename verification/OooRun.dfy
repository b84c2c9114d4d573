/**
 * Whole runs of the simulator: the invariant holds in every reachable state, and the promises of
 * the core follow from it.
 */
module OooRun {
  import opened OooTypes
  import opened OooStages
  import opened OooInv
  import opened OooFrames
  import opened OooIssue
  import OooQueues
  import opened OooRefresh
  import opened OooCommit
  import opened OooComplete
  import opened OooFrontEnd
  import opened OooFollow
  import opened OooStores
  import opened OooMeaning

  // ---------------------------------------------------------------- one cycle

  lemma PairedBound(c: Config, s: State, from: nat)
    requires CoreOk(c, s, from)
    ensures s.w.ln <= s.w.rn
  {
    assert Paired(s.w);
    hide CoreOk;
  }

  lemma TickOk(c: Config, s: State, fetches: nat -> FetchInput)
    requires CoreOk(c, s, s.q.now + 1)
    ensures var r := FetchAndTick(c, s, fetches);
      CoreOk(c, r, r.q.now) && r.q.now == s.q.now + 1 && r.h == s.h
  {
    var r := FetchAndTick(c, s, fetches);
    hide CoreOk, FetchAndTick, FrontOk, RestOk, RingsOk, RingPos, LinksOk;
    SplitCore(c, s, s.q.now + 1);
    TickFront(c, s, fetches);
    TickRest(s.w, s.q, s.v, s.f.specMode, r.q);
    TickLinks(c, s.w, s.q, r.q);
    SplitCore(c, r, r.q.now);
  }

  lemma TickFront(c: Config, s: State, fetches: nat -> FetchInput)
    requires FrontOk(c, s.f, s.h)
    ensures var r := FetchAndTick(c, s, fetches);
      FrontOk(c, r.f, r.h) && r.f.specMode == s.f.specMode && r == s.(f := r.f, q := s.q.(now := s.q.now + 1))
  {
    hide Fetch, FrontOk, FetchOk;
    FetchFront(c, s.f, s.h, c.decodeWidth * c.fetchSpeed, c.fetchSpeed, fetches);
    FrontFetch(c, s.f, s.h);
    FetchKeeps(c, s.f, c.decodeWidth * c.fetchSpeed, c.fetchSpeed, fetches);
    FrontDelay(c, s.f, s.h, if s.f.delay == 0 then 0 else s.f.delay - 1);
  }

  lemma TickLinks(c: Config, w: Window, q: Queues, q': Queues)
    requires LinksOk(c, w, q) && q' == q.(now := q'.now)
    ensures LinksOk(c, w, q')
  {
    forall id: nat ensures LinkCnt(w, q', id) == LinkCnt(w, q, id) {
    }
    hide LinkCnt;
  }

  lemma FrontDelay(c: Config, f: Front, h: History, d: nat)
    requires FrontOk(c, f, h)
    ensures FrontOk(c, f.(delay := d), h)
  {
    hide SeqRun;
  }

  lemma TickRest(w: Window, q: Queues, v: Vectors, m: bool, q': Queues)
    requires Ring(w) && RestOk(w, q, v, m) && q' == q.(now := q'.now)
    ensures RestOk(w, q', v, m)
  {
    hide Numbered, KindsOk, VectorsOk, OperandsOk, SpecOk, ProgressOk, LoadsOk, RingPos;
    OooQueues.LifeSame(w, q, q', []);
    hide LifeOk;
  }

  /**
   * What can make the simulator stop with an error: an empty pool, a program with a store that
   * names an output register, a long LSQ.
   */
  ghost predicate Excused(c: Config, p: Panic) {
    || p == OutOfLinks
    || (p == StoreCreatesResult && StoresHaveResults(c))
    || (p == StdUnknownOverflow && c.nl > MAX_STD_UNKNOWNS)
  }

  /** Histories only grow. */
  predicate Longer(h: History, h': History) {
    h.path <= h'.path && h.dispatched <= h'.dispatched && h.retired <= h'.retired
  }

  lemma RefreshIssueOk(c: Config, s: State, i: Inputs)
    requires c.Valid() && CoreOk(c, s, s.q.now + 1) && Sized(s) && Meant(c, s.w, s.h)
    ensures match Refresh(s)
      case Panic(p) => Excused(c, p)
      case Ok(s1) => Issuable(c, s, s1, i)
  {
    hide CoreOk, Refresh, Issue, Scanned, RingPos, OnlyPhases, StoresHaveResults, ResultFree, Meant;
    NrNl(c, s, s.q.now + 1);
    RefreshOk(c, s, s.q.now + 1);
    if Refresh(s).Ok? {
      var r := Refresh(s).value;
      PhasesKeep(s, r);
      PhasesMeant(c, s, r);
      if !StoresHaveResults(c) {
        MeantFree(c, r.w, r.h);
      }
      IssueOk(c, r, c.issueWidth, i.units);
      if Issue(r, c.issueWidth, i.units).Ok? {
        PhasesKeep(r, Issue(r, c.issueWidth, i.units).value);
        PhasesMeant(c, r, Issue(r, c.issueWidth, i.units).value);
      }
    }
  }

  ghost predicate Issuable(c: Config, s: State, s1: State, i: Inputs)
    requires Sized(s1)
  {
    match Issue(s1, c.issueWidth, i.units)
    case Panic(p) => Excused(c, p)
    case Ok(t) => CoreOk(c, t, t.q.now + 1) && Meant(c, t.w, t.h) && t.q.now == s.q.now && t.h == s.h
  }

  lemma NrNl(c: Config, s: State, from: nat)
    requires CoreOk(c, s, from)
    ensures s.w.nr == c.nr && s.w.nl == c.nl
  {
  }

  lemma PhasesKeep(s: State, s': State)
    requires OnlyPhases(s, s')
    ensures s'.q.now == s.q.now && s'.h == s.h
  {
  }

  /** From the start of commit to the start of refresh. */
  lemma DrainOk(c: Config, s: State, i: Inputs)
    requires CoreOk(c, s, s.q.now) && Sized(s)
    ensures Commit(s, c.commitWidth, i.ports).Ok? && Drained(c, s, Commit(s, c.commitWidth, i.ports).value)
  {
    hide CoreOk, Commit, Writeback, RingPos;
    CommitOk(c, s, c.commitWidth, i.ports, s.q.now);
    WritebackOk(c, Commit(s, c.commitWidth, i.ports).value);
  }

  ghost predicate Drained(c: Config, s: State, s1: State)
    requires Sized(s1)
  {
    match Writeback(c, s1)
    case Panic(p) => Excused(c, p)
    case Ok(t) => CoreOk(c, t, t.q.now + 1) && t.q.now == s.q.now && Longer(s.h, t.h)
  }

  lemma PhasesMeant(c: Config, s: State, s': State)
    requires Ring(s.w) && Ring(s'.w) && OnlyPhases(s, s') && Meant(c, s.w, s.h)
    ensures Meant(c, s'.w, s'.h)
  {
    hide Meant, Quiet, RingPos;
    QuietMeant(c, s.w, s'.w, s.h);
  }

  /** Every cycle keeps the invariant; only an excused panic stops it, and no history is rewritten. */
  lemma CycleOk(c: Config, s: State, i: Inputs)
    requires c.Valid() && CoreOk(c, s, s.q.now) && Sized(s) && Meant(c, s.w, s.h)
    ensures match Cycle(c, s, i)
      case Panic(p) => Excused(c, p)
      case Ok(r) => CoreOk(c, r, r.q.now) && Meant(c, r.w, r.h) && r.q.now == s.q.now + 1 && Longer(s.h, r.h)
  {
    hide CoreOk, Commit, Writeback, Refresh, Issue, Dispatch, FetchAndTick, RingPos, Ring, Meant;
    PairedBound(c, s, s.q.now);
    DrainOk(c, s, i);
    CommitMeant(c, s, c.commitWidth, i.ports);
    var s1 := Commit(s, c.commitWidth, i.ports).value;
    if Writeback(c, s1).Ok? {
      var s2 := Writeback(c, s1).value;
      WritebackMeant(c, s1);
      RefreshIssueOk(c, s2, i);
      if Refresh(s2).Ok? {
        var s3 := Refresh(s2).value;
        if Issue(s3, c.issueWidth, i.units).Ok? {
          var s4 := Issue(s3, c.issueWidth, i.units).value;
          DispatchOk(c, s4, c.decodeWidth * c.fetchSpeed);
          if Dispatch(c, s4, c.decodeWidth * c.fetchSpeed).Ok? {
            DispatchMeant(c, s4, c.decodeWidth * c.fetchSpeed);
            TickOk(c, Dispatch(c, s4, c.decodeWidth * c.fetchSpeed).value, i.fetches);
            TickWindow(c, Dispatch(c, s4, c.decodeWidth * c.fetchSpeed).value, i.fetches);
          }
        }
      }
    }
  }

  lemma TickWindow(c: Config, s: State, fetches: nat -> FetchInput)
    ensures FetchAndTick(c, s, fetches).w == s.w
  {
  }
}
