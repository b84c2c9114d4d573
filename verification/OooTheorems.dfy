/**
 * What the out-of-order core promises, for every configuration, every program and every run:
 * whatever the predictor, the caches and the functional units answer.
 */
module OooTheorems {
  import opened OooTypes
  import opened OooStages
  import opened OooInv
  import opened OooFrames
  import OooIssue
  import OooLink
  import opened OooRefresh
  import opened OooCommit
  import opened OooComplete
  import opened OooFrontEnd
  import opened OooFollow
  import opened OooStores
  import opened OooMeaning
  import opened OooTiming
  import opened OooRun

  // ---------------------------------------------------------------- the initial state

  lemma {:induction false} AllFree(from: nat, n: nat, id: nat)
    ensures FreeCnt(seq(n, i => from + i), id) == if from <= id < from + n then 1 else 0
    decreases n
  {
    if n == 0 {
    } else {
      var s := seq(n, i => from + i);
      assert s[1..] == seq(n - 1, i => from + 1 + i);
      AllFree(from + 1, n - 1, id);
    }
  }

  lemma {:induction false} NoChains(st: seq<Station>, id: nat)
    requires forall k :: 0 <= k < |st| ==> st[k].odeps == [[], []]
    ensures ChainCnt(st, id) == 0
  {
    if st == [] {
    } else {
      NoChains(st[1..], id);
    }
  }

  lemma InitialLinks(c: Config)
    requires c.nr > 0 && c.nl > 0
    ensures LinksOk(c, Initial(c).w, Initial(c).q)
  {
    var s := Initial(c);
    forall id: nat ensures LinkCnt(s.w, s.q, id) == if id < c.links then 1 else 0 {
      assert s.q.free == seq(c.links, i => 0 + i);
      AllFree(0, c.links, id);
      NoChains(s.w.st, id);
    }
    hide LinkCnt;
  }

  lemma EmptyWindow(c: Config, t: int)
    requires c.nr > 0 && c.nl > 0
    ensures !Live(Initial(c).w, t)
  {
  }

  lemma InitialOperands(c: Config)
    requires c.nr > 0 && c.nl > 0
    ensures OperandsOk(Initial(c).w, 0, 2) && VectorsOk(Initial(c).w, Initial(c).v, 0, 2)
  {
    var s := Initial(c);
    forall t ensures !Live(s.w, t) {
      EmptyWindow(c, t);
    }
    hide RingPos, Live;
  }

  lemma InitialRest(c: Config)
    requires c.nr > 0 && c.nl > 0
    ensures var s := Initial(c); RestOk(s.w, s.q, s.v, false) && RingsOk(s.w, s.h) && EventsOk(s.q, 0)
  {
    var s := Initial(c);
    forall t ensures !Live(s.w, t) {
      EmptyWindow(c, t);
    }
    InitialOperands(c);
    hide RingPos, Live, OperandsOk, VectorsOk;
  }

  lemma InitialFront(c: Config)
    requires c.nr > 0 && c.nl > 0
    ensures FrontOk(c, Initial(c).f, Initial(c).h)
  {
    assert Pcs([]) == [];
  }

  lemma InitialMeant(c: Config)
    requires c.nr > 0 && c.nl > 0
    ensures Meant(c, Initial(c).w, Initial(c).h)
  {
    var s := Initial(c);
    forall t ensures !Live(s.w, t) {
      EmptyWindow(c, t);
    }
    hide RingPos, Live;
  }

  lemma InitialOk(c: Config)
    requires c.nr > 0 && c.nl > 0
    ensures CoreOk(c, Initial(c), 0) && Initial(c).q.now == 0 && Meant(c, Initial(c).w, Initial(c).h)
  {
    InitialMeant(c);
    InitialLinks(c);
    InitialRest(c);
    InitialFront(c);
    SplitCore(c, Initial(c), 0);
    hide CoreOk, LinksOk, RestOk, RingsOk, FrontOk, Meant;
  }

  // ---------------------------------------------------------------- every reachable state

  /** The invariant holds after every run, and a run stops early only for an excused reason. */
  lemma {:induction false} RunOk(c: Config, inputs: seq<Inputs>)
    requires c.Valid()
    ensures match Run(c, inputs)
      case Panic(p) => Excused(c, p)
      case Ok(s) => CoreOk(c, s, s.q.now) && Meant(c, s.w, s.h) && s.q.now == |inputs|
    decreases |inputs|
  {
    hide CoreOk, Cycle, Initial, RingPos, Meant;
    if inputs == [] {
      InitialOk(c);
    } else {
      var before := inputs[..|inputs| - 1];
      RunOk(c, before);
      if Run(c, before).Ok? {
        CycleOk(c, Run(c, before).value, inputs[|inputs| - 1]);
      }
    }
  }

  /** What stops a run early is excused. */
  lemma StopIsExcused(c: Config, inputs: seq<Inputs>)
    requires c.Valid() && Run(c, inputs).Panic?
    ensures Excused(c, Run(c, inputs).panic)
  {
    hide CoreOk, Run, Meant, Excused;
    RunOk(c, inputs);
  }

  /** `s` is the state after some run. */
  ghost predicate Reachable(c: Config, s: State) {
    c.Valid() && exists inputs: seq<Inputs> :: Run(c, inputs) == Ok(s)
  }

  lemma ReachableOk(c: Config, s: State)
    requires Reachable(c, s)
    ensures CoreOk(c, s, s.q.now) && Sized(s)
  {
    var inputs :| Run(c, inputs) == Ok(s);
    hide CoreOk, Run, RingPos;
    RunOk(c, inputs);
    CoreSized(c, s, s.q.now);
  }

  lemma ReachableMeant(c: Config, s: State)
    requires Reachable(c, s)
    ensures Sized(s) && Meant(c, s.w, s.h)
  {
    var inputs :| Run(c, inputs) == Ok(s);
    hide CoreOk, Run, RingPos, Meant;
    RunOk(c, inputs);
  }

  /** Extending a run only extends the histories: what has retired stays retired. */
  lemma RunExtends(c: Config, inputs: seq<Inputs>, more: Inputs)
    requires c.Valid() && Run(c, inputs + [more]).Ok?
    ensures Run(c, inputs).Ok? && Longer(Run(c, inputs).value.h, Run(c, inputs + [more]).value.h)
  {
    var all := inputs + [more];
    assert all[..|all| - 1] == inputs;
    hide Cycle, RingPos, CoreOk, Meant;
    RunOk(c, inputs);
    CycleOk(c, Run(c, inputs).value, more);
  }

  // ---------------------------------------------------------------- sequential refinement

  /** PCs of the first `n` instructions of the sequential machine. */
  ghost function SeqTrace(c: Config, n: nat): seq<nat> {
    seq(n, k requires 0 <= k < n => SeqRun(c, k).pc)
  }

  /**
   * Precise registers and memory are always those of the sequential machine after as many
   * instructions as have been dispatched on the right path; fetch or recovery resumes where the
   * sequential machine is; and what has retired is a prefix of what it executes, NOPs apart.
   */
  lemma SequentialRefinement(c: Config, s: State)
    requires Reachable(c, s)
    ensures var m := SeqRun(c, |s.h.path|);
      && s.f.arch == m.vals && s.h.path == SeqTrace(c, |s.h.path|)
      && (if s.f.specMode then s.f.recoverPC else NextPC(s.f)) == m.pc
      && (!s.f.specMode ==> Shown(s.f) == m.vals)
      && Pcs(s.h.retired) <= Effective(c, SeqTrace(c, |s.h.path|))
  {
    OnlyRightPathCommits(c, s);
    FrontIsPrecise(c, s);
    hide Reachable, RightPath, Ring, SeqRun, Effective, NextPC, Shown;
  }

  lemma FrontIsPrecise(c: Config, s: State)
    requires Reachable(c, s)
    ensures var m := SeqRun(c, |s.h.path|);
      && s.f.arch == m.vals && s.h.path == SeqTrace(c, |s.h.path|)
      && (if s.f.specMode then s.f.recoverPC else NextPC(s.f)) == m.pc
      && (!s.f.specMode ==> Shown(s.f) == m.vals)
  {
    hide Reachable, RingPos, SeqRun, FetchOk, Effective;
    ReachableOk(c, s);
    FrontOf(c, s);
    hide CoreOk;
    assert s.h.path == SeqTrace(c, |s.h.path|);
    if !s.f.specMode {
      assert Shown(s.f) == s.f.arch;
    }
  }

  lemma FrontOf(c: Config, s: State)
    requires CoreOk(c, s, s.q.now)
    ensures FrontOk(c, s.f, s.h)
  {
    hide FrontOk;
  }

  /** One instruction at a time from a plain instruction memory, as the functional simulators run. */
  ghost function PlainRun(c: Config, n: nat): Machine {
    if n == 0 then Machine(c.entry, c.init) else
    var m := PlainRun(c, n - 1);
    var eff := c.exec(c.text(m.pc), m.pc, m.vals);
    Machine(eff.next, m.vals + eff.writes)
  }

  /** As long as a program stays in its text segment the two sequential machines agree. */
  lemma {:induction false} InTextAgrees(c: Config, n: nat)
    requires forall k :: 0 <= k < n ==> c.InText(PlainRun(c, k).pc)
    ensures SeqRun(c, n) == PlainRun(c, n)
  {
    if n == 0 {
    } else {
      InTextAgrees(c, n - 1);
      assert c.InText(PlainRun(c, n - 1).pc);
    }
  }

  // ---------------------------------------------------------------- only the right path commits

  /**
   * Every instruction dispatched on the right path has retired or is in the RUU, in program order,
   * and nothing else has retired.
   */
  lemma OnlyRightPathCommits(c: Config, s: State)
    requires Reachable(c, s)
    ensures Ring(s.w) && s.h.dispatched == s.h.retired + RightPath(s.w.st, s.w.nr, s.w.rh, s.w.rn)
    ensures Pcs(s.h.dispatched) == Effective(c, s.h.path)
  {
    ReachableOk(c, s);
    SplitCore(c, s, s.q.now);
    FrontParts(c, s.f, s.h);
    hide CoreOk, RestOk, LinksOk, FrontOk, OrderedRuu, OrderedLsq, Paired, RightPath, RingPos;
  }

  /**
   * spec_mode is on exactly while a mispredicted branch is unresolved, there is never more than one
   * such branch, and the wrong path is exactly what is younger than it.
   */
  lemma SpeculationIsExact(c: Config, s: State, t: int)
    requires Reachable(c, s)
    ensures Ring(s.w) && (s.f.specMode <==> exists b :: Pending(s.w, b))
    ensures forall b, b' :: Pending(s.w, b) && Pending(s.w, b') ==> b == b'
    ensures Live(s.w, t) ==> (s.w.st[t].spec <==> exists b :: Pending(s.w, b) && s.w.st[b].seqno < s.w.st[t].seqno)
  {
    ReachableOk(c, s);
    SpecOf(c, s);
    OnePending(c, s);
    hide CoreOk, RingPos;
    if exists b :: Pending(s.w, b) {
      var b :| Pending(s.w, b);
      hide Pending;
    }
  }

  lemma OnePending(c: Config, s: State)
    requires CoreOk(c, s, s.q.now)
    ensures Ring(s.w) && forall b, b' :: Pending(s.w, b) && Pending(s.w, b') ==> b == b'
  {
    VectorsOf(c, s);
    hide CoreOk, VectorsOk, RingPos;
  }

  lemma SpecOf(c: Config, s: State)
    requires CoreOk(c, s, s.q.now)
    ensures Ring(s.w) && SpecOk(s.w, s.f.specMode) && OperandsOk(s.w, 0, 2) && Paired(s.w)
    ensures LifeOk(s.w, s.q, []) && LinksOk(c, s.w, s.q)
  {
    hide Ordered, SpecOk, OperandsOk, VectorsOk, Paired, HistoryOk, LifeOk, ProgressOk, LoadsOk, LinksOk, FrontOk,
         RingPos;
  }

  // ---------------------------------------------------------------- operations and instructions

  /**
   * Every operation in the window is the instruction the program has at its PC: it has the registers
   * and flags of that instruction, and the next PC and address of executing it.
   */
  lemma OperationsAreInstructions(c: Config, s: State, t: int)
    requires Reachable(c, s) && Sized(s) && Live(s.w, t)
    ensures Described(c, s.w.st[t]) && exists vals :: Executed(c, s.w.st[t], vals)
  {
    hide Reachable, Described, Executed, IsNth, RingPos;
    ReachableMeant(c, s);
  }

  /**
   * ... and an operation of the right path is one of exactly one instruction of the sequential
   * machine, executed on the values that machine has there; so its next PC and address are right,
   * and mis-speculation starts at it exactly if its prediction was wrong and decode could not help.
   */
  lemma RightPathIsExecuted(c: Config, s: State, t: int)
    requires Reachable(c, s) && Sized(s) && Live(s.w, t) && !s.w.st[t].spec
    ensures exists k :: IsNth(c, s.h, s.w.st[t], k)
    ensures forall j, k :: IsNth(c, s.h, s.w.st[t], j) && IsNth(c, s.h, s.w.st[t], k) ==> j == k
  {
    hide Reachable, Described, Executed, Origins, SeqRun, RingPos;
    ReachableMeant(c, s);
  }

  /** A trap is alone in the window when it is dispatched: nothing in the window is ever older than it. */
  lemma TrapsAreAlone(c: Config, s: State, t: int, u: int)
    requires Reachable(c, s) && Sized(s) && LiveR(s.w, t) && OpOf(c, s.w.st[t]).trap && Live(s.w, u)
    ensures !s.w.st[t].spec && s.w.st[t].seqno <= s.w.st[u].seqno
  {
    hide Reachable, Described, Executed, IsNth, RingPos;
    ReachableMeant(c, s);
    assert TrapsFirst(c, s.w);
  }

  // ---------------------------------------------------------------- dependences

  lemma WaitingIsForUndone(w: Window, t: int, j: int)
    requires Ring(w) && OperandsOk(w, 0, 2) && Live(w, t) && 0 <= j < 3 && !w.st[t].ready[j]
    ensures w.st[t].inames[j] != NA
    ensures exists p, i :: Youngest(w, w.st[t].inames[j], w.st[t].seqno, p, i) && !w.st[p].completed
  {
    hide RingPos;
    assert HasSource(w, t, j);
    var p, i :| Youngest(w, w.st[t].inames[j], w.st[t].seqno, p, i);
    assert Waits(w, t, j, p, i);
    assert ChainOk(w, 0, 2, p, i);
    assert CntOp(w.st[p].odeps[i], t, w.st[t].tag, j) == 1;
    hide Youngest, OperandsOk;
  }

  // The registers of operations as the program names them.

  /** The register operand `j` of the operation in `t` reads, by its instruction. */
  function Source(c: Config, w: Window, t: int, j: int): Reg
    requires Ring(w) && Live(w, t) && 0 <= j < 3
  {
    Sources(OpOf(c, w.st[t]), w.st[t].kind)[j]
  }

  /** The instruction of `p` writes register `n` with its output `i`. */
  predicate Makes(c: Config, w: Window, p: int, i: int, n: Reg)
    requires Ring(w)
  {
    Live(w, p) && 0 <= i < 2 && Results(OpOf(c, w.st[p]), w.st[p].kind)[i] == n
  }

  /** ... and no younger instruction in the window that is older than `before` does. */
  ghost predicate LatestMaker(c: Config, w: Window, n: Reg, before: int, p: int, i: int)
    requires Ring(w)
  {
    && Makes(c, w, p, i, n) && w.st[p].seqno < before
    && forall p', i' :: Makes(c, w, p', i', n) && w.st[p'].seqno < before ==> Rank(w, p', i') <= Rank(w, p, i)
  }

  lemma MakersAreWriters(c: Config, w: Window, h: History, n: Reg, before: int, p: int, i: int)
    requires Ring(w) && Meant(c, w, h)
    ensures LatestMaker(c, w, n, before, p, i) <==> Youngest(w, n, before, p, i)
  {
    forall p', i' ensures Makes(c, w, p', i', n) <==> Writes(w, p', i', n) {
    }
    hide Meant, Makes, Writes, RingPos;
  }

  /**
   * Exact wakeup: an operand is ready exactly when the instruction reads no register there or the
   * latest older instruction in the window that writes the register has completed.
   */
  lemma WakeupIsExact(c: Config, s: State, t: int, j: int)
    requires Reachable(c, s) && Sized(s) && Live(s.w, t) && 0 <= j < 3
    ensures s.w.st[t].ready[j] <==>
      || Source(c, s.w, t, j) == NA
      || forall p, i :: LatestMaker(c, s.w, Source(c, s.w, t, j), s.w.st[t].seqno, p, i) ==> s.w.st[p].completed
  {
    hide Reachable, CoreOk, RingPos, Meant, LatestMaker, Youngest, Source;
    ReachableOk(c, s);
    ReachableMeant(c, s);
    SourceIs(c, s.w, s.h, t, j);
    NamesWakeExactly(c, s, t, j);
    forall p, i ensures LatestMaker(c, s.w, Source(c, s.w, t, j), s.w.st[t].seqno, p, i) <==>
      Youngest(s.w, s.w.st[t].inames[j], s.w.st[t].seqno, p, i)
    {
      MakersAreWriters(c, s.w, s.h, Source(c, s.w, t, j), s.w.st[t].seqno, p, i);
    }
  }

  lemma SourceIs(c: Config, w: Window, h: History, t: int, j: int)
    requires Ring(w) && Meant(c, w, h) && Live(w, t) && 0 <= j < 3
    ensures Source(c, w, t, j) == w.st[t].inames[j]
  {
    hide RingPos, Executed, IsNth;
  }

  lemma NamesWakeExactly(c: Config, s: State, t: int, j: int)
    requires Reachable(c, s) && Sized(s) && Live(s.w, t) && 0 <= j < 3
    ensures s.w.st[t].ready[j] <==>
      || s.w.st[t].inames[j] == NA
      || forall p, i :: Youngest(s.w, s.w.st[t].inames[j], s.w.st[t].seqno, p, i) ==> s.w.st[p].completed
  {
    ReachableOk(c, s);
    SpecOf(c, s);
    hide CoreOk, RingPos, SpecOk, Paired, LifeOk, LinksOk, ChainOk;
    if s.w.st[t].ready[j] {
      assert Delivered(s.w, 0, 2, t, j);
    } else {
      WaitingIsForUndone(s.w, t, j);
      hide Youngest, OperandsOk;
    }
  }

  /**
   * The output chains hold the waiting operands and nothing else: only an operation in the window
   * that has not completed has links on a chain, and chain `i` of `p` has exactly one valid link to
   * operand `j` of `t` if that operand waits for it, and none otherwise.
   */
  lemma ChainsAreExact(c: Config, s: State, p: nat, i: nat, t: nat, j: nat)
    requires Reachable(c, s) && Sized(s) && p < |s.w.st| && i < 2 && t < |s.w.st| && j < 3
    ensures s.w.st[p].odeps[i] != [] ==> Live(s.w, p) && !s.w.st[p].completed && s.w.st[p].onames[i] != NA
    ensures CntOp(s.w.st[p].odeps[i], t, s.w.st[t].tag, j) ==
      if Live(s.w, t) && !s.w.st[t].ready[j] && Youngest(s.w, s.w.st[t].inames[j], s.w.st[t].seqno, p, i) then 1 else 0
  {
    hide CoreOk, Reachable, RingPos, SpecOk, Paired, LifeOk, LinksOk, Youngest, OperandsOk;
    ReachableOk(c, s);
    SpecOf(c, s);
    ChainAt(s.w, p, i);
  }

  lemma ChainAt(w: Window, p: nat, i: nat)
    requires Ring(w) && OperandsOk(w, 0, 2) && p < |w.st| && i < 2
    ensures ChainOk(w, 0, 2, p, i)
  {
    hide ChainOk, RingPos;
  }

  /**
   * The create vector, through both copy-on-write shadows, names an output exactly when it is the
   * youngest creation of the register in the window and its operation has not completed.
   */
  lemma CreateVectorIsExact(c: Config, s: State, n: Reg, p: nat, i: nat)
    requires Reachable(c, s) && Sized(s) && n != NA
    ensures CreateVector(s.v, n) == Creator(p, i) <==> Youngest(s.w, n, s.w.lastSeq + 1, p, i) && !s.w.st[p].completed
  {
    hide Reachable, CoreOk, RingPos, CreateVector, Youngest, VectorsOk, SpecOk, Numbered;
    ReachableOk(c, s);
    VectorsOf(c, s);
    OooLink.CreateVectorExact(s.w, s.v, s.f.specMode, n, p, i);
  }

  lemma VectorsOf(c: Config, s: State)
    requires CoreOk(c, s, s.q.now)
    ensures Ring(s.w) && Numbered(s.w) && SpecOk(s.w, s.f.specMode) && VectorsOk(s.w, s.v, 0, 2)
  {
    hide OrderedRuu, OrderedLsq, Numbered, KindsOk, SpecOk, OperandsOk, VectorsOk, Paired, HistoryOk, LifeOk,
         ProgressOk, LoadsOk, LinksOk, FrontOk, RingPos;
  }

  // ---------------------------------------------------------------- life cycle, pairing, links

  /**
   * A live operation is waiting, queued, executing or completed: queued iff it has a node on the
   * ready queue that is still valid, executing iff it has such an event, and never two of either.
   */
  lemma LifeCycle(c: Config, s: State, t: int)
    requires Reachable(c, s) && Sized(s) && Live(s.w, t)
    ensures var rs := s.w.st[t];
      && Cnt(s.q.readyq, t, rs.tag) == (if rs.queued then 1 else 0)
      && Cnt(s.q.events, t, rs.tag) == (if rs.issued && !rs.completed then 1 else 0)
      && (rs.queued ==> OpsReady(rs) && !rs.issued) && (rs.completed ==> rs.issued) && (rs.issued ==> OpsReady(rs))
  {
    ReachableOk(c, s);
    SpecOf(c, s);
    hide CoreOk, RingPos, SpecOk, Paired, OperandsOk, LinksOk;
    assert SlotOk(s.w, s.q, [], t);
  }

  /** A slot outside the window has no valid node, event or dependent anywhere. */
  lemma SquashedIsForgotten(c: Config, s: State, t: int, p: int, i: int, j: int)
    requires Reachable(c, s) && Sized(s) && 0 <= t < |s.w.st| && !Live(s.w, t)
    requires 0 <= p < |s.w.st| && 0 <= i < 2 && 0 <= j < 3
    ensures Cnt(s.q.readyq, t, s.w.st[t].tag) == 0 && Cnt(s.q.events, t, s.w.st[t].tag) == 0
    ensures CntOp(s.w.st[p].odeps[i], t, s.w.st[t].tag, j) == 0
  {
    ReachableOk(c, s);
    SpecOf(c, s);
    hide CoreOk, RingPos, SpecOk, Paired, LinksOk;
    assert SlotOk(s.w, s.q, [], t);
    assert ChainOk(s.w, 0, 2, p, i);
    hide OperandsOk, LifeOk;
  }

  /** The k-th LSQ entry and the k-th address computation in the RUU are halves of one instruction. */
  lemma HalvesArePaired(c: Config, s: State, k: nat)
    requires Reachable(c, s)
    ensures Sized(s)
    ensures var ea := EaSlots(s.w.st, s.w.nr, s.w.rh, s.w.rn);
      |ea| == s.w.ln && (k < s.w.ln ==> s.w.st[LsqSlot(s.w, k)].seqno == s.w.st[ea[k]].seqno + 1)
  {
    ReachableOk(c, s);
    SpecOf(c, s);
    hide CoreOk, RingPos, SpecOk, LifeOk, OperandsOk, LinksOk, EaSlots;
  }

  /** Link records are conserved: each of the pool's is in exactly one place, free or in use. */
  lemma LinksAreConserved(c: Config, s: State, id: nat)
    requires Reachable(c, s)
    ensures LinkCnt(s.w, s.q, id) == if id < c.links then 1 else 0
  {
    ReachableOk(c, s);
    SpecOf(c, s);
    hide CoreOk, RingPos, SpecOk, LifeOk, OperandsOk, Paired, LinkCnt;
  }

  // ---------------------------------------------------------------- no dependence deadlock

  /** `x` is the oldest operation in the window that has not completed. */
  ghost predicate OldestUndone(w: Window, x: int)
    requires Ring(w)
  {
    Live(w, x) && !w.st[x].completed && forall t :: Live(w, t) && w.st[t].seqno < w.st[x].seqno ==> w.st[t].completed
  }

  lemma OldestHasOperands(w: Window, x: int)
    requires Ring(w) && OperandsOk(w, 0, 2) && OldestUndone(w, x)
    ensures OpsReady(w.st[x])
  {
    hide RingPos;
    forall j | 0 <= j < 3 ensures w.st[x].ready[j] {
      if !w.st[x].ready[j] {
        WaitingIsForUndone(w, x, j);
      }
    }
  }

  lemma {:induction false} NothingRecorded(w: Window, k: nat)
    requires Ring(w) && k <= w.ln
    requires forall i :: 0 <= i < k && LsqStation(w, i).kind.Store? ==> OpsReady(LsqStation(w, i))
    ensures AddressesKnown(w, k) && !ZeroRecorded(w, k) && forall a: nat :: !DataUnknown(w, a, k)
  {
    if k == 0 {
    } else {
      NothingRecorded(w, k - 1);
    }
    forall a: nat ensures !DataUnknown(w, a, k) {
      LastStoreIsLast(w, a, k);
    }
    hide RingPos;
  }

  /** The scan releases a load whose older stores all have their operands. */
  lemma LoadIsReleased(w: Window, w': Window, x: int)
    requires Ring(w) && SameRings(w, w') && Scanned(w, 0, w') && OrderedLsq(w) && LiveL(w, x)
    requires w.st[x].kind.Load? && OpsReady(w.st[x]) && !w'.st[x].completed && !w'.st[x].issued
    requires forall t :: LiveL(w, t) && w.st[t].kind.Store? && w.st[t].seqno < w.st[x].seqno ==> OpsReady(w.st[t])
    ensures w'.st[x].queued
  {
    LsqPosition(w, x);
    var k := RingPos(w.lh, w.nl, x - w.nr);
    hide RingPos, Released;
    forall i | 0 <= i < k && LsqStation(w, i).kind.Store? ensures OpsReady(LsqStation(w, i)) {
      LsqAt(w, i);
      LsqOrder(w, LsqSlot(w, i), x);
    }
    ReleasedWhenReady(w, k);
    assert LsqStation(w', k) == Rescanned(w, k);
    assert LsqSlot(w', k) == x;
  }

  lemma ReleasedWhenReady(w: Window, k: nat)
    requires Ring(w) && k < w.ln
    requires forall i :: 0 <= i < k && LsqStation(w, i).kind.Store? ==> OpsReady(LsqStation(w, i))
    ensures Released(w, k)
  {
    NothingRecorded(w, k);
  }

  /** The operation in `x` waits for nothing in the window: it has a ready node or an event. */
  ghost predicate Underway(s: State, x: int) {
    && 0 <= x < |s.w.st|
    && var rs := s.w.st[x];
    && OpsReady(rs)
    && if rs.issued then Cnt(s.q.events, x, rs.tag) == 1 else rs.queued && Cnt(s.q.readyq, x, rs.tag) == 1
  }

  lemma OlderStoresReady(w: Window, q: Queues, x: int, t: int)
    requires Ring(w) && LifeOk(w, q, []) && OldestUndone(w, x) && LiveL(w, t) && w.st[t].seqno < w.st[x].seqno
    ensures OpsReady(w.st[t])
  {
    assert SlotOk(w, q, [], t);
    hide RingPos;
  }

  lemma UnderwayOf(s: State, x: int)
    requires Ring(s.w) && LifeOk(s.w, s.q, []) && OldestUndone(s.w, x) && OpsReady(s.w.st[x]) &&
      (s.w.st[x].queued || s.w.st[x].issued)
    ensures Underway(s, x)
  {
    assert SlotOk(s.w, s.q, [], x);
    hide RingPos;
  }

  /** lsq_refresh releases a load that is the oldest operation not completed. */
  lemma OldestLoadIsReleased(s: State, r: State, x: int)
    requires Ring(s.w) && OooIssue.OnlyPhases(s, r) && Scanned(s.w, 0, r.w) && OrderedLsq(s.w) && LifeOk(r.w, r.q, [])
    requires OldestUndone(r.w, x) && LiveL(r.w, x) && r.w.st[x].kind.Load? && OpsReady(r.w.st[x])
    requires !r.w.st[x].issued && !r.w.st[x].completed
    ensures r.w.st[x].queued
  {
    hide LifeOk, OldestUndone, OrderedLsq, Scanned, RingPos;
    forall t | LiveL(s.w, t) && s.w.st[t].kind.Store? && s.w.st[t].seqno < s.w.st[x].seqno ensures OpsReady(s.w.st[t]) {
      OlderStoresReady(r.w, r.q, x, t);
    }
    LoadIsReleased(s.w, r.w, x);
  }

  /** Once lsq_refresh has run, the oldest operation that has not completed is on its way. */
  lemma RefreshProgress(c: Config, s: State, x: int)
    requires CoreOk(c, s, s.q.now + 1) && Sized(s) && Refresh(s).Ok? && OldestUndone(Refresh(s).value.w, x)
    ensures Underway(Refresh(s).value, x)
  {
    hide CoreOk, Refresh, OperandsOk, LifeOk, OldestUndone, OrderedLsq, Scanned, RingPos, ProgressOk,
         OooIssue.OnlyPhases, Underway;
    var r := Refresh(s).value;
    RefreshOk(c, s, s.q.now + 1);
    WindowOf(c, s, s.q.now + 1);
    WindowOf(c, r, s.q.now + 1);
    OldestHasOperands(r.w, x);
    OldestIsLive(r.w, x);
    OnTheWay(r.w, x);
    if r.w.st[x].kind.Load? && !r.w.st[x].issued {
      LoadsInLsq(r.w, x);
      OldestLoadIsReleased(s, r, x);
    }
    UnderwayOf(r, x);
  }

  lemma LoadsInLsq(w: Window, x: int)
    requires Ring(w) && KindsOk(w) && Live(w, x) && w.st[x].kind.Load?
    ensures LiveL(w, x)
  {
    hide RingPos;
  }

  lemma OnTheWay(w: Window, x: int)
    requires Ring(w) && ProgressOk(w) && Live(w, x) && OpsReady(w.st[x])
    ensures w.st[x].queued || w.st[x].issued || w.st[x].kind.Load?
  {
    hide RingPos;
  }

  lemma WindowOf(c: Config, s: State, from: nat)
    requires CoreOk(c, s, from)
    ensures Ring(s.w) && OperandsOk(s.w, 0, 2) && LifeOk(s.w, s.q, []) && ProgressOk(s.w) && KindsOk(s.w) &&
      OrderedLsq(s.w)
  {
    hide OrderedRuu, OrderedLsq, Numbered, SpecOk, OperandsOk, VectorsOk, Paired, HistoryOk, LifeOk, ProgressOk,
         LoadsOk, LinksOk, FrontOk, RingPos;
  }

  lemma OldestIsLive(w: Window, x: int)
    requires Ring(w) && OldestUndone(w, x)
    ensures Live(w, x) && !w.st[x].completed
  {
  }

  lemma {:induction false} FindOldest(w: Window, t: int) returns (x: int)
    requires Ring(w) && Live(w, t) && !w.st[t].completed
    ensures OldestUndone(w, x)
    decreases w.st[t].seqno
  {
    hide RingPos;
    if u :| Live(w, u) && !w.st[u].completed && w.st[u].seqno < w.st[t].seqno {
      x := FindOldest(w, u);
    } else {
      x := t;
    }
  }

  /** When everything in the window has completed, the head commits as soon as it gets a store port. */
  lemma CompletedCommits(c: Config, s: State)
    requires CoreOk(c, s, s.q.now + 1) && Sized(s) && s.w.rn > 0 && forall t :: Live(s.w, t) ==> s.w.st[t].completed
    ensures CommitOne(s, true).Next?
  {
    hide CoreOk;
    CommitOneOk(c, s, true, s.q.now + 1);
    assert Live(s.w, s.w.rh);
    assert s.w.ln > 0 ==> Live(s.w, s.w.nr + s.w.lh);
    hide RetireRuu, RetireLsq, RingPos;
  }

  /** The state once commit, writeback and lsq_refresh of a cycle have run. */
  function Settle(c: Config, s: State, i: Inputs): (r: Outcome<State>)
    requires Sized(s)
    ensures r.Ok? ==> Sized(r.value)
  {
    var s1 :- Commit(s, c.commitWidth, i.ports);
    var s2 :- Writeback(c, s1);
    Refresh(s2)
  }

  lemma SettleOk(c: Config, s: State, i: Inputs)
    requires CoreOk(c, s, s.q.now) && Sized(s) && Settle(c, s, i).Ok?
    ensures Commit(s, c.commitWidth, i.ports).Ok? && Writeback(c, Commit(s, c.commitWidth, i.ports).value).Ok?
    ensures var s2 := Writeback(c, Commit(s, c.commitWidth, i.ports).value).value;
      && CoreOk(c, s2, s2.q.now + 1) && Sized(s2) && Refresh(s2) == Settle(c, s, i)
      && CoreOk(c, Settle(c, s, i).value, s2.q.now + 1) && Settle(c, s, i).value.q.now == s2.q.now
  {
    hide CoreOk, Commit, Writeback, Refresh, RingPos, Scanned, OooIssue.OnlyPhases;
    DrainOk(c, s, i);
    var s2 := Writeback(c, Commit(s, c.commitWidth, i.ports).value).value;
    RefreshOk(c, s2, s2.q.now + 1);
    PhasesKeep(s2, Refresh(s2).value);
  }

  /**
   * No dependence deadlock: in every cycle of every run, an instruction in the window can commit
   * or the oldest operation that has not completed is ready to issue or executing.
   */
  lemma NoDependenceDeadlock(c: Config, s: State, i: Inputs)
    requires Reachable(c, s) && Sized(s) && Settle(c, s, i).Ok?
    ensures var r := Settle(c, s, i).value;
      && (forall x :: OldestUndone(r.w, x) ==> Underway(r, x))
      && (r.w.rn > 0 ==> CommitOne(r, true).Next? || exists x :: OldestUndone(r.w, x))
  {
    hide CoreOk, Commit, CommitOne, Writeback, Refresh, Settle, Reachable, OldestUndone, Underway, RingPos;
    ReachableOk(c, s);
    SettleOk(c, s, i);
    var s2 := Writeback(c, Commit(s, c.commitWidth, i.ports).value).value;
    var r := Settle(c, s, i).value;
    forall x | OldestUndone(r.w, x) ensures Underway(r, x) {
      RefreshProgress(c, s2, x);
    }
    if r.w.rn > 0 {
      if t :| Live(r.w, t) && !r.w.st[t].completed {
        var x := FindOldest(r.w, t);
      } else {
        CompletedCommits(c, r);
      }
    }
  }

  // ---------------------------------------------------------------- memory order

  /** The load in `load` is queued or has issued. */
  predicate Sent(w: Window, load: int)
    requires Ring(w)
  {
    LiveL(w, load) && w.st[load].kind.Load? && (w.st[load].queued || w.st[load].issued)
  }

  /**
   * The load has all older store addresses known, and the store-forwarding scan names `t` exactly
   * if it is the youngest older store to the load's address, and then it has its data.
   */
  ghost predicate SeesRightStore(w: Window, load: int, t: nat)
    requires Ring(w) && LiveL(w, load)
  {
    var addr, seqno := w.st[load].addr, w.st[load].seqno;
    && (forall u :: OlderStore(w, u, seqno) ==> w.st[u].ready[1])
    && (Forward(w, load - w.nr, addr) == Found(t) <==> YoungestStore(w, t, addr, seqno))
    && (YoungestStore(w, t, addr, seqno) ==> OpsReady(w.st[t]))
  }

  /** In every cycle of every run, loads that have been sent see the right store when ruu_issue begins. */
  lemma LoadsSeeTheRightStore(c: Config, s: State, i: Inputs, load: int, t: nat)
    requires Reachable(c, s) && Sized(s) && Settle(c, s, i).Ok? && Sent(Settle(c, s, i).value.w, load)
    ensures SeesRightStore(Settle(c, s, i).value.w, load, t)
  {
    hide Reachable, Settle, SeesRightStore, CoreOk, OrderedLsq, LoadsOk, RingPos;
    ReachableOk(c, s);
    SettleOk(c, s, i);
    LoadsOf(c, Settle(c, s, i).value, Settle(c, s, i).value.q.now + 1);
    SentSees(Settle(c, s, i).value.w, load, t);
  }

  lemma SentSees(w: Window, load: int, t: nat)
    requires Ring(w) && OrderedLsq(w) && LoadsOk(w) && Sent(w, load)
    ensures SeesRightStore(w, load, t)
  {
    hide Forward, YoungestStore, OrderedLsq, LoadsOk, RingPos;
    ForwardingIsExact(w, load, t);
    ClearOf(w, load);
  }

  lemma ClearOf(w: Window, load: int)
    requires Ring(w) && LoadsOk(w) && LiveL(w, load) && w.st[load].kind.Load? &&
      (w.st[load].queued || w.st[load].issued)
    ensures MemoryClear(w, w.st[load].addr, w.st[load].seqno)
  {
    hide MemoryClear, RingPos;
  }

  /** Some older store to the load's address is in the window. */
  ghost predicate Forwards(w: Window, load: nat)
    requires Ring(w) && load < |w.st|
  {
    exists t :: OlderStore(w, t, w.st[load].seqno) && w.st[t].addr == w.st[load].addr
  }

  /** One cycle if a store forwards its data, else what the cache takes; never less than translation. */
  ghost function LoadTime(w: Window, load: nat, u: Unit): nat
    requires Ring(w) && load < |w.st| && Startable(w.st[load], u)
  {
    if w.st[load].noUnit then 1 else
    var base: nat := if Forwards(w, load) then 1 else u.cache;
    if u.tlb > base then u.tlb else base
  }

  /**
   * A load that ruu_issue starts gets exactly one event, due after one cycle if some older store to
   * its address is in the window, and after the cache's latency if none is; in either case no
   * sooner than its address translation.
   */
  lemma ForwardedLoadsAreFast(c: Config, s: State, i: Inputs, load: nat)
    requires Reachable(c, s) && Sized(s) && Settle(c, s, i).Ok? &&
      Issue(Settle(c, s, i).value, c.issueWidth, i.units).Ok?
    requires var r := Settle(c, s, i).value; LiveL(r.w, load) && r.w.st[load].kind.Load? && !r.w.st[load].issued
    requires Issue(Settle(c, s, i).value, c.issueWidth, i.units).value.w.st[load].issued
    ensures var r := Settle(c, s, i).value; var t := Issue(r, c.issueWidth, i.units).value; var rs := r.w.st[load];
      && Cnt(t.q.events, load, rs.tag) == 1
      && exists k ::
           Startable(rs, i.units(k)) && Due(t.q.events, load, rs.tag, r.q.now + LoadTime(r.w, load, i.units(k)))
  {
    hide Reachable, Settle, CoreOk, Issue, Startable, LoadTime, Due, RingPos, Ring;
    ReachableOk(c, s);
    SettleOk(c, s, i);
    LoadStarts(c, Settle(c, s, i).value, c.issueWidth, i.units, load);
  }

  lemma LoadStarts(c: Config, r: State, width: nat, units: nat -> Unit, load: nat)
    requires CoreOk(c, r, r.q.now + 1) && Sized(r) && Issue(r, width, units).Ok? && LiveL(r.w, load) &&
      r.w.st[load].kind.Load?
    requires !r.w.st[load].issued && Issue(r, width, units).value.w.st[load].issued
    ensures var t := Issue(r, width, units).value; var rs := r.w.st[load];
      && Cnt(t.q.events, load, rs.tag) == 1
      && exists k :: Startable(rs, units(k)) && Due(t.q.events, load, rs.tag, r.q.now + LoadTime(r.w, load, units(k)))
  {
    hide CoreOk, Issue, OrderedLsq, LoadsOk, RingPos, LoadTime, StartLatency, Due, OooIssue.OnlyPhases;
    var t := Issue(r, width, units).value;
    LoadsOf(c, r, r.q.now + 1);
    OooIssue.IssueOk(c, r, width, units);
    PhasesKeep(r, t);
    IssueTimed(c, r, width, units, load);
    var k :| Startable(r.w.st[load], units(k)) &&
      Due(t.q.events, load, r.w.st[load].tag, t.q.now + StartLatency(r.w, load, units(k)));
    LoadTimeIs(r.w, load, units(k));
    OneEvent(c, r, t, load, t.q.now + StartLatency(r.w, load, units(k)));
  }

  lemma OneEvent(c: Config, r: State, t: State, slot: nat, at: int)
    requires CoreOk(c, t, t.q.now + 1) && OooIssue.OnlyPhases(r, t) && slot < |r.w.st| &&
      Due(t.q.events, slot, r.w.st[slot].tag, at)
    ensures Cnt(t.q.events, slot, r.w.st[slot].tag) == 1
  {
    hide CoreOk, RingPos, OperandsOk, ProgressOk, OrderedLsq, Due;
    WindowOf(c, t, t.q.now + 1);
    assert SlotOk(t.w, t.q, [], slot);
    DueCounted(t.q.events, slot, r.w.st[slot].tag, at);
  }

  lemma LoadTimeIs(w: Window, load: nat, u: Unit)
    requires Ring(w) && OrderedLsq(w) && LoadsOk(w) && LiveL(w, load) && w.st[load].kind.Load? && w.st[load].queued
    requires Startable(w.st[load], u)
    ensures StartLatency(w, load, u) == LoadTime(w, load, u)
  {
    hide OrderedLsq, LoadsOk, Forward, Forwards, RingPos;
    ForwardsIff(w, load);
  }

  /** The forwarding scan succeeds exactly when there is an older store to the address. */
  lemma ForwardsIff(w: Window, load: nat)
    requires Ring(w) && OrderedLsq(w) && LoadsOk(w) && LiveL(w, load) && w.st[load].kind.Load? && w.st[load].queued
    ensures Forward(w, load - w.nr, w.st[load].addr).Found? <==> Forwards(w, load)
  {
    hide RingPos, Forward, OrderedLsq, LoadsOk;
    var addr, seqno := w.st[load].addr, w.st[load].seqno;
    if t :| OlderStore(w, t, seqno) && w.st[t].addr == addr {
      var y := YoungestOf(w, t, addr, seqno);
      ForwardingIsExact(w, load, y);
    } else if Forward(w, load - w.nr, addr).Found? {
      ForwardingIsExact(w, load, Forward(w, load - w.nr, addr).slot);
    }
  }

  lemma {:induction false} YoungestOf(w: Window, t: int, addr: int, before: int) returns (y: int)
    requires Ring(w) && OlderStore(w, t, before) && w.st[t].addr == addr
    ensures YoungestStore(w, y, addr, before)
    decreases before - w.st[t].seqno
  {
    hide RingPos;
    if u :| OlderStore(w, u, before) && w.st[u].addr == addr && w.st[u].seqno > w.st[t].seqno {
      y := YoungestOf(w, u, addr, before);
    } else {
      y := t;
    }
  }

  lemma LoadsOf(c: Config, s: State, from: nat)
    requires CoreOk(c, s, from)
    ensures Ring(s.w) && OrderedLsq(s.w) && LoadsOk(s.w)
  {
    hide OrderedRuu, OrderedLsq, Numbered, KindsOk, SpecOk, OperandsOk, VectorsOk, Paired, HistoryOk, LifeOk,
         ProgressOk, LoadsOk, LinksOk, FrontOk, RingPos;
  }
}
