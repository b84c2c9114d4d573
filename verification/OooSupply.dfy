/**
 * What dispatch takes from the fetch queue in a cycle and what fetch puts into it, and why the next
 * instruction is not taken or not fetched.
 */
module OooSupply {
  import opened OooTypes
  import opened OooStages

  // ---------------------------------------------------------------- dispatch

  /** RUU entries that the first `k` instructions of the queue need. */
  function RuuNeeds(c: Config, fq: seq<Fetched>, k: nat): nat
    requires k <= |fq|
  {
    if k == 0 then 0 else RuuNeeds(c, fq, k - 1) + (if c.decode(fq[k - 1].ir).nop then 0 else 1)
  }

  /** LSQ entries that they need. */
  function LsqNeeds(c: Config, fq: seq<Fetched>, k: nat): nat
    requires k <= |fq|
  {
    if k == 0 then 0 else
    var op := c.decode(fq[k - 1].ir);
    LsqNeeds(c, fq, k - 1) + (if op.nop || op.mem.NoMem? then 0 else 1)
  }

  /** There is room for the `k`-th instruction of the queue, and for a trap the window has drained. */
  predicate Fits(c: Config, s: State, k: nat)
    requires k < |s.f.fq|
  {
    && s.w.rn + RuuNeeds(c, s.f.fq, k) < s.w.nr
    && s.w.ln + LsqNeeds(c, s.f.fq, k) < s.w.nl
    && (c.decode(s.f.fq[k].ir).trap ==> s.w.rn + RuuNeeds(c, s.f.fq, k) == 0)
  }

  function Pcs(fq: seq<Fetched>): seq<nat> {
    seq(|fq|, k requires 0 <= k < |fq| => fq[k].pc)
  }

  /** The entries `s'` has gained over `s`. */
  predicate Grown(s: State, s': State, ruu: nat, lsq: nat) {
    && s'.w.nr == s.w.nr && s'.w.nl == s.w.nl
    && s'.w.rn == s.w.rn + ruu && s'.w.ln == s.w.ln + lsq && s'.w.lastSeq == s.w.lastSeq + ruu + lsq
  }

  /**
   * `n` instructions have been dispatched, the first `m` of them on the right path.  They were as many
   * as the width allows, unless the queue is empty, the next one does not fit, or the path is wrong and
   * wrong-path instructions are not to be dispatched.
   */
  ghost predicate Dispatches(c: Config, s: State, r: State, width: nat, n: nat, m: nat) {
    && m <= n <= width && n <= |s.f.fq|
    && Grown(s, r, RuuNeeds(c, s.f.fq, n), LsqNeeds(c, s.f.fq, n))
    && (forall k :: 0 <= k < n ==> Fits(c, s, k))
    && r.h.path == s.h.path + Pcs(s.f.fq[..m])
    && (s.f.specMode ==> r.f.specMode && m == 0) && (!r.f.specMode ==> m == n) && (m < n ==> c.includeSpec)
    && (n == 0 ==> r == s) && (r.f.fq == s.f.fq[n..] || (n > 0 && r.f.fq == []))
    && (n < width ==> r.f.fq == [] || !Fits(c, s, n) || (r.f.specMode && !c.includeSpec))
  }

  /**
   * What dispatching the instruction at the head of the queue does to the front end.  A prediction is
   * wrong if it is not where execution goes.  Fetch is redirected at once if the predictor is perfect,
   * or if a direct jump has left the fall-through path for anything but its target.
   */
  ghost predicate Sent(c: Config, f: Front, f': Front)
    requires f.fq != []
  {
    var fe := f.fq[0];
    var op := c.decode(fe.ir);
    var eff := c.exec(fe.ir, fe.pc, Shown(f));
    var wrong := fe.pred != eff.next;
    var misfetch := op.ctrl && op.dirJump && fe.pred != eff.target && fe.pred != Config.Fall(fe.pc);
    var redirected := misfetch || (c.perfect && wrong);
    && f'.fq == (if redirected then [] else f.fq[1..])
    && f'.fetchPC == (if redirected then eff.next else f.fetchPC)
    && f'.delay == (if redirected && !c.perfect then c.branchPenalty else f.delay)
    && f'.specMode == (f.specMode || (wrong && !redirected))
    && f'.recoverPC == (if f'.specMode && !f.specMode then eff.next else f.recoverPC)
    && f'.arch == (if f.specMode then f.arch else f.arch + eff.writes)
    && f'.overlay == (if f.specMode then f.overlay + eff.writes else f.overlay)
  }

  lemma AluGrows(s: State, op: Op, pc: nat, eff: Effect, pred: nat)
    requires Sized(s) && s.w.rn < s.w.nr && AllocateAlu(s, op, pc, eff, pred).Ok?
    ensures Grown(s, AllocateAlu(s, op, pc, eff, pred).value, 1, 0)
  {
    hide Connect, EnqueueIfReady, Fresh;
  }

  lemma AddrGrows(s: State, op: Op, pc: nat, eff: Effect, pred: nat)
    requires Sized(s) && s.w.rn < s.w.nr && AllocateAddr(s, op, pc, eff, pred).Ok?
    ensures Grown(s, AllocateAddr(s, op, pc, eff, pred).value, 1, 0)
  {
    hide Connect, Fresh;
  }

  lemma AccessGrows(s: State, op: Op, pc: nat, eff: Effect, pred: nat)
    requires Sized(s) && s.w.ln < s.w.nl && AllocateAccess(s, op, pc, eff, pred).Ok?
    ensures Grown(s, AllocateAccess(s, op, pc, eff, pred).value, 0, 1)
  {
    hide Connect, Fresh;
  }

  lemma MemGrows(s: State, op: Op, pc: nat, eff: Effect, pred: nat)
    requires Sized(s) && s.w.rn < s.w.nr && s.w.ln < s.w.nl && AllocateMem(s, op, pc, eff, pred).Ok?
    ensures Grown(s, AllocateMem(s, op, pc, eff, pred).value, 1, 1)
  {
    hide AllocateAddr, AllocateAccess, EnqueueIfReady, EnqueueStore;
    AddrGrows(s, op, pc, eff, pred);
    AccessGrows(AllocateAddr(s, op, pc, eff, pred).value, op, pc, eff, pred);
  }

  lemma AllocateGrows(s: State, op: Op, pc: nat, eff: Effect, pred: nat)
    requires Sized(s) && s.w.rn < s.w.nr && s.w.ln < s.w.nl && Allocate(s, op, pc, eff, pred).Ok?
    ensures Grown(s, Allocate(s, op, pc, eff, pred).value, 1, if op.mem.NoMem? then 0 else 1)
  {
    hide AllocateAlu, AllocateMem, Grown;
    if op.mem.NoMem? {
      AluGrows(s, op, pc, eff, pred);
    } else {
      MemGrows(s, op, pc, eff, pred);
    }
  }

  lemma ConnectHistory(s: State, slot: nat, ins: Ins, outs: Outs)
    requires Sized(s) && slot < |s.w.st| && Connect(s, slot, ins, outs).Ok?
    ensures Connect(s, slot, ins, outs).value.h == s.h
  {
    hide CreateVector, SetCreateVector;
  }

  lemma EnqueueHistory(s: State, slot: nat)
    requires Sized(s) && slot < |s.w.st| && EnqueueIfReady(s, slot).Ok?
    ensures EnqueueIfReady(s, slot).value.h == s.h
  {
    hide InsertSorted;
  }

  lemma AluHistory(s: State, op: Op, pc: nat, eff: Effect, pred: nat)
    requires Sized(s) && s.w.rn < s.w.nr && AllocateAlu(s, op, pc, eff, pred).Ok?
    ensures AllocateAlu(s, op, pc, eff, pred).value.h == s.h
  {
    hide Connect, EnqueueIfReady, Fresh;
    var s0 := AllocRuu(s, Alu, op, pc, eff.next, pred);
    ConnectHistory(s0, s.w.rt, op.ins, op.outs);
    EnqueueHistory(Connect(s0, s.w.rt, op.ins, op.outs).value, s.w.rt);
  }

  lemma MemHistory(s: State, op: Op, pc: nat, eff: Effect, pred: nat)
    requires Sized(s) && s.w.rn < s.w.nr && s.w.ln < s.w.nl && AllocateMem(s, op, pc, eff, pred).Ok?
    ensures AllocateMem(s, op, pc, eff, pred).value.h == s.h
  {
    hide Connect, EnqueueIfReady, Fresh;
    var s1 := AllocateAddr(s, op, pc, eff, pred).value;
    ConnectHistory(AllocRuu(s, Addr, op, pc, eff.next, pred), s.w.rt, [NA, op.ins[1], op.ins[2]], [DTMP, NA]);
    var s2 := AllocateAccess(s1, op, pc, eff, pred).value;
    var s1' := AllocLsq(s1, MemKind(op), op, pc, eff.next, pred, eff.addr);
    ConnectHistory(s1', s1.w.nr + s1.w.lt, [op.ins[0], DTMP, NA], op.outs);
    EnqueueHistory(s2, s.w.rt);
    if op.mem.StoreOp? {
      EnqueueHistory(EnqueueIfReady(s2, s.w.rt).value, s.w.nr + s.w.lt);
    }
  }

  lemma AllocateHistory(s: State, op: Op, pc: nat, eff: Effect, pred: nat)
    requires Sized(s) && s.w.rn < s.w.nr && s.w.ln < s.w.nl && Allocate(s, op, pc, eff, pred).Ok?
    ensures Allocate(s, op, pc, eff, pred).value.h == s.h
  {
    hide AllocateAlu, AllocateMem;
    if op.mem.NoMem? {
      AluHistory(s, op, pc, eff, pred);
    } else {
      MemHistory(s, op, pc, eff, pred);
    }
  }

  lemma HeadFits(c: Config, s: State)
    requires Sized(s) && s.f.fq != []
    ensures DispatchOne(c, s).Next? ==> Fits(c, s, 0) && (s.f.specMode ==> c.includeSpec)
    ensures DispatchOne(c, s).Stop? ==> !Fits(c, s, 0) || (s.f.specMode && !c.includeSpec)
  {
    hide Admit, Shown, Decode, Carried, Redirects, Traced;
  }

  lemma Followed(c: Config, s: State, s1: State, op: Op, eff: Effect)
    requires Sized(s) && Sized(s1) && |s1.w.st| == |s.w.st| && s.f.fq != [] && Follow(c, s, s1, op, eff).Next?
    requires s1.h == s.h && op == c.decode(s.f.fq[0].ir)
    requires eff == c.exec(s.f.fq[0].ir, s.f.fq[0].pc, Shown(s.f))
    ensures var r := Follow(c, s, s1, op, eff).s;
      && Sent(c, s.f, r.f) && SameRings(s1.w, r.w)
      && r.h.path == if s.f.specMode then s.h.path else s.h.path + [s.f.fq[0].pc]
  {
    hide Shown;
  }

  /** One iteration of ruu_dispatch. */
  lemma DispatchOneIsExact(c: Config, s: State)
    requires Sized(s) && DispatchOne(c, s).Next?
    ensures s.f.fq != [] && Fits(c, s, 0) && (s.f.specMode ==> c.includeSpec)
    ensures var r := DispatchOne(c, s).s;
      && Grown(s, r, RuuNeeds(c, s.f.fq, 1), LsqNeeds(c, s.f.fq, 1)) && Sent(c, s.f, r.f)
      && r.h.path == if s.f.specMode then s.h.path else s.h.path + [s.f.fq[0].pc]
  {
    hide Follow, Allocate, Carried, Fits, Sent, Shown, SameRings;
    HeadFits(c, s);
    var fe := s.f.fq[0];
    var op := c.decode(fe.ir);
    var eff := c.exec(fe.ir, fe.pc, Shown(s.f));
    var s1 := Admit(c, s, op, eff).value;
    assert RuuNeeds(c, s.f.fq, 1) == if op.nop then 0 else 1;
    assert LsqNeeds(c, s.f.fq, 1) == if op.nop || op.mem.NoMem? then 0 else 1;
    if !op.nop {
      AllocateGrows(s, op, fe.pc, eff, Carried(c, op, fe, eff));
      AllocateHistory(s, op, fe.pc, eff, Carried(c, op, fe, eff));
    }
    Followed(c, s, s1, op, eff);
    GrownSame(s, s1, Follow(c, s, s1, op, eff).s, RuuNeeds(c, s.f.fq, 1), LsqNeeds(c, s.f.fq, 1));
  }

  lemma GrownSame(s: State, s1: State, s2: State, ruu: nat, lsq: nat)
    requires Grown(s, s1, ruu, lsq) && SameRings(s1.w, s2.w)
    ensures Grown(s, s2, ruu, lsq)
  {
  }

  lemma {:induction false} NeedsTail(c: Config, fq: seq<Fetched>, k: nat)
    requires 0 < k <= |fq|
    ensures RuuNeeds(c, fq, k) == RuuNeeds(c, fq, 1) + RuuNeeds(c, fq[1..], k - 1)
    ensures LsqNeeds(c, fq, k) == LsqNeeds(c, fq, 1) + LsqNeeds(c, fq[1..], k - 1)
  {
    if k == 1 {
    } else {
      NeedsTail(c, fq, k - 1);
      assert fq[1..][k - 2] == fq[k - 1];
    }
  }

  /** Looking one instruction ahead. */
  lemma FitsAhead(c: Config, s: State, s1: State, k: nat)
    requires 0 < k < |s.f.fq| && s1.f.fq == s.f.fq[1..]
    requires Grown(s, s1, RuuNeeds(c, s.f.fq, 1), LsqNeeds(c, s.f.fq, 1))
    ensures Fits(c, s, k) <==> Fits(c, s1, k - 1)
  {
    NeedsTail(c, s.f.fq, k);
  }

  lemma PcsAhead(s: State, s1: State, m: nat)
    requires s.f.fq != [] && s1.f.fq == s.f.fq[1..] && m <= |s1.f.fq| && s1.h.path == s.h.path + [s.f.fq[0].pc]
    ensures s1.h.path + Pcs(s1.f.fq[..m]) == s.h.path + Pcs(s.f.fq[..m + 1])
  {
    assert s.f.fq[..m + 1] == [s.f.fq[0]] + s1.f.fq[..m];
    assert Pcs(s.f.fq[..m + 1]) == [s.f.fq[0].pc] + Pcs(s1.f.fq[..m]);
  }

  /** ruu_dispatch: how many instructions enter the window, and why no more. */
  lemma {:induction false} DispatchIsExact(c: Config, s: State, width: nat) returns (n: nat, m: nat)
    requires Sized(s) && Dispatch(c, s, width).Ok?
    ensures Dispatches(c, s, Dispatch(c, s, width).value, width, n, m)
    decreases width
  {
    hide DispatchOne, Fits, Sent, Shown;
    if width == 0 || DispatchOne(c, s).Stop? {
      n, m := 0, 0;
      assert s.h.path + Pcs(s.f.fq[..0]) == s.h.path;
      if s.f.fq != [] {
        HeadFits(c, s);
      }
    } else {
      DispatchOneIsExact(c, s);
      var s1 := DispatchOne(c, s).s;
      n, m := DispatchIsExact(c, s1, width - 1);
      SentOn(c, s.f, s1.f);
      if s1.f.fq == s.f.fq[1..] {
        DispatchesAhead(c, s, s1, Dispatch(c, s1, width - 1).value, width, n, m);
      } else {
        assert s.h.path + Pcs(s.f.fq[..0]) == s.h.path;
        assert Pcs(s.f.fq[..1]) == [s.f.fq[0].pc];
        assert s1.h.path + Pcs(s1.f.fq[..0]) == s1.h.path;
      }
      n, m := n + 1, if s.f.specMode then 0 else m + 1;
    }
  }

  lemma SentOn(c: Config, f: Front, f': Front)
    requires f.fq != [] && Sent(c, f, f')
    ensures (f'.fq == [] || f'.fq == f.fq[1..]) && (f.specMode ==> f'.specMode)
  {
  }

  lemma DispatchesAhead(c: Config, s: State, s1: State, r: State, width: nat, n: nat, m: nat)
    requires s.f.fq != [] && s1.f.fq == s.f.fq[1..] && width > 0 && Dispatches(c, s1, r, width - 1, n, m)
    requires Fits(c, s, 0) && (s.f.specMode ==> s1.f.specMode && c.includeSpec)
    requires Grown(s, s1, RuuNeeds(c, s.f.fq, 1), LsqNeeds(c, s.f.fq, 1))
    requires s1.h.path == if s.f.specMode then s.h.path else s.h.path + [s.f.fq[0].pc]
    ensures Dispatches(c, s, r, width, n + 1, if s.f.specMode then 0 else m + 1)
  {
    hide Fits;
    NeedsTail(c, s.f.fq, n + 1);
    forall k | 0 <= k < n + 1 ensures Fits(c, s, k) {
      if k > 0 {
        FitsAhead(c, s, s1, k);
      }
    }
    if n + 1 < |s.f.fq| {
      FitsAhead(c, s, s1, n + 1);
    }
    if s.f.specMode {
      assert s.f.fq[..0] == s1.f.fq[..0];
    } else {
      PcsAhead(s, s1, m);
    }
    assert s.f.fq[n + 1..] == s1.f.fq[n..];
  }

  // ---------------------------------------------------------------- fetch

  /** The instruction at `pc` is a transfer of control for which the predictor has a target. */
  predicate Taken(c: Config, pc: nat, input: FetchInput) {
    input.Hit? && c.decode(c.Inst(pc)).ctrl && input.guess != 0
  }

  /** Where fetch goes after the instruction at `pc`. */
  function Successor(c: Config, pc: nat, input: FetchInput): nat {
    if Taken(c, pc, input) then input.guess else Config.Fall(pc)
  }

  /** Where the `k`-th new instruction is fetched: at `pc`, and then at the prediction of the one before. */
  function PcAt(pc: nat, got: seq<Fetched>, k: nat): nat
    requires k <= |got|
  {
    if k == 0 then pc else got[k - 1].pred
  }

  /** How many of the first `k` new instructions are predicted taken. */
  function TakenAmong(c: Config, got: seq<Fetched>, width: nat, inputs: nat -> FetchInput, k: nat): nat
    requires k <= |got| && k <= width
  {
    if k == 0 then 0 else
    TakenAmong(c, got, width, inputs, k - 1) + (if Taken(c, got[k - 1].pc, inputs(width - (k - 1))) then 1 else 0)
  }

  /** Before the `k`-th instruction: width and queue have room, and the branch limit is not reached. */
  predicate Open(c: Config, f: Front, got: seq<Fetched>, width: nat, branches: nat, inputs: nat -> FetchInput, k: nat)
    requires k <= |got|
  {
    && k < width && |f.fq| + k < c.ifq
    && (TakenAmong(c, got, width, inputs, k) == 0 || TakenAmong(c, got, width, inputs, k) < branches)
  }

  /** The instruction at `pc` is in the program text and misses. */
  predicate Missed(c: Config, pc: nat, input: FetchInput) {
    input.Miss? && c.InText(pc)
  }

  /** The `k`-th new entry of the queue. */
  predicate EntryOk(c: Config, pc: nat, got: seq<Fetched>, width: nat, inputs: nat -> FetchInput, k: nat)
    requires k < |got| && k < width
  {
    && got[k].pc == PcAt(pc, got, k) && got[k].ir == c.Inst(got[k].pc)
    && got[k].pred == Successor(c, got[k].pc, inputs(width - k))
    && !Missed(c, got[k].pc, inputs(width - k))
  }

  /**
   * Fetch has appended `got`: each instruction is the one at the prediction of the one before.  It has
   * stopped at the width, a full queue, the branch limit or a miss, and only a miss delays it.
   */
  ghost predicate Fetches(c: Config, f: Front, r: Front, width: nat, branches: nat, inputs: nat -> FetchInput,
                          got: seq<Fetched>)
  {
    && |got| <= width
    && (forall k :: 0 <= k < |got| ==> Open(c, f, got, width, branches, inputs, k))
    && (forall k :: 0 <= k < |got| ==> EntryOk(c, f.fetchPC, got, width, inputs, k))
    && var next := PcAt(f.fetchPC, got, |got|);
    var more := Open(c, f, got, width, branches, inputs, |got|);
    && (more ==> Missed(c, next, inputs(width - |got|)))
    && r == f.(fq := f.fq + got, fetchPC := next,
               delay := f.delay + if more then inputs(width - |got|).lat - 1 else 0)
  }

  lemma {:induction false} TakenTail(c: Config, got: seq<Fetched>, width: nat, inputs: nat -> FetchInput, k: nat)
    requires 0 < k <= |got| && k <= width
    ensures TakenAmong(c, got, width, inputs, k) ==
      (if Taken(c, got[0].pc, inputs(width)) then 1 else 0) + TakenAmong(c, got[1..], width - 1, inputs, k - 1)
  {
    hide Taken;
    if k == 1 {
      assert TakenAmong(c, got, width, inputs, 0) == 0;
    } else {
      TakenTail(c, got, width, inputs, k - 1);
      assert got[1..][k - 2] == got[k - 1];
      assert width - 1 - (k - 2) == width - (k - 1);
    }
  }

  /** Looking one instruction ahead. */
  lemma OpenAhead(c: Config, f: Front, f1: Front, e: Fetched, got: seq<Fetched>, width: nat, branches: nat,
                  inputs: nat -> FetchInput, k: nat)
    requires width > 0 && f1.fq == f.fq + [e] && k <= |got|
    requires !(Taken(c, e.pc, inputs(width)) && branches <= 1)
    ensures var left := if Taken(c, e.pc, inputs(width)) then branches - 1 else branches;
      Open(c, f, [e] + got, width, branches, inputs, k + 1) <==> Open(c, f1, got, width - 1, left, inputs, k)
  {
    hide Taken;
    if k < width {
      TakenTail(c, [e] + got, width, inputs, k + 1);
      assert ([e] + got)[1..] == got;
    }
  }

  lemma EntryAhead(c: Config, pc: nat, e: Fetched, got: seq<Fetched>, width: nat, inputs: nat -> FetchInput, k: nat)
    requires k < |got| && k < width - 1
    ensures EntryOk(c, pc, [e] + got, width, inputs, k + 1) <==> EntryOk(c, e.pred, got, width - 1, inputs, k)
  {
    assert width - 1 - k == width - (k + 1);
    hide Successor, Missed;
  }

  /** The instruction that is fetched first. */
  lemma FirstEntry(c: Config, f: Front, width: nat, inputs: nat -> FetchInput, got: seq<Fetched>)
    requires width > 0 && !Missed(c, f.fetchPC, inputs(width))
    ensures var g := Guess(c, f.fetchPC, inputs(width)); var f1 := FetchInst(c, f, g);
      && f1.fq != [] && f1 == f.(fq := f.fq + [f1.fq[|f1.fq| - 1]], fetchPC := f1.fq[|f1.fq| - 1].pred)
      && EntryOk(c, f.fetchPC, [f1.fq[|f1.fq| - 1]] + got, width, inputs, 0)
      && (g != 0 <==> Taken(c, f.fetchPC, inputs(width))) && f1.fq[|f1.fq| - 1].pc == f.fetchPC
  {
  }

  lemma FetchesOne(c: Config, f: Front, f1: Front, e: Fetched, width: nat, branches: nat, inputs: nat -> FetchInput)
    requires width > 0 && |f.fq| < c.ifq && f1 == f.(fq := f.fq + [e], fetchPC := e.pred)
    requires EntryOk(c, f.fetchPC, [e], width, inputs, 0) && Taken(c, e.pc, inputs(width)) && branches <= 1
    ensures Fetches(c, f, f1, width, branches, inputs, [e])
  {
    assert TakenAmong(c, [e], width, inputs, 0) == 0;
    assert TakenAmong(c, [e], width, inputs, 1) == 1;
    hide EntryOk, Taken;
    assert !Open(c, f, [e], width, branches, inputs, 1);
  }

  lemma FetchesMore(c: Config, f: Front, f1: Front, r: Front, e: Fetched, width: nat, branches: nat,
                    inputs: nat -> FetchInput, got: seq<Fetched>)
    requires width > 0 && |f.fq| < c.ifq && f1 == f.(fq := f.fq + [e], fetchPC := e.pred)
    requires EntryOk(c, f.fetchPC, [e] + got, width, inputs, 0) && !(Taken(c, e.pc, inputs(width)) && branches <= 1)
    requires var left := if Taken(c, e.pc, inputs(width)) then branches - 1 else branches;
      Fetches(c, f1, r, width - 1, left, inputs, got)
    ensures Fetches(c, f, r, width, branches, inputs, [e] + got)
  {
    hide EntryOk, Taken, Missed;
    assert TakenAmong(c, [e] + got, width, inputs, 0) == 0;
    assert Open(c, f, [e] + got, width, branches, inputs, 0);
    hide TakenAmong;
    forall k | 0 <= k < |got| + 1 ensures Open(c, f, [e] + got, width, branches, inputs, k) {
      if k > 0 {
        OpenAhead(c, f, f1, e, got, width, branches, inputs, k - 1);
      }
    }
    forall k | 0 <= k < |got| + 1 ensures EntryOk(c, f.fetchPC, [e] + got, width, inputs, k) {
      if k > 0 {
        EntryAhead(c, f.fetchPC, e, got, width, inputs, k - 1);
      }
    }
    OpenAhead(c, f, f1, e, got, width, branches, inputs, |got|);
    hide Open;
    assert f1.fq + got == f.fq + ([e] + got);
    assert PcAt(f.fetchPC, [e] + got, |got| + 1) == PcAt(e.pred, got, |got|);
    assert width - 1 - |got| == width - |[e] + got|;
  }

  /** ruu_fetch: what is appended to the queue, and where fetch stops. */
  lemma {:induction false} FetchIsExact(c: Config, f: Front, width: nat, branches: nat, inputs: nat -> FetchInput)
      returns (got: seq<Fetched>)
    ensures Fetches(c, f, Fetch(c, f, width, branches, inputs), width, branches, inputs, got)
    decreases width
  {
    hide FetchInst, Guess, EntryOk, Fetches, Taken;
    if width == 0 || |f.fq| >= c.ifq || Missed(c, f.fetchPC, inputs(width)) {
      got := [];
      FetchesNone(c, f, width, branches, inputs);
    } else {
      var guess := Guess(c, f.fetchPC, inputs(width));
      var f1 := FetchInst(c, f, guess);
      FirstEntry(c, f, width, inputs, []);
      var e := f1.fq[|f1.fq| - 1];
      assert [e] + [] == [e];
      if guess != 0 && branches <= 1 {
        FetchesOne(c, f, f1, e, width, branches, inputs);
        got := [e];
      } else {
        var left := if guess == 0 then branches else branches - 1;
        got := FetchIsExact(c, f1, width - 1, left, inputs);
        FirstEntry(c, f, width, inputs, got);
        FetchesMore(c, f, f1, Fetch(c, f1, width - 1, left, inputs), e, width, branches, inputs, got);
        got := [e] + got;
      }
    }
  }

  lemma FetchesNone(c: Config, f: Front, width: nat, branches: nat, inputs: nat -> FetchInput)
    requires width == 0 || |f.fq| >= c.ifq || Missed(c, f.fetchPC, inputs(width))
    ensures Fetches(c, f, Fetch(c, f, width, branches, inputs), width, branches, inputs, [])
  {
    hide FetchInst, Guess;
    assert f.fq + [] == f.fq;
  }
}
