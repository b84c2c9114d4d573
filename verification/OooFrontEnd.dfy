/**
 * The front end: fetch follows predictions, and dispatch executes functionally, on the right path
 * exactly as the sequential machine does.
 */
module OooFrontEnd {
  import opened OooTypes
  import opened OooStages
  import opened OooInv

  /** After dispatch, the next instruction is the predicted one, or the actual one if fetch was redirected. */
  lemma DecodeFetch(c: Config, f: Front, op: Op, eff: Effect)
    requires f.fq != [] && FetchOk(c, f)
    ensures FetchOk(c, Decode(c, f, op, eff))
    ensures NextPC(Decode(c, f, op, eff)) == if Redirects(c, op, f.fq[0], eff) then eff.next else f.fq[0].pred
  {
  }

  /** Only transfers of control are ever mispredicted. */
  lemma PredictedWrong(c: Config, f: Front)
    requires c.Valid() && f.fq != [] && FetchOk(c, f)
    requires c.exec(f.fq[0].ir, f.fq[0].pc, Shown(f)).next != f.fq[0].pred
    ensures var op := c.decode(f.fq[0].ir); !op.nop && op.mem.NoMem?
  {
  }

  lemma TracedPcs(c: Config, h: History, pc: nat, seqno: nat)
    requires Pcs(h.dispatched) == Effective(c, h.path)
    ensures var h' := Traced(h, c.decode(c.Inst(pc)), pc, seqno); Pcs(h'.dispatched) == Effective(c, h'.path)
  {
    var h' := Traced(h, c.decode(c.Inst(pc)), pc, seqno);
    assert h'.path[..|h'.path| - 1] == h.path;
  }

  /** With spec_mode off, what dispatch computes is the next step of the sequential machine. */
  lemma SeqStep(c: Config, f: Front, h: History)
    requires FrontOk(c, f, h) && f.fq != [] && !f.specMode
    ensures var fe := f.fq[0]; var eff := c.exec(fe.ir, fe.pc, Shown(f));
      && fe.pc == SeqRun(c, |h.path|).pc && fe.ir == c.Inst(fe.pc)
      && SeqRun(c, |h.path| + 1) == Machine(eff.next, f.arch + eff.writes)
  {
    assert Shown(f) == f.arch;
    hide Effective, Pcs;
  }

  lemma DecodeIs(c: Config, f: Front, op: Op, eff: Effect)
    requires f.fq != []
    ensures var f1 := Decode(c, f, op, eff);
      && f1.specMode == f.specMode
      && (if f.specMode then f1.arch == f.arch else f1.arch == f.arch + eff.writes && f1.overlay == f.overlay)
  {
  }

  lemma FrontParts(c: Config, f: Front, h: History)
    requires FrontOk(c, f, h)
    ensures FetchOk(c, f) && Pcs(h.dispatched) == Effective(c, h.path)
    ensures forall k :: 0 <= k < |h.path| ==> h.path[k] == SeqRun(c, k).pc
    ensures !f.specMode ==> f.overlay == map[]
  {
    hide FetchOk, SeqRun, Effective, Pcs;
  }

  /** A right-path dispatch executes one instruction of the sequential machine. */
  lemma RightPathStep(c: Config, f: Front, h: History, seqno: nat)
    requires FrontOk(c, f, h) && f.fq != [] && !f.specMode
    ensures var fe := f.fq[0]; var eff := c.exec(fe.ir, fe.pc, Shown(f)); var op := c.decode(fe.ir);
      var f1, h1 := Decode(c, f, op, eff), Traced(h, op, fe.pc, seqno);
      && (NextPC(f1) == eff.next ==> FrontOk(c, f1, h1))
      && FrontOk(c, f1.(specMode := true, recoverPC := eff.next), h1)
  {
    hide FrontOk, FetchOk, SeqRun, Effective, Pcs, Decode, Shown, NextPC, Traced;
    var fe := f.fq[0];
    var eff := c.exec(fe.ir, fe.pc, Shown(f));
    var op := c.decode(fe.ir);
    SeqStep(c, f, h);
    FrontParts(c, f, h);
    DecodeFetch(c, f, op, eff);
    DecodeIs(c, f, op, eff);
    FetchAnyMode(c, Decode(c, f, op, eff), eff.next);
    TracedTrace(c, h, fe.pc, seqno, |h.path|);
    FrontAgain(c, Decode(c, f, op, eff), Traced(h, op, fe.pc, seqno), eff.next);
  }

  /** The trace after one more right-path instruction. */
  lemma TracedTrace(c: Config, h: History, pc: nat, seqno: nat, n: nat)
    requires n == |h.path| && Pcs(h.dispatched) == Effective(c, h.path) && pc == SeqRun(c, n).pc
    requires forall k :: 0 <= k < n ==> h.path[k] == SeqRun(c, k).pc
    ensures var h1 := Traced(h, c.decode(c.Inst(pc)), pc, seqno);
      |h1.path| == n + 1 && Pcs(h1.dispatched) == Effective(c, h1.path) && forall k :: 0 <= k <= n ==>
        h1.path[k] == SeqRun(c, k).pc
  {
    TracedPcs(c, h, pc, seqno);
    hide SeqRun, Effective, Pcs;
  }

  lemma FrontAgain(c: Config, f1: Front, h1: History, next: nat)
    requires |h1.path| > 0 && FetchOk(c, f1) && FetchOk(c, f1.(specMode := true, recoverPC := next)) && !f1.specMode &&
      f1.overlay == map[]
    requires f1.arch == SeqRun(c, |h1.path|).vals && next == SeqRun(c, |h1.path|).pc &&
      Pcs(h1.dispatched) == Effective(c, h1.path)
    requires forall k :: 0 <= k < |h1.path| ==> h1.path[k] == SeqRun(c, k).pc
    ensures NextPC(f1) == next ==> FrontOk(c, f1, h1)
    ensures FrontOk(c, f1.(specMode := true, recoverPC := next), h1)
  {
    hide FetchOk, SeqRun, Effective, Pcs;
  }

  lemma FetchAnyMode(c: Config, f: Front, pc: nat)
    ensures FetchOk(c, f.(specMode := true, recoverPC := pc)) == FetchOk(c, f)
  {
  }

  /** A wrong-path dispatch changes neither precise state nor where recovery will resume. */
  lemma WrongPathStep(c: Config, f: Front, h: History, op: Op, eff: Effect)
    requires FrontOk(c, f, h) && f.fq != [] && f.specMode
    ensures FrontOk(c, Decode(c, f, op, eff), h) && Decode(c, f, op, eff).specMode
  {
    DecodeFetch(c, f, op, eff);
    hide FetchOk, SeqRun;
  }

  lemma FetchedOne(c: Config, f: Front, input: FetchInput)
    requires FetchOk(c, f)
    ensures var f1 := FetchInst(c, f, Guess(c, f.fetchPC, input));
      FetchOk(c, f1) && NextPC(f1) == NextPC(f) && f1 == f.(fq := f1.fq, fetchPC := f1.fetchPC)
  {
  }

  /** Fetch extends the chain of predictions and never changes what dispatch will see next. */
  lemma {:induction false} FetchKeeps(c: Config, f: Front, width: nat, branches: nat, inputs: nat -> FetchInput)
    requires FetchOk(c, f)
    ensures var r := Fetch(c, f, width, branches, inputs);
      && FetchOk(c, r) && NextPC(r) == NextPC(f)
      && r == f.(fq := r.fq, fetchPC := r.fetchPC, delay := r.delay)
    decreases width
  {
    if width == 0 || |f.fq| >= c.ifq {
      return;
    }
    var input := inputs(width);
    if input.Miss? && c.InText(f.fetchPC) {
      FetchDelay(c, f, f.delay + input.lat - 1);
    } else {
      var guess := Guess(c, f.fetchPC, input);
      FetchedOne(c, f, input);
      hide FetchOk, FetchInst, NextPC, Guess;
      if !(guess != 0 && branches <= 1) {
        FetchKeeps(c, FetchInst(c, f, guess), width - 1, if guess == 0 then branches else branches - 1, inputs);
      }
    }
  }

  lemma FetchDelay(c: Config, f: Front, d: nat)
    ensures FetchOk(c, f.(delay := d)) == FetchOk(c, f)
  {
  }

  /** Fetch keeps agreement with the sequential machine. */
  lemma FetchFront(c: Config, f: Front, h: History, width: nat, branches: nat, inputs: nat -> FetchInput)
    requires FrontOk(c, f, h)
    ensures FrontOk(c, Fetch(c, f, width, branches, inputs), h)
  {
    FetchKeeps(c, f, width, branches, inputs);
    hide FetchOk, SeqRun, Fetch;
  }
}
