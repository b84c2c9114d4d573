/**
 * A run of four instructions that shows two failures of the simulator: a load held back although
 * no store can affect it, and a store with a result.
 */
module OooExample {
  import opened OooTypes
  import opened OooStages
  import opened OooInv
  import opened OooRefresh
  import OooMeaning

  // ---------------------------------------------------------------- the program

  const DATA: Reg := 1
  const RESULT: Reg := 5

  function Output(result: bool): Reg { if result then RESULT else NA }

  function Plain(mem: Mem, outs: Outs, ins: Ins): Op {
    Op(false, false, false, false, false, false, mem, outs, ins)
  }

  /**
   * Instruction 0 makes the data of the store 1; 2 is a store to the same address that has its
   * data, and an output register if `result`; 3 is a load.  All others are NOPs.
   */
  function Decoded(result: bool, i: nat): Op {
    if i == 0 then Plain(NoMem, [DATA, NA], [NA, NA, NA])
    else if i == 1 then Plain(StoreOp, [NA, NA], [DATA, NA, NA])
    else if i == 2 then Plain(StoreOp, [Output(result), NA], [NA, NA, NA])
    else if i == 3 then Plain(LoadOp, [NA, NA], [NA, NA, NA])
    else Op(true, false, false, false, false, false, NoMem, [NA, NA], [NA, NA, NA])
  }

  /** The stores go to address `a`, the load to address zero. */
  function Executed(a: nat, i: nat, pc: nat): Effect {
    Effect(Config.Fall(pc), 0, if i == 1 || i == 2 then a else 0, map[])
  }

  function Example(a: nat, result: bool): Config {
    Config(4, 3, 9, 4, 0, 32, (pc: nat) => pc / 8, 4, 0, map[],
           (i: nat) => Decoded(result, i), (i: nat, pc: nat, vals) => Executed(a, i, pc),
           false, true, 0, 4, 4, 4, 1)
  }

  /** The first instruction takes ten cycles to execute, every other operation one. */
  function Answers(): Inputs {
    Inputs(k => true, k => Unit(if k == 4 then 10 else 1, 1, 0), k => Hit(0))
  }

  lemma ExampleValid(a: nat, result: bool)
    ensures Example(a, result).Valid()
  {
  }

  // ---------------------------------------------------------------- states

  const RDY: Flags := [true, true, true]

  /** A station as dispatch leaves it. */
  function Rs(kind: Kind, pc: nat, addr: nat, seqno: nat, outs: Outs, chain: seq<Link>, ins: Ins,
              ready: Flags): Station {
    Station(kind, pc, pc + 8, pc + 8, false, false, false, false, addr, 0, seqno, false, false, false, outs,
      [chain, []], ins, ready)
  }

  function Empty(): Station {
    Station(Alu, 0, 0, 0, false, false, false, false, 0, 0, 0, false, false, false,
            [NA, NA], BlankChains(), [NA, NA, NA], [false, false, false])
  }

  function Win(st: seq<Station>, rn: nat, ln: nat, lastSeq: nat): Window {
    Window(st, 4, 3, 0, if rn == 4 then 0 else rn, rn, 0, if ln == 3 then 0 else ln, ln, lastSeq)
  }

  function Blank(): seq<Creator> { seq(TOTAL_REGS, i => NoCreator) }

  function Program(): seq<Fetched> { [Fetched(0, 0, 8), Fetched(1, 8, 16), Fetched(2, 16, 24), Fetched(3, 24, 32)] }

  function Frontend(fq: seq<Fetched>): Front { Front(false, 0, map[], map[], fq, 32, 0) }

  lemma FetchOne(c: Config, f: Front, width: nat, branches: nat, inputs: nat -> FetchInput)
    requires width > 0 && |f.fq| < c.ifq && inputs(width) == Hit(0)
    ensures var f1 := f.(fq := f.fq + [Fetched(c.Inst(f.fetchPC), f.fetchPC, Config.Fall(f.fetchPC))],
      fetchPC := Config.Fall(f.fetchPC));
      Fetch(c, f, width, branches, inputs) == Fetch(c, f1, width - 1, branches, inputs)
  {
  }

  lemma FirstFetch(a: nat, result: bool, f: Front)
    requires f == Front(false, 0, map[], map[], [], 0, 0)
    ensures Fetch(Example(a, result), f, 4, 1, Answers().fetches) == Frontend(Program())
  {
    hide Fetch;
    var c := Example(a, result);
    var inputs := Answers().fetches;
    FetchOne(c, f, 4, 1, inputs);
    var f1 := f.(fq := [Fetched(0, 0, 8)], fetchPC := 8);
    assert f.fq + [Fetched(0, 0, 8)] == f1.fq;
    FetchOne(c, f1, 3, 1, inputs);
    var f2 := f.(fq := [Fetched(0, 0, 8), Fetched(1, 8, 16)], fetchPC := 16);
    assert f1.fq + [Fetched(1, 8, 16)] == f2.fq;
    FetchOne(c, f2, 2, 1, inputs);
    var f3 := f.(fq := [Fetched(0, 0, 8), Fetched(1, 8, 16), Fetched(2, 16, 24)], fetchPC := 24);
    assert f2.fq + [Fetched(2, 16, 24)] == f3.fq;
    FetchOne(c, f3, 1, 1, inputs);
    assert f3.fq + [Fetched(3, 24, 32)] == Program();
    FetchNone(c, Frontend(Program()), 1, inputs);
  }

  lemma FetchNone(c: Config, f: Front, branches: nat, inputs: nat -> FetchInput)
    ensures Fetch(c, f, 0, branches, inputs) == f
  {
  }

  /** With nothing in the window nothing happens before dispatch. */
  lemma IdleDrain(c: Config, s: State, i: Inputs)
    requires Sized(s) && s.w.rn == 0 && s.w.ln == 0 && s.q.events == [] && s.q.readyq == []
    ensures Commit(s, c.commitWidth, i.ports) == Ok(s) && Writeback(c, s) == Ok(s) && Refresh(s) == Ok(s)
    ensures Issue(s, c.issueWidth, i.units) == Ok(s)
  {
  }

  lemma IdleDispatch(c: Config, s: State, width: nat)
    requires Sized(s) && s.f.fq == []
    ensures Dispatch(c, s, width) == Ok(s)
  {
  }

  // ---------------------------------------------------------------- dispatch, piece by piece

  /** An operand that names no register is ready. */
  lemma LinkNone(s: State, slot: nat, j: nat)
    requires Sized(s) && slot < |s.w.st| && j < 3 && s.w.st[slot].inames[j] == NA && s.w.st[slot].ready[j]
    ensures LinkIdep(s, slot, j, NA) == Ok(s)
  {
    var rs := s.w.st[slot];
    assert rs.inames[j := NA] == rs.inames && rs.ready[j := true] == rs.ready;
    assert s.w.st[slot := rs] == s.w.st;
  }

  /** An output that names no register changes nothing. */
  lemma InstallNone(s: State, slot: nat, i: nat)
    requires Sized(s) && slot < |s.w.st| && i < 2 && s.w.st[slot].onames[i] == NA
    ensures InstallOdep(s, slot, i, NA) == s
  {
    var rs := s.w.st[slot];
    assert rs.onames[i := NA] == rs.onames;
    assert s.w.st[slot := rs] == s.w.st;
  }

  /** An operation without inputs and with at most one output. */
  lemma ConnectFree(s: State, slot: nat, out: Reg)
    requires Sized(s) && slot < |s.w.st| && s.w.st[slot].inames == [NA, NA, NA] && s.w.st[slot].ready == RDY &&
      s.w.st[slot].onames == [NA, NA]
    ensures Connect(s, slot, [NA, NA, NA], [out, NA]) == Ok(InstallOdep(s, slot, 0, out))
  {
    LinkNone(s, slot, 0);
    LinkNone(s, slot, 1);
    LinkNone(s, slot, 2);
    hide LinkIdep;
    InstallNone(InstallOdep(s, slot, 0, out), slot, 1);
  }

  /** Operand `j` of `slot` waits for the first output of `p`. */
  function Linked(s: State, slot: nat, j: nat, name: Reg, p: nat): State
    requires slot < |s.w.st| && p < |s.w.st| && j < 3 && s.q.free != []
  {
    var rs, maker := s.w.st[slot], s.w.st[p];
    var l := Link(s.q.free[0], slot, rs.tag, j);
    s.(w := s.w.(st := s.w.st[slot := rs.(inames := rs.inames[j := name], ready := rs.ready[j := false])]
                             [p := maker.(odeps := maker.odeps[0 := [l] + maker.odeps[0]])]),
       q := s.q.(free := s.q.free[1..]))
  }

  lemma LinkMade(s: State, slot: nat, j: nat, name: Reg, p: nat)
    requires Sized(s) && slot < |s.w.st| && p < |s.w.st| && p != slot && j < 3 && s.q.free != []
    requires name != NA && CreateVector(s.v, name) == Creator(p, 0)
    ensures LinkIdep(s, slot, j, name) == Ok(Linked(s, slot, j, name, p)) && Sized(Linked(s, slot, j, name, p))
  {
  }

  lemma LinkedStation(s: State, slot: nat, j: nat, name: Reg, p: nat)
    requires slot < |s.w.st| && p < |s.w.st| && p != slot && j < 3 && s.q.free != []
    ensures var r := Linked(s, slot, j, name, p); var rs, rs' := s.w.st[slot], r.w.st[slot];
      && |r.w.st| == |s.w.st| && rs'.inames == rs.inames[j := name] && rs'.ready == rs.ready[j := false] &&
        rs'.onames == rs.onames
      && r.v == s.v && r.q.free == s.q.free[1..]
  {
  }

  /** A new station: no names yet. */
  predicate Unnamed(rs: Station) {
    rs.inames == [NA, NA, NA] && rs.ready == RDY && rs.onames == [NA, NA]
  }

  /** An access that waits for its address only. */
  lemma ConnectAccess(s: State, slot: nat, out: Reg, p: nat)
    requires Sized(s) && slot < |s.w.st| && Unnamed(s.w.st[slot]) && s.q.free != []
    requires CreateVector(s.v, DTMP) == Creator(p, 0) && p < |s.w.st| && p != slot
    ensures Sized(Linked(s, slot, 1, DTMP, p))
    ensures Connect(s, slot, [NA, DTMP, NA], [out, NA]) == Ok(InstallOdep(Linked(s, slot, 1, DTMP, p), slot, 0, out))
  {
    hide LinkIdep, Linked, CreateVector;
    var s1 := Linked(s, slot, 1, DTMP, p);
    LinkNone(s, slot, 0);
    LinkMade(s, slot, 1, DTMP, p);
    LinkedStation(s, slot, 1, DTMP, p);
    LinkNone(s1, slot, 2);
    InstallKeeps(s1, slot, out);
    InstallNone(InstallOdep(s1, slot, 0, out), slot, 1);
    hide InstallOdep;
  }

  lemma InstallKeeps(s: State, slot: nat, out: Reg)
    requires Sized(s) && slot < |s.w.st| && s.w.st[slot].onames[1] == NA
    ensures InstallOdep(s, slot, 0, out).w.st[slot].onames[1] == NA
  {
    hide InstallOdep;
    OooMeaning.InstallText(s, slot, 0, out);
  }

  /** An access that waits for its data as well. */
  lemma ConnectStore(s: State, slot: nat, maker: nat, p: nat)
    requires Sized(s) && slot < |s.w.st| && Unnamed(s.w.st[slot]) && |s.q.free| > 1
    requires CreateVector(s.v, DATA) == Creator(maker, 0) && maker < |s.w.st| && maker != slot
    requires CreateVector(s.v, DTMP) == Creator(p, 0) && p < |s.w.st| && p != slot
    ensures |Linked(s, slot, 0, DATA, maker).w.st| == |s.w.st| && |Linked(s, slot, 0, DATA, maker).q.free| > 0
    ensures Connect(s, slot, [DATA, DTMP, NA], [NA, NA]) ==
      Ok(Linked(Linked(s, slot, 0, DATA, maker), slot, 1, DTMP, p))
  {
    hide LinkIdep, Linked, CreateVector, InstallOdep;
    var s1 := Linked(s, slot, 0, DATA, maker);
    LinkMade(s, slot, 0, DATA, maker);
    LinkedStation(s, slot, 0, DATA, maker);
    LinkMade(s1, slot, 1, DTMP, p);
    LinkedStation(s1, slot, 1, DTMP, p);
    var s2 := Linked(s1, slot, 1, DTMP, p);
    LinkNone(s2, slot, 2);
    InstallNone(s2, slot, 0);
    InstallNone(s2, slot, 1);
  }

  // ---------------------------------------------------------------- the second cycle

  function Maker(chain: seq<Link>): Station { Rs(Alu, 0, 0, 1, [DATA, NA], chain, [NA, NA, NA], RDY) }

  function Ea(pc: nat, seqno: nat, chain: seq<Link>): Station {
    Rs(Addr, pc, 0, seqno, [DTMP, NA], chain, [NA, NA, NA], RDY)
  }

  function First(a: nat): Station { Rs(Store, 8, a, 3, [NA, NA], [], [DATA, DTMP, NA], [false, false, true]) }

  function Second(a: nat, result: bool): Station {
    Rs(Store, 16, a, 5, [Output(result), NA], [], [NA, DTMP, NA], [true, false, true])
  }

  function Held(): Station { Rs(Load, 24, 0, 7, [NA, NA], [], [NA, DTMP, NA], [true, false, true]) }

  function Queued(rs: Station): Station { rs.(queued := true) }

  /** The create vector after `k` instructions. */
  function Made(result: bool, k: nat): (r: seq<Creator>)
    ensures |r| == TOTAL_REGS
  {
    if k == 0 then Blank()
    else if k == 1 then Blank()[DATA := Creator(0, 0)]
    else if k == 2 then Made(result, 1)[DTMP := Creator(1, 0)]
    else if k == 3 then
      (if result then Made(result, 2)[DTMP := Creator(2, 0)][RESULT := Creator(5, 0)]
        else Made(result, 2)[DTMP := Creator(2, 0)])
    else Made(result, 3)[DTMP := Creator(3, 0)]
  }

  function Stations(a: nat, result: bool, k: nat): seq<Station> {
    var e := Empty();
    if k == 0 then [e, e, e, e, e, e, e]
    else if k == 1 then [Queued(Maker([])), e, e, e, e, e, e]
    else if k == 2 then
      [Queued(Maker([Link(1, 4, 0, 0)])), Queued(Ea(8, 2, [Link(2, 4, 0, 1)])), e, e, First(a), e, e]
    else if k == 3 then
      [Queued(Maker([Link(1, 4, 0, 0)])), Queued(Ea(8, 2, [Link(2, 4, 0, 1)])), Queued(Ea(16, 4, [Link(4, 5, 0, 1)])),
        e,
       First(a), Second(a, result), e]
    else
      [Queued(Maker([Link(1, 4, 0, 0)])), Queued(Ea(8, 2, [Link(2, 4, 0, 1)])), Queued(Ea(16, 4, [Link(4, 5, 0, 1)])),
       Queued(Ea(24, 6, [Link(6, 6, 0, 1)])), First(a), Second(a, result), Held()]
  }

  function Lines(k: nat): Queues {
    if k == 0 then Queues([0, 1, 2, 3, 4, 5, 6, 7, 8], [], [], 1)
    else if k == 1 then Queues([1, 2, 3, 4, 5, 6, 7, 8], [], [Link(0, 0, 0, 1)], 1)
    else if k == 2 then Queues([4, 5, 6, 7, 8], [], [Link(0, 0, 0, 1), Link(3, 1, 0, 2)], 1)
    else if k == 3 then Queues([6, 7, 8], [], [Link(0, 0, 0, 1), Link(3, 1, 0, 2), Link(5, 2, 0, 4)], 1)
    else Queues([8], [], [Link(0, 0, 0, 1), Link(3, 1, 0, 2), Link(5, 2, 0, 4), Link(7, 3, 0, 6)], 1)
  }

  /** The window, queues and vectors after `k` instructions have been dispatched; any front end and history. */
  function Dispatched(a: nat, result: bool, k: nat, f: Front, h: History): State {
    State(Win(Stations(a, result, k), if k <= 4 then k else 4, if k == 0 then 0 else k - 1,
      if k == 0 then 0 else 2 * k - 1),
          Lines(k), Vectors(Made(result, k), Blank(), {}), f, h)
  }

  lemma InstallIs(s: State, slot: nat, name: Reg)
    requires Sized(s) && slot < |s.w.st| && s.w.st[slot].onames == [NA, NA] && s.w.st[slot].odeps == [[], []] &&
      !s.f.specMode
    ensures InstallOdep(s, slot, 0, name) ==
      s.(w := Put(s.w, slot, s.w.st[slot].(onames := [name, NA])),
         v := if name == NA then s.v else s.v.(cv := s.v.cv[name := Creator(slot, 0)]))
  {
    var rs := s.w.st[slot];
    assert rs.onames[0 := name] == [name, NA];
    assert rs.odeps[0 := []] == [[], []];
  }

  lemma {:induction false} InsertLast(q: seq<Link>, l: Link)
    requires forall k :: 0 <= k < |q| ==> q[k].x < l.x
    ensures InsertSorted(q, l) == q + [l]
    decreases |q|
  {
    if q == [] {
    } else {
      InsertLast(q[1..], l);
    }
  }

  /** A ready operation of the RUU goes to the end of the ready queue if it is the youngest. */
  lemma EnqueueIs(s: State, slot: nat)
    requires Sized(s) && slot < |s.w.st| && s.q.free != []
    requires var rs := s.w.st[slot];
      rs.ready == RDY && !rs.queued && !InLsq(rs) && !rs.urgent && forall k :: 0 <= k < |s.q.readyq| ==>
        s.q.readyq[k].x < rs.seqno
    ensures var rs := s.w.st[slot]; EnqueueIfReady(s, slot) == Ok(
      s.(w := Put(s.w, slot, Queued(rs)),
        q := s.q.(free := s.q.free[1..], readyq := s.q.readyq + [Link(s.q.free[0], slot, rs.tag, rs.seqno)])))
  {
    hide InsertSorted;
    var rs := s.w.st[slot];
    InsertLast(s.q.readyq, Link(s.q.free[0], slot, rs.tag, rs.seqno));
  }

  lemma AllocAlu(a: nat, result: bool, f: Front, h: History, op: Op, eff: Effect)
    requires op == Decoded(result, 0) && eff.next == 8 && !f.specMode
    ensures Sized(Dispatched(a, result, 0, f, h))
    ensures AllocateAlu(Dispatched(a, result, 0, f, h), op, 0, eff, 8) == Ok(Dispatched(a, result, 1, f, h))
  {
    hide Connect, InstallOdep, EnqueueIfReady;
    var s := Dispatched(a, result, 0, f, h);
    var s0 := AllocRuu(s, Alu, op, 0, 8, 8);
    assert s0.w.st[0] == Rs(Alu, 0, 0, 1, [NA, NA], [], [NA, NA, NA], RDY);
    ConnectFree(s0, 0, DATA);
    InstallIs(s0, 0, DATA);
    var s1 := InstallOdep(s0, 0, 0, DATA);
    EnqueueIs(s1, 0);
    var s2 := EnqueueIfReady(s1, 0).value;
    assert s2.w.st == Stations(a, result, 1);
    assert s2.q == Lines(1);
  }

  /** The address computation of a memory instruction without inputs. */
  lemma AddrIs(s: State, op: Op, pc: nat, eff: Effect, pred: nat)
    requires Sized(s) && s.w.rn < s.w.nr && op.ins[1] == op.ins[2] == NA && !s.f.specMode &&
      s.w.st[s.w.rt].odeps == [[], []]
    ensures var s0 := AllocRuu(s, Addr, op, pc, eff.next, pred);
      AllocateAddr(s, op, pc, eff, pred) ==
        Ok(s0.(w := Put(s0.w, s.w.rt, s0.w.st[s.w.rt].(onames := [DTMP, NA])),
          v := s.v.(cv := s.v.cv[DTMP := Creator(s.w.rt, 0)])))
  {
    var s0 := AllocRuu(s, Addr, op, pc, eff.next, pred);
    ConnectFree(s0, s.w.rt, DTMP);
    InstallIs(s0, s.w.rt, DTMP);
    hide Connect, InstallOdep;
  }

  /** The state between the two halves of instruction `k`. */
  function Halfway(a: nat, result: bool, k: nat, f: Front, h: History): State
    requires 1 <= k <= 3 && |Stations(a, result, k)| == 7
  {
    var s := Dispatched(a, result, k, f, h);
    s.(w := Win(s.w.st[k := Ea(8 * k, 2 * k, [])], k + 1, k - 1, 2 * k), v := s.v.(cv := s.v.cv[DTMP := Creator(k, 0)]))
  }

  lemma SlotsFree(a: nat, result: bool, k: nat)
    requires 1 <= k <= 3
    ensures var st := Stations(a, result, k); |st| == 7 && st[k] == Empty() && st[3 + k] == Empty()
  {
  }

  lemma FirstHalf(a: nat, result: bool, k: nat, f: Front, h: History, op: Op, eff: Effect)
    requires 1 <= k <= 3 && op.ins[1] == op.ins[2] == NA && eff.next == 8 * k + 8 && !f.specMode
    ensures |Stations(a, result, k)| == 7 && Sized(Dispatched(a, result, k, f, h)) && Sized(Halfway(a, result, k, f, h))
    ensures AllocateAddr(Dispatched(a, result, k, f, h), op, 8 * k, eff, 8 * k + 8) == Ok(Halfway(a, result, k, f, h))
  {
    hide AllocateAddr, Stations, Made, Lines;
    SlotsFree(a, result, k);
    var s := Dispatched(a, result, k, f, h);
    AddrIs(s, op, 8 * k, eff, 8 * k + 8);
    var s0 := AllocRuu(s, Addr, op, 8 * k, eff.next, 8 * k + 8);
    assert s0.w.st[k] == Rs(Addr, 8 * k, 0, 2 * k, [NA, NA], [], [NA, NA, NA], RDY);
    assert Put(s0.w, k, Ea(8 * k, 2 * k, [])).st == Halfway(a, result, k, f, h).w.st;
  }

  /** With both halves of instruction `k` in the window and neither queued. */
  function Placed(a: nat, result: bool, k: nat, f: Front, h: History): State
    requires 1 <= k <= 3 && |Stations(a, result, k + 1)| == 7 && |Lines(k).free| >= 2
  {
    var s, t := Dispatched(a, result, k, f, h), Dispatched(a, result, k + 1, f, h);
    t.(w := Win(t.w.st[k := t.w.st[k].(queued := false)], k + 1, k, 2 * k + 1),
      q := s.q.(free := s.q.free[if k == 1 then 2 else 1..]))
  }

  /** The LSQ half of instruction `k` before it has names. */
  lemma LsqHalf(a: nat, result: bool, k: nat, f: Front, h: History, op: Op, eff: Effect)
    requires 1 <= k <= 3 && !op.longLat && !op.ctrl && !op.noUnit && !f.specMode
    ensures |Stations(a, result, k)| == 7 && Sized(Halfway(a, result, k, f, h))
    ensures var s := Halfway(a, result, k, f, h);
      var s0 := AllocLsq(s, MemKind(op), op, 8 * k, 8 * k + 8, 8 * k + 8, eff.addr);
      && s0.w ==
        Win(s.w.st[3 + k := Rs(MemKind(op), 8 * k, eff.addr, 2 * k + 1, [NA, NA], [], [NA, NA, NA], RDY)], k + 1, k,
          2 * k + 1)
      && s0 == s.(w := s0.w) && Unnamed(s0.w.st[3 + k])
  {
    hide Stations, Made, Lines;
    SlotsFree(a, result, k);
  }

  /** Operand `j` of one station is the first to be linked to the other. */
  lemma LinkedRs(s: State, slot: nat, j: nat, name: Reg, p: nat, ins: Ins, ready: Flags, l: Link)
    requires slot < |s.w.st| && p < |s.w.st| && p != slot && j < 3 && s.q.free != [] && s.w.st[p].odeps == [[], []]
    requires var rs := s.w.st[slot];
      ins == rs.inames[j := name] && ready == rs.ready[j := false] && l == Link(s.q.free[0], slot, rs.tag, j)
    ensures Linked(s, slot, j, name, p) == s.(q := s.q.(free := s.q.free[1..]),
      w := s.w.(st := s.w.st[slot := s.w.st[slot].(inames := ins, ready := ready)]
                            [p := s.w.st[p].(odeps := [[l], []])]))
  {
    assert [l] + s.w.st[p].odeps[0] == [l];
    assert s.w.st[p].odeps[0 := [l]] == [[l], []];
  }

  lemma FirstStore(a: nat, result: bool, f: Front, h: History, op: Op, eff: Effect)
    requires op == Decoded(result, 1) && eff == Executed(a, 1, 8) && !f.specMode
    ensures |Stations(a, result, 1)| == 7 && Sized(Halfway(a, result, 1, f, h))
    ensures AllocateAccess(Halfway(a, result, 1, f, h), op, 8, eff, 16) == Ok(Placed(a, result, 1, f, h))
  {
    hide Connect, AllocLsq, Linked;
    LsqHalf(a, result, 1, f, h, op, eff);
    var s := Halfway(a, result, 1, f, h);
    var s0 := AllocLsq(s, Store, op, 8, 16, 16, a);
    ConnectStore(s0, 4, 0, 1);
    LinkedRs(s0, 4, 0, DATA, 0, [DATA, NA, NA], [false, true, true], Link(1, 4, 0, 0));
    var s1 := Linked(s0, 4, 0, DATA, 0);
    LinkedRs(s1, 4, 1, DTMP, 1, [DATA, DTMP, NA], [false, false, true], Link(2, 4, 0, 1));
    var s2 := Linked(s1, 4, 1, DTMP, 1);
    assert s2.w.st == Placed(a, result, 1, f, h).w.st;
    assert s2.q.free == Placed(a, result, 1, f, h).q.free;
  }

  lemma SecondStore(a: nat, result: bool, f: Front, h: History, op: Op, eff: Effect)
    requires op == Decoded(result, 2) && eff == Executed(a, 2, 16) && !f.specMode
    ensures |Stations(a, result, 2)| == 7 && Sized(Halfway(a, result, 2, f, h))
    ensures AllocateAccess(Halfway(a, result, 2, f, h), op, 16, eff, 24) == Ok(Placed(a, result, 2, f, h))
  {
    hide Connect, AllocLsq, Linked, InstallOdep;
    LsqHalf(a, result, 2, f, h, op, eff);
    var s := Halfway(a, result, 2, f, h);
    var s0 := AllocLsq(s, Store, op, 16, 24, 24, a);
    ConnectAccess(s0, 5, Output(result), 2);
    LinkedRs(s0, 5, 1, DTMP, 2, [NA, DTMP, NA], [true, false, true], Link(4, 5, 0, 1));
    var s1 := Linked(s0, 5, 1, DTMP, 2);
    InstallIs(s1, 5, Output(result));
    var s2 := InstallOdep(s1, 5, 0, Output(result));
    assert s2.w.st == Placed(a, result, 2, f, h).w.st;
    assert s2.q.free == Placed(a, result, 2, f, h).q.free;
  }

  lemma HeldLoad(a: nat, result: bool, f: Front, h: History, op: Op, eff: Effect)
    requires op == Decoded(result, 3) && eff == Executed(a, 3, 24) && !f.specMode
    ensures |Stations(a, result, 3)| == 7 && Sized(Halfway(a, result, 3, f, h))
    ensures AllocateAccess(Halfway(a, result, 3, f, h), op, 24, eff, 32) == Ok(Placed(a, result, 3, f, h))
  {
    hide Connect, AllocLsq, Linked, InstallOdep;
    LsqHalf(a, result, 3, f, h, op, eff);
    var s := Halfway(a, result, 3, f, h);
    var s0 := AllocLsq(s, Load, op, 24, 32, 32, 0);
    ConnectAccess(s0, 6, NA, 3);
    LinkedRs(s0, 6, 1, DTMP, 3, [NA, DTMP, NA], [true, false, true], Link(6, 6, 0, 1));
    var s1 := Linked(s0, 6, 1, DTMP, 3);
    InstallIs(s1, 6, NA);
    var s2 := InstallOdep(s1, 6, 0, NA);
    assert s2.w.st == Placed(a, result, 3, f, h).w.st;
    assert s2.q.free == Placed(a, result, 3, f, h).q.free;
  }

  lemma AddressAt(a: nat, result: bool, k: nat)
    requires 1 <= k <= 3
    ensures var st := Stations(a, result, k + 1);
      && |st| == 7 && st[k].queued && st[k].kind.Addr? && st[k].ready == RDY
      && st[k].seqno == 2 * k && st[k].tag == 0 && !st[k].urgent
  {
  }

  lemma LinesStep(k: nat)
    requires 1 <= k <= 3
    ensures var n := if k == 1 then 2 else 1; var q, q' := Lines(k), Lines(k + 1);
      && |q.free| > n && q'.free == q.free[n..][1..] && q'.readyq == q.readyq + [Link(q.free[n], k, 0, 2 * k)]
      && q'.events == q.events && q'.now == q.now && forall i :: 0 <= i < |q.readyq| ==> q.readyq[i].x < 2 * k
  {
  }

  lemma AddressQueued(a: nat, result: bool, k: nat, f: Front, h: History)
    requires 1 <= k <= 3
    ensures |Stations(a, result, k)| == 7 && |Stations(a, result, k + 1)| == 7 && |Lines(k).free| >= 2
    ensures Sized(Placed(a, result, k, f, h)) &&
      EnqueueIfReady(Placed(a, result, k, f, h), k) == Ok(Dispatched(a, result, k + 1, f, h))
  {
    hide EnqueueIfReady, Made, Stations, Lines;
    SlotsFree(a, result, k);
    AddressAt(a, result, k);
    LinesStep(k);
    var s := Placed(a, result, k, f, h);
    EnqueueIs(s, k);
    assert Put(s.w, k, Queued(s.w.st[k])).st == Stations(a, result, k + 1);
  }

  /** A memory instruction enters the window. */
  lemma MemDispatched(a: nat, result: bool, k: nat, f: Front, h: History)
    requires 1 <= k <= 3 && !f.specMode
    ensures Sized(Dispatched(a, result, k, f, h))
    ensures AllocateMem(Dispatched(a, result, k, f, h), Decoded(result, k), 8 * k, Executed(a, k, 8 * k), 8 * k + 8) ==
      Ok(Dispatched(a, result, k + 1, f, h))
  {
    hide AllocateAddr, AllocateAccess, EnqueueIfReady, Stations, Made, Lines;
    var op, eff := Decoded(result, k), Executed(a, k, 8 * k);
    FirstHalf(a, result, k, f, h, op, eff);
    if k == 1 {
      FirstStore(a, result, f, h, op, eff);
    } else if k == 2 {
      SecondStore(a, result, f, h, op, eff);
    } else {
      HeldLoad(a, result, f, h, op, eff);
    }
    AddressQueued(a, result, k, f, h);
    StoreWaits(a, result, k, f, h);
  }

  lemma StoreWaits(a: nat, result: bool, k: nat, f: Front, h: History)
    requires 1 <= k <= 3
    ensures var s := Dispatched(a, result, k + 1, f, h);
      Sized(s) && !OpsReady(s.w.st[3 + k]) && EnqueueIfReady(s, 3 + k) == Ok(s)
  {
  }

  /** The front end and the histories once `k` instructions have been dispatched. */
  function Left(k: nat): Front
    requires k <= 4
  {
    Frontend(Program()[k..])
  }

  function Past(k: nat): History
    requires k <= 4
    decreases k
  {
    if k == 0 then History([], [], []) else
    var h := Past(k - 1);
    History(h.path + [8 * (k - 1)], h.dispatched + [Entry(if k == 1 then 1 else 2 * k - 2, 8 * (k - 1))], [])
  }

  lemma NextFetched(k: nat)
    requires k <= 3
    ensures Left(k).fq != [] && Left(k).fq[0] == Fetched(k, 8 * k, 8 * k + 8) && Left(k).fq[1..] == Left(k + 1).fq
  {
    assert Program()[k..][1..] == Program()[k + 1..];
  }

  lemma Recorded(result: bool, k: nat)
    requires k <= 3
    ensures Past(k + 1) == Traced(Past(k), Decoded(result, k), 8 * k, if k == 0 then 1 else 2 * k)
  {
    hide Past;
    PastIs(k);
  }

  lemma PastIs(k: nat)
    requires k <= 3
    ensures var h := Past(k);
      h.retired == [] &&
        Past(k + 1) == History(h.path + [8 * k], h.dispatched + [Entry(if k == 0 then 1 else 2 * k, 8 * k)], [])
  {
  }

  /** An instruction that goes where it was predicted to go. */
  lemma FollowOn(a: nat, result: bool, s: State, s1: State, k: nat)
    requires k <= 3 && Sized(s) && Sized(s1) && |s1.w.st| == |s.w.st| && s.f == Left(k) && s.h == Past(k)
    requires s.w.lastSeq == (if k == 0 then 0 else 2 * k - 1) && s.f.fq != [] &&
      s.f.fq[0] == Fetched(k, 8 * k, 8 * k + 8)
    ensures Follow(Example(a, result), s, s1, Decoded(result, k), Executed(a, k, 8 * k)) ==
      Next(s1.(f := Left(k + 1), h := Past(k + 1)))
  {
    hide Past, Program, Traced;
    NextFetched(k);
    Recorded(result, k);
    assert s.f.arch + Executed(a, k, 8 * k).writes == map[];
  }

  lemma DispatchStep(a: nat, result: bool, k: nat)
    requires k <= 3
    ensures Sized(Dispatched(a, result, k, Left(k), Past(k)))
    ensures DispatchOne(Example(a, result), Dispatched(a, result, k, Left(k), Past(k))) ==
      Next(Dispatched(a, result, k + 1, Left(k + 1), Past(k + 1)))
  {
    hide AllocateAlu, AllocateMem, Stations, Made, Lines, Follow, Past, Program;
    var s, s1 := Dispatched(a, result, k, Left(k), Past(k)), Dispatched(a, result, k + 1, Left(k), Past(k));
    if k == 0 {
      AllocAlu(a, result, Left(k), Past(k), Decoded(result, k), Executed(a, k, 8 * k));
    } else {
      MemDispatched(a, result, k, Left(k), Past(k));
    }
    SizedAfter(a, result, k + 1, Left(k), Past(k));
    NextFetched(k);
    FollowOn(a, result, s, s1, k);
  }

  lemma SizedAfter(a: nat, result: bool, k: nat, f: Front, h: History)
    requires k <= 4
    ensures |Stations(a, result, k)| == 7 && Sized(Dispatched(a, result, k, f, h))
  {
    hide Made;
  }

  /** The state sim_init leaves, written out. */
  function Start0(a: nat, result: bool): State {
    Dispatched(a, result, 0, Front(false, 0, map[], map[], [], 0, 0), Past(0)).(q := Lines(0).(now := 0))
  }

  lemma InitialIs(a: nat, result: bool)
    ensures Initial(Example(a, result)) == Start0(a, result)
  {
    var s := Initial(Example(a, result));
    assert s.w.st == Stations(a, result, 0);
    assert s.q.free == Lines(0).free;
    assert s.v.cv == Blank() == s.v.scv;
  }

  /** The first cycle fetches four instructions. */
  lemma FirstCycle(a: nat, result: bool)
    ensures Sized(Start0(a, result)) &&
      Cycle(Example(a, result), Start0(a, result), Answers()) == Ok(Dispatched(a, result, 0, Left(0), Past(0)))
  {
    hide Fetch, Commit, Writeback, Refresh, Issue, Dispatch, Stations, Made, Lines, Past;
    var c := Example(a, result);
    SizedAfter(a, result, 0, Start0(a, result).f, Past(0));
    LinesStart();
    FirstFetch(a, result, Start0(a, result).f);
    assert Program()[0..] == Program();
    IdleDrain(c, Start0(a, result), Answers());
    IdleDispatch(c, Start0(a, result), 4);
  }

  lemma LinesStart()
    ensures Lines(0).events == Lines(0).readyq == [] && Lines(0).now == 1
  {
  }

  lemma {:induction false} AllDispatched(a: nat, result: bool, k: nat)
    requires k <= 4
    ensures Sized(Dispatched(a, result, k, Left(k), Past(k)))
    ensures Dispatch(Example(a, result), Dispatched(a, result, k, Left(k), Past(k)), 4 - k) ==
      Ok(Dispatched(a, result, 4, Left(4), Past(4)))
    decreases 4 - k
  {
    hide DispatchOne, Stations, Made, Lines, Past, Left;
    SizedAfter(a, result, k, Left(k), Past(k));
    if k == 4 {
    } else {
      DispatchStep(a, result, k);
      AllDispatched(a, result, k + 1);
    }
  }

  /** The second cycle dispatches them. */
  lemma SecondCycle(a: nat, result: bool)
    ensures Sized(Dispatched(a, result, 0, Left(0), Past(0)))
    ensures Cycle(Example(a, result), Dispatched(a, result, 0, Left(0), Past(0)), Answers()) ==
      Ok(FetchAndTick(Example(a, result), Dispatched(a, result, 4, Left(4), Past(4)), Answers().fetches))
  {
    hide FetchAndTick, Commit, Writeback, Refresh, Issue, Dispatch, Stations, Made, Lines, Past;
    SizedAfter(a, result, 0, Left(0), Past(0));
    LinesStart();
    IdleDrain(Example(a, result), Dispatched(a, result, 0, Left(0), Past(0)), Answers());
    AllDispatched(a, result, 0);
  }

  // ---------------------------------------------------------------- the third cycle

  /** An RUU operation on a unit of latency `lat` starts. */
  lemma StartIs(s: State, node: Link, width: nat, u: Unit)
    requires Ring(s.w) && node.slot < s.w.nr && width > 0 && u.Unit? && s.q.free != [] && Valid(s.w.st, node)
    requires var rs := s.w.st[node.slot];
      rs.queued && !rs.issued && !rs.completed && OpsReady(rs) && rs.kind in {Alu, Addr} && !rs.noUnit
    ensures var rs := s.w.st[node.slot]; HandleNode(s, node, width, u) == Ok(Issued(
      s.(w := Put(s.w, node.slot, rs.(queued := false, issued := true)),
         q := s.q.(free := [node.id] + s.q.free[1..],
                   events := InsertSorted(s.q.events, Link(s.q.free[0], node.slot, node.tag, s.q.now + u.oplat)))),
                     true))
  {
    hide InsertSorted;
    var rs := s.w.st[node.slot];
    assert Put(Put(s.w, node.slot, rs.(queued := false)), node.slot, rs.(queued := false, issued := true)).st ==
      s.w.st[node.slot := rs.(queued := false, issued := true)];
  }

  function Begun(rs: Station): Station { rs.(queued := false, issued := true) }

  /** The stations once the first `n` have started. */
  function Running(a: nat, result: bool, n: nat): seq<Station> {
    var st := Stations(a, result, 4);
    [if n > 0 then Begun(st[0]) else st[0], if n > 1 then Begun(st[1]) else st[1],
     if n > 2 then Begun(st[2]) else st[2],
     if n > 3 then Begun(st[3]) else st[3], st[4], st[5], st[6]]
  }

  function Events(n: nat): Queues {
    if n == 0 then Queues([8], [], [], 2)
    else if n == 1 then Queues([0], [Link(8, 0, 0, 12)], [], 2)
    else if n == 2 then Queues([3], [Link(0, 1, 0, 3), Link(8, 0, 0, 12)], [], 2)
    else if n == 3 then Queues([5], [Link(3, 2, 0, 3), Link(0, 1, 0, 3), Link(8, 0, 0, 12)], [], 2)
    else Queues([7], [Link(5, 3, 0, 3), Link(3, 2, 0, 3), Link(0, 1, 0, 3), Link(8, 0, 0, 12)], [], 2)
  }

  function Executing(a: nat, result: bool, n: nat, f: Front, h: History): State
    requires n <= 4
  {
    Dispatched(a, result, 4, f, h).(w := Win(Running(a, result, n), 4, 3, 7), q := Events(n))
  }

  lemma EventsStep(n: nat)
    requires n <= 3
    ensures var q, q' := Events(n), Events(n + 1); var node := Lines(4).readyq[n];
      && |Lines(4).readyq| == 4 && |q.free| == 1 && q.now == 2 && node.slot == n && node.tag == 0
      && q' == q.(free := [node.id], events := InsertSorted(q.events, Link(q.free[0], n, 0, if n == 0 then 12 else 3)))
  {
  }

  lemma RunningAt(a: nat, result: bool, n: nat)
    requires n <= 3
    ensures var st := Running(a, result, n);
      && |st| == 7 && st[n].queued && !st[n].issued && !st[n].completed && OpsReady(st[n]) &&
        st[n].kind in {Alu, Addr} && !st[n].noUnit && st[n].tag == 0
      && Running(a, result, n + 1) == st[n := Begun(st[n])]
  {
  }

  lemma {:induction false} NodesStart(a: nat, result: bool, n: nat, f: Front, h: History)
    requires n <= 4
    ensures |Lines(4).readyq| == 4 && Ring(Executing(a, result, n, f, h).w)
    ensures IssueNodes(Executing(a, result, n, f, h), Lines(4).readyq[n..], 4 - n, Answers().units) ==
      Ok(Executing(a, result, 4, f, h))
    decreases 4 - n
  {
    hide HandleNode, Stations, Running, Events, Lines, Made;
    EventsStep(if n < 4 then n else 0);
    RunningSized(a, result, n);
    if n == 4 {
    } else {
      var s := Executing(a, result, n, f, h);
      var nodes := Lines(4).readyq[n..];
      RunningAt(a, result, n);
      StartIs(s, nodes[0], 4 - n, Answers().units(|nodes|));
      NodesStart(a, result, n + 1, f, h);
      assert nodes[1..] == Lines(4).readyq[n + 1..];
      assert [nodes[0].id] + s.q.free[1..] == [nodes[0].id];
    }
  }

  lemma RunningSized(a: nat, result: bool, n: nat)
    requires n <= 4
    ensures |Running(a, result, n)| == 7
  {
  }

  /** The window once all instructions are in it, in cycle two. */
  function Loaded(a: nat, result: bool, f: Front, h: History): State {
    Dispatched(a, result, 4, f, h).(q := Lines(4).(now := 2))
  }

  /** Nothing commits or completes, and the first store hides its address, so nothing is released. */
  lemma QuietStart(a: nat, result: bool, f: Front, h: History)
    ensures var c, s := Example(a, result), Loaded(a, result, f, h);
      && Sized(s) && Commit(s, 4, Answers().ports) == Ok(s) && Writeback(c, s) == Ok(s) && Refresh(s) == Ok(s)
  {
    hide Made;
    var s := Loaded(a, result, f, h);
    assert !s.w.st[0].completed;
    assert s.w.st[4] == First(a);
  }

  lemma FullWindow(c: Config, s: State, width: nat)
    requires Sized(s) && s.w.rn >= s.w.nr
    ensures Dispatch(c, s, width) == Ok(s)
  {
  }

  /** The third cycle starts everything in the RUU. */
  lemma ThirdCycle(a: nat, result: bool, f: Front, h: History)
    ensures Sized(Loaded(a, result, f, h))
    ensures Cycle(Example(a, result), Loaded(a, result, f, h), Answers()) ==
      Ok(FetchAndTick(Example(a, result), Executing(a, result, 4, f, h), Answers().fetches))
  {
    hide FetchAndTick, Commit, Writeback, Refresh, IssueNodes, Dispatch, Stations, Made, Running;
    var s := Loaded(a, result, f, h);
    SizedAfter(a, result, 4, f, h);
    QuietStart(a, result, f, h);
    NodesStart(a, result, 0, f, h);
    assert Lines(4).readyq[0..] == Lines(4).readyq;
    assert s.(q := s.q.(readyq := [])) == Executing(a, result, 0, f, h) by {
      NoneRunning(a, result);
    }
    RunningSized(a, result, 4);
    FullWindow(Example(a, result), Executing(a, result, 4, f, h), 4);
  }

  lemma NoneRunning(a: nat, result: bool)
    ensures Running(a, result, 0) == Stations(a, result, 4)
  {
  }

  // ---------------------------------------------------------------- the fourth cycle

  /** An address computation with one dependent completes. */
  lemma CompleteIs(c: Config, s: State, slot: nat, l: Link)
    requires Sized(s) && slot < |s.w.st| && l.slot < |s.w.st| && l.slot != slot
    requires var rs := s.w.st[slot];
      OpsReady(rs) && !rs.queued && rs.issued && !rs.completed && !rs.recover && rs.onames == [DTMP, NA] &&
        rs.odeps == [[l], []]
    ensures var rs := s.w.st[slot].(completed := true);
      Complete(c, s, slot) ==
        WakeOne(s.(v := ClearCreator(s.v, rs, slot, 0), w := Put(s.w, slot, rs.(odeps := [[], []]))), l)
  {
    hide WakeOne, ClearCreator;
    var rs := s.w.st[slot].(completed := true);
    var s1 := s.(w := Put(s.w, slot, rs));
    assert rs.odeps[0 := []] == [[], []];
    assert s1.w.st[slot := rs.(odeps := [[], []])] == s.w.st[slot := rs.(odeps := [[], []])];
    var s2 := s.(v := ClearCreator(s.v, rs, slot, 0), w := Put(s.w, slot, rs.(odeps := [[], []])));
    WakeSingle(s2, l);
    assert Broadcast(s1, slot, 0) == WakeOne(s2, l);
    if WakeOne(s2, l).Ok? {
      WakeKeeps(s2, l, slot);
    }
  }

  lemma WakeSingle(s: State, l: Link)
    requires Ring(s.w)
    ensures WakeAll(s, [l]) == WakeOne(s, l)
  {
    hide WakeOne;
    if WakeOne(s, l).Ok? {
      assert WakeAll(WakeOne(s, l).value, [l][1..]) == WakeOne(s, l);
    }
  }

  lemma WakeKeeps(s: State, l: Link, slot: nat)
    requires Ring(s.w) && slot < |s.w.st| && l.slot != slot && WakeOne(s, l).Ok?
    ensures WakeOne(s, l).value.w.st[slot] == s.w.st[slot]
  {
    hide InsertSorted;
  }

  /** The link gives operand one its value; a store that has all operands is queued. */
  lemma WakeIs(s: State, l: Link, ready: Flags)
    requires Ring(s.w) && l.slot < |s.w.st| && l.x == 1 && Valid(s.w.st, l) && s.q.free != []
    requires var rs := s.w.st[l.slot];
      InLsq(rs) && !rs.queued && !rs.ready[1] && ready == rs.ready[1 := true] && (ready[0] ==> s.q.readyq == [])
    ensures var rs := s.w.st[l.slot].(ready := ready);
      WakeOne(s, l) == Ok(
        if OpsReady(rs) && rs.kind.Store? then
          s.(w := Put(s.w, l.slot, Queued(rs)),
             q := s.q.(free := [l.id] + s.q.free[1..], readyq := [Link(s.q.free[0], l.slot, rs.tag, rs.seqno)]))
        else s.(w := Put(s.w, l.slot, rs), q := s.q.(free := [l.id] + s.q.free)))
  {
    var rs := s.w.st[l.slot].(ready := ready);
    assert Put(Put(s.w, l.slot, rs), l.slot, Queued(rs)).st == s.w.st[l.slot := Queued(rs)];
    assert ready[0] ==>
      [Link(s.q.free[0], l.slot, rs.tag, rs.seqno)] + s.q.readyq == [Link(s.q.free[0], l.slot, rs.tag, rs.seqno)];
  }

  function Finished(pc: nat, seqno: nat): Station { Begun(Ea(pc, seqno, [])).(completed := true) }

  /** The stations once `n` address computations have completed, the youngest first. */
  function Known(a: nat, result: bool, n: nat): seq<Station> {
    [Begun(Maker([Link(1, 4, 0, 0)])),
     if n > 2 then Finished(8, 2) else Begun(Ea(8, 2, [Link(2, 4, 0, 1)])),
     if n > 1 then Finished(16, 4) else Begun(Ea(16, 4, [Link(4, 5, 0, 1)])),
     if n > 0 then Finished(24, 6) else Begun(Ea(24, 6, [Link(6, 6, 0, 1)])),
     if n > 2 then First(a).(ready := [false, true, true]) else First(a),
     if n > 1 then Queued(Second(a, result).(ready := RDY)) else Second(a, result),
     if n > 0 then Held().(ready := RDY) else Held()]
  }

  function Pools(n: nat): Queues {
    if n == 0 then Events(4).(now := 3)
    else if n == 1 then Queues([6, 5, 7], [Link(3, 2, 0, 3), Link(0, 1, 0, 3), Link(8, 0, 0, 12)], [], 3)
    else if n == 2 then Queues([4, 6, 5, 7], [Link(0, 1, 0, 3), Link(8, 0, 0, 12)], [Link(3, 5, 0, 5)], 3)
    else Queues([2, 0, 4, 6, 5, 7], [Link(8, 0, 0, 12)], [Link(3, 5, 0, 5)], 3)
  }

  function Resolving(a: nat, result: bool, n: nat, f: Front, h: History): State
    requires n <= 3
  {
    var cv := Made(result, 4);
    State(Win(Known(a, result, n), 4, 3, 7), Pools(n),
      Vectors(if n == 0 then cv else cv[DTMP := NoCreator], Blank(), {}), f, h)
  }

  /** The link from the address computation that completes next. */
  function Dependent(n: nat): Link {
    if n == 0 then Link(6, 6, 0, 1) else if n == 1 then Link(4, 5, 0, 1) else Link(2, 4, 0, 1)
  }

  lemma NextDue(n: nat)
    requires n <= 2
    ensures var q := Pools(n); var e := q.events[0];
      && |q.events| > 0 && e.slot == 3 - n && e.tag == 0 && e.x <= q.now
      && Pools(n + 1).now == q.now && Pools(n + 1).events == q.events[1..] && (n != 2 ==> q.readyq == [])
      && Pools(n + 1).readyq == (if n == 1 then [Link(e.id, 5, 0, 5)] else q.readyq)
      && Pools(n + 1).free == (if n == 1 then [Dependent(n).id] + q.free else [Dependent(n).id, e.id] + q.free)
  {
  }

  lemma NextKnown(a: nat, result: bool, n: nat)
    requires n <= 2
    ensures var st, st' := Known(a, result, n), Known(a, result, n + 1); var d, t := 3 - n, 6 - n; var pc := 8 * d;
      && |st| == 7 && st[d] == Begun(Ea(pc, 2 * d, [Dependent(n)])) && InLsq(st[t]) && !st[t].queued && st[t].tag == 0
      && st[t].ready == (if n == 2 then [false, false, true] else [true, false, true])
      && (st[t].kind.Store? <==> n != 0) && (n == 1 ==> st[t].seqno == 5)
      && st' ==
        st[d := Finished(pc, 2 * d)]
          [t := if n == 1 then Queued(st[t].(ready := RDY))
                else st[t].(ready := if n == 2 then [false, true, true] else RDY)]
  {
  }

  lemma NextCleared(a: nat, result: bool, n: nat, f: Front, h: History, rs: Station)
    requires n <= 2 && rs.onames[0] == DTMP && !rs.spec
    ensures ClearCreator(Resolving(a, result, n, f, h).v, rs, 3 - n, 0) == Resolving(a, result, n + 1, f, h).v
  {
    var cv := Made(result, 4);
    assert cv[DTMP] == Creator(3, 0);
    assert cv[DTMP := NoCreator][DTMP] == NoCreator;
  }

  lemma PopHead(q: Queues, st: seq<Station>)
    requires q.events != [] && q.events[0].x <= q.now && Valid(st, q.events[0])
    ensures PopEvent(q, st) == Event(FreeLink(q.(events := q.events[1..]), q.events[0]), q.events[0])
  {
  }

  /** One address computation completes. */
  lemma ResolveStep(a: nat, result: bool, n: nat, f: Front, h: History)
    requires n <= 2
    ensures Sized(Resolving(a, result, n, f, h)) && Sized(Resolving(a, result, n + 1, f, h))
    ensures var c, s := Example(a, result), Resolving(a, result, n, f, h);
      Writeback(c, s) == Writeback(c, Resolving(a, result, n + 1, f, h))
  {
    hide Complete, Known, Pools, Made, PopEvent, WakeOne, ClearCreator, Example;
    var c, s, s' := Example(a, result), Resolving(a, result, n, f, h), Resolving(a, result, n + 1, f, h);
    NextDue(n);
    NextKnown(a, result, n);
    NextCleared(a, result, n, f, h, s.w.st[3 - n].(completed := true));
    PopHead(s.q, s.w.st);
    var s0 := s.(q := FreeLink(s.q.(events := s.q.events[1..]), s.q.events[0]));
    CompleteIs(c, s0, 3 - n, Dependent(n));
    Delivered(a, result, n, f, h, s0);
  }

  lemma Delivered(a: nat, result: bool, n: nat, f: Front, h: History, s: State)
    requires n <= 2 && |Pools(n).events| > 0 && |Known(a, result, n)| == 7
    requires s ==
      Resolving(a, result, n, f, h).(q := FreeLink(Pools(n).(events := Pools(n).events[1..]), Pools(n).events[0]))
    ensures Sized(s) && |Known(a, result, n + 1)| == 7
    ensures var rs := s.w.st[3 - n].(completed := true);
      WakeOne(s.(v := Resolving(a, result, n + 1, f, h).v, w := Put(s.w, 3 - n, rs.(odeps := [[], []]))),
        Dependent(n)) ==
        Ok(Resolving(a, result, n + 1, f, h))
  {
    hide Known, Pools, Made, WakeOne;
    NextDue(n);
    NextKnown(a, result, n);
    var e := Pools(n).events[0];
    var rs := s.w.st[3 - n].(completed := true);
    var s1 := s.(v := Resolving(a, result, n + 1, f, h).v, w := Put(s.w, 3 - n, rs.(odeps := [[], []])));
    var ready: Flags := if n == 2 then [false, true, true] else RDY;
    assert s1.w.st[6 - n].ready[1 := true] == ready;
    WakeIs(s1, Dependent(n), ready);
    assert ([e.id] + Pools(n).free)[1..] == Pools(n).free;
    assert [Dependent(n).id] + ([e.id] + Pools(n).free) == [Dependent(n).id, e.id] + Pools(n).free;
    assert WakeOne(s1, Dependent(n)).value.w.st == Known(a, result, n + 1);
    assert WakeOne(s1, Dependent(n)).value.q == Pools(n + 1);
  }

  /** The fourth cycle begins with all address computations completing. */
  lemma AllResolved(a: nat, result: bool, f: Front, h: History)
    ensures Sized(Resolving(a, result, 0, f, h)) &&
      Writeback(Example(a, result), Resolving(a, result, 0, f, h)) == Ok(Resolving(a, result, 3, f, h))
  {
    hide Writeback, Known, Pools, Made;
    ResolveStep(a, result, 0, f, h);
    ResolveStep(a, result, 1, f, h);
    ResolveStep(a, result, 2, f, h);
    NoneDue(a, result, f, h);
  }

  lemma NoneDue(a: nat, result: bool, f: Front, h: History)
    ensures var s := Resolving(a, result, 3, f, h); Sized(s) && Writeback(Example(a, result), s) == Ok(s)
  {
    hide Known, Made;
    KnownSized(a, result, 3);
  }

  lemma KnownSized(a: nat, result: bool, n: nat)
    ensures |Known(a, result, n)| == 7
  {
  }

  lemma NothingCommits(a: nat, result: bool, f: Front, h: History)
    ensures var s := Resolving(a, result, 0, f, h); Sized(s) && Commit(s, 4, Answers().ports) == Ok(s)
  {
    hide Made;
    assert !Resolving(a, result, 0, f, h).w.st[0].completed;
  }

  /** The scan records the address of the first store, overwrites it by zero at the second, and skips the load. */
  lemma NothingReleased(a: nat, result: bool, f: Front, h: History)
    requires a != 0
    ensures var s := Resolving(a, result, 3, f, h); Sized(s) && Refresh(s) == Ok(s)
  {
    hide Made, ScanOne;
    var s := Resolving(a, result, 3, f, h);
    KnownSized(a, result, 3);
    Scans(a, result, f, h);
    assert RefreshFrom(s, 3, [0]) == Ok(s);
    assert RefreshFrom(s, 2, [0]) == Ok(s);
    assert RefreshFrom(s, 1, [a]) == Ok(s);
  }

  lemma Scans(a: nat, result: bool, f: Front, h: History)
    requires a != 0
    ensures var s := Resolving(a, result, 3, f, h);
      && Ring(s.w) && s.w.ln == 3
      && ScanOne(s, 0, []) == Ok(Scan(s, [a], true)) && ScanOne(s, 1, [a]) == Ok(Scan(s, [0], true)) &&
        ScanOne(s, 2, [0]) == Ok(Scan(s, [0], true))
  {
    hide Made;
    var s := Resolving(a, result, 3, f, h);
    assert s.w.st[4] == First(a).(ready := [false, true, true]);
    assert s.w.st[5] == Queued(Second(a, result).(ready := RDY));
    assert s.w.st[6] == Held().(ready := RDY);
    assert Hide([a], a) == [0];
    assert [] + [a] == [a];
  }

  // ---------------------------------------------------------------- the run

  lemma TickLoaded(a: nat, result: bool) returns (f: Front)
    ensures FetchAndTick(Example(a, result), Dispatched(a, result, 4, Left(4), Past(4)), Answers().fetches) ==
      Loaded(a, result, f, Past(4))
  {
    hide Fetch, Stations, Made, Past;
    f := FetchAndTick(Example(a, result), Dispatched(a, result, 4, Left(4), Past(4)), Answers().fetches).f;
  }

  lemma TickExecuting(a: nat, result: bool, f: Front, h: History) returns (f': Front)
    ensures FetchAndTick(Example(a, result), Executing(a, result, 4, f, h), Answers().fetches) ==
      Resolving(a, result, 0, f', h)
  {
    hide Fetch, Made;
    f' := FetchAndTick(Example(a, result), Executing(a, result, 4, f, h), Answers().fetches).f;
    assert Running(a, result, 4) == Known(a, result, 0);
  }

  function Cycles(n: nat): seq<Inputs> { seq(n, _ => Answers()) }

  lemma OneMore(c: Config, n: nat, s: State)
    requires c.nr > 0 && c.nl > 0 && Run(c, Cycles(n)) == Ok(s)
    ensures Sized(s) && Run(c, Cycles(n + 1)) == Cycle(c, s, Answers())
  {
    hide Cycle, Answers;
    assert Cycles(n + 1)[..n] == Cycles(n);
  }

  /** After three cycles the address computations are about to complete. */
  lemma ThreeCycles(a: nat, result: bool) returns (f: Front)
    ensures Run(Example(a, result), Cycles(3)) == Ok(Resolving(a, result, 0, f, Past(4)))
  {
    hide Cycle, Initial, FetchAndTick, Past, Cycles, Dispatched, Loaded, Executing, Resolving, Start0, Run;
    var c := Example(a, result);
    RunNone(c);
    InitialIs(a, result);
    OneMore(c, 0, Start0(a, result));
    FirstCycle(a, result);
    OneMore(c, 1, Dispatched(a, result, 0, Left(0), Past(0)));
    SecondCycle(a, result);
    var f2 := TickLoaded(a, result);
    OneMore(c, 2, Loaded(a, result, f2, Past(4)));
    ThirdCycle(a, result, f2, Past(4));
    f := TickExecuting(a, result, f2, Past(4));
  }

  lemma RunNone(c: Config)
    requires c.nr > 0 && c.nl > 0
    ensures Run(c, Cycles(0)) == Ok(Initial(c))
  {
    hide Initial;
  }

  /** A store that names an output register makes the simulator stop. */
  lemma StoreResultStops(a: nat)
    requires a != 0
    ensures Run(Example(a, true), Cycles(4)) == Outcome.Panic(StoreCreatesResult)
  {
    hide Initial, Cycles, Run, Commit, Writeback, Refresh, Issue, Known, Pools, Made, Past, Answers;
    var c := Example(a, true);
    var f := ThreeCycles(a, true);
    OneMore(c, 3, Resolving(a, true, 0, f, Past(4)));
    NothingCommits(a, true, f, Past(4));
    AllResolved(a, true, f, Past(4));
    NothingReleased(a, true, f, Past(4));
    ResultStops(a, f, Past(4));
  }

  lemma ResultStops(a: nat, f: Front, h: History)
    ensures var s := Resolving(a, true, 3, f, h);
      Sized(s) && Issue(s, 4, Answers().units) == Outcome.Panic(StoreCreatesResult)
  {
    hide Made;
    var s := Resolving(a, true, 3, f, h);
    assert s.w.st[5] == Queued(Second(a, true).(ready := RDY));
    assert s.q.readyq[0] == Link(3, 5, 0, 5);
  }

  // ---------------------------------------------------------------- the load

  lemma EntriesAre(a: nat, f: Front, h: History)
    ensures var w := Resolving(a, false, 3, f, h).w;
      && Ring(w) && w.ln == 3
      && LsqStation(w, 0) == First(a).(ready := [false, true, true])
      && LsqStation(w, 1) == Queued(Second(a, false).(ready := RDY))
      && LsqStation(w, 2) == Held().(ready := RDY)
  {
    hide Made;
  }

  lemma EntriesOrdered(a: nat, f: Front, h: History)
    ensures var w := Resolving(a, false, 3, f, h).w; Ring(w) && OrderedLsq(w)
  {
    hide Made;
    var w := Resolving(a, false, 3, f, h).w;
    forall t | LiveL(w, t) ensures w.st[t].seqno == 2 * RingPos(w.lh, w.nl, t - w.nr) + 3 {
      assert t == 4 || t == 5 || t == 6;
    }
    hide RingPos, Known;
  }

  lemma LoadIsHeld(a: nat, f: Front, h: History)
    requires a != 0
    ensures var w := Resolving(a, false, 3, f, h).w; Ring(w) && w.ln == 3 && HeldBack(w, 2) && Candidate(w, 2)
  {
    hide LsqStation, RingPos, Resolving;
    var w := Resolving(a, false, 3, f, h).w;
    EntriesAre(a, f, h);
    assert LastStore(w, a, 1) == 0;
    assert LastStore(w, 0, 2) == -1;
    assert DataUnknown(w, a, 1) && ZeroRecorded(w, 2) && !DataUnknown(w, 0, 2);
  }

  /**
   * In this run, which no error stops before, lsq_refresh finds the load with all its operands: the
   * second store cancels the record of the first by writing zero over it, and the load, which no
   * store can affect, is not released.
   */
  lemma ZeroAddressIsHeldBack(a: nat)
    requires a != 0
    ensures var c := Example(a, false); var r := Run(c, Cycles(3));
      && c.Valid() && r.Ok? && Commit(r.value, c.commitWidth, Answers().ports) == r && Writeback(c, r.value).Ok?
      && var s := Writeback(c, r.value).value;
      && s.w.ln == 3 && Candidate(s.w, 2) && !Released(s.w, 2)
      && MemoryClear(s.w, LsqStation(s.w, 2).addr, LsqStation(s.w, 2).seqno) && Refresh(s) == Ok(s)
  {
    hide Initial, Cycles, Run, Commit, Writeback, Refresh, Known, Pools, Made, Past, Answers, LsqStation, MemoryClear,
         Released, HeldBack, OrderedLsq, Candidate;
    ExampleValid(a, false);
    var f := ThreeCycles(a, false);
    NothingCommits(a, false, f, Past(4));
    AllResolved(a, false, f, Past(4));
    NothingReleased(a, false, f, Past(4));
    LoadIsHeld(a, f, Past(4));
    EntriesOrdered(a, f, Past(4));
    ReleasedIsClear(Resolving(a, false, 3, f, Past(4)).w, 2);
  }
}
