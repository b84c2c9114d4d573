/**
 * State of the out-of-order core (sim-outorder.c): reservation stations, tagged links,
 * event and ready queues, create vectors, front end, and the configuration it runs under.
 */
module OooTypes {
  import opened Common

  /** Number of architected register names (integer, FP, HI, LO, FCC, TMP, MEM, CTRL). */
  const TOTAL_REGS: nat := 70

  /** The "no register" name, which is also integer register zero. */
  const NA: Reg := 0

  /** Reserved name that carries an effective address from the RUU half to the LSQ half. */
  const DTMP: Reg := 67

  const MAX_STD_UNKNOWNS: nat := 64
  const ADDR_SPACE: nat := 0x1_0000_0000

  type Reg = r: nat | r < 70 witness 0
  type Latency = n: nat | n >= 1 witness 1

  /**
   * One RS_link record.  `id` is the identity of the record, so that conservation of the pool
   * can be stated; `x` is the source's union of event time, sequence number and operand number.
   */
  datatype Link = Link(id: nat, slot: nat, tag: nat, x: nat)

  type Outs = s: seq<Reg> | |s| == 2 witness [0, 0]
  type Ins = s: seq<Reg> | |s| == 3 witness [0, 0, 0]
  type Flags = s: seq<bool> | |s| == 3 witness [true, true, true]
  type Chains = s: seq<seq<Link>> | |s| == 2 witness [[], []]

  /** What a station holds: a plain operation, an address computation, or an LSQ operation. */
  datatype Kind = Alu | Addr | Load | Store

  /**
   * An RUU or LSQ station.  `inames` (the input register names) is not kept by the simulator;
   * it is a history variable that lets dependences be stated.
   */
  datatype Station = Station(
    kind: Kind, pc: nat, nextPC: nat, predPC: nat,
    urgent: bool, noUnit: bool,
    recover: bool, spec: bool, addr: nat, tag: nat, seqno: nat,
    queued: bool, issued: bool, completed: bool,
    onames: Outs, odeps: Chains, inames: Ins, ready: Flags)

  predicate OpsReady(rs: Station) {
    rs.ready[0] && rs.ready[1] && rs.ready[2]
  }

  predicate InLsq(rs: Station) {
    rs.kind.Load? || rs.kind.Store?
  }

  /**
   * The two circular buffers.  Slots below `nr` are the RUU, slots `nr .. nr + nl` the LSQ, so a
   * slot number plays the part of a station pointer.  LSQ ring indices are relative to `nr`.
   */
  datatype Window = Window(
    st: seq<Station>, nr: nat, nl: nat,
    rh: nat, rt: nat, rn: nat,
    lh: nat, lt: nat, ln: nat,
    lastSeq: nat)

  /** The link pool and the two queues made from it, and the current cycle. */
  datatype Queues = Queues(free: seq<nat>, events: seq<Link>, readyq: seq<Link>, now: nat)

  datatype Creator = NoCreator | Creator(slot: nat, odep: nat)

  /** Create vector with its speculative copy-on-write shadow. */
  datatype Vectors = Vectors(cv: seq<Creator>, scv: seq<Creator>, useSpec: set<Reg>)

  datatype Loc = Register(n: nat) | Memory(a: nat)
  type Values = map<Loc, int>

  datatype Fetched = Fetched(ir: nat, pc: nat, pred: nat)

  /** Trace generator and fetch stage. */
  datatype Front = Front(
    specMode: bool, recoverPC: nat, arch: Values, overlay: Values,
    fq: seq<Fetched>, fetchPC: nat, delay: nat)

  /**
   * Histories: program counters executed with spec_mode off, the operations they put in the RUU,
   * and the operations retired.
   */
  datatype History = History(path: seq<nat>, dispatched: seq<Entry>, retired: seq<Entry>)

  /** An instruction as the histories record it. */
  datatype Entry = Entry(seqno: nat, pc: nat)

  datatype State = State(w: Window, q: Queues, v: Vectors, f: Front, h: History)

  datatype Mem = NoMem | LoadOp | StoreOp

  /** Decoded instruction: the flags the core looks at and the register names. */
  datatype Op = Op(
    nop: bool, ctrl: bool, dirJump: bool, trap: bool, longLat: bool, noUnit: bool,
    mem: Mem, outs: Outs, ins: Ins)

  /** What executing one instruction does: next PC, direct target, effective address, writes. */
  datatype Effect = Effect(next: nat, target: nat, addr: nat, writes: Values)

  /**
   * Program, instruction set and options.  `exec` is the instruction semantics, applied to the
   * values the accessors show.
   */
  datatype Config = Config(
    nr: nat, nl: nat, links: nat, ifq: nat,
    textBase: nat, textSize: nat, text: nat -> nat, nopInst: nat, entry: nat, init: Values,
    decode: nat -> Op, exec: (nat, nat, Values) -> Effect,
    perfect: bool, includeSpec: bool, branchPenalty: nat,
    commitWidth: nat, issueWidth: nat, decodeWidth: nat, fetchSpeed: nat)
  {
    /** Address of the next instruction in memory. */
    static function Fall(pc: nat): nat {
      (pc + INST_SIZE) % ADDR_SPACE
    }

    predicate InText(pc: nat) {
      textBase <= pc < textBase + textSize && pc % INST_SIZE == 0
    }

    /** The instruction fetched at `pc`: program text, or a NOP when `pc` is bogus. */
    function Inst(pc: nat): nat {
      if InText(pc) then text(pc) else nopInst
    }

    /**
     * What the core relies on: non-empty buffers, and an instruction set in which only control
     * instructions, which NOP, loads and stores are not, can leave the fall-through path.
     */
    ghost predicate Valid() {
      && nr > 0 && nl > 0 && ifq > 0
      && decode(nopInst).nop
      && (forall i :: decode(i).nop || !decode(i).mem.NoMem? ==> !decode(i).ctrl)
      && (forall i, pc, vals :: !decode(i).ctrl ==> exec(i, pc, vals).next == Fall(pc))
    }
  }

  /** The simulator's fatal stops. */
  datatype Panic =
    | OutOfLinks | WildLink
    | AlreadyQueued | EventCompleted
    | OutOfSync | RetiredOdeps | RuuBelowLsq
    | EmptyRuu | HeadAndTailBroken
    | CompletedNotReady | MispredictedMem | AlreadySatisfied
    | StdUnknownOverflow
    | IssuedNotReady | StoreCreatesResult | MispredictedStore
    | CannotRecover | DrainedAndSpeculative | NullStation

  datatype Outcome<T> = Ok(value: T) | Panic(panic: Panic) {
    predicate IsFailure() { Panic? }
    function PropagateFailure<U>(): Outcome<U>
      requires Panic?
    {
      Outcome.Panic(panic)
    }
    function Extract(): T
      requires Ok?
    {
      value
    }
  }

  /** Outcome of one iteration of a stage loop that may decide to stop. */
  datatype Step = Stop | Next(s: State) | Halt(panic: Panic)
}
