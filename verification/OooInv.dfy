/**
 * Invariants of the out-of-order core, each over the part of the state it is about.
 */
module OooInv {
  import opened OooTypes
  import opened OooStages

  // ---------------------------------------------------------------- counting links

  /** Number of links to instance `tag` of `slot`. */
  ghost function Cnt(q: seq<Link>, slot: int, tag: int): nat {
    if q == [] then 0
    else (if q[0].slot == slot && q[0].tag == tag then 1 else 0) + Cnt(q[1..], slot, tag)
  }

  /** Number of links to operand `x` of instance `tag` of `slot`. */
  ghost function CntOp(q: seq<Link>, slot: int, tag: int, x: int): nat {
    if q == [] then 0
    else (if q[0].slot == slot && q[0].tag == tag && q[0].x == x then 1 else 0) + CntOp(q[1..], slot, tag, x)
  }

  /** Links name existing slots and no instance that does not exist yet. */
  ghost predicate TagsOk(q: seq<Link>, st: seq<Station>) {
    forall k :: 0 <= k < |q| ==> q[k].slot < |st| && q[k].tag <= st[q[k].slot].tag
  }

  // ---------------------------------------------------------------- program order

  /** RUU entries are in program order. */
  ghost predicate OrderedRuu(w: Window)
    requires Ring(w)
  {
    forall s, t :: LiveR(w, s) && LiveR(w, t) && RingPos(w.rh, w.nr, s) < RingPos(w.rh, w.nr, t)
      ==> w.st[s].seqno < w.st[t].seqno
  }

  /** LSQ entries are in program order. */
  ghost predicate OrderedLsq(w: Window)
    requires Ring(w)
  {
    forall s, t :: LiveL(w, s) && LiveL(w, t) && RingPos(w.lh, w.nl, s - w.nr) < RingPos(w.lh, w.nl, t - w.nr)
      ==> w.st[s].seqno < w.st[t].seqno
  }

  /** Sequence numbers are unique and handed out in order. */
  ghost predicate Numbered(w: Window)
    requires Ring(w)
  {
    && (forall s :: Live(w, s) ==> w.st[s].seqno <= w.lastSeq)
    && (forall s, t :: Live(w, s) && Live(w, t) && s != t ==> w.st[s].seqno != w.st[t].seqno)
  }

  /** Each buffer holds its own kinds of operation; loads and stores never start mis-speculation. */
  ghost predicate KindsOk(w: Window)
    requires Ring(w)
  {
    && (forall s :: LiveR(w, s) ==> !InLsq(w.st[s]))
    && (forall s :: LiveL(w, s) ==> InLsq(w.st[s]) && !w.st[s].recover)
    && (forall s :: LiveR(w, s) && w.st[s].kind.Addr? ==> !w.st[s].recover)
  }

  ghost predicate Ordered(w: Window)
    requires Ring(w)
  {
    OrderedRuu(w) && OrderedLsq(w) && Numbered(w) && KindsOk(w)
  }

  /** Slots of the address computations among `n` RUU entries from `head`, oldest first. */
  ghost function EaSlots(st: seq<Station>, nr: nat, head: nat, n: nat): (r: seq<nat>)
    requires head < nr <= |st|
    ensures |r| <= n && forall k :: 0 <= k < |r| ==> r[k] < nr
    decreases n
  {
    if n == 0 then []
    else (if st[head].kind.Addr? then [head] else []) + EaSlots(st, nr, Wrap(head + 1, nr), n - 1)
  }

  function LsqSlot(w: Window, k: nat): (r: int)
    requires Ring(w) && k < w.nl
    ensures w.nr <= r < |w.st|
  {
    w.nr + Wrap(w.lh + k, w.nl)
  }

  /** The k-th address computation and the k-th LSQ entry are halves of one instruction. */
  ghost predicate Paired(w: Window)
    requires Ring(w)
  {
    var ea := EaSlots(w.st, w.nr, w.rh, w.rn);
    && |ea| == w.ln
    && forall k :: 0 <= k < w.ln ==> w.st[LsqSlot(w, k)].seqno == w.st[ea[k]].seqno + 1
  }

  // ---------------------------------------------------------------- speculation

  /** An operation at which mis-speculation started and that has not completed. */
  predicate Pending(w: Window, b: int)
    requires Ring(w)
  {
    LiveR(w, b) && w.st[b].recover && !w.st[b].completed
  }

  /** spec_mode is on exactly while a mispredicted operation is pending; younger ones are speculative. */
  ghost predicate SpecOk(w: Window, specMode: bool)
    requires Ring(w)
  {
    && (forall b :: Pending(w, b) ==> specMode)
    && (specMode ==> exists b :: Pending(w, b))
    && (forall b, s :: Pending(w, b) && Live(w, s) ==> (w.st[s].spec <==> w.st[s].seqno > w.st[b].seqno))
    && (!specMode ==> forall s :: Live(w, s) ==> !w.st[s].spec)
    && (forall s :: Live(w, s) && w.st[s].recover ==> !w.st[s].spec)
  }

  // ---------------------------------------------------------------- dependences

  /** Output `i` of the live operation in `p` creates register `n`. */
  predicate Writes(w: Window, p: int, i: int, n: Reg)
    requires Ring(w)
  {
    Live(w, p) && 0 <= i < 2 && w.st[p].onames[i] == n
  }

  /** Program-order rank of output `i` of `p`. */
  function Rank(w: Window, p: int, i: int): int
    requires Ring(w) && Live(w, p)
  {
    2 * w.st[p].seqno + i
  }

  /** Output `i` of `p` is the youngest live creation of `n` before sequence number `before`. */
  ghost predicate Youngest(w: Window, n: Reg, before: int, p: int, i: int)
    requires Ring(w)
  {
    && Writes(w, p, i, n) && w.st[p].seqno < before
    && forall p', i' :: Writes(w, p', i', n) && w.st[p'].seqno < before ==> Rank(w, p', i') <= Rank(w, p, i)
  }

  /**
   * Output `i` of `p` has been delivered.  While the results of `x` are being broadcast, those of
   * its outputs numbered `e` and up count as not delivered yet; `e == 2` exempts nothing.
   */
  predicate Done(w: Window, x: int, e: int, p: int, i: int)
    requires 0 <= p < |w.st|
  {
    w.st[p].completed && !(p == x && i >= e)
  }

  /** Operand `j` of `s` waits for output `i` of `p`. */
  ghost predicate Waits(w: Window, s: int, j: int, p: int, i: int)
    requires Ring(w) && 0 <= j < 3
  {
    Live(w, s) && !w.st[s].ready[j] && Youngest(w, w.st[s].inames[j], w.st[s].seqno, p, i)
  }

  /** Operand `j` of `s` may be ready: its youngest older creator, if any, has delivered. */
  ghost predicate Delivered(w: Window, x: int, e: int, s: int, j: int)
    requires Ring(w) && 0 <= j < 3 && Live(w, s)
  {
    w.st[s].inames[j] != NA ==>
      forall p, i :: Youngest(w, w.st[s].inames[j], w.st[s].seqno, p, i) ==> Done(w, x, e, p, i)
  }

  /** Operand `j` of `s` is waited for at some live creator. */
  ghost predicate HasSource(w: Window, s: int, j: int)
    requires Ring(w) && 0 <= j < 3 && Live(w, s)
  {
    w.st[s].inames[j] != NA && exists p, i :: Youngest(w, w.st[s].inames[j], w.st[s].seqno, p, i)
  }

  /** Chain `i` of `p` holds one valid link for each operand that waits for it, and no other. */
  ghost predicate ChainOk(w: Window, x: int, e: int, p: int, i: int)
    requires Ring(w) && 0 <= p < |w.st| && 0 <= i < 2
  {
    var chain := w.st[p].odeps[i];
    && (chain != [] ==> Live(w, p) && w.st[p].onames[i] != NA && !Done(w, x, e, p, i))
    && TagsOk(chain, w.st)
    && (forall k :: 0 <= k < |chain| ==> chain[k].x < 3)
    && (forall s, j :: 0 <= s < |w.st| && 0 <= j < 3 ==>
          CntOp(chain, s, w.st[s].tag, j) == if Waits(w, s, j, p, i) then 1 else 0)
  }

  /** An operand is ready exactly when its youngest older creator has delivered. */
  ghost predicate OperandsOk(w: Window, x: int, e: int)
    requires Ring(w)
  {
    && (forall s, j :: Live(w, s) && 0 <= j < 3 && w.st[s].ready[j] ==> Delivered(w, x, e, s, j))
    && (forall s, j :: Live(w, s) && 0 <= j < 3 && !w.st[s].ready[j] ==> HasSource(w, s, j))
    && (forall p, i :: 0 <= p < |w.st| && 0 <= i < 2 ==> ChainOk(w, x, e, p, i))
  }

  /** Output `i` of `p` is the youngest creation of `n` among operations of class `spec`. */
  ghost predicate YoungestIn(w: Window, n: Reg, spec: bool, p: int, i: int)
    requires Ring(w)
  {
    && Writes(w, p, i, n) && w.st[p].spec == spec
    && forall p', i' :: Writes(w, p', i', n) && w.st[p'].spec == spec ==> Rank(w, p', i') <= Rank(w, p, i)
  }

  /** `c` names the youngest creator of `n` in class `spec` if it has not delivered, else nothing. */
  ghost predicate Names(w: Window, x: int, e: int, n: Reg, spec: bool, c: Creator)
    requires Ring(w)
  {
    match c
    case Creator(p, i) => YoungestIn(w, n, spec, p, i) && !Done(w, x, e, p, i)
    case NoCreator => forall p, i :: YoungestIn(w, n, spec, p, i) ==> Done(w, x, e, p, i)
  }

  /** Some live speculative operation creates `n`. */
  ghost predicate SpecWriter(w: Window, n: Reg)
    requires Ring(w)
  {
    exists p, i :: Writes(w, p, i, n) && w.st[p].spec
  }

  /** Both create vectors are right for their class, and the copy-on-write bits mark speculative creators. */
  ghost predicate VectorsOk(w: Window, v: Vectors, x: int, e: int)
    requires Ring(w)
  {
    && |v.cv| == |v.scv| == TOTAL_REGS
    && (forall n: Reg :: n != NA ==> Names(w, x, e, n, false, v.cv[n]))
    && (forall n: Reg :: n != NA && n in v.useSpec ==> Names(w, x, e, n, true, v.scv[n]) && SpecWriter(w, n))
    && (forall n: Reg :: n != NA && n !in v.useSpec ==> !SpecWriter(w, n))
  }

  // ---------------------------------------------------------------- life cycle

  /** The phases of a live operation exclude each other. */
  predicate PhaseOk(rs: Station) {
    && (rs.queued ==> OpsReady(rs) && !rs.issued)
    && (rs.issued ==> OpsReady(rs))
    && (rs.completed ==> rs.issued)
    && (rs.kind.Store? && rs.issued ==> rs.completed)
  }

  /**
   * The operation in `s`, if live, has one valid ready-queue node iff queued and one valid event
   * iff executing; a slot outside the window has none.  `pend` holds ready nodes that issue has
   * taken off the queue.
   */
  ghost predicate SlotOk(w: Window, q: Queues, pend: seq<Link>, s: int)
    requires Ring(w) && 0 <= s < |w.st|
  {
    var rs := w.st[s];
    && Cnt(q.readyq, s, rs.tag) + Cnt(pend, s, rs.tag) == (if Live(w, s) && rs.queued then 1 else 0)
    && Cnt(q.events, s, rs.tag) == (if Live(w, s) && rs.issued && !rs.completed then 1 else 0)
    && (Live(w, s) ==> PhaseOk(rs))
  }

  ghost predicate LifeOk(w: Window, q: Queues, pend: seq<Link>)
    requires Ring(w)
  {
    && TagsOk(q.readyq, w.st) && TagsOk(pend, w.st) && TagsOk(q.events, w.st)
    && forall s :: 0 <= s < |w.st| ==> SlotOk(w, q, pend, s)
  }

  /** Whatever has its register operands is on its way, except loads, which lsq_refresh releases. */
  ghost predicate ProgressOk(w: Window)
    requires Ring(w)
  {
    forall s :: Live(w, s) && OpsReady(w.st[s]) && !w.st[s].kind.Load? ==> w.st[s].queued || w.st[s].issued
  }

  ghost predicate SortedBy(q: seq<Link>) {
    forall i, j :: 0 <= i < j < |q| ==> q[i].x <= q[j].x
  }

  /** Events are sorted and none is due before cycle `from`. */
  ghost predicate EventsOk(q: Queues, from: nat) {
    SortedBy(q.events) && forall k :: 0 <= k < |q.events| ==> from <= q.events[k].x
  }

  // ---------------------------------------------------------------- memory order

  /** `t` is a live store older than sequence number `before`. */
  predicate OlderStore(w: Window, t: int, before: int)
    requires Ring(w)
  {
    LiveL(w, t) && w.st[t].kind.Store? && w.st[t].seqno < before
  }

  /** `t` is the youngest live store to `addr` older than `before`. */
  ghost predicate YoungestStore(w: Window, t: int, addr: int, before: int)
    requires Ring(w)
  {
    && OlderStore(w, t, before) && w.st[t].addr == addr
    && forall u :: OlderStore(w, u, before) && w.st[u].addr == addr ==> w.st[u].seqno <= w.st[t].seqno
  }

  /** No older store can still affect a load of `addr` with sequence number `before`. */
  ghost predicate MemoryClear(w: Window, addr: int, before: int)
    requires Ring(w)
  {
    && (forall t :: OlderStore(w, t, before) ==> w.st[t].ready[1])
    && (forall t :: YoungestStore(w, t, addr, before) ==> OpsReady(w.st[t]))
  }

  /** A load is queued or executing only when no older store can affect it. */
  ghost predicate LoadsOk(w: Window)
    requires Ring(w)
  {
    forall s :: LiveL(w, s) && w.st[s].kind.Load? && (w.st[s].queued || w.st[s].issued)
      ==> MemoryClear(w, w.st[s].addr, w.st[s].seqno)
  }

  // ---------------------------------------------------------------- link conservation

  /** Occurrences of link record `id` in a list. */
  ghost function IdCnt(q: seq<Link>, id: nat): nat {
    if q == [] then 0 else (if q[0].id == id then 1 else 0) + IdCnt(q[1..], id)
  }

  ghost function FreeCnt(free: seq<nat>, id: nat): nat {
    if free == [] then 0 else (if free[0] == id then 1 else 0) + FreeCnt(free[1..], id)
  }

  ghost function StationCnt(rs: Station, id: nat): nat {
    IdCnt(rs.odeps[0], id) + IdCnt(rs.odeps[1], id)
  }

  ghost function ChainCnt(st: seq<Station>, id: nat): nat {
    if st == [] then 0 else StationCnt(st[0], id) + ChainCnt(st[1..], id)
  }

  /** Occurrences of link record `id` anywhere: free list, both queues, all output chains. */
  ghost function LinkCnt(w: Window, q: Queues, id: nat): nat {
    FreeCnt(q.free, id) + IdCnt(q.events, id) + IdCnt(q.readyq, id) + ChainCnt(w.st, id)
  }

  // ---------------------------------------------------------------- histories

  /** The right-path operations among `n` RUU entries from `head`. */
  ghost function RightPath(st: seq<Station>, nr: nat, head: nat, n: nat): seq<Entry>
    requires head < nr <= |st|
    decreases n
  {
    if n == 0 then []
    else (if st[head].spec then []
      else [Entry(st[head].seqno, st[head].pc)]) + RightPath(st, nr, Wrap(head + 1, nr), n - 1)
  }

  /** Right-path operations are retired or in the RUU, in order; none is ever lost. */
  ghost predicate HistoryOk(w: Window, h: History)
    requires Ring(w)
  {
    h.dispatched == h.retired + RightPath(w.st, w.nr, w.rh, w.rn)
  }

  // ---------------------------------------------------------------- the sequential machine

  datatype Machine = Machine(pc: nat, vals: Values)

  /** One instruction at a time: the machine the core must agree with. */
  ghost function SeqRun(c: Config, n: nat): Machine {
    if n == 0 then Machine(c.entry, c.init) else
    var m := SeqRun(c, n - 1);
    var eff := c.exec(c.Inst(m.pc), m.pc, m.vals);
    Machine(eff.next, m.vals + eff.writes)
  }

  /** Where fetch will find the next instruction to dispatch. */
  function NextPC(f: Front): nat {
    if f.fq == [] then f.fetchPC else f.fq[0].pc
  }

  /** The fetch queue is a chain of predictions. */
  ghost predicate FetchOk(c: Config, f: Front) {
    && (forall k :: 0 <= k < |f.fq| ==> f.fq[k].ir == c.Inst(f.fq[k].pc))
    && (forall k :: 0 <= k < |f.fq| ==> c.decode(f.fq[k].ir).ctrl || f.fq[k].pred == Config.Fall(f.fq[k].pc))
    && (forall k :: 1 <= k < |f.fq| ==> f.fq[k].pc == f.fq[k - 1].pred)
    && (f.fq != [] ==> f.fq[|f.fq| - 1].pred == f.fetchPC)
  }

  ghost function Pcs(es: seq<Entry>): seq<nat> {
    seq(|es|, i requires 0 <= i < |es| => es[i].pc)
  }

  /** The PCs of a trace at which there is an instruction other than NOP. */
  ghost function Effective(c: Config, path: seq<nat>): seq<nat> {
    if path == [] then [] else
    var last := path[|path| - 1];
    Effective(c, path[..|path| - 1]) + (if c.decode(c.Inst(last)).nop then [] else [last])
  }

  /** Precise state and right-path trace are those of the sequential machine. */
  ghost predicate FrontOk(c: Config, f: Front, h: History) {
    var m := SeqRun(c, |h.path|);
    && FetchOk(c, f)
    && f.arch == m.vals
    && (forall k :: 0 <= k < |h.path| ==> h.path[k] == SeqRun(c, k).pc)
    && Pcs(h.dispatched) == Effective(c, h.path)
    && (f.specMode ==> f.recoverPC == m.pc)
    && (!f.specMode ==> f.overlay == map[] && NextPC(f) == m.pc)
  }

  // ---------------------------------------------------------------- all together

  /** Program order, speculation, dependences and histories. */
  ghost predicate BodyOk(s: State, x: int, e: int) {
    && Ring(s.w) && Ordered(s.w) && Paired(s.w) && SpecOk(s.w, s.f.specMode)
    && VectorsOk(s.w, s.v, x, e) && OperandsOk(s.w, x, e) && HistoryOk(s.w, s.h)
  }

  /** Scheduling: life cycle, progress, memory order and the event queue. */
  ghost predicate FlowOk(w: Window, q: Queues, pend: seq<Link>, from: nat)
    requires Ring(w)
  {
    LifeOk(w, q, pend) && ProgressOk(w) && LoadsOk(w) && EventsOk(q, from)
  }

  /** Each of the pool's link records is in exactly one place. */
  ghost predicate LinksOk(c: Config, w: Window, q: Queues) {
    forall id: nat :: LinkCnt(w, q, id) == if id < c.links then 1 else 0
  }

  /** The invariant of the core between stages; no event is due before cycle `from`. */
  ghost predicate CoreOk(c: Config, s: State, from: nat) {
    && BodyOk(s, 0, 2) && FlowOk(s.w, s.q, [], from) && LinksOk(c, s.w, s.q) && FrontOk(c, s.f, s.h)
    && s.w.nr == c.nr && s.w.nl == c.nl
  }
}
