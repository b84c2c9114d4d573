/**
 * The branch target buffer and the return-address stack of bpred.c, driven as sim-bpred.c drives
 * them: every branch is looked up and then updated.  Predicted directions are an input.
 */
module BpredModel {
  import opened Common
  import M = CacheModel
  import P = CacheProofs
  import L = CacheLru

  /** Sizes given to bpred_create; a return stack of size zero is not used. */
  datatype Config = Config(nsets: nat, assoc: nat, depth: nat) {
    predicate Valid() {
      nsets > 0 && assoc > 0
    }
  }

  /** One bpred_btb_ent; an address of zero marks an entry never used. */
  datatype Ent = Ent(addr: nat, target: nat)

  /** One BTB set: its entries as allocated, and their order in the LRU list. */
  datatype Btb = Btb(ents: seq<Ent>, ways: seq<nat>)

  datatype Predictor = Predictor(sets: seq<Btb>, stack: seq<nat>, tos: nat)

  /**
   * A branch as the driver meets it: its address, where it actually goes, whether it is
   * unconditional, a call, or a return through register 31, and the direction predicted for it.
   */
  datatype Branch = Branch(addr: nat, next: nat, uncond: bool, call: bool, ret: bool, dir: bool)

  function Fall(br: Branch): nat { br.addr + INST_SIZE }

  predicate Taken(br: Branch) { br.next != Fall(br) }

  /** The return stack serves this branch. */
  predicate UsesStack(c: Config, br: Branch) { br.ret && c.depth > 0 }

  ghost predicate BtbOk(c: Config, s: Btb) {
    && |s.ents| == c.assoc && P.Permutes(s.ways, c.assoc)
    && (forall a, b :: 0 <= a < b < |s.ents| && s.ents[a].addr != 0 ==> s.ents[a].addr != s.ents[b].addr)
    && forall j, k :: 0 <= j < k < |s.ways| && s.ents[s.ways[k]].addr != 0 ==> s.ents[s.ways[j]].addr != 0
  }

  /** Every LRU list names every entry of its set once, and the top of the stack is a slot of it. */
  ghost predicate Sized(c: Config, p: Predictor) {
    && c.Valid() && |p.sets| == c.nsets && |p.stack| == c.depth && (c.depth > 0 ==> p.tos < c.depth)
    && forall i :: 0 <= i < |p.sets| ==> |p.sets[i].ents| == c.assoc && P.Permutes(p.sets[i].ways, c.assoc)
  }

  function SetOf(c: Config, addr: nat): (r: nat)
    requires c.nsets > 0
    ensures r < c.nsets
  {
    addr / INST_SIZE % c.nsets
  }

  /** The first entry from `k` on that tracks `addr`. */
  function Find(ents: seq<Ent>, addr: nat, k: nat): (r: Option<nat>)
    requires k <= |ents|
    ensures match r
      case Some(b) => k <= b < |ents| && ents[b].addr == addr
      case None => forall j :: k <= j < |ents| ==> ents[j].addr != addr
    decreases |ents| - k
  {
    if k == |ents| then None else if ents[k].addr == addr then Some(k) else Find(ents, addr, k + 1)
  }

  // ---------------------------------------------------------------- lookup

  /** What bpred_lookup returns: zero for not taken, one for taken without a target. */
  function Guess(c: Config, p: Predictor, br: Branch): nat
    requires Sized(c, p)
  {
    if UsesStack(c, br) then p.stack[p.tos] else
    var s := p.sets[SetOf(c, br.addr)];
    match Find(s.ents, br.addr, 0)
    case Some(b) => if br.uncond || br.dir then s.ents[b].target else 0
    case None => if br.uncond || br.dir then 1 else 0
  }

  /** The predicted next PC of the driver. */
  function PredPC(c: Config, p: Predictor, br: Branch): nat
    requires Sized(c, p)
  {
    if Guess(c, p, br) == 0 then Fall(br) else Guess(c, p, br)
  }

  /** A return pops the stack. */
  function Popped(c: Config, p: Predictor, br: Branch): Predictor
    requires Sized(c, p)
  {
    if UsesStack(c, br) then p.(tos := (p.tos + c.depth - 1) % c.depth) else p
  }

  // ---------------------------------------------------------------- update

  /** A call pushes its return address. */
  function Pushed(c: Config, p: Predictor, br: Branch): Predictor
    requires Sized(c, p)
  {
    if br.call && c.depth > 0 then
      var tos := (p.tos + 1) % c.depth;
      p.(tos := tos, stack := p.stack[tos := Fall(br)])
    else p
  }

  /** The BTB entry a taken branch uses: the one that tracks it, else the least recently used. */
  function Chosen(s: Btb, addr: nat): (r: nat)
    requires |s.ents| == |s.ways| > 0 && forall k :: 0 <= k < |s.ways| ==> s.ways[k] < |s.ents|
    ensures r < |s.ents|
  {
    match Find(s.ents, addr, 0)
    case Some(b) => b
    case None => s.ways[|s.ways| - 1]
  }

  /** A taken branch becomes most recently used; its target is rewritten only if it was mispredicted. */
  function Entered(s: Btb, addr: nat, target: nat, correct: bool): Btb
    requires |s.ents| == |s.ways| > 0 && forall k :: 0 <= k < |s.ways| ==> s.ways[k] < |s.ents|
  {
    var b := Chosen(s, addr);
    var ent := if s.ents[b].addr == addr && correct then s.ents[b] else Ent(addr, target);
    Btb(s.ents[b := ent], M.ToFront(s.ways, b))
  }

  /** bpred_update; `correct` says whether the predicted next PC was right. */
  function Update(c: Config, p: Predictor, br: Branch, correct: bool): Predictor
    requires Sized(c, p)
  {
    if UsesStack(c, br) then p else
    var p1 := Pushed(c, p, br);
    if !Taken(br) then p1 else
    var i := SetOf(c, br.addr);
    p1.(sets := p1.sets[i := Entered(p1.sets[i], br.addr, br.next, correct)])
  }

  /** One branch of the driver's loop. */
  function Step(c: Config, p: Predictor, br: Branch): Predictor
    requires Sized(c, p)
  {
    PopSized(c, p, br);
    Update(c, Popped(c, p, br), br, PredPC(c, p, br) == br.next)
  }

  /** A run of the driver. */
  function Run(c: Config, p: Predictor, brs: seq<Branch>): (r: Predictor)
    requires Sized(c, p)
    ensures Sized(c, r)
    decreases |brs|
  {
    if brs == [] then p else
    StepSized(c, p, brs[0]);
    Run(c, Step(c, p, brs[0]), brs[1..])
  }

  /** Which branches of a run are predicted right. */
  function Rights(c: Config, p: Predictor, brs: seq<Branch>): seq<bool>
    requires Sized(c, p)
    decreases |brs|
  {
    if brs == [] then [] else
    StepSized(c, p, brs[0]);
    [PredPC(c, p, brs[0]) == brs[0].next] + Rights(c, Step(c, p, brs[0]), brs[1..])
  }

  /** A BTB set with no entry in use. */
  function Blank(c: Config): Btb {
    Btb(seq(c.assoc, _ => Ent(0, 0)), seq(c.assoc, k requires 0 <= k < c.assoc => k))
  }

  /** bpred_create */
  function Initial(c: Config): Predictor {
    Predictor(seq(c.nsets, _ => Blank(c)), seq(c.depth, _ => 0), if c.depth > 0 then c.depth - 1 else 0)
  }

  lemma EnteredSized(c: Config, s: Btb, addr: nat, target: nat, correct: bool)
    requires |s.ents| == c.assoc > 0 && P.Permutes(s.ways, c.assoc)
    ensures var r := Entered(s, addr, target, correct); |r.ents| == c.assoc && P.Permutes(r.ways, c.assoc)
  {
    P.ReorderPermutes(s.ways, Chosen(s, addr), c.assoc);
    hide P.Permutes, M.ToFront, Find;
  }

  /** Every branch, whatever its address, leaves a predictor of the same shape. */
  lemma StepSized(c: Config, p: Predictor, br: Branch)
    requires Sized(c, p)
    ensures Sized(c, Step(c, p, br))
  {
    hide P.Permutes, Entered, PredPC, SetOf;
    EnteredSized(c, p.sets[SetOf(c, br.addr)], br.addr, br.next, PredPC(c, p, br) == br.next);
  }

  lemma InitialSized(c: Config)
    requires c.Valid()
    ensures Sized(c, Initial(c))
  {
    forall b | 0 <= b < c.assoc ensures b in Blank(c).ways {
      assert Blank(c).ways[b] == b;
    }
  }

  lemma PopSized(c: Config, p: Predictor, br: Branch)
    requires Sized(c, p)
    ensures Sized(c, Popped(c, p, br))
  {
  }

  // ---------------------------------------------------------------- a BTB set as an LRU set

  /** A BTB set seen as a cache set whose tags are branch addresses. */
  function AsLine(e: Ent): M.Line { M.Line(e.addr, e.addr != 0, false, [e.target]) }

  function AsSet(s: Btb): M.Set { M.Set(seq(|s.ents|, i requires 0 <= i < |s.ents| => AsLine(s.ents[i])), s.ways) }

  function Geo(c: Config): M.Geometry { M.Geometry(1, 1, c.assoc, M.LRU) }

  lemma AsSetOk(c: Config, s: Btb)
    requires BtbOk(c, s)
    ensures M.SetOk(Geo(c), AsSet(s)) && P.ValidFirst(Geo(c), AsSet(s))
  {
  }

  lemma OkAsSet(c: Config, s: Btb)
    requires |s.ents| == c.assoc && M.SetOk(Geo(c), AsSet(s)) && P.ValidFirst(Geo(c), AsSet(s))
    ensures BtbOk(c, s)
  {
    assert forall b :: 0 <= b < |s.ents| ==> AsSet(s).lines[b] == AsLine(s.ents[b]);
  }

  /** Branches tracked by the set, most recently taken first. */
  function Tracked(s: Btb): seq<nat>
    requires forall k :: 0 <= k < |s.ways| ==> s.ways[k] < |s.ents|
  {
    L.ValidTags(AsSet(s).lines, s.ways)
  }
}
