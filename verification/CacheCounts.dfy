/**
 * What the other lists do not say: which block a miss replaces under random replacement, which blocks
 * are dirty, and what the statistics count.
 */
module CacheCounts {
  import opened Common
  import opened CacheModel
  import opened CacheProofs
  import opened CacheRuns

  /** An access is a hit on its block or a miss on it; the fast path makes no difference. */
  lemma HitOrMiss(g: Geometry, c: Cache, addr: nat, cmd: Cmd, random: nat)
    requires CacheOk(g, c) && Access(g, c, addr, cmd, random).Done?
    ensures Sized(g, c) && Offset(g, addr) + Bytes(cmd) <= g.bsize
    ensures var bn, ofs := BlockNo(g, addr), Offset(g, addr); var i := SetOf(g, bn); var s := c.sets[i];
      Access(g, c, addr, cmd, random) ==
        match Find(s.lines, s.ways, TagOf(g, bn))
        case Some(b) => Hit(g, c, i, b, bn, ofs, cmd, true)
        case None => Miss(g, c, i, bn, ofs, cmd, random)
  {
    hide CacheOk, Access, Find, Hit, Miss, Misuse, Sized;
    OkSized(g, c);
    UseFits(g, c, addr, cmd, random);
    FastPathIsExact(g, c, addr, cmd, random);
  }

  lemma SetAt(g: Geometry, c: Cache, i: nat)
    requires CacheOk(g, c) && i < g.nsets
    ensures Sized(g, c) && SetOk(g, c.sets[i])
  {
    assert GoodSet(g, c.sets[i], i, c.mem);
  }

  // ---------------------------------------------------------------- random replacement

  /** What each block of a set holds. */
  function Slots(s: Set): seq<Option<nat>> {
    seq(|s.lines|, b requires 0 <= b < |s.lines| => if s.lines[b].valid then Some(s.lines[b].tag) else None)
  }

  function NoSlots(g: Geometry): (r: seq<Option<nat>>)
    ensures |r| == g.assoc
  {
    seq(g.assoc, _ => None)
  }

  /** The blocks of set `i` after an operation: a miss goes to the block that was drawn. */
  function DrawStep(g: Geometry, slots: seq<Option<nat>>, i: nat, op: Op): (r: seq<Option<nat>>)
    requires g.Valid() && |slots| == g.assoc
    ensures |r| == g.assoc
  {
    match op
    case Use(addr, _, random) =>
      var tag := Some(TagOf(g, BlockNo(g, addr)));
      if SetOf(g, BlockNo(g, addr)) != i || tag in slots then slots else slots[random % g.assoc := tag]
    case FlushOne(addr) =>
      var tag := Some(TagOf(g, BlockNo(g, addr)));
      if SetOf(g, BlockNo(g, addr)) != i then slots
      else seq(g.assoc, b requires 0 <= b < g.assoc => if slots[b] == tag then None else slots[b])
    case FlushAll => NoSlots(g)
  }

  function DrawRun(g: Geometry, slots: seq<Option<nat>>, i: nat, ops: seq<Op>): (r: seq<Option<nat>>)
    requires g.Valid() && |slots| == g.assoc
    ensures |r| == g.assoc
    decreases |ops|
  {
    if ops == [] then slots else DrawRun(g, DrawStep(g, slots, i, ops[0]), i, ops[1..])
  }

  lemma FindSlot(g: Geometry, s: Set, tag: nat)
    requires SetOk(g, s)
    ensures Find(s.lines, s.ways, tag).Some? <==> Some(tag) in Slots(s)
    ensures Find(s.lines, s.ways, tag).Some? ==>
      forall b :: 0 <= b < g.assoc ==> (Slots(s)[b] == Some(tag) <==> b == Find(s.lines, s.ways, tag).value)
  {
    FindIs(g, s, tag);
    hide Find;
    if Find(s.lines, s.ways, tag).Some? {
      assert Slots(s)[Find(s.lines, s.ways, tag).value] == Some(tag);
    }
    if Some(tag) in Slots(s) {
      var b :| 0 <= b < |Slots(s)| && Slots(s)[b] == Some(tag);
    }
  }

  lemma SlotUpdate(s: Set, b: nat, line: Line, ways: seq<nat>)
    requires b < |s.lines|
    ensures Slots(Set(s.lines[b := line], ways)) == Slots(s)[b := if line.valid then Some(line.tag) else None]
  {
  }

  /** What an access does to the blocks of its set, and what it reports. */
  ghost predicate Draws(g: Geometry, c: Cache, bn: nat, random: nat, r: Result)
    requires Sized(g, c)
  {
    var i := SetOf(g, bn);
    var slots := Slots(c.sets[i]);
    var drawn := slots[random % g.assoc];
    var tag := TagOf(g, bn);
    && r.Done? && |r.c.sets| == g.nsets && (forall j :: 0 <= j < g.nsets && j != i ==> r.c.sets[j] == c.sets[j])
    && Slots(r.c.sets[i]) == (if Some(tag) in slots then slots else slots[random % g.assoc := Some(tag)])
    && (r.hit <==> Some(tag) in slots)
    && r.replaced == (if !r.hit && drawn.Some? then Some(BlockOf(g, drawn.value, i) * g.bsize) else None)
  }

  lemma HitDraws(g: Geometry, c: Cache, bn: nat, b: nat, ofs: nat, cmd: Cmd, random: nat)
    requires CacheOk(g, c) && Sized(g, c) && g.policy == Random && ofs + Bytes(cmd) <= g.bsize
    requires var s := c.sets[SetOf(g, bn)]; Find(s.lines, s.ways, TagOf(g, bn)) == Some(b)
    ensures Draws(g, c, bn, random, Hit(g, c, SetOf(g, bn), b, bn, ofs, cmd, true))
  {
    var i := SetOf(g, bn);
    var s := c.sets[i];
    SetAt(g, c, i);
    FindSlot(g, s, TagOf(g, bn));
    FindIs(g, s, TagOf(g, bn));
    hide CacheOk, Find, Touch, TagOf, BlockOf, Slots, SetOk;
    TouchKeeps(s.lines[b], cmd, ofs);
    SlotUpdate(s, b, Touch(s.lines[b], cmd, ofs), s.ways);
    SlotAt(s, b);
  }

  lemma MissDraws(g: Geometry, c: Cache, bn: nat, ofs: nat, cmd: Cmd, random: nat)
    requires CacheOk(g, c) && Sized(g, c) && g.policy == Random && ofs + Bytes(cmd) <= g.bsize
    requires var s := c.sets[SetOf(g, bn)]; Find(s.lines, s.ways, TagOf(g, bn)).None?
    ensures Draws(g, c, bn, random, Miss(g, c, SetOf(g, bn), bn, ofs, cmd, random))
  {
    var i := SetOf(g, bn);
    var s := c.sets[i];
    SetAt(g, c, i);
    FindSlot(g, s, TagOf(g, bn));
    hide CacheOk, Find, Touch, TagOf, BlockOf, Slots, SetOk, MemBlock, WriteBack;
    MissIs(g, c, bn, ofs, cmd, random);
    var b := random % g.assoc;
    var data := MemBlock(g, WriteBack(g, c, s.lines[b], i).mem, bn);
    TouchKeeps(Line(TagOf(g, bn), true, false, data), cmd, ofs);
    SlotUpdate(s, b, Touch(Line(TagOf(g, bn), true, false, data), cmd, ofs), s.ways);
    SlotAt(s, b);
  }

  /** Under random replacement a miss replaces the block that was drawn, and no other. */
  lemma AccessDraws(g: Geometry, c: Cache, addr: nat, cmd: Cmd, random: nat)
    requires CacheOk(g, c) && g.policy == Random && Access(g, c, addr, cmd, random).Done?
    ensures Sized(g, c) && Draws(g, c, BlockNo(g, addr), random, Access(g, c, addr, cmd, random))
  {
    var bn, ofs := BlockNo(g, addr), Offset(g, addr);
    HitOrMiss(g, c, addr, cmd, random);
    hide CacheOk, Access, Find, Hit, Miss, Draws, TagOf;
    var s := c.sets[SetOf(g, bn)];
    match Find(s.lines, s.ways, TagOf(g, bn))
    case Some(b) => HitDraws(g, c, bn, b, ofs, cmd, random);
    case None => MissDraws(g, c, bn, ofs, cmd, random);
  }

  lemma SlotAt(s: Set, b: nat)
    requires b < |s.lines|
    ensures |Slots(s)| == |s.lines| && Slots(s)[b] == if s.lines[b].valid then Some(s.lines[b].tag) else None
  {
  }

  lemma FlushDraws(g: Geometry, c: Cache, addr: nat, j: nat)
    requires CacheOk(g, c) && j < g.nsets
    ensures Sized(g, c) && |FlushAddr(g, c, addr).sets| == g.nsets
    ensures Slots(FlushAddr(g, c, addr).sets[j]) == DrawStep(g, Slots(c.sets[j]), j, FlushOne(addr))
  {
    var bn := BlockNo(g, addr);
    var i := SetOf(g, bn);
    var s := c.sets[i];
    SetAt(g, c, i);
    FindSlot(g, s, TagOf(g, bn));
    hide CacheOk, Find, TagOf, BlockOf, ToBack;
    match Find(s.lines, s.ways, TagOf(g, bn))
    case None => assert DrawStep(g, Slots(s), i, FlushOne(addr)) == Slots(s);
    case Some(b) => SlotUpdate(s, b, s.lines[b].(valid := false), ToBack(s.ways, b));
  }

  lemma EmptySlots(g: Geometry, s: Set)
    requires |s.lines| == g.assoc && Emptied(s)
    ensures Slots(s) == NoSlots(g)
  {
  }

  lemma StepDraws(g: Geometry, c: Cache, op: Op, j: nat)
    requires CacheOk(g, c) && Sized(g, c) && g.policy == Random && Step(g, c, op).Done? && j < g.nsets
    ensures var c' := Step(g, c, op).c;
      CacheOk(g, c') && Sized(g, c') && Slots(c'.sets[j]) == DrawStep(g, Slots(c.sets[j]), j, op)
  {
    StepOk(g, c, op);
    OkSized(g, Step(g, c, op).c);
    hide CacheOk, Access, FlushAddr, Flush, Slots, Emptied, TagOf;
    SlotsLength(g, c, j);
    match op
    case Use(addr, cmd, random) => AccessDraws(g, c, addr, cmd, random);
    case FlushOne(addr) => FlushDraws(g, c, addr, j);
    case FlushAll =>
      FlushOk(g, c);
      EmptySlots(g, Flush(g, c).sets[j]);
  }

  lemma SlotsLength(g: Geometry, c: Cache, j: nat)
    requires Sized(g, c) && j < g.nsets
    ensures |Slots(c.sets[j])| == g.assoc
  {
    assert Shaped(g, c.sets[j]);
  }

  lemma {:induction false} RunDraws(g: Geometry, c: Cache, ops: seq<Op>, j: nat)
    requires CacheOk(g, c) && Sized(g, c) && g.policy == Random && Run(g, c, ops).Ran? && j < g.nsets
    ensures |Slots(c.sets[j])| == g.assoc
    ensures var c' := Run(g, c, ops).c;
      Sized(g, c') && Slots(c'.sets[j]) == DrawRun(g, Slots(c.sets[j]), j, ops)
    decreases |ops|
  {
    hide CacheOk, Slots, DrawStep, Step;
    OkSized(g, c);
    SlotsLength(g, c, j);
    if ops == [] {
    } else {
      StepDraws(g, c, ops[0], j);
      RunDraws(g, Step(g, c, ops[0]).c, ops[1..], j);
    }
  }

  /** In every run under random replacement, each block holds the tag of the last miss that drew it. */
  lemma CacheIsDrawn(g: Geometry, mem: map<nat, seq<int>>, ops: seq<Op>, j: nat)
    requires g.Valid() && MemFits(g, mem) && FromStart(g, mem, ops).Ran? && g.policy == Random && j < g.nsets
    ensures var c := FromStart(g, mem, ops).c;
      Sized(g, c) && Slots(c.sets[j]) == DrawRun(g, NoSlots(g), j, ops)
  {
    InitialOk(g, mem);
    InitialSet(g, mem, j);
    OkSized(g, Initial(g, mem));
    EmptySlots(g, Initial(g, mem).sets[j]);
    hide CacheOk, Slots, Initial, Run, NoSlots;
    RunDraws(g, Initial(g, mem), ops, j);
  }

  // ---------------------------------------------------------------- dirty blocks

  predicate HasTag(lines: seq<Line>, tag: nat) {
    exists b :: 0 <= b < |lines| && lines[b].valid && lines[b].tag == tag
  }

  predicate HasDirty(lines: seq<Line>, tag: nat) {
    exists b :: 0 <= b < |lines| && lines[b].valid && lines[b].tag == tag && lines[b].dirty
  }

  /** Block `bn` is in the cache. */
  predicate Resident(g: Geometry, c: Cache, bn: nat)
    requires Sized(g, c)
  {
    HasTag(c.sets[SetOf(g, bn)].lines, TagOf(g, bn))
  }

  /** ... and marked as written. */
  predicate DirtyAt(g: Geometry, c: Cache, bn: nat)
    requires Sized(g, c)
  {
    HasDirty(c.sets[SetOf(g, bn)].lines, TagOf(g, bn))
  }

  predicate Writes(g: Geometry, op: Op, bn: nat)
    requires g.Valid()
  {
    op.Use? && op.cmd.Write? && BlockNo(g, op.addr) == bn
  }

  ghost predicate OneEach(lines: seq<Line>) {
    forall a, b :: 0 <= a < b < |lines| && lines[a].valid && lines[b].valid ==> lines[a].tag != lines[b].tag
  }

  /** One line of a set changes: what becomes of the other tags, and of its own. */
  lemma LineChanges(lines: seq<Line>, b: nat, line: Line, tag: nat)
    requires b < |lines| && OneEach(lines) && OneEach(lines[b := line])
    ensures var after := lines[b := line];
      if line.valid && line.tag == tag then HasTag(after, tag) && (HasDirty(after, tag) <==> line.dirty)
      else HasDirty(after, tag) <==> HasTag(after, tag) && HasDirty(lines, tag)
  {
    var after := lines[b := line];
    if line.valid && line.tag == tag {
      assert after[b] == line;
    } else if HasTag(after, tag) && HasDirty(lines, tag) {
      var k :| 0 <= k < |after| && after[k].valid && after[k].tag == tag;
      var m :| 0 <= m < |lines| && lines[m].valid && lines[m].tag == tag && lines[m].dirty;
      assert k == m;
    }
  }

  lemma FindTag(g: Geometry, s: Set, tag: nat)
    requires SetOk(g, s)
    ensures OneEach(s.lines)
    ensures Find(s.lines, s.ways, tag).Some? <==> HasTag(s.lines, tag)
    ensures match Find(s.lines, s.ways, tag)
      case Some(b) => s.lines[b].valid && s.lines[b].tag == tag && (HasDirty(s.lines, tag) <==> s.lines[b].dirty)
      case None => !HasDirty(s.lines, tag)
  {
    FindIs(g, s, tag);
    hide Find;
  }

  /** Which blocks are dirty once `op` has taken the cache from `c` to `c'`. */
  ghost predicate Dirties(g: Geometry, c: Cache, op: Op, c': Cache, bn: nat)
    requires Sized(g, c) && Sized(g, c')
  {
    DirtyAt(g, c', bn) <==> Resident(g, c', bn) && (DirtyAt(g, c, bn) || Writes(g, op, bn))
  }

  /** Different blocks of a set have different tags. */
  lemma BlocksDiffer(g: Geometry, a: nat, b: nat)
    requires g.Valid() && SetOf(g, a) == SetOf(g, b) && TagOf(g, a) == TagOf(g, b)
    ensures a == b
  {
    assert a == TagOf(g, a) * g.nsets + SetOf(g, a);
    assert b == TagOf(g, b) * g.nsets + SetOf(g, b);
  }

  lemma TouchDirties(line: Line, cmd: Cmd, ofs: nat)
    requires ofs + Bytes(cmd) <= |line.data|
    ensures Touch(line, cmd, ofs).dirty <==> line.dirty || cmd.Write?
  {
  }

  /** One line of one set is different. */
  ghost predicate LineDiffers(g: Geometry, c: Cache, c': Cache, i: nat, b: nat, line: Line)
    requires Sized(g, c) && Sized(g, c') && i < g.nsets && b < g.assoc
  {
    && OneEach(c.sets[i].lines) && OneEach(c'.sets[i].lines) && |c.sets[i].lines| == g.assoc
    && c'.sets[i].lines == c.sets[i].lines[b := line]
    && forall j :: 0 <= j < g.nsets && j != i ==> c'.sets[j] == c.sets[j]
  }

  /** The line now holds the block of the access, and it is dirty if that was or if it is written. */
  lemma UsedLine(g: Geometry, c: Cache, c': Cache, op: Op, b: nat, line: Line, bn: nat)
    requires Sized(g, c) && Sized(g, c') && op.Use? && b < g.assoc
    requires var at := BlockNo(g, op.addr);
      && LineDiffers(g, c, c', SetOf(g, at), b, line) && line.valid && line.tag == TagOf(g, at)
      && (line.dirty <==> DirtyAt(g, c, at) || op.cmd.Write?)
    ensures Dirties(g, c, op, c', bn)
  {
    var at := BlockNo(g, op.addr);
    if SetOf(g, bn) == SetOf(g, at) {
      if TagOf(g, bn) == TagOf(g, at) {
        BlocksDiffer(g, at, bn);
      }
      hide TagOf, SetOf, HasTag, HasDirty, OneEach, BlockNo;
      LineChanges(c.sets[SetOf(g, at)].lines, b, line, TagOf(g, bn));
    } else {
      hide TagOf, SetOf, OneEach, BlockNo;
      DirtyIsThere(g, c, bn);
    }
  }

  lemma DirtyIsThere(g: Geometry, c: Cache, bn: nat)
    requires Sized(g, c)
    ensures DirtyAt(g, c, bn) ==> Resident(g, c, bn)
  {
    hide TagOf, SetOf;
  }

  lemma HitDirties(g: Geometry, c: Cache, op: Op, b: nat, bn: nat)
    requires CacheOk(g, c) && Sized(g, c) && op.Use? && Offset(g, op.addr) + Bytes(op.cmd) <= g.bsize
    requires var at := BlockNo(g, op.addr); var s := c.sets[SetOf(g, at)];
      Find(s.lines, s.ways, TagOf(g, at)) == Some(b)
    requires var at := BlockNo(g, op.addr);
      var c' := Hit(g, c, SetOf(g, at), b, at, Offset(g, op.addr), op.cmd, true).c;
      Sized(g, c') && CacheOk(g, c')
    ensures var at := BlockNo(g, op.addr);
      Dirties(g, c, op, Hit(g, c, SetOf(g, at), b, at, Offset(g, op.addr), op.cmd, true).c, bn)
  {
    hide CacheOk, Find, Touch, TagOf, SetOk, HasTag, HasDirty, OneEach, BlockNo, Offset, ToFront, Dirties;
    var at, ofs := BlockNo(g, op.addr), Offset(g, op.addr);
    var i := SetOf(g, at);
    var s := c.sets[i];
    var c' := Hit(g, c, i, b, at, ofs, op.cmd, true).c;
    SetAt(g, c, i);
    SetAt(g, c', i);
    FindTag(g, s, TagOf(g, at));
    FindTag(g, c'.sets[i], TagOf(g, at));
    TouchKeeps(s.lines[b], op.cmd, ofs);
    TouchDirties(s.lines[b], op.cmd, ofs);
    UsedLine(g, c, c', op, b, Touch(s.lines[b], op.cmd, ofs), bn);
  }

  lemma MissDirties(g: Geometry, c: Cache, op: Op, bn: nat)
    requires CacheOk(g, c) && Sized(g, c) && op.Use? && Offset(g, op.addr) + Bytes(op.cmd) <= g.bsize
    requires var at := BlockNo(g, op.addr); var s := c.sets[SetOf(g, at)];
      Find(s.lines, s.ways, TagOf(g, at)).None?
    requires var at := BlockNo(g, op.addr);
      var c' := Miss(g, c, SetOf(g, at), at, Offset(g, op.addr), op.cmd, op.random).c;
      Sized(g, c') && CacheOk(g, c')
    ensures var at := BlockNo(g, op.addr);
      Dirties(g, c, op, Miss(g, c, SetOf(g, at), at, Offset(g, op.addr), op.cmd, op.random).c, bn)
  {
    hide CacheOk, Find, Touch, TagOf, SetOk, HasTag, HasDirty, OneEach, BlockNo, Offset, ToFront, Dirties, MemBlock,
         WriteBack, Victim, Shaped;
    var at, ofs := BlockNo(g, op.addr), Offset(g, op.addr);
    var i := SetOf(g, at);
    var s := c.sets[i];
    var c' := Miss(g, c, i, at, ofs, op.cmd, op.random).c;
    SetAt(g, c, i);
    SetAt(g, c', i);
    FindTag(g, s, TagOf(g, at));
    FindTag(g, c'.sets[i], TagOf(g, at));
    MissIs(g, c, at, ofs, op.cmd, op.random);
    var b := Victim(g, s, op.random);
    var filled := Line(TagOf(g, at), true, false, MemBlock(g, WriteBack(g, c, s.lines[b], i).mem, at));
    TouchKeeps(filled, op.cmd, ofs);
    TouchDirties(filled, op.cmd, ofs);
    UsedLine(g, c, c', op, b, Touch(filled, op.cmd, ofs), bn);
  }

  lemma UseDirties(g: Geometry, c: Cache, op: Op, bn: nat)
    requires CacheOk(g, c) && Sized(g, c) && op.Use? && Step(g, c, op).Done? && Sized(g, Step(g, c, op).c)
    requires CacheOk(g, Step(g, c, op).c)
    ensures Dirties(g, c, op, Step(g, c, op).c, bn)
  {
    var at := BlockNo(g, op.addr);
    HitOrMiss(g, c, op.addr, op.cmd, op.random);
    hide CacheOk, Access, Find, Hit, Miss, Dirties, TagOf;
    var s := c.sets[SetOf(g, at)];
    match Find(s.lines, s.ways, TagOf(g, at))
    case Some(b) => HitDirties(g, c, op, b, bn);
    case None => MissDirties(g, c, op, bn);
  }

  lemma FlushDirties(g: Geometry, c: Cache, addr: nat, bn: nat)
    requires CacheOk(g, c) && Sized(g, c) && Sized(g, FlushAddr(g, c, addr)) && CacheOk(g, FlushAddr(g, c, addr))
    ensures Dirties(g, c, FlushOne(addr), FlushAddr(g, c, addr), bn)
  {
    var at := BlockNo(g, addr);
    var i := SetOf(g, at);
    var s := c.sets[i];
    SetAt(g, c, i);
    SetAt(g, FlushAddr(g, c, addr), i);
    FindTag(g, s, TagOf(g, at));
    FindTag(g, FlushAddr(g, c, addr).sets[i], TagOf(g, bn));
    DirtyIsThere(g, c, bn);
    hide CacheOk, Find, TagOf, SetOk, HasTag, HasDirty, OneEach, BlockOf, ToBack;
    match Find(s.lines, s.ways, TagOf(g, at))
    case None =>
    case Some(b) => LineChanges(s.lines, b, s.lines[b].(valid := false), TagOf(g, bn));
  }

  lemma EmptyHasNone(s: Set, tag: nat)
    requires Emptied(s)
    ensures !HasTag(s.lines, tag) && !HasDirty(s.lines, tag)
  {
  }

  /**
   * A block is dirty exactly if it is resident and was dirty before or is written: a fetched block is
   * clean, reads dirty nothing, and what leaves the cache is forgotten.
   */
  lemma DirtyIsExact(g: Geometry, c: Cache, op: Op, bn: nat)
    requires CacheOk(g, c) && Sized(g, c) && Step(g, c, op).Done?
    ensures Sized(g, Step(g, c, op).c) && Dirties(g, c, op, Step(g, c, op).c, bn)
  {
    StepOk(g, c, op);
    OkSized(g, Step(g, c, op).c);
    hide CacheOk, Access, FlushAddr, Flush, Dirties, Emptied;
    match op
    case Use(_, _, _) => UseDirties(g, c, op, bn);
    case FlushOne(addr) => FlushDirties(g, c, addr, bn);
    case FlushAll => FlushedDirties(g, c, bn);
  }

  lemma FlushedDirties(g: Geometry, c: Cache, bn: nat)
    requires CacheOk(g, c) && Sized(g, c) && Sized(g, Flush(g, c))
    ensures Dirties(g, c, FlushAll, Flush(g, c), bn)
  {
    hide CacheOk, Flush, Emptied, HasTag, HasDirty;
    FlushOk(g, c);
    EmptyHasNone(Flush(g, c).sets[SetOf(g, bn)], TagOf(g, bn));
  }

  // ---------------------------------------------------------------- statistics

  function One(b: bool): nat { if b then 1 else 0 }

  /** What the statistics gain: the block an access replaces is written back if it is dirty. */
  ghost predicate Counts(g: Geometry, c: Cache, op: Op, r: Result)
    requires Sized(g, c) && r.Done?
  {
    var was, now := c.stats, r.c.stats;
    match op
    case Use(addr, _, _) =>
      var hit := Resident(g, c, BlockNo(g, addr));
      now == Stats(was.hits + One(hit), was.misses + One(!hit), was.replacements + One(r.replaced.Some?),
                   was.writebacks + One(r.replaced.Some? && DirtyAt(g, c, BlockNo(g, r.replaced.value))),
                   was.invalidations)
    case FlushOne(addr) =>
      now == was.(invalidations := was.invalidations + One(Resident(g, c, BlockNo(g, addr))))
    case FlushAll => now == was.(invalidations := was.invalidations + TotalValid(c.sets))
  }

  /** The block of a line that is replaced is that line's. */
  lemma ReplacedBlock(g: Geometry, c: Cache, i: nat, b: nat)
    requires CacheOk(g, c) && Sized(g, c) && i < g.nsets && b < g.assoc && c.sets[i].lines[b].valid
    ensures DirtyAt(g, c, BlockNo(g, BlockOf(g, c.sets[i].lines[b].tag, i) * g.bsize)) <==> c.sets[i].lines[b].dirty
  {
    var s := c.sets[i];
    var bn := BlockOf(g, s.lines[b].tag, i);
    DivMul(bn, g.bsize, 0);
    DivMul(s.lines[b].tag, g.nsets, i);
    SetAt(g, c, i);
  }

  lemma UseCounts(g: Geometry, c: Cache, op: Op)
    requires CacheOk(g, c) && Sized(g, c) && op.Use? && Step(g, c, op).Done?
    ensures Counts(g, c, op, Step(g, c, op))
  {
    var at, ofs := BlockNo(g, op.addr), Offset(g, op.addr);
    var i := SetOf(g, at);
    var s := c.sets[i];
    HitOrMiss(g, c, op.addr, op.cmd, op.random);
    SetAt(g, c, i);
    FindTag(g, s, TagOf(g, at));
    VictimFits(g, s, op.random);
    var b := Victim(g, s, op.random);
    hide CacheOk, Access, Find, Touch, TagOf, SetOk, HasTag, HasDirty, MemBlock, BlockNo, Offset, BlockOf, Victim,
         ToFront;
    if s.lines[b].valid {
      ReplacedBlock(g, c, i, b);
    }
  }

  lemma FlushCounts(g: Geometry, c: Cache, addr: nat)
    requires CacheOk(g, c) && Sized(g, c)
    ensures Counts(g, c, FlushOne(addr), Step(g, c, FlushOne(addr)))
  {
    var at := BlockNo(g, addr);
    var s := c.sets[SetOf(g, at)];
    SetAt(g, c, SetOf(g, at));
    FindTag(g, s, TagOf(g, at));
    hide CacheOk, Find, TagOf, SetOk, HasTag, HasDirty, BlockOf, ToBack;
  }

  /** A flush counts invalidations only. */
  predicate OnlyInvalidates(was: Stats, now: Stats) {
    now == was.(invalidations := now.invalidations)
  }

  lemma {:induction false} WaysCount(g: Geometry, c: Cache, i: nat, ways: seq<nat>)
    requires i < |c.sets| && forall k :: 0 <= k < |ways| ==> ways[k] < |c.sets[i].lines|
    ensures OnlyInvalidates(c.stats, FlushWays(g, c, i, ways).stats)
    decreases |ways|
  {
    if ways == [] {
    } else {
      WaysCount(g, if c.sets[i].lines[ways[0]].valid then Drop(g, c, i, ways[0]) else c, i, ways[1..]);
    }
  }

  lemma {:induction false} SetsCount(g: Geometry, c: Cache, i: nat)
    requires |c.sets| == g.nsets && i <= g.nsets
    requires forall j :: 0 <= j < g.nsets ==> forall k :: 0 <= k < |c.sets[j].ways| ==>
      c.sets[j].ways[k] < |c.sets[j].lines|
    ensures OnlyInvalidates(c.stats, FlushSets(g, c, i).stats)
    decreases g.nsets - i
  {
    if i == g.nsets {
    } else {
      hide FlushWays;
      WaysCount(g, c, i, c.sets[i].ways);
      SetsCount(g, FlushWays(g, c, i, c.sets[i].ways), i + 1);
    }
  }

  lemma FlushAllCounts(g: Geometry, c: Cache)
    requires CacheOk(g, c) && Sized(g, c)
    ensures Counts(g, c, FlushAll, Step(g, c, FlushAll))
  {
    assert forall j :: 0 <= j < g.nsets ==> Shaped(g, c.sets[j]);
    SetsCount(g, c.(lastBase := 0, lastBlk := None), 0);
    FlushOk(g, c);
    BalanceOf(g, c);
    BalanceOf(g, Flush(g, c));
    hide CacheOk, FlushSets, TotalValid;
    NoneValid(Flush(g, c).sets);
  }

  lemma BalanceOf(g: Geometry, c: Cache)
    requires CacheOk(g, c)
    ensures Balanced(c) && |c.sets| == g.nsets
  {
  }

  /** What every operation adds to the statistics. */
  lemma CountsAreExact(g: Geometry, c: Cache, op: Op)
    requires CacheOk(g, c) && Sized(g, c) && Step(g, c, op).Done?
    ensures Counts(g, c, op, Step(g, c, op))
  {
    hide CacheOk, Access, FlushAddr, Flush, Counts;
    match op
    case Use(_, _, _) => UseCounts(g, c, op);
    case FlushOne(addr) => FlushCounts(g, c, addr);
    case FlushAll => FlushAllCounts(g, c);
  }

  /** How many of the operations are accesses. */
  function Accesses(ops: seq<Op>): nat {
    if ops == [] then 0 else One(ops[0].Use?) + Accesses(ops[1..])
  }

  lemma {:induction false} RunCounts(g: Geometry, c: Cache, ops: seq<Op>)
    requires CacheOk(g, c) && Run(g, c, ops).Ran?
    ensures var was, now := c.stats, Run(g, c, ops).c.stats;
      && now.hits + now.misses == was.hits + was.misses + Accesses(ops)
      && now.writebacks - was.writebacks <= now.replacements - was.replacements <= now.misses - was.misses
    decreases |ops|
  {
    hide CacheOk, Step, Resident, DirtyAt, TotalValid;
    OkSized(g, c);
    if ops == [] {
    } else {
      StepOk(g, c, ops[0]);
      CountsAreExact(g, c, ops[0]);
      MissReplaces(g, c, ops[0]);
      RunCounts(g, Step(g, c, ops[0]).c, ops[1..]);
    }
  }

  /** Only a miss replaces a block. */
  lemma MissReplaces(g: Geometry, c: Cache, op: Op)
    requires CacheOk(g, c) && Sized(g, c) && Step(g, c, op).Done?
    ensures Step(g, c, op).replaced.Some? ==> op.Use? && !Resident(g, c, BlockNo(g, op.addr))
  {
    hide CacheOk, Access, FlushAddr, Flush, Find, TagOf, BlockOf, HasTag;
    if op.Use? {
      HitOrMiss(g, c, op.addr, op.cmd, op.random);
      var bn := BlockNo(g, op.addr);
      SetAt(g, c, SetOf(g, bn));
      FindTag(g, c.sets[SetOf(g, bn)], TagOf(g, bn));
    }
  }

  /** In every run each access is a hit or a miss, and no more blocks are written back than are replaced. */
  lemma AccessesAreCounted(g: Geometry, mem: map<nat, seq<int>>, ops: seq<Op>)
    requires g.Valid() && MemFits(g, mem) && FromStart(g, mem, ops).Ran?
    ensures var now := FromStart(g, mem, ops).c.stats;
      now.hits + now.misses == Accesses(ops) && now.writebacks <= now.replacements <= now.misses
  {
    InitialOk(g, mem);
    assert Initial(g, mem).stats == Stats(0, 0, 0, 0, 0);
    hide CacheOk, Initial, Run;
    RunCounts(g, Initial(g, mem), ops);
  }
}
