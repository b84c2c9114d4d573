/**
 * The set-associative cache of cache.c as functions of its state.  Sizes are powers of two, so
 * shifts and masks of addresses are written as divisions and remainders.
 */
module CacheModel {
  import opened Common

  datatype Policy = LRU | Random | FIFO

  /** The parameters of cache_create that shape the cache. */
  datatype Geometry = Geometry(nsets: nat, bsize: nat, assoc: nat, policy: Policy) {
    predicate Valid() {
      nsets > 0 && bsize > 0 && assoc > 0
    }
  }

  /** A cache block: `valid` and `dirty` are its status bits. */
  datatype Line = Line(tag: nat, valid: bool, dirty: bool, data: seq<int>)

  /** A cache set: its blocks as allocated, and the order of the way list, most recent first. */
  datatype Set = Set(lines: seq<Line>, ways: seq<nat>)

  /** The statistics that count blocks. */
  datatype Stats = Stats(hits: nat, misses: nat, replacements: nat, writebacks: nat, invalidations: nat)

  /**
   * The cache and the memory behind it, by block number.  `lastBase` is `last_tagset`, the address
   * of the last block to hit, with zero for none, and `lastBlk` is `last_blk`.
   */
  datatype Cache = Cache(sets: seq<Set>, lastBase: nat, lastBlk: Option<nat>, mem: map<nat, seq<int>>, stats: Stats)

  /** What to do at an address: read some bytes, or write these. */
  datatype Cmd = Read(n: nat) | Write(bytes: seq<int>)

  function Bytes(cmd: Cmd): nat {
    match cmd
    case Read(n) => n
    case Write(bytes) => |bytes|
  }

  // ---------------------------------------------------------------- blocks and sets

  /** The block an address is in. */
  function BlockNo(g: Geometry, addr: nat): nat requires g.Valid() { addr / g.bsize }

  /** CACHE_BLK */
  function Offset(g: Geometry, addr: nat): (r: nat)
    requires g.Valid()
    ensures r < g.bsize
  {
    addr % g.bsize
  }

  function TagOf(g: Geometry, bn: nat): nat requires g.Valid() { bn / g.nsets }

  function SetOf(g: Geometry, bn: nat): nat requires g.Valid() { bn % g.nsets }

  /** CACHE_MK_BADDR, as a block number. */
  function BlockOf(g: Geometry, tag: nat, i: nat): nat { tag * g.nsets + i }

  /** Memory that was never written holds zeros. */
  function MemBlock(g: Geometry, mem: map<nat, seq<int>>, bn: nat): seq<int> {
    if bn in mem then mem[bn] else seq(g.bsize, _ => 0)
  }

  /** The block of the set that holds `tag`, looked up along the order `ways`. */
  function Find(lines: seq<Line>, ways: seq<nat>, tag: nat): (r: Option<nat>)
    requires forall k :: 0 <= k < |ways| ==> ways[k] < |lines|
    ensures r.Some? ==> r.value < |lines|
  {
    if ways == [] then None
    else if lines[ways[0]].tag == tag && lines[ways[0]].valid then Some(ways[0])
    else Find(lines, ways[1..], tag)
  }

  /** Move `b` to the head of the way list. */
  function ToFront(ways: seq<nat>, b: nat): seq<nat> {
    [b] + Without(ways, b)
  }

  /** Move `b` to the tail of the way list. */
  function ToBack(ways: seq<nat>, b: nat): seq<nat> {
    Without(ways, b) + [b]
  }

  function Without(ways: seq<nat>, b: nat): seq<nat> {
    if ways == [] then [] else (if ways[0] == b then [] else [ways[0]]) + Without(ways[1..], b)
  }

  predicate DataFits(g: Geometry, line: Line) {
    |line.data| == g.bsize
  }

  /** The way list names every block once, blocks have their size, and no tag is resident twice. */
  ghost predicate SetOk(g: Geometry, s: Set) {
    && |s.lines| == |s.ways| == g.assoc
    && (forall k :: 0 <= k < |s.ways| ==> s.ways[k] < g.assoc)
    && (forall j, k :: 0 <= j < k < |s.ways| ==> s.ways[j] != s.ways[k]) &&
      (forall b :: 0 <= b < g.assoc ==> b in s.ways)
    && (forall b :: 0 <= b < |s.lines| ==> DataFits(g, s.lines[b]))
    && (forall a, b :: 0 <= a < b < |s.lines| && s.lines[a].valid && s.lines[b].valid ==>
      s.lines[a].tag != s.lines[b].tag)
  }

  predicate Shaped(g: Geometry, s: Set) {
    && |s.lines| == |s.ways| == g.assoc && (forall k :: 0 <= k < |s.ways| ==> s.ways[k] < g.assoc)
    && forall b :: 0 <= b < |s.lines| ==> DataFits(g, s.lines[b])
  }

  predicate Sized(g: Geometry, c: Cache) {
    && g.Valid() && |c.sets| == g.nsets && (forall i :: 0 <= i < |c.sets| ==> Shaped(g, c.sets[i]))
    && (c.lastBlk.Some? ==> c.lastBlk.value < g.assoc)
    && forall bn :: bn in c.mem ==> |c.mem[bn]| == g.bsize
  }

  // ---------------------------------------------------------------- one access

  /** The bytes of `data` from `ofs` replaced by `bytes`. */
  function Splice(data: seq<int>, ofs: nat, bytes: seq<int>): (r: seq<int>)
    requires ofs + |bytes| <= |data|
    ensures |r| == |data|
  {
    data[..ofs] + bytes + data[ofs + |bytes|..]
  }

  /** CACHE_BCOPY and the dirty bit */
  function Touch(line: Line, cmd: Cmd, ofs: nat): Line
    requires ofs + Bytes(cmd) <= |line.data|
  {
    match cmd
    case Read(_) => line
    case Write(bytes) => line.(data := Splice(line.data, ofs, bytes), dirty := true)
  }

  /** What a read of `data` delivers; a write delivers nothing. */
  function Fetched(data: seq<int>, cmd: Cmd, ofs: nat): seq<int>
    requires ofs + Bytes(cmd) <= |data|
  {
    match cmd
    case Read(n) => data[ofs..ofs + n]
    case Write(_) => []
  }

  datatype Error = BadAccess | SpansBlock | NullBlock

  /** New cache, bytes read, whether it hit, and the address of a valid block it replaced. */
  datatype Result = Done(c: Cache, out: seq<int>, hit: bool, replaced: Option<nat>) | Fatal(error: Error)

  function Hit(g: Geometry, c: Cache, i: nat, b: nat, bn: nat, ofs: nat, cmd: Cmd, slow: bool): Result
    requires Sized(g, c) && i < g.nsets && b < g.assoc && ofs + Bytes(cmd) <= g.bsize
  {
    var s := c.sets[i];
    var ways := if slow && g.policy == LRU then ToFront(s.ways, b) else s.ways;
    Done(c.(sets := c.sets[i := Set(s.lines[b := Touch(s.lines[b], cmd, ofs)], ways)], lastBase := bn * g.bsize,
      lastBlk := Some(b), stats := c.stats.(hits := c.stats.hits + 1)),
         Fetched(s.lines[b].data, cmd, ofs), true, None)
  }

  /** The block a miss replaces; `random` is the answer of the random-number generator. */
  function Victim(g: Geometry, s: Set, random: nat): nat
    requires Shaped(g, s) && g.assoc > 0
  {
    if g.policy == Random then random % g.assoc else s.ways[|s.ways| - 1]
  }

  /** Memory and statistics after the block `line` of set `i` has been replaced. */
  function WriteBack(g: Geometry, c: Cache, line: Line, i: nat): Cache {
    if !line.valid then c else
    var c1 := c.(stats := c.stats.(replacements := c.stats.replacements + 1));
    if !line.dirty then c1
    else c1.(mem := c1.mem[BlockOf(g, line.tag, i) := line.data],
      stats := c1.stats.(writebacks := c1.stats.writebacks + 1))
  }

  function Miss(g: Geometry, c: Cache, i: nat, bn: nat, ofs: nat, cmd: Cmd, random: nat): Result
    requires Sized(g, c) && i < g.nsets && ofs + Bytes(cmd) <= g.bsize
  {
    var s := c.sets[i];
    var b := Victim(g, s, random);
    var victim := s.lines[b];
    var ways := if g.policy == Random then s.ways else ToFront(s.ways, b);
    var c1 := WriteBack(g, c, victim, i);
    var data := MemBlock(g, c1.mem, bn);
    var line := Touch(Line(TagOf(g, bn), true, false, data), cmd, ofs);
    Done(c1.(sets := c.sets[i := Set(s.lines[b := line], ways)], lastBase := 0, lastBlk := None,
             stats := c1.stats.(misses := c1.stats.misses + 1)),
         Fetched(data, cmd, ofs), false, if victim.valid then Some(BlockOf(g, victim.tag, i) * g.bsize) else None)
  }

  predicate PowerOfTwo(n: nat)
    decreases n
  {
    n == 1 || (n > 1 && n % 2 == 0 && PowerOfTwo(n / 2))
  }

  /** Wrong size or alignment, or more than one block. */
  function Misuse(g: Geometry, addr: nat, n: nat): (r: Option<Error>)
    requires g.Valid()
    ensures r.None? ==> Offset(g, addr) + n <= g.bsize
  {
    if (if n == 0 then addr != 0 else !PowerOfTwo(n) || addr % n != 0) then Some(BadAccess)
    else if Offset(g, addr) + n > g.bsize then Some(SpansBlock)
    else None
  }

  /** The access without its fast path: look the block up, then hit or miss. */
  function Lookup(g: Geometry, c: Cache, addr: nat, cmd: Cmd, random: nat): Result
    requires Sized(g, c) && Misuse(g, addr, Bytes(cmd)).None?
  {
    var bn, ofs := BlockNo(g, addr), Offset(g, addr);
    var i := SetOf(g, bn);
    match Find(c.sets[i].lines, c.sets[i].ways, TagOf(g, bn))
    case Some(b) => Hit(g, c, i, b, bn, ofs, cmd, true)
    case None => Miss(g, c, i, bn, ofs, cmd, random)
  }

  /** cache_access, without latencies */
  function Access(g: Geometry, c: Cache, addr: nat, cmd: Cmd, random: nat): Result
    requires Sized(g, c)
  {
    var bn := BlockNo(g, addr);
    if Misuse(g, addr, Bytes(cmd)).Some? then Fatal(Misuse(g, addr, Bytes(cmd)).value)
    else if bn * g.bsize == c.lastBase then
      if c.lastBlk.None? then Fatal(NullBlock)
      else Hit(g, c, SetOf(g, bn), c.lastBlk.value, bn, Offset(g, addr), cmd, false)
    else Lookup(g, c, addr, cmd, random)
  }

  /** cache_probe */
  predicate Probe(g: Geometry, c: Cache, addr: nat)
    requires Sized(g, c)
  {
    var bn := BlockNo(g, addr);
    Find(c.sets[SetOf(g, bn)].lines, c.sets[SetOf(g, bn)].ways, TagOf(g, bn)).Some?
  }

  // ---------------------------------------------------------------- flushes

  /** Invalidate block `b` of set `i`, writing it back if it is dirty. */
  function Drop(g: Geometry, c: Cache, i: nat, b: nat): Cache
    requires i < |c.sets| && b < |c.sets[i].lines|
  {
    var s := c.sets[i];
    var line := s.lines[b];
    c.(sets := c.sets[i := s.(lines := s.lines[b := line.(valid := false)])],
       mem := if line.dirty then c.mem[BlockOf(g, line.tag, i) := line.data] else c.mem,
       stats := c.stats.(invalidations := c.stats.invalidations + 1))
  }

  /** cache_flush_addr */
  function FlushAddr(g: Geometry, c: Cache, addr: nat): Cache
    requires Sized(g, c)
  {
    var bn := BlockNo(g, addr);
    var i := SetOf(g, bn);
    var s := c.sets[i];
    match Find(s.lines, s.ways, TagOf(g, bn))
    case None => c
    case Some(b) =>
      var c1 := Drop(g, c, i, b);
      c1.(sets := c1.sets[i := c1.sets[i].(ways := ToBack(s.ways, b))], lastBase := 0, lastBlk := None)
  }

  /** The inner loop of cache_flush, over the rest `ways` of the way list of set `i`. */
  function FlushWays(g: Geometry, c: Cache, i: nat, ways: seq<nat>): (r: Cache)
    requires i < |c.sets| && forall k :: 0 <= k < |ways| ==> ways[k] < |c.sets[i].lines|
    ensures |r.sets| == |c.sets| && |r.sets[i].lines| == |c.sets[i].lines| && r.sets[i].ways == c.sets[i].ways
    ensures forall j :: 0 <= j < |c.sets| && j != i ==> r.sets[j] == c.sets[j]
    decreases |ways|
  {
    if ways == [] then c
    else FlushWays(g, if c.sets[i].lines[ways[0]].valid then Drop(g, c, i, ways[0]) else c, i, ways[1..])
  }

  /** The outer loop of cache_flush, from set `i` on. */
  function FlushSets(g: Geometry, c: Cache, i: nat): (r: Cache)
    requires |c.sets| == g.nsets && i <= g.nsets
    requires forall j :: 0 <= j < g.nsets ==> forall k :: 0 <= k < |c.sets[j].ways| ==>
      c.sets[j].ways[k] < |c.sets[j].lines|
    decreases g.nsets - i
  {
    if i == g.nsets then c else FlushSets(g, FlushWays(g, c, i, c.sets[i].ways), i + 1)
  }

  /** cache_flush */
  function Flush(g: Geometry, c: Cache): Cache
    requires Sized(g, c)
  {
    FlushSets(g, c.(lastBase := 0, lastBlk := None), 0)
  }

  /** `n - 1` down to zero. */
  function Countdown(n: nat): seq<nat> {
    seq(n, k requires 0 <= k < n => n - 1 - k)
  }

  /** A new set: all blocks invalid, and the way list in reverse order of allocation. */
  function Blank(g: Geometry): Set {
    Set(seq(g.assoc, _ => Line(0, false, false, seq(g.bsize, _ => 0))), Countdown(g.assoc))
  }

  /** cache_create */
  function Initial(g: Geometry, mem: map<nat, seq<int>>): Cache {
    Cache(seq(g.nsets, _ => Blank(g)), 0, None, mem, Stats(0, 0, 0, 0, 0))
  }
}
