/**
 * What every cache operation keeps, and that the cache behaves as flat memory.
 */
module CacheProofs {
  import opened Common
  import opened CacheModel

  // ---------------------------------------------------------------- block numbers

  lemma MulAtLeast(k: nat, n: nat)
    requires k >= 1
    ensures k * n >= n
  {
    assert k * n == (k - 1) * n + n;
  }

  lemma Quotient(q: int, r: int, q': int, r': int, n: int)
    requires n > 0 && 0 <= r < n && 0 <= r' < n && q * n + r == q' * n + r'
    ensures q == q' && r == r'
  {
    assert (q - q') * n == r' - r;
    if q > q' {
      MulAtLeast(q - q', n);
    } else if q < q' {
      assert (q' - q) * n == r - r';
      MulAtLeast(q' - q, n);
    }
  }

  lemma DivMul(t: nat, n: nat, i: nat)
    requires n > 0 && i < n
    ensures (t * n + i) / n == t && (t * n + i) % n == i
  {
    var x := t * n + i;
    Quotient(x / n, x % n, t, i, n);
  }

  /** Tag and set name a block. */
  lemma BlockParts(g: Geometry, tag: nat, i: nat)
    requires g.Valid() && i < g.nsets
    ensures TagOf(g, BlockOf(g, tag, i)) == tag && SetOf(g, BlockOf(g, tag, i)) == i
  {
    DivMul(tag, g.nsets, i);
  }

  lemma PartsBlock(g: Geometry, bn: nat)
    requires g.Valid()
    ensures SetOf(g, bn) < g.nsets && BlockOf(g, TagOf(g, bn), SetOf(g, bn)) == bn
  {
  }

  // ---------------------------------------------------------------- way lists

  lemma {:induction false} WithoutAt(ways: seq<nat>, k: nat)
    requires k < |ways| && forall i, j :: 0 <= i < j < |ways| ==> ways[i] != ways[j]
    ensures Without(ways, ways[k]) == ways[..k] + ways[k + 1..]
  {
    if k == 0 {
      WithoutNone(ways[1..], ways[0]);
    } else {
      WithoutAt(ways[1..], k - 1);
      assert ways[1..][k - 1] == ways[k] && ways[1..][k - 1 + 1..] == ways[k + 1..] &&
        [ways[0]] + ways[1..][..k - 1] == ways[..k];
    }
  }

  lemma {:induction false} WithoutNone(ways: seq<nat>, b: nat)
    requires b !in ways
    ensures Without(ways, b) == ways
  {
    if ways == [] {
    } else {
      WithoutNone(ways[1..], b);
    }
  }

  /** A way list without repeats that names exactly the blocks below `n`. */
  ghost predicate Permutes(ways: seq<nat>, n: nat) {
    && |ways| == n && (forall k :: 0 <= k < |ways| ==> ways[k] < n)
    && (forall j, k :: 0 <= j < k < |ways| ==> ways[j] != ways[k]) && (forall b :: 0 <= b < n ==> b in ways)
  }

  lemma FrontPermutes(ways: seq<nat>, k: nat, n: nat)
    requires Permutes(ways, n) && k < |ways|
    ensures Permutes([ways[k]] + (ways[..k] + ways[k + 1..]), n)
  {
    var front := [ways[k]] + (ways[..k] + ways[k + 1..]);
    forall b | 0 <= b < n ensures b in front {
      assert b in ways;
      var j :| 0 <= j < |ways| && ways[j] == b;
      assert front[if j == k then 0 else if j < k then j + 1 else j] == b;
    }
    forall j | 0 <= j < n ensures front[j] == ways[if j == 0 then k else if j <= k then j - 1 else j] {
    }
  }

  lemma BackPermutes(ways: seq<nat>, k: nat, n: nat)
    requires Permutes(ways, n) && k < |ways|
    ensures Permutes(ways[..k] + ways[k + 1..] + [ways[k]], n)
  {
    var back := ways[..k] + ways[k + 1..] + [ways[k]];
    forall b | 0 <= b < n ensures b in back {
      assert b in ways;
      var j :| 0 <= j < |ways| && ways[j] == b;
      assert back[if j == k then n - 1 else if j < k then j else j - 1] == b;
    }
    forall j | 0 <= j < n ensures back[j] == ways[if j == n - 1 then k else if j < k then j else j + 1] {
    }
  }

  lemma WayOf(ways: seq<nat>, b: nat, n: nat) returns (k: nat)
    requires Permutes(ways, n) && b < n
    ensures k < |ways| && ways[k] == b && Without(ways, b) == ways[..k] + ways[k + 1..]
  {
    assert b in ways;
    k :| 0 <= k < |ways| && ways[k] == b;
    WithoutAt(ways, k);
  }

  /** Moving a block to either end keeps a way list a permutation. */
  lemma ReorderPermutes(ways: seq<nat>, b: nat, n: nat)
    requires Permutes(ways, n) && b < n
    ensures Permutes(ToFront(ways, b), n) && Permutes(ToBack(ways, b), n)
  {
    var k := WayOf(ways, b, n);
    FrontPermutes(ways, k, n);
    BackPermutes(ways, k, n);
    hide Permutes, Without;
  }

  // ---------------------------------------------------------------- lookup

  lemma {:induction false} FindAlong(lines: seq<Line>, ways: seq<nat>, tag: nat)
    requires forall k :: 0 <= k < |ways| ==> ways[k] < |lines|
    ensures match Find(lines, ways, tag)
      case Some(b) => b in ways && lines[b].valid && lines[b].tag == tag
      case None => forall k :: 0 <= k < |ways| ==> !(lines[ways[k]].valid && lines[ways[k]].tag == tag)
  {
    if ways == [] {
    } else {
      FindAlong(lines, ways[1..], tag);
      assert forall k :: 0 < k < |ways| ==> ways[k] == ways[1..][k - 1];
    }
  }

  /** Lookup finds the one block that holds the tag, whatever the order of the way list. */
  lemma FindIs(g: Geometry, s: Set, tag: nat)
    requires SetOk(g, s)
    ensures match Find(s.lines, s.ways, tag)
      case Some(b) => s.lines[b].valid && s.lines[b].tag == tag
      case None => forall b :: 0 <= b < g.assoc ==> !(s.lines[b].valid && s.lines[b].tag == tag)
    ensures forall b :: 0 <= b < g.assoc && s.lines[b].valid && s.lines[b].tag == tag ==>
      Find(s.lines, s.ways, tag) == Some(b)
  {
    FindAlong(s.lines, s.ways, tag);
    if Find(s.lines, s.ways, tag).None? {
      forall b | 0 <= b < g.assoc ensures !(s.lines[b].valid && s.lines[b].tag == tag) {
        assert b in s.ways;
        var k :| 0 <= k < |s.ways| && s.ways[k] == b;
      }
    }
    hide Find;
  }

  // ---------------------------------------------------------------- what every operation keeps

  /** Unless replacement is random, valid blocks come first in the way list. */
  ghost predicate ValidFirst(g: Geometry, s: Set)
    requires SetOk(g, s)
  {
    g.policy != Random ==>
      forall j, k :: 0 <= j < k < g.assoc && s.lines[s.ways[k]].valid ==> s.lines[s.ways[j]].valid
  }

  /** Clean blocks agree with memory. */
  ghost predicate CleanSet(g: Geometry, s: Set, i: nat, mem: map<nat, seq<int>>) {
    forall b :: 0 <= b < |s.lines| && s.lines[b].valid && !s.lines[b].dirty ==>
      s.lines[b].data == MemBlock(g, mem, BlockOf(g, s.lines[b].tag, i))
  }

  ghost predicate GoodSet(g: Geometry, s: Set, i: nat, mem: map<nat, seq<int>>) {
    SetOk(g, s) && ValidFirst(g, s) && CleanSet(g, s, i, mem)
  }

  /** The fast path names a valid resident block, at the head of its way list under LRU. */
  ghost predicate LastOk(g: Geometry, c: Cache)
    requires Sized(g, c)
  {
    match c.lastBlk
    case None => c.lastBase == 0
    case Some(b) =>
      var bn := BlockNo(g, c.lastBase);
      var s := c.sets[SetOf(g, bn)];
      c.lastBase == bn * g.bsize && s.lines[b].valid && s.lines[b].tag == TagOf(g, bn) &&
        (g.policy == LRU ==> s.ways[0] == b)
  }

  function CountValid(lines: seq<Line>): nat {
    if lines == [] then 0 else (if lines[0].valid then 1 else 0) + CountValid(lines[1..])
  }

  function TotalValid(sets: seq<Set>): nat {
    if sets == [] then 0 else CountValid(sets[0].lines) + TotalValid(sets[1..])
  }

  /** Every block fetched has been replaced, invalidated, or is still valid. */
  ghost predicate Balanced(c: Cache) {
    c.stats.misses == c.stats.replacements + c.stats.invalidations + TotalValid(c.sets)
  }

  ghost predicate CacheOk(g: Geometry, c: Cache) {
    && Sized(g, c) && LastOk(g, c) && Balanced(c)
    && forall i :: 0 <= i < g.nsets ==> GoodSet(g, c.sets[i], i, c.mem)
  }

  // ---------------------------------------------------------------- the fast path

  lemma FrontAlready(ways: seq<nat>)
    requires ways != [] && forall i, j :: 0 <= i < j < |ways| ==> ways[i] != ways[j]
    ensures ToFront(ways, ways[0]) == ways
  {
    WithoutAt(ways, 0);
  }

  /**
   * The fast path changes nothing: an access gives what a lookup gives, except that it crashes on
   * block zero when no block was the last to hit.
   */
  lemma FastPathIsExact(g: Geometry, c: Cache, addr: nat, cmd: Cmd, random: nat)
    requires CacheOk(g, c) && Misuse(g, addr, Bytes(cmd)).None?
    ensures Access(g, c, addr, cmd, random) ==
      if BlockNo(g, addr) == 0 && c.lastBlk.None? then Fatal(NullBlock) else Lookup(g, c, addr, cmd, random)
  {
    var bn := BlockNo(g, addr);
    if bn * g.bsize == c.lastBase {
      if c.lastBlk.None? {
        ZeroProduct(bn, g.bsize);
      } else {
        ProductInjective(bn, BlockNo(g, c.lastBase), g.bsize);
        assert GoodSet(g, c.sets[SetOf(g, bn)], SetOf(g, bn), c.mem);
        FindIs(g, c.sets[SetOf(g, bn)], TagOf(g, bn));
        FrontAlready(c.sets[SetOf(g, bn)].ways);
        hide Find, Without, TotalValid;
      }
    } else {
      assert bn == 0 ==> bn * g.bsize == 0;
    }
  }

  lemma ZeroProduct(a: nat, n: nat)
    requires n > 0 && a * n == 0
    ensures a == 0
  {
  }

  lemma ProductInjective(a: nat, b: nat, n: nat)
    requires n > 0 && a * n == b * n
    ensures a == b
  {
    DivMul(a, n, 0);
    DivMul(b, n, 0);
  }

  // ---------------------------------------------------------------- counting valid blocks

  lemma {:induction false} CountUpdate(lines: seq<Line>, b: nat, line: Line)
    requires b < |lines|
    ensures CountValid(lines[b := line]) + (if lines[b].valid then 1 else 0) ==
      CountValid(lines) + (if line.valid then 1 else 0)
  {
    if b == 0 {
      assert lines[0 := line][1..] == lines[1..];
    } else {
      assert lines[b := line][1..] == lines[1..][b - 1 := line];
      CountUpdate(lines[1..], b - 1, line);
    }
  }

  lemma {:induction false} TotalUpdate(sets: seq<Set>, i: nat, s: Set)
    requires i < |sets|
    ensures TotalValid(sets[i := s]) + CountValid(sets[i].lines) == TotalValid(sets) + CountValid(s.lines)
  {
    if i == 0 {
      assert sets[0 := s][1..] == sets[1..];
    } else {
      assert sets[i := s][1..] == sets[1..][i - 1 := s];
      TotalUpdate(sets[1..], i - 1, s);
    }
  }

  /** Changing one block of one set changes the count by that block. */
  lemma TotalLine(sets: seq<Set>, i: nat, b: nat, line: Line, ways: seq<nat>)
    requires i < |sets| && b < |sets[i].lines|
    ensures TotalValid(sets[i := Set(sets[i].lines[b := line], ways)]) + (if sets[i].lines[b].valid then 1 else 0) ==
      TotalValid(sets) + (if line.valid then 1 else 0)
  {
    CountUpdate(sets[i].lines, b, line);
    TotalUpdate(sets, i, Set(sets[i].lines[b := line], ways));
  }

  // ---------------------------------------------------------------- one set

  lemma SetPermutes(g: Geometry, s: Set)
    requires SetOk(g, s)
    ensures Permutes(s.ways, g.assoc)
  {
  }

  /** Reordering and replacing one block keep a set in shape if the block's tag stays unique. */
  lemma SetUpdate(g: Geometry, s: Set, b: nat, line: Line, ways: seq<nat>)
    requires SetOk(g, s) && b < g.assoc && DataFits(g, line) && Permutes(ways, g.assoc)
    requires line.valid ==> forall a :: 0 <= a < g.assoc && a != b && s.lines[a].valid ==> s.lines[a].tag != line.tag
    ensures SetOk(g, Set(s.lines[b := line], ways))
  {
  }

  /** Validity along a way list after the block at position `k` has moved to the front. */
  lemma FrontValid(g: Geometry, s: Set, b: nat, line: Line)
    requires SetOk(g, s) && ValidFirst(g, s) && b < g.assoc && line.valid
    requires SetOk(g, Set(s.lines[b := line], ToFront(s.ways, b)))
    requires s.lines[b].valid || s.ways[g.assoc - 1] == b
    ensures ValidFirst(g, Set(s.lines[b := line], ToFront(s.ways, b)))
  {
    SetPermutes(g, s);
    var k := WayOf(s.ways, b, g.assoc);
    hide Without, Permutes;
    var front := [b] + (s.ways[..k] + s.ways[k + 1..]);
    forall j | 1 <= j < g.assoc ensures front[j] == s.ways[if j <= k then j - 1 else j] && front[j] != b {
    }
  }

  /** A block that becomes or stays valid in place keeps the others' order. */
  lemma PlaceValid(g: Geometry, s: Set, b: nat, line: Line)
    requires SetOk(g, s) && ValidFirst(g, s) && b < g.assoc && line.valid == s.lines[b].valid
    requires SetOk(g, Set(s.lines[b := line], s.ways))
    ensures ValidFirst(g, Set(s.lines[b := line], s.ways))
  {
  }

  lemma TouchKeeps(line: Line, cmd: Cmd, ofs: nat)
    requires ofs + Bytes(cmd) <= |line.data|
    ensures var t := Touch(line, cmd, ofs);
      && t.tag == line.tag && t.valid == line.valid && |t.data| == |line.data| && (!t.dirty ==> t == line)
  {
  }

  /** A hit keeps a set good. */
  lemma HitSet(g: Geometry, s: Set, i: nat, mem: map<nat, seq<int>>, b: nat, cmd: Cmd, ofs: nat)
    requires g.Valid() && GoodSet(g, s, i, mem) && b < g.assoc && s.lines[b].valid && ofs + Bytes(cmd) <= g.bsize
    ensures var ways := if g.policy == LRU then ToFront(s.ways, b) else s.ways;
      GoodSet(g, Set(s.lines[b := Touch(s.lines[b], cmd, ofs)], ways), i, mem)
  {
    var ways := if g.policy == LRU then ToFront(s.ways, b) else s.ways;
    var line := Touch(s.lines[b], cmd, ofs);
    SetPermutes(g, s);
    ReorderPermutes(s.ways, b, g.assoc);
    TouchKeeps(s.lines[b], cmd, ofs);
    SetUpdate(g, s, b, line, ways);
    hide Touch, Permutes, ToFront, SetOk, MemBlock, BlockOf;
    if g.policy == LRU {
      FrontValid(g, s, b, line);
    } else {
      PlaceValid(g, s, b, line);
    }
    hide ValidFirst;
    SetSizes(g, s);
  }

  lemma SetSizes(g: Geometry, s: Set)
    requires SetOk(g, s)
    ensures |s.lines| == g.assoc
  {
  }

  /** What lookup finds after block `b` has become `line`. */
  lemma FindAfter(g: Geometry, s: Set, b: nat, line: Line, ways: seq<nat>, t: nat)
    requires SetOk(g, s) && b < g.assoc && SetOk(g, Set(s.lines[b := line], ways))
    ensures Find(s.lines[b := line], ways, t) ==
      if line.valid && line.tag == t then Some(b)
      else if s.lines[b].valid && s.lines[b].tag == t then None
      else Find(s.lines, s.ways, t)
  {
    var s1 := Set(s.lines[b := line], ways);
    FindIs(g, s, t);
    FindIs(g, s1, t);
    hide Find;
    if !(line.valid && line.tag == t) && !(s.lines[b].valid && s.lines[b].tag == t) && Find(s.lines, s.ways, t).Some? {
      assert s1.lines[Find(s.lines, s.ways, t).value] == s.lines[Find(s.lines, s.ways, t).value];
    }
  }

  // ---------------------------------------------------------------- replacing a block

  /** Memory after the replaced block has been written back. */
  lemma WriteBackMem(g: Geometry, c: Cache, line: Line, i: nat, bn: nat)
    ensures MemBlock(g, WriteBack(g, c, line, i).mem, bn) ==
      if line.valid && line.dirty && bn == BlockOf(g, line.tag, i) then line.data else MemBlock(g, c.mem, bn)
  {
  }

  lemma BlocksDiffer(g: Geometry, t: nat, i: nat, t': nat, j: nat)
    requires g.Valid() && i < g.nsets && j < g.nsets && (t != t' || i != j)
    ensures BlockOf(g, t, i) != BlockOf(g, t', j)
  {
    BlockParts(g, t, i);
    BlockParts(g, t', j);
  }

  /** The victim of a miss is valid only if every block is, and then it goes to the front. */
  lemma VictimFits(g: Geometry, s: Set, random: nat)
    requires g.Valid() && SetOk(g, s)
    ensures Shaped(g, s) && Victim(g, s, random) < g.assoc
    ensures g.policy != Random ==> Victim(g, s, random) == s.ways[g.assoc - 1]
  {
  }

  /** A clean block of another tag still agrees with memory after a write-back. */
  lemma CleanAfter(g: Geometry, c: Cache, s: Set, i: nat, victim: Line, j: nat)
    requires g.Valid() && CleanSet(g, s, i, c.mem) && i < g.nsets && j < g.nsets
    requires i == j ==> forall a :: 0 <= a < |s.lines| && s.lines[a].valid && !s.lines[a].dirty ==>
      !(victim.valid && victim.dirty && s.lines[a].tag == victim.tag)
    ensures CleanSet(g, s, i, WriteBack(g, c, victim, j).mem)
  {
    hide MemBlock, BlockOf, WriteBack;
    forall a | 0 <= a < |s.lines| && s.lines[a].valid && !s.lines[a].dirty
      ensures MemBlock(g, WriteBack(g, c, victim, j).mem, BlockOf(g, s.lines[a].tag, i)) ==
        MemBlock(g, c.mem, BlockOf(g, s.lines[a].tag, i))
    {
      WriteBackMem(g, c, victim, j, BlockOf(g, s.lines[a].tag, i));
      if victim.valid && victim.dirty {
        BlocksDiffer(g, s.lines[a].tag, i, victim.tag, j);
      }
    }
  }

  /** The set a miss leaves: the victim's block holds the new line. */
  lemma MissSet(g: Geometry, c: Cache, i: nat, bn: nat, ofs: nat, cmd: Cmd, random: nat)
    requires CacheOk(g, c) && i == SetOf(g, bn) && i < g.nsets && ofs + Bytes(cmd) <= g.bsize
    requires Find(c.sets[i].lines, c.sets[i].ways, TagOf(g, bn)).None?
    ensures var r := Miss(g, c, i, bn, ofs, cmd, random).c; GoodSet(g, r.sets[i], i, r.mem)
  {
    var s := c.sets[i];
    assert GoodSet(g, s, i, c.mem);
    VictimFits(g, s, random);
    var b := Victim(g, s, random);
    var c1 := WriteBack(g, c, s.lines[b], i);
    var data := MemBlock(g, c1.mem, bn);
    var line := Touch(Line(TagOf(g, bn), true, false, data), cmd, ofs);
    var ways := if g.policy == Random then s.ways else ToFront(s.ways, b);
    WriteBackMem(g, c, s.lines[b], i, bn);
    TouchKeeps(Line(TagOf(g, bn), true, false, data), cmd, ofs);
    FindIs(g, s, TagOf(g, bn));
    SetPermutes(g, s);
    ReorderPermutes(s.ways, b, g.assoc);
    SetUpdate(g, s, b, line, ways);
    MissFirst(g, s, b, line, ways);
    MissClean(g, c, i, bn, b, line, ways, cmd, ofs);
    hide CacheOk, SetOk, ValidFirst, CleanSet, Find, Victim, ToFront, MemBlock, WriteBack, Touch, Fetched;
  }

  lemma MissFirst(g: Geometry, s: Set, b: nat, line: Line, ways: seq<nat>)
    requires g.Valid() && SetOk(g, s) && ValidFirst(g, s) && b < g.assoc && line.valid
    requires g.policy != Random ==> b == s.ways[g.assoc - 1] && ways == ToFront(s.ways, b)
    requires SetOk(g, Set(s.lines[b := line], ways))
    ensures ValidFirst(g, Set(s.lines[b := line], ways))
  {
    if g.policy != Random {
      FrontValid(g, s, b, line);
    }
  }

  lemma MissClean(g: Geometry, c: Cache, i: nat, bn: nat, b: nat, line: Line, ways: seq<nat>, cmd: Cmd, ofs: nat)
    requires g.Valid() && i < g.nsets && |c.sets| == g.nsets && SetOk(g, c.sets[i]) &&
      CleanSet(g, c.sets[i], i, c.mem) && b < g.assoc && i == SetOf(g, bn)
    requires var data := MemBlock(g, WriteBack(g, c, c.sets[i].lines[b], i).mem, bn);
      ofs + Bytes(cmd) <= |data| && line == Touch(Line(TagOf(g, bn), true, false, data), cmd, ofs)
    ensures CleanSet(g, Set(c.sets[i].lines[b := line], ways), i, WriteBack(g, c, c.sets[i].lines[b], i).mem)
  {
    hide MemBlock, WriteBack, Touch, BlockOf, SetOf, TagOf, Splice;
    var s := c.sets[i];
    var mem := WriteBack(g, c, s.lines[b], i).mem;
    TouchKeeps(Line(TagOf(g, bn), true, false, MemBlock(g, mem, bn)), cmd, ofs);
    PartsBlock(g, bn);
    forall a | 0 <= a < |s.lines| && a != b && s.lines[a].valid && !s.lines[a].dirty
      ensures s.lines[a].data == MemBlock(g, mem, BlockOf(g, s.lines[a].tag, i))
    {
      OtherClean(g, c, i, b, a);
    }
  }

  lemma OtherClean(g: Geometry, c: Cache, i: nat, b: nat, a: nat)
    requires g.Valid() && i < g.nsets && |c.sets| == g.nsets && SetOk(g, c.sets[i]) &&
      CleanSet(g, c.sets[i], i, c.mem) && b < g.assoc
    requires a < g.assoc && a != b && c.sets[i].lines[a].valid && !c.sets[i].lines[a].dirty
    ensures c.sets[i].lines[a].data ==
      MemBlock(g, WriteBack(g, c, c.sets[i].lines[b], i).mem, BlockOf(g, c.sets[i].lines[a].tag, i))
  {
    var s := c.sets[i];
    hide MemBlock, WriteBack, BlockOf;
    WriteBackMem(g, c, s.lines[b], i, BlockOf(g, s.lines[a].tag, i));
    if s.lines[b].valid {
      BlocksDiffer(g, s.lines[a].tag, i, s.lines[b].tag, i);
    }
  }

  // ---------------------------------------------------------------- the memory the cache shows

  /** What the set `s` and the memory behind it hold for block `bn`. */
  function Shown(g: Geometry, s: Set, mem: map<nat, seq<int>>, bn: nat): seq<int>
    requires g.Valid() && Shaped(g, s)
  {
    match Find(s.lines, s.ways, TagOf(g, bn))
    case Some(b) => s.lines[b].data
    case None => MemBlock(g, mem, bn)
  }

  /** What the cache and the memory behind it hold for block `bn`. */
  function Content(g: Geometry, c: Cache, bn: nat): seq<int>
    requires Sized(g, c)
  {
    Shown(g, c.sets[SetOf(g, bn)], c.mem, bn)
  }

  /** The block after the command. */
  function Changed(data: seq<int>, cmd: Cmd, ofs: nat): (r: seq<int>)
    requires ofs + Bytes(cmd) <= |data|
    ensures |r| == |data|
  {
    match cmd
    case Read(_) => data
    case Write(bytes) => Splice(data, ofs, bytes)
  }

  lemma ContentFits(g: Geometry, c: Cache, bn: nat)
    requires Sized(g, c)
    ensures |Content(g, c, bn)| == g.bsize
  {
    assert Shaped(g, c.sets[SetOf(g, bn)]);
    hide Find;
  }

  lemma HitShown(g: Geometry, s: Set, mem: map<nat, seq<int>>, b: nat, cmd: Cmd, ofs: nat, ways: seq<nat>, bn: nat)
    requires g.Valid() && SetOk(g, s) && b < g.assoc && s.lines[b].valid && ofs + Bytes(cmd) <= g.bsize
    requires SetOk(g, Set(s.lines[b := Touch(s.lines[b], cmd, ofs)], ways))
    ensures Shaped(g, s) && Shaped(g, Set(s.lines[b := Touch(s.lines[b], cmd, ofs)], ways))
    ensures Shown(g, Set(s.lines[b := Touch(s.lines[b], cmd, ofs)], ways), mem, bn) ==
      if TagOf(g, bn) == s.lines[b].tag then Changed(s.lines[b].data, cmd, ofs) else Shown(g, s, mem, bn)
  {
    FindAfter(g, s, b, Touch(s.lines[b], cmd, ofs), ways, TagOf(g, bn));
    FindIs(g, s, TagOf(g, bn));
    hide Find;
  }

  /** Two blocks of the same set are the same block when their tags agree. */
  lemma SameBlock(g: Geometry, bn: nat, bn': nat)
    requires g.Valid() && SetOf(g, bn) == SetOf(g, bn') && TagOf(g, bn) == TagOf(g, bn')
    ensures bn == bn'
  {
    PartsBlock(g, bn);
    PartsBlock(g, bn');
  }

  /** What an access is to do with what the cache shows. */
  ghost predicate Serves(g: Geometry, c: Cache, bn: nat, ofs: nat, cmd: Cmd, r: Result)
    requires Sized(g, c) && ofs + Bytes(cmd) <= g.bsize
  {
    ContentFits(g, c, bn);
    && r.Done? && Sized(g, r.c)
    && r.out == Fetched(Content(g, c, bn), cmd, ofs)
    && forall bn': nat ::
         Content(g, r.c, bn') == if bn' == bn then Changed(Content(g, c, bn), cmd, ofs) else Content(g, c, bn')
  }

  lemma GoodShaped(g: Geometry, s: Set, i: nat, mem: map<nat, seq<int>>)
    requires GoodSet(g, s, i, mem)
    ensures SetOk(g, s) && Shaped(g, s)
  {
  }

  lemma HitIs(g: Geometry, c: Cache, bn: nat, b: nat, ofs: nat, cmd: Cmd)
    requires CacheOk(g, c) && ofs + Bytes(cmd) <= g.bsize
    requires var s := c.sets[SetOf(g, bn)]; Find(s.lines, s.ways, TagOf(g, bn)) == Some(b)
    ensures var i := SetOf(g, bn); var s := c.sets[i]; var r := Hit(g, c, i, b, bn, ofs, cmd, true).c;
      && GoodSet(g, s, i, c.mem) && GoodSet(g, r.sets[i], i, c.mem) && s.lines[b].valid &&
        s.lines[b].tag == TagOf(g, bn)
      && r.mem == c.mem && (forall j :: 0 <= j < g.nsets && j != i ==> r.sets[j] == c.sets[j])
  {
    var i := SetOf(g, bn);
    var s := c.sets[i];
    assert GoodSet(g, s, i, c.mem);
    FindIs(g, s, TagOf(g, bn));
    HitSet(g, s, i, c.mem, b, cmd, ofs);
    hide GoodSet, Find, Touch, ToFront, Balanced, LastOk, TagOf;
  }

  lemma HitLast(g: Geometry, c: Cache, bn: nat, b: nat, ofs: nat, cmd: Cmd)
    requires CacheOk(g, c) && ofs + Bytes(cmd) <= g.bsize && b < g.assoc
    requires var s := c.sets[SetOf(g, bn)]; s.lines[b].valid && s.lines[b].tag == TagOf(g, bn)
    requires Sized(g, Hit(g, c, SetOf(g, bn), b, bn, ofs, cmd, true).c)
    ensures var r := Hit(g, c, SetOf(g, bn), b, bn, ofs, cmd, true).c; LastOk(g, r) && Balanced(r)
  {
    var i := SetOf(g, bn);
    var s := c.sets[i];
    DivMul(bn, g.bsize, 0);
    TouchKeeps(s.lines[b], cmd, ofs);
    var ways := if g.policy == LRU then ToFront(s.ways, b) else s.ways;
    TotalLine(c.sets, i, b, Touch(s.lines[b], cmd, ofs), ways);
    hide Touch, TotalValid, GoodSet;
  }

  /** A hit serves the command and keeps the cache good. */
  lemma HitOk(g: Geometry, c: Cache, bn: nat, b: nat, ofs: nat, cmd: Cmd)
    requires CacheOk(g, c) && ofs + Bytes(cmd) <= g.bsize
    requires var s := c.sets[SetOf(g, bn)]; Find(s.lines, s.ways, TagOf(g, bn)) == Some(b)
    ensures var r := Hit(g, c, SetOf(g, bn), b, bn, ofs, cmd, true); CacheOk(g, r.c) && Serves(g, c, bn, ofs, cmd, r)
  {
    var i := SetOf(g, bn);
    var s := c.sets[i];
    var r := Hit(g, c, i, b, bn, ofs, cmd, true);
    HitIs(g, c, bn, b, ofs, cmd);
    forall j | 0 <= j < g.nsets ensures GoodSet(g, r.c.sets[j], j, r.c.mem) && Shaped(g, r.c.sets[j]) {
      GoodShaped(g, r.c.sets[j], j, r.c.mem);
    }
    HitLast(g, c, bn, b, ofs, cmd);
    HitServes(g, c, bn, b, ofs, cmd);
    hide GoodSet, LastOk, Balanced, Serves, Shaped, Find, Hit;
  }

  lemma HitServes(g: Geometry, c: Cache, bn: nat, b: nat, ofs: nat, cmd: Cmd)
    requires CacheOk(g, c) && ofs + Bytes(cmd) <= g.bsize
    requires var s := c.sets[SetOf(g, bn)]; Find(s.lines, s.ways, TagOf(g, bn)) == Some(b)
    requires Sized(g, Hit(g, c, SetOf(g, bn), b, bn, ofs, cmd, true).c)
    ensures Serves(g, c, bn, ofs, cmd, Hit(g, c, SetOf(g, bn), b, bn, ofs, cmd, true))
  {
    var i := SetOf(g, bn);
    var s := c.sets[i];
    var r := Hit(g, c, i, b, bn, ofs, cmd, true);
    HitIs(g, c, bn, b, ofs, cmd);
    ContentFits(g, c, bn);
    GoodShaped(g, s, i, c.mem);
    GoodShaped(g, r.c.sets[i], i, c.mem);
    var ways := if g.policy == LRU then ToFront(s.ways, b) else s.ways;
    forall bn': nat ensures Content(g, r.c, bn') ==
      if bn' == bn then Changed(Content(g, c, bn), cmd, ofs) else Content(g, c, bn') {
      if SetOf(g, bn') == i {
        HitShown(g, s, c.mem, b, cmd, ofs, ways, bn');
        if TagOf(g, bn') == TagOf(g, bn) {
          SameBlock(g, bn, bn');
        }
      }
      hide GoodSet, CacheOk, Find, Touch, Changed, ToFront, SetOk;
    }
    hide GoodSet, CacheOk, ToFront, SetOk;
  }

  // ---------------------------------------------------------------- a miss

  /** What a set shows after block `b` has been replaced by one holding `tag`. */
  lemma ReplacedShown(g: Geometry, s: Set, mem: map<nat, seq<int>>, mem': map<nat, seq<int>>, b: nat, line: Line,
                      ways: seq<nat>, bn: nat)
    requires g.Valid() && SetOk(g, s) && b < g.assoc && line.valid && SetOk(g, Set(s.lines[b := line], ways))
    requires s.lines[b].valid && s.lines[b].tag == TagOf(g, bn) && line.tag != TagOf(g, bn) ==>
      MemBlock(g, mem', bn) == s.lines[b].data
    requires !(s.lines[b].valid && s.lines[b].tag == TagOf(g, bn)) ==> MemBlock(g, mem', bn) == MemBlock(g, mem, bn)
    ensures Shaped(g, s) && Shaped(g, Set(s.lines[b := line], ways))
    ensures Shown(g, Set(s.lines[b := line], ways), mem', bn) ==
      if line.tag == TagOf(g, bn) then line.data else Shown(g, s, mem, bn)
  {
    FindAfter(g, s, b, line, ways, TagOf(g, bn));
    FindIs(g, s, TagOf(g, bn));
    hide Find, MemBlock;
  }

  /** Memory after the write-back of a miss, at a block of the same set. */
  lemma MissMem(g: Geometry, c: Cache, i: nat, b: nat, bn: nat)
    requires CacheOk(g, c) && i == SetOf(g, bn) && b < g.assoc
    ensures var victim := c.sets[i].lines[b]; var mem := WriteBack(g, c, victim, i).mem;
      MemBlock(g, mem, bn) == if victim.valid && victim.tag == TagOf(g, bn) then victim.data else MemBlock(g, c.mem, bn)
  {
    assert GoodSet(g, c.sets[i], i, c.mem);
    hide WriteBack, MemBlock, BlockOf, LastOk, Balanced;
    DropMem(g, c, i, b, bn);
  }

  lemma OtherSetMem(g: Geometry, c: Cache, line: Line, i: nat, bn: nat)
    requires g.Valid() && i < g.nsets && SetOf(g, bn) != i
    ensures MemBlock(g, WriteBack(g, c, line, i).mem, bn) == MemBlock(g, c.mem, bn)
  {
    WriteBackMem(g, c, line, i, bn);
    PartsBlock(g, bn);
    BlocksDiffer(g, line.tag, i, TagOf(g, bn), SetOf(g, bn));
  }

  lemma WriteBackKeeps(g: Geometry, c: Cache, line: Line, i: nat)
    requires |line.data| == g.bsize && forall bn :: bn in c.mem ==> |c.mem[bn]| == g.bsize
    ensures var r := WriteBack(g, c, line, i);
      && r == c.(mem := r.mem, stats := r.stats) && (forall bn :: bn in r.mem ==> |r.mem[bn]| == g.bsize)
      && r.stats.misses == c.stats.misses && r.stats.invalidations == c.stats.invalidations
      && r.stats.replacements == c.stats.replacements + (if line.valid then 1 else 0)
  {
  }

  /** The parts of what a miss leaves. */
  lemma MissIs(g: Geometry, c: Cache, bn: nat, ofs: nat, cmd: Cmd, random: nat)
    requires CacheOk(g, c) && ofs + Bytes(cmd) <= g.bsize
    ensures var i := SetOf(g, bn); var s := c.sets[i]; var b := Victim(g, s, random);
      var c1 := WriteBack(g, c, s.lines[b], i);
      var data := MemBlock(g, c1.mem, bn);
      var ways := if g.policy == Random then s.ways else ToFront(s.ways, b);
      var r := Miss(g, c, i, bn, ofs, cmd, random);
      && b < g.assoc && ofs + Bytes(cmd) <= |data| == g.bsize
      && r.c.sets == c.sets[i := Set(s.lines[b := Touch(Line(TagOf(g, bn), true, false, data), cmd, ofs)], ways)]
      && r.c.mem == c1.mem && r.c.lastBase == 0 && r.c.lastBlk == None && r.out == Fetched(data, cmd, ofs)
      && r.c.stats.misses == c.stats.misses + 1 && r.c.stats.invalidations == c.stats.invalidations
      && r.c.stats.replacements == c.stats.replacements + (if s.lines[b].valid then 1 else 0)
      && (forall k :: k in r.c.mem ==> |r.c.mem[k]| == g.bsize)
  {
    var i := SetOf(g, bn);
    var s := c.sets[i];
    assert GoodSet(g, s, i, c.mem);
    VictimFits(g, s, random);
    WriteBackKeeps(g, c, s.lines[Victim(g, s, random)], i);
    hide CacheOk, WriteBack, Touch, ToFront, Victim;
  }

  lemma MissOther(g: Geometry, c: Cache, bn: nat, ofs: nat, cmd: Cmd, random: nat, j: nat)
    requires CacheOk(g, c) && ofs + Bytes(cmd) <= g.bsize && j < g.nsets && j != SetOf(g, bn)
    ensures var r := Miss(g, c, SetOf(g, bn), bn, ofs, cmd, random).c;
      |r.sets| == g.nsets && GoodSet(g, r.sets[j], j, r.mem)
  {
    var i := SetOf(g, bn);
    var s := c.sets[i];
    MissIs(g, c, bn, ofs, cmd, random);
    assert GoodSet(g, c.sets[j], j, c.mem);
    hide Miss, LastOk, Balanced, SetOk, ValidFirst, WriteBack, Touch, ToFront, Victim;
    CleanAfter(g, c, c.sets[j], j, s.lines[Victim(g, s, random)], i);
  }

  lemma MissBalanced(g: Geometry, c: Cache, bn: nat, ofs: nat, cmd: Cmd, random: nat)
    requires CacheOk(g, c) && ofs + Bytes(cmd) <= g.bsize
    ensures Balanced(Miss(g, c, SetOf(g, bn), bn, ofs, cmd, random).c)
  {
    var i := SetOf(g, bn);
    var s := c.sets[i];
    var b := Victim(g, s, random);
    MissIs(g, c, bn, ofs, cmd, random);
    var data := MemBlock(g, WriteBack(g, c, s.lines[b], i).mem, bn);
    TouchKeeps(Line(TagOf(g, bn), true, false, data), cmd, ofs);
    TotalLine(c.sets, i, b, Touch(Line(TagOf(g, bn), true, false, data), cmd, ofs),
      if g.policy == Random then s.ways else ToFront(s.ways, b));
    hide Miss, LastOk, GoodSet, WriteBack, Touch, ToFront, Victim, TotalValid, MemBlock;
  }

  lemma MissServes(g: Geometry, c: Cache, bn: nat, ofs: nat, cmd: Cmd, random: nat)
    requires CacheOk(g, c) && ofs + Bytes(cmd) <= g.bsize
    requires var s := c.sets[SetOf(g, bn)]; Find(s.lines, s.ways, TagOf(g, bn)).None?
    requires var r := Miss(g, c, SetOf(g, bn), bn, ofs, cmd, random).c; Sized(g, r) && SetOk(g, r.sets[SetOf(g, bn)])
    ensures Serves(g, c, bn, ofs, cmd, Miss(g, c, SetOf(g, bn), bn, ofs, cmd, random))
  {
    var i := SetOf(g, bn);
    var s := c.sets[i];
    var r := Miss(g, c, i, bn, ofs, cmd, random);
    MissIs(g, c, bn, ofs, cmd, random);
    ContentFits(g, c, bn);
    assert GoodSet(g, s, i, c.mem);
    var b := Victim(g, s, random);
    var data := MemBlock(g, WriteBack(g, c, s.lines[b], i).mem, bn);
    MissMem(g, c, i, b, bn);
    FindIs(g, s, TagOf(g, bn));
    assert data == Content(g, c, bn);
    forall bn': nat ensures Content(g, r.c, bn') ==
      if bn' == bn then Changed(Content(g, c, bn), cmd, ofs) else Content(g, c, bn') {
      MissShown(g, c, bn, ofs, cmd, random, bn');
      hide CacheOk, Find, Miss, Touch, ToFront, SetOk, MemBlock, WriteBack, Victim, Changed;
    }
    hide CacheOk, Find, Miss, Touch, ToFront, SetOk, MemBlock, WriteBack, Victim;
  }

  lemma MissShown(g: Geometry, c: Cache, bn: nat, ofs: nat, cmd: Cmd, random: nat, bn': nat)
    requires CacheOk(g, c) && ofs + Bytes(cmd) <= g.bsize
    requires var s := c.sets[SetOf(g, bn)]; Find(s.lines, s.ways, TagOf(g, bn)).None?
    requires var r := Miss(g, c, SetOf(g, bn), bn, ofs, cmd, random).c; Sized(g, r) && SetOk(g, r.sets[SetOf(g, bn)])
    ensures var r := Miss(g, c, SetOf(g, bn), bn, ofs, cmd, random).c;
      var data := MemBlock(g,
        WriteBack(g, c, c.sets[SetOf(g, bn)].lines[Victim(g, c.sets[SetOf(g, bn)], random)], SetOf(g, bn)).mem, bn);
      ofs + Bytes(cmd) <= |data| &&
        Content(g, r, bn') == if bn' == bn then Changed(data, cmd, ofs) else Content(g, c, bn')
  {
    var i := SetOf(g, bn);
    var s := c.sets[i];
    var r := Miss(g, c, i, bn, ofs, cmd, random);
    MissIs(g, c, bn, ofs, cmd, random);
    assert GoodSet(g, s, i, c.mem);
    var b := Victim(g, s, random);
    var data := MemBlock(g, WriteBack(g, c, s.lines[b], i).mem, bn);
    if SetOf(g, bn') == i {
      var line := Touch(Line(TagOf(g, bn), true, false, data), cmd, ofs);
      var ways := if g.policy == Random then s.ways else ToFront(s.ways, b);
      assert line.data == Changed(data, cmd, ofs) && line.tag == TagOf(g, bn) && line.valid;
      MissMem(g, c, i, b, bn');
      hide CacheOk, Find, Miss, Touch, ToFront, SetOk, MemBlock, WriteBack, Victim, Changed;
      ReplacedShown(g, s, c.mem, r.c.mem, b, line, ways, bn');
      if TagOf(g, bn') == TagOf(g, bn) {
        SameBlock(g, bn, bn');
      }
    } else {
      OtherSetMem(g, c, s.lines[b], i, bn');
      hide CacheOk, Find, Miss, Touch, ToFront, SetOk, MemBlock, WriteBack, Victim, Changed;
    }
  }

  /** A miss serves the command and keeps the cache good. */
  lemma MissOk(g: Geometry, c: Cache, bn: nat, ofs: nat, cmd: Cmd, random: nat)
    requires CacheOk(g, c) && ofs + Bytes(cmd) <= g.bsize
    requires var s := c.sets[SetOf(g, bn)]; Find(s.lines, s.ways, TagOf(g, bn)).None?
    ensures var r := Miss(g, c, SetOf(g, bn), bn, ofs, cmd, random); CacheOk(g, r.c) && Serves(g, c, bn, ofs, cmd, r)
  {
    var i := SetOf(g, bn);
    var r := Miss(g, c, i, bn, ofs, cmd, random);
    MissIs(g, c, bn, ofs, cmd, random);
    hide Miss, Find, GoodSet, Balanced, Serves, Shaped, SetOk, Touch, WriteBack, ToFront, Victim, MemBlock;
    forall j | 0 <= j < g.nsets ensures GoodSet(g, r.c.sets[j], j, r.c.mem) && Shaped(g, r.c.sets[j]) &&
      SetOk(g, r.c.sets[j]) {
      if j == i {
        MissSet(g, c, i, bn, ofs, cmd, random);
      } else {
        MissOther(g, c, bn, ofs, cmd, random, j);
      }
      GoodShaped(g, r.c.sets[j], j, r.c.mem);
    }
    MissBalanced(g, c, bn, ofs, cmd, random);
    MissServes(g, c, bn, ofs, cmd, random);
  }

  /** What an access that is not misused may do: crash on block zero, or serve the command. */
  ghost predicate Answered(g: Geometry, c: Cache, addr: nat, cmd: Cmd, r: Result)
    requires Sized(g, c) && Offset(g, addr) + Bytes(cmd) <= g.bsize
  {
    match r
    case Fatal(e) => e == NullBlock && BlockNo(g, addr) == 0 && c.lastBlk.None?
    case Done(c1, _, _, _) => CacheOk(g, c1) && Serves(g, c, BlockNo(g, addr), Offset(g, addr), cmd, r)
  }

  /** An access reads and writes what the cache shows, as flat memory would, and keeps the cache good. */
  lemma AccessOk(g: Geometry, c: Cache, addr: nat, cmd: Cmd, random: nat)
    requires CacheOk(g, c) && Misuse(g, addr, Bytes(cmd)).None?
    ensures Answered(g, c, addr, cmd, Access(g, c, addr, cmd, random))
  {
    FastPathIsExact(g, c, addr, cmd, random);
    var bn, ofs := BlockNo(g, addr), Offset(g, addr);
    var s := c.sets[SetOf(g, bn)];
    var found := Find(s.lines, s.ways, TagOf(g, bn));
    hide CacheOk, Serves, Access, Find, Hit, Miss;
    match found
    case Some(b) => HitOk(g, c, bn, b, ofs, cmd);
    case None => MissOk(g, c, bn, ofs, cmd, random);
  }

  // ---------------------------------------------------------------- flushes

  lemma DropIs(g: Geometry, c: Cache, i: nat, b: nat)
    requires Sized(g, c) && i < g.nsets && b < g.assoc && c.sets[i].lines[b].valid
    ensures var s := c.sets[i]; var line := s.lines[b]; var r := Drop(g, c, i, b);
      && r.sets == c.sets[i := Set(s.lines[b := line.(valid := false)], s.ways)]
      && r.mem == WriteBack(g, c, line, i).mem && r.lastBase == c.lastBase && r.lastBlk == c.lastBlk
      && (forall bn :: bn in r.mem ==> |r.mem[bn]| == g.bsize)
      && r.stats == c.stats.(invalidations := c.stats.invalidations + 1)
  {
    assert Shaped(g, c.sets[i]);
    assert DataFits(g, c.sets[i].lines[b]);
  }

  /** Flushes deal with sets whose valid blocks need not come first yet. */
  ghost predicate LooseSet(g: Geometry, s: Set, i: nat, mem: map<nat, seq<int>>) {
    SetOk(g, s) && CleanSet(g, s, i, mem)
  }

  /** The invariant while a flush is under way. */
  ghost predicate Flushing(g: Geometry, c: Cache) {
    && Sized(g, c) && c.lastBase == 0 && c.lastBlk == None && Balanced(c)
    && forall i :: 0 <= i < g.nsets ==> LooseSet(g, c.sets[i], i, c.mem)
  }

  lemma DropSet(g: Geometry, c: Cache, i: nat, b: nat, ways: seq<nat>)
    requires Sized(g, c) && i < g.nsets && b < g.assoc && c.sets[i].lines[b].valid &&
      LooseSet(g, c.sets[i], i, c.mem) && Permutes(ways, g.assoc)
    ensures LooseSet(g, Set(c.sets[i].lines[b := c.sets[i].lines[b].(valid := false)], ways), i,
      WriteBack(g, c, c.sets[i].lines[b], i).mem)
  {
    var s := c.sets[i];
    var line := s.lines[b].(valid := false);
    SetUpdate(g, s, b, line, ways);
    hide MemBlock, BlockOf, WriteBack, Permutes;
    forall a | 0 <= a < g.assoc && a != b && s.lines[a].valid && !s.lines[a].dirty
      ensures s.lines[a].data == MemBlock(g, WriteBack(g, c, s.lines[b], i).mem, BlockOf(g, s.lines[a].tag, i))
    {
      OtherClean(g, c, i, b, a);
    }
  }

  /** Dropping a block, and reordering its set, keeps the invariant and what the cache shows. */
  lemma DropKeeps(g: Geometry, c: Cache, i: nat, b: nat, ways: seq<nat>)
    requires Flushing(g, c) && i < g.nsets && b < g.assoc && c.sets[i].lines[b].valid && Permutes(ways, g.assoc)
    ensures var r := Drop(g, c, i, b); var r1 := r.(sets := r.sets[i := r.sets[i].(ways := ways)]);
      Flushing(g, r1) && forall bn: nat :: Content(g, r1, bn) == Content(g, c, bn)
  {
    var s := c.sets[i];
    var r := Drop(g, c, i, b);
    var r1 := r.(sets := r.sets[i := r.sets[i].(ways := ways)]);
    DropIs(g, c, i, b);
    assert r1.sets == c.sets[i := Set(s.lines[b := s.lines[b].(valid := false)], ways)];
    TotalLine(c.sets, i, b, s.lines[b].(valid := false), ways);
    hide Drop, TotalValid, WriteBack, MemBlock, Find, Permutes;
    forall j | 0 <= j < g.nsets ensures LooseSet(g, r1.sets[j], j, r1.mem) && Shaped(g, r1.sets[j]) {
      assert LooseSet(g, c.sets[j], j, c.mem);
      if j == i {
        DropSet(g, c, i, b, ways);
      } else {
        CleanAfter(g, c, c.sets[j], j, s.lines[b], i);
      }
      hide CleanSet;
    }
    forall bn: nat ensures Content(g, r1, bn) == Content(g, c, bn) {
      DropShown(g, c, i, b, ways, bn);
    }
    hide LooseSet, Content;
  }

  lemma DropShown(g: Geometry, c: Cache, i: nat, b: nat, ways: seq<nat>, bn: nat)
    requires Flushing(g, c) && i < g.nsets && b < g.assoc && c.sets[i].lines[b].valid && Permutes(ways, g.assoc)
    requires var r := Drop(g, c, i, b); Sized(g, r.(sets := r.sets[i := r.sets[i].(ways := ways)]))
    ensures var r := Drop(g, c, i, b);
      Content(g, r.(sets := r.sets[i := r.sets[i].(ways := ways)]), bn) == Content(g, c, bn)
  {
    var s := c.sets[i];
    var r := Drop(g, c, i, b);
    var line := s.lines[b].(valid := false);
    DropIs(g, c, i, b);
    assert LooseSet(g, s, i, c.mem);
    if SetOf(g, bn) == i {
      SetUpdate(g, s, b, line, ways);
      FindAfter(g, s, b, line, ways, TagOf(g, bn));
      FindIs(g, s, TagOf(g, bn));
      DropMem(g, c, i, b, bn);
      hide Drop, WriteBack, MemBlock, Find, Permutes, SetOk;
    } else {
      OtherSetMem(g, c, s.lines[b], i, bn);
      hide Drop, WriteBack, MemBlock, Find, Permutes;
    }
  }

  lemma DropMem(g: Geometry, c: Cache, i: nat, b: nat, bn: nat)
    requires g.Valid() && i < g.nsets && |c.sets| == g.nsets && LooseSet(g, c.sets[i], i, c.mem) && i == SetOf(g, bn) &&
      b < g.assoc
    ensures var victim := c.sets[i].lines[b]; var mem := WriteBack(g, c, victim, i).mem;
      MemBlock(g, mem, bn) == if victim.valid && victim.tag == TagOf(g, bn) then victim.data else MemBlock(g, c.mem, bn)
  {
    var s := c.sets[i];
    WriteBackMem(g, c, s.lines[b], i, bn);
    PartsBlock(g, bn);
    if s.lines[b].valid && s.lines[b].tag != TagOf(g, bn) {
      BlocksDiffer(g, s.lines[b].tag, i, TagOf(g, bn), i);
    }
    hide WriteBack, MemBlock, BlockOf;
  }

  /** Block `b` and those beyond `ways` may still be valid; blocks of `ways` and invalid ones are not. */
  lemma {:induction false} FlushWaysOk(g: Geometry, c: Cache, i: nat, ways: seq<nat>)
    requires Flushing(g, c) && i < g.nsets && forall k :: 0 <= k < |ways| ==> ways[k] < g.assoc
    ensures |c.sets[i].lines| == g.assoc
    ensures var r := FlushWays(g, c, i, ways);
      && Flushing(g, r) && (forall bn: nat :: Content(g, r, bn) == Content(g, c, bn))
      && (forall b :: 0 <= b < g.assoc ==> (r.sets[i].lines[b].valid <==> c.sets[i].lines[b].valid && b !in ways))
    decreases |ways|
  {
    LooseSizes(g, c, i);
    if ways == [] {
    } else {
      var b := ways[0];
      var c1 := if c.sets[i].lines[b].valid then Drop(g, c, i, b) else c;
      if c.sets[i].lines[b].valid {
        DropInPlace(g, c, i, b);
      }
      hide Flushing, Content, Drop;
      FlushWaysOk(g, c1, i, ways[1..]);
      assert forall a :: a in ways <==> a == b || a in ways[1..];
    }
  }

  lemma LooseSizes(g: Geometry, c: Cache, i: nat)
    requires Flushing(g, c) && i < g.nsets
    ensures |c.sets| == g.nsets && |c.sets[i].lines| == g.assoc && Permutes(c.sets[i].ways, g.assoc)
  {
    assert LooseSet(g, c.sets[i], i, c.mem);
  }

  lemma DropInPlace(g: Geometry, c: Cache, i: nat, b: nat)
    requires Flushing(g, c) && i < g.nsets && b < g.assoc && |c.sets[i].lines| == g.assoc && c.sets[i].lines[b].valid
    ensures var r := Drop(g, c, i, b);
      && Flushing(g, r) && (forall bn: nat :: Content(g, r, bn) == Content(g, c, bn))
      && |r.sets[i].lines| == g.assoc
      && forall a :: 0 <= a < g.assoc ==> (r.sets[i].lines[a].valid <==> c.sets[i].lines[a].valid && a != b)
  {
    LooseSizes(g, c, i);
    var r := Drop(g, c, i, b);
    DropKeeps(g, c, i, b, c.sets[i].ways);
    assert r.(sets := r.sets[i := r.sets[i].(ways := c.sets[i].ways)]) == r by {
      assert r.sets[i := r.sets[i].(ways := c.sets[i].ways)] == r.sets;
    }
    hide Flushing, Content;
  }

  ghost predicate Emptied(s: Set) {
    forall b :: 0 <= b < |s.lines| ==> !s.lines[b].valid
  }

  lemma FlushSetOk(g: Geometry, c: Cache, i: nat)
    requires Flushing(g, c) && i < g.nsets
    requires |c.sets| == g.nsets && forall k :: 0 <= k < |c.sets[i].ways| ==> c.sets[i].ways[k] < |c.sets[i].lines|
    ensures var r := FlushWays(g, c, i, c.sets[i].ways);
      && Flushing(g, r) && Emptied(r.sets[i]) && forall bn: nat :: Content(g, r, bn) == Content(g, c, bn)
  {
    hide Flushing, Content, FlushWays, TotalValid;
    LooseSizes(g, c, i);
    FlushWaysOk(g, c, i, c.sets[i].ways);
  }

  lemma WaysFit(g: Geometry, c: Cache)
    requires Flushing(g, c)
    ensures |c.sets| == g.nsets
    ensures forall j :: 0 <= j < g.nsets ==> forall k :: 0 <= k < |c.sets[j].ways| ==>
      c.sets[j].ways[k] < |c.sets[j].lines|
  {
    forall j | 0 <= j < g.nsets ensures forall k :: 0 <= k < |c.sets[j].ways| ==>
      c.sets[j].ways[k] < |c.sets[j].lines| {
      LooseSizes(g, c, j);
    }
  }

  lemma {:induction false} FlushSetsOk(g: Geometry, c: Cache, i: nat)
    requires Flushing(g, c) && i <= g.nsets && |c.sets| == g.nsets
    requires forall j :: 0 <= j < g.nsets ==> forall k :: 0 <= k < |c.sets[j].ways| ==>
      c.sets[j].ways[k] < |c.sets[j].lines|
    requires forall j :: 0 <= j < i ==> Emptied(c.sets[j])
    ensures var r := FlushSets(g, c, i);
      && Flushing(g, r) && |r.sets| == g.nsets && (forall j :: 0 <= j < g.nsets ==> Emptied(r.sets[j]))
      && forall bn: nat :: Content(g, r, bn) == Content(g, c, bn)
    decreases g.nsets - i
  {
    if i < g.nsets {
      var c1 := FlushWays(g, c, i, c.sets[i].ways);
      FlushSetOk(g, c, i);
      hide Flushing, Content, FlushWays, Emptied;
      WaysFit(g, c1);
      FlushSetsOk(g, c1, i + 1);
    }
  }

  lemma StartFlush(g: Geometry, c: Cache)
    requires CacheOk(g, c)
    ensures var c0 := c.(lastBase := 0, lastBlk := None);
      Flushing(g, c0) && forall bn: nat :: Content(g, c0, bn) == Content(g, c, bn)
  {
    forall i | 0 <= i < g.nsets ensures LooseSet(g, c.sets[i], i, c.mem) {
      assert GoodSet(g, c.sets[i], i, c.mem);
    }
    hide Find, GoodSet, LooseSet, TotalValid;
  }

  /** An empty set shows memory, and has no valid block out of place. */
  lemma EmptiedShown(g: Geometry, c: Cache, bn: nat)
    requires Sized(g, c) && Emptied(c.sets[SetOf(g, bn)])
    ensures Content(g, c, bn) == MemBlock(g, c.mem, bn)
  {
    var s := c.sets[SetOf(g, bn)];
    FindAlong(s.lines, s.ways, TagOf(g, bn));
    hide Find, MemBlock;
  }

  lemma EndFlush(g: Geometry, c: Cache)
    requires Flushing(g, c) && |c.sets| == g.nsets && forall j :: 0 <= j < g.nsets ==> Emptied(c.sets[j])
    ensures CacheOk(g, c)
  {
    forall i | 0 <= i < g.nsets ensures GoodSet(g, c.sets[i], i, c.mem) {
      assert LooseSet(g, c.sets[i], i, c.mem) && Emptied(c.sets[i]);
    }
    hide TotalValid, GoodSet, LooseSet;
  }

  /** cache_flush leaves nothing valid, and memory holds what the cache showed. */
  lemma FlushOk(g: Geometry, c: Cache)
    requires CacheOk(g, c)
    ensures var r := Flush(g, c);
      && CacheOk(g, r) && (forall i :: 0 <= i < g.nsets ==> Emptied(r.sets[i]))
      && forall bn: nat :: Content(g, r, bn) == Content(g, c, bn) == MemBlock(g, r.mem, bn)
  {
    var c0 := c.(lastBase := 0, lastBlk := None);
    StartFlush(g, c);
    WaysFit(g, c0);
    FlushSetsOk(g, c0, 0);
    var r := Flush(g, c);
    EndFlush(g, r);
    hide Flushing, FlushSets, Emptied;
    FlushedMem(g, r);
    hide CacheOk, MemBlock, Content;
  }

  lemma FlushedMem(g: Geometry, c: Cache)
    requires CacheOk(g, c) && forall j :: 0 <= j < g.nsets ==> Emptied(c.sets[j])
    ensures forall bn: nat :: Content(g, c, bn) == MemBlock(g, c.mem, bn)
  {
    forall bn: nat ensures Content(g, c, bn) == MemBlock(g, c.mem, bn) {
      EmptiedShown(g, c, bn);
    }
    hide MemBlock, Content, Emptied;
  }

  // ---------------------------------------------------------------- flushing one address

  lemma BackValid(g: Geometry, s: Set, b: nat)
    requires SetOk(g, s) && ValidFirst(g, s) && b < g.assoc
    requires SetOk(g, Set(s.lines[b := s.lines[b].(valid := false)], ToBack(s.ways, b)))
    ensures ValidFirst(g, Set(s.lines[b := s.lines[b].(valid := false)], ToBack(s.ways, b)))
  {
    SetPermutes(g, s);
    var k := WayOf(s.ways, b, g.assoc);
    hide Without, Permutes;
    var back := s.ways[..k] + s.ways[k + 1..] + [b];
    forall j | 0 <= j < g.assoc - 1 ensures back[j] == s.ways[if j < k then j else j + 1] && back[j] != b {
    }
  }

  /** cache_flush_addr shows what it showed and leaves the block out of the cache. */
  lemma FlushAddrOk(g: Geometry, c: Cache, addr: nat)
    requires CacheOk(g, c)
    ensures var r := FlushAddr(g, c, addr);
      CacheOk(g, r) && !Probe(g, r, addr) && forall bn: nat :: Content(g, r, bn) == Content(g, c, bn)
  {
    var bn := BlockNo(g, addr);
    var i := SetOf(g, bn);
    var s := c.sets[i];
    assert GoodSet(g, s, i, c.mem);
    FindIs(g, s, TagOf(g, bn));
    if Find(s.lines, s.ways, TagOf(g, bn)).Some? {
      FlushFound(g, c, addr, Find(s.lines, s.ways, TagOf(g, bn)).value);
    }
    hide CacheOk, Content, Find, Drop;
  }

  /** cache_flush_addr as a drop and a move to the tail. */
  lemma FlushAddrIs(g: Geometry, c: Cache, addr: nat, b: nat)
    requires Sized(g, c)
    requires var s := c.sets[SetOf(g, BlockNo(g, addr))]; Find(s.lines, s.ways, TagOf(g, BlockNo(g, addr))) == Some(b)
    ensures var i := SetOf(g, BlockNo(g, addr)); var d := Drop(g, c.(lastBase := 0, lastBlk := None), i, b);
      FlushAddr(g, c, addr) == d.(sets := d.sets[i := d.sets[i].(ways := ToBack(c.sets[i].ways, b))])
  {
    hide Find, ToBack;
  }

  lemma FlushFound(g: Geometry, c: Cache, addr: nat, b: nat)
    requires CacheOk(g, c)
    requires var s := c.sets[SetOf(g, BlockNo(g, addr))]; Find(s.lines, s.ways, TagOf(g, BlockNo(g, addr))) == Some(b)
    ensures var r := FlushAddr(g, c, addr);
      CacheOk(g, r) && !Probe(g, r, addr) && forall bn: nat :: Content(g, r, bn) == Content(g, c, bn)
  {
    var i := SetOf(g, BlockNo(g, addr));
    var s := c.sets[i];
    var c0 := c.(lastBase := 0, lastBlk := None);
    var r := FlushAddr(g, c, addr);
    FlushAddrIs(g, c, addr, b);
    assert GoodSet(g, s, i, c.mem);
    FindIs(g, s, TagOf(g, BlockNo(g, addr)));
    SetPermutes(g, s);
    ReorderPermutes(s.ways, b, g.assoc);
    StartFlush(g, c);
    hide Find, Permutes, ToBack, TotalValid, Content, Drop, FlushAddr;
    DropKeeps(g, c0, i, b, ToBack(s.ways, b));
    DropIs(g, c0, i, b);
    assert r.sets == c.sets[i := Set(s.lines[b := s.lines[b].(valid := false)], ToBack(s.ways, b))];
    FlushedSets(g, c, r, i, b);
    FindAfter(g, s, b, s.lines[b].(valid := false), ToBack(s.ways, b), TagOf(g, BlockNo(g, addr)));
    hide SetOk, GoodSet, LooseSet;
  }

  lemma FlushedSets(g: Geometry, c: Cache, r: Cache, i: nat, b: nat)
    requires CacheOk(g, c) && Flushing(g, r) && i < g.nsets && b < g.assoc
    requires r.sets ==
      c.sets[i := Set(c.sets[i].lines[b := c.sets[i].lines[b].(valid := false)], ToBack(c.sets[i].ways, b))]
    ensures CacheOk(g, r) && SetOk(g, r.sets[i])
  {
    forall j | 0 <= j < g.nsets ensures GoodSet(g, r.sets[j], j, r.mem) {
      assert LooseSet(g, r.sets[j], j, r.mem) && GoodSet(g, c.sets[j], j, c.mem);
      if j == i {
        BackValid(g, c.sets[i], b);
      }
      hide ToBack, CleanSet;
    }
    hide TotalValid, LooseSet, ToBack;
  }
}
