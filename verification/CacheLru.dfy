/**
 * Under LRU the valid blocks of a set, in way-list order, are the most recently used tags of the
 * set, and under FIFO the most recently filled ones, no more than its associativity; under LRU a
 * larger associativity holds whatever a smaller does.
 */
module CacheLru {
  import opened Common
  import opened CacheModel
  import opened CacheProofs
  import opened CacheRuns

  // ---------------------------------------------------------------- the reference

  /** The first `n` elements. */
  function Take(tags: seq<nat>, n: nat): seq<nat> {
    if |tags| <= n then tags else tags[..n]
  }

  /** A recency list after a use of `tag`. */
  function Used(tags: seq<nat>, tag: nat, assoc: nat): seq<nat> {
    Take([tag] + Without(tags, tag), assoc)
  }

  /** The tags of a set after an access to `tag`: under FIFO only a fill reorders them. */
  function Renewed(g: Geometry, tags: seq<nat>, tag: nat): seq<nat> {
    if g.policy == FIFO && tag in tags then tags else Used(tags, tag, g.assoc)
  }

  /** Tags of the valid blocks along a way list. */
  function ValidTags(lines: seq<Line>, ways: seq<nat>): seq<nat>
    requires forall k :: 0 <= k < |ways| ==> ways[k] < |lines|
  {
    if ways == [] then []
    else (if lines[ways[0]].valid then [lines[ways[0]].tag] else []) + ValidTags(lines, ways[1..])
  }

  /** Tags resident in set `i`, most recently used first, or under FIFO most recently filled first. */
  function Recent(g: Geometry, c: Cache, i: nat): seq<nat>
    requires Sized(g, c) && i < g.nsets
  {
    ValidTags(c.sets[i].lines, c.sets[i].ways)
  }

  /** The list of set `i` after an operation. */
  function RefStep(g: Geometry, tags: seq<nat>, i: nat, op: Op): seq<nat>
    requires g.Valid()
  {
    match op
    case Use(addr, _, _) =>
      if SetOf(g, BlockNo(g, addr)) == i then Renewed(g, tags, TagOf(g, BlockNo(g, addr))) else tags
    case FlushOne(addr) => if SetOf(g, BlockNo(g, addr)) == i then Without(tags, TagOf(g, BlockNo(g, addr))) else tags
    case FlushAll => []
  }

  /** The list of set `i` after a sequence of operations. */
  function RefRun(g: Geometry, tags: seq<nat>, i: nat, ops: seq<Op>): seq<nat>
    requires g.Valid()
    decreases |ops|
  {
    if ops == [] then tags else RefRun(g, RefStep(g, tags, i, ops[0]), i, ops[1..])
  }

  // ---------------------------------------------------------------- along a way list

  lemma {:induction false} TagsSame(lines: seq<Line>, lines': seq<Line>, ways: seq<nat>)
    requires |lines'| == |lines| && forall k :: 0 <= k < |ways| ==> ways[k] < |lines|
    requires forall k :: 0 <= k < |ways| ==>
      lines'[ways[k]].valid == lines[ways[k]].valid && lines'[ways[k]].tag == lines[ways[k]].tag
    ensures ValidTags(lines', ways) == ValidTags(lines, ways)
  {
    if ways == [] {
    } else {
      TagsSame(lines, lines', ways[1..]);
    }
  }

  lemma TagsHead(lines: seq<Line>, ways: seq<nat>)
    requires ways != [] && forall k :: 0 <= k < |ways| ==> ways[k] < |lines|
    ensures var line := lines[ways[0]];
      ValidTags(lines, ways) == (if line.valid then [line.tag] else []) + ValidTags(lines, ways[1..])
  {
  }

  lemma {:induction false} TagsConcat(lines: seq<Line>, a: seq<nat>, b: seq<nat>)
    requires forall k :: 0 <= k < |a| ==> a[k] < |lines|
    requires forall k :: 0 <= k < |b| ==> b[k] < |lines|
    ensures ValidTags(lines, a + b) == ValidTags(lines, a) + ValidTags(lines, b)
  {
    if a == [] {
      assert a + b == b;
    } else {
      hide ValidTags;
      TagsHead(lines, a);
      TagsHead(lines, a + b);
      assert (a + b)[1..] == a[1..] + b;
      TagsConcat(lines, a[1..], b);
    }
  }

  lemma {:induction false} TagsAre(lines: seq<Line>, ways: seq<nat>, t: nat)
    requires forall k :: 0 <= k < |ways| ==> ways[k] < |lines|
    ensures t in ValidTags(lines, ways) <==>
      exists k :: 0 <= k < |ways| && lines[ways[k]].valid && lines[ways[k]].tag == t
    ensures |ValidTags(lines, ways)| <= |ways|
  {
    if ways == [] {
    } else {
      TagsAre(lines, ways[1..], t);
      assert forall k :: 1 <= k < |ways| ==> ways[k] == ways[1..][k - 1];
    }
  }

  lemma {:induction false} WithoutConcat(a: seq<nat>, b: seq<nat>, t: nat)
    ensures Without(a + b, t) == Without(a, t) + Without(b, t)
  {
    if a == [] {
      assert a + b == b;
    } else {
      assert (a + b)[1..] == a[1..] + b;
      WithoutConcat(a[1..], b, t);
    }
  }

  /** The tags along the parts of a way list around one block, whose tag is nowhere else. */
  lemma TagsAround(g: Geometry, s: Set, k: nat)
    requires SetOk(g, s) && k < g.assoc
    ensures var b := s.ways[k];
      var before, after := ValidTags(s.lines, s.ways[..k]), ValidTags(s.lines, s.ways[k + 1..]);
      && ValidTags(s.lines, s.ways) == before + (if s.lines[b].valid then [s.lines[b].tag] else []) + after
      && (s.lines[b].valid ==> s.lines[b].tag !in before && s.lines[b].tag !in after)
  {
    var b := s.ways[k];
    hide ValidTags;
    assert s.ways == s.ways[..k] + [b] + s.ways[k + 1..];
    TagsConcat(s.lines, s.ways[..k] + [b], s.ways[k + 1..]);
    TagsConcat(s.lines, s.ways[..k], [b]);
    TagsOne(s.lines, b);
    TagsAre(s.lines, s.ways[..k], s.lines[b].tag);
    TagsAre(s.lines, s.ways[k + 1..], s.lines[b].tag);
  }

  lemma TagsOne(lines: seq<Line>, b: nat)
    requires b < |lines|
    ensures ValidTags(lines, [b]) == if lines[b].valid then [lines[b].tag] else []
  {
  }

  lemma WithoutMiddle(before: seq<nat>, t: nat, after: seq<nat>)
    requires t !in before && t !in after
    ensures Without(before + [t] + after, t) == before + after
  {
    WithoutOne(t);
    hide Without;
    WithoutConcat(before + [t], after, t);
    WithoutConcat(before, [t], t);
    WithoutNone(before, t);
    WithoutNone(after, t);
    assert before + [] == before;
  }

  lemma WithoutOne(t: nat)
    ensures Without([t], t) == []
  {
  }

  /** The way list without block `b`. */
  lemma OthersAre(g: Geometry, s: Set, b: nat)
    requires SetOk(g, s) && b < g.assoc
    ensures |Without(s.ways, b)| == g.assoc - 1
    ensures forall k :: 0 <= k < |Without(s.ways, b)| ==>
      Without(s.ways, b)[k] < |s.lines| && Without(s.ways, b)[k] != b
  {
    SetPermutes(g, s);
    var k := WayOf(s.ways, b, g.assoc);
    hide Without, Permutes;
  }

  lemma TagsWithout(g: Geometry, s: Set, b: nat)
    requires SetOk(g, s) && b < g.assoc && s.lines[b].valid
    ensures forall k :: 0 <= k < |Without(s.ways, b)| ==> Without(s.ways, b)[k] < |s.lines|
    ensures ValidTags(s.lines, Without(s.ways, b)) == Without(ValidTags(s.lines, s.ways), s.lines[b].tag)
  {
    SetPermutes(g, s);
    OthersAre(g, s, b);
    var k := WayOf(s.ways, b, g.assoc);
    hide ValidTags, Without, Permutes;
    TagsAround(g, s, k);
    TagsConcat(s.lines, s.ways[..k], s.ways[k + 1..]);
    hide SetOk;
    WithoutMiddle(ValidTags(s.lines, s.ways[..k]), s.lines[b].tag, ValidTags(s.lines, s.ways[k + 1..]));
  }

  // ---------------------------------------------------------------- one set

  /** A hit moves the tag to the front of the recency list. */
  lemma HitRecent(g: Geometry, s: Set, b: nat, line: Line)
    requires SetOk(g, s) && b < g.assoc && s.lines[b].valid && line.valid && line.tag == s.lines[b].tag
    requires forall k :: 0 <= k < |ToFront(s.ways, b)| ==> ToFront(s.ways, b)[k] < |s.lines|
    ensures ValidTags(s.lines[b := line], ToFront(s.ways, b)) == Used(ValidTags(s.lines, s.ways), line.tag, g.assoc)
  {
    OthersAre(g, s, b);
    var others := Without(s.ways, b);
    TagsWithout(g, s, b);
    TagsConcat(s.lines[b := line], [b], others);
    TagsSame(s.lines, s.lines[b := line], others);
    assert ValidTags(s.lines[b := line], [b]) == [line.tag];
    TagsAre(s.lines, others, line.tag);
    hide ValidTags, Without, SetOk;
  }

  /** ... unless the policy is FIFO. */
  lemma HitOrder(g: Geometry, s: Set, b: nat, line: Line)
    requires SetOk(g, s) && b < g.assoc && s.lines[b].valid && line.valid && line.tag == s.lines[b].tag
    requires g.policy != Random && s.lines[b].tag in ValidTags(s.lines, s.ways)
    requires g.policy == LRU ==> forall k :: 0 <= k < |ToFront(s.ways, b)| ==> ToFront(s.ways, b)[k] < |s.lines|
    ensures ValidTags(s.lines[b := line], if g.policy == LRU then ToFront(s.ways, b) else s.ways) ==
      Renewed(g, ValidTags(s.lines, s.ways), line.tag)
  {
    hide ValidTags, ToFront, Used;
    if g.policy == FIFO {
      TagsSame(s.lines, s.lines[b := line], s.ways);
    } else {
      HitRecent(g, s, b, line);
    }
  }

  /** A miss puts the tag at the front and drops the last tag if every block was valid. */
  lemma MissRecent(g: Geometry, s: Set, b: nat, line: Line)
    requires SetOk(g, s) && ValidFirst(g, s) && g.policy != Random && g.assoc > 0
    requires b == s.ways[g.assoc - 1] && line.valid
    requires line.tag !in ValidTags(s.lines, s.ways)
    requires forall k :: 0 <= k < |ToFront(s.ways, b)| ==> ToFront(s.ways, b)[k] < |s.lines|
    ensures ValidTags(s.lines[b := line], ToFront(s.ways, b)) == Used(ValidTags(s.lines, s.ways), line.tag, g.assoc)
    ensures s.lines[b].valid <==> |ValidTags(s.lines, s.ways)| == g.assoc
    ensures s.lines[b].valid ==> ValidTags(s.lines, s.ways)[g.assoc - 1] == s.lines[b].tag
  {
    var n := g.assoc - 1;
    var others := s.ways[..n];
    LastOut(g, s);
    hide ValidTags, Without, SetOk, ValidFirst;
    MissFront(g, s, b, line);
    WithoutNone(ValidTags(s.lines, s.ways), line.tag);
  }

  /** The tags before the last block, and what the last block adds to them. */
  lemma LastOut(g: Geometry, s: Set)
    requires SetOk(g, s) && ValidFirst(g, s) && g.policy != Random && g.assoc > 0
    ensures var n := g.assoc - 1; var b := s.ways[n]; var others := ValidTags(s.lines, s.ways[..n]);
      && ValidTags(s.lines, s.ways) == others + (if s.lines[b].valid then [s.lines[b].tag] else [])
      && |others| <= n && (s.lines[b].valid ==> |others| == n)
  {
    var n := g.assoc - 1;
    TagsAround(g, s, n);
    NoneLeft(s.lines);
    assert s.ways[n + 1..] == [];
    TagsAre(s.lines, s.ways[..n], 0);
    if s.lines[s.ways[n]].valid {
      AllTags(s.lines, s.ways[..n]);
    }
    hide ValidTags;
  }

  lemma NoneLeft(lines: seq<Line>)
    ensures ValidTags(lines, []) == []
  {
  }

  /** The last block, given a new line, comes first. */
  lemma MissFront(g: Geometry, s: Set, b: nat, line: Line)
    requires SetOk(g, s) && g.assoc > 0 && b == s.ways[g.assoc - 1] && line.valid
    requires forall k :: 0 <= k < |ToFront(s.ways, b)| ==> ToFront(s.ways, b)[k] < |s.lines|
    ensures |s.ways| == g.assoc && (forall k :: 0 <= k < g.assoc - 1 ==> s.ways[k] < |s.lines|)
    ensures ValidTags(s.lines[b := line], ToFront(s.ways, b)) == [line.tag] + ValidTags(s.lines, s.ways[..g.assoc - 1])
  {
    var n := g.assoc - 1;
    OthersAre(g, s, b);
    WithoutAt(s.ways, n);
    assert Without(s.ways, b) == s.ways[..n];
    hide ValidTags, Without;
    TagsConcat(s.lines[b := line], [b], s.ways[..n]);
    TagsSame(s.lines, s.lines[b := line], s.ways[..n]);
    TagsOne(s.lines[b := line], b);
  }

  lemma {:induction false} AllTags(lines: seq<Line>, ways: seq<nat>)
    requires forall k :: 0 <= k < |ways| ==> ways[k] < |lines| && lines[ways[k]].valid
    ensures |ValidTags(lines, ways)| == |ways|
  {
    if ways == [] {
    } else {
      AllTags(lines, ways[1..]);
    }
  }

  /** Flushing a block takes its tag off the recency list. */
  lemma FlushRecent(g: Geometry, s: Set, b: nat)
    requires SetOk(g, s) && b < g.assoc && s.lines[b].valid
    requires forall k :: 0 <= k < |ToBack(s.ways, b)| ==> ToBack(s.ways, b)[k] < |s.lines|
    ensures ValidTags(s.lines[b := s.lines[b].(valid := false)], ToBack(s.ways, b)) ==
      Without(ValidTags(s.lines, s.ways), s.lines[b].tag)
  {
    var lines := s.lines[b := s.lines[b].(valid := false)];
    OthersAre(g, s, b);
    TagsWithout(g, s, b);
    TagsConcat(lines, Without(s.ways, b), [b]);
    TagsSame(s.lines, lines, Without(s.ways, b));
    assert ValidTags(lines, [b]) == [];
    hide ValidTags, Without, SetOk;
  }

  lemma {:induction false} NoTags(lines: seq<Line>, ways: seq<nat>)
    requires forall k :: 0 <= k < |ways| ==> ways[k] < |lines| && !lines[ways[k]].valid
    ensures ValidTags(lines, ways) == []
  {
    if ways == [] {
    } else {
      NoTags(lines, ways[1..]);
    }
  }

  /** Lookup finds a tag exactly when it is on the recency list. */
  lemma FindRecent(g: Geometry, s: Set, tag: nat)
    requires SetOk(g, s)
    ensures Find(s.lines, s.ways, tag).Some? <==> tag in ValidTags(s.lines, s.ways)
  {
    FindIs(g, s, tag);
    TagsAre(s.lines, s.ways, tag);
    if Find(s.lines, s.ways, tag).Some? {
      var b := Find(s.lines, s.ways, tag).value;
      assert b in s.ways;
      var k :| 0 <= k < |s.ways| && s.ways[k] == b;
    }
    hide ValidTags, Find;
  }

  // ---------------------------------------------------------------- one operation

  /** What an access does to the recency lists, and what it reports. */
  ghost predicate Recency(g: Geometry, c: Cache, bn: nat, r: Result)
    requires Sized(g, c)
  {
    var i := SetOf(g, bn);
    var tags := Recent(g, c, i);
    && r.Done? && Sized(g, r.c)
    && Recent(g, r.c, i) == Renewed(g, tags, TagOf(g, bn))
    && (forall j :: 0 <= j < g.nsets && j != i ==> Recent(g, r.c, j) == Recent(g, c, j))
    && (r.hit <==> TagOf(g, bn) in tags)
    && r.replaced == if !r.hit && |tags| == g.assoc then Some(BlockOf(g, tags[g.assoc - 1], i) * g.bsize) else None
  }

  /** Recency follows from what happened to one set. */
  lemma OneSet(g: Geometry, c: Cache, bn: nat, r: Result, s1: Set)
    requires Sized(g, c) && r.Done? && Sized(g, r.c) && r.c.sets == c.sets[SetOf(g, bn) := s1]
    requires var i := SetOf(g, bn); var tags := Recent(g, c, i);
      && Recent(g, r.c, i) == Renewed(g, tags, TagOf(g, bn)) && (r.hit <==> TagOf(g, bn) in tags)
      && r.replaced == if !r.hit && |tags| == g.assoc then Some(BlockOf(g, tags[g.assoc - 1], i) * g.bsize) else None
    ensures Recency(g, c, bn, r)
  {
    hide ValidTags, Used, BlockOf, TagOf, Shaped;
  }

  lemma SetAt(g: Geometry, c: Cache, i: nat)
    requires CacheOk(g, c) && i < g.nsets
    ensures Sized(g, c) && SetOk(g, c.sets[i]) && ValidFirst(g, c.sets[i])
  {
    assert GoodSet(g, c.sets[i], i, c.mem);
  }

  /** The set of a hit, before and after. */
  lemma HitSet(g: Geometry, c: Cache, bn: nat, b: nat, ofs: nat, cmd: Cmd)
    requires Sized(g, c) && b < g.assoc && ofs + Bytes(cmd) <= g.bsize
    ensures var i := SetOf(g, bn); var s := c.sets[i]; var r := Hit(g, c, i, b, bn, ofs, cmd, true);
      && r.Done? && r.c.sets[i] == Set(s.lines[b := Touch(s.lines[b], cmd, ofs)],
                                       if g.policy == LRU then ToFront(s.ways, b) else s.ways)
  {
    hide Touch, ToFront;
  }

  lemma HitTags(g: Geometry, c: Cache, bn: nat, b: nat, ofs: nat, cmd: Cmd)
    requires CacheOk(g, c) && g.policy != Random && ofs + Bytes(cmd) <= g.bsize
    requires var s := c.sets[SetOf(g, bn)]; Find(s.lines, s.ways, TagOf(g, bn)) == Some(b)
    ensures var i := SetOf(g, bn); var r := Hit(g, c, i, b, bn, ofs, cmd, true);
      && CacheOk(g, r.c) && Recent(g, r.c, i) == Renewed(g, Recent(g, c, i), TagOf(g, bn))
      && TagOf(g, bn) in Recent(g, c, i)
  {
    HitOk(g, c, bn, b, ofs, cmd);
    hide CacheOk, Find, Touch, ToFront, ValidTags, Renewed, Serves, SetOk, ValidFirst, TagOf, Hit;
    var i := SetOf(g, bn);
    var s := c.sets[i];
    SetAt(g, c, i);
    HitSet(g, c, bn, b, ofs, cmd);
    SetAt(g, Hit(g, c, i, b, bn, ofs, cmd, true).c, i);
    FindIs(g, s, TagOf(g, bn));
    FindRecent(g, s, TagOf(g, bn));
    TouchKeeps(s.lines[b], cmd, ofs);
    HitOrder(g, s, b, Touch(s.lines[b], cmd, ofs));
  }

  lemma HitLists(g: Geometry, c: Cache, bn: nat, b: nat, ofs: nat, cmd: Cmd)
    requires CacheOk(g, c) && g.policy != Random && ofs + Bytes(cmd) <= g.bsize
    requires var s := c.sets[SetOf(g, bn)]; Find(s.lines, s.ways, TagOf(g, bn)) == Some(b)
    ensures Recency(g, c, bn, Hit(g, c, SetOf(g, bn), b, bn, ofs, cmd, true))
  {
    var r := Hit(g, c, SetOf(g, bn), b, bn, ofs, cmd, true);
    HitTags(g, c, bn, b, ofs, cmd);
    OkSized(g, r.c);
    assert r.c.sets == c.sets[SetOf(g, bn) := r.c.sets[SetOf(g, bn)]] && r.hit && r.replaced == None;
    hide CacheOk, Find, Hit, Recent, Used;
    OneSet(g, c, bn, r, r.c.sets[SetOf(g, bn)]);
  }

  lemma MissTags(g: Geometry, c: Cache, bn: nat, ofs: nat, cmd: Cmd, random: nat)
    requires CacheOk(g, c) && g.policy != Random && ofs + Bytes(cmd) <= g.bsize
    requires var s := c.sets[SetOf(g, bn)]; Find(s.lines, s.ways, TagOf(g, bn)).None?
    ensures var i := SetOf(g, bn); var r := Miss(g, c, i, bn, ofs, cmd, random); var tags := Recent(g, c, i);
      var victim := c.sets[i].lines[Victim(g, c.sets[i], random)];
      && CacheOk(g, r.c) && Recent(g, r.c, i) == Renewed(g, tags, TagOf(g, bn)) && TagOf(g, bn) !in tags
      && (victim.valid <==> |tags| == g.assoc) && (victim.valid ==> tags[g.assoc - 1] == victim.tag)
  {
    var i := SetOf(g, bn);
    var s := c.sets[i];
    MissOk(g, c, bn, ofs, cmd, random);
    MissIs(g, c, bn, ofs, cmd, random);
    hide CacheOk, Find, Touch, ToFront, ValidTags, Used, Serves, Miss, MemBlock, WriteBack;
    SetAt(g, c, i);
    SetAt(g, Miss(g, c, i, bn, ofs, cmd, random).c, i);
    VictimFits(g, s, random);
    var b := Victim(g, s, random);
    hide Victim;
    FindRecent(g, s, TagOf(g, bn));
    var filled := Line(TagOf(g, bn), true, false, MemBlock(g, WriteBack(g, c, s.lines[b], i).mem, bn));
    TouchKeeps(filled, cmd, ofs);
    MissRecent(g, s, b, Touch(filled, cmd, ofs));
    hide SetOk, ValidFirst, TagOf;
  }

  lemma MissLists(g: Geometry, c: Cache, bn: nat, ofs: nat, cmd: Cmd, random: nat)
    requires CacheOk(g, c) && g.policy != Random && ofs + Bytes(cmd) <= g.bsize
    requires var s := c.sets[SetOf(g, bn)]; Find(s.lines, s.ways, TagOf(g, bn)).None?
    ensures Recency(g, c, bn, Miss(g, c, SetOf(g, bn), bn, ofs, cmd, random))
  {
    var i := SetOf(g, bn);
    var r := Miss(g, c, i, bn, ofs, cmd, random);
    MissTags(g, c, bn, ofs, cmd, random);
    MissIs(g, c, bn, ofs, cmd, random);
    OkSized(g, r.c);
    var victim := c.sets[i].lines[Victim(g, c.sets[i], random)];
    assert !r.hit && r.replaced == if victim.valid then Some(BlockOf(g, victim.tag, i) * g.bsize) else None;
    assert r.c.sets == c.sets[i := r.c.sets[i]];
    hide CacheOk, Find, Miss, Recent, Used, Victim, Touch, WriteBack, MemBlock, ToFront, BlockOf;
    OneSet(g, c, bn, r, r.c.sets[i]);
  }

  /**
   * Under LRU and FIFO an access hits exactly when its tag is on the list of its set and replaces the
   * last tag of a full list; its own tag moves to the front unless it is a hit under FIFO.  The fast
   * path makes no difference.
   */
  lemma AccessKeepsOrder(g: Geometry, c: Cache, addr: nat, cmd: Cmd, random: nat)
    requires CacheOk(g, c) && g.policy != Random && Access(g, c, addr, cmd, random).Done?
    ensures Sized(g, c) && g.bsize > 0
    ensures Recency(g, c, BlockNo(g, addr), Access(g, c, addr, cmd, random))
  {
    hide CacheOk, Access, Find, Hit, Miss, Recency, Misuse, Sized;
    OkSized(g, c);
    UseFits(g, c, addr, cmd, random);
    FastPathIsExact(g, c, addr, cmd, random);
    LookupLists(g, c, addr, cmd, random);
  }

  lemma LookupLists(g: Geometry, c: Cache, addr: nat, cmd: Cmd, random: nat)
    requires Sized(g, c) && CacheOk(g, c) && g.policy != Random && Misuse(g, addr, Bytes(cmd)).None?
    ensures Recency(g, c, BlockNo(g, addr), Lookup(g, c, addr, cmd, random))
  {
    var bn, ofs := BlockNo(g, addr), Offset(g, addr);
    var s := c.sets[SetOf(g, bn)];
    var found := Find(s.lines, s.ways, TagOf(g, bn));
    hide CacheOk, Find, Hit, Miss, Recency, Misuse;
    match found
    case Some(b) => HitLists(g, c, bn, b, ofs, cmd);
    case None => MissLists(g, c, bn, ofs, cmd, random);
  }

  lemma FlushedLists(g: Geometry, c: Cache, addr: nat, j: nat)
    requires CacheOk(g, c) && j < g.nsets
    ensures CacheOk(g, FlushAddr(g, c, addr))
    ensures Recent(g, FlushAddr(g, c, addr), j) ==
      if SetOf(g, BlockNo(g, addr)) == j then Without(Recent(g, c, j), TagOf(g, BlockNo(g, addr))) else Recent(g, c, j)
  {
    FlushAddrOk(g, c, addr);
    var bn := BlockNo(g, addr);
    var i := SetOf(g, bn);
    var s := c.sets[i];
    SetAt(g, c, i);
    FindIs(g, s, TagOf(g, bn));
    FindRecent(g, s, TagOf(g, bn));
    match Find(s.lines, s.ways, TagOf(g, bn))
    case None =>
      hide CacheOk, Find, ValidTags, Without, TagOf;
      WithoutNone(Recent(g, c, i), TagOf(g, bn));
    case Some(b) =>
      SetAt(g, FlushAddr(g, c, addr), i);
      hide CacheOk, Find, ValidTags, Without, ToBack, TagOf;
      assert FlushAddr(g, c, addr).sets[i] == Set(s.lines[b := s.lines[b].(valid := false)], ToBack(s.ways, b));
      FlushRecent(g, s, b);
  }

  lemma EmptyLists(g: Geometry, c: Cache, j: nat)
    requires Sized(g, c) && j < g.nsets && Emptied(c.sets[j])
    ensures Recent(g, c, j) == []
  {
    assert Shaped(g, c.sets[j]);
    NoTags(c.sets[j].lines, c.sets[j].ways);
  }

  /** Every operation does to the recency list of every set what the reference does. */
  lemma StepKeepsOrder(g: Geometry, c: Cache, op: Op, j: nat)
    requires CacheOk(g, c) && Sized(g, c) && g.policy != Random && Step(g, c, op).Done? && j < g.nsets
    ensures var c' := Step(g, c, op).c;
      CacheOk(g, c') && Sized(g, c') && Recent(g, c', j) == RefStep(g, Recent(g, c, j), j, op)
  {
    StepOk(g, c, op);
    OkSized(g, Step(g, c, op).c);
    hide CacheOk, Access, FlushAddr, Flush, Recent, Used, Without, Emptied;
    match op
    case Use(addr, cmd, random) => AccessKeepsOrder(g, c, addr, cmd, random);
    case FlushOne(addr) => FlushedLists(g, c, addr, j);
    case FlushAll =>
      FlushOk(g, c);
      EmptyLists(g, Flush(g, c), j);
  }

  lemma {:induction false} RunKeepsOrder(g: Geometry, c: Cache, ops: seq<Op>, j: nat)
    requires CacheOk(g, c) && Sized(g, c) && g.policy != Random && Run(g, c, ops).Ran? && j < g.nsets
    ensures var c' := Run(g, c, ops).c; Sized(g, c') && Recent(g, c', j) == RefRun(g, Recent(g, c, j), j, ops)
    decreases |ops|
  {
    hide CacheOk, Recent, RefStep, Step;
    OkSized(g, c);
    if ops == [] {
    } else {
      StepKeepsOrder(g, c, ops[0], j);
      RunKeepsOrder(g, Step(g, c, ops[0]).c, ops[1..], j);
    }
  }

  /**
   * In every run under LRU and FIFO, a set holds exactly the list of its history: the tags last used
   * under LRU, the tags last filled under FIFO, in that order.
   */
  lemma CacheKeepsOrder(g: Geometry, mem: map<nat, seq<int>>, ops: seq<Op>, j: nat)
    requires g.Valid() && MemFits(g, mem) && FromStart(g, mem, ops).Ran? && g.policy != Random && j < g.nsets
    ensures var c := FromStart(g, mem, ops).c; Sized(g, c) && Recent(g, c, j) == RefRun(g, [], j, ops)
  {
    InitialOk(g, mem);
    InitialSet(g, mem, j);
    OkSized(g, Initial(g, mem));
    EmptyLists(g, Initial(g, mem), j);
    hide CacheOk, Recent, Initial, Run;
    RunKeepsOrder(g, Initial(g, mem), ops, j);
  }

  // ---------------------------------------------------------------- inclusion

  lemma WithoutPrefix(a: seq<nat>, b: seq<nat>, t: nat)
    requires a <= b
    ensures Without(a, t) <= Without(b, t)
  {
    assert b == a + b[|a|..];
    WithoutConcat(a, b[|a|..], t);
  }

  lemma UsedPrefix(a: seq<nat>, b: seq<nat>, t: nat, m: nat, n: nat)
    requires a <= b && m <= n
    ensures Used(a, t, m) <= Used(b, t, n)
  {
    WithoutPrefix(a, b, t);
    var x, y := [t] + Without(a, t), [t] + Without(b, t);
    assert x <= y;
    hide Without;
  }

  lemma {:induction false} RefInclusion(g: Geometry, g': Geometry, a: seq<nat>, b: seq<nat>, j: nat, ops: seq<Op>)
    requires g.Valid() && g'.Valid() && g'.nsets == g.nsets && g'.bsize == g.bsize && g.assoc <= g'.assoc && a <= b
    requires g.policy == g'.policy == LRU
    ensures RefRun(g, a, j, ops) <= RefRun(g', b, j, ops)
    decreases |ops|
  {
    hide Used, Without;
    if ops == [] {
    } else {
      assert RefStep(g, a, j, ops[0]) <= RefStep(g', b, j, ops[0]) by {
        match ops[0]
        case Use(addr, _, _) => UsedPrefix(a, b, TagOf(g, BlockNo(g, addr)), g.assoc, g'.assoc);
        case FlushOne(addr) => WithoutPrefix(a, b, TagOf(g, BlockNo(g, addr)));
        case FlushAll =>
      }
      RefInclusion(g, g', RefStep(g, a, j, ops[0]), RefStep(g', b, j, ops[0]), j, ops[1..]);
    }
  }

  /** A hit is a resident tag. */
  lemma HitIsResident(g: Geometry, c: Cache, addr: nat, cmd: Cmd, random: nat)
    requires CacheOk(g, c) && g.policy != Random && Access(g, c, addr, cmd, random).Done?
    ensures Sized(g, c) &&
      (Access(g, c, addr, cmd, random).hit <==> TagOf(g, BlockNo(g, addr)) in Recent(g, c, SetOf(g, BlockNo(g, addr))))
  {
    hide CacheOk, Access, Recent, Used;
    OkSized(g, c);
    AccessKeepsOrder(g, c, addr, cmd, random);
  }

  /**
   * Inclusion: of two LRU caches that differ only in associativity and run the same operations, the
   * smaller one's recency lists are prefixes of the larger one's, so each of its hits is a hit there.
   */
  lemma LruInclusion(g: Geometry, g': Geometry, mem: map<nat, seq<int>>, ops: seq<Op>, addr: nat, cmd: Cmd)
    requires g.policy == g'.policy == LRU && g'.nsets == g.nsets && g'.bsize == g.bsize && g.assoc <= g'.assoc
    requires g.Valid() && MemFits(g, mem) && FromStart(g, mem, ops).Ran? && FromStart(g', mem, ops).Ran?
    ensures var c, c' := FromStart(g, mem, ops).c, FromStart(g', mem, ops).c;
      && Sized(g, c) && Sized(g', c') && (forall j :: 0 <= j < g.nsets ==> Recent(g, c, j) <= Recent(g', c', j))
      && (var r, r' := Access(g, c, addr, cmd, 0), Access(g', c', addr, cmd, 0); r.Done? && r'.Done? && r.hit ==>
        r'.hit)
  {
    hide CacheOk, Access, Recent, RefRun, FromStart;
    var c, c' := FromStart(g, mem, ops).c, FromStart(g', mem, ops).c;
    OkSized(g, c);
    OkSized(g', c');
    ListIncluded(g, g', mem, ops, SetOf(g, BlockNo(g, addr)));
    forall j | 0 <= j < g.nsets ensures Recent(g, c, j) <= Recent(g', c', j) {
      ListIncluded(g, g', mem, ops, j);
    }
    if Access(g, c, addr, cmd, 0).Done? && Access(g', c', addr, cmd, 0).Done? {
      HitIsResident(g, c, addr, cmd, 0);
      HitIsResident(g', c', addr, cmd, 0);
    }
  }

  lemma ListIncluded(g: Geometry, g': Geometry, mem: map<nat, seq<int>>, ops: seq<Op>, j: nat)
    requires g.policy == g'.policy == LRU && g'.nsets == g.nsets && g'.bsize == g.bsize && g.assoc <= g'.assoc
    requires g.Valid() && MemFits(g, mem) && FromStart(g, mem, ops).Ran? && FromStart(g', mem, ops).Ran? && j < g.nsets
    ensures var c, c' := FromStart(g, mem, ops).c, FromStart(g', mem, ops).c;
      Sized(g, c) && Sized(g', c') && Recent(g, c, j) <= Recent(g', c', j)
  {
    hide CacheOk, Recent, RefRun, FromStart;
    CacheKeepsOrder(g, mem, ops, j);
    CacheKeepsOrder(g', mem, ops, j);
    RefInclusion(g, g', [], [], j, ops);
  }
}
