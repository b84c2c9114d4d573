/**
 * One cache set with its blocks, its way list and its hash chains, updated in place.
 */
module CacheSets {
  import opened Common
  import M = CacheModel
  import opened CacheProofs
  import opened CacheLinks
  type Line = M.Line
  type Geometry = M.Geometry

  datatype Where = Head | Tail

  lemma PositionOf(g: Geometry, s: M.Set, b: nat) returns (k: nat)
    requires M.SetOk(g, s) && b < g.assoc
    ensures k < |s.ways| && s.ways[k] == b && M.Without(s.ways, b) == Skip(s.ways, k)
  {
    SetPermutes(g, s);
    k := WayOf(s.ways, b, g.assoc);
  }

  lemma ReorderedOk(g: Geometry, s: M.Set, b: nat)
    requires M.SetOk(g, s) && b < g.assoc
    ensures M.SetOk(g, s.(ways := M.ToFront(s.ways, b))) && M.SetOk(g, s.(ways := M.ToBack(s.ways, b)))
  {
    SetPermutes(g, s);
    ReorderPermutes(s.ways, b, g.assoc);
    hide M.ToFront, M.ToBack;
  }

  /** The set a hit leaves. */
  function SetHit(g: Geometry, s: M.Set, b: nat, cmd: M.Cmd, ofs: nat, slow: bool): M.Set
    requires M.Shaped(g, s) && b < g.assoc && ofs + M.Bytes(cmd) <= g.bsize
  {
    M.Set(s.lines[b := M.Touch(s.lines[b], cmd, ofs)],
      if slow && g.policy == M.LRU then M.ToFront(s.ways, b) else s.ways)
  }

  /** The set a miss leaves. */
  function SetReplaced(g: Geometry, s: M.Set, b: nat, line: Line): M.Set
    requires M.Shaped(g, s) && b < g.assoc
  {
    M.Set(s.lines[b := line], if g.policy == M.Random then s.ways else M.ToFront(s.ways, b))
  }

  class CacheSet {
    const g: Geometry
    const lines: array<Line>
    const next: array<int>
    const prev: array<int>
    const hash: array<int>
    const hnext: array<int>
    var head: int
    var tail: int

    /** The way list and the hash chains. */
    ghost var ways: seq<nat>
    ghost var chains: seq<seq<nat>>

    ghost function Repr(): set<object> { {this, lines, next, prev, hash, hnext} }

    ghost function View(): M.Set
      reads this, lines
    {
      M.Set(lines[..], ways)
    }

    ghost function WayLinks(): Links
      reads this, next, prev
    {
      Links(next[..], prev[..], head, tail)
    }

    /** No two of the arrays are the same one, and they have their sizes. */
    ghost predicate Laid() {
      && lines.Length == next.Length == prev.Length == hnext.Length == g.assoc
      && next != prev && next != hash && next != hnext && prev != hash && prev != hnext && hash != hnext
      && g.Valid()
    }

    /** All indexes agree, except that block `out` is in no hash bucket. */
    ghost predicate ValidBut(out: int)
      reads this, lines, next, prev, hash, hnext
    {
      && Laid() && M.SetOk(g, View()) && Spells(WayLinks(), ways)
      && (hash.Length > 0 ==> Tabled(lines[..], hash[..], hnext[..], chains, out))
    }

    ghost predicate Valid()
      reads this, lines, next, prev, hash, hnext
    {
      ValidBut(-1)
    }

    /** cache_create for one set: the way list ends up in reverse order of allocation. */
    constructor (g: Geometry)
      requires g.Valid()
      ensures Valid() && this.g == g && View() == M.Blank(g) && fresh(Repr())
    {
      hide Spells, Piled, Hash, M.Countdown, M.SetOk, Tabled;
      this.g := g;
      var blank := M.Line(0, false, false, seq(g.bsize, _ => 0));
      lines := new Line[g.assoc](_ => blank);
      next := new int[g.assoc](_ => -1);
      prev := new int[g.assoc](_ => -1);
      hnext := new int[g.assoc](_ => -1);
      var hsize := if g.assoc > 4 then g.assoc / 4 else 0;
      hash := new int[hsize](_ => -1);
      head, tail, ways, chains := -1, -1, [], seq(hsize, _ => []);
      new;
      assert lines[..] == M.Blank(g).lines;
      StartsEmpty(g, WayLinks(), hash[..], hnext[..], chains);
      LinkAll();
    }

    /** The loop over the blocks of a set in cache_create. */
    method LinkAll()
      requires Laid() && lines[..] == M.Blank(g).lines && ways == [] == M.Countdown(0) && Spells(WayLinks(), ways)
      requires hash.Length > 0 ==> Piled(hash[..], hnext[..], chains, ways)
      modifies `head, `tail, `ways, `chains, next, prev, hash, hnext
      ensures Valid() && View() == M.Blank(g)
    {
      hide Spells, Piled, Hash, Tabled, M.SetOk, M.Countdown;
      var j := 0;
      while j < g.assoc
        invariant 0 <= j <= g.assoc && Spells(WayLinks(), ways) && ways == M.Countdown(j)
        invariant hash.Length > 0 ==> Piled(hash[..], hnext[..], chains, ways)
      {
        Append(j);
        j := j + 1;
      }
      BlankOk(g, hash[..], hnext[..], chains);
    }

    /** One more block joins the way list and the bucket of tag zero. */
    method Append(b: nat)
      requires Laid() && b < g.assoc && Spells(WayLinks(), ways) && ways == M.Countdown(b)
      requires hash.Length > 0 ==> Piled(hash[..], hnext[..], chains, ways)
      modifies `head, `tail, `ways, `chains, next, prev, hash, hnext
      ensures Spells(WayLinks(), ways) && ways == M.Countdown(b + 1)
      ensures hash.Length > 0 ==> Piled(hash[..], hnext[..], chains, ways)
    {
      hide Spells, Piled, Hash;
      CountdownStep(b);
      if hash.Length > 0 {
        PileUp(hash[..], hnext[..], chains, ways, b);
        PiledSizes(hash[..], hnext[..], chains, ways);
        var index := Hash(0, hash.Length);
        hnext[b] := hash[index];
        hash[index] := b;
        chains := chains[index := [b] + ways];
      }
      CreatedSpells(WayLinks(), ways, b);
      next[b], prev[b] := head, -1;
      if head >= 0 {
        prev[head] := b;
      }
      head := b;
      if tail < 0 {
        tail := b;
      }
      assert WayLinks() == Created(old(WayLinks()), b);
      ways := [b] + ways;
    }

    /** update_way_list: unlink `b`, which is not alone in the list */
    method Unlink(b: nat, ghost k: nat)
      requires Laid() && Spells(WayLinks(), ways) && k < |ways| && |ways| > 1 && ways[k] == b
      modifies `head, `tail, `ways, next, prev
      ensures Spells(WayLinks(), ways) && ways == Skip(old(ways), k) && b !in ways
    {
      hide Spells, Skip;
      UnlinkSpells(WayLinks(), ways, k);
      var p, n := prev[b], next[b];
      if p < 0 {
        head := n;
      } else {
        next[p] := n;
      }
      if n < 0 {
        tail := p;
      } else {
        prev[n] := p;
      }
      assert WayLinks() == Unlinked(old(WayLinks()), b);
      ways := Skip(ways, k);
    }

    method LinkHead(b: nat)
      requires Laid() && b < g.assoc && Spells(WayLinks(), ways) && ways != [] && b !in ways
      modifies `head, `ways, next, prev
      ensures Spells(WayLinks(), ways) && ways == [b] + old(ways)
    {
      hide Spells;
      LinksAt(WayLinks(), ways, 0);
      FrontSpells(WayLinks(), ways, b);
      next[b], prev[b] := head, -1;
      prev[head] := b;
      head := b;
      assert WayLinks() == PushFront(old(WayLinks()), b);
      ways := [b] + ways;
    }

    method LinkTail(b: nat)
      requires Laid() && b < g.assoc && Spells(WayLinks(), ways) && ways != [] && b !in ways
      modifies `tail, `ways, next, prev
      ensures Spells(WayLinks(), ways) && ways == old(ways) + [b]
    {
      hide Spells;
      LinksAt(WayLinks(), ways, 0);
      BackSpells(WayLinks(), ways, b);
      next[b], prev[b] := -1, tail;
      next[tail] := b;
      tail := b;
      assert WayLinks() == PushBack(old(WayLinks()), b);
      ways := ways + [b];
    }

    /** update_way_list */
    method UpdateWayList(b: nat, where: Where, ghost out: int)
      requires ValidBut(out) && b < g.assoc
      modifies `head, `tail, `ways, next, prev
      ensures ValidBut(out) && ways == if where == Head then M.ToFront(old(ways), b) else M.ToBack(old(ways), b)
    {
      hide Spells, Tabled, M.SetOk, M.Without, Skip;
      ghost var k := PositionOf(g, View(), b);
      ReorderedOk(g, View(), b);
      LinksAt(WayLinks(), ways, k);
      if (prev[b] < 0 && next[b] < 0) || (prev[b] < 0 && where == Head) || (next[b] < 0 && where == Tail) {
        StaysPut(ways, k);
        return;
      }
      assert |ways| > 1;
      Unlink(b, k);
      assert ways != [];
      if where == Head {
        LinkHead(b);
      } else {
        LinkTail(b);
      }
    }

    /** unlink_htab_ent: the block is always found in the bucket of its tag */
    method UnlinkHash(b: nat)
      requires Valid() && hash.Length > 0 && b < g.assoc
      modifies `chains, hash, hnext
      ensures ValidBut(b)
    {
      hide Spells, Tabled, BucketsOk, M.SetOk, Hash, Skip;
      ghost var ls, hash0, hnext0 := lines[..], hash[..], hnext[..];
      TabledBuckets(ls, hash0, hnext0, chains, -1);
      var index := Hash(lines[b].tag, hash.Length);
      ghost var kb := BucketOf(ls, hash0, hnext0, chains, b);
      ghost var chain := chains[index];
      var before, ent := -1, hash[index];
      ghost var k := 0;
      while ent >= 0 && ent != b
        modifies {}
        invariant 0 <= k <= kb && ent == chain[k] && before == Before(chain, k) && hash[..] == hash0 &&
          hnext[..] == hnext0
        decreases kb - k
      {
        ChainAt(ls, hash0, hnext0, chains, index, k);
        before, ent := ent, hnext[ent];
        k := k + 1;
      }
      assert ent >= 0;
      ChainAt(ls, hash0, hnext0, chains, index, k);
      SamePlace(ls, hash0, hnext0, chains, index, k, kb);
      UnlinkTabled(ls, hash0, hnext0, chains, index, b, k);
      if before < 0 {
        hash[index] := hnext[ent];
      } else {
        hnext[before] := hnext[ent];
      }
      hnext[ent] := -1;
      chains := chains[index := Skip(chain, k)];
      assert hash[..] == hash0[index := if k == 0 then hnext0[b] else hash0[index]];
      assert hnext[..] == (if k == 0 then hnext0 else hnext0[chain[k - 1] := hnext0[b]])[b := -1];
    }

    /** The search of cache_access, cache_probe and cache_flush_addr: the block that holds `tag`, or -1. */
    method Search(tag: nat) returns (b: int)
      requires Valid() && M.Shaped(g, View())
      ensures b == (match M.Find(View().lines, View().ways, tag) case Some(x) => x case None => -1)
    {
      hide Spells, Tabled, M.SetOk, Hash, M.Find;
      if hash.Length > 0 {
        b := SearchHash(tag);
      } else {
        b := SearchWays(tag);
      }
    }

    method SearchHash(tag: nat) returns (b: int)
      requires Valid() && hash.Length > 0
      ensures b == (match M.Find(lines[..], ways, tag) case Some(x) => x case None => -1)
    {
      hide Spells, Tabled, BucketsOk, M.SetOk, Hash, M.Find;
      TabledBuckets(lines[..], hash[..], hnext[..], chains, -1);
      var index := Hash(tag, hash.Length);
      BucketFits(lines[..], hash[..], hnext[..], chains, index);
      b := hash[index];
      ghost var k, chain := 0, chains[index];
      while b >= 0
        invariant 0 <= k <= |chain| && b == (if k < |chain| then chain[k] else -1)
        invariant forall j :: 0 <= j < k ==> !Holds(lines[..], chain[j], tag)
        decreases |chain| - k
      {
        ChainAt(lines[..], hash[..], hnext[..], chains, index, k);
        if lines[b].tag == tag && lines[b].valid {
          FoundIs(g, View(), tag, b);
          return;
        }
        b := hnext[b];
        k := k + 1;
      }
      NotInBucket(g, View(), hash[..], hnext[..], chains, tag);
    }

    method SearchWays(tag: nat) returns (b: int)
      requires Valid()
      ensures b == (match M.Find(lines[..], ways, tag) case Some(x) => x case None => -1)
    {
      hide Spells, Tabled, M.SetOk, M.Find;
      WaySizes(g, View());
      LinksAt(WayLinks(), ways, 0);
      b := head;
      ghost var k := 0;
      while b >= 0
        invariant 0 <= k <= |ways| && b == (if k < |ways| then ways[k] else -1)
        invariant forall j :: 0 <= j < k ==> !Holds(lines[..], ways[j], tag)
        decreases |ways| - k
      {
        LinksAt(WayLinks(), ways, k);
        if lines[b].tag == tag && lines[b].valid {
          FoundIs(g, View(), tag, b);
          return;
        }
        b := next[b];
        k := k + 1;
      }
      NotInWays(g, View(), tag);
    }

    /** Put `line` into block `b` without changing its tag. */
    method Rewrite(b: nat, line: Line)
      requires Valid() && b < g.assoc && line.tag == lines[b].tag && (line.valid ==> lines[b].valid) &&
        M.DataFits(g, line)
      modifies lines
      ensures Valid() && View() == M.Set(old(lines[..])[b := line], ways)
    {
      hide Spells, Tabled, M.SetOk;
      RewrittenOk(g, View(), b, line);
      if hash.Length > 0 {
        SameTagTabled(lines[..], hash[..], hnext[..], chains, b, line);
      }
      lines[b] := line;
      assert lines[..] == old(lines[..])[b := line];
    }

    /** The hit handlers: copy the data, set the dirty bit, and under LRU move a slow hit to the head. */
    method Hit(b: nat, cmd: M.Cmd, ofs: nat, slow: bool) returns (out: seq<int>)
      requires Valid() && b < g.assoc && ofs + M.Bytes(cmd) <= g.bsize && M.Shaped(g, View())
      modifies Repr()
      ensures Valid() && View() == SetHit(g, old(View()), b, cmd, ofs, slow) &&
        out == M.Fetched(old(View()).lines[b].data, cmd, ofs)
    {
      assert M.DataFits(g, View().lines[b]);
      hide Spells, Tabled, M.SetOk, M.Touch, M.Fetched, M.ToFront;
      out := M.Fetched(lines[b].data, cmd, ofs);
      TouchKeeps(lines[b], cmd, ofs);
      Rewrite(b, M.Touch(lines[b], cmd, ofs));
      if slow && g.policy == M.LRU {
        if prev[b] >= 0 {
          UpdateWayList(b, Head, -1);
        } else {
          AtHead(g, View(), WayLinks(), b);
        }
      }
    }

    /** Invalidate block `b`. */
    method Invalidate(b: nat)
      requires Valid() && b < g.assoc && M.Shaped(g, View())
      modifies Repr()
      ensures Valid() && View() == old(View()).(lines := old(View()).lines[b := old(View()).lines[b].(valid := false)])
    {
      assert M.DataFits(g, View().lines[b]);
      hide Spells, Tabled, M.SetOk;
      Rewrite(b, lines[b].(valid := false));
    }

    /** Move block `b` to the tail of the way list. */
    method Retire(b: nat)
      requires Valid() && b < g.assoc
      modifies Repr()
      ensures Valid() && View() == old(View()).(ways := M.ToBack(old(View()).ways, b))
    {
      hide Spells, Tabled, M.SetOk, M.ToBack;
      UpdateWayList(b, Tail, -1);
    }

    /** The first block of the way list. */
    method First() returns (b: nat)
      requires Valid()
      ensures |View().ways| == g.assoc > 0 && b == View().ways[0]
    {
      hide Spells, Tabled, M.SetOk;
      WaySizes(g, View());
      LinksAt(WayLinks(), ways, 0);
      b := head;
    }

    /** The block after the one at position `k`, or -1. */
    method Following(b: nat, ghost k: nat) returns (n: int)
      requires Valid() && k < |View().ways| && View().ways[k] == b
      ensures n == After(View().ways, k)
    {
      hide Spells, Tabled, M.SetOk;
      WaySizes(g, View());
      LinksAt(WayLinks(), ways, k);
      n := next[b];
    }

    /** Choose the block to replace. */
    method Victim(random: nat) returns (b: nat)
      requires Valid() && M.Shaped(g, View())
      ensures b == M.Victim(g, View(), random) && b < g.assoc
    {
      VictimFits(g, View(), random);
      hide Spells, Tabled, M.SetOk;
      if g.policy == M.Random {
        b := random % g.assoc;
      } else {
        WaySizes(g, View());
        LinksAt(WayLinks(), ways, 0);
        b := tail;
      }
    }

    /** Replace block `b`: move it to the head unless replacement is random, and file it under its new tag. */
    method Replace(b: nat, line: Line)
      requires Valid() && M.Shaped(g, View()) && b < g.assoc && M.DataFits(g, line)
      requires forall a :: 0 <= a < g.assoc && View().lines[a].valid ==> View().lines[a].tag != line.tag
      modifies Repr()
      ensures Valid() && View() == SetReplaced(g, old(View()), b, line)
    {
      hide Spells, Tabled, M.SetOk, M.DataFits, M.ToFront;
      if g.policy != M.Random {
        UpdateWayList(b, Head, -1);
      }
      if hash.Length > 0 {
        UnlinkHash(b);
      }
      Fill(b, line);
    }

    /** A new line for an unfiled block; it is filed under its new tag. */
    method Fill(b: nat, line: Line)
      requires ValidBut(b) && b < g.assoc && M.DataFits(g, line)
      requires forall a :: 0 <= a < g.assoc && a != b && View().lines[a].valid ==> View().lines[a].tag != line.tag
      modifies Repr()
      ensures Valid() && View() == old(View()).(lines := old(View()).lines[b := line])
    {
      hide Spells, Tabled, BucketsOk, M.SetOk, M.Shaped, M.DataFits, Hash, Permutes;
      WaySizes(g, View());
      SetPermutes(g, View());
      SetUpdate(g, View(), b, line, ways);
      if hash.Length > 0 {
        TabledBuckets(lines[..], hash[..], hnext[..], chains, b);
        LinkTabled(lines[..], hash[..], hnext[..], chains, b, line);
        var index := Hash(line.tag, hash.Length);
        BucketFits(lines[..], hash[..], hnext[..], chains, index);
        hnext[b] := hash[index];
        hash[index] := b;
        chains := chains[index := [b] + chains[index]];
      }
      lines[b] := line;
      assert lines[..] == old(lines[..])[b := line];
    }
  }

  // ---------------------------------------------------------------- facts the methods use

  ghost predicate Holds(lines: seq<Line>, b: int, tag: nat) {
    0 <= b < |lines| && lines[b].valid && lines[b].tag == tag
  }

  lemma CountdownStep(n: nat)
    ensures M.Countdown(n + 1) == [n] + M.Countdown(n) && n !in M.Countdown(n)
  {
  }

  lemma PiledSizes(hash: seq<int>, hnext: seq<int>, chains: seq<seq<nat>>, ways: seq<nat>)
    requires Piled(hash, hnext, chains, ways)
    ensures |chains| == |hash| > 0
  {
  }

  lemma StartsEmpty(g: Geometry, l: Links, hash: seq<int>, hnext: seq<int>, chains: seq<seq<nat>>)
    requires |l.next| == |l.prev| && l.head == l.tail == -1 && |chains| == |hash|
    requires forall h :: 0 <= h < |hash| ==> hash[h] == -1 && chains[h] == []
    ensures Spells(l, []) && M.Countdown(0) == [] && (|hash| > 0 ==> Piled(hash, hnext, chains, []))
  {
    hide Hash;
  }

  lemma BlankOk(g: Geometry, hash: seq<int>, hnext: seq<int>, chains: seq<seq<nat>>)
    requires g.Valid() && |hnext| == g.assoc
    ensures M.SetOk(g, M.Blank(g))
    ensures |hash| > 0 && Piled(hash, hnext, chains, M.Countdown(g.assoc)) ==>
      Tabled(M.Blank(g).lines, hash, hnext, chains, -1)
  {
    hide Piled, Tabled, M.SetOk;
    var ways := M.Countdown(g.assoc);
    CountdownCovers(g.assoc);
    BlankSetOk(g);
    if |hash| > 0 && Piled(hash, hnext, chains, ways) {
      PiledTabled(M.Blank(g).lines, hash, hnext, chains, ways);
    }
  }

  lemma CountdownCovers(n: nat)
    ensures forall b :: 0 <= b < n ==> b in M.Countdown(n)
  {
    forall b | 0 <= b < n ensures b in M.Countdown(n) {
      assert M.Countdown(n)[n - 1 - b] == b;
    }
  }

  lemma BlankSetOk(g: Geometry)
    requires g.Valid()
    ensures M.SetOk(g, M.Blank(g))
  {
    CountdownCovers(g.assoc);
  }

  lemma TabledBuckets(lines: seq<Line>, hash: seq<int>, hnext: seq<int>, chains: seq<seq<nat>>, out: int)
    requires Tabled(lines, hash, hnext, chains, out)
    ensures BucketsOk(lines, hash, hnext, chains) && |chains| == |hash|
  {
  }

  lemma BucketFits(lines: seq<Line>, hash: seq<int>, hnext: seq<int>, chains: seq<seq<nat>>, h: nat)
    requires BucketsOk(lines, hash, hnext, chains) && h < |hash|
    ensures |chains| == |hash| && hash[h] == (if chains[h] == [] then -1 else chains[h][0])
  {
  }

  lemma ChainAt(lines: seq<Line>, hash: seq<int>, hnext: seq<int>, chains: seq<seq<nat>>, h: nat, k: nat)
    requires BucketsOk(lines, hash, hnext, chains) && h < |hash| == |chains| && k < |chains[h]|
    ensures chains[h][k] < |hnext| == |lines| && hnext[chains[h][k]] == After(chains[h], k)
  {
    assert Chains(hnext, hash[h], chains[h]);
  }

  lemma BucketOf(lines: seq<Line>, hash: seq<int>, hnext: seq<int>, chains: seq<seq<nat>>, b: nat) returns (k: nat)
    requires Tabled(lines, hash, hnext, chains, -1) && b < |lines|
    ensures |chains| == |hash| > 0
    ensures var h := Hash(lines[b].tag, |hash|); k < |chains[h]| && chains[h][k] == b && hash[h] == chains[h][0]
  {
    hide Hash;
    var h := Hash(lines[b].tag, |hash|);
    assert b in chains[h];
    k :| 0 <= k < |chains[h]| && chains[h][k] == b;
    BucketFits(lines, hash, hnext, chains, h);
  }

  lemma SamePlace(lines: seq<Line>, hash: seq<int>, hnext: seq<int>, chains: seq<seq<nat>>, h: nat, j: nat, k: nat)
    requires BucketsOk(lines, hash, hnext, chains) && h < |hash| == |chains| && j <= k < |chains[h]| &&
      chains[h][j] == chains[h][k]
    ensures j == k
  {
    assert Chains(hnext, hash[h], chains[h]);
  }

  lemma FoundIs(g: Geometry, s: M.Set, tag: nat, b: nat)
    requires M.SetOk(g, s) && Holds(s.lines, b, tag)
    ensures M.Find(s.lines, s.ways, tag) == Some(b)
  {
    FindIs(g, s, tag);
  }

  lemma WaySizes(g: Geometry, s: M.Set)
    requires M.SetOk(g, s)
    ensures |s.ways| == |s.lines| == g.assoc && forall k :: 0 <= k < |s.ways| ==> s.ways[k] < g.assoc
  {
  }

  lemma NotInWays(g: Geometry, s: M.Set, tag: nat)
    requires M.SetOk(g, s) && forall j :: 0 <= j < |s.ways| ==> !Holds(s.lines, s.ways[j], tag)
    ensures M.Find(s.lines, s.ways, tag) == None
  {
    FindAlong(s.lines, s.ways, tag);
  }

  lemma NotInBucket(g: Geometry, s: M.Set, hash: seq<int>, hnext: seq<int>, chains: seq<seq<nat>>, tag: nat)
    requires M.SetOk(g, s) && Tabled(s.lines, hash, hnext, chains, -1)
    requires var chain := chains[Hash(tag, |hash|)]; forall j :: 0 <= j < |chain| ==> !Holds(s.lines, chain[j], tag)
    ensures M.Find(s.lines, s.ways, tag) == None
  {
    hide Hash, BucketsOk;
    var chain := chains[Hash(tag, |hash|)];
    forall b | 0 <= b < g.assoc && s.lines[b].tag == tag ensures b in chain {
      assert b in chains[Hash(s.lines[b].tag, |hash|)];
    }
    FindIs(g, s, tag);
  }

  lemma RewrittenOk(g: Geometry, s: M.Set, b: nat, line: Line)
    requires M.SetOk(g, s) && b < g.assoc && line.tag == s.lines[b].tag && (line.valid ==> s.lines[b].valid) &&
      M.DataFits(g, line)
    ensures M.SetOk(g, M.Set(s.lines[b := line], s.ways))
  {
    SetPermutes(g, s);
    SetUpdate(g, s, b, line, s.ways);
  }

  lemma AtHead(g: Geometry, s: M.Set, l: Links, b: nat)
    requires M.SetOk(g, s) && Spells(l, s.ways) && b < g.assoc && b < |l.prev| && l.prev[b] < 0
    ensures M.ToFront(s.ways, b) == s.ways
  {
    var k := PositionOf(g, s, b);
    LinksAt(l, s.ways, k);
    StaysPut(s.ways, k);
  }

  lemma StaysPut(ways: seq<nat>, k: nat)
    requires k < |ways|
    ensures k == 0 ==> [ways[k]] + Skip(ways, k) == ways
    ensures k == |ways| - 1 ==> Skip(ways, k) + [ways[k]] == ways
  {
  }
}
