/**
 * The doubly linked way lists and singly linked hash chains of cache.c, as links between block
 * numbers with -1 for NULL, and what unlinking and linking do to the lists they stand for.
 */
module CacheLinks {
  import opened CacheModel
  import opened CacheProofs

  // ---------------------------------------------------------------- way lists

  /** way_next and way_prev of every block of a set, way_head and way_tail. */
  datatype Links = Links(next: seq<int>, prev: seq<int>, head: int, tail: int)

  ghost predicate DistinctBelow(ways: seq<nat>, n: nat) {
    && (forall k :: 0 <= k < |ways| ==> ways[k] < n)
    && forall j, k :: 0 <= j < k < |ways| ==> ways[j] != ways[k]
  }

  function After(ways: seq<nat>, k: nat): int { if k + 1 < |ways| then ways[k + 1] else -1 }

  function Before(ways: seq<nat>, k: nat): int requires k <= |ways| { if k > 0 then ways[k - 1] else -1 }

  /** From every block of the list `next` leads to the one after it. */
  ghost predicate NextOk(next: seq<int>, ways: seq<nat>) {
    DistinctBelow(ways, |next|) && forall k :: 0 <= k < |ways| ==> next[ways[k]] == After(ways, k)
  }

  /** ... and `prev` to the one before it. */
  ghost predicate PrevOk(prev: seq<int>, ways: seq<nat>) {
    DistinctBelow(ways, |prev|) && forall k :: 0 <= k < |ways| ==> prev[ways[k]] == Before(ways, k)
  }

  /** The links spell the list `ways`. */
  ghost predicate Spells(l: Links, ways: seq<nat>) {
    && |l.prev| == |l.next| && NextOk(l.next, ways) && PrevOk(l.prev, ways)
    && l.head == (if ways == [] then -1 else ways[0]) && l.tail == (if ways == [] then -1 else ways[|ways| - 1])
  }

  /** update_way_list, first half: take `b` out of a list of at least two blocks. */
  function Unlinked(l: Links, b: nat): Links
    requires b < |l.next| == |l.prev| && -1 <= l.next[b] < |l.next| && -1 <= l.prev[b] < |l.next|
  {
    var p, n := l.prev[b], l.next[b];
    Links(if p >= 0 then l.next[p := n] else l.next, if n >= 0 then l.prev[n := p] else l.prev,
          if p >= 0 then l.head else n, if n >= 0 then l.tail else p)
  }

  /** Second half: link `b` at the head of a non-empty list. */
  function PushFront(l: Links, b: nat): Links
    requires b < |l.next| == |l.prev| && 0 <= l.head < |l.next|
  {
    Links(l.next[b := l.head], l.prev[b := -1][l.head := b], b, l.tail)
  }

  /** ... or at its tail. */
  function PushBack(l: Links, b: nat): Links
    requires b < |l.next| == |l.prev| && 0 <= l.tail < |l.next|
  {
    Links(l.next[b := -1][l.tail := b], l.prev[b := l.tail], l.head, b)
  }

  /** A list without its `k`-th element. */
  function Skip(ways: seq<nat>, k: nat): (r: seq<nat>)
    requires k < |ways|
    ensures |r| == |ways| - 1 && forall j :: 0 <= j < |r| ==> r[j] == ways[if j < k then j else j + 1]
  {
    ways[..k] + ways[k + 1..]
  }

  lemma SkipDistinct(ways: seq<nat>, k: nat, n: nat)
    requires DistinctBelow(ways, n) && k < |ways|
    ensures DistinctBelow(Skip(ways, k), n) && ways[k] !in Skip(ways, k)
  {
    hide Skip;
  }

  lemma PushDistinct(ways: seq<nat>, b: nat, n: nat)
    requires DistinctBelow(ways, n) && b < n && b !in ways
    ensures DistinctBelow([b] + ways, n)
  {
    var longer := [b] + ways;
    forall j | 1 <= j < |longer| ensures longer[j] == ways[j - 1] && longer[j] != b {
      assert ways[j - 1] in ways;
    }
  }

  lemma SkipNext(next: seq<int>, ways: seq<nat>, k: nat)
    requires NextOk(next, ways) && k < |ways|
    ensures NextOk(if k == 0 then next else next[ways[k - 1] := next[ways[k]]], Skip(ways, k))
  {
    var next' := if k == 0 then next else next[ways[k - 1] := next[ways[k]]];
    var rest := Skip(ways, k);
    SkipDistinct(ways, k, |next|);
    hide Skip;
    forall j | 0 <= j < |rest| ensures next'[rest[j]] == After(rest, j) {
      var i := if j < k then j else j + 1;
      assert rest[j] == ways[i] && next[ways[i]] == After(ways, i) && next[ways[k]] == After(ways, k);
      hide NextOk;
    }
  }

  lemma SkipPrev(prev: seq<int>, ways: seq<nat>, k: nat)
    requires PrevOk(prev, ways) && k < |ways|
    ensures PrevOk(if k == |ways| - 1 then prev else prev[ways[k + 1] := prev[ways[k]]], Skip(ways, k))
  {
    var prev' := if k == |ways| - 1 then prev else prev[ways[k + 1] := prev[ways[k]]];
    var rest := Skip(ways, k);
    SkipDistinct(ways, k, |prev|);
    hide Skip;
    forall j | 0 <= j < |rest| ensures prev'[rest[j]] == Before(rest, j) {
      var i := if j < k then j else j + 1;
      assert rest[j] == ways[i] && prev[ways[i]] == Before(ways, i) && prev[ways[k]] == Before(ways, k);
      hide PrevOk;
    }
  }

  /** Links that name no block of a list do not matter to it. */
  lemma NextFrame(next: seq<int>, next': seq<int>, ways: seq<nat>)
    requires NextOk(next, ways) && |next'| == |next| && forall k :: 0 <= k < |ways| ==> next'[ways[k]] == next[ways[k]]
    ensures NextOk(next', ways)
  {
  }

  lemma PushNext(next: seq<int>, ways: seq<nat>, b: nat)
    requires NextOk(next, ways) && b < |next| && b !in ways
    ensures NextOk(next[b := if ways == [] then -1 else ways[0]], [b] + ways)
  {
    var next', longer := next[b := if ways == [] then -1 else ways[0]], [b] + ways;
    PushDistinct(ways, b, |next|);
    forall j | 0 <= j < |longer| ensures next'[longer[j]] == After(longer, j) {
      if j > 0 {
        assert longer[j] == ways[j - 1] && ways[j - 1] in ways && next[ways[j - 1]] == After(ways, j - 1);
      }
      hide NextOk, DistinctBelow;
    }
  }

  /** The links of the block at position `k`. */
  lemma LinksAt(l: Links, ways: seq<nat>, k: nat)
    requires Spells(l, ways) && k < |ways|
    ensures |l.prev| == |l.next| && ways[k] < |l.next| && l.next[ways[k]] == After(ways, k) &&
      l.prev[ways[k]] == Before(ways, k)
    ensures 0 <= l.head < |l.next| && 0 <= l.tail < |l.next| && l.head == ways[0] && l.tail == ways[|ways| - 1]
  {
  }

  /** Unlinking a block of a list of at least two leaves the list without it. */
  lemma UnlinkSpells(l: Links, ways: seq<nat>, k: nat)
    requires Spells(l, ways) && k < |ways| && |ways| > 1
    ensures var b := ways[k]; b < |l.next| == |l.prev| && -1 <= l.next[b] < |l.next| && -1 <= l.prev[b] < |l.next|
    ensures Spells(Unlinked(l, ways[k]), Skip(ways, k)) && ways[k] !in Skip(ways, k)
  {
    var b := ways[k];
    assert l.next[b] == After(ways, k) && l.prev[b] == Before(ways, k);
    SkipNext(l.next, ways, k);
    SkipPrev(l.prev, ways, k);
    SkipDistinct(ways, k, |l.next|);
    assert k > 0 ==> l.prev[b] == ways[k - 1];
    assert k + 1 < |ways| ==> l.next[b] == ways[k + 1];
    hide NextOk, PrevOk, Skip;
  }

  lemma FrontPrev(prev: seq<int>, ways: seq<nat>, b: nat)
    requires PrevOk(prev, ways) && ways != [] && b < |prev| && b !in ways
    ensures PrevOk(prev[b := -1][ways[0] := b], [b] + ways)
  {
    var prev', longer := prev[b := -1][ways[0] := b], [b] + ways;
    PushDistinct(ways, b, |prev|);
    forall j | 0 <= j < |longer| ensures prev'[longer[j]] == Before(longer, j) {
      if j > 0 {
        assert longer[j] == ways[j - 1] && ways[j - 1] in ways && prev[ways[j - 1]] == Before(ways, j - 1);
        assert j > 1 ==> ways[j - 1] != ways[0];
      }
      hide PrevOk;
    }
  }

  lemma FrontSpells(l: Links, ways: seq<nat>, b: nat)
    requires Spells(l, ways) && ways != [] && b !in ways && b < |l.next|
    ensures Spells(PushFront(l, b), [b] + ways)
  {
    PushNext(l.next, ways, b);
    FrontPrev(l.prev, ways, b);
    assert ([b] + ways)[|ways|] == ways[|ways| - 1];
    hide NextOk, PrevOk;
  }

  lemma BackSpells(l: Links, ways: seq<nat>, b: nat)
    requires Spells(l, ways) && ways != [] && b !in ways && b < |l.next|
    ensures Spells(PushBack(l, b), ways + [b])
  {
    BackNext(l.next, ways, b);
    BackPrev(l.prev, ways, b);
    hide NextOk, PrevOk;
  }

  lemma BackDistinct(ways: seq<nat>, b: nat, n: nat)
    requires DistinctBelow(ways, n) && b < n && b !in ways
    ensures DistinctBelow(ways + [b], n)
  {
    var back := ways + [b];
    forall j | 0 <= j < |ways| ensures back[j] == ways[j] && back[j] != b {
      assert ways[j] in ways;
    }
  }

  lemma BackNext(next: seq<int>, ways: seq<nat>, b: nat)
    requires NextOk(next, ways) && ways != [] && b < |next| && b !in ways
    ensures NextOk(next[b := -1][ways[|ways| - 1] := b], ways + [b])
  {
    var next', back := next[b := -1][ways[|ways| - 1] := b], ways + [b];
    BackDistinct(ways, b, |next|);
    forall j | 0 <= j < |back| ensures next'[back[j]] == After(back, j) {
      if j < |ways| {
        assert back[j] == ways[j] && ways[j] in ways && next[ways[j]] == After(ways, j);
      } else {
        assert ways[|ways| - 1] in ways;
      }
    }
  }

  lemma BackPrev(prev: seq<int>, ways: seq<nat>, b: nat)
    requires PrevOk(prev, ways) && ways != [] && b < |prev| && b !in ways
    ensures PrevOk(prev[b := ways[|ways| - 1]], ways + [b])
  {
    var prev', back := prev[b := ways[|ways| - 1]], ways + [b];
    BackDistinct(ways, b, |prev|);
    forall j | 0 <= j < |back| ensures prev'[back[j]] == Before(back, j) {
      if j < |ways| {
        assert back[j] == ways[j] && ways[j] in ways && prev[ways[j]] == Before(ways, j);
      }
    }
  }

  /** cache_create: link `b` at the head of a list that may be empty. */
  function Created(l: Links, b: nat): Links
    requires b < |l.next| == |l.prev| && -1 <= l.head < |l.next|
  {
    Links(l.next[b := l.head], if l.head >= 0 then l.prev[b := -1][l.head := b] else l.prev[b := -1], b,
          if l.tail >= 0 then l.tail else b)
  }

  lemma CreatedSpells(l: Links, ways: seq<nat>, b: nat)
    requires Spells(l, ways) && b !in ways && b < |l.next|
    ensures -1 <= l.head < |l.next| && Spells(Created(l, b), [b] + ways)
  {
    if ways != [] {
      LinksAt(l, ways, 0);
      FrontSpells(l, ways, b);
      hide Spells;
    }
  }

  // ---------------------------------------------------------------- hash chains

  /** hash_next from `first` spells `chain`. */
  ghost predicate Chains(hnext: seq<int>, first: int, chain: seq<nat>) {
    NextOk(hnext, chain) && first == (if chain == [] then -1 else chain[0])
  }

  lemma ChainPush(hnext: seq<int>, first: int, chain: seq<nat>, b: nat)
    requires Chains(hnext, first, chain) && b < |hnext| && b !in chain
    ensures Chains(hnext[b := first], b, [b] + chain)
  {
    PushNext(hnext, chain, b);
  }

  /** Taking the `k`-th block out of a chain; its own link is cleared. */
  lemma ChainPop(hnext: seq<int>, first: int, chain: seq<nat>, k: nat)
    requires Chains(hnext, first, chain) && k < |chain|
    ensures chain[k] < |hnext| && (k > 0 ==> chain[k - 1] < |hnext|) && hnext[chain[k]] == After(chain, k)
    ensures Chains((if k == 0 then hnext else hnext[chain[k - 1] := hnext[chain[k]]])[chain[k] := -1],
                   if k == 0 then hnext[chain[k]] else first, Skip(chain, k))
  {
    var b := chain[k];
    var hnext1 := if k == 0 then hnext else hnext[chain[k - 1] := hnext[b]];
    assert hnext[b] == After(chain, k);
    SkipNext(hnext, chain, k);
    SkipDistinct(chain, k, |hnext|);
    hide Skip;
    forall j | 0 <= j < |Skip(chain, k)| ensures hnext1[b := -1][Skip(chain, k)[j]] == hnext1[Skip(chain, k)[j]] {
      assert Skip(chain, k)[j] in Skip(chain, k);
    }
    NextFrame(hnext1, hnext1[b := -1], Skip(chain, k));
    hide NextOk;
  }

  // ---------------------------------------------------------------- the hash table of a set

  /** The bytes of a tag folded together. */
  function Fold(tag: nat): nat {
    var k := (tag % 0x1_0000_0000) as bv32;
    ((k >> 24) ^ (k >> 16) ^ (k >> 8) ^ k) as nat
  }

  /** CACHE_HASH */
  function Hash(tag: nat, hsize: nat): (r: nat)
    requires hsize > 0
    ensures r < hsize
  {
    Fold(tag) % hsize
  }

  /** Every chain spells its bucket, and holds only blocks of its own tags. */
  ghost predicate BucketsOk(lines: seq<Line>, hash: seq<int>, hnext: seq<int>, chains: seq<seq<nat>>) {
    && |chains| == |hash| > 0 && |hnext| == |lines|
    && (forall h :: 0 <= h < |hash| ==> Chains(hnext, hash[h], chains[h]))
    && (forall h, k :: 0 <= h < |hash| && 0 <= k < |chains[h]| ==> chains[h][k] < |lines|)
    && forall h, k :: 0 <= h < |hash| && 0 <= k < |chains[h]| ==> Hash(lines[chains[h][k]].tag, |hash|) == h
  }

  /** Every block but `out` is in the bucket of its tag; `out` is in none. */
  ghost predicate Filed(lines: seq<Line>, hsize: nat, chains: seq<seq<nat>>, out: int) {
    && hsize > 0 && |chains| == hsize
    && (forall b :: 0 <= b < |lines| && b != out ==> b in chains[Hash(lines[b].tag, hsize)])
    && forall h, k :: 0 <= h < hsize && 0 <= k < |chains[h]| ==> chains[h][k] != out
  }

  ghost predicate Tabled(lines: seq<Line>, hash: seq<int>, hnext: seq<int>, chains: seq<seq<nat>>, out: int) {
    BucketsOk(lines, hash, hnext, chains) && Filed(lines, |hash|, chains, out)
  }

  /** Two buckets have no block in common. */
  lemma BucketsApart(lines: seq<Line>, hash: seq<int>, hnext: seq<int>, chains: seq<seq<nat>>, h: nat, b: nat)
    requires BucketsOk(lines, hash, hnext, chains) && h < |hash| && b < |lines| && Hash(lines[b].tag, |hash|) != h
    ensures b !in chains[h]
  {
    hide Hash;
  }

  /** Bucket contents after one chain has been replaced by part of it. */
  lemma ShorterBuckets(lines: seq<Line>, hash: seq<int>, hnext: seq<int>, chains: seq<seq<nat>>, h: nat, rest: seq<nat>,
                       first: int, hnext': seq<int>)
    requires BucketsOk(lines, hash, hnext, chains) && h < |hash| && |hnext'| == |hnext| && Chains(hnext', first, rest)
    requires forall k :: 0 <= k < |rest| ==> rest[k] in chains[h]
    requires forall i :: 0 <= i < |hash| && i != h ==> Chains(hnext', hash[i], chains[i])
    ensures BucketsOk(lines, hash[h := first], hnext', chains[h := rest])
  {
    hide Hash, Chains;
  }

  lemma SkipWithin(chain: seq<nat>, k: nat)
    requires k < |chain|
    ensures forall j :: 0 <= j < |Skip(chain, k)| ==> Skip(chain, k)[j] in chain
  {
  }

  /** unlink_htab_ent takes a block out of its bucket. */
  lemma UnlinkTabled(lines: seq<Line>, hash: seq<int>, hnext: seq<int>, chains: seq<seq<nat>>, h: nat, b: nat, k: nat)
    requires Tabled(lines, hash, hnext, chains, -1) && b < |lines| && h < |hash| && h == Hash(lines[b].tag, |hash|)
    requires k < |chains[h]| && chains[h][k] == b
    ensures k > 0 ==> chains[h][k - 1] < |hnext|
    ensures Tabled(lines, hash[h := if k == 0 then hnext[b] else hash[h]],
                   (if k == 0 then hnext else hnext[chains[h][k - 1] := hnext[b]])[b := -1],
                     chains[h := Skip(chains[h], k)], b)
  {
    hide Hash, Skip;
    var chain := chains[h];
    assert Chains(hnext, hash[h], chain);
    ChainPop(hnext, hash[h], chain, k);
    SkipDistinct(chain, k, |hnext|);
    SkipWithin(chain, k);
    var hnext' := (if k == 0 then hnext else hnext[chain[k - 1] := hnext[b]])[b := -1];
    forall i | 0 <= i < |hash| && i != h ensures Chains(hnext', hash[i], chains[i]) {
      UnlinkOther(lines, hash, hnext, chains, b, k, i);
    }
    UnlinkFiled(lines, hash, hnext, chains, h, b, k);
    hide Chains, Filed, BucketsOk;
    ShorterBuckets(lines, hash, hnext, chains, h, Skip(chain, k), if k == 0 then hnext[b] else hash[h], hnext');
  }

  lemma UnlinkOther(lines: seq<Line>, hash: seq<int>, hnext: seq<int>, chains: seq<seq<nat>>, b: nat, k: nat, i: nat)
    requires BucketsOk(lines, hash, hnext, chains) && b < |lines| && i < |hash| && i != Hash(lines[b].tag, |hash|)
    requires var h := Hash(lines[b].tag, |hash|); k < |chains[h]| && chains[h][k] == b
    ensures var chain := chains[Hash(lines[b].tag, |hash|)];
      && (k > 0 ==> chain[k - 1] < |hnext|)
      && Chains((if k == 0 then hnext else hnext[chain[k - 1] := hnext[b]])[b := -1], hash[i], chains[i])
  {
    hide Hash, NextOk;
    var chain := chains[Hash(lines[b].tag, |hash|)];
    assert Chains(hnext, hash[i], chains[i]);
    BucketsApart(lines, hash, hnext, chains, i, b);
    if k > 0 {
      BucketsApart(lines, hash, hnext, chains, i, chain[k - 1]);
      hide BucketsOk, Chains;
      ChainApart(hnext, hash[i], chains[i], chain[k - 1], hnext[b]);
      ChainApart(hnext[chain[k - 1] := hnext[b]], hash[i], chains[i], b, -1);
    } else {
      hide BucketsOk, Chains;
      ChainApart(hnext, hash[i], chains[i], b, -1);
    }
  }

  lemma StillIn(chain: seq<nat>, k: nat, a: nat)
    requires k < |chain| && a in chain && a != chain[k]
    ensures a in Skip(chain, k)
  {
    var j :| 0 <= j < |chain| && chain[j] == a;
    assert Skip(chain, k)[if j < k then j else j - 1] == a;
  }

  lemma UnlinkFiled(lines: seq<Line>, hash: seq<int>, hnext: seq<int>, chains: seq<seq<nat>>, h: nat, b: nat, k: nat)
    requires Tabled(lines, hash, hnext, chains, -1) && b < |lines| && h < |hash| && h == Hash(lines[b].tag, |hash|)
    requires k < |chains[h]| && chains[h][k] == b && b !in Skip(chains[h], k)
    ensures Filed(lines, |hash|, chains[h := Skip(chains[h], k)], b)
  {
    hide Hash, Skip;
    var rest := Skip(chains[h], k);
    forall a | 0 <= a < |lines| && a != b && Hash(lines[a].tag, |hash|) == h ensures a in rest {
      assert a in chains[Hash(lines[a].tag, |hash|)];
      StillIn(chains[h], k, a);
    }
    forall i | 0 <= i < |hash| && i != h ensures b !in chains[i] {
      BucketsApart(lines, hash, hnext, chains, i, b);
    }
    hide BucketsOk;
    var chains' := chains[h := rest];
    forall i, j | 0 <= i < |hash| && 0 <= j < |chains'[i]| ensures chains'[i][j] != b {
      assert chains'[i][j] in chains'[i];
    }
  }

  /** link_htab_ent files a block that is in no bucket under its new tag. */
  lemma LinkTabled(lines: seq<Line>, hash: seq<int>, hnext: seq<int>, chains: seq<seq<nat>>, b: nat, line: Line)
    requires Tabled(lines, hash, hnext, chains, b) && b < |lines|
    ensures var h := Hash(line.tag, |hash|);
      Tabled(lines[b := line], hash[h := b], hnext[b := hash[h]], chains[h := [b] + chains[h]], -1)
  {
    hide Hash, Chains;
    var h := Hash(line.tag, |hash|);
    var hash', hnext', chains' := hash[h := b], hnext[b := hash[h]], chains[h := [b] + chains[h]];
    forall i | 0 <= i < |hash| ensures Chains(hnext', hash'[i], chains'[i]) {
      LinkChain(lines, hash, hnext, chains, b, h, i);
    }
    LinkFiled(lines, hash, hnext, chains, b, line);
    LinkHashes(lines, hash, hnext, chains, b, line);
    hide Filed;
  }

  lemma LinkChain(lines: seq<Line>, hash: seq<int>, hnext: seq<int>, chains: seq<seq<nat>>, b: nat, h: nat, i: nat)
    requires Tabled(lines, hash, hnext, chains, b) && b < |lines| && h < |hash| && i < |hash|
    ensures Chains(hnext[b := hash[h]], hash[h := b][i], chains[h := [b] + chains[h]][i])
  {
    hide Hash;
    assert Chains(hnext, hash[i], chains[i]) && b !in chains[i];
    hide Tabled, NextOk;
    if i == h {
      ChainPush(hnext, hash[h], chains[h], b);
    } else {
      ChainApart(hnext, hash[i], chains[i], b, hash[h]);
    }
  }

  lemma ChainApart(hnext: seq<int>, first: int, chain: seq<nat>, b: nat, x: int)
    requires Chains(hnext, first, chain) && b < |hnext| && b !in chain
    ensures Chains(hnext[b := x], first, chain)
  {
    forall j | 0 <= j < |chain| ensures hnext[b := x][chain[j]] == hnext[chain[j]] {
      assert chain[j] in chain;
    }
    NextFrame(hnext, hnext[b := x], chain);
  }

  lemma LinkHashes(lines: seq<Line>, hash: seq<int>, hnext: seq<int>, chains: seq<seq<nat>>, b: nat, line: Line)
    requires Tabled(lines, hash, hnext, chains, b) && b < |lines|
    ensures var h := Hash(line.tag, |hash|); var chains' := chains[h := [b] + chains[h]];
      var lines' := lines[b := line];
      forall i, k :: 0 <= i < |hash| && 0 <= k < |chains'[i]| ==>
        chains'[i][k] < |lines| && Hash(lines'[chains'[i][k]].tag, |hash|) == i
  {
    hide Hash, Chains;
    var h := Hash(line.tag, |hash|);
    var chains', lines' := chains[h := [b] + chains[h]], lines[b := line];
    forall i, k | 0 <= i < |hash| && 0 <= k < |chains'[i]|
      ensures chains'[i][k] < |lines| && Hash(lines'[chains'[i][k]].tag, |hash|) == i
    {
      if i == h && k > 0 {
        assert chains'[i][k] == chains[h][k - 1];
      }
    }
  }

  lemma LinkFiled(lines: seq<Line>, hash: seq<int>, hnext: seq<int>, chains: seq<seq<nat>>, b: nat, line: Line)
    requires Tabled(lines, hash, hnext, chains, b) && b < |lines|
    ensures var h := Hash(line.tag, |hash|); Filed(lines[b := line], |hash|, chains[h := [b] + chains[h]], -1)
  {
    hide Hash, BucketsOk;
    var h := Hash(line.tag, |hash|);
    var lines', chains' := lines[b := line], chains[h := [b] + chains[h]];
    forall a | 0 <= a < |lines'| ensures a in chains'[Hash(lines'[a].tag, |hash|)] {
      if a != b {
        assert a in chains[Hash(lines[a].tag, |hash|)];
      }
    }
  }

  /** Changing a block but not its tag leaves the table right. */
  lemma SameTagTabled(lines: seq<Line>, hash: seq<int>, hnext: seq<int>, chains: seq<seq<nat>>, b: nat, line: Line)
    requires Tabled(lines, hash, hnext, chains, -1) && b < |lines| && line.tag == lines[b].tag
    ensures Tabled(lines[b := line], hash, hnext, chains, -1)
  {
    hide Hash, Chains;
  }

  /** While a set is created all its tags are zero, so its blocks pile up in one bucket. */
  ghost predicate Piled(hash: seq<int>, hnext: seq<int>, chains: seq<seq<nat>>, ways: seq<nat>) {
    && |chains| == |hash| > 0
    && Chains(hnext, hash[Hash(0, |hash|)], ways) && chains[Hash(0, |hash|)] == ways
    && forall h :: 0 <= h < |hash| && h != Hash(0, |hash|) ==> hash[h] == -1 && chains[h] == []
  }

  lemma PileUp(hash: seq<int>, hnext: seq<int>, chains: seq<seq<nat>>, ways: seq<nat>, b: nat)
    requires Piled(hash, hnext, chains, ways) && b < |hnext| && b !in ways
    ensures var h := Hash(0, |hash|); Piled(hash[h := b], hnext[b := hash[h]], chains[h := [b] + ways], [b] + ways)
  {
    hide Hash;
    ChainPush(hnext, hash[Hash(0, |hash|)], ways, b);
    hide Chains;
  }

  lemma PiledTabled(lines: seq<Line>, hash: seq<int>, hnext: seq<int>, chains: seq<seq<nat>>, ways: seq<nat>)
    requires Piled(hash, hnext, chains, ways) && |hnext| == |lines|
    requires forall b :: 0 <= b < |lines| ==> lines[b].tag == 0 && b in ways
    ensures Tabled(lines, hash, hnext, chains, -1)
  {
    hide Hash;
    forall h | 0 <= h < |hash| ensures Chains(hnext, hash[h], chains[h]) {
    }
    assert forall k :: 0 <= k < |ways| ==> ways[k] < |lines|;
    hide Chains;
  }
}
