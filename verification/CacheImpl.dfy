/**
 * The cache of cache.c as an object: sets with their lists and chains, the one-entry fast path,
 * the memory behind, updated in place.  Every method does what its function in the model says.
 */
module CacheImpl {
  import opened Common
  import M = CacheModel
  import P = CacheProofs
  import R = CacheRuns
  import opened CacheSets

  datatype Reply = Served(out: seq<int>, hit: bool, replaced: Option<nat>) | Failed(error: M.Error)

  class Cache {
    const g: M.Geometry
    const sets: seq<CacheSet>
    var lastBase: nat
    var lastBlk: Option<nat>
    var mem: map<nat, seq<int>>
    var stats: M.Stats

    /** The sets as values. */
    ghost var shown: seq<M.Set>

    ghost function View(): M.Cache
      reads this
    {
      M.Cache(shown, lastBase, lastBlk, mem, stats)
    }

    ghost function Repr(): set<object> {
      set i, o | 0 <= i < |sets| && o in sets[i].Repr() :: o
    }

    /** The sets share nothing with each other or with the cache. */
    ghost predicate Apart() {
      && (forall i :: 0 <= i < |sets| ==> this !in sets[i].Repr())
      && forall i, j :: 0 <= i < j < |sets| ==> sets[i].Repr() !! sets[j].Repr()
    }

    ghost predicate SetsValid()
      reads `shown, Repr()
    {
      && |sets| == |shown| && Apart()
      && forall i :: 0 <= i < |sets| ==> sets[i].g == g && sets[i].Valid() && sets[i].View() == shown[i]
    }

    ghost predicate Valid()
      reads this, Repr()
    {
      SetsValid() && P.CacheOk(g, View())
    }

    /** cache_create, over the memory `mem` */
    constructor (g: M.Geometry, mem: map<nat, seq<int>>)
      requires g.Valid() && R.MemFits(g, mem)
      ensures Valid() && this.g == g && View() == M.Initial(g, mem) && fresh(Repr())
    {
      hide CacheSet.Valid, CacheSet.View, P.CacheOk, M.Blank;
      var ss := Sets(g);
      this.g := g;
      sets := ss;
      lastBase, lastBlk, this.mem, stats := 0, None, mem, M.Stats(0, 0, 0, 0, 0);
      shown := seq(g.nsets, _ => M.Blank(g));
      R.InitialOk(g, mem);
    }

    static method Sets(g: M.Geometry) returns (ss: seq<CacheSet>)
      requires g.Valid()
      ensures |ss| == g.nsets && forall i :: 0 <= i < |ss| ==> fresh(ss[i].Repr())
      ensures forall i :: 0 <= i < |ss| ==> ss[i].g == g && ss[i].Valid() && ss[i].View() == M.Blank(g)
      ensures forall i, j :: 0 <= i < j < |ss| ==> ss[i].Repr() !! ss[j].Repr()
    {
      hide CacheSet.Valid, CacheSet.View, M.Blank;
      ss := [];
      while |ss| < g.nsets
        invariant |ss| <= g.nsets && forall i :: 0 <= i < |ss| ==> fresh(ss[i].Repr())
        invariant forall i :: 0 <= i < |ss| ==> ss[i].g == g && ss[i].Valid() && ss[i].View() == M.Blank(g)
        invariant forall i, j :: 0 <= i < j < |ss| ==> ss[i].Repr() !! ss[j].Repr()
      {
        var s := new CacheSet(g);
        ss := ss + [s];
      }
    }

    /** A hit in block `b` of set `i`. */
    method Hit(i: nat, b: nat, bn: nat, cmd: M.Cmd, ofs: nat, slow: bool) returns (out: seq<int>)
      requires SetsValid() && M.Sized(g, View()) && i < g.nsets && b < g.assoc && ofs + M.Bytes(cmd) <= g.bsize
      modifies this, sets[i].Repr()
      ensures SetsValid()
      ensures var r := M.Hit(g, old(View()), i, b, bn, ofs, cmd, slow); View() == r.c && out == r.out
    {
      hide M.Sized, M.Shaped, M.Touch, M.Fetched, M.ToFront, CacheSet.Valid, CacheSet.View;
      ShapedAt(g, View(), i);
      out := sets[i].Hit(b, cmd, ofs, slow);
      shown := shown[i := sets[i].View()];
      lastBase, lastBlk, stats := bn * g.bsize, Some(b), stats.(hits := stats.hits + 1);
    }

    /** Write the block `line` of set `i` back if it is valid and dirty, and count it. */
    method WriteBack(line: M.Line, i: nat)
      modifies `mem, `stats
      ensures View() == M.WriteBack(g, old(View()), line, i)
    {
      if line.valid {
        stats := stats.(replacements := stats.replacements + 1);
        if line.dirty {
          mem := mem[M.BlockOf(g, line.tag, i) := line.data];
          stats := stats.(writebacks := stats.writebacks + 1);
        }
      }
    }

    /** blk_access_fn: read a block from the memory behind the cache */
    method ReadBlock(bn: nat) returns (data: seq<int>)
      ensures data == M.MemBlock(g, mem, bn)
    {
      data := if bn in mem then mem[bn] else seq(g.bsize, _ => 0);
    }

    /** Block `b` of set `i` becomes `line`. */
    method Replace(i: nat, b: nat, line: M.Line)
      requires SetsValid() && i < |shown| && M.Shaped(g, shown[i]) && b < g.assoc && M.DataFits(g, line)
      requires forall a :: 0 <= a < g.assoc && shown[i].lines[a].valid ==> shown[i].lines[a].tag != line.tag
      modifies `shown, sets[i].Repr()
      ensures SetsValid() && shown == old(shown)[i := SetReplaced(g, old(shown[i]), b, line)]
    {
      hide M.Shaped, M.DataFits, SetReplaced, CacheSet.Valid, CacheSet.View;
      sets[i].Replace(b, line);
      shown := shown[i := sets[i].View()];
    }

    /** The block to replace in set `i` and what it holds. */
    method Choose(i: nat, random: nat) returns (b: nat, victim: M.Line)
      requires SetsValid() && i < |shown| && M.Shaped(g, shown[i]) && g.Valid()
      ensures b == M.Victim(g, shown[i], random) && b < g.assoc && victim == shown[i].lines[b]
    {
      hide M.Victim, CacheSet.Valid;
      b := sets[i].Victim(random);
      victim := sets[i].lines[b];
    }

    /** A miss in set `i`. */
    method Miss(i: nat, bn: nat, cmd: M.Cmd, ofs: nat, random: nat) returns (out: seq<int>, replaced: Option<nat>)
      requires Valid() && i < g.nsets && i == M.SetOf(g, bn) && ofs + M.Bytes(cmd) <= g.bsize
      requires M.Find(shown[i].lines, shown[i].ways, M.TagOf(g, bn)).None?
      modifies this, sets[i].Repr()
      ensures SetsValid()
      ensures var r := M.Miss(g, old(View()), i, bn, ofs, cmd, random);
        View() == r.c && out == r.out && replaced == r.replaced
    {
      ghost var c0 := View();
      hide P.CacheOk, CacheSet.Valid, CacheSet.View, M.Sized, M.Shaped, M.Touch, M.Fetched, M.ToFront, M.Find,
           M.WriteBack, M.MemBlock, M.Victim;
      MissFits(g, c0, bn, cmd, ofs, random);
      var b, victim := Choose(i, random);
      WriteBack(victim, i);
      lastBase, lastBlk := 0, None;
      var data := ReadBlock(bn);
      var line := M.Touch(M.Line(M.TagOf(g, bn), true, false, data), cmd, ofs);
      Replace(i, b, line);
      stats := stats.(misses := stats.misses + 1);
      out := M.Fetched(data, cmd, ofs);
      replaced := if victim.valid then Some(M.BlockOf(g, victim.tag, i) * g.bsize) else None;
    }

    /** The object has become what the model says, with the same answer; a failure changes nothing. */
    ghost predicate Agrees(r: M.Result, before: M.Cache, reply: Reply)
      reads this
    {
      match r
      case Fatal(e) => reply == Failed(e) && View() == before
      case Done(c, out, hit, replaced) => reply == Served(out, hit, replaced) && View() == c
    }

    /** The block of set `i` that holds `tag`, or -1. */
    method Search(i: nat, tag: nat) returns (b: int)
      requires SetsValid() && i < |shown| && M.Shaped(g, shown[i])
      ensures b == (match M.Find(shown[i].lines, shown[i].ways, tag) case Some(x) => x case None => -1)
    {
      hide CacheSet.Valid, CacheSet.View, M.Find, M.Shaped;
      b := sets[i].Search(tag);
    }

    /** The slow path of cache_access. */
    method Lookup(addr: nat, cmd: M.Cmd, random: nat) returns (reply: Reply)
      requires Valid() && M.Misuse(g, addr, M.Bytes(cmd)).None?
      modifies this, Repr()
      ensures SetsValid() && Agrees(M.Lookup(g, old(View()), addr, cmd, random), old(View()), reply)
    {
      hide P.CacheOk, CacheSet.Valid, CacheSet.View, M.Find, M.Sized, M.Shaped, M.Misuse, M.Hit, M.Miss, M.SetOf,
           M.TagOf, M.BlockNo, M.Offset;
      R.OkSized(g, View());
      var bn, ofs := M.BlockNo(g, addr), M.Offset(g, addr);
      var i := M.SetOf(g, bn);
      SetInRange(g, bn);
      ShapedAt(g, View(), i);
      var b := Search(i, M.TagOf(g, bn));
      if b >= 0 {
        HitReports(g, View(), i, b, bn, ofs, cmd);
        var out := Hit(i, b, bn, cmd, ofs, true);
        reply := Served(out, true, None);
      } else {
        MissReports(g, View(), i, bn, ofs, cmd, random);
        var out, replaced := Miss(i, bn, cmd, ofs, random);
        reply := Served(out, false, replaced);
      }
    }

    /** cache_access */
    method Access(addr: nat, cmd: M.Cmd, random: nat) returns (reply: Reply)
      requires Valid()
      modifies this, Repr()
      ensures Valid() && Agrees(M.Access(g, old(View()), addr, cmd, random), old(View()), reply)
    {
      hide P.CacheOk, CacheSet.Valid, CacheSet.View, M.Sized, M.Misuse, M.Hit, M.Lookup;
      ghost var c0 := View();
      R.OkSized(g, c0);
      var misuse := M.Misuse(g, addr, M.Bytes(cmd));
      if misuse.Some? {
        return Failed(misuse.value);
      }
      StaysOk(g, c0, addr, cmd, random);
      var bn := M.BlockNo(g, addr);
      if bn * g.bsize == lastBase {
        if lastBlk.None? {
          return Failed(M.NullBlock);
        }
        SetInRange(g, bn);
        LastInRange(g, c0);
        HitReports(g, c0, M.SetOf(g, bn), lastBlk.value, bn, M.Offset(g, addr), cmd);
        var out := Hit(M.SetOf(g, bn), lastBlk.value, bn, cmd, M.Offset(g, addr), false);
        reply := Served(out, true, None);
      } else {
        reply := Lookup(addr, cmd, random);
      }
    }

    /** cache_probe */
    method Probe(addr: nat) returns (hit: bool)
      requires Valid()
      ensures M.Sized(g, View()) && hit == M.Probe(g, View(), addr)
    {
      hide P.CacheOk, CacheSet.Valid, CacheSet.View, M.Find, M.Sized, M.Shaped;
      R.OkSized(g, View());
      var bn := M.BlockNo(g, addr);
      SetInRange(g, bn);
      ShapedAt(g, View(), M.SetOf(g, bn));
      var b := Search(M.SetOf(g, bn), M.TagOf(g, bn));
      hit := b >= 0;
    }

    method Invalidate(i: nat, b: nat)
      requires SetsValid() && i < |shown| && b < g.assoc && M.Shaped(g, shown[i])
      modifies `shown, sets[i].Repr()
      ensures SetsValid()
      ensures var s := old(shown[i]); shown == old(shown)[i := s.(lines := s.lines[b := s.lines[b].(valid := false)])]
    {
      hide CacheSet.Valid, CacheSet.View, M.Shaped;
      sets[i].Invalidate(b);
      shown := shown[i := sets[i].View()];
    }

    /** Invalidate block `b` of set `i`, writing it back if it is dirty. */
    method Drop(i: nat, b: nat)
      requires SetsValid() && i < |shown| && b < g.assoc && M.Shaped(g, shown[i])
      modifies `shown, `mem, `stats, sets[i].Repr()
      ensures SetsValid() && View() == M.Drop(g, old(View()), i, b)
    {
      hide CacheSet.Valid, CacheSet.View, M.BlockOf;
      ReadLine(i, b);
      var line := sets[i].lines[b];
      Invalidate(i, b);
      stats := stats.(invalidations := stats.invalidations + 1);
      if line.dirty {
        mem := mem[M.BlockOf(g, line.tag, i) := line.data];
      }
    }

    /** The body of the inner loop of cache_flush. */
    method FlushBlock(i: nat, b: nat)
      requires SetsValid() && i < |shown| && b < g.assoc && M.Shaped(g, shown[i])
      modifies `shown, `mem, `stats, sets[i].Repr()
      ensures SetsValid() && |shown| == old(|shown|) && M.Shaped(g, shown[i]) && shown[i].ways == old(shown[i].ways)
      ensures View() == if old(shown[i].lines[b].valid) then M.Drop(g, old(View()), i, b) else old(View())
    {
      hide CacheSet.Valid, CacheSet.View;
      ReadLine(i, b);
      if sets[i].lines[b].valid {
        DropShaped(g, View(), i, b);
        hide M.Drop, M.Shaped;
        Drop(i, b);
      }
    }

    lemma ReadLine(i: nat, b: nat)
      requires SetsValid() && i < |shown| && b < g.assoc && M.Shaped(g, shown[i])
      ensures b < sets[i].lines.Length && sets[i].lines[b] == shown[i].lines[b]
    {
      assert sets[i].View() == shown[i];
    }

    /** cache_flush_addr */
    method FlushAddr(addr: nat)
      requires Valid()
      modifies this, Repr()
      ensures Valid() && View() == M.FlushAddr(g, old(View()), addr)
    {
      hide P.CacheOk, CacheSet.Valid, CacheSet.View, M.Find, M.Sized, M.Shaped, M.Drop, M.ToBack;
      ghost var c0 := View();
      R.OkSized(g, c0);
      FlushAddrStays(g, c0, addr);
      var bn := M.BlockNo(g, addr);
      var i := M.SetOf(g, bn);
      SetInRange(g, bn);
      ShapedAt(g, View(), i);
      var b := Search(i, M.TagOf(g, bn));
      if b >= 0 {
        DropLeaves(g, c0, i, b);
        Drop(i, b);
        Retire(i, b);
        lastBase, lastBlk := 0, None;
      }
    }

    method Retire(i: nat, b: nat)
      requires SetsValid() && i < |shown| && b < g.assoc
      modifies `shown, sets[i].Repr()
      ensures SetsValid() &&
        View() == old(View()).(sets := old(shown)[i := old(shown[i]).(ways := M.ToBack(old(shown[i]).ways, b))])
    {
      hide CacheSet.Valid, CacheSet.View, M.ToBack;
      sets[i].Retire(b);
      shown := shown[i := sets[i].View()];
    }

    /** The inner loop of cache_flush: along the way list of set `i`. */
    method FlushSet(i: nat)
      requires SetsValid() && i < |shown| && M.Shaped(g, shown[i])
      modifies `shown, `mem, `stats, sets[i].Repr()
      ensures SetsValid() && View() == M.FlushWays(g, old(View()), i, old(shown[i].ways))
    {
      ghost var ways, c0 := shown[i].ways, View();
      hide SetsValid, Walking, M.FlushWays;
      var b: int := First(i);
      WalkBegins(g, c0, i);
      ghost var k := 0;
      while b >= 0
        invariant SetsValid() && 0 <= k <= |ways| && Walking(g, c0, View(), i, ways, k, b)
        decreases |ways| - k
      {
        b := FlushNext(i, b, c0, ways, k);
        k := k + 1;
      }
      WalkEnds(g, c0, View(), i, ways, k, b);
    }

    /** cache_flush */
    method Flush()
      requires Valid()
      modifies this, Repr()
      ensures Valid() && View() == M.Flush(g, old(View()))
    {
      ghost var start := View();
      hide P.CacheOk, CacheSet.Valid, CacheSet.View, SetsLeft, M.FlushSets;
      FlushStays(g, start);
      lastBase, lastBlk := 0, None;
      ghost var c0 := View();
      SetsBegin(g, start);
      var i := 0;
      while i < g.nsets
        invariant 0 <= i <= g.nsets && SetsValid() && SetsLeft(g, c0, View(), i)
      {
        SetsMove(g, c0, View(), i);
        FlushSet(i);
        i := i + 1;
      }
      SetsEnd(g, c0, View());
    }

    method FlushNext(i: nat, b: nat, ghost c0: M.Cache, ghost ways: seq<nat>, ghost k: nat) returns (n: int)
      requires SetsValid() && Walking(g, c0, View(), i, ways, k, b) && i < |sets|
      modifies `shown, `mem, `stats, sets[i].Repr()
      ensures SetsValid() && Walking(g, c0, View(), i, ways, k + 1, n) && k < |ways|
    {
      hide FlushLeft, CacheSet.Valid, CacheSet.View, M.Drop, M.FlushWays;
      FlushMoves(g, c0, View(), i, ways, k);
      FlushBlock(i, b);
      n := Following(i, b, k);
    }

    method First(i: nat) returns (b: nat)
      requires SetsValid() && i < |shown|
      ensures |shown[i].ways| == g.assoc && g.assoc > 0 && b == shown[i].ways[0]
    {
      hide CacheSet.View;
      b := sets[i].First();
    }

    method Following(i: nat, b: nat, ghost k: nat) returns (n: int)
      requires SetsValid() && i < |shown| && k < |shown[i].ways| && shown[i].ways[k] == b
      ensures n == if k + 1 < |shown[i].ways| then shown[i].ways[k + 1] else -1
    {
      hide CacheSet.Valid, CacheSet.View;
      n := sets[i].Following(b, k);
    }

    /** One operation. */
    method Do(op: R.Op) returns (reply: Reply)
      requires Valid()
      modifies this, Repr()
      ensures Valid() && M.Sized(g, old(View())) && Agrees(R.Step(g, old(View()), op), old(View()), reply)
    {
      hide P.CacheOk, CacheSet.Valid, CacheSet.View, SetsValid, M.Sized, M.Access, M.FlushAddr, M.Flush;
      R.OkSized(g, View());
      match op
      case Use(addr, cmd, random) => reply := Access(addr, cmd, random);
      case FlushOne(addr) =>
        FlushAddr(addr);
        reply := Served([], false, None);
      case FlushAll =>
        Flush();
        reply := Served([], false, None);
    }

    /** Operations one after the other until one fails: what they read, and the failure. */
    method Perform(ops: seq<R.Op>) returns (outs: seq<seq<int>>, error: Option<M.Error>)
      requires Valid()
      modifies this, Repr()
      ensures Valid() && Performed(R.Run(g, old(View()), ops), outs, error)
    {
      hide P.CacheOk, CacheSet.Valid, CacheSet.View, SetsValid, M.Sized, R.Step;
      outs, error := [], None;
      var i := 0;
      while i < |ops|
        invariant i <= |ops| && Valid()
        invariant R.Run(g, old(View()), ops) == R.After(outs, R.Run(g, View(), ops[i..]))
      {
        R.StepOk(g, View(), ops[i]);
        assert ops[i..][0] == ops[i] && ops[i..][1..] == ops[i + 1..];
        var reply := Do(ops[i]);
        if reply.Failed? {
          error := Some(reply.error);
          return;
        }
        outs := outs + [reply.out];
        i := i + 1;
      }
    }

    /** The object and the answers are the outcome `r` of a run. */
    ghost predicate Performed(r: R.Outcome, outs: seq<seq<int>>, error: Option<M.Error>)
      reads this
    {
      match r
      case Ran(c, read) => View() == c && outs == read && error == None
      case Stopped(e) => error == Some(e)
    }
  }

  /** What is left of flushing set `i` from `c0` when the walk has reached position `k` and cache `c`. */
  ghost predicate FlushLeft(g: M.Geometry, c0: M.Cache, c: M.Cache, i: nat, ways: seq<nat>, k: nat) {
    && i < |c0.sets| && i < |c.sets| && k <= |ways|
    && (forall j :: 0 <= j < |ways| ==> ways[j] < |c0.sets[i].lines| && ways[j] < |c.sets[i].lines|)
    && M.FlushWays(g, c0, i, ways) == M.FlushWays(g, c, i, ways[k..])
  }

  /** The walk along the way list of set `i` has reached position `k`, block `b`. */
  ghost predicate Walking(g: M.Geometry, c0: M.Cache, c: M.Cache, i: nat, ways: seq<nat>, k: int, b: int) {
    && i < |c.sets| && c.sets[i].ways == ways && M.Shaped(g, c.sets[i])
    && 0 <= k <= |ways| && b == (if k < |ways| then ways[k] else -1)
    && FlushLeft(g, c0, c, i, ways, k)
  }

  lemma WalkBegins(g: M.Geometry, c: M.Cache, i: nat)
    requires i < |c.sets| && M.Shaped(g, c.sets[i]) && g.assoc > 0
    ensures Walking(g, c, c, i, c.sets[i].ways, 0, c.sets[i].ways[0])
  {
    FlushBegins(g, c, i);
  }

  lemma WalkEnds(g: M.Geometry, c0: M.Cache, c: M.Cache, i: nat, ways: seq<nat>, k: int, b: int)
    requires Walking(g, c0, c, i, ways, k, b) && b < 0
    ensures i < |c0.sets| && (forall j :: 0 <= j < |ways| ==> ways[j] < |c0.sets[i].lines|) &&
      M.FlushWays(g, c0, i, ways) == c
  {
    FlushEnds(g, c0, c, i, ways);
  }

  lemma FlushBegins(g: M.Geometry, c: M.Cache, i: nat)
    requires i < |c.sets| && M.Shaped(g, c.sets[i])
    ensures FlushLeft(g, c, c, i, c.sets[i].ways, 0)
  {
    assert c.sets[i].ways[0..] == c.sets[i].ways;
  }

  lemma FlushMoves(g: M.Geometry, c0: M.Cache, c: M.Cache, i: nat, ways: seq<nat>, k: nat)
    requires FlushLeft(g, c0, c, i, ways, k) && k < |ways|
    ensures i < |c.sets| && ways[k] < |c.sets[i].lines|
    ensures FlushLeft(g, c0, if c.sets[i].lines[ways[k]].valid then M.Drop(g, c, i, ways[k]) else c, i, ways, k + 1)
  {
    FlushUnfold(g, c, i, ways, k);
    hide M.FlushWays;
  }

  lemma FlushEnds(g: M.Geometry, c0: M.Cache, c: M.Cache, i: nat, ways: seq<nat>)
    requires FlushLeft(g, c0, c, i, ways, |ways|)
    ensures i < |c0.sets| && (forall j :: 0 <= j < |ways| ==> ways[j] < |c0.sets[i].lines|) &&
      M.FlushWays(g, c0, i, ways) == c
  {
    assert ways[|ways|..] == [];
  }

  /** What is left of flushing `c0` when sets below `i` are done and the cache is `c`. */
  ghost predicate SetsLeft(g: M.Geometry, c0: M.Cache, c: M.Cache, i: nat) {
    && i <= g.nsets && |c0.sets| == |c.sets| == g.nsets
    && (forall j :: 0 <= j < g.nsets ==> M.Shaped(g, c0.sets[j]) && M.Shaped(g, c.sets[j]))
    && M.FlushSets(g, c0, 0) == M.FlushSets(g, c, i)
  }

  lemma FlushStays(g: M.Geometry, c: M.Cache)
    requires P.CacheOk(g, c)
    ensures M.Sized(g, c) && P.CacheOk(g, M.Flush(g, c))
  {
    P.FlushOk(g, c);
    hide P.CacheOk, M.Flush, P.Content;
    R.OkSized(g, c);
  }

  lemma SetsBegin(g: M.Geometry, c: M.Cache)
    requires M.Sized(g, c)
    ensures var c0 := c.(lastBase := 0, lastBlk := None); SetsLeft(g, c0, c0, 0)
  {
  }

  lemma {:induction false} FlushShaped(g: M.Geometry, c: M.Cache, i: nat, ways: seq<nat>)
    requires i < |c.sets| && M.Shaped(g, c.sets[i]) && forall k :: 0 <= k < |ways| ==> ways[k] < g.assoc
    ensures M.Shaped(g, M.FlushWays(g, c, i, ways).sets[i])
    decreases |ways|
  {
    if ways == [] {
    } else {
      if c.sets[i].lines[ways[0]].valid {
        DropShaped(g, c, i, ways[0]);
        FlushShaped(g, M.Drop(g, c, i, ways[0]), i, ways[1..]);
      } else {
        FlushShaped(g, c, i, ways[1..]);
      }
    }
  }

  lemma SetsMove(g: M.Geometry, c0: M.Cache, c: M.Cache, i: nat)
    requires SetsLeft(g, c0, c, i) && i < g.nsets
    ensures |c.sets| == g.nsets && M.Shaped(g, c.sets[i]) &&
      SetsLeft(g, c0, M.FlushWays(g, c, i, c.sets[i].ways), i + 1)
  {
    FlushShaped(g, c, i, c.sets[i].ways);
    hide M.FlushWays, M.Shaped;
  }

  lemma SetsEnd(g: M.Geometry, c0: M.Cache, c: M.Cache)
    requires SetsLeft(g, c0, c, g.nsets)
    ensures |c0.sets| == g.nsets && (forall j :: 0 <= j < g.nsets ==> M.Shaped(g, c0.sets[j])) &&
      M.FlushSets(g, c0, 0) == c
  {
  }

  lemma FlushAddrStays(g: M.Geometry, c: M.Cache, addr: nat)
    requires P.CacheOk(g, c)
    ensures P.CacheOk(g, M.FlushAddr(g, c, addr))
  {
    P.FlushAddrOk(g, c, addr);
    hide P.CacheOk, M.FlushAddr, P.Content;
  }

  /** Dropping a block changes one set, and not its way list. */
  lemma DropLeaves(g: M.Geometry, c: M.Cache, i: nat, b: nat)
    requires i < |c.sets| && b < |c.sets[i].lines|
    ensures var r := M.Drop(g, c, i, b);
      && |r.sets| == |c.sets| && r.sets[i].ways == c.sets[i].ways && r.lastBase == c.lastBase && r.lastBlk == c.lastBlk
  {
  }

  lemma DropShaped(g: M.Geometry, c: M.Cache, i: nat, b: nat)
    requires i < |c.sets| && M.Shaped(g, c.sets[i]) && b < g.assoc
    ensures var r := M.Drop(g, c, i, b);
      |r.sets| == |c.sets| && M.Shaped(g, r.sets[i]) && r.sets[i].ways == c.sets[i].ways
  {
    assert M.DataFits(g, c.sets[i].lines[b]);
  }

  lemma FlushUnfold(g: M.Geometry, c: M.Cache, i: nat, ways: seq<nat>, k: nat)
    requires i < |c.sets| && k < |ways| && forall j :: 0 <= j < |ways| ==> ways[j] < |c.sets[i].lines|
    ensures M.FlushWays(g, c, i, ways[k..]) ==
      M.FlushWays(g, if c.sets[i].lines[ways[k]].valid then M.Drop(g, c, i, ways[k]) else c, i, ways[k + 1..])
  {
    assert ways[k..][1..] == ways[k + 1..];
  }

  lemma SetInRange(g: M.Geometry, bn: nat)
    requires g.Valid()
    ensures M.SetOf(g, bn) < g.nsets
  {
  }

  lemma LastInRange(g: M.Geometry, c: M.Cache)
    requires M.Sized(g, c)
    ensures c.lastBlk.Some? ==> c.lastBlk.value < g.assoc
  {
  }

  lemma HitReports(g: M.Geometry, c: M.Cache, i: nat, b: nat, bn: nat, ofs: nat, cmd: M.Cmd)
    requires M.Sized(g, c) && i < g.nsets && b < g.assoc && ofs + M.Bytes(cmd) <= g.bsize
    ensures forall slow :: var r := M.Hit(g, c, i, b, bn, ofs, cmd, slow); r.Done? && r.hit && r.replaced == None
  {
  }

  lemma MissReports(g: M.Geometry, c: M.Cache, i: nat, bn: nat, ofs: nat, cmd: M.Cmd, random: nat)
    requires M.Sized(g, c) && i < g.nsets && ofs + M.Bytes(cmd) <= g.bsize
    ensures var r := M.Miss(g, c, i, bn, ofs, cmd, random); r.Done? && !r.hit
  {
  }

  lemma StaysOk(g: M.Geometry, c: M.Cache, addr: nat, cmd: M.Cmd, random: nat)
    requires P.CacheOk(g, c) && M.Misuse(g, addr, M.Bytes(cmd)).None?
    ensures M.Access(g, c, addr, cmd, random).Done? ==> P.CacheOk(g, M.Access(g, c, addr, cmd, random).c)
  {
    P.AccessOk(g, c, addr, cmd, random);
    hide P.CacheOk, M.Access, P.Serves;
  }

  /** What a miss may rely on. */
  lemma MissFits(g: M.Geometry, c: M.Cache, bn: nat, cmd: M.Cmd, ofs: nat, random: nat)
    requires P.CacheOk(g, c) && ofs + M.Bytes(cmd) <= g.bsize
    requires var s := c.sets[M.SetOf(g, bn)]; M.Find(s.lines, s.ways, M.TagOf(g, bn)).None?
    ensures var i := M.SetOf(g, bn); var s := c.sets[i];
      && |c.sets| == g.nsets && g.Valid() && M.Sized(g, c) && M.Shaped(g, s)
      && forall a :: 0 <= a < g.assoc && s.lines[a].valid ==> s.lines[a].tag != M.TagOf(g, bn)
    ensures var i := M.SetOf(g, bn); var victim := c.sets[i].lines[M.Victim(g, c.sets[i], random)];
      var data := M.MemBlock(g, M.WriteBack(g, c, victim, i).mem, bn);
      var line := M.Touch(M.Line(M.TagOf(g, bn), true, false, data), cmd, ofs);
      |data| == g.bsize && M.DataFits(g, line) && line.tag == M.TagOf(g, bn)
  {
    var i := M.SetOf(g, bn);
    assert P.GoodSet(g, c.sets[i], i, c.mem);
    P.FindIs(g, c.sets[i], M.TagOf(g, bn));
    P.MissIs(g, c, bn, ofs, cmd, random);
    var victim := c.sets[i].lines[M.Victim(g, c.sets[i], random)];
    var data := M.MemBlock(g, M.WriteBack(g, c, victim, i).mem, bn);
    P.TouchKeeps(M.Line(M.TagOf(g, bn), true, false, data), cmd, ofs);
    hide M.Victim, M.WriteBack, M.MemBlock, M.Touch, M.Find, M.Miss;
  }

  lemma ShapedAt(g: M.Geometry, c: M.Cache, i: nat)
    requires M.Sized(g, c) && i < g.nsets
    ensures |c.sets| == g.nsets && M.Shaped(g, c.sets[i])
  {
  }

  /** A new cache and a sequence of operations on it: it reads what plain memory would. */
  method Replay(g: M.Geometry, mem: map<nat, seq<int>>, ops: seq<R.Op>)
    returns (outs: seq<seq<int>>, error: Option<M.Error>)
    requires g.Valid() && R.MemFits(g, mem)
    ensures error.None? ==> outs == R.FlatOuts(R.Backing(g, mem), ops)
    ensures error.None? <==> R.FromStart(g, mem, ops).Ran?
  {
    hide P.CacheOk, R.Run, R.FlatOuts, R.Fits, R.Shows;
    var cache := new Cache(g, mem);
    outs, error := cache.Perform(ops);
    R.InitialOk(g, mem);
    if error.None? {
      R.CacheIsTransparent(g, mem, ops);
    }
  }
}
