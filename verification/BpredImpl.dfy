/**
 * The branch predictor as an object: BTB sets whose LRU lists have no end pointers, and the
 * circular return stack, updated in place.
 */
module BpredImpl {
  import opened Common
  import M = CacheModel
  import P = CacheProofs
  import opened CacheLinks
  import opened BpredModel
  import B = BpredProofs

  /** The ends of a list are found by their missing links. */
  lemma EndsAt(l: Links, ways: seq<nat>, n: nat, i: nat)
    requires Spells(l, ways) && P.Permutes(ways, n) && i < n == |l.next|
    ensures |l.prev| == n && (l.prev[i] < 0 <==> i == ways[0]) && (l.next[i] < 0 <==> i == ways[n - 1])
  {
    assert i in ways;
    var k :| 0 <= k < |ways| && ways[k] == i;
    LinksAt(l, ways, k);
  }

  function PrevOf(i: nat): int { i - 1 }

  class BtbSet {
    const ents: array<Ent>
    const next: array<int>
    const prev: array<int>

    /** The LRU list, most recently used first. */
    ghost var ways: seq<nat>

    ghost function Repr(): set<object> { {this, ents, next, prev} }

    ghost function View(): Btb
      reads this, ents
    {
      Btb(ents[..], ways)
    }

    ghost function ListLinks(): Links
      requires ways != []
      reads this, next, prev
    {
      Links(next[..], prev[..], ways[0], ways[|ways| - 1])
    }

    ghost predicate Valid(c: Config)
      reads this, ents, next, prev
    {
      && c.assoc > 0 && ents.Length == next.Length == prev.Length == c.assoc && next != prev
      && BtbOk(c, View()) && |ways| == c.assoc && Spells(ListLinks(), ways)
    }

    lemma InOrder(c: Config)
      requires Valid(c)
      ensures P.Permutes(View().ways, c.assoc)
    {
    }

    /** The BTB chaining of bpred_create, for one set. */
    constructor (c: Config)
      requires c.assoc > 0
      ensures Valid(c) && View() == Blank(c) && fresh(Repr())
    {
      hide BtbOk, Spells;
      ents := new Ent[c.assoc](_ => Ent(0, 0));
      next := new int[c.assoc](i => if i + 1 < c.assoc then i + 1 else -1);
      prev := new int[c.assoc](PrevOf);
      ways := Blank(c).ways;
      new;
      assert ents[..] == Blank(c).ents;
      hide Blank;
      BlankOk(c);
      BlankSizes(c);
      BlankSpells(c, ListLinks());
    }

    /** The BTB search of bpred_lookup: the entry that tracks `addr`, or -1. */
    method Search(c: Config, addr: nat) returns (b: int)
      requires Valid(c)
      ensures b == (match Find(View().ents, addr, 0) case Some(x) => x case None => -1)
    {
      hide BtbOk, Spells;
      b := 0;
      while b < ents.Length && ents[b].addr != addr
        invariant 0 <= b <= ents.Length
        invariant Find(ents[..], addr, 0) == Find(ents[..], addr, b)
      {
        b := b + 1;
      }
      if b == ents.Length {
        b := -1;
      }
    }

    /** The scan of bpred_update: the entry that tracks `addr` or -1, and the ends of the LRU list. */
    method Scan(c: Config, addr: nat) returns (b: int, head: int, tail: int)
      requires Valid(c) && addr != 0
      ensures b == (match Find(View().ents, addr, 0) case Some(x) => x case None => -1)
      ensures head == ways[0] && tail == ways[|ways| - 1]
    {
      hide Spells, BtbOk, Find, P.Permutes;
      b, head, tail := -1, -1, -1;
      ghost var found := Find(ents[..], addr, 0);
      UniqueIs(c, View(), addr);
      OkPermutes(c, View());
      var i := 0;
      while i < ents.Length
        invariant 0 <= i <= ents.Length
        invariant b == (if found.Some? && found.value < i then found.value else -1)
        invariant head == (if ways[0] < i then ways[0] else -1) &&
          tail == (if ways[|ways| - 1] < i then ways[|ways| - 1] else -1)
      {
        EndsAt(ListLinks(), ways, c.assoc, i);
        if ents[i].addr == addr {
          assert b < 0;
          b := i;
        }
        if prev[i] < 0 {
          head := i;
        }
        if next[i] < 0 {
          tail := i;
        }
        i := i + 1;
      }
    }

    /** The neighbours of `b` are linked to each other. */
    method SpliceOut(b: nat, ghost head: int, ghost tail: int)
      requires b < next.Length == prev.Length && next != prev && -1 <= next[b] < next.Length &&
        -1 <= prev[b] < next.Length
      modifies next, prev
      ensures var u := Unlinked(Links(old(next[..]), old(prev[..]), head, tail), b);
        next[..] == u.next && prev[..] == u.prev
    {
      var p, n := prev[b], next[b];
      if p >= 0 {
        next[p] := n;
      }
      if n >= 0 {
        prev[n] := p;
      }
    }

    method PutFirst(b: nat, head: nat, ghost u: Links)
      requires b < next.Length == prev.Length && next != prev && next[..] == u.next && prev[..] == u.prev &&
        u.head == head < next.Length
      modifies next, prev
      ensures next[..] == PushFront(u, b).next && prev[..] == PushFront(u, b).prev
    {
      next[b], prev[b] := head, -1;
      prev[head] := b;
    }

    /** Splice `b`, which is not at the head, out of the LRU list and put it at the head. */
    method MakeRecent(c: Config, b: nat, head: nat)
      requires Valid(c) && b < c.assoc && head == ways[0] && b != head
      modifies `ways, next, prev
      ensures |ways| == c.assoc && Spells(ListLinks(), ways) && ways == M.ToFront(old(ways), b)
    {
      hide BtbOk, M.Without, M.ToFront, Spells, Unlinked, PushFront;
      Relinked(c, View(), ListLinks(), b);
      ghost var u, w := Unlinked(ListLinks(), b), M.ToFront(ways, b);
      SpliceOut(b, ways[0], ways[|ways| - 1]);
      PutFirst(b, head, u);
      ways := w;
      assert ListLinks() == PushFront(u, b);
    }

    /** The BTB part of bpred_update for a taken branch. */
    method Enter(c: Config, addr: nat, target: nat, correct: bool)
      requires Valid(c) && addr != 0
      modifies Repr()
      ensures Valid(c) && View() == Entered(old(View()), addr, target, correct)
    {
      hide BtbOk, Spells, Find, M.Without, P.Permutes;
      var b, head, tail := Scan(c, addr);
      EnterKeeps(c, View(), addr, target, correct);
      if b < 0 {
        b := tail;
      }
      if b != head {
        MakeRecent(c, b, head);
      }
      if ents[b].addr == addr {
        if !correct {
          ents[b] := ents[b].(target := target);
        }
      } else {
        ents[b] := Ent(addr, target);
      }
      assert ents[..] == Entered(old(View()), addr, target, correct).ents;
    }
  }

  class Bpred {
    const c: Config
    const sets: seq<BtbSet>
    const stack: array<nat>
    var tos: nat

    /** The BTB sets as values. */
    ghost var shown: seq<Btb>

    ghost function Repr(): set<object> {
      set i, o | 0 <= i < |sets| && o in sets[i].Repr() :: o
    }

    ghost function View(): Predictor
      reads this, stack
    {
      Predictor(shown, stack[..], tos)
    }

    ghost predicate Apart() {
      && (forall i :: 0 <= i < |sets| ==> this !in sets[i].Repr() && stack !in sets[i].Repr())
      && forall i, j :: 0 <= i < j < |sets| ==> sets[i].Repr() !! sets[j].Repr()
    }

    ghost predicate Valid()
      reads this, stack, Repr()
    {
      && Apart() && |sets| == |shown| && Sized(c, View())
      && forall i :: 0 <= i < |sets| ==> sets[i].Valid(c) && sets[i].View() == shown[i]
    }

    /** bpred_create */
    constructor (c: Config)
      requires c.Valid()
      ensures Valid() && this.c == c && View() == Initial(c) && fresh(Repr()) && fresh(stack)
    {
      hide BtbSet.Valid, BtbSet.View, BtbOk;
      var ss := Sets(c);
      this.c := c;
      sets := ss;
      stack := new nat[c.depth](_ => 0);
      tos := if c.depth > 0 then c.depth - 1 else 0;
      shown := seq(c.nsets, _ => Blank(c));
      new;
      assert View() == Initial(c);
      InitialSized(c);
    }

    static method Sets(c: Config) returns (ss: seq<BtbSet>)
      requires c.Valid()
      ensures |ss| == c.nsets && forall i :: 0 <= i < |ss| ==> fresh(ss[i].Repr())
      ensures forall i :: 0 <= i < |ss| ==> ss[i].Valid(c) && ss[i].View() == Blank(c)
      ensures forall i, j :: 0 <= i < j < |ss| ==> ss[i].Repr() !! ss[j].Repr()
    {
      hide BtbSet.Valid, BtbSet.View, Blank;
      ss := [];
      while |ss| < c.nsets
        invariant |ss| <= c.nsets && forall i :: 0 <= i < |ss| ==> fresh(ss[i].Repr())
        invariant forall i :: 0 <= i < |ss| ==> ss[i].Valid(c) && ss[i].View() == Blank(c)
        invariant forall i, j :: 0 <= i < j < |ss| ==> ss[i].Repr() !! ss[j].Repr()
      {
        var s := new BtbSet(c);
        ss := ss + [s];
      }
    }

    /** The target the BTB holds for `addr`, if it tracks it. */
    method Target(i: nat, addr: nat) returns (t: Option<nat>)
      requires Valid() && i < |shown|
      ensures t == (match Find(shown[i].ents, addr, 0) case Some(b) => Some(shown[i].ents[b].target) case None => None)
    {
      hide BtbSet.Valid, Find;
      var b := sets[i].Search(c, addr);
      t := None;
      if b >= 0 {
        t := Some(sets[i].ents[b].target);
      }
    }

    /** bpred_lookup, for the stateful predictors */
    method Lookup(br: Branch) returns (pc: nat)
      requires Valid()
      modifies `tos
      ensures Valid() && pc == Guess(c, old(View()), br) && View() == Popped(c, old(View()), br)
    {
      hide BtbSet.Valid, BtbSet.View, Find, SetOf;
      if br.ret && c.depth > 0 {
        pc := stack[tos];
        tos := (tos + c.depth - 1) % c.depth;
        return;
      }
      var t := Target(SetOf(c, br.addr), br.addr);
      if !(br.uncond || br.dir) {
        pc := 0;
      } else {
        pc := if t.Some? then t.value else 1;
      }
    }

    /** A call pushes its return address. */
    method Push(br: Branch)
      requires Valid()
      modifies `tos, stack
      ensures Valid() && View() == Pushed(c, old(View()), br)
    {
      hide BtbSet.Valid, BtbSet.View;
      if br.call && c.depth > 0 {
        tos := (tos + 1) % c.depth;
        stack[tos] := Fall(br);
      }
    }

    /** A taken branch enters its BTB set. */
    method Enter(br: Branch, correct: bool)
      requires Valid() && br.addr != 0
      modifies `shown, Repr()
      ensures Valid()
      ensures var i := SetOf(c, br.addr);
        View() == old(View()).(sets := old(shown)[i := Entered(old(shown[i]), br.addr, br.next, correct)])
    {
      hide BtbSet.Valid, BtbSet.View, SetOf, Entered;
      var i := SetOf(c, br.addr);
      sets[i].InOrder(c);
      EnteredSized(c, shown[i], br.addr, br.next, correct);
      sets[i].Enter(c, br.addr, br.next, correct);
      shown := shown[i := sets[i].View()];
    }

    /** bpred_update, for the stateful predictors */
    method Update(br: Branch, correct: bool)
      requires Valid() && br.addr != 0
      modifies this, stack, Repr()
      ensures Valid() && View() == BpredModel.Update(c, old(View()), br, correct)
    {
      hide BtbSet.Valid, BtbSet.View, SetOf, Entered, Pushed;
      if br.ret && c.depth > 0 {
        return;
      }
      PushedSets(c, View(), br);
      Push(br);
      if Taken(br) {
        Enter(br, correct);
      }
    }

    /** One branch as the driver handles it; the answer is whether it was predicted right. */
    method Predict(br: Branch) returns (correct: bool)
      requires Valid() && br.addr != 0
      modifies this, stack, Repr()
      ensures Valid() && View() == Step(c, old(View()), br) && correct == (PredPC(c, old(View()), br) == br.next)
    {
      hide BtbSet.Valid, BtbSet.View, Guess, Popped, BpredModel.Update;
      var pc := Lookup(br);
      if pc == 0 {
        pc := Fall(br);
      }
      correct := pc == br.next;
      Update(br, correct);
    }

    /** The driver's loop: which of the branches were predicted right. */
    method Drive(brs: seq<Branch>) returns (right: seq<bool>)
      requires Valid() && forall k :: 0 <= k < |brs| ==> brs[k].addr != 0
      modifies this, stack, Repr()
      ensures Valid() && View() == Run(c, old(View()), brs) && right == Rights(c, old(View()), brs)
    {
      hide BtbSet.Valid, BtbSet.View, Step, PredPC, P.Permutes;
      right := [];
      var i := 0;
      while i < |brs|
        invariant i <= |brs| && Valid()
        invariant Run(c, old(View()), brs) == Run(c, View(), brs[i..])
        invariant Rights(c, old(View()), brs) == right + Rights(c, View(), brs[i..])
      {
        var correct := Predict(brs[i]);
        right := right + [correct];
        assert brs[i..][1..] == brs[i + 1..];
        i := i + 1;
      }
    }
  }

  lemma PushedSets(c: Config, p: Predictor, br: Branch)
    requires Sized(c, p)
    ensures Pushed(c, p, br).sets == p.sets && Sized(c, Pushed(c, p, br))
  {
  }

  lemma BlankOk(c: Config)
    requires c.assoc > 0
    ensures BtbOk(c, Blank(c))
  {
    forall b | 0 <= b < c.assoc ensures b in Blank(c).ways {
      assert Blank(c).ways[b] == b;
    }
  }

  lemma OkPermutes(c: Config, s: Btb)
    requires BtbOk(c, s)
    ensures |s.ents| == |s.ways| == c.assoc && P.Permutes(s.ways, c.assoc) && forall k :: 0 <= k < |s.ways| ==>
      s.ways[k] < c.assoc
  {
  }

  lemma BlankSizes(c: Config)
    ensures var w := Blank(c).ways; |w| == c.assoc && (c.assoc > 0 ==> w[0] == 0 && w[c.assoc - 1] == c.assoc - 1)
  {
  }

  lemma BlankSpells(c: Config, l: Links)
    requires c.assoc > 0 && |l.next| == |l.prev| == c.assoc && l.head == 0 && l.tail == c.assoc - 1
    requires forall i :: 0 <= i < c.assoc ==> l.next[i] == (if i + 1 < c.assoc then i + 1 else -1) && l.prev[i] == i - 1
    ensures Spells(l, Blank(c).ways)
  {
  }

  /** At most one entry tracks an address. */
  lemma UniqueIs(c: Config, s: Btb, addr: nat)
    requires BtbOk(c, s) && addr != 0
    ensures forall i :: 0 <= i < |s.ents| && s.ents[i].addr == addr ==> Find(s.ents, addr, 0) == Some(i)
  {
  }

  /** The links after block `b`, not at the head, has been spliced out and put first. */
  lemma Relinked(c: Config, s: Btb, l: Links, b: nat)
    requires BtbOk(c, s) && Spells(l, s.ways) && |l.next| == c.assoc && b < c.assoc && l.head == s.ways[0] != b
    ensures |l.prev| == c.assoc && -1 <= l.next[b] < c.assoc && -1 <= l.prev[b] < c.assoc
    ensures var u := Unlinked(l, b); var w := M.ToFront(s.ways, b);
      && u.head == l.head && 0 <= u.head < |u.next| == |u.prev| == c.assoc && |w| == c.assoc
      && Spells(PushFront(u, b), w) && PushFront(u, b).head == w[0] && PushFront(u, b).tail == w[c.assoc - 1]
  {
    hide BtbOk, M.ToFront, Spells, Skip, P.Permutes, Unlinked, PushFront;
    OkPermutes(c, s);
    var k := P.WayOf(s.ways, b, c.assoc);
    assert k > 0;
    UnlinkSpells(l, s.ways, k);
    FrontIs(s.ways, k, c.assoc);
    SpliceSpells(l, s.ways, k);
  }

  lemma FrontIs(ways: seq<nat>, k: nat, n: nat)
    requires P.Permutes(ways, n) && k < |ways|
    ensures M.ToFront(ways, ways[k]) == [ways[k]] + Skip(ways, k) && |M.ToFront(ways, ways[k])| == n
  {
    P.WithoutAt(ways, k);
  }

  lemma SpliceSpells(l: Links, ways: seq<nat>, k: nat)
    requires Spells(l, ways) && 0 < k < |ways| && l.head == ways[0] && ways[k] < |l.next|
    requires Spells(Unlinked(l, ways[k]), Skip(ways, k)) && ways[k] !in Skip(ways, k)
    ensures var u := Unlinked(l, ways[k]); var w := [ways[k]] + Skip(ways, k);
      && u.head == ways[0] && 0 <= u.head < |u.next| == |u.prev| == |l.next|
      && Spells(PushFront(u, ways[k]), w) && PushFront(u, ways[k]).head == w[0] &&
        PushFront(u, ways[k]).tail == w[|w| - 1]
  {
    FrontSpells(Unlinked(l, ways[k]), Skip(ways, k), ways[k]);
    assert Skip(ways, k)[0] == ways[0];
    LinksAt(Unlinked(l, ways[k]), Skip(ways, k), 0);
  }

  lemma EnterKeeps(c: Config, s: Btb, addr: nat, target: nat, correct: bool)
    requires c.assoc > 0 && BtbOk(c, s) && addr != 0
    ensures |s.ways| == |s.ents| == c.assoc && (forall k :: 0 <= k < |s.ways| ==> s.ways[k] < |s.ents|)
    ensures BtbOk(c, Entered(s, addr, target, correct)) && M.ToFront(s.ways, s.ways[0]) == s.ways
  {
    B.EnteredIsLru(c.(nsets := 1), s, addr, target, correct);
    P.FrontAlready(s.ways);
  }
}
