/**
 * The order of the ready queue.  The policy stated for it, loads, stores, long operations and branches
 * first and then everything else oldest first, is not kept: the walk that looks for the place of an
 * operation by its age does not pass a younger operation that has priority.
 */
module OooPolicy {
  import opened OooTypes
  import opened OooStages

  /** The node is of an operation that goes first. */
  predicate Favoured(st: seq<Station>, l: Link) {
    l.slot < |st| && (InLsq(st[l.slot]) || st[l.slot].urgent)
  }

  /** Operations with priority first, and the others oldest first. */
  ghost predicate ByPolicy(st: seq<Station>, q: seq<Link>) {
    forall a, b :: 0 <= a < b < |q| ==>
      (Favoured(st, q[b]) ==> Favoured(st, q[a])) &&
      (!Favoured(st, q[a]) && !Favoured(st, q[b]) ==> q[a].x <= q[b].x)
  }

  /** All operations with priority in the queue are older than `seqno`. */
  ghost predicate FavouredAreOlder(st: seq<Station>, q: seq<Link>, seqno: nat) {
    forall a :: 0 <= a < |q| && Favoured(st, q[a]) ==> q[a].x < seqno
  }

  lemma {:induction false} InsertedFrom(q: seq<Link>, l: Link) returns (k: nat)
    ensures k <= |q| && InsertSorted(q, l) == q[..k] + [l] + q[k..]
    ensures (forall a :: 0 <= a < k ==> q[a].x < l.x) && (k < |q| ==> q[k].x >= l.x)
    decreases |q|
  {
    if q == [] || q[0].x >= l.x {
      k := 0;
    } else {
      k := InsertedFrom(q[1..], l);
      assert q[1..][..k] == q[1..k + 1] && q[1..][k..] == q[k + 1..];
      assert forall a :: 0 < a < |q| ==> q[a] == q[1..][a - 1];
      k := k + 1;
    }
  }

  /** Inserting by age keeps the policy exactly if everything with priority is older. */
  lemma InsertByAge(st: seq<Station>, q: seq<Link>, l: Link)
    requires ByPolicy(st, q) && !Favoured(st, l)
    ensures ByPolicy(st, InsertSorted(q, l)) <==> FavouredAreOlder(st, q, l.x)
  {
    var k := InsertedFrom(q, l);
    var r := InsertSorted(q, l);
    hide InsertSorted, Favoured;
    assert r[k] == l && (forall a :: 0 <= a < k ==> r[a] == q[a]) && forall a :: k <= a < |q| ==> r[a + 1] == q[a];
    if ByPolicy(st, r) {
      forall a | 0 <= a < |q| && Favoured(st, q[a]) ensures q[a].x < l.x {
        assert a < k;
      }
    }
    if FavouredAreOlder(st, q, l.x) {
      forall a, b | 0 <= a < b < |r|
        ensures (Favoured(st, r[b]) ==> Favoured(st, r[a])) &&
          (!Favoured(st, r[a]) && !Favoured(st, r[b]) ==> r[a].x <= r[b].x)
      {
        Placed(st, q, l, k, r, a, b);
      }
    }
  }

  lemma Placed(st: seq<Station>, q: seq<Link>, l: Link, k: nat, r: seq<Link>, a: nat, b: nat)
    requires ByPolicy(st, q) && !Favoured(st, l) && FavouredAreOlder(st, q, l.x) && k <= |q|
    requires r == q[..k] + [l] + q[k..] && a < b < |r|
    requires (forall a :: 0 <= a < k ==> q[a].x < l.x) && (k < |q| ==> q[k].x >= l.x)
    ensures (Favoured(st, r[b]) ==> Favoured(st, r[a])) &&
      (!Favoured(st, r[a]) && !Favoured(st, r[b]) ==> r[a].x <= r[b].x)
  {
    hide Favoured;
    var a' := if a < k then a else a - 1;
    var b' := if b < k then b else b - 1;
    assert a != k ==> r[a] == q[a'];
    assert b != k ==> r[b] == q[b'];
    if a == k {
      assert !Favoured(st, q[k]);
    }
  }

  /**
   * readyq_enqueue keeps to its policy exactly if the operation has priority itself or no younger
   * operation with priority is in the queue.
   */
  lemma PolicyIsKept(s: State, slot: nat)
    requires Ring(s.w) && slot < |s.w.st| && ReadyEnqueue(s, slot).Ok? && ByPolicy(s.w.st, s.q.readyq)
    ensures var r := ReadyEnqueue(s, slot).value; var rs := s.w.st[slot];
      ByPolicy(r.w.st, r.q.readyq) <==>
        InLsq(rs) || rs.urgent || FavouredAreOlder(s.w.st, s.q.readyq, rs.seqno)
  {
    var rs := s.w.st[slot];
    var r := ReadyEnqueue(s, slot).value;
    var l := Link(s.q.free[0], slot, rs.tag, rs.seqno);
    assert forall m :: Favoured(r.w.st, m) <==> Favoured(s.w.st, m);
    if InLsq(rs) || rs.urgent {
      assert Favoured(s.w.st, l);
      assert r.q.readyq == [l] + s.q.readyq;
      hide Favoured, InsertSorted;
      assert forall a :: 0 < a < |r.q.readyq| ==> r.q.readyq[a] == s.q.readyq[a - 1];
    } else {
      assert !Favoured(s.w.st, l) && r.q.readyq == InsertSorted(s.q.readyq, l);
      hide Favoured, InsertSorted;
      InsertByAge(s.w.st, s.q.readyq, l);
    }
  }

  /** Queueing the operation in `slot` breaks a policy that was kept so far. */
  ghost predicate BreaksPolicy(s: State, slot: nat) {
    && Ring(s.w) && slot < |s.w.st| && ByPolicy(s.w.st, s.q.readyq) && ReadyEnqueue(s, slot).Ok?
    && var r := ReadyEnqueue(s, slot).value;
    !ByPolicy(r.w.st, r.q.readyq)
  }

  /** A plain operation that becomes ready while a younger branch waits for a unit is put before it. */
  lemma PolicyFails()
    ensures exists s: State, slot: nat :: BreaksPolicy(s, slot)
  {
    var plain := Station(Alu, 0, 8, 8, false, false, false, false, 0, 0, 1, false, false, false,
                       [NA, NA], BlankChains(), [NA, NA, NA], [true, true, true]);
    var branch := plain.(urgent := true, seqno := 2, queued := true);
    var s := State(Window([plain, branch, plain], 2, 1, 0, 0, 2, 0, 0, 0, 2), Queues([1], [], [Link(0, 1, 0, 2)], 0),
                   Vectors([], [], {}), Front(false, 0, map[], map[], [], 0, 0), History([], [], []));
    assert Favoured(s.w.st, s.q.readyq[0]);
    PolicyIsKept(s, 0);
    assert BreaksPolicy(s, 0);
  }
}
