/**
 * The circular return-address stack: exactly what it predicts for the return of any call, however
 * deep the calls in between nest.
 */
module BpredStack {
  import P = CacheProofs
  import opened BpredModel
  import opened BpredProofs

  // ---------------------------------------------------------------- remainders

  lemma ModMultiple(q: nat, x: nat, n: nat)
    requires n > 0
    ensures (q * n + x) % n == x % n
  {
    var k, r := x / n, x % n;
    assert q * n + x == (q + k) * n + r;
    P.DivMul(q + k, n, r);
  }

  lemma ModPlus(a: nat, b: nat, n: nat)
    requires n > 0
    ensures (a % n + b) % n == (a + b) % n
  {
    ModMultiple(a / n, a % n + b, n);
    assert a / n * n + (a % n + b) == a + b;
  }

  /** Stepping up or down a ring. */
  lemma RingSteps(t: nat, e: nat, n: nat)
    requires n > 0 && t < n
    ensures ((t + e) % n + 1) % n == (t + e + 1) % n
    ensures e > 0 ==> ((t + e) % n + n - 1) % n == (t + e - 1) % n
    ensures (t + e) % n == t <==> e % n == 0
  {
    ModPlus(t + e, 1, n);
    if e > 0 {
      ModPlus(t + e, n - 1, n);
      ModMultiple(1, t + e - 1, n);
    }
    RingHome(t, e, n);
  }

  lemma RingHome(t: nat, e: nat, n: nat)
    requires n > 0 && t < n
    ensures (t + e) % n == t <==> e % n == 0
  {
    var q, r := e / n, e % n;
    assert t + e == q * n + (t + r);
    ModMultiple(q, t + r, n);
    assert (t + r) % n == if t + r < n then t + r else t + r - n by {
      if t + r >= n {
        ModMultiple(1, t + r - n, n);
        P.DivMul(0, n, t + r - n);
      } else {
        P.DivMul(0, n, t + r);
      }
    }
  }

  // ---------------------------------------------------------------- nesting

  /** Calls open a level and returns close one. */
  function Delta(br: Branch): int {
    if br.ret then -1 else if br.call then 1 else 0
  }

  /** From nesting depth `e` the branches never close more than has been opened, and end at zero. */
  predicate Nests(brs: seq<Branch>, e: int)
    decreases |brs|
  {
    if brs == [] then e == 0 else e + Delta(brs[0]) >= 0 && Nests(brs[1..], e + Delta(brs[0]))
  }

  /** No call goes deeper than `n - 1` levels. */
  predicate Shallow(brs: seq<Branch>, e: int, n: nat)
    decreases |brs|
  {
    brs == [] || (e + Delta(brs[0]) < n && Shallow(brs[1..], e + Delta(brs[0]), n))
  }

  /** What a stack slot holding `v` holds afterwards: calls a multiple of `n` levels up write over it. */
  function Survivor(brs: seq<Branch>, e: int, n: nat, v: nat): nat
    requires n > 0
    decreases |brs|
  {
    if brs == [] then v
    else
      var e' := e + Delta(brs[0]);
      Survivor(brs[1..], e', n, if Delta(brs[0]) == 1 && e' % n == 0 then Fall(brs[0]) else v)
  }

  /** With room enough the slot keeps its value; otherwise it holds the return address of a deeper call. */
  lemma {:induction false} SurvivorIs(brs: seq<Branch>, e: nat, n: nat, v: nat)
    requires n > 0 && e < n && Nests(brs, e)
    ensures Shallow(brs, e, n) ==> Survivor(brs, e, n, v) == v
    ensures var w := Survivor(brs, e, n, v);
      w == v || exists k :: 0 <= k < |brs| && Delta(brs[k]) == 1 && w == Fall(brs[k])
    decreases |brs|
  {
    DeepSurvivor(brs, e, n, v);
    if brs != [] && e + Delta(brs[0]) < n {
      P.DivMul(0, n, e + Delta(brs[0]));
      if Shallow(brs, e, n) {
        SurvivorIs(brs[1..], e + Delta(brs[0]), n, v);
      }
    }
  }

  lemma {:induction false} DeepSurvivor(brs: seq<Branch>, e: nat, n: nat, v: nat)
    requires n > 0 && Nests(brs, e)
    ensures var w := Survivor(brs, e, n, v);
      w == v || exists k :: 0 <= k < |brs| && Delta(brs[k]) == 1 && w == Fall(brs[k])
    decreases |brs|
  {
    if brs == [] {
    } else {
      var e' := e + Delta(brs[0]);
      var v' := if Delta(brs[0]) == 1 && e' % n == 0 then Fall(brs[0]) else v;
      DeepSurvivor(brs[1..], e', n, v');
      var w := Survivor(brs, e, n, v);
      if w != v' {
        var k :| 0 <= k < |brs[1..]| && Delta(brs[1..][k]) == 1 && w == Fall(brs[1..][k]);
        assert brs[k + 1] == brs[1..][k];
      }
    }
  }

  // ---------------------------------------------------------------- the stack

  /** A branch moves the top of stack by its change of depth, and only calls write, at the new top. */
  lemma StackStep(c: Config, p: Predictor, br: Branch)
    requires Sized(c, p) && c.depth > 0
    ensures var r := Step(c, p, br);
      && |r.stack| == c.depth && r.tos < c.depth
      && (Delta(br) == -1 ==> r.tos == (p.tos + c.depth - 1) % c.depth && r.stack == p.stack)
      && (Delta(br) == 0 ==> r.tos == p.tos && r.stack == p.stack)
      && (Delta(br) == 1 ==> r.tos == (p.tos + 1) % c.depth && r.stack == p.stack[r.tos := Fall(br)])
  {
    hide PredPC, Entered;
  }

  /** The slot `e` levels above slot `t`. */
  function Above(t: nat, e: nat, n: nat): nat
    requires n > 0
  {
    (t + e) % n
  }

  /** One branch, seen from the slot `t`, `e` levels below the top. */
  lemma SlotStep(c: Config, p: Predictor, br: Branch, t: nat, e: nat)
    requires Sized(c, p) && c.depth > 0 && t < c.depth && p.tos == Above(t, e, c.depth) && e + Delta(br) >= 0
    ensures var r := Step(c, p, br); var e' := e + Delta(br);
      && |r.stack| == c.depth && r.tos == Above(t, e', c.depth)
      && r.stack[t] == if Delta(br) == 1 && e' % c.depth == 0 then Fall(br) else p.stack[t]
  {
    StackStep(c, p, br);
    RingSteps(t, e, c.depth);
    RingHome(t, e + 1, c.depth);
  }

  /** The slot `t`, `e` levels below the top, through a run that comes back to it. */
  lemma {:induction false} SlotThrough(c: Config, p: Predictor, brs: seq<Branch>, t: nat, e: nat)
    requires Sized(c, p) && c.depth > 0 && t < c.depth && Nests(brs, e) && p.tos == Above(t, e, c.depth)
    ensures var r := Run(c, p, brs); r.tos == t && r.stack[t] == Survivor(brs, e, c.depth, p.stack[t])
    decreases |brs|
  {
    P.DivMul(0, c.depth, t);
    if brs == [] {
    } else {
      hide Step, Above, P.Permutes;
      StepSized(c, p, brs[0]);
      SlotStep(c, p, brs[0], t, e);
      SlotThrough(c, Step(c, p, brs[0]), brs[1..], t, e + Delta(brs[0]));
    }
  }

  /**
   * After a call, any properly nested branches, and the matching return, the return is predicted
   * to go where the call's stack slot says: to the instruction after the call as long as the calls
   * in between never nested `depth` deep, and otherwise to the one after some deeper call.
   */
  lemma {:induction false} ReturnIsPredicted(c: Config, p: Predictor, call: Branch, brs: seq<Branch>, ret: Branch)
    requires Sized(c, p) && c.depth > 0 && Delta(call) == 1 && ret.ret && Nests(brs, 0)
    ensures var guess := Guess(c, Run(c, p, [call] + brs), ret);
      && guess == Survivor(brs, 0, c.depth, Fall(call))
      && (Shallow(brs, 0, c.depth) ==> PredPC(c, Run(c, p, [call] + brs), ret) == Fall(call))
      && (!Shallow(brs, 0, c.depth) ==>
            guess == Fall(call) || exists k :: 0 <= k < |brs| && Delta(brs[k]) == 1 && guess == Fall(brs[k]))
  {
    var all := [call] + brs;
    assert all[1..] == brs;
    StackStep(c, p, call);
    StepSized(c, p, call);
    var p1 := Step(c, p, call);
    P.DivMul(0, c.depth, p1.tos);
    SlotThrough(c, p1, brs, p1.tos, 0);
    SurvivorIs(brs, 0, c.depth, Fall(call));
  }
}
