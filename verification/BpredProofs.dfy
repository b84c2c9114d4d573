/**
 * The BTB is an LRU map from branches to their latest taken targets, and the return stack predicts
 * every return whose calls it has room for.
 */
module BpredProofs {
  import M = CacheModel
  import P = CacheProofs
  import L = CacheLru
  import opened BpredModel

  // ---------------------------------------------------------------- one BTB set

  lemma FindIs(c: Config, s: Btb, addr: nat)
    requires BtbOk(c, s) && addr != 0
    ensures Find(s.ents, addr, 0).Some? <==> addr in Tracked(s)
    ensures Find(s.ents, addr, 0).None? ==> forall b :: 0 <= b < |s.ents| ==> s.ents[b].addr != addr
  {
    var lines := AsSet(s).lines;
    assert forall b :: 0 <= b < |s.ents| ==> lines[b] == AsLine(s.ents[b]);
    L.TagsAre(lines, s.ways, addr);
    if Find(s.ents, addr, 0).Some? {
      var b := Find(s.ents, addr, 0).value;
      assert b in s.ways;
      var k :| 0 <= k < |s.ways| && s.ways[k] == b;
      assert lines[s.ways[k]].valid && lines[s.ways[k]].tag == addr;
    }
    hide L.ValidTags, Find;
  }

  lemma EnteredSet(c: Config, s: Btb, b: nat, ent: Ent)
    requires BtbOk(c, s) && b < c.assoc && ent.addr != 0
    requires forall a :: 0 <= a < c.assoc && a != b ==> s.ents[a].addr != ent.addr
    requires s.ents[b].addr != 0 || s.ways[c.assoc - 1] == b
    ensures BtbOk(c, Btb(s.ents[b := ent], M.ToFront(s.ways, b)))
    ensures AsSet(Btb(s.ents[b := ent], M.ToFront(s.ways, b))) ==
      M.Set(AsSet(s).lines[b := AsLine(ent)], M.ToFront(s.ways, b))
  {
    var g, S := Geo(c), AsSet(s);
    var s1 := Btb(s.ents[b := ent], M.ToFront(s.ways, b));
    AsSetOk(c, s);
    P.ReorderPermutes(s.ways, b, c.assoc);
    assert AsSet(s1).lines == S.lines[b := AsLine(ent)];
    assert forall a :: 0 <= a < |s.ents| ==> S.lines[a] == AsLine(s.ents[a]);
    hide M.ToFront, P.Permutes, M.SetOk, P.ValidFirst, AsSet;
    P.SetUpdate(g, S, b, AsLine(ent), M.ToFront(s.ways, b));
    P.FrontValid(g, S, b, AsLine(ent));
    OkAsSet(c, s1);
  }

  /** A taken branch moves to the front of the list of tracked branches; a new one may push the last out. */
  lemma EnteredIsLru(c: Config, s: Btb, addr: nat, target: nat, correct: bool)
    requires c.Valid() && BtbOk(c, s) && addr != 0
    ensures var s1 := Entered(s, addr, target, correct);
      BtbOk(c, s1) && Tracked(s1) == L.Used(Tracked(s), addr, c.assoc)
  {
    var b := Chosen(s, addr);
    var ent := if s.ents[b].addr == addr && correct then s.ents[b] else Ent(addr, target);
    FindIs(c, s, addr);
    AsSetOk(c, s);
    EnteredSet(c, s, b, ent);
    assert AsSet(s).lines[b] == AsLine(s.ents[b]);
    hide L.ValidTags, L.Used, M.SetOk, P.ValidFirst, P.Permutes, M.ToFront, AsSet;
    if Find(s.ents, addr, 0).Some? {
      L.HitRecent(Geo(c), AsSet(s), b, AsLine(ent));
    } else {
      L.MissRecent(Geo(c), AsSet(s), b, AsLine(ent));
    }
  }

  // ---------------------------------------------------------------- targets

  /** The branch enters or refreshes the BTB. */
  predicate Recorded(c: Config, br: Branch) { Taken(br) && !UsesStack(c, br) }

  /** Every tracked branch is in its own set with its latest taken target. */
  ghost predicate SetLatest(c: Config, s: Btb, i: nat, latest: map<nat, nat>)
    requires c.nsets > 0
  {
    forall b :: 0 <= b < |s.ents| && s.ents[b].addr != 0 ==>
      s.ents[b].addr in latest && s.ents[b].target == latest[s.ents[b].addr] && SetOf(c, s.ents[b].addr) == i
  }

  ghost predicate PredictorOk(c: Config, p: Predictor, latest: map<nat, nat>) {
    && Sized(c, p)
    && (forall i :: 0 <= i < c.nsets ==> BtbOk(c, p.sets[i]))
    && forall i :: 0 <= i < c.nsets ==> SetLatest(c, p.sets[i], i, latest)
  }

  /** A right prediction for a taken branch that is in the BTB is its stored target. */
  lemma RightIsStored(c: Config, p: Predictor, br: Branch)
    requires Sized(c, p) && Recorded(c, br) && PredPC(c, p, br) == br.next
    ensures var s := p.sets[SetOf(c, br.addr)];
      Find(s.ents, br.addr, 0).Some? ==> s.ents[Find(s.ents, br.addr, 0).value].target == br.next
  {
  }

  lemma EnteredLatest(c: Config, p: Predictor, br: Branch, latest: map<nat, nat>)
    requires PredictorOk(c, p, latest) && Recorded(c, br) && br.addr != 0
    ensures var i := SetOf(c, br.addr);
      SetLatest(c, Entered(p.sets[i], br.addr, br.next, PredPC(c, p, br) == br.next), i, latest[br.addr := br.next])
  {
    var i := SetOf(c, br.addr);
    var s := p.sets[i];
    assert BtbOk(c, s) && SetLatest(c, s, i, latest);
    if PredPC(c, p, br) == br.next {
      RightIsStored(c, p, br);
    }
    FindIs(c, s, br.addr);
    hide SetOf, Tracked, M.ToFront, P.Permutes;
  }

  lemma OtherLatest(c: Config, s: Btb, i: nat, br: Branch, latest: map<nat, nat>)
    requires c.nsets > 0 && SetLatest(c, s, i, latest) && SetOf(c, br.addr) != i
    ensures SetLatest(c, s, i, latest[br.addr := br.next])
  {
    hide SetOf;
  }

  /** The tracked branches of every set after one branch. */
  function RefStep(c: Config, tracked: seq<nat>, i: nat, br: Branch): seq<nat>
    requires c.nsets > 0
  {
    if Recorded(c, br) && SetOf(c, br.addr) == i then L.Used(tracked, br.addr, c.assoc) else tracked
  }

  function LatestStep(c: Config, latest: map<nat, nat>, br: Branch): map<nat, nat> {
    if Recorded(c, br) then latest[br.addr := br.next] else latest
  }

  lemma StepSets(c: Config, p: Predictor, br: Branch)
    requires Sized(c, p)
    ensures var i := SetOf(c, br.addr);
      Step(c, p, br).sets ==
        if Recorded(c, br) then p.sets[i := Entered(p.sets[i], br.addr, br.next, PredPC(c, p, br) == br.next)]
          else p.sets
  {
    hide PredPC, Entered, SetOf;
  }

  /** What one branch does to set `i`. */
  lemma StepSet(c: Config, p: Predictor, br: Branch, latest: map<nat, nat>, i: nat)
    requires PredictorOk(c, p, latest) && br.addr != 0 && i < c.nsets
    ensures var r := Step(c, p, br);
      && |r.sets| == c.nsets && BtbOk(c, r.sets[i]) && SetLatest(c, r.sets[i], i, LatestStep(c, latest, br))
      && Tracked(r.sets[i]) == RefStep(c, Tracked(p.sets[i]), i, br)
  {
    StepSets(c, p, br);
    assert BtbOk(c, p.sets[i]) && SetLatest(c, p.sets[i], i, latest);
    hide Step, Entered, Tracked, L.Used, SetLatest, BtbOk;
    if Recorded(c, br) {
      if SetOf(c, br.addr) == i {
        EnteredIsLru(c, p.sets[i], br.addr, br.next, PredPC(c, p, br) == br.next);
        EnteredLatest(c, p, br, latest);
      } else {
        OtherLatest(c, p.sets[i], i, br, latest);
      }
    }
  }

  /** Every branch keeps the BTB an LRU map. */
  lemma StepOk(c: Config, p: Predictor, br: Branch, latest: map<nat, nat>)
    requires PredictorOk(c, p, latest) && br.addr != 0
    ensures PredictorOk(c, Step(c, p, br), LatestStep(c, latest, br))
  {
    var r := Step(c, p, br);
    StepSized(c, p, br);
    forall i | 0 <= i < c.nsets ensures BtbOk(c, r.sets[i]) && SetLatest(c, r.sets[i], i, LatestStep(c, latest, br)) {
      StepSet(c, p, br, latest, i);
    }
    hide Step, BtbOk, SetLatest, LatestStep, P.Permutes;
  }

  // ---------------------------------------------------------------- runs

  /** The tracked branches of set `i` after a run: the most recently taken ones, as many as there is room for. */
  function RefRun(c: Config, tracked: seq<nat>, i: nat, brs: seq<Branch>): seq<nat>
    requires c.nsets > 0
    decreases |brs|
  {
    if brs == [] then tracked else RefRun(c, RefStep(c, tracked, i, brs[0]), i, brs[1..])
  }

  function LatestRun(c: Config, latest: map<nat, nat>, brs: seq<Branch>): map<nat, nat>
    decreases |brs|
  {
    if brs == [] then latest else LatestRun(c, LatestStep(c, latest, brs[0]), brs[1..])
  }

  lemma {:induction false} RunOk(c: Config, p: Predictor, latest: map<nat, nat>, brs: seq<Branch>, i: nat)
    requires PredictorOk(c, p, latest) && Sized(c, p) && i < c.nsets && forall k :: 0 <= k < |brs| ==> brs[k].addr != 0
    ensures var r := Run(c, p, brs);
      PredictorOk(c, r, LatestRun(c, latest, brs)) && Tracked(r.sets[i]) == RefRun(c, Tracked(p.sets[i]), i, brs)
    decreases |brs|
  {
    hide PredictorOk, Step, Tracked, RefStep, LatestStep, P.Permutes;
    if brs == [] {
    } else {
      StepSized(c, p, brs[0]);
      StepOk(c, p, brs[0], latest);
      StepSet(c, p, brs[0], latest, i);
      RunOk(c, Step(c, p, brs[0]), LatestStep(c, latest, brs[0]), brs[1..], i);
    }
  }

  lemma InitialOk(c: Config, i: nat)
    requires c.Valid() && i < c.nsets
    ensures PredictorOk(c, Initial(c), map[]) && Tracked(Initial(c).sets[i]) == []
  {
    var p := Initial(c);
    forall j | 0 <= j < c.nsets ensures BtbOk(c, p.sets[j]) {
      forall b | 0 <= b < c.assoc ensures b in p.sets[j].ways {
        assert p.sets[j].ways[b] == b;
      }
    }
    L.NoTags(AsSet(p.sets[i]).lines, p.sets[i].ways);
    hide L.ValidTags, BtbOk;
  }

  /**
   * In every run the BTB set `i` tracks exactly the most recently taken branches of the set, and
   * gives each its latest taken target, although targets are rewritten only on mispredictions.
   */
  lemma BtbIsLruMap(c: Config, brs: seq<Branch>, i: nat, b: nat)
    requires c.Valid() && i < c.nsets && forall k :: 0 <= k < |brs| ==> brs[k].addr != 0
    ensures Sized(c, Initial(c))
    ensures var p := Run(c, Initial(c), brs); var latest := LatestRun(c, map[], brs); var ents := p.sets[i].ents;
      && BtbOk(c, p.sets[i]) && Tracked(p.sets[i]) == RefRun(c, [], i, brs)
      && (b < |ents| && ents[b].addr != 0 ==> ents[b].addr in latest && ents[b].target == latest[ents[b].addr])
  {
    InitialSized(c);
    InitialOk(c, i);
    RunOk(c, Initial(c), map[], brs, i);
    var p := Run(c, Initial(c), brs);
    assert BtbOk(c, p.sets[i]) && SetLatest(c, p.sets[i], i, LatestRun(c, map[], brs));
    hide Run, Initial, BtbOk, Tracked, LatestRun, RefRun, PredictorOk;
  }

  // ---------------------------------------------------------------- predictions

  /**
   * The next PC of a branch that the return stack does not serve, given the branches before it.  It
   * falls through if it is predicted not taken, else it goes where it went when last taken, if its set
   * still tracks it.  The predictor answers one for a taken branch it does not track, and its answer
   * zero, also for a target that is zero, is taken for no prediction.
   */
  function Expected(c: Config, before: seq<Branch>, br: Branch): nat
    requires c.nsets > 0
  {
    var latest := LatestRun(c, map[], before);
    if !br.uncond && !br.dir then Fall(br)
    else if br.addr !in RefRun(c, [], SetOf(c, br.addr), before) then 1
    else if br.addr !in latest || latest[br.addr] == 0 then Fall(br)
    else latest[br.addr]
  }

  lemma GuessIs(c: Config, p: Predictor, br: Branch, latest: map<nat, nat>)
    requires PredictorOk(c, p, latest) && br.addr != 0 && !UsesStack(c, br)
    ensures var s := p.sets[SetOf(c, br.addr)];
      && (br.addr in Tracked(s) ==> br.addr in latest)
      && Guess(c, p, br) ==
           if !br.uncond && !br.dir then 0 else if br.addr in Tracked(s) then latest[br.addr] else 1
  {
    var s := p.sets[SetOf(c, br.addr)];
    assert BtbOk(c, s) && SetLatest(c, s, SetOf(c, br.addr), latest);
    FindIs(c, s, br.addr);
    hide Tracked, SetOf, P.Permutes;
  }

  /** After any run, the prediction is the latest taken target of a tracked branch, and no other. */
  lemma PredictionIsExact(c: Config, before: seq<Branch>, br: Branch)
    requires c.Valid() && (forall k :: 0 <= k < |before| ==> before[k].addr != 0) && br.addr != 0 && !UsesStack(c, br)
    ensures Sized(c, Initial(c)) && PredPC(c, Run(c, Initial(c), before), br) == Expected(c, before, br)
    ensures br.addr in RefRun(c, [], SetOf(c, br.addr), before) ==> br.addr in LatestRun(c, map[], before)
  {
    var i := SetOf(c, br.addr);
    InitialSized(c);
    InitialOk(c, i);
    RunOk(c, Initial(c), map[], before, i);
    GuessIs(c, Run(c, Initial(c), before), br, LatestRun(c, map[], before));
    hide Run, Initial, Tracked, LatestRun, RefRun, PredictorOk, Guess, SetOf;
  }

  lemma {:induction false} RightsAt(c: Config, p: Predictor, brs: seq<Branch>, k: nat)
    requires Sized(c, p) && k < |brs|
    ensures |Rights(c, p, brs)| == |brs|
    ensures Rights(c, p, brs)[k] <==> PredPC(c, Run(c, p, brs[..k]), brs[k]) == brs[k].next
    decreases |brs|
  {
    hide Step, PredPC, Sized;
    StepSized(c, p, brs[0]);
    RightsLength(c, Step(c, p, brs[0]), brs[1..]);
    if k == 0 {
      assert Run(c, p, brs[..0]) == p;
    } else {
      RightsAt(c, Step(c, p, brs[0]), brs[1..], k - 1);
      assert brs[..k][1..] == brs[1..][..k - 1];
    }
  }

  lemma {:induction false} RightsLength(c: Config, p: Predictor, brs: seq<Branch>)
    requires Sized(c, p)
    ensures |Rights(c, p, brs)| == |brs|
    decreases |brs|
  {
    hide Step, PredPC, Sized;
    if brs == [] {
    } else {
      StepSized(c, p, brs[0]);
      RightsLength(c, Step(c, p, brs[0]), brs[1..]);
    }
  }

  /** A branch of a run is predicted right exactly if it goes where the branches before it make expect. */
  lemma RightIff(c: Config, brs: seq<Branch>, k: nat)
    requires c.Valid() && (forall j :: 0 <= j < |brs| ==> brs[j].addr != 0) && k < |brs| && !UsesStack(c, brs[k])
    ensures Sized(c, Initial(c)) && |Rights(c, Initial(c), brs)| == |brs|
    ensures Rights(c, Initial(c), brs)[k] <==> Expected(c, brs[..k], brs[k]) == brs[k].next
  {
    InitialSized(c);
    RightsAt(c, Initial(c), brs, k);
    PredictionIsExact(c, brs[..k], brs[k]);
    hide Rights, Run, Initial, Expected, PredPC;
  }

  // ---------------------------------------------------------------- the branch at address zero

  /** An entry never used has the target zero. */
  ghost predicate Blanks(c: Config, p: Predictor) {
    forall i, b :: 0 <= i < |p.sets| && 0 <= b < |p.sets[i].ents| && p.sets[i].ents[b].addr == 0 ==>
      p.sets[i].ents[b].target == 0
  }

  lemma StepBlanks(c: Config, p: Predictor, br: Branch)
    requires Sized(c, p) && Blanks(c, p) && br.addr != 0
    ensures Blanks(c, Step(c, p, br))
  {
    StepSets(c, p, br);
    hide Step, SetOf, M.ToFront, P.Permutes, PredPC;
  }

  lemma {:induction false} RunBlanks(c: Config, p: Predictor, brs: seq<Branch>)
    requires Sized(c, p) && Blanks(c, p) && forall k :: 0 <= k < |brs| ==> brs[k].addr != 0
    ensures Blanks(c, Run(c, p, brs))
    decreases |brs|
  {
    hide Step, Blanks, Sized;
    if brs == [] {
    } else {
      StepSized(c, p, brs[0]);
      StepBlanks(c, p, brs[0]);
      RunBlanks(c, Step(c, p, brs[0]), brs[1..]);
    }
  }

  /** A set tracks as many branches as it has entries exactly if none is unused. */
  lemma FullHasNoBlank(c: Config, s: Btb)
    requires c.Valid() && BtbOk(c, s)
    ensures Find(s.ents, 0, 0).None? <==> |Tracked(s)| >= c.assoc
  {
    var lines := AsSet(s).lines;
    AsSetOk(c, s);
    L.LastOut(Geo(c), AsSet(s));
    assert forall b :: 0 <= b < |s.ents| ==> lines[b] == AsLine(s.ents[b]);
    var last := s.ways[c.assoc - 1];
    if s.ents[last].addr != 0 {
      forall b | 0 <= b < |s.ents| ensures s.ents[b].addr != 0 {
        assert b in s.ways;
        var k :| 0 <= k < |s.ways| && s.ways[k] == b;
      }
    }
    hide L.ValidTags, Find, AsSet;
  }

  /**
   * A branch at address zero matches the first unused entry of its set: it falls through whatever its
   * direction, until the set is full.
   */
  lemma ZeroFallsThrough(c: Config, before: seq<Branch>, br: Branch)
    requires c.Valid() && (forall k :: 0 <= k < |before| ==> before[k].addr != 0) && br.addr == 0 && !UsesStack(c, br)
    ensures Sized(c, Initial(c))
    ensures var full := |RefRun(c, [], SetOf(c, 0), before)| >= c.assoc;
      PredPC(c, Run(c, Initial(c), before), br) == if (br.uncond || br.dir) && full then 1 else Fall(br)
  {
    var i := SetOf(c, 0);
    InitialSized(c);
    InitialOk(c, i);
    assert Blanks(c, Initial(c));
    hide Run, Initial, Tracked, LatestRun, RefRun, SetOf, Blanks, BtbOk, SetLatest;
    RunOk(c, Initial(c), map[], before, i);
    RunBlanks(c, Initial(c), before);
    var p := Run(c, Initial(c), before);
    FullHasNoBlank(c, p.sets[i]);
    ZeroGuess(c, p, br);
  }

  lemma ZeroGuess(c: Config, p: Predictor, br: Branch)
    requires Sized(c, p) && Blanks(c, p) && br.addr == 0 && !UsesStack(c, br)
    ensures Guess(c, p, br) ==
      if (br.uncond || br.dir) && Find(p.sets[SetOf(c, 0)].ents, 0, 0).None? then 1 else 0
  {
    hide P.Permutes, SetOf;
  }
}
