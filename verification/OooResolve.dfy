/**
 * What writeback does in a cycle: which operations complete, and when a mispredicted branch takes the
 * wrong path with it.
 */
module OooResolve {
  import opened OooTypes
  import opened OooStages
  import opened OooInv
  import opened OooFrames
  import opened OooDrop
  import opened OooRecover
  import opened OooWriteback
  import opened OooComplete
  import opened OooTiming
  import OooTrack

  /** The mispredicted branch has an event in this cycle. */
  ghost predicate Resolving(s: State)
    requires Ring(s.w)
  {
    exists b :: Pending(s.w, b) && DueNow(s, b)
  }

  /** The operation in `t` has an event in this cycle. */
  ghost predicate DueNow(s: State, t: int)
    requires 0 <= t < |s.w.st|
  {
    Due(s.q.events, t, s.w.st[t].tag, s.q.now)
  }

  /** Fetch resumes on the right path, after the penalty. */
  function Resumed(c: Config, f: Front): Front {
    f.(specMode := false, overlay := map[], fq := [], fetchPC := f.recoverPC, delay := c.branchPenalty)
  }

  // ---------------------------------------------------------------- squashing

  /** No operation but speculative ones is gone, and none has completed. */
  ghost predicate Prunes(w: Window, w': Window) {
    && Ring(w) && Ring(w') && w'.nr == w.nr && w'.nl == w.nl
    && (forall t :: Live(w', t) ==> Live(w, t))
    && (forall t :: Live(w, t) && !w.st[t].spec ==> Live(w', t))
    && (forall t :: 0 <= t < |w.st| ==> w'.st[t].spec == w.st[t].spec && w'.st[t].completed == w.st[t].completed)
  }

  lemma PrunesTrans(w: Window, w': Window, w'': Window)
    requires Prunes(w, w') && Prunes(w', w'')
    ensures Prunes(w, w'')
  {
    hide RingPos;
  }

  lemma DropPrunes(w: Window, w': Window, d: int)
    requires Drops(w, w', d) && w.st[d].spec
    ensures Prunes(w, w')
  {
    hide RingPos;
  }

  lemma SquashAluPrunes(s: State, b: int)
    requires Squashing(s, b) && s.w.rn > 0 && RuuTail(s.w) != b && !s.w.st[RuuTail(s.w)].kind.Addr?
    ensures Prunes(s.w, SquashRuu(s).w)
  {
    assert Numbered(s.w) && Doomed(s.w, b);
    RuuTailIsYoungest(s.w);
    assert s.w.st[RuuTail(s.w)].spec;
    hide SquashOk, OrderedRuu, OrderedLsq, Paired, HistoryOk, RingPos, RuuTail, SquashRuu, YoungestLive, Drops, Prunes;
    SquashRuuDrops(s);
    DropPrunes(s.w, SquashRuu(s).w, RuuTail(s.w));
  }

  lemma SquashLsqPrunes(s: State, b: int)
    requires Squashing(s, b) && s.w.rn > 0 && s.w.st[RuuTail(s.w)].kind.Addr?
    ensures s.w.ln > 0 && Prunes(s.w, SquashLsq(s).w)
  {
    assert Numbered(s.w) && Doomed(s.w, b);
    assert LsqTail(s.w) != b;
    LsqTailIsYoungest(s.w);
    assert s.w.st[LsqTail(s.w)].spec;
    hide SquashOk, OrderedRuu, OrderedLsq, Paired, HistoryOk, RingPos, RuuTail, SquashLsq, YoungestLive, Drops, Prunes;
    SquashLsqDrops(s);
    DropPrunes(s.w, SquashLsq(s).w, LsqTail(s.w));
  }

  lemma SquashPairPrunes(s: State, b: int)
    requires Squashing(s, b) && s.w.rn > 0 && RuuTail(s.w) != b && s.w.st[RuuTail(s.w)].kind.Addr?
    ensures s.w.ln > 0 && SquashLsq(s).w.rn > 0 && Prunes(s.w, SquashRuu(SquashLsq(s)).w)
  {
    SquashHalf(s, b);
    SquashLsqPrunes(s, b);
    var s1 := SquashLsq(s);
    assert s1.w.st[RuuTail(s.w)].spec by {
      assert Doomed(s1.w, b);
      hide RingPos, SquashLsq, RuuTail;
    }
    assert s1.w.rn > 0;
    hide Squashing, SquashOk, RingPos, RuuTail, SquashRuu, SquashLsq, YoungestLive, Drops, Prunes;
    SquashRuuDrops(s1);
    DropPrunes(s1.w, SquashRuu(s1).w, RuuTail(s.w));
    PrunesTrans(s.w, s1.w, SquashRuu(s1).w);
  }

  lemma SquashOnePrunes(s: State, b: int)
    requires Squashing(s, b) && RuuTail(s.w) != b
    ensures SquashOne(s).Ok? && Squashing(SquashOne(s).value, b) && Prunes(s.w, SquashOne(s).value.w)
  {
    SquashOneOk(s, b);
    hide Squashing, RingPos, SquashRuu, SquashLsq, Prunes;
    if s.w.st[RuuTail(s.w)].kind.Addr? {
      SquashPairPrunes(s, b);
    } else {
      SquashAluPrunes(s, b);
    }
  }

  lemma {:induction false} RecoverPrunes(s: State, b: nat)
    requires Squashing(s, b)
    ensures Ring(s.w) && RecoverWindow(s, b).Ok? && Prunes(s.w, RecoverWindow(s, b).value.w)
    decreases s.w.rn
  {
    hide Squashing, SquashOne, Prunes;
    SquashingRing(s, b);
    if RuuTail(s.w) == b {
      PrunesSame(s.w);
    } else {
      SquashOnePrunes(s, b);
      RecoverPrunes(SquashOne(s).value, b);
      PrunesTrans(s.w, SquashOne(s).value.w, RecoverWindow(s, b).value.w);
    }
  }

  lemma PrunesSame(w: Window)
    requires Ring(w)
    ensures Prunes(w, w)
  {
    hide RingPos;
  }

  // ---------------------------------------------------------------- delivering

  /** Nothing has left the window or completed, and the front end is as it was. */
  ghost predicate Calm(s: State, s': State) {
    && SameRings(s.w, s'.w) && s'.f == s.f
    && forall t :: 0 <= t < |s.w.st| ==>
         s'.w.st[t].spec == s.w.st[t].spec && s'.w.st[t].completed == s.w.st[t].completed &&
         s'.w.st[t].tag == s.w.st[t].tag && s'.w.st[t].recover == s.w.st[t].recover
  }

  lemma CalmTrans(s: State, s': State, s'': State)
    requires Calm(s, s') && Calm(s', s'')
    ensures Calm(s, s'')
  {
  }

  lemma WakeOneCalm(s: State, l: Link)
    requires Ring(s.w) && WakeOne(s, l).Ok?
    ensures Calm(s, WakeOne(s, l).value)
  {
    hide InsertSorted;
  }

  lemma {:induction false} WakeAllCalm(s: State, chain: seq<Link>)
    requires Ring(s.w) && WakeAll(s, chain).Ok?
    ensures Calm(s, WakeAll(s, chain).value)
    decreases |chain|
  {
    if chain == [] {
    } else {
      hide WakeOne, Calm;
      WakeOneCalm(s, chain[0]);
      WakeAllCalm(WakeOne(s, chain[0]).value, chain[1..]);
      CalmTrans(s, WakeOne(s, chain[0]).value, WakeAll(s, chain).value);
    }
  }

  lemma BroadcastCalm(s: State, slot: nat, i: nat)
    requires Sized(s) && slot < |s.w.st| && i < 2 && Broadcast(s, slot, i).Ok?
    ensures Calm(s, Broadcast(s, slot, i).value)
  {
    hide WakeAll;
    var rs := s.w.st[slot];
    if rs.onames[i] != NA {
      var w1 := Put(s.w, slot, rs.(odeps := rs.odeps[i := []]));
      WakeAllCalm(s.(v := ClearCreator(s.v, rs, slot, i), w := w1), rs.odeps[i]);
    }
  }

  lemma DeliverCalm(s: State, slot: nat)
    requires Sized(s) && slot < |s.w.st| && Deliver(s, slot).Ok?
    ensures Calm(s, Deliver(s, slot).value)
  {
    hide Broadcast, Calm;
    BroadcastCalm(s, slot, 0);
    BroadcastCalm(Broadcast(s, slot, 0).value, slot, 1);
    CalmTrans(s, Broadcast(s, slot, 0).value, Deliver(s, slot).value);
  }

  // ---------------------------------------------------------------- one event

  /** The operation in `x` has completed; if it was the mispredicted branch, the wrong path is gone. */
  ghost predicate Completed(c: Config, s: State, r: State, x: int)
    requires Ring(s.w) && 0 <= x < |s.w.st|
  {
    && Ring(r.w) && r.w.nr == s.w.nr && r.w.nl == s.w.nl
    && (forall t :: 0 <= t < |s.w.st| ==> (r.w.st[t].completed <==> s.w.st[t].completed || t == x))
    && (forall t :: Live(r.w, t) ==> Live(s.w, t))
    && (if s.w.st[x].recover then
          && r.f == Resumed(c, s.f)
          && (forall t :: Live(s.w, t) && !s.w.st[t].spec ==> Live(r.w, t))
          && (forall t :: 0 <= t < |s.w.st| ==> r.w.st[t].spec == s.w.st[t].spec)
        else
          Calm(s.(w := Mark(s.w, x)), r))
  }

  lemma CompleteIs(c: Config, s: State, x: nat)
    requires Completing(s, x) && FrontOk(c, s.f, s.h) && Sized(s) && x < |s.w.st| && Complete(c, s, x).Ok?
    ensures Completed(c, s, Complete(c, s, x).value, x)
  {
    hide Completing, FrontOk, RingPos, Recover, Deliver, Broadcasting, Prunes, Completed, Calm;
    var s1 := Marked(s, x);
    if s.w.st[x].recover {
      RecoverOk(c, s, x);
      var s2 := Recover(c, s1, x).value;
      RecoverIs(c, s, x);
      DeliverCalm(s2, x);
      RecoverCompletes(c, s, s2, Deliver(s2, x).value, x);
    } else {
      DeliverCalm(s1, x);
      CalmCompletes(c, s, Deliver(s1, x).value, x);
    }
  }

  lemma SameLive(w: Window, w': Window)
    requires Ring(w) && SameRings(w, w')
    ensures forall t :: Live(w', t) <==> Live(w, t)
    ensures forall t :: Live(w, t) ==> 0 <= t < |w.st|
  {
    hide RingPos;
  }

  lemma RecoverCompletes(c: Config, s: State, s2: State, r: State, x: nat)
    requires Ring(s.w) && x < |s.w.st| && s.w.st[x].recover
    requires s2.f == Resumed(c, s.f) && Prunes(Mark(s.w, x), s2.w) && Calm(s2, r)
    ensures Completed(c, s, r, x)
  {
    hide Live;
    SameLive(s.w, Mark(s.w, x));
    SameLive(s2.w, r.w);
  }

  lemma CalmCompletes(c: Config, s: State, r: State, x: nat)
    requires Ring(s.w) && x < |s.w.st| && !s.w.st[x].recover && Calm(Marked(s, x), r)
    ensures Completed(c, s, r, x)
  {
    hide RingPos;
  }

  lemma RecoverIs(c: Config, s: State, x: nat)
    requires x < |s.w.st| && Completing(s, x) && s.w.st[x].recover && Sized(Marked(s, x)) &&
      Recover(c, Marked(s, x), x).Ok?
    ensures var r := Recover(c, Marked(s, x), x).value; r.f == Resumed(c, s.f) && Prunes(Mark(s.w, x), r.w)
  {
    hide Completing, RecoverWindow, Prunes, RingPos, Squashing;
    MarkSquashing(s, x);
    RecoverPrunes(Marked(s, x), x);
  }

  // ---------------------------------------------------------------- the loop

  /** The event that is popped is the only one that the operation loses. */
  lemma {:induction false} PopDue(q: Queues, st: seq<Station>, t: nat, at: nat)
    requires t < |st| && at <= q.now && EventsOk(q, at)
    ensures var e := PopEvent(q, st);
      Due(q.events, t, st[t].tag, at) <==>
        Due(e.q.events, t, st[t].tag, at) || (e.Event? && e.link.slot == t && e.link.x == at)
    decreases |q.events|
  {
    if q.events == [] || q.events[0].x > q.now {
    } else {
      var q1 := FreeLink(q.(events := q.events[1..]), q.events[0]);
      DueTail(q.events, t, st[t].tag, at);
      if Valid(st, q.events[0]) {
      } else {
        PopDue(q1, st, t, at);
      }
    }
  }

  lemma DueTail(events: seq<Link>, slot: int, tag: int, at: int)
    requires events != []
    ensures var l := events[0];
      Due(events, slot, tag, at) <==> Due(events[1..], slot, tag, at) || (l.slot == slot && l.tag == tag && l.x == at)
  {
    if Due(events, slot, tag, at) {
      var e :| 0 <= e < |events| && events[e].slot == slot && events[e].tag == tag && events[e].x == at;
      if e > 0 {
        assert events[1..][e - 1] == events[e];
      }
    }
    if Due(events[1..], slot, tag, at) {
      var e :| 0 <= e < |events[1..]| && events[1..][e].slot == slot && events[1..][e].tag == tag &&
        events[1..][e].x == at;
      assert events[e + 1] == events[1..][e];
    }
  }

  lemma NoneDue(q: Queues, slot: int, tag: int)
    requires EventsOk(q, q.now + 1)
    ensures !Due(q.events, slot, tag, q.now)
  {
  }

  /** What a whole writeback has done. */
  ghost predicate WrittenBack(c: Config, s: State, r: State)
    requires Ring(s.w)
  {
    && Ring(r.w) && r.w.nr == s.w.nr && r.w.nl == s.w.nl
    && r.f == (if Resolving(s) then Resumed(c, s.f) else s.f)
    && (forall t :: Live(r.w, t) <==> Live(s.w, t) && !(Resolving(s) && s.w.st[t].spec))
    && (forall t :: Live(r.w, t) ==> (r.w.st[t].completed <==> s.w.st[t].completed || DueNow(s, t)))
  }

  lemma CoreSpec(c: Config, s: State)
    requires CoreOk(c, s, s.q.now)
    ensures Ring(s.w) && SpecOk(s.w, s.f.specMode) && EventsOk(s.q, s.q.now) && FrontOk(c, s.f, s.h)
    ensures LifeOk(s.w, s.q, [])
  {
    hide Ordered, SpecOk, OperandsOk, VectorsOk, Paired, HistoryOk, LifeOk, ProgressOk, LoadsOk, LinksOk, FrontOk,
         EventsOk, RingPos;
  }

  lemma NoEventLeft(c: Config, s: State, q1: Queues)
    requires CoreOk(c, s, s.q.now) && PopEvent(s.q, s.w.st) == NoEvent(q1)
    ensures Ring(s.w) && WrittenBack(c, s, s.(q := q1))
  {
    hide CoreOk, SpecOk, LifeOk, FrontOk, RingPos, PopEvent, EventsOk, Due;
    CoreSpec(c, s);
    PopOk(s.w, s.q);
    forall t: nat | t < |s.w.st| ensures !DueNow(s, t) {
      PopDue(s.q, s.w.st, t, s.q.now);
      NoneDue(q1, t, s.w.st[t].tag);
    }
  }

  /** The events left are those there were, but for the one just served. */
  ghost predicate Served(s: State, s2: State, x: int)
    requires Ring(s.w) && Ring(s2.w) && s2.w.nr == s.w.nr && s2.w.nl == s.w.nl
  {
    forall t: nat :: t < |s.w.st| && s2.w.st[t].tag == s.w.st[t].tag ==> (DueNow(s, t) <==> DueNow(s2, t) || t == x)
  }

  lemma EventServed(s: State, s2: State, q1: Queues, l: Link)
    requires Ring(s.w) && Ring(s2.w) && s2.w.nr == s.w.nr && s2.w.nl == s.w.nl && EventsOk(s.q, s.q.now)
    requires PopEvent(s.q, s.w.st) == Event(q1, l) && l.x == s.q.now && s2.q.events == q1.events && s2.q.now == s.q.now
    ensures Served(s, s2, l.slot)
  {
    hide EventsOk, Due, RingPos, PopEvent;
    forall t: nat | t < |s.w.st| && s2.w.st[t].tag == s.w.st[t].tag
      ensures DueNow(s, t) <==> DueNow(s2, t) || t == l.slot
    {
      PopDue(s.q, s.w.st, t, s.q.now);
    }
  }

  /** An operation that is not mispredicted, and all that complete after it. */
  lemma CalmFirst(c: Config, s: State, s2: State, r: State, x: nat)
    requires Ring(s.w) && x < |s.w.st| && Live(s.w, x) && !s.w.st[x].recover
    requires Completed(c, s, s2, x) && Served(s, s2, x) && WrittenBack(c, s2, r)
    ensures WrittenBack(c, s, r)
  {
    hide DueNow, RingPos;
    forall b ensures Pending(s.w, b) <==> Pending(s2.w, b) {
    }
    forall b | Pending(s.w, b) ensures DueNow(s, b) <==> DueNow(s2, b) {
    }
    assert Resolving(s) <==> Resolving(s2);
    hide Resolving;
  }

  /** The mispredicted branch, and all that complete after it. */
  lemma BranchFirst(c: Config, s: State, s2: State, r: State, x: nat)
    requires Ring(s.w) && Ring(s2.w) && SpecOk(s2.w, s2.f.specMode) && x < |s.w.st| && Pending(s.w, x) && DueNow(s, x)
    requires Completed(c, s, s2, x) && Served(s, s2, x) && WrittenBack(c, s2, r) && OooTrack.Later(s.w, s2.w)
    ensures WrittenBack(c, s, r)
  {
    hide DueNow, RingPos;
    assert Resolving(s);
    assert !Resolving(s2);
    hide Resolving;
  }

  /**
   * ruu_writeback: exactly the operations with an event in this cycle complete.  If the mispredicted
   * branch is one of them, exactly the wrong path is squashed and fetch resumes on the right one.
   */
  lemma {:induction false} WritebackIsExact(c: Config, s: State)
    requires CoreOk(c, s, s.q.now) && Sized(s) && Writeback(c, s).Ok?
    ensures Ring(s.w) && WrittenBack(c, s, Writeback(c, s).value)
    decreases |s.q.events|
  {
    hide CoreOk, PopEvent, Complete, LinkCnt, WrittenBack, Completed, Completing, EventsOk, SpecOk, LifeOk, FrontOk,
         Served, RingPos, Due;
    CoreSpec(c, s);
    match PopEvent(s.q, s.w.st)
    case NoEvent(q1) => NoEventLeft(c, s, q1);
    case Event(q1, l) =>
      CompleteNext(c, s);
      PoppedCompleting(c, s, q1, l);
      var s1 := s.(q := q1);
      CompleteIs(c, s1, l.slot);
      var s2 := Complete(c, s1, l.slot).value;
      CoreSpec(c, s2);
      WritebackIsExact(c, s2);
      CompletedParts(c, s1, s2, l.slot);
      EventServed(s, s2, q1, l);
      CompletedQueue(c, s, s1, s2, l.slot);
      if s.w.st[l.slot].recover {
        BranchDue(s1, l.slot);
        OooTrack.CompleteLater(c, s1, l.slot);
        OwnEvent(s, q1, l);
        BranchFirst(c, s, s2, Writeback(c, s).value, l.slot);
      } else {
        CompletingLive(s1, l.slot);
        CalmFirst(c, s, s2, Writeback(c, s).value, l.slot);
      }
  }

  lemma CompletedParts(c: Config, s: State, r: State, x: int)
    requires Ring(s.w) && 0 <= x < |s.w.st| && Completed(c, s, r, x)
    ensures Ring(r.w) && r.w.nr == s.w.nr && r.w.nl == s.w.nl
  {
  }

  lemma CompletedQueue(c: Config, s: State, s1: State, r: State, x: int)
    requires Ring(s.w) && 0 <= x < |s.w.st| && s1 == s.(q := s1.q) && Completed(c, s1, r, x)
    ensures Completed(c, s, r, x)
  {
    hide RingPos;
  }

  lemma CompletingLive(s: State, x: nat)
    requires Completing(s, x)
    ensures Live(s.w, x) && Ring(s.w)
  {
    hide BodyOk, RingPos, ProgressOk, LoadsOk, LifeOk;
    CompletingEvents(s, x);
  }

  lemma BranchDue(s: State, x: nat)
    requires Completing(s, x) && x < |s.w.st| && s.w.st[x].recover
    ensures Ring(s.w) && Pending(s.w, x)
  {
    CompletingLive(s, x);
    ChecksPass(s, x);
    hide BodyOk, RingPos, ProgressOk, LoadsOk, LifeOk;
  }

  lemma OwnEvent(s: State, q1: Queues, l: Link)
    requires PopEvent(s.q, s.w.st) == Event(q1, l) && EventsOk(s.q, s.q.now) && l.x == s.q.now
    ensures l.slot < |s.w.st| && DueNow(s, l.slot)
  {
    hide EventsOk, PopEvent;
    PopDue(s.q, s.w.st, l.slot, s.q.now);
  }
}
