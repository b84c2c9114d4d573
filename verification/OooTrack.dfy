/**
 * Operations followed through the stages of a cycle: what happens to those in the window, and to
 * their events.
 */
module OooTrack {
  import opened OooTypes
  import opened OooStages
  import opened OooInv
  import opened OooFrames
  import opened OooIssue
  import opened OooTiming

  /** The same operation, in the same phase or a later one. */
  predicate SameOp(rs: Station, rs': Station) {
    && rs'.seqno == rs.seqno && rs'.kind == rs.kind && rs'.tag == rs.tag
    && (rs.issued ==> rs'.issued) && (rs.completed ==> rs'.completed)
  }

  // ---------------------------------------------------------------- writeback

  /** The window may have lost its youngest operations, but not the oldest; none has issued. */
  ghost predicate Later(w: Window, w': Window) {
    && w'.nr == w.nr && w'.nl == w.nl && w'.rh == w.rh && w'.lh == w.lh && |w'.st| == |w.st|
    && w'.rn <= w.rn && w'.ln <= w.ln && (w.rn > 0 ==> w'.rn > 0)
    && forall t :: Live(w', t) && 0 <= t < |w.st| ==> SameOp(w.st[t], w'.st[t]) && w'.st[t].issued == w.st[t].issued
  }

  lemma LaterTrans(w: Window, w': Window, w'': Window)
    requires Later(w, w') && Later(w', w'')
    ensures Later(w, w'')
  {
    forall t | Live(w'', t) && 0 <= t < |w.st| ensures SameOp(w.st[t], w''.st[t]) &&
      w''.st[t].issued == w.st[t].issued {
      assert Live(w', t);
    }
    hide RingPos;
  }

  /** Stations may change, but not what they hold. */
  lemma LaterSame(w: Window, w': Window)
    requires SameRings(w, w')
    requires forall t :: 0 <= t < |w.st| ==> SameOp(w.st[t], w'.st[t]) && w'.st[t].issued == w.st[t].issued
    ensures Later(w, w')
  {
    hide RingPos;
  }

  lemma SquashLsqLater(s: State)
    requires Ring(s.w) && s.w.ln > 0
    ensures Later(s.w, SquashLsq(s).w)
  {
    hide FreeList;
  }

  lemma SquashRuuLater(s: State)
    requires Ring(s.w) && s.w.rn > 1
    ensures Later(s.w, SquashRuu(s).w)
  {
    hide FreeList;
  }

  lemma SquashLater(s: State)
    requires Ring(s.w) && SquashOne(s).Ok?
    ensures Later(s.w, SquashOne(s).value.w)
  {
    hide SquashLsq, SquashRuu, Later, RingPos;
    TailIsNotHead(s.w);
    if s.w.st[Wrap(s.w.rt + s.w.nr - 1, s.w.nr)].kind.Addr? {
      SquashLsqLater(s);
      SquashLsqRuu(s);
      SquashRuuLater(SquashLsq(s));
      LaterTrans(s.w, SquashLsq(s).w, SquashRuu(SquashLsq(s)).w);
    } else {
      SquashRuuLater(s);
    }
  }

  lemma TailIsNotHead(w: Window)
    requires Ring(w) && w.rn > 0 && Wrap(w.rt + w.nr - 1, w.nr) != w.rh
    ensures w.rn > 1
  {
  }

  lemma SquashLsqRuu(s: State)
    requires Ring(s.w) && s.w.ln > 0
    ensures SquashLsq(s).w.rn == s.w.rn
  {
    hide FreeList;
  }

  lemma {:induction false} RecoverLater(s: State, branch: nat)
    requires Ring(s.w) && RecoverWindow(s, branch).Ok?
    ensures Later(s.w, RecoverWindow(s, branch).value.w)
    decreases s.w.rn
  {
    hide SquashOne, Later;
    if Wrap(s.w.rt + s.w.nr - 1, s.w.nr) == branch {
      LaterSame(s.w, s.w);
    } else {
      SquashLater(s);
      RecoverLater(SquashOne(s).value, branch);
      LaterTrans(s.w, SquashOne(s).value.w, RecoverWindow(s, branch).value.w);
    }
  }

  lemma WakeOneLater(s: State, l: Link)
    requires Ring(s.w) && WakeOne(s, l).Ok?
    ensures Later(s.w, WakeOne(s, l).value.w) && WakeOne(s, l).value.q.now == s.q.now
  {
    hide InsertSorted, Later;
    LaterSame(s.w, WakeOne(s, l).value.w);
  }

  lemma {:induction false} WakeAllLater(s: State, chain: seq<Link>)
    requires Ring(s.w) && WakeAll(s, chain).Ok?
    ensures Later(s.w, WakeAll(s, chain).value.w) && WakeAll(s, chain).value.q.now == s.q.now
    decreases |chain|
  {
    hide WakeOne, Later;
    if chain == [] {
      LaterSame(s.w, s.w);
    } else {
      WakeOneLater(s, chain[0]);
      WakeAllLater(WakeOne(s, chain[0]).value, chain[1..]);
      LaterTrans(s.w, WakeOne(s, chain[0]).value.w, WakeAll(s, chain).value.w);
    }
  }

  lemma BroadcastLater(s: State, slot: nat, i: nat)
    requires Sized(s) && slot < |s.w.st| && i < 2 && Broadcast(s, slot, i).Ok?
    ensures Later(s.w, Broadcast(s, slot, i).value.w) && Broadcast(s, slot, i).value.q.now == s.q.now
  {
    hide WakeAll, Later;
    var rs := s.w.st[slot];
    if rs.onames[i] == NA {
      LaterSame(s.w, s.w);
    } else {
      var w1 := Put(s.w, slot, rs.(odeps := rs.odeps[i := []]));
      var s1 := s.(v := ClearCreator(s.v, rs, slot, i), w := w1);
      LaterSame(s.w, w1);
      WakeAllLater(s1, rs.odeps[i]);
      LaterTrans(s.w, w1, WakeAll(s1, rs.odeps[i]).value.w);
    }
  }

  lemma CompleteLater(c: Config, s: State, slot: nat)
    requires Sized(s) && slot < |s.w.st| && Complete(c, s, slot).Ok?
    ensures var r := Complete(c, s, slot).value;
      Later(s.w, r.w) && r.q.now == s.q.now && (Live(r.w, slot) ==> r.w.st[slot].completed)
  {
    hide RecoverWindow, Broadcast, Later, RingPos;
    var rs := s.w.st[slot];
    var s1 := s.(w := Put(s.w, slot, rs.(completed := true)));
    if rs.recover {
      RecoverLater(s1, slot);
    } else {
      LaterSame(s1.w, s1.w);
    }
    var s2 := if rs.recover then Recover(c, s1, slot).value else s1;
    BroadcastLater(s2, slot, 0);
    var s3 := Broadcast(s2, slot, 0).value;
    LaterTrans(s1.w, s2.w, s3.w);
    BroadcastLater(s3, slot, 1);
    var r := Broadcast(s3, slot, 1).value;
    LaterTrans(s1.w, s3.w, r.w);
    LaterSame(s.w, s1.w);
    LaterTrans(s.w, s1.w, r.w);
    LaterCompleted(s1.w, r.w, slot);
  }

  lemma LaterCompleted(w: Window, w': Window, t: nat)
    requires Later(w, w') && t < |w.st| && w.st[t].completed
    ensures |w'.st| == |w.st| && (Live(w', t) ==> w'.st[t].completed)
  {
    hide RingPos;
  }

  /** Events that are not due stay, and none is added. */
  ghost predicate Popped(q: Queues, q': Queues) {
    && q'.now == q.now
    && (forall k :: 0 <= k < |q'.events| ==> q'.events[k] in q.events)
    && (forall k :: 0 <= k < |q.events| && q.events[k].x > q.now ==> q.events[k] in q'.events)
  }

  lemma PoppedTrans(q: Queues, q': Queues, q'': Queues)
    requires Popped(q, q') && Popped(q', q'')
    ensures Popped(q, q'')
  {
  }

  lemma {:induction false} PopEventPops(q: Queues, st: seq<Station>)
    ensures Popped(q, PopEvent(q, st).q)
    decreases |q.events|
  {
    if q.events == [] || q.events[0].x > q.now {
    } else {
      var q1 := FreeLink(q.(events := q.events[1..]), q.events[0]);
      assert forall k :: 0 < k < |q.events| ==> q.events[k] == q1.events[k - 1];
      assert Popped(q, q1);
      if !Valid(st, q.events[0]) {
        PopEventPops(q1, st);
        PoppedTrans(q, q1, PopEvent(q1, st).q);
      }
    }
  }

  /** Writeback loses no operation but the youngest, and no event but those due. */
  lemma {:induction false} WritebackLater(c: Config, s: State)
    requires Sized(s) && Writeback(c, s).Ok?
    ensures Later(s.w, Writeback(c, s).value.w) && Popped(s.q, Writeback(c, s).value.q)
    decreases |s.q.events|
  {
    hide Complete, PopEvent, Later, Popped;
    PopEventPops(s.q, s.w.st);
    match PopEvent(s.q, s.w.st)
    case NoEvent(_) => LaterSame(s.w, s.w);
    case Event(q1, l) =>
      var s1 := s.(q := q1);
      CompleteLater(c, s1, l.slot);
      var s2 := Complete(c, s1, l.slot).value;
      WritebackLater(c, s2);
      LaterTrans(s.w, s2.w, Writeback(c, s).value.w);
      SameEvents(q1, s2.q);
      PoppedTrans(s.q, q1, s2.q);
      PoppedTrans(s.q, s2.q, Writeback(c, s).value.q);
  }

  lemma SameEvents(q: Queues, q': Queues)
    requires q'.events == q.events && q'.now == q.now
    ensures Popped(q, q')
  {
  }

  // ---------------------------------------------------------------- dispatch

  /** The window may have got younger operations; those it had are untouched, and so are the events. */
  ghost predicate Fuller(s: State, s': State) {
    var w, w' := s.w, s'.w;
    && w'.nr == w.nr && w'.nl == w.nl && w'.rh == w.rh && w'.lh == w.lh && |w'.st| == |w.st| && w.rn <= w'.rn &&
      w.ln <= w'.ln
    && s'.q.events == s.q.events && s'.q.now == s.q.now
    && forall t :: Live(w, t) && 0 <= t < |w.st| ==>
         SameOp(w.st[t], w'.st[t]) && w'.st[t].issued == w.st[t].issued && w'.st[t].completed == w.st[t].completed
  }

  lemma FullerTrans(s: State, s': State, s'': State)
    requires Fuller(s, s') && Fuller(s', s'')
    ensures Fuller(s, s'')
  {
    var w, w', w'' := s.w, s'.w, s''.w;
    forall t | Live(w, t) && 0 <= t < |w.st|
      ensures SameOp(w.st[t], w''.st[t]) && w''.st[t].issued == w.st[t].issued &&
        w''.st[t].completed == w.st[t].completed
    {
      assert Live(w', t);
    }
    hide RingPos;
  }

  lemma FullerSame(s: State, s': State)
    requires SameRings(s.w, s'.w) && s'.q.events == s.q.events && s'.q.now == s.q.now
    requires forall t :: 0 <= t < |s.w.st| ==> var rs, rs' := s.w.st[t], s'.w.st[t];
      SameOp(rs, rs') && rs'.issued == rs.issued && rs'.completed == rs.completed
    ensures Fuller(s, s')
  {
    hide RingPos;
  }

  lemma AllocRuuFuller(s: State, kind: Kind, op: Op, pc: nat, next: nat, pred: nat)
    requires Sized(s) && s.w.rn < s.w.nr
    ensures Fuller(s, AllocRuu(s, kind, op, pc, next, pred))
  {
  }

  lemma AllocLsqFuller(s: State, kind: Kind, op: Op, pc: nat, next: nat, pred: nat, addr: nat)
    requires Sized(s) && s.w.ln < s.w.nl
    ensures Fuller(s, AllocLsq(s, kind, op, pc, next, pred, addr))
  {
  }

  lemma LinkFuller(s: State, slot: nat, j: nat, name: Reg)
    requires Sized(s) && slot < |s.w.st| && j < 3 && LinkIdep(s, slot, j, name).Ok?
    ensures Fuller(s, LinkIdep(s, slot, j, name).value)
  {
    hide Fuller;
    FullerSame(s, LinkIdep(s, slot, j, name).value);
  }

  lemma InstallFuller(s: State, slot: nat, i: nat, name: Reg)
    requires Sized(s) && slot < |s.w.st| && i < 2
    ensures Fuller(s, InstallOdep(s, slot, i, name))
  {
    hide Fuller;
    FullerSame(s, InstallOdep(s, slot, i, name));
  }

  lemma ConnectFuller(s: State, slot: nat, ins: Ins, outs: Outs)
    requires Sized(s) && slot < |s.w.st| && Connect(s, slot, ins, outs).Ok?
    ensures Fuller(s, Connect(s, slot, ins, outs).value)
  {
    hide LinkIdep, InstallOdep, Fuller;
    var s0 := LinkIdep(s, slot, 0, ins[0]).value;
    var s1 := LinkIdep(s0, slot, 1, ins[1]).value;
    var s2 := LinkIdep(s1, slot, 2, ins[2]).value;
    var s3 := InstallOdep(s2, slot, 0, outs[0]);
    LinkFuller(s, slot, 0, ins[0]);
    LinkFuller(s0, slot, 1, ins[1]);
    LinkFuller(s1, slot, 2, ins[2]);
    InstallFuller(s2, slot, 0, outs[0]);
    InstallFuller(s3, slot, 1, outs[1]);
    FullerTrans(s, s0, s1);
    FullerTrans(s, s1, s2);
    FullerTrans(s, s2, s3);
    FullerTrans(s, s3, InstallOdep(s3, slot, 1, outs[1]));
  }

  lemma EnqueueFuller(s: State, slot: nat)
    requires Sized(s) && slot < |s.w.st| && EnqueueIfReady(s, slot).Ok?
    ensures Fuller(s, EnqueueIfReady(s, slot).value)
  {
    hide InsertSorted, Fuller;
    FullerSame(s, EnqueueIfReady(s, slot).value);
  }

  lemma AluFuller(s: State, op: Op, pc: nat, eff: Effect, pred: nat)
    requires Sized(s) && s.w.rn < s.w.nr && AllocateAlu(s, op, pc, eff, pred).Ok?
    ensures Fuller(s, AllocateAlu(s, op, pc, eff, pred).value)
  {
    hide AllocRuu, Connect, EnqueueIfReady, Fuller;
    var s0 := AllocRuu(s, Alu, op, pc, eff.next, pred);
    var s1 := Connect(s0, s.w.rt, op.ins, op.outs).value;
    AllocRuuFuller(s, Alu, op, pc, eff.next, pred);
    ConnectFuller(s0, s.w.rt, op.ins, op.outs);
    EnqueueFuller(s1, s.w.rt);
    FullerTrans(s, s0, s1);
    FullerTrans(s, s1, EnqueueIfReady(s1, s.w.rt).value);
  }

  lemma HalvesFuller(s: State, op: Op, pc: nat, eff: Effect, pred: nat)
    requires Sized(s) && s.w.rn < s.w.nr && s.w.ln < s.w.nl && AllocateAddr(s, op, pc, eff, pred).Ok?
    requires AllocateAccess(AllocateAddr(s, op, pc, eff, pred).value, op, pc, eff, pred).Ok?
    ensures Fuller(s, AllocateAccess(AllocateAddr(s, op, pc, eff, pred).value, op, pc, eff, pred).value)
  {
    hide AllocRuu, AllocLsq, Connect, Fuller;
    var a0 := AllocRuu(s, Addr, op, pc, eff.next, pred);
    AllocRuuFuller(s, Addr, op, pc, eff.next, pred);
    ConnectFuller(a0, s.w.rt, [NA, op.ins[1], op.ins[2]], [DTMP, NA]);
    var s1 := AllocateAddr(s, op, pc, eff, pred).value;
    FullerTrans(s, a0, s1);
    var b0 := AllocLsq(s1, MemKind(op), op, pc, eff.next, pred, eff.addr);
    AllocLsqFuller(s1, MemKind(op), op, pc, eff.next, pred, eff.addr);
    ConnectFuller(b0, s1.w.nr + s1.w.lt, [op.ins[0], DTMP, NA], op.outs);
    FullerTrans(s, s1, b0);
    FullerTrans(s, b0, AllocateAccess(s1, op, pc, eff, pred).value);
  }

  lemma MemFuller(s: State, op: Op, pc: nat, eff: Effect, pred: nat)
    requires Sized(s) && s.w.rn < s.w.nr && s.w.ln < s.w.nl && AllocateMem(s, op, pc, eff, pred).Ok?
    ensures Fuller(s, AllocateMem(s, op, pc, eff, pred).value)
  {
    hide AllocateAddr, AllocateAccess, EnqueueIfReady, Fuller;
    HalvesFuller(s, op, pc, eff, pred);
    var s2 := AllocateAccess(AllocateAddr(s, op, pc, eff, pred).value, op, pc, eff, pred).value;
    var s3 := EnqueueIfReady(s2, s.w.rt).value;
    EnqueueFuller(s2, s.w.rt);
    FullerTrans(s, s2, s3);
    if op.mem.StoreOp? {
      EnqueueFuller(s3, s.w.nr + s.w.lt);
      FullerTrans(s, s3, EnqueueIfReady(s3, s.w.nr + s.w.lt).value);
    }
  }

  lemma FollowFuller(c: Config, s: State, s1: State, op: Op, eff: Effect)
    requires Sized(s) && Sized(s1) && |s1.w.st| == |s.w.st| && s.f.fq != [] && Follow(c, s, s1, op, eff).Next?
    ensures Fuller(s1, Follow(c, s, s1, op, eff).s)
  {
    hide Fuller;
    FullerSame(s1, Follow(c, s, s1, op, eff).s);
  }

  lemma DispatchOneFuller(c: Config, s: State)
    requires Sized(s) && DispatchOne(c, s).Next?
    ensures Fuller(s, DispatchOne(c, s).s)
  {
    hide AllocateAlu, AllocateMem, Follow, Fuller;
    var fe := s.f.fq[0];
    var op := c.decode(fe.ir);
    var eff := c.exec(fe.ir, fe.pc, Shown(s.f));
    var s1 := Admit(c, s, op, eff).value;
    if op.nop {
      FullerSame(s, s);
    } else if op.mem.NoMem? {
      AluFuller(s, op, fe.pc, eff, Carried(c, op, fe, eff));
    } else {
      MemFuller(s, op, fe.pc, eff, Carried(c, op, fe, eff));
    }
    FollowFuller(c, s, s1, op, eff);
    FullerTrans(s, s1, DispatchOne(c, s).s);
  }

  lemma {:induction false} DispatchFuller(c: Config, s: State, width: nat)
    requires Sized(s) && Dispatch(c, s, width).Ok?
    ensures Fuller(s, Dispatch(c, s, width).value)
    decreases width
  {
    hide DispatchOne, Fuller;
    if width == 0 || !DispatchOne(c, s).Next? {
      FullerSame(s, s);
    } else {
      DispatchOneFuller(c, s);
      DispatchFuller(c, DispatchOne(c, s).s, width - 1);
      FullerTrans(s, DispatchOne(c, s).s, Dispatch(c, s, width).value);
    }
  }
}
