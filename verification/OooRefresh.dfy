/**
 * lsq_refresh and the store-forwarding scan: a load is released exactly when no older store can
 * affect it, and forwarding then finds the right store.
 */
module OooRefresh {
  import opened OooTypes
  import opened OooStages
  import opened OooInv
  import opened OooFrames
  import opened OooQueues
  import opened OooIssue

  // ---------------------------------------------------------------- positions

  lemma LsqAt(w: Window, k: int)
    requires Ring(w) && 0 <= k < w.ln
    ensures LiveL(w, LsqSlot(w, k)) && RingPos(w.lh, w.nl, LsqSlot(w, k) - w.nr) == k
  {
  }

  lemma LsqPosition(w: Window, t: int)
    requires Ring(w) && LiveL(w, t)
    ensures var k := RingPos(w.lh, w.nl, t - w.nr); 0 <= k < w.ln && LsqSlot(w, k) == t
  {
  }

  /** In the LSQ, position and sequence number order operations alike. */
  lemma LsqOrder(w: Window, s: int, t: int)
    requires Ring(w) && OrderedLsq(w) && LiveL(w, s) && LiveL(w, t)
    ensures w.st[s].seqno < w.st[t].seqno <==> RingPos(w.lh, w.nl, s - w.nr) < RingPos(w.lh, w.nl, t - w.nr)
  {
    LsqPosition(w, s);
    LsqPosition(w, t);
  }

  // ---------------------------------------------------------------- what the scan knows

  function LsqStation(w: Window, k: nat): Station
    requires Ring(w) && k < w.ln
  {
    w.st[LsqSlot(w, k)]
  }

  /** Position of the last store to `a` among the first `k` LSQ entries, or -1. */
  ghost function LastStore(w: Window, a: nat, k: nat): (r: int)
    requires Ring(w) && k <= w.ln
    ensures -1 <= r < k
  {
    if k == 0 then -1
    else if LsqStation(w, k - 1).kind.Store? && LsqStation(w, k - 1).addr == a then k - 1
    else LastStore(w, a, k - 1)
  }

  lemma {:induction false} LastStoreIsLast(w: Window, a: nat, k: nat)
    requires Ring(w) && k <= w.ln
    ensures var r := LastStore(w, a, k);
      && (r >= 0 ==> LsqStation(w, r).kind.Store? && LsqStation(w, r).addr == a)
      && forall i :: r < i < k ==> !(LsqStation(w, i).kind.Store? && LsqStation(w, i).addr == a)
    decreases k
  {
    if k == 0 {
    } else {
      LastStoreIsLast(w, a, k - 1);
    }
  }

  /** The last store to `a` among the first `k` entries does not have its data yet. */
  ghost predicate DataUnknown(w: Window, a: nat, k: nat)
    requires Ring(w) && k <= w.ln
  {
    var i := LastStore(w, a, k);
    i >= 0 && !OpsReady(LsqStation(w, i))
  }

  /** Among the first `k` entries the bogus address zero has been recorded. */
  ghost predicate ZeroRecorded(w: Window, k: nat)
    requires Ring(w) && k <= w.ln
  {
    if k == 0 then false else
    var rs := LsqStation(w, k - 1);
    || ZeroRecorded(w, k - 1)
    || (rs.kind.Store? && (if OpsReady(rs) then rs.addr != 0 && DataUnknown(w, rs.addr, k - 1) else rs.addr == 0))
  }

  /** All stores among the first `k` entries have their address. */
  ghost predicate AddressesKnown(w: Window, k: nat)
    requires Ring(w) && k <= w.ln
  {
    forall i :: 0 <= i < k && LsqStation(w, i).kind.Store? ==> LsqStation(w, i).ready[1]
  }

  /** The recorded addresses say which stores still lack data. */
  ghost predicate Recorded(w: Window, k: nat, unknowns: seq<nat>)
    requires Ring(w) && k <= w.ln
  {
    forall a: nat :: a in unknowns <==> if a != 0 then DataUnknown(w, a, k) else ZeroRecorded(w, k)
  }

  /** The condition under which the scan releases the load at position `k`. */
  ghost predicate Released(w: Window, k: nat)
    requires Ring(w) && k < w.ln
  {
    var a := LsqStation(w, k).addr;
    AddressesKnown(w, k) && !(if a != 0 then DataUnknown(w, a, k) else ZeroRecorded(w, k))
  }

  lemma HideMembers(unknowns: seq<nat>, a: nat, b: nat)
    ensures b in Hide(unknowns, a) <==> if b == 0 then 0 in unknowns || (a in unknowns) else b != a && b in unknowns
  {
    var r := Hide(unknowns, a);
    if a in unknowns {
      var i :| 0 <= i < |unknowns| && unknowns[i] == a;
      assert r[i] == 0;
    }
    if b in unknowns && b != a {
      var i :| 0 <= i < |unknowns| && unknowns[i] == b;
      assert r[i] == b;
    }
    if b in r {
      var i :| 0 <= i < |r| && r[i] == b;
      assert unknowns[i] == b || unknowns[i] == a;
    }
  }

  lemma RecordStep(w: Window, k: nat, unknowns: seq<nat>)
    requires Ring(w) && k < w.ln && Recorded(w, k, unknowns)
    ensures !LsqStation(w, k).kind.Store? ==> Recorded(w, k + 1, unknowns)
    ensures LsqStation(w, k).kind.Store? && !OpsReady(LsqStation(w, k)) ==>
      Recorded(w, k + 1, unknowns + [LsqStation(w, k).addr])
    ensures LsqStation(w, k).kind.Store? && OpsReady(LsqStation(w, k)) ==>
      Recorded(w, k + 1, Hide(unknowns, LsqStation(w, k).addr))
  {
    var rs := LsqStation(w, k);
    if rs.kind.Store? && OpsReady(rs) {
      forall a: nat ensures a in Hide(unknowns, rs.addr) <==>
        if a != 0 then DataUnknown(w, a, k + 1) else ZeroRecorded(w, k + 1) {
        HideMembers(unknowns, rs.addr, a);
      }
    }
  }

  /** A data-unknown store to address zero leaves the address zero recorded. */
  lemma {:induction false} ZeroSound(w: Window, k: nat)
    requires Ring(w) && k <= w.ln && !ZeroRecorded(w, k)
    ensures !DataUnknown(w, 0, k)
    decreases k
  {
    if k == 0 {
    } else {
      ZeroSound(w, k - 1);
    }
  }

  /** Stores older than the load at position `k` are those before it. */
  lemma OlderStores(w: Window, k: nat, t: int)
    requires Ring(w) && OrderedLsq(w) && k < w.ln
    ensures OlderStore(w, t, LsqStation(w, k).seqno) <==>
      LiveL(w, t) && w.st[t].kind.Store? && RingPos(w.lh, w.nl, t - w.nr) < k
  {
    LsqAt(w, k);
    if LiveL(w, t) {
      LsqOrder(w, t, LsqSlot(w, k));
    }
  }

  lemma AddressesClear(w: Window, k: nat)
    requires Ring(w) && OrderedLsq(w) && k < w.ln
    ensures AddressesKnown(w, k) <==> forall t :: OlderStore(w, t, LsqStation(w, k).seqno) ==> w.st[t].ready[1]
  {
    var before := LsqStation(w, k).seqno;
    if AddressesKnown(w, k) {
      forall t | OlderStore(w, t, before) ensures w.st[t].ready[1] {
        OlderStores(w, k, t);
        LsqPosition(w, t);
        assert LsqStation(w, RingPos(w.lh, w.nl, t - w.nr)) == w.st[t];
      }
    }
    if forall t :: OlderStore(w, t, before) ==> w.st[t].ready[1] {
      forall i | 0 <= i < k && LsqStation(w, i).kind.Store? ensures LsqStation(w, i).ready[1] {
        LsqAt(w, i);
        OlderStores(w, k, LsqSlot(w, i));
      }
    }
  }

  /** The last store the scan saw is the youngest older store of the memory-order invariant. */
  lemma LastIsYoungest(w: Window, a: nat, k: nat, t: int)
    requires Ring(w) && OrderedLsq(w) && k < w.ln
    ensures YoungestStore(w, t, a, LsqStation(w, k).seqno) <==>
      LastStore(w, a, k) >= 0 && t == LsqSlot(w, LastStore(w, a, k))
  {
    var before := LsqStation(w, k).seqno;
    var i := LastStore(w, a, k);
    LastStoreIsLast(w, a, k);
    if YoungestStore(w, t, a, before) {
      OlderStores(w, k, t);
      LsqPosition(w, t);
      var j := RingPos(w.lh, w.nl, t - w.nr);
      assert LsqStation(w, j) == w.st[t];
      assert i >= j;
      LsqAt(w, i);
      OlderStores(w, k, LsqSlot(w, i));
      LsqOrder(w, t, LsqSlot(w, i));
    }
    if i >= 0 && t == LsqSlot(w, i) {
      LsqAt(w, i);
      OlderStores(w, k, t);
      forall u | OlderStore(w, u, before) && w.st[u].addr == a ensures w.st[u].seqno <= w.st[t].seqno {
        OlderStores(w, k, u);
        LsqPosition(w, u);
        assert LsqStation(w, RingPos(w.lh, w.nl, u - w.nr)) == w.st[u];
        LsqOrder(w, t, u);
      }
    }
  }

  /**
   * The load at position `k` is to address zero and the scan has left a zero among the addresses
   * it recorded, although the last store to address zero, if any, has its data.
   */
  ghost predicate HeldBack(w: Window, k: nat)
    requires Ring(w) && k < w.ln
  {
    LsqStation(w, k).addr == 0 && AddressesKnown(w, k) && ZeroRecorded(w, k) && !DataUnknown(w, 0, k)
  }

  /**
   * The scan releases a load only when no older store can affect it; it releases every such load
   * except one to address zero that a cancelled record holds back.
   */
  lemma ReleasedIsClear(w: Window, k: nat)
    requires Ring(w) && OrderedLsq(w) && k < w.ln
    ensures var rs := LsqStation(w, k);
      && (Released(w, k) ==> MemoryClear(w, rs.addr, rs.seqno))
      && (MemoryClear(w, rs.addr, rs.seqno) && !Released(w, k) <==> HeldBack(w, k))
  {
    var rs := LsqStation(w, k);
    AddressesClear(w, k);
    forall t ensures YoungestStore(w, t, rs.addr, rs.seqno) <==>
      LastStore(w, rs.addr, k) >= 0 && t == LsqSlot(w, LastStore(w, rs.addr, k))
    {
      LastIsYoungest(w, rs.addr, k, t);
    }
    if !ZeroRecorded(w, k) {
      ZeroSound(w, k);
    }
    hide YoungestStore, LastStore, ZeroRecorded, AddressesKnown, RingPos;
  }

  // ---------------------------------------------------------------- the scan

  lemma {:induction false} QuietLast(w: Window, w': Window, a: nat, k: nat)
    requires Ring(w) && Quiet(w, w') && k <= w.ln
    ensures LastStore(w', a, k) == LastStore(w, a, k) && (DataUnknown(w', a, k) <==> DataUnknown(w, a, k))
    decreases k
  {
    if k == 0 {
    } else {
      QuietLast(w, w', a, k - 1);
      assert LsqSlot(w', k - 1) == LsqSlot(w, k - 1);
    }
  }

  lemma {:induction false} QuietZero(w: Window, w': Window, k: nat)
    requires Ring(w) && Quiet(w, w') && k <= w.ln
    ensures ZeroRecorded(w', k) <==> ZeroRecorded(w, k)
    decreases k
  {
    if k == 0 {
    } else {
      QuietZero(w, w', k - 1);
      QuietLast(w, w', LsqStation(w, k - 1).addr, k - 1);
      hide DataUnknown;
    }
  }

  lemma QuietAddresses(w: Window, w': Window, k: nat)
    requires Ring(w) && Quiet(w, w') && k <= w.ln
    ensures AddressesKnown(w', k) <==> AddressesKnown(w, k)
  {
    forall i | 0 <= i < k ensures LsqStation(w', i).kind == LsqStation(w, i).kind &&
      LsqStation(w', i).ready == LsqStation(w, i).ready {
    }
    hide LsqStation;
  }

  lemma QuietScan(w: Window, w': Window, k: nat, unknowns: seq<nat>)
    requires Ring(w) && Quiet(w, w') && k <= w.ln
    ensures AddressesKnown(w', k) <==> AddressesKnown(w, k)
    ensures Recorded(w', k, unknowns) <==> Recorded(w, k, unknowns)
    ensures k < w.ln ==> (Released(w', k) <==> Released(w, k))
  {
    QuietAddresses(w, w', k);
    QuietZero(w, w', k);
    forall a: nat ensures DataUnknown(w', a, k) <==> DataUnknown(w, a, k) {
      QuietLast(w, w', a, k);
    }
    hide AddressesKnown, ZeroRecorded, DataUnknown;
  }

  /** The load at position `k` waits for nothing but the scan. */
  predicate Candidate(w: Window, k: nat)
    requires Ring(w) && k < w.ln
  {
    var rs := LsqStation(w, k);
    rs.kind.Load? && Waiting(rs) && OpsReady(rs)
  }

  /** The entry at position `i` after the scan: queued if it is a candidate that is released. */
  ghost function Rescanned(w: Window, i: nat): Station
    requires Ring(w) && i < w.ln
  {
    LsqStation(w, i).(queued := LsqStation(w, i).queued || (Candidate(w, i) && Released(w, i)))
  }

  /** From position `k` on, exactly the released candidates have been queued, and nothing else has changed. */
  ghost predicate Scanned(w: Window, k: nat, w': Window)
    requires Ring(w) && SameRings(w, w') && k <= w.ln
  {
    && (forall i :: k <= i < w.ln ==> LsqStation(w', i) == Rescanned(w, i))
    && (forall i :: 0 <= i < k ==> LsqStation(w', i) == LsqStation(w, i))
    && (forall t :: 0 <= t < w.nr ==> w'.st[t] == w.st[t])
  }

  /** Releasing the load at position `k`. */
  lemma ReleaseLoad(s: State, k: nat, unknowns: seq<nat>, from: nat)
    requires Ring(s.w) && OrderedLsq(s.w) && FlowOk(s.w, s.q, [], from) && k < s.w.ln
    requires AddressesKnown(s.w, k) && Recorded(s.w, k, unknowns)
    requires Candidate(s.w, k) && LsqStation(s.w, k).addr !in unknowns
    ensures match ReadyEnqueue(s, LsqSlot(s.w, k))
      case Panic(p) => p == OutOfLinks
      case Ok(r) => OnlyPhases(s, r) && FlowOk(r.w, r.q, [], from)
  {
    var slot := LsqSlot(s.w, k);
    LsqAt(s.w, k);
    ReleasedIsClear(s.w, k);
    EnqueueQuiet(s, slot);
    if ReadyEnqueue(s, slot).Ok? {
      EnqueueLife(s, [], slot);
      EnqueueFlow(s, slot);
      hide LifeOk, ProgressOk, LoadsOk, RingPos;
    }
  }

  /** What the scan has established about the entries before position `k`. */
  ghost predicate ScanOk(w: Window, k: nat, unknowns: seq<nat>)
    requires Ring(w) && k <= w.ln
  {
    AddressesKnown(w, k) && Recorded(w, k, unknowns) && |unknowns| <= k
  }

  lemma ScanOneOk(s: State, k: nat, unknowns: seq<nat>, from: nat)
    requires Ring(s.w) && OrderedLsq(s.w) && FlowOk(s.w, s.q, [], from) && k < s.w.ln && ScanOk(s.w, k, unknowns)
    ensures match ScanOne(s, k, unknowns)
      case Panic(p) => p == OutOfLinks || (p == StdUnknownOverflow && s.w.nl > MAX_STD_UNKNOWNS)
      case Ok(r) => OnlyPhases(s, r.s) && FlowOk(r.s.w, r.s.q, [], from)
  {
    hide FlowOk, OrderedLsq, AddressesKnown, Recorded, ReadyEnqueue, OnlyPhases, RingPos;
    SamePhases(s);
    if Candidate(s.w, k) && LsqStation(s.w, k).addr !in unknowns {
      ReleaseLoad(s, k, unknowns, from);
    }
  }

  lemma ScanOneKnows(s: State, k: nat, unknowns: seq<nat>)
    requires Ring(s.w) && k < s.w.ln && ScanOk(s.w, k, unknowns)
    requires ScanOne(s, k, unknowns).Ok? && Quiet(s.w, ScanOne(s, k, unknowns).value.s.w)
    ensures var r := ScanOne(s, k, unknowns).value; r.more ==> ScanOk(r.s.w, k + 1, r.unknowns)
  {
    hide Recorded, Quiet, RingPos;
    RecordStep(s.w, k, unknowns);
    var r := ScanOne(s, k, unknowns).value;
    if r.more {
      QuietScan(s.w, r.s.w, k + 1, r.unknowns);
      assert LsqStation(s.w, k).kind.Store? ==> LsqStation(s.w, k).ready[1];
      assert AddressesKnown(s.w, k + 1);
    }
  }

  lemma {:induction false} RefreshFromOk(s: State, k: nat, unknowns: seq<nat>, from: nat)
    requires Ring(s.w) && Ordered(s.w) && FlowOk(s.w, s.q, [], from) && k <= s.w.ln && ScanOk(s.w, k, unknowns)
    ensures match RefreshFrom(s, k, unknowns)
      case Panic(p) => p == OutOfLinks || (p == StdUnknownOverflow && s.w.nl > MAX_STD_UNKNOWNS)
      case Ok(r) => OnlyPhases(s, r) && FlowOk(r.w, r.q, [], from)
    decreases s.w.ln - k
  {
    hide FlowOk, OrderedRuu, OrderedLsq, Numbered, KindsOk, RingPos, ScanOk, ScanOne;
    if k < s.w.ln {
      ScanOneOk(s, k, unknowns, from);
      if ScanOne(s, k, unknowns).Ok? {
        var r := ScanOne(s, k, unknowns).value;
        ScanOneKnows(s, k, unknowns);
        QuietAlike(s.w, r.s.w);
        SameOrdered(s.w, r.s.w);
        if r.more {
          RefreshFromOk(r.s, k + 1, r.unknowns, from);
          if RefreshFrom(s, k, unknowns).Ok? {
            HandledTrans(s, r.s, RefreshFrom(r.s, k + 1, r.unknowns).value);
          }
        }
      }
    }
  }

  // ---------------------------------------------------------------- exactly which loads are queued

  lemma ScanOneSets(s: State, k: nat, unknowns: seq<nat>)
    requires Ring(s.w) && k < s.w.ln && ScanOk(s.w, k, unknowns) && ScanOne(s, k, unknowns).Ok?
    ensures var r := ScanOne(s, k, unknowns).value;
      && (forall t :: 0 <= t < |s.w.st| && t != LsqSlot(s.w, k) ==> r.s.w.st[t] == s.w.st[t])
      && LsqStation(r.s.w, k) == Rescanned(s.w, k)
      && (!r.more ==> !AddressesKnown(s.w, k + 1))
  {
    var rs := LsqStation(s.w, k);
    assert rs.addr in unknowns <==> if rs.addr != 0 then DataUnknown(s.w, rs.addr, k) else ZeroRecorded(s.w, k);
    hide DataUnknown, ZeroRecorded, RingPos;
    if !ScanOne(s, k, unknowns).value.more {
      assert !LsqStation(s.w, k).ready[1];
    }
  }

  lemma LsqSlotsDiffer(w: Window, i: nat, k: nat)
    requires Ring(w) && i < w.ln && k < w.ln && i != k
    ensures LsqSlot(w, i) != LsqSlot(w, k)
  {
  }

  lemma ScannedBack(w: Window, w1: Window, w2: Window, k: nat)
    requires Ring(w) && Quiet(w, w1) && SameRings(w1, w2) && k < w.ln && Scanned(w1, k + 1, w2)
    requires forall t :: 0 <= t < |w.st| && t != LsqSlot(w, k) ==> w1.st[t] == w.st[t]
    requires LsqStation(w1, k) == Rescanned(w, k)
    ensures Scanned(w, k, w2)
  {
    forall i | 0 <= i < w.ln && i != k ensures LsqStation(w1, i) == LsqStation(w, i) {
      LsqSlotsDiffer(w, i, k);
    }
    forall i | k < i < w.ln ensures Released(w1, i) <==> Released(w, i) {
      QuietScan(w, w1, i, []);
    }
    hide Released, Quiet, RingPos;
  }

  lemma {:induction false} RefreshScanned(s: State, k: nat, unknowns: seq<nat>, from: nat)
    requires Ring(s.w) && Ordered(s.w) && FlowOk(s.w, s.q, [], from) && k <= s.w.ln && ScanOk(s.w, k, unknowns)
    requires RefreshFrom(s, k, unknowns).Ok?
    ensures Scanned(s.w, k, RefreshFrom(s, k, unknowns).value.w)
    decreases s.w.ln - k
  {
    hide FlowOk, OrderedRuu, OrderedLsq, Numbered, KindsOk, RingPos, ScanOk, ScanOne, Released, Candidate;
    if k < s.w.ln {
      ScanOneOk(s, k, unknowns, from);
      ScanOneSets(s, k, unknowns);
      var r := ScanOne(s, k, unknowns).value;
      ScanOneKnows(s, k, unknowns);
      QuietAlike(s.w, r.s.w);
      SameOrdered(s.w, r.s.w);
      if r.more {
        RefreshScanned(r.s, k + 1, r.unknowns, from);
      } else {
        forall i | k < i < s.w.ln ensures !Released(s.w, i) && !Released(r.s.w, i) {
          BlockedBeyond(s.w, k, i);
          QuietScan(s.w, r.s.w, i, []);
        }
        ScanStops(r.s.w, k);
      }
      ScannedBack(s.w, r.s.w, RefreshFrom(s, k, unknowns).value.w, k);
    }
  }

  lemma BlockedBeyond(w: Window, k: nat, i: nat)
    requires Ring(w) && k < i < w.ln && !AddressesKnown(w, k + 1)
    ensures !Released(w, i)
  {
  }

  lemma ScanStops(w: Window, k: nat)
    requires Ring(w) && k < w.ln
    requires forall i :: k < i < w.ln ==> !Released(w, i)
    ensures Scanned(w, k + 1, w)
  {
    hide Released, RingPos;
  }

  // ---------------------------------------------------------------- links, and the stage as a whole

  lemma ScanLinks(s: State, k: nat, unknowns: seq<nat>, id: nat)
    requires Ring(s.w) && k < s.w.ln && ScanOne(s, k, unknowns).Ok?
    ensures var r := ScanOne(s, k, unknowns).value.s; LinkCnt(r.w, r.q, id) == LinkCnt(s.w, s.q, id)
  {
    hide LinkCnt, RingPos, ReadyEnqueue;
    if Candidate(s.w, k) && LsqStation(s.w, k).addr !in unknowns {
      EnqueueLinks(s, LsqSlot(s.w, k), id);
    }
  }

  lemma {:induction false} RefreshLinks(s: State, k: nat, unknowns: seq<nat>, id: nat)
    requires Ring(s.w) && k <= s.w.ln && RefreshFrom(s, k, unknowns).Ok?
    ensures var r := RefreshFrom(s, k, unknowns).value; LinkCnt(r.w, r.q, id) == LinkCnt(s.w, s.q, id)
    decreases s.w.ln - k
  {
    hide LinkCnt, RingPos, ScanOne;
    if k < s.w.ln {
      ScanLinks(s, k, unknowns, id);
      var r := ScanOne(s, k, unknowns).value;
      if r.more {
        RefreshLinks(r.s, k + 1, r.unknowns, id);
      }
    }
  }

  /**
   * lsq_refresh keeps the core invariant and queues exactly the waiting loads it should; with at
   * most 64 LSQ entries only an empty link pool can stop it.
   */
  lemma RefreshOk(c: Config, s: State, from: nat)
    requires CoreOk(c, s, from)
    ensures match Refresh(s)
      case Panic(p) => p == OutOfLinks || (p == StdUnknownOverflow && s.w.nl > MAX_STD_UNKNOWNS)
      case Ok(r) => CoreOk(c, r, from) && OnlyPhases(s, r) && Scanned(s.w, 0, r.w)
  {
    assert Sized(s) && Ordered(s.w) && FlowOk(s.w, s.q, [], from);
    hide CoreOk, FlowOk, Ordered, LinkCnt, RingPos, RefreshFrom, Scanned;
    assert ScanOk(s.w, 0, []);
    RefreshFromOk(s, 0, [], from);
    if Refresh(s).Ok? {
      var r := Refresh(s).value;
      RefreshScanned(s, 0, [], from);
      forall id: nat ensures LinkCnt(r.w, r.q, id) == LinkCnt(s.w, s.q, id) {
        RefreshLinks(s, 0, [], id);
      }
      PhasesCore(c, s, r, from, from);
    }
  }

  // ---------------------------------------------------------------- store forwarding

  lemma {:induction false} ForwardIsLast(w: Window, k: nat, a: nat)
    requires Ring(w) && k < w.ln
    ensures Forward(w, Wrap(w.lh + k, w.nl), a) ==
      if LastStore(w, a, k) >= 0 then Found(LsqSlot(w, LastStore(w, a, k))) else NotFound
    decreases k
  {
    if k == 0 {
    } else {
      assert Wrap(Wrap(w.lh + k, w.nl) + w.nl - 1, w.nl) == Wrap(w.lh + (k - 1), w.nl);
      ForwardIsLast(w, k - 1, a);
    }
  }

  /**
   * For a load that is queued or executing, the forwarding scan finds a store iff there is an
   * older store to the same address, and then it finds the youngest one, which has its data.
   */
  lemma ForwardingIsExact(w: Window, load: int, t: nat)
    requires Ring(w) && OrderedLsq(w) && LoadsOk(w)
    requires LiveL(w, load) && w.st[load].kind.Load? && (w.st[load].queued || w.st[load].issued)
    ensures Forward(w, load - w.nr, w.st[load].addr) == Found(t) <==>
      YoungestStore(w, t, w.st[load].addr, w.st[load].seqno)
    ensures Forward(w, load - w.nr, w.st[load].addr) == Found(t) ==> OpsReady(w.st[t])
  {
    hide YoungestStore, Forward, LastStore, RingPos, OrderedLsq, MemoryClear;
    LsqPosition(w, load);
    var k := RingPos(w.lh, w.nl, load - w.nr);
    ForwardIsLast(w, k, w.st[load].addr);
    LastIsYoungest(w, w.st[load].addr, k, t);
    ForwardedHasData(w, load, t);
  }

  lemma ForwardedHasData(w: Window, load: int, t: int)
    requires Ring(w) && LoadsOk(w)
    requires LiveL(w, load) && w.st[load].kind.Load? && (w.st[load].queued || w.st[load].issued)
    ensures YoungestStore(w, t, w.st[load].addr, w.st[load].seqno) ==> OpsReady(w.st[t])
  {
    hide YoungestStore, RingPos;
    assert MemoryClear(w, w.st[load].addr, w.st[load].seqno);
  }
}
