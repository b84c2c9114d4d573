/**
 * Whole runs of the cache: it is transparent, it loses no block, and it stops exactly where an
 * access is malformed or meets the missing check for block zero.
 */
module CacheRuns {
  import opened Common
  import opened CacheModel
  import opened CacheProofs

  datatype Op = Use(addr: nat, cmd: Cmd, random: nat) | FlushOne(addr: nat) | FlushAll

  /** One operation; flushes read nothing. */
  function Step(g: Geometry, c: Cache, op: Op): Result
    requires Sized(g, c)
  {
    match op
    case Use(addr, cmd, random) => Access(g, c, addr, cmd, random)
    case FlushOne(addr) => Done(FlushAddr(g, c, addr), [], false, None)
    case FlushAll => Done(Flush(g, c), [], false, None)
  }

  datatype Outcome = Ran(c: Cache, outs: seq<seq<int>>) | Stopped(error: Error)

  /** The outcome of a run that first read `outs`. */
  function After(outs: seq<seq<int>>, r: Outcome): Outcome {
    match r
    case Ran(c, more) => Ran(c, outs + more)
    case Stopped(_) => r
  }

  /** A sequence of operations, up to the first that fails. */
  function Run(g: Geometry, c: Cache, ops: seq<Op>): (r: Outcome)
    requires CacheOk(g, c)
    ensures r.Ran? ==> CacheOk(g, r.c)
    decreases |ops|
  {
    if ops == [] then Ran(c, []) else
    StepOk(g, c, ops[0]);
    match Step(g, c, ops[0])
    case Fatal(e) => Stopped(e)
    case Done(c1, out, _, _) => After([out], Run(g, c1, ops[1..]))
  }

  lemma OkSized(g: Geometry, c: Cache)
    requires CacheOk(g, c)
    ensures Sized(g, c) && g.Valid() && |c.sets| == g.nsets
  {
  }

  /** Every operation that does not fail keeps the cache good. */
  lemma StepOk(g: Geometry, c: Cache, op: Op)
    requires CacheOk(g, c)
    ensures Sized(g, c) && (Step(g, c, op).Done? ==> CacheOk(g, Step(g, c, op).c))
  {
    hide CacheOk, Access, FlushAddr, Flush, Sized, Misuse, Probe, Content, Serves;
    OkSized(g, c);
    match op
    case Use(addr, cmd, random) =>
      if Access(g, c, addr, cmd, random).Done? {
        UseFits(g, c, addr, cmd, random);
        AccessOk(g, c, addr, cmd, random);
      }
    case FlushOne(addr) => FlushAddrOk(g, c, addr);
    case FlushAll => FlushOk(g, c);
  }

  // ---------------------------------------------------------------- byte-addressed memory

  /** Plain memory: a byte at every address. */
  type Memory = nat -> int

  function Stored(m: Memory, addr: nat, bytes: seq<int>): Memory {
    (a: nat) => if addr <= a < addr + |bytes| then bytes[a - addr] else m(a)
  }

  function Loaded(m: Memory, addr: nat, n: nat): seq<int> {
    seq(n, k requires 0 <= k < n => m(addr + k))
  }

  /** The operation on plain memory: flushes do nothing. */
  function FlatStep(m: Memory, op: Op): Memory {
    match op
    case Use(addr, Write(bytes), _) => Stored(m, addr, bytes)
    case _ => m
  }

  function FlatOut(m: Memory, op: Op): seq<int> {
    match op
    case Use(addr, Read(n), _) => Loaded(m, addr, n)
    case _ => []
  }

  /** Plain memory after a sequence of operations. */
  function FlatRun(m: Memory, ops: seq<Op>): Memory
    decreases |ops|
  {
    if ops == [] then m else FlatRun(FlatStep(m, ops[0]), ops[1..])
  }

  /** What a sequence of operations on plain memory reads. */
  function FlatOuts(m: Memory, ops: seq<Op>): seq<seq<int>>
    decreases |ops|
  {
    if ops == [] then [] else [FlatOut(m, ops[0])] + FlatOuts(FlatStep(m, ops[0]), ops[1..])
  }

  // ---------------------------------------------------------------- bytes of blocks

  ghost predicate MemFits(g: Geometry, mem: map<nat, seq<int>>) {
    forall bn :: bn in mem ==> |mem[bn]| == g.bsize
  }

  function ByteOf(data: seq<int>, k: nat): int {
    if k < |data| then data[k] else 0
  }

  /** Memory kept by blocks, seen as plain memory. */
  function Backing(g: Geometry, mem: map<nat, seq<int>>): Memory
    requires g.Valid()
  {
    (a: nat) => ByteOf(MemBlock(g, mem, BlockNo(g, a)), Offset(g, a))
  }

  /** The byte the cache shows at `a`. */
  function ByteAt(g: Geometry, c: Cache, a: nat): int
    requires Sized(g, c)
  {
    ByteOf(Content(g, c, BlockNo(g, a)), Offset(g, a))
  }

  /** The cache shows exactly what plain memory holds. */
  ghost predicate Shows(g: Geometry, c: Cache, m: Memory)
    requires Sized(g, c)
  {
    forall a: nat :: ByteAt(g, c, a) == m(a)
  }

  /** The `n` bytes from `addr` are the bytes of its block from its offset. */
  lemma SameBytes(g: Geometry, addr: nat, n: nat, a: nat)
    requires g.Valid() && Offset(g, addr) + n <= g.bsize
    ensures addr <= a < addr + n <==>
      BlockNo(g, a) == BlockNo(g, addr) && Offset(g, addr) <= Offset(g, a) < Offset(g, addr) + n
    ensures BlockNo(g, a) == BlockNo(g, addr) ==> a - addr == Offset(g, a) - Offset(g, addr)
  {
    var q := BlockNo(g, addr);
    assert addr == q * g.bsize + Offset(g, addr);
    assert a == BlockNo(g, a) * g.bsize + Offset(g, a);
    if addr <= a < addr + n {
      DivMul(q, g.bsize, a - q * g.bsize);
    }
  }

  lemma LoadedAt(g: Geometry, c: Cache, m: Memory, addr: nat, n: nat, k: nat)
    requires Sized(g, c) && Shows(g, c, m) && Offset(g, addr) + n <= g.bsize && k < n
    ensures |Content(g, c, BlockNo(g, addr))| == g.bsize
    ensures Content(g, c, BlockNo(g, addr))[Offset(g, addr) + k] == m(addr + k)
  {
    hide BlockNo, Offset, Content;
    ContentFits(g, c, BlockNo(g, addr));
    SameBytes(g, addr, n, addr + k);
    assert ByteAt(g, c, addr + k) == m(addr + k);
  }

  lemma LoadedIs(g: Geometry, c: Cache, m: Memory, addr: nat, n: nat)
    requires Sized(g, c) && Shows(g, c, m) && Offset(g, addr) + n <= g.bsize
    ensures |Content(g, c, BlockNo(g, addr))| == g.bsize
    ensures Content(g, c, BlockNo(g, addr))[Offset(g, addr)..Offset(g, addr) + n] == Loaded(m, addr, n)
  {
    hide BlockNo, Offset, Content, Shows;
    ContentFits(g, c, BlockNo(g, addr));
    var part := Content(g, c, BlockNo(g, addr))[Offset(g, addr)..Offset(g, addr) + n];
    forall k | 0 <= k < n ensures part[k] == Loaded(m, addr, n)[k] {
      LoadedAt(g, c, m, addr, n, k);
    }
  }

  /** A block after a write, byte by byte. */
  lemma StoredIs(g: Geometry, data: seq<int>, m: Memory, addr: nat, bytes: seq<int>, a: nat)
    requires g.Valid() && Offset(g, addr) + |bytes| <= |data| == g.bsize
    requires BlockNo(g, a) == BlockNo(g, addr) && ByteOf(data, Offset(g, a)) == m(a)
    ensures ByteOf(Splice(data, Offset(g, addr), bytes), Offset(g, a)) == Stored(m, addr, bytes)(a)
  {
    SameBytes(g, addr, |bytes|, a);
    hide BlockNo, Offset;
  }

  lemma OtherBytes(g: Geometry, m: Memory, addr: nat, bytes: seq<int>, a: nat)
    requires g.Valid() && Offset(g, addr) + |bytes| <= g.bsize && BlockNo(g, a) != BlockNo(g, addr)
    ensures Stored(m, addr, bytes)(a) == m(a)
  {
    SameBytes(g, addr, |bytes|, a);
    hide BlockNo, Offset;
  }

  /** One access to the cache is the same access to plain memory. */
  lemma ServesShows(g: Geometry, c: Cache, op: Op, r: Result, m: Memory)
    requires Sized(g, c) && op.Use? && Offset(g, op.addr) + Bytes(op.cmd) <= g.bsize && Shows(g, c, m)
    requires Serves(g, c, BlockNo(g, op.addr), Offset(g, op.addr), op.cmd, r)
    ensures r.Done? && Sized(g, r.c) && Shows(g, r.c, FlatStep(m, op)) && r.out == FlatOut(m, op)
  {
    assert g.Valid();
    hide Content, BlockNo, Offset, Sized, Splice, Stored, Loaded;
    var bn := BlockNo(g, op.addr);
    ContentFits(g, c, bn);
    match op.cmd
    case Read(n) => LoadedIs(g, c, m, op.addr, n);
    case Write(bytes) =>
      forall a: nat ensures ByteAt(g, r.c, a) == FlatStep(m, op)(a) {
        assert ByteAt(g, c, a) == m(a);
        if BlockNo(g, a) == bn {
          StoredIs(g, Content(g, c, bn), m, op.addr, bytes, a);
        } else {
          OtherBytes(g, m, op.addr, bytes, a);
        }
      }
  }

  // ---------------------------------------------------------------- well-formed accesses

  function Pow2(k: nat): (r: nat)
    ensures r > k
  {
    if k == 0 then 1 else 2 * Pow2(k - 1)
  }

  ghost predicate IsPow2(n: nat) { exists k: nat :: n == Pow2(k) }

  ghost predicate Multiple(addr: nat, n: nat) { exists m: nat :: addr == m * n }

  /** The size is a power of two that divides the address; zero is taken at address zero. */
  ghost predicate Aligned(addr: nat, n: nat) {
    if n == 0 then addr == 0 else IsPow2(n) && Multiple(addr, n)
  }

  /** No byte of the access is in another block than the first. */
  ghost predicate InOneBlock(g: Geometry, addr: nat, n: nat)
    requires g.Valid()
  {
    forall a: nat :: addr <= a < addr + n ==> BlockNo(g, a) == BlockNo(g, addr)
  }

  lemma {:induction false} PowerOfTwoIs(n: nat)
    ensures PowerOfTwo(n) <==> IsPow2(n)
  {
    if n == 0 {
    } else if n == 1 {
      assert n == Pow2(0);
    } else {
      PowerOfTwoIs(n / 2);
      if PowerOfTwo(n) {
        var k: nat :| n / 2 == Pow2(k);
        assert n == Pow2(k + 1);
      }
      if k: nat :| n == Pow2(k) {
        assert n == 2 * Pow2(k - 1);
        assert n / 2 == Pow2(k - 1) && n % 2 == 0;
      }
    }
  }

  lemma Divides(addr: nat, n: nat)
    requires n > 0
    ensures addr % n == 0 <==> Multiple(addr, n)
  {
    if addr % n == 0 {
      assert addr == (addr / n) * n;
    }
    if m: nat :| addr == m * n {
      DivMul(m, n, 0);
    }
  }

  lemma OneBlockIs(g: Geometry, addr: nat, n: nat)
    requires g.Valid()
    ensures InOneBlock(g, addr, n) <==> n == 0 || Offset(g, addr) + n <= g.bsize
  {
    if Offset(g, addr) + n <= g.bsize {
      forall a: nat | addr <= a < addr + n ensures BlockNo(g, a) == BlockNo(g, addr) {
        SameBytes(g, addr, n, a);
      }
    } else if n > 0 {
      var last := addr + n - 1;
      assert addr == BlockNo(g, addr) * g.bsize + Offset(g, addr);
      assert last == BlockNo(g, last) * g.bsize + Offset(g, last);
      assert BlockNo(g, last) != BlockNo(g, addr);
    }
  }

  /**
   * The checks of cache_access refuse exactly the accesses whose size is not a power of two that
   * divides the address, and of the others exactly those that leave their block.
   */
  lemma ChecksAreExact(g: Geometry, addr: nat, n: nat)
    requires g.Valid()
    ensures Misuse(g, addr, n) == Some(BadAccess) <==> !Aligned(addr, n)
    ensures Misuse(g, addr, n) == Some(SpansBlock) <==> Aligned(addr, n) && !InOneBlock(g, addr, n)
    ensures Misuse(g, addr, n) == None <==> Aligned(addr, n) && InOneBlock(g, addr, n)
  {
    hide BlockNo, Offset, PowerOfTwo, IsPow2, Multiple, InOneBlock;
    OneBlockIs(g, addr, n);
    if n > 0 {
      PowerOfTwoIs(n);
      Divides(addr, n);
    }
  }

  // ---------------------------------------------------------------- transparency

  lemma UseFits(g: Geometry, c: Cache, addr: nat, cmd: Cmd, random: nat)
    requires Sized(g, c) && Access(g, c, addr, cmd, random).Done?
    ensures Misuse(g, addr, Bytes(cmd)).None?
  {
    hide Misuse, Lookup, Hit;
  }

  /** The operation is one that a cache of this geometry takes. */
  ghost predicate Fits(g: Geometry, op: Op)
    requires g.Valid()
  {
    op.Use? ==> Aligned(op.addr, Bytes(op.cmd)) && InOneBlock(g, op.addr, Bytes(op.cmd))
  }

  lemma UseShows(g: Geometry, c: Cache, op: Op, m: Memory)
    requires CacheOk(g, c) && op.Use? && Sized(g, c) && Shows(g, c, m) && Step(g, c, op).Done?
    ensures var r := Step(g, c, op);
      Fits(g, op) && CacheOk(g, r.c) && Shows(g, r.c, FlatStep(m, op)) && r.out == FlatOut(m, op)
  {
    hide CacheOk, Access, Sized, Misuse, Serves, Shows, FlatStep, FlatOut, Aligned, InOneBlock;
    OkSized(g, c);
    UseFits(g, c, op.addr, op.cmd, op.random);
    ChecksAreExact(g, op.addr, Bytes(op.cmd));
    AccessOk(g, c, op.addr, op.cmd, op.random);
    ServesShows(g, c, op, Step(g, c, op), m);
  }

  lemma SameShows(g: Geometry, c: Cache, c': Cache, m: Memory)
    requires Sized(g, c) && Sized(g, c') && Shows(g, c, m)
    requires forall bn: nat :: Content(g, c', bn) == Content(g, c, bn)
    ensures Shows(g, c', m)
  {
    hide Content, Sized;
    forall a: nat ensures ByteAt(g, c', a) == m(a) {
      assert ByteAt(g, c, a) == m(a);
    }
  }

  /** One operation on the cache is the same operation on plain memory. */
  lemma StepShows(g: Geometry, c: Cache, op: Op, m: Memory)
    requires CacheOk(g, c) && Sized(g, c) && Shows(g, c, m) && Step(g, c, op).Done?
    ensures var r := Step(g, c, op);
      Fits(g, op) && CacheOk(g, r.c) && Shows(g, r.c, FlatStep(m, op)) && r.out == FlatOut(m, op)
  {
    hide CacheOk, Access, FlushAddr, Flush, Sized, Misuse, Probe, Content, Shows;
    OkSized(g, c);
    match op
    case Use(_, _, _) => UseShows(g, c, op, m);
    case FlushOne(addr) =>
      FlushAddrOk(g, c, addr);
      OkSized(g, FlushAddr(g, c, addr));
      SameShows(g, c, FlushAddr(g, c, addr), m);
    case FlushAll =>
      FlushOk(g, c);
      OkSized(g, Flush(g, c));
      SameShows(g, c, Flush(g, c), m);
  }

  /** All operations fit, and the run reads and shows what plain memory does. */
  ghost predicate Transparent(g: Geometry, m: Memory, ops: seq<Op>, r: Outcome)
    requires r.Ran?
  {
    && Sized(g, r.c) && (forall k :: 0 <= k < |ops| ==> Fits(g, ops[k]))
    && r.outs == FlatOuts(m, ops) && Shows(g, r.c, FlatRun(m, ops))
  }

  lemma {:induction false} RunShows(g: Geometry, c: Cache, m: Memory, ops: seq<Op>)
    requires CacheOk(g, c) && Sized(g, c) && Shows(g, c, m) && Run(g, c, ops).Ran?
    ensures Transparent(g, m, ops, Run(g, c, ops))
    decreases |ops|
  {
    hide CacheOk, Shows, Step, FlatStep, FlatOut, Fits, Sized;
    OkSized(g, c);
    if ops == [] {
    } else {
      var c1 := Step(g, c, ops[0]).c;
      StepShows(g, c, ops[0], m);
      OkSized(g, c1);
      RunShows(g, c1, FlatStep(m, ops[0]), ops[1..]);
      assert forall k :: 1 <= k < |ops| ==> ops[k] == ops[1..][k - 1];
    }
  }

  // ---------------------------------------------------------------- from the start

  lemma {:induction false} NoneValid(sets: seq<Set>)
    requires forall i :: 0 <= i < |sets| ==> Emptied(sets[i])
    ensures TotalValid(sets) == 0
  {
    if sets == [] {
    } else {
      NoneCounted(sets[0].lines);
      NoneValid(sets[1..]);
    }
  }

  lemma {:induction false} NoneCounted(lines: seq<Line>)
    requires forall b :: 0 <= b < |lines| ==> !lines[b].valid
    ensures CountValid(lines) == 0
  {
    if lines == [] {
    } else {
      NoneCounted(lines[1..]);
    }
  }

  lemma InitialSet(g: Geometry, mem: map<nat, seq<int>>, i: nat)
    requires g.Valid() && i < g.nsets
    ensures var s := Initial(g, mem).sets[i]; GoodSet(g, s, i, mem) && Emptied(s) && Shaped(g, s)
  {
    var s := Initial(g, mem).sets[i];
    forall b | 0 <= b < g.assoc ensures b in s.ways {
      assert s.ways[g.assoc - 1 - b] == b;
    }
  }

  /** A new cache is good and shows the memory behind it. */
  lemma InitialOk(g: Geometry, mem: map<nat, seq<int>>)
    requires g.Valid() && MemFits(g, mem)
    ensures CacheOk(g, Initial(g, mem)) && Shows(g, Initial(g, mem), Backing(g, mem))
  {
    var c := Initial(g, mem);
    forall i | 0 <= i < g.nsets ensures GoodSet(g, c.sets[i], i, mem) && Emptied(c.sets[i]) && Shaped(g, c.sets[i]) {
      InitialSet(g, mem, i);
    }
    NoneValid(c.sets);
    assert c.mem == mem && |c.sets| == g.nsets && c.lastBase == 0 && c.lastBlk == None;
    hide GoodSet, Shaped, Emptied, Initial, TotalValid;
    FlushedMem(g, c);
    hide Content, MemBlock;
  }

  /** A run from a new cache over the memory `mem`. */
  function FromStart(g: Geometry, mem: map<nat, seq<int>>, ops: seq<Op>): (r: Outcome)
    requires g.Valid() && MemFits(g, mem)
    ensures r.Ran? ==> CacheOk(g, r.c)
  {
    InitialOk(g, mem);
    Run(g, Initial(g, mem), ops)
  }

  /**
   * The write-back cache is transparent: whatever sequence of reads, writes and flushes runs on it,
   * under any replacement policy, it reads what plain memory would.
   */
  lemma CacheIsTransparent(g: Geometry, mem: map<nat, seq<int>>, ops: seq<Op>)
    requires g.Valid() && MemFits(g, mem) && FromStart(g, mem, ops).Ran?
    ensures Transparent(g, Backing(g, mem), ops, FromStart(g, mem, ops))
  {
    hide Run, Initial, CacheOk, Transparent, Shows;
    InitialOk(g, mem);
    OkSized(g, Initial(g, mem));
    RunShows(g, Initial(g, mem), Backing(g, mem), ops);
  }

  /** ... and a flush after it leaves in memory what plain memory holds. */
  lemma FlushLeavesMemory(g: Geometry, mem: map<nat, seq<int>>, ops: seq<Op>, a: nat)
    requires g.Valid() && MemFits(g, mem) && FromStart(g, mem, ops).Ran?
    ensures Sized(g, FromStart(g, mem, ops).c)
    ensures Backing(g, Flush(g, FromStart(g, mem, ops).c).mem)(a) == FlatRun(Backing(g, mem), ops)(a)
  {
    hide CacheOk, Flush, MemBlock, Content, FlatRun, FromStart, Fits;
    var r := FromStart(g, mem, ops);
    CacheIsTransparent(g, mem, ops);
    FlushOk(g, r.c);
    assert ByteAt(g, r.c, a) == FlatRun(Backing(g, mem), ops)(a);
  }

  /** In every run the valid blocks are the misses less the replacements and invalidations. */
  lemma BlocksBalance(g: Geometry, mem: map<nat, seq<int>>, ops: seq<Op>)
    requires g.Valid() && MemFits(g, mem) && FromStart(g, mem, ops).Ran?
    ensures var c := FromStart(g, mem, ops).c;
      TotalValid(c.sets) == c.stats.misses - c.stats.replacements - c.stats.invalidations
  {
    hide FromStart;
    assert CacheOk(g, FromStart(g, mem, ops).c);
  }

  // ---------------------------------------------------------------- when a run stops

  /** The operation fails with `e`: it is malformed, or it meets block zero when no block was the last to hit. */
  ghost predicate Fails(g: Geometry, c: Cache, op: Op, e: Error)
    requires g.Valid()
  {
    && op.Use?
    && match e
       case BadAccess => !Aligned(op.addr, Bytes(op.cmd))
       case SpansBlock => Aligned(op.addr, Bytes(op.cmd)) && !InOneBlock(g, op.addr, Bytes(op.cmd))
       case NullBlock => Fits(g, op) && BlockNo(g, op.addr) == 0 && c.lastBlk.None?
  }

  lemma StepFails(g: Geometry, c: Cache, op: Op)
    requires CacheOk(g, c) && Sized(g, c)
    ensures forall e :: Fails(g, c, op, e) <==> Step(g, c, op) == Fatal(e)
  {
    hide CacheOk, Lookup, FlushAddr, Flush, Misuse, Aligned, InOneBlock;
    if op.Use? {
      ChecksAreExact(g, op.addr, Bytes(op.cmd));
      if Misuse(g, op.addr, Bytes(op.cmd)).None? {
        FastPathIsExact(g, c, op.addr, op.cmd, op.random);
        LookupReports(g, c, op.addr, op.cmd, op.random);
        hide Access;
      }
    }
  }

  /** A run stops exactly at the first operation that fails. */
  lemma {:induction false} RunStops(g: Geometry, c: Cache, ops: seq<Op>, e: Error)
    requires CacheOk(g, c) && g.Valid()
    ensures Run(g, c, ops) == Stopped(e) <==>
      exists k :: 0 <= k < |ops| && Run(g, c, ops[..k]).Ran? && Fails(g, Run(g, c, ops[..k]).c, ops[k], e)
    decreases |ops|
  {
    hide CacheOk, Fails, Sized;
    if ops == [] {
    } else {
      StepOk(g, c, ops[0]);
      StepFails(g, c, ops[0]);
      assert ops[..0] == [];
      match Step(g, c, ops[0])
      case Fatal(_) =>
        forall k | 0 < k < |ops| ensures Run(g, c, ops[..k]).Stopped? {
          assert ops[..k][0] == ops[0];
        }
      case Done(c1, _, _, _) =>
        RunStops(g, c1, ops[1..], e);
        forall k | 0 < k < |ops| ensures ops[k] == ops[1..][k - 1] && ops[..k][1..] == ops[1..][..k - 1] {
        }
    }
  }

  /** cache_probe says whether the next access, if it does not fail, will hit. */
  lemma ProbePredicts(g: Geometry, c: Cache, addr: nat, cmd: Cmd, random: nat)
    requires CacheOk(g, c) && Access(g, c, addr, cmd, random).Done?
    ensures Sized(g, c) && (Access(g, c, addr, cmd, random).hit <==> Probe(g, c, addr))
  {
    hide CacheOk, Access, Find, Misuse, Sized, Hit, Miss;
    OkSized(g, c);
    UseFits(g, c, addr, cmd, random);
    FastPathIsExact(g, c, addr, cmd, random);
    LookupReports(g, c, addr, cmd, random);
  }

  lemma LookupReports(g: Geometry, c: Cache, addr: nat, cmd: Cmd, random: nat)
    requires Sized(g, c) && Misuse(g, addr, Bytes(cmd)).None?
    ensures Lookup(g, c, addr, cmd, random).Done? && (Lookup(g, c, addr, cmd, random).hit <==> Probe(g, c, addr))
  {
    hide Misuse, Touch, Fetched, WriteBack, MemBlock;
  }

  /** A sequence of well-formed operations that keeps off block zero runs to its end. */
  lemma EveryRunEnds(g: Geometry, mem: map<nat, seq<int>>, ops: seq<Op>)
    requires g.Valid() && MemFits(g, mem)
    requires forall k :: 0 <= k < |ops| ==> Fits(g, ops[k]) && (ops[k].Use? ==> BlockNo(g, ops[k].addr) != 0)
    ensures FromStart(g, mem, ops).Ran?
  {
    hide CacheOk, Run, Initial, Aligned, InOneBlock;
    InitialOk(g, mem);
    match FromStart(g, mem, ops)
    case Ran(_, _) =>
    case Stopped(e) => RunStops(g, Initial(g, mem), ops, e);
  }

  // ---------------------------------------------------------------- block zero

  /** The first access to block zero of a new cache dereferences a null pointer. */
  lemma FirstZeroCrashes(g: Geometry, mem: map<nat, seq<int>>, addr: nat, cmd: Cmd, random: nat, rest: seq<Op>)
    requires g.Valid() && MemFits(g, mem) && addr < g.bsize && Fits(g, Use(addr, cmd, random))
    ensures FromStart(g, mem, [Use(addr, cmd, random)] + rest) == Stopped(NullBlock)
  {
    hide CacheOk, Misuse, Aligned, InOneBlock;
    ChecksAreExact(g, addr, Bytes(cmd));
    InitialOk(g, mem);
    DivMul(0, g.bsize, addr);
    assert ([Use(addr, cmd, random)] + rest)[0] == Use(addr, cmd, random);
  }

  /** After any other access, an access to block zero works exactly if that one hit. */
  lemma ZeroNeedsAHit(g: Geometry, c: Cache, first: Op, addr: nat, cmd: Cmd, random: nat)
    requires CacheOk(g, c) && Sized(g, c) && first.Use? && Step(g, c, first).Done?
    requires BlockNo(g, addr) == 0 && Fits(g, Use(addr, cmd, random))
    ensures var r := Step(g, c, first);
      Sized(g, r.c) &&
        if r.hit then Access(g, r.c, addr, cmd, random).Done? else Access(g, r.c, addr, cmd, random) == Fatal(NullBlock)
  {
    var r := Step(g, c, first);
    LastIs(g, c, first);
    StepOk(g, c, first);
    hide CacheOk, Access, Lookup, Misuse, Step, Sized, Aligned, InOneBlock;
    OkSized(g, r.c);
    ChecksAreExact(g, addr, Bytes(cmd));
    FastPathIsExact(g, r.c, addr, cmd, random);
    LookupReports(g, r.c, addr, cmd, random);
  }

  lemma LastIs(g: Geometry, c: Cache, op: Op)
    requires Sized(g, c) && op.Use? && Step(g, c, op).Done?
    ensures Step(g, c, op).c.lastBlk.Some? <==> Step(g, c, op).hit
  {
    hide Misuse, Find, Touch, Fetched, WriteBack, MemBlock, ToFront;
  }
}
