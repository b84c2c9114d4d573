/**
 * The trace generator's speculative state: copy-on-write registers, and a hash table of
 * copied-on-write memory words with move-to-front chains and recycled entries.
 */
module SpecOverlay {
  import opened Common
  import C = OooTypes
  import S = OooStages

  const STORE_HASH_SIZE: nat := 32
  const WORD: nat := 4

  /** General registers, then HI, LO and FCC. */
  const NUM_REGS: nat := 35

  /** One spec_mem_ent; `id` is the identity of the record. */
  datatype Ent = Ent(id: nat, addr: nat, data: int)

  // ---------------------------------------------------------------- chains

  /** HASH_ADDR: only the low five bits of each shifted address survive the mask */
  function HashAddr(addr: nat): (r: nat)
    ensures r < STORE_HASH_SIZE
  {
    ((addr / 0x100_0000 % 32) as bv5 ^ (addr / 0x1_0000 % 32) as bv5 ^ (addr / 0x100 % 32) as bv5 ^
     (addr % 32) as bv5) as nat
  }

  /** The word a chain holds for `addr`. */
  function Find(chain: seq<Ent>, addr: nat): Option<int> {
    if chain == [] then None
    else if chain[0].addr == addr then Some(chain[0].data)
    else Find(chain[1..], addr)
  }

  /** Relink the `k`-th entry at the front. */
  function MoveToFront(chain: seq<Ent>, k: nat): seq<Ent>
    requires k < |chain|
  {
    [chain[k]] + chain[..k] + chain[k + 1..]
  }

  ghost predicate Distinct(chain: seq<Ent>) {
    forall i, j :: 0 <= i < j < |chain| ==> chain[i].addr != chain[j].addr
  }

  lemma {:induction false} FindAt(chain: seq<Ent>, addr: nat)
    ensures Find(chain, addr).None? <==> forall i :: 0 <= i < |chain| ==> chain[i].addr != addr
    ensures Distinct(chain) ==> forall i :: 0 <= i < |chain| && chain[i].addr == addr ==>
      Find(chain, addr) == Some(chain[i].data)
  {
    if chain == [] {
    } else {
      FindAt(chain[1..], addr);
      assert forall i :: 0 < i < |chain| ==> chain[i] == chain[1..][i - 1];
    }
  }

  /** Two chains without repeated addresses and with the same entries hold the same words. */
  lemma FindSame(a: seq<Ent>, b: seq<Ent>, addr: nat)
    requires Distinct(a) && Distinct(b)
    requires forall i :: 0 <= i < |a| ==> a[i] in b
    requires forall j :: 0 <= j < |b| ==> b[j] in a
    ensures Find(a, addr) == Find(b, addr)
  {
    FindAt(a, addr);
    FindAt(b, addr);
    if Find(a, addr).Some? {
      var i :| 0 <= i < |a| && a[i].addr == addr;
      var j :| 0 <= j < |b| && b[j] == a[i];
    }
  }

  lemma MovedMembers(chain: seq<Ent>, k: nat)
    requires k < |chain| && Distinct(chain)
    ensures var r := MoveToFront(chain, k);
      && Distinct(r) && (forall i :: 0 <= i < |r| ==> r[i] in chain) && (forall i :: 0 <= i < |chain| ==> chain[i] in r)
  {
    var r := MoveToFront(chain, k);
    forall i | 0 <= i < |chain| ensures chain[i] in r {
      assert r[if i == k then 0 else if i < k then i + 1 else i] == chain[i];
    }
    forall i | 0 <= i < |r| ensures r[i] in chain && r[i] == chain[if i == 0 then k else if i <= k then i - 1 else i] {
    }
  }

  /** Reordering a chain changes no word it holds. */
  lemma MoveToFrontKeeps(chain: seq<Ent>, k: nat, addr: nat)
    requires k < |chain| && Distinct(chain)
    ensures Find(MoveToFront(chain, k), addr) == Find(chain, addr)
  {
    MovedMembers(chain, k);
    FindSame(MoveToFront(chain, k), chain, addr);
  }

  // ---------------------------------------------------------------- conservation of entries

  function Count(chain: seq<Ent>, id: nat): nat {
    if chain == [] then 0 else (if chain[0].id == id then 1 else 0) + Count(chain[1..], id)
  }

  function CountFree(free: seq<nat>, id: nat): nat {
    if free == [] then 0 else (if free[0] == id then 1 else 0) + CountFree(free[1..], id)
  }

  function CountTable(table: seq<seq<Ent>>, id: nat): nat {
    if table == [] then 0 else Count(table[0], id) + CountTable(table[1..], id)
  }

  lemma {:induction false} CountConcat(a: seq<Ent>, b: seq<Ent>, id: nat)
    ensures Count(a + b, id) == Count(a, id) + Count(b, id)
  {
    if a == [] {
      assert a + b == b;
    } else {
      assert (a + b)[1..] == a[1..] + b;
      CountConcat(a[1..], b, id);
    }
  }

  lemma MovedCount(chain: seq<Ent>, k: nat, id: nat)
    requires k < |chain|
    ensures Count(MoveToFront(chain, k), id) == Count(chain, id)
  {
    var x, a, b := [chain[k]], chain[..k], chain[k + 1..];
    assert chain == a + (x + b) && MoveToFront(chain, k) == x + (a + b);
    CountConcat(a, x + b, id);
    CountConcat(x, b, id);
    CountConcat(x, a + b, id);
    CountConcat(a, b, id);
  }

  lemma {:induction false} CountUpdate(table: seq<seq<Ent>>, i: nat, chain: seq<Ent>, id: nat)
    requires i < |table|
    ensures CountTable(table[i := chain], id) == CountTable(table, id) - Count(table[i], id) + Count(chain, id)
  {
    if i == 0 {
      assert table[0 := chain][1..] == table[1..];
    } else {
      assert table[i := chain][1..] == table[1..][i - 1 := chain];
      CountUpdate(table[1..], i - 1, chain, id);
    }
  }

  lemma {:induction false} CountEmpty(table: seq<seq<Ent>>, id: nat)
    requires forall b :: 0 <= b < |table| ==> table[b] == []
    ensures CountTable(table, id) == 0
  {
    if table == [] {
    } else {
      CountEmpty(table[1..], id);
    }
  }

  // ---------------------------------------------------------------- the table against what it stands for

  /** Every entry is in the bucket its address hashes to, and no address is in the table twice. */
  ghost predicate Hashed(table: seq<seq<Ent>>) {
    && |table| == STORE_HASH_SIZE
    && (forall b :: 0 <= b < |table| ==> Distinct(table[b]))
    && (forall b, i :: 0 <= b < |table| && 0 <= i < |table[b]| ==> HashAddr(table[b][i].addr) == b)
  }

  /** The word the table holds for `addr`. */
  function Held(table: seq<seq<Ent>>, addr: nat): Option<int>
    requires |table| == STORE_HASH_SIZE
  {
    Find(table[HashAddr(addr)], addr)
  }

  function Written(overlay: map<C.Loc, int>, loc: C.Loc): Option<int> {
    if loc in overlay then Some(overlay[loc]) else None
  }

  /** The table holds exactly the memory words of `overlay`. */
  ghost predicate Stands(table: seq<seq<Ent>>, overlay: map<C.Loc, int>) {
    && Hashed(table)
    && forall a: nat :: Held(table, a) == Written(overlay, C.Memory(a))
  }

  /** Every entry ever made is in the table or on the free list, once. */
  ghost predicate Conserved(table: seq<seq<Ent>>, free: seq<nat>, made: nat) {
    forall id: nat :: CountFree(free, id) + CountTable(table, id) == if id < made then 1 else 0
  }

  lemma HashedUpdate(table: seq<seq<Ent>>, b: nat, chain: seq<Ent>)
    requires Hashed(table) && b < |table| && Distinct(chain) && forall i :: 0 <= i < |chain| ==>
      HashAddr(chain[i].addr) == b
    ensures Hashed(table[b := chain])
  {
    hide HashAddr;
  }

  /** Relinking an entry at the front of its chain changes neither words nor entries. */
  lemma RelinkKeeps(table: seq<seq<Ent>>, b: nat, k: nat, overlay: map<C.Loc, int>, free: seq<nat>, made: nat)
    requires Stands(table, overlay) && Conserved(table, free, made) && b < |table| && k < |table[b]|
    ensures var table' := table[b := MoveToFront(table[b], k)];
      Stands(table', overlay) && Conserved(table', free, made)
  {
    var chain := MoveToFront(table[b], k);
    var table' := table[b := chain];
    MovedMembers(table[b], k);
    hide HashAddr, MoveToFront;
    forall i | 0 <= i < |chain| ensures HashAddr(chain[i].addr) == b {
      assert chain[i] in table[b];
    }
    HashedUpdate(table, b, chain);
    forall a: nat ensures Held(table', a) == Held(table, a) {
      MoveToFrontKeeps(table[b], k, a);
    }
    forall id: nat ensures CountTable(table', id) == CountTable(table, id) {
      MovedCount(table[b], k, id);
      CountUpdate(table, b, chain, id);
    }
    hide Hashed, Held;
  }

  lemma SetMembers(chain: seq<Ent>, v: int, a: nat)
    requires chain != [] && Distinct(chain)
    ensures var r := [chain[0].(data := v)] + chain[1..];
      Distinct(r) && Find(r, a) == if a == chain[0].addr then Some(v) else Find(chain, a)
  {
    var r := [chain[0].(data := v)] + chain[1..];
    assert forall i :: 0 <= i < |chain| ==> r[i].addr == chain[i].addr;
    assert r[1..] == chain[1..];
  }

  /** Overwriting the word at the front of a chain. */
  lemma OverwriteKeeps(table: seq<seq<Ent>>, addr: nat, v: int, overlay: map<C.Loc, int>, free: seq<nat>, made: nat)
    requires Stands(table, overlay) && Conserved(table, free, made)
    requires var chain := table[HashAddr(addr)]; chain != [] && chain[0].addr == addr
    ensures var b := HashAddr(addr); var table' := table[b := [table[b][0].(data := v)] + table[b][1..]];
      Stands(table', overlay[C.Memory(addr) := v]) && Conserved(table', free, made)
  {
    var b := HashAddr(addr);
    var chain := [table[b][0].(data := v)] + table[b][1..];
    var table' := table[b := chain];
    SetMembers(table[b], v, addr);
    assert forall i :: 0 <= i < |chain| ==> chain[i].addr == table[b][i].addr;
    hide HashAddr;
    HashedUpdate(table, b, chain);
    forall a: nat ensures Held(table', a) == Written(overlay[C.Memory(addr) := v], C.Memory(a)) {
      SetMembers(table[b], v, a);
      assert Held(table, a) == Written(overlay, C.Memory(a));
    }
    forall id: nat ensures CountTable(table', id) == CountTable(table, id) {
      assert chain[1..] == table[b][1..];
      CountUpdate(table, b, chain, id);
    }
    hide Hashed, Held;
  }

  lemma PushedChain(chain: seq<Ent>, e: Ent)
    requires Distinct(chain) && forall i :: 0 <= i < |chain| ==> chain[i].addr != e.addr
    ensures var r := [e] + chain; Distinct(r) && r[1..] == chain && forall i :: 0 < i < |r| ==> r[i] == chain[i - 1]
  {
  }

  lemma FindPushed(chain: seq<Ent>, e: Ent, a: nat)
    ensures Find([e] + chain, a) == if a == e.addr then Some(e.data) else Find(chain, a)
  {
    assert ([e] + chain)[1..] == chain;
  }

  /** Inserting a word that is not in the table, with an entry taken from the free list. */
  lemma InsertKeeps(table: seq<seq<Ent>>, addr: nat, v: int, overlay: map<C.Loc, int>, free: seq<nat>, made: nat)
    requires Stands(table, overlay) && Conserved(table, free, made) && free != [] && Held(table, addr).None?
    ensures var b := HashAddr(addr); var table' := table[b := [Ent(free[0], addr, v)] + table[b]];
      Stands(table', overlay[C.Memory(addr) := v]) && Conserved(table', free[1..], made)
  {
    var b := HashAddr(addr);
    var chain := [Ent(free[0], addr, v)] + table[b];
    var table' := table[b := chain];
    hide HashAddr, Find;
    FindAt(table[b], addr);
    PushedChain(table[b], Ent(free[0], addr, v));
    HashedUpdate(table, b, chain);
    forall a: nat ensures Held(table', a) == Written(overlay[C.Memory(addr) := v], C.Memory(a)) {
      assert Held(table, a) == Written(overlay, C.Memory(a));
      FindPushed(table[b], Ent(free[0], addr, v), a);
    }
    forall id: nat ensures CountTable(table', id) == CountTable(table, id) + (if id == free[0] then 1 else 0) {
      CountUpdate(table, b, chain, id);
    }
    hide Hashed, Held;
  }

  /** A fresh entry may join the free list. */
  lemma CallocKeeps(table: seq<seq<Ent>>, made: nat)
    requires Conserved(table, [], made)
    ensures Conserved(table, [made], made + 1)
  {
    forall id: nat ensures CountFree([made], id) == (if id == made then 1 else 0) {
    }
    hide CountFree, CountTable;
    assert forall id: nat :: CountFree([], id) + CountTable(table, id) == if id < made then 1 else 0;
  }

  /** Releasing the entry at the front of a chain. */
  lemma ReleaseKeeps(table: seq<seq<Ent>>, b: nat, free: seq<nat>, made: nat)
    requires Conserved(table, free, made) && b < |table| && table[b] != []
    ensures Conserved(table[b := table[b][1..]], [table[b][0].id] + free, made)
  {
    var free' := [table[b][0].id] + free;
    assert free'[1..] == free;
    forall id: nat ensures CountFree(free', id) + CountTable(table[b := table[b][1..]], id) ==
      CountFree(free, id) + CountTable(table, id) {
      CountUpdate(table, b, table[b][1..], id);
    }
    hide CountTable;
  }

  /** An empty table stands for nothing speculative, and every entry is free. */
  lemma EmptyStands(table: seq<seq<Ent>>)
    requires |table| == STORE_HASH_SIZE && forall b :: 0 <= b < |table| ==> table[b] == []
    ensures Stands(table, map[])
  {
    hide HashAddr;
  }

  lemma AllEntriesFree(table: seq<seq<Ent>>, free: seq<nat>, made: nat, id: nat)
    requires Conserved(table, free, made) && forall b :: 0 <= b < |table| ==> table[b] == []
    ensures CountFree(free, id) == if id < made then 1 else 0
  {
    CountEmpty(table, id);
  }

  // ---------------------------------------------------------------- the trace generator

  datatype Cmd = Read | Write

  /** One access of a mis-speculated instruction. */
  datatype Access = GetReg(n: nat) | SetReg(n: nat, v: int) | GetWord(addr: nat) | SetWord(addr: nat, v: int)

  /** The location exists. */
  predicate Named(loc: C.Loc) {
    loc.Register? ==> loc.n < NUM_REGS
  }

  class Tracer {
    const textBase: nat
    const textSize: nat
    const dataBase: nat
    const stackBase: nat
    const regs: array<int>
    const specRegs: array<int>
    var useSpec: set<nat>
    var mem: map<nat, int>
    const table: array<seq<Ent>>
    var free: seq<nat>
    var made: nat
    var specMode: bool

    /** The speculative writes since mis-speculation started. */
    ghost var overlay: map<C.Loc, int>

    ghost predicate RegsStand()
      reads `useSpec, `overlay, specRegs
    {
      && specRegs.Length == NUM_REGS
      && (forall n :: 0 <= n < NUM_REGS ==> (n in useSpec <==> C.Register(n) in overlay))
      && (forall n :: 0 <= n < NUM_REGS && n in useSpec ==> specRegs[n] == overlay[C.Register(n)])
    }

    ghost predicate Valid()
      reads this, regs, specRegs, table
    {
      && regs.Length == NUM_REGS && regs != specRegs && RegsStand()
      && Stands(table[..], overlay) && Conserved(table[..], free, made)
      && (!specMode ==> overlay == map[])
    }

    /** Precise value of a location; memory that was never written holds zero. */
    function Precise(loc: C.Loc): int
      requires regs.Length == NUM_REGS && Named(loc)
      reads this, regs
    {
      match loc
      case Register(n) => regs[n]
      case Memory(a) => if a in mem then mem[a] else 0
    }

    /** The latest speculative write to a location, or else its precise value. */
    ghost function Shown(loc: C.Loc): int
      requires regs.Length == NUM_REGS && Named(loc)
      reads this, regs
    {
      if loc in overlay then overlay[loc] else Precise(loc)
    }

    /** The alignment and permission checks, which are the same in both modes. */
    predicate Allowed(cmd: Cmd, addr: nat) {
      addr % WORD == 0 && ((textBase <= addr < textBase + textSize && cmd.Read?) || dataBase <= addr < stackBase)
    }

    /** tracer_init */
    constructor (textBase: nat, textSize: nat, dataBase: nat, stackBase: nat)
      ensures Valid() && !specMode && fresh(regs) && fresh(specRegs) && fresh(table)
      ensures forall loc: C.Loc :: Named(loc) ==> Shown(loc) == 0
    {
      this.textBase, this.textSize, this.dataBase, this.stackBase := textBase, textSize, dataBase, stackBase;
      regs := new int[NUM_REGS](_ => 0);
      specRegs := new int[NUM_REGS](_ => 0);
      useSpec, mem, free, made, specMode, overlay := {}, map[], [], 0, false, map[];
      table := new seq<Ent>[STORE_HASH_SIZE](_ => []);
      new;
      EmptyStands(table[..]);
      forall id: nat ensures CountFree(free, id) + CountTable(table[..], id) == 0 {
        CountEmpty(table[..], id);
      }
      hide Stands, CountTable;
    }

    /** GPR, HI, LO and FCC */
    method ReadReg(n: nat) returns (v: int)
      requires Valid() && n < NUM_REGS
      ensures v == Shown(C.Register(n))
    {
      hide Stands, Conserved;
      v := if n in useSpec then specRegs[n] else regs[n];
    }

    /** SET_GPR, SET_HI, SET_LO and SET_FCC */
    method WriteReg(n: nat, v: int)
      requires Valid() && n < NUM_REGS
      modifies this`useSpec, this`overlay, regs, specRegs
      ensures Valid() && Shown(C.Register(n)) == v
      ensures overlay == if specMode then old(overlay)[C.Register(n) := v] else old(overlay)
      ensures if specMode then regs[..] == old(regs[..]) else regs[..] == old(regs[..])[n := v]
    {
      if specMode {
        useSpec := useSpec + {n};
        specRegs[n] := v;
        overlay := overlay[C.Register(n) := v];
        RegistersApart(table[..], old(overlay), n, v);
      } else {
        regs[n] := v;
      }
      hide Stands, Conserved;
    }

    /** The chain search of spec_mem_access: an entry that is found ends up at the front. */
    method Search(addr: nat) returns (found: bool)
      requires Valid()
      modifies table
      ensures Valid() && (found <==> C.Memory(addr) in overlay)
      ensures found ==> table[HashAddr(addr)] != [] && table[HashAddr(addr)][0].addr == addr
    {
      hide HashAddr, Conserved;
      var b := HashAddr(addr);
      var chain := table[b];
      var k := 0;
      assert Held(table[..], addr) == Written(overlay, C.Memory(addr));
      FindAt(chain, addr);
      hide Stands, Find;
      while k < |chain| && chain[k].addr != addr
        invariant 0 <= k <= |chain| && forall i :: 0 <= i < k ==> chain[i].addr != addr
      {
        k := k + 1;
      }
      found := k < |chain|;
      if found && k > 0 {
        RelinkKeeps(table[..], b, k, overlay, free, made);
        table[b] := MoveToFront(chain, k);
        assert table[..] == old(table[..])[b := MoveToFront(chain, k)];
      }
    }

    /** A word read: `None` when the access is not allowed, which in precise mode is fatal. */
    method ReadWord(addr: nat) returns (v: Option<int>)
      requires Valid()
      modifies table
      ensures Valid() && v == if Allowed(Read, addr) then Some(Shown(C.Memory(addr))) else None
    {
      if !Allowed(Read, addr) {
        return None;
      }
      hide HashAddr, Conserved;
      if specMode {
        var found := Search(addr);
        if found {
          assert Held(table[..], addr) == Written(overlay, C.Memory(addr));
          return Some(table[HashAddr(addr)][0].data);
        }
      }
      v := Some(Precise(C.Memory(addr)));
    }

    /** A word write. */
    method WriteWord(addr: nat, v: int)
      requires Valid()
      modifies this`mem, this`free, this`made, this`overlay, table
      ensures Valid()
      ensures overlay == if specMode && Allowed(Write, addr) then old(overlay)[C.Memory(addr) := v] else old(overlay)
      ensures mem == if !specMode && Allowed(Write, addr) then old(mem)[addr := v] else old(mem)
    {
      if !Allowed(Write, addr) {
        return;
      }
      hide HashAddr, Stands, Conserved;
      if !specMode {
        mem := mem[addr := v];
        return;
      }
      var found := Search(addr);
      if found {
        Overwrite(addr, v);
      } else {
        Insert(addr, v);
      }
    }

    method Overwrite(addr: nat, v: int)
      requires Valid() && specMode && table[HashAddr(addr)] != [] && table[HashAddr(addr)][0].addr == addr
      modifies this`overlay, table
      ensures Valid() && overlay == old(overlay)[C.Memory(addr) := v]
    {
      hide HashAddr, Stands, Conserved;
      var b := HashAddr(addr);
      TableSize(table[..], overlay);
      OverwriteKeeps(table[..], addr, v, overlay, free, made);
      table[b] := [table[b][0].(data := v)] + table[b][1..];
      assert table[..] == old(table[..])[b := table[b]];
      overlay := overlay[C.Memory(addr) := v];
    }

    method Insert(addr: nat, v: int)
      requires Valid() && specMode && C.Memory(addr) !in overlay
      modifies this`free, this`made, this`overlay, table
      ensures Valid() && overlay == old(overlay)[C.Memory(addr) := v]
    {
      assert Held(table[..], addr) == Written(overlay, C.Memory(addr));
      hide HashAddr, Stands, Conserved;
      if free == [] {
        CallocKeeps(table[..], made);
        free, made := [made], made + 1;
      }
      InsertKeeps(table[..], addr, v, overlay, free, made);
      var b := HashAddr(addr);
      table[b] := [Ent(free[0], addr, v)] + table[b];
      assert table[..] == old(table[..])[b := table[b]];
      free := free[1..];
      overlay := overlay[C.Memory(addr) := v];
    }

    /** Release the entries of bucket `b`. */
    method ReleaseBucket(b: nat)
      requires table.Length == STORE_HASH_SIZE && b < table.Length && Conserved(table[..], free, made)
      modifies this`free, table
      ensures Conserved(table[..], free, made)
      ensures table[..] == old(table[..])[b := []]
    {
      hide Conserved;
      while table[b] != []
        invariant Conserved(table[..], free, made)
        invariant forall i :: 0 <= i < table.Length && i != b ==> table[i] == old(table[i])
        decreases |table[b]|
      {
        ghost var before := table[..];
        ReleaseKeeps(before, b, free, made);
        free := [table[b][0].id] + free;
        table[b] := table[b][1..];
        assert table[..] == before[b := before[b][1..]];
      }
    }

    /** The loop of tracer_recover over the hash table: every entry goes back to the free list. */
    method ReleaseAll()
      requires table.Length == STORE_HASH_SIZE && Conserved(table[..], free, made)
      modifies this`free, table
      ensures Conserved(table[..], free, made) && forall b :: 0 <= b < table.Length ==> table[b] == []
    {
      hide Conserved;
      var i := 0;
      while i < STORE_HASH_SIZE
        invariant 0 <= i <= STORE_HASH_SIZE && Conserved(table[..], free, made)
        invariant forall b :: 0 <= b < i ==> table[b] == []
      {
        ghost var before := table[..];
        ReleaseBucket(i);
        assert forall b :: 0 <= b < i ==> table[b] == before[b];
        i := i + 1;
      }
    }

    /** tracer_recover: false, and nothing done, unless in mis-speculation mode */
    method Recover() returns (ok: bool)
      requires Valid()
      modifies this`useSpec, this`free, this`specMode, this`overlay, table
      ensures Valid() && !specMode && ok == old(specMode)
      ensures forall loc: C.Loc :: Named(loc) ==> Shown(loc) == Precise(loc) == old(Precise(loc))
      ensures ok ==> forall id: nat :: CountFree(free, id) == if id < made then 1 else 0
    {
      if !specMode {
        hide Stands, Conserved;
        return false;
      }
      hide Conserved, Hashed, Held;
      TableSize(table[..], overlay);
      ReleaseAll();
      useSpec, specMode, overlay := {}, false, map[];
      EmptyStands(table[..]);
      forall id: nat ensures CountFree(free, id) == if id < made then 1 else 0 {
        AllEntriesFree(table[..], free, made, id);
      }
      ok := true;
      hide Stands, CountFree;
    }

    /** One access. */
    method Perform(x: Access)
      requires Valid()
      modifies this`useSpec, this`mem, this`free, this`made, this`overlay, regs, specRegs, table
      ensures Valid() && (specMode ==> regs[..] == old(regs[..]) && mem == old(mem))
    {
      hide Stands, Conserved, RegsStand;
      match x {
        case GetReg(n) =>
          if n < NUM_REGS {
            var _ := ReadReg(n);
          }
        case SetReg(n, v) =>
          if n < NUM_REGS {
            WriteReg(n, v);
          }
        case GetWord(a) =>
          var _ := ReadWord(a);
        case SetWord(a, v) =>
          WriteWord(a, v);
      }
    }

    /**
     * Whatever a mis-speculated path reads and writes, recovery brings back every value that was
     * visible when the mispredicted branch was dispatched.
     */
    method Misspeculate(path: seq<Access>)
      requires Valid() && !specMode
      modifies this, regs, specRegs, table
      ensures Valid() && !specMode
      ensures forall loc: C.Loc :: Named(loc) ==> Shown(loc) == old(Shown(loc))
      ensures forall id: nat :: CountFree(free, id) == if id < made then 1 else 0
    {
      hide Stands, Conserved, RegsStand;
      specMode := true;
      var k := 0;
      while k < |path|
        invariant 0 <= k <= |path| && Valid() && specMode && regs[..] == old(regs[..]) && mem == old(mem)
      {
        Perform(path[k]);
        k := k + 1;
      }
      assert forall n :: 0 <= n < NUM_REGS ==> regs[n] == old(regs[..])[n];
      var ok := Recover();
    }

    // -------------------------------------------------------------- the front end of the core

    /** The object holds the precise and speculative values of the front end `f`. */
    ghost predicate Represents(f: C.Front)
      requires regs.Length == NUM_REGS
      reads this, regs
    {
      && f.specMode == specMode && f.overlay == overlay
      && forall loc :: Named(loc) ==> Precise(loc) == At(f.arch, loc)
    }

    /** An instruction may use the location. */
    predicate Usable(cmd: Cmd, loc: C.Loc) {
      Named(loc) && (loc.Memory? ==> Allowed(cmd, loc.a))
    }

    /** An instruction reads what the front end shows. */
    method Get(loc: C.Loc, ghost f: C.Front) returns (v: int)
      requires Valid() && Represents(f) && Usable(Read, loc)
      modifies table
      ensures Valid() && Represents(f) && v == At(S.Shown(f), loc)
    {
      hide Stands, Conserved, RegsStand;
      match loc
      case Register(n) => v := ReadReg(n);
      case Memory(a) =>
        var word := ReadWord(a);
        v := word.value;
    }

    /** An instruction writes a location as the front end does. */
    method Set(loc: C.Loc, v: int, ghost f: C.Front)
      requires Valid() && Represents(f) && Usable(Write, loc)
      modifies this`useSpec, this`mem, this`free, this`made, this`overlay, regs, specRegs, table
      ensures Valid() && Represents(S.Write(f, map[loc := v])) && specMode == old(specMode)
    {
      hide Stands, Conserved, RegsStand;
      match loc
      case Register(n) => WriteReg(n, v);
      case Memory(a) => WriteWord(a, v);
      assert specMode ==> overlay == f.overlay + map[loc := v];
    }

    /** All writes of an instruction. */
    method Execute(writes: seq<(C.Loc, int)>, ghost f: C.Front)
      requires Valid() && Represents(f) && forall k :: 0 <= k < |writes| ==> Usable(Write, writes[k].0)
      modifies this`useSpec, this`mem, this`free, this`made, this`overlay, regs, specRegs, table
      ensures Valid() && Represents(S.Write(f, Effects(writes)))
    {
      hide Stands, Conserved, RegsStand;
      var k := 0;
      WritesNothing(f);
      while k < |writes|
        invariant k <= |writes| && Valid() && Represents(S.Write(f, Effects(writes[..k])))
      {
        Set(writes[k].0, writes[k].1, S.Write(f, Effects(writes[..k])));
        WritesMore(f, writes, k);
        k := k + 1;
      }
      assert writes[..k] == writes;
    }

    /** Recovery does to the values what it does to the front end. */
    method Rollback(ghost f: C.Front) returns (ok: bool)
      requires Valid() && Represents(f)
      modifies this`useSpec, this`free, this`specMode, this`overlay, table
      ensures Valid() && ok == S.TracerRecover(f).Ok?
      ensures Represents(if ok then S.TracerRecover(f).value else f)
    {
      hide Stands, Conserved, RegsStand;
      ok := Recover();
    }
  }

  /** The value of a location that may never have been written. */
  function At(vals: C.Values, loc: C.Loc): int {
    if loc in vals then vals[loc] else 0
  }

  /** What a series of writes leaves. */
  function Effects(writes: seq<(C.Loc, int)>): C.Values {
    if writes == [] then map[] else
    var last := writes[|writes| - 1];
    Effects(writes[..|writes| - 1])[last.0 := last.1]
  }

  lemma WritesNothing(f: C.Front)
    ensures S.Write(f, Effects([])) == f
  {
    assert f.overlay + map[] == f.overlay && f.arch + map[] == f.arch;
  }

  lemma WritesMore(f: C.Front, writes: seq<(C.Loc, int)>, k: nat)
    requires k < |writes|
    ensures S.Write(S.Write(f, Effects(writes[..k])), map[writes[k].0 := writes[k].1]) ==
      S.Write(f, Effects(writes[..k + 1]))
  {
    var some, next := Effects(writes[..k]), map[writes[k].0 := writes[k].1];
    assert writes[..k + 1][..k] == writes[..k];
    assert (f.overlay + some) + next == f.overlay + some[writes[k].0 := writes[k].1];
    assert (f.arch + some) + next == f.arch + some[writes[k].0 := writes[k].1];
  }

  lemma TableSize(table: seq<seq<Ent>>, overlay: map<C.Loc, int>)
    requires Stands(table, overlay)
    ensures |table| == STORE_HASH_SIZE
  {
  }

  lemma RegistersApart(table: seq<seq<Ent>>, overlay: map<C.Loc, int>, n: nat, v: int)
    requires Stands(table, overlay)
    ensures Stands(table, overlay[C.Register(n) := v])
  {
    hide Hashed, Held;
  }
}
