/**
 Callers of the page-lock manager in any interleaving. A lock call that finds no record drops the registry
 lock before it inserts one, so several callers can be in that gap for one address at the same time and
 leave several records for it.
 */
module LockSystem {
  import opened Machine
  import opened PageLocks

  /**
   `sizes` is the one size that each address is locked with; `gap` are the callers between the two locked
   blocks of LX_lock_mem; `locked` and `unlocked` count the calls that succeeded, by address.
   */
  datatype State = State(m: Locks, sizes: map<nat, nat>, gap: map<nat, nat>, locked: multiset<nat>, unlocked: multiset<nat>)

  datatype Step =
    | Lookup(c: nat, addr: nat)
    | Insert(c: nat, failAt: nat)
    | Unlock(addr: nat)

  function Init(sizes: map<nat, nat>): State {
    State(Locks(Os(map[], 0, 0), []), sizes, map[], multiset{}, multiset{})
  }

  predicate Enabled(s: State, step: Step) {
    match step
    case Lookup(c, addr) =>
      && c !in s.gap && addr in s.sizes && addr < U32 && s.sizes[addr] < U32
      && var r := Find(s.m.records, addr); (r.Some? ==> s.m.records[r.value].use + 1 < U32)
    case Insert(c, _) => c in s.gap && s.gap[c] in s.sizes
    case Unlock(_) => true
  }

  function Apply(s: State, step: Step): State
    requires Enabled(s, step)
  {
    match step
    case Lookup(c, addr) =>
      if Find(s.m.records, addr).Some? then s.(m := Shared(s.m, addr), locked := s.locked + multiset{addr})
      else s.(gap := s.gap[c := addr])
    case Insert(c, failAt) =>
      var addr := s.gap[c];
      s.(m := Inserted(s.m, addr, s.sizes[addr], failAt), gap := s.gap - {c},
         locked := s.locked + (if Succeeds(addr, s.sizes[addr], failAt) then multiset{addr} else multiset{}))
    case Unlock(addr) =>
      s.(m := Released(s.m, addr),
         unlocked := s.unlocked + (if Find(s.m.records, addr).Some? then multiset{addr} else multiset{}))
  }

  ghost predicate Legal(s: State, steps: seq<Step>)
    decreases |steps|
  {
    steps == [] || (Enabled(s, steps[0]) && Legal(Apply(s, steps[0]), steps[1..]))
  }

  ghost function After(s: State, steps: seq<Step>): State
    requires Legal(s, steps)
    decreases |steps|
  {
    if steps == [] then s else After(Apply(s, steps[0]), steps[1..])
  }

  ghost predicate Reachable(s: State) {
    exists sizes, steps :: Legal(Init(sizes), steps) && s == After(Init(sizes), steps)
  }

  // ---------------------------------------------------------------- the invariant

  function AllHandles(records: seq<Record>): seq<nat> {
    if records == [] then [] else records[0].handles + AllHandles(records[1..])
  }

  /** The summed use counts of the records for one address. */
  function Uses(records: seq<Record>, addr: nat): nat {
    if records == [] then 0
    else (if records[0].addr == addr then records[0].use else 0) + Uses(records[1..], addr)
  }

  /** The handles of a record are live and stand for the chunks of its range, in order. */
  ghost predicate Owns(os: Os, r: Record) {
    && |r.handles| == |RangeChunks(r.addr, r.size)|
    && forall i :: 0 <= i < |r.handles| ==>
         r.handles[i] in os.live && os.live[r.handles[i]] == RangeChunks(r.addr, r.size)[i]
  }

  /** Every live handle belongs to one slot of one record, and every slot holds a live handle: no leak, no sharing. */
  ghost predicate InvHandles(m: Locks) {
    ValidOs(m.os) && m.os.strays == 0 && multiset(AllHandles(m.records)) == multiset(m.os.live.Keys)
  }

  ghost predicate InvRecords(m: Locks, sizes: map<nat, nat>) {
    forall r :: r in m.records ==>
        0 < r.use < U32 && r.addr < U32 && r.size < U32 && r.addr in sizes && r.size == sizes[r.addr] && Owns(m.os, r)
  }

  ghost predicate InvCounts(s: State) {
    forall addr :: Uses(s.m.records, addr) + s.unlocked[addr] == s.locked[addr]
  }

  ghost predicate InvGap(s: State) {
    forall c :: c in s.gap ==> s.gap[c] in s.sizes && s.gap[c] < U32 && s.sizes[s.gap[c]] < U32
  }

  ghost predicate Inv(s: State) {
    InvHandles(s.m) && InvRecords(s.m, s.sizes) && InvCounts(s) && InvGap(s)
  }

  // ---------------------------------------------------------------- lists of records

  lemma {:induction false} HandlesSplit(a: seq<Record>, b: seq<Record>)
    ensures AllHandles(a + b) == AllHandles(a) + AllHandles(b)
    decreases |a|
  {
    if a == [] {
      assert a + b == b;
    } else {
      assert (a + b)[1..] == a[1..] + b;
      HandlesSplit(a[1..], b);
    }
  }

  lemma {:induction false} UsesSplit(a: seq<Record>, b: seq<Record>, addr: nat)
    ensures Uses(a + b, addr) == Uses(a, addr) + Uses(b, addr)
    decreases |a|
  {
    if a == [] {
      assert a + b == b;
    } else {
      assert (a + b)[1..] == a[1..] + b;
      UsesSplit(a[1..], b, addr);
    }
  }

  /** Replacing or removing one record changes the use counts of its address only. */
  lemma UsesAt(records: seq<Record>, i: nat, r: Record, addr: nat)
    requires i < |records| && r.addr == records[i].addr
    ensures Uses(records[i := r], addr) + (if addr == r.addr then records[i].use else 0)
            == Uses(records, addr) + (if addr == r.addr then r.use else 0)
    ensures Uses(Without(records, i), addr) + (if addr == r.addr then records[i].use else 0) == Uses(records, addr)
  {
    var a, b := records[..i], records[i + 1..];
    assert records == a + [records[i]] + b && records[i := r] == a + [r] + b;
    UsesSplit(a + [records[i]], b, addr);
    UsesSplit(a, [records[i]], addr);
    UsesSplit(a + [r], b, addr);
    UsesSplit(a, [r], addr);
    UsesSplit(a, b, addr);
  }

  lemma HandlesAt(records: seq<Record>, i: nat, r: Record)
    requires i < |records|
    ensures r.handles == records[i].handles ==> AllHandles(records[i := r]) == AllHandles(records)
    ensures multiset(AllHandles(records)) == multiset(AllHandles(Without(records, i))) + multiset(records[i].handles)
  {
    var a, b := records[..i], records[i + 1..];
    assert records == a + [records[i]] + b && records[i := r] == a + [r] + b;
    HandlesSplit(a + [records[i]], b);
    HandlesSplit(a, [records[i]]);
    HandlesSplit(a + [r], b);
    HandlesSplit(a, [r]);
    HandlesSplit(a, b);
    assert AllHandles([records[i]]) == records[i].handles && AllHandles([r]) == r.handles;
  }

  lemma {:induction false} HandleListed(records: seq<Record>, r: Record, h: nat)
    requires r in records && h in r.handles
    ensures h in AllHandles(records)
    decreases |records|
  {
    if r != records[0] {
      HandleListed(records[1..], r, h);
    }
  }

  /** A sequence whose elements, counted, form a set lists each of them once. */
  lemma OnceEach(hs: seq<nat>, keys: set<nat>)
    requires multiset(hs) <= multiset(keys)
    ensures Distinct(hs) && forall h :: h in hs ==> h in keys
  {
    forall i, j | 0 <= i < j < |hs|
      ensures hs[i] != hs[j]
    {
      assert hs == hs[..j] + [hs[j]] + hs[j + 1..];
      assert hs[..j][i] == hs[i];
      assert multiset(hs) == multiset(hs[..j]) + multiset{hs[j]} + multiset(hs[j + 1..]);
      assert multiset(hs)[hs[j]] <= multiset(keys)[hs[j]] <= 1;
      assert multiset(hs[..j])[hs[j]] == 0;
    }
    forall h | h in hs
      ensures h in keys
    {
      assert h in multiset(hs);
    }
  }

  // ---------------------------------------------------------------- steps

  function Recounted(m: Locks, i: nat, use: nat): Locks
    requires i < |m.records|
  {
    m.(records := m.records[i := m.records[i].(use := use)])
  }

  /** A record whose use count alone is replaced. */
  lemma RecountKeeps(m: Locks, sizes: map<nat, nat>, i: nat, use: nat)
    requires InvHandles(m) && InvRecords(m, sizes) && i < |m.records| && 0 < use < U32
    ensures InvHandles(Recounted(m, i, use)) && InvRecords(Recounted(m, i, use), sizes)
  {
    var r := m.records[i].(use := use);
    HandlesAt(m.records, i, r);
    assert m.records[i] in m.records;
    forall q | q in m.records[i := r]
      ensures q in m.records || q == r
    {
    }
    assert Owns(m.os, r);
  }

  lemma RecountCounts(s: State, s': State, i: nat, use: nat)
    requires InvCounts(s) && i < |s.m.records| && s'.m == Recounted(s.m, i, use)
    requires
      var r := s.m.records[i];
      || (use == r.use + 1 && s'.unlocked == s.unlocked && s'.locked == s.locked + multiset{r.addr})
      || (use == r.use - 1 && s'.locked == s.locked && s'.unlocked == s.unlocked + multiset{r.addr})
    ensures InvCounts(s')
  {
    forall a
      ensures Uses(s'.m.records, a) + s'.unlocked[a] == s'.locked[a]
    {
      UsesAt(s.m.records, i, s.m.records[i].(use := use), a);
    }
  }

  lemma SharedIs(m: Locks, addr: nat)
    requires Find(m.records, addr).Some? && m.records[Find(m.records, addr).value].use + 1 < U32
    ensures var i := Find(m.records, addr).value; Shared(m, addr) == Recounted(m, i, m.records[i].use + 1)
  {
  }

  lemma ReleasedIs(m: Locks, addr: nat)
    requires Find(m.records, addr).Some? && 0 < m.records[Find(m.records, addr).value].use < U32
    ensures var i := Find(m.records, addr).value; var r := m.records[i];
        Released(m, addr) == if r.use == 1 then Locks(UnlockAll(m.os, r.handles), Without(m.records, i)) else Recounted(m, i, r.use - 1)
  {
  }

  lemma ShareKeeps(s: State, c: nat, addr: nat)
    requires Inv(s) && Enabled(s, Lookup(c, addr)) && Find(s.m.records, addr).Some?
    ensures Inv(Apply(s, Lookup(c, addr)))
  {
    var i := Find(s.m.records, addr).value;
    var use := s.m.records[i].use + 1;
    var s' := Apply(s, Lookup(c, addr));
    SharedIs(s.m, addr);
    RecountKeeps(s.m, s.sizes, i, use);
    RecountCounts(s, s', i, use);
  }

  lemma LockAllKeys(os: Os, cs: seq<Chunk>)
    requires ValidOs(os)
    ensures multiset(LockAll(os, cs).live.Keys) == multiset(os.live.Keys) + multiset(Handles(os, |cs|))
    ensures ValidOs(LockAll(os, cs))
    ensures forall h :: h in os.live ==> h in LockAll(os, cs).live && LockAll(os, cs).live[h] == os.live[h]
    decreases |cs|
  {
    if cs == [] {
      assert LockAll(os, cs).live == os.live;
    } else {
      var n := |cs| - 1;
      LockAllKeys(os, cs[..n]);
      LockOneMore(os, cs, n);
      assert cs[..n + 1] == cs;
      assert Handles(os, n + 1) == Handles(os, n) + [os.next + n];
      var before := LockAll(os, cs[..n]);
      assert LockAll(os, cs).live.Keys == before.live.Keys + {os.next + n};
      assert os.next + n !in before.live;
    }
  }

  lemma NewRecordKeeps(m: Locks, sizes: map<nat, nat>, addr: nat)
    requires InvHandles(m) && InvRecords(m, sizes) && addr in sizes && addr < U32 && sizes[addr] < U32
    ensures var cs := RangeChunks(addr, sizes[addr]);
        var m' := Locks(LockAll(m.os, cs), [Record(addr, sizes[addr], 1, Handles(m.os, |cs|))] + m.records);
        InvHandles(m') && InvRecords(m', sizes)
  {
    var cs := RangeChunks(addr, sizes[addr]);
    var added := Record(addr, sizes[addr], 1, Handles(m.os, |cs|));
    InsertedOwns(m, addr, sizes[addr]);
    LockAllKeys(m.os, cs);
    assert ([added] + m.records)[1..] == m.records;
    forall r | r in m.records
      ensures Owns(LockAll(m.os, cs), r)
    {
    }
  }

  lemma SameLiveKeeps(m: Locks, os: Os, sizes: map<nat, nat>)
    requires InvHandles(m) && InvRecords(m, sizes)
    requires os.live == m.os.live && os.strays == m.os.strays && m.os.next <= os.next
    ensures InvHandles(m.(os := os)) && InvRecords(m.(os := os), sizes)
  {
    forall r | r in m.records
      ensures Owns(os, r)
    {
    }
  }

  lemma InsertKeeps(s: State, c: nat, failAt: nat)
    requires Inv(s) && Enabled(s, Insert(c, failAt))
    ensures Inv(Apply(s, Insert(c, failAt)))
  {
    var addr := s.gap[c];
    var cs := RangeChunks(addr, s.sizes[addr]);
    var s' := Apply(s, Insert(c, failAt));
    if Succeeds(addr, s.sizes[addr], failAt) {
      assert cs[..|cs|] == cs;
      NewRecordKeeps(s.m, s.sizes, addr);
      assert s'.m.records[1..] == s.m.records;
    } else {
      RollbackKeeps(s.m, cs[..failAt]);
      SameLiveKeeps(s.m, s'.m.os, s.sizes);
    }
  }

  lemma InsertedOwns(m: Locks, addr: nat, size: nat)
    ensures Owns(LockAll(m.os, RangeChunks(addr, size)), Record(addr, size, 1, Handles(m.os, |RangeChunks(addr, size)|)))
  {
  }

  lemma RollbackKeeps(m: Locks, cs: seq<Chunk>)
    requires ValidOs(m.os)
    ensures var os' := UnlockAll(LockAll(m.os, cs), Handles(m.os, |cs|));
        os'.live == m.os.live && os'.strays == m.os.strays && os'.next >= m.os.next
  {
    RollbackRestores(m.os, cs);
    UnlockKeepsNext(LockAll(m.os, cs), Handles(m.os, |cs|));
  }

  lemma {:induction false} UnlockKeepsNext(os: Os, hs: seq<nat>)
    ensures UnlockAll(os, hs).next == os.next
    decreases |hs|
  {
    if hs != [] {
      UnlockKeepsNext(VmUnlock(os, hs[0]), hs[1..]);
    }
  }

  lemma UnlockLastUse(s: State, addr: nat)
    requires Inv(s) && Find(s.m.records, addr).Some? && s.m.records[Find(s.m.records, addr).value].use == 1
    ensures Inv(Apply(s, Unlock(addr)))
  {
    var i := Find(s.m.records, addr).value;
    ReleasedIs(s.m, addr);
    LastUseKeeps(s.m, s.sizes, i);
    LastUseCounts(s, Apply(s, Unlock(addr)), i);
  }

  lemma UnlockOneUse(s: State, addr: nat)
    requires Inv(s) && Find(s.m.records, addr).Some? && s.m.records[Find(s.m.records, addr).value].use > 1
    ensures Inv(Apply(s, Unlock(addr)))
  {
    var i := Find(s.m.records, addr).value;
    var r := s.m.records[i];
    assert r in s.m.records;
    ReleasedIs(s.m, addr);
    RecountKeeps(s.m, s.sizes, i, r.use - 1);
    RecountCounts(s, Apply(s, Unlock(addr)), i, r.use - 1);
  }

  lemma UnlockKeeps(s: State, addr: nat)
    requires Inv(s) && Find(s.m.records, addr).Some?
    ensures Inv(Apply(s, Unlock(addr)))
  {
    assert s.m.records[Find(s.m.records, addr).value] in s.m.records;
    if s.m.records[Find(s.m.records, addr).value].use == 1 {
      UnlockLastUse(s, addr);
    } else {
      UnlockOneUse(s, addr);
    }
  }

  lemma LastUseCounts(s: State, s': State, i: nat)
    requires InvCounts(s) && i < |s.m.records| && s.m.records[i].use == 1
    requires s'.m.records == Without(s.m.records, i) && s'.locked == s.locked
    requires s'.unlocked == s.unlocked + multiset{s.m.records[i].addr}
    ensures InvCounts(s')
  {
    forall a
      ensures Uses(s'.m.records, a) + s'.unlocked[a] == s'.locked[a]
    {
      UsesAt(s.m.records, i, s.m.records[i], a);
    }
  }

  /** Taking a row of handles, each counted once, out of the live ones. */
  lemma RowRemoved(all: seq<nat>, hs: seq<nat>, keys: set<nat>)
    requires multiset(all) + multiset(hs) == multiset(keys)
    ensures Distinct(hs) && (forall h :: h in hs ==> h in keys && h !in all)
    ensures multiset(all) == multiset(keys - (set h | h in hs))
  {
    OnceEach(hs, keys);
    forall h
      ensures multiset(all)[h] == multiset(keys - (set k | k in hs))[h]
      ensures h in hs ==> h !in all
    {
      OnceCounts(hs, h);
      assert (multiset(all) + multiset(hs))[h] == multiset(keys)[h];
      assert h in all <==> multiset(all)[h] > 0;
    }
  }

  /** Giving up the last use of a record releases each of its handles once and none of another record. */
  lemma LastUseKeeps(m: Locks, sizes: map<nat, nat>, i: nat)
    requires InvHandles(m) && InvRecords(m, sizes) && i < |m.records|
    ensures var m' := Locks(UnlockAll(m.os, m.records[i].handles), Without(m.records, i));
        InvHandles(m') && InvRecords(m', sizes)
  {
    var hs := m.records[i].handles;
    var rest := Without(m.records, i);
    HandlesAt(m.records, i, m.records[i]);
    RowRemoved(AllHandles(rest), hs, m.os.live.Keys);
    UnlockAllLive(m.os, hs);
    var os' := UnlockAll(m.os, hs);
    assert os'.live.Keys == m.os.live.Keys - (set h | h in hs);
    forall r | r in rest
      ensures r in m.records && Owns(os', r)
    {
      StillOwns(m.os, os', hs, rest, r);
    }
  }

  lemma StillOwns(os: Os, os': Os, hs: seq<nat>, rest: seq<Record>, r: Record)
    requires r in rest && Owns(os, r) && os'.live == os.live - (set h | h in hs)
    requires forall h :: h in hs ==> h !in AllHandles(rest)
    ensures Owns(os', r)
  {
    forall j | 0 <= j < |r.handles|
      ensures r.handles[j] in os'.live && os'.live[r.handles[j]] == os.live[r.handles[j]]
    {
      HandleListed(rest, r, r.handles[j]);
    }
  }

  lemma {:induction false} OnceCounts(hs: seq<nat>, h: nat)
    requires Distinct(hs)
    ensures multiset(hs)[h] == if h in hs then 1 else 0
    decreases |hs|
  {
    if hs != [] {
      var n := |hs| - 1;
      OnceCounts(hs[..n], h);
      assert hs == hs[..n] + [hs[n]];
      assert forall i :: 0 <= i < n ==> hs[i] != hs[n];
    }
  }

  lemma StepKeeps(s: State, step: Step)
    requires Inv(s) && Enabled(s, step)
    ensures Inv(Apply(s, step))
  {
    match step
    case Lookup(c, addr) =>
      if Find(s.m.records, addr).Some? {
        ShareKeeps(s, c, addr);
      }
    case Insert(c, failAt) => InsertKeeps(s, c, failAt);
    case Unlock(addr) =>
      if Find(s.m.records, addr).Some? {
        UnlockKeeps(s, addr);
      }
  }

  lemma {:induction false} RunKeeps(s: State, steps: seq<Step>)
    requires Inv(s) && Legal(s, steps)
    ensures Inv(After(s, steps))
    decreases |steps|
  {
    if steps != [] {
      StepKeeps(s, steps[0]);
      RunKeeps(Apply(s, steps[0]), steps[1..]);
    }
  }

  lemma ReachableInv(s: State)
    requires Reachable(s)
    ensures Inv(s)
  {
    var sizes, steps :| Legal(Init(sizes), steps) && s == After(Init(sizes), steps);
    var m := Init(sizes).m;
    assert multiset(AllHandles(m.records)) == multiset(m.os.live.Keys);
    RunKeeps(Init(sizes), steps);
  }

  // ---------------------------------------------------------------- the promises

  /** Use counts are exact in every interleaving, however many records an address got. */
  lemma UsesAreExact(s: State, addr: nat)
    requires Reachable(s)
    ensures Uses(s.m.records, addr) + s.unlocked[addr] == s.locked[addr]
  {
    ReachableInv(s);
  }

  /** No handle is ever released twice or leaked: every live handle is in one slot of one record. */
  lemma HandlesConserved(s: State, h: nat)
    requires Reachable(s)
    ensures s.m.os.strays == 0
    ensures multiset(AllHandles(s.m.records))[h] == if h in s.m.os.live then 1 else 0
  {
    ReachableInv(s);
  }

  lemma {:induction false} UsedRecord(records: seq<Record>, addr: nat) returns (i: nat)
    requires Uses(records, addr) > 0
    ensures i < |records| && records[i].addr == addr
    decreases |records|
  {
    if records[0].addr == addr {
      i := 0;
    } else {
      var j := UsedRecord(records[1..], addr);
      i := j + 1;
    }
  }

  /** Some live OS lock contains the byte. */
  ghost predicate Held(os: Os, x: nat) {
    exists h :: h in os.live && os.live[h].addr <= x < os.live[h].addr + os.live[h].size
  }

  lemma OwnedIsHeld(os: Os, r: Record, x: nat)
    requires Owns(os, r) && r.addr < U32 && r.size < U32
    requires r.addr + r.size <= U32 && r.addr % PAGE_SIZE + r.size <= LARGEST_ROUNDED
    requires PageDown(r.addr) <= x < PageUp(r.addr + r.size)
    ensures Held(os, x)
  {
    var cs := RangeChunks(r.addr, r.size);
    RangeTiles(r.addr, r.size);
    var k := TilesCover(cs, PageDown(r.addr), PageUp(r.addr + r.size), x);
    assert r.handles[k] in os.live && os.live[r.handles[k]] == cs[k];
  }

  /** As long as an address was locked more often than unlocked, every byte of its range is in a live OS lock. */
  lemma PagesStayLocked(s: State, addr: nat, x: nat)
    requires Reachable(s) && s.unlocked[addr] < s.locked[addr]
    ensures addr in s.sizes
    ensures addr + s.sizes[addr] <= U32 && addr % PAGE_SIZE + s.sizes[addr] <= LARGEST_ROUNDED
            && PageDown(addr) <= x < PageUp(addr + s.sizes[addr])
            ==> Held(s.m.os, x)
  {
    ReachableInv(s);
    var i := UsedRecord(s.m.records, addr);
    var r := s.m.records[i];
    assert r in s.m.records;
    if addr + r.size <= U32 && addr % PAGE_SIZE + r.size <= LARGEST_ROUNDED && PageDown(addr) <= x < PageUp(addr + r.size) {
      OwnedIsHeld(s.m.os, r, x);
    }
  }

  /** Once every lock of every address was undone, the OS holds no lock and the registry is empty. */
  lemma BalancedRunsEnd(s: State)
    requires Reachable(s) && s.locked == s.unlocked
    ensures s.m.records == [] && s.m.os.live == map[]
  {
    ReachableInv(s);
    if s.m.records != [] {
      UsedOnce(s.m.records);
    }
    assert multiset(AllHandles(s.m.records)) == multiset(s.m.os.live.Keys);
    assert forall h :: h in s.m.os.live ==> multiset(s.m.os.live.Keys)[h] == 1;
  }

  lemma UsedOnce(records: seq<Record>)
    requires records != [] && records[0].use > 0
    ensures Uses(records, records[0].addr) > 0
  {
  }

  lemma {:induction false} TilesWithin(cs: seq<Chunk>, lo: nat, hi: nat, i: nat)
    requires Tiles(cs, lo, hi) && i < |cs|
    ensures lo <= cs[i].addr && cs[i].addr + cs[i].size <= hi
    decreases |cs|
  {
    if |cs| > 1 {
      var n := |cs| - 1;
      var front := cs[..n];
      assert cs[(n - 1) + 1].addr == cs[n - 1].addr + cs[n - 1].size;
      forall k | 0 <= k < |front| - 1
        ensures front[k + 1].addr == front[k].addr + front[k].size
      {
        assert cs[k + 1].addr == cs[k].addr + cs[k].size;
      }
      if i < n {
        TilesWithin(front, lo, cs[n].addr, i);
      } else {
        TilesWithin(front, lo, cs[n].addr, n - 1);
      }
    }
  }

  /** Locks taken from an OS without any hold exactly the range they tile. */
  lemma OnlyTilesHeld(cs: seq<Chunk>, lo: nat, hi: nat, x: nat)
    requires Tiles(cs, lo, hi)
    ensures Held(LockAll(Os(map[], 0, 0), cs), x) <==> lo <= x < hi
  {
    var os := LockAll(Os(map[], 0, 0), cs);
    if lo <= x < hi {
      var k := TilesCover(cs, lo, hi, x);
      assert k in os.live && os.live[k] == cs[k];
    }
    forall h | h in os.live && os.live[h].addr <= x < os.live[h].addr + os.live[h].size
      ensures lo <= x < hi
    {
      TilesWithin(cs, lo, hi, h);
    }
  }

  /**
   Why one size per address: a lock call that finds a record succeeds whatever size it asks for. Starting
   from an empty registry, a call for `second` bytes after one for `first` bytes has all its pages locked
   exactly when they are pages of the first call.
   */
  lemma SecondSizeNotLocked(addr: nat, first: nat, second: nat)
    requires addr + first <= U32 && addr < U32 && first < U32 && addr % PAGE_SIZE + first <= LARGEST_ROUNDED && second > 0
    ensures var m1 := Inserted(Locks(Os(map[], 0, 0), []), addr, first, |RangeChunks(addr, first)|);
        var m2 := Shared(m1, addr);
        && Find(m1.records, addr).Some?
        && ((forall x :: PageDown(addr) <= x < PageUp(addr + second) ==> Held(m2.os, x))
            <==> PageUp(addr + second) <= PageUp(addr + first))
  {
    var os := Os(map[], 0, 0);
    var cs := RangeChunks(addr, first);
    assert cs[..|cs|] == cs;
    var m1 := Inserted(Locks(os, []), addr, first, |cs|);
    assert m1.os == LockAll(os, cs) && Shared(m1, addr).os == m1.os;
    var lo, hi := PageDown(addr), PageUp(addr + first);
    RangeTiles(addr, first);
    forall x: nat
      ensures Held(m1.os, x) <==> lo <= x < hi
    {
      OnlyTilesHeld(cs, lo, hi, x);
    }
    if hi < PageUp(addr + second) {
      assert lo <= hi && !Held(m1.os, hi);
    }
  }
}
