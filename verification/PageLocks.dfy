/** The page-lock manager of Dev32/lxmemlock.c: chunked OS locks owned by reference-counted records. */
module PageLocks {
  import opened Machine

  const PAGE_SIZE: nat := 4096
  const MAX_LOCK_SIZE: nat := 61440

  /** The largest page-rounded length that 32 bits hold. */
  const LARGEST_ROUNDED: nat := 0xFFFF_F000

  datatype Chunk = Chunk(addr: nat, size: nat)

  /** The lock handles the OS has given out and not taken back; `strays` counts releases of any other handle. */
  datatype Os = Os(live: map<nat, Chunk>, next: nat, strays: nat)

  ghost predicate ValidOs(os: Os) {
    forall h :: h in os.live ==> h < os.next
  }

  function VmLock(os: Os, c: Chunk): Os {
    os.(live := os.live[os.next := c], next := os.next + 1)
  }

  function VmUnlock(os: Os, h: nat): Os {
    if h in os.live then os.(live := os.live - {h}) else os.(strays := os.strays + 1)
  }

  // ---------------------------------------------------------------- rounding and chunking

  function PageDown(x: nat): nat {
    x / PAGE_SIZE * PAGE_SIZE
  }

  function PageUp(x: nat): nat {
    (x + PAGE_SIZE - 1) / PAGE_SIZE * PAGE_SIZE
  }

  /** The length that the range is rounded to, in 32-bit arithmetic. */
  function RoundedSize(addr: nat, size: nat): nat {
    var s1 := if addr % PAGE_SIZE != 0 then Wrap(size + addr % PAGE_SIZE) else size;
    var s2 := if s1 % PAGE_SIZE != 0 then Wrap(s1 + PAGE_SIZE) else s1;
    s2 - s2 % PAGE_SIZE
  }

  lemma RoundingFits(addr: nat, size: nat)
    requires addr % PAGE_SIZE + size <= LARGEST_ROUNDED
    ensures RoundedSize(addr, size) == PageUp(addr % PAGE_SIZE + size)
  {
    var s1 := addr % PAGE_SIZE + size;
    assert s1 == s1 / PAGE_SIZE * PAGE_SIZE + s1 % PAGE_SIZE;
  }

  lemma RoundingWraps(addr: nat, size: nat)
    requires size < U32 && addr % PAGE_SIZE + size > LARGEST_ROUNDED
    ensures RoundedSize(addr, size) < PageUp(addr % PAGE_SIZE + size)
  {
    var s1 := addr % PAGE_SIZE + size;
    assert PageUp(s1) >= s1;
    assert RoundedSize(addr, size) <= LARGEST_ROUNDED;
  }

  /** The rounding is right exactly when the rounded length fits in 32 bits. */
  lemma RoundingExact(addr: nat, size: nat)
    requires addr < U32 && size < U32
    ensures RoundedSize(addr, size) == PageUp(addr + size) - PageDown(addr)
            <==> addr % PAGE_SIZE + size <= LARGEST_ROUNDED
  {
    var off := addr % PAGE_SIZE;
    assert addr == PageDown(addr) + off;
    PageUpShift(addr / PAGE_SIZE, off + size);
    if off + size <= LARGEST_ROUNDED {
      RoundingFits(addr, size);
    } else {
      RoundingWraps(addr, size);
    }
  }

  lemma PageUpShift(q: nat, x: nat)
    ensures PageUp(q * PAGE_SIZE + x) == q * PAGE_SIZE + PageUp(x)
  {
    assert (q * PAGE_SIZE + x + PAGE_SIZE - 1) / PAGE_SIZE == q + (x + PAGE_SIZE - 1) / PAGE_SIZE;
  }

  /** The pieces that the lock loop asks the OS for, in order. */
  function Chunks(a: nat, size: nat): seq<Chunk>
    decreases size
  {
    if size == 0 then []
    else
      var sz := if MAX_LOCK_SIZE <= size then MAX_LOCK_SIZE else size;
      [Chunk(a, sz)] + Chunks(Wrap(a + sz), size - sz)
  }

  function RangeChunks(addr: nat, size: nat): seq<Chunk> {
    Chunks(PageDown(addr), RoundedSize(addr, size))
  }

  /** `cs` are non-empty, page-aligned pieces of at most 15 pages that follow each other from `lo` to `hi`. */
  ghost predicate Tiles(cs: seq<Chunk>, lo: nat, hi: nat) {
    && (forall i :: 0 <= i < |cs| ==>
          0 < cs[i].size <= 15 * PAGE_SIZE && cs[i].addr % PAGE_SIZE == 0 && cs[i].size % PAGE_SIZE == 0)
    && (forall i :: 0 <= i < |cs| - 1 ==> cs[i + 1].addr == cs[i].addr + cs[i].size)
    && (if cs == [] then lo == hi else cs[0].addr == lo && cs[|cs| - 1].addr + cs[|cs| - 1].size == hi)
  }

  lemma AlignedSteps(a: nat, size: nat, sz: nat)
    requires a % PAGE_SIZE == 0 && size % PAGE_SIZE == 0 && sz % PAGE_SIZE == 0 && sz <= size
    ensures (a + sz) % PAGE_SIZE == 0 && (size - sz) % PAGE_SIZE == 0
  {
  }

  lemma {:induction false} ChunksTile(a: nat, size: nat)
    requires a % PAGE_SIZE == 0 && size % PAGE_SIZE == 0 && a + size <= U32
    ensures Tiles(Chunks(a, size), a, a + size)
    decreases size
  {
    if size > MAX_LOCK_SIZE {
      var rest := size - MAX_LOCK_SIZE;
      AlignedSteps(a, size, MAX_LOCK_SIZE);
      ChunksTile(a + MAX_LOCK_SIZE, rest);
      var c, cs := Chunk(a, MAX_LOCK_SIZE), Chunks(a + MAX_LOCK_SIZE, rest);
      assert Chunks(a, size) == [c] + cs;
      TilesCons(c, cs, a + size);
    } else if size > 0 {
      assert Chunks(a, size) == [Chunk(a, size)] + Chunks(Wrap(a + size), 0);
      assert Chunks(a, size) == [Chunk(a, size)];
    }
  }

  lemma TilesCons(c: Chunk, cs: seq<Chunk>, hi: nat)
    requires Tiles(cs, c.addr + c.size, hi) && cs != []
    requires 0 < c.size <= 15 * PAGE_SIZE && c.addr % PAGE_SIZE == 0 && c.size % PAGE_SIZE == 0
    ensures Tiles([c] + cs, c.addr, hi)
  {
  }

  lemma {:induction false} ChunksCount(a: nat, size: nat)
    ensures |Chunks(a, size)| == (size + MAX_LOCK_SIZE - 1) / MAX_LOCK_SIZE
    decreases size
  {
    if size != 0 {
      var sz := if MAX_LOCK_SIZE <= size then MAX_LOCK_SIZE else size;
      ChunksCount(Wrap(a + sz), size - sz);
    }
  }

  lemma RoundedBound(addr: nat, size: nat)
    ensures RoundedSize(addr, size) <= size + 2 * PAGE_SIZE
  {
    var s1 := if addr % PAGE_SIZE != 0 then Wrap(size + addr % PAGE_SIZE) else size;
    assert s1 <= size + PAGE_SIZE;
    var s2 := if s1 % PAGE_SIZE != 0 then Wrap(s1 + PAGE_SIZE) else s1;
    assert s2 <= s1 + PAGE_SIZE;
  }

  /** The handle buffer that LX_lock_mem allocates has a slot for every chunk, whatever the range. */
  lemma HandlesFit(addr: nat, size: nat)
    requires addr < U32 && size < U32
    ensures |RangeChunks(addr, size)| <= size / MAX_LOCK_SIZE + 4
    ensures (size / MAX_LOCK_SIZE + 4) * 12 < U32
  {
    ChunksCount(PageDown(addr), RoundedSize(addr, size));
    RoundedBound(addr, size);
  }

  /** Unless the rounded length is out of range, the chunks tile the smallest page range around the bytes asked for. */
  lemma RangeTiles(addr: nat, size: nat)
    requires addr + size <= U32 && size < U32 && addr < U32 && addr % PAGE_SIZE + size <= LARGEST_ROUNDED
    ensures Tiles(RangeChunks(addr, size), PageDown(addr), PageUp(addr + size))
  {
    RoundingExact(addr, size);
    assert PageUp(addr + size) <= U32;
    ChunksTile(PageDown(addr), RoundedSize(addr, size));
  }

  /** Every byte of a tiled range lies in one of the pieces. */
  lemma {:induction false} TilesCover(cs: seq<Chunk>, lo: nat, hi: nat, x: nat) returns (i: nat)
    requires Tiles(cs, lo, hi) && lo <= x < hi
    ensures i < |cs| && cs[i].addr <= x < cs[i].addr + cs[i].size
    decreases |cs|
  {
    if x < cs[0].addr + cs[0].size {
      i := 0;
    } else {
      var rest := cs[1..];
      assert rest != [] by {
        assert cs[|cs| - 1].addr + cs[|cs| - 1].size == hi;
      }
      assert rest[|rest| - 1] == cs[|cs| - 1] && rest[0] == cs[1];
      assert cs[0 + 1].addr == cs[0].addr + cs[0].size;
      forall k | 0 <= k < |rest| - 1
        ensures rest[k + 1].addr == rest[k].addr + rest[k].size
      {
        assert cs[(k + 1) + 1].addr == cs[k + 1].addr + cs[k + 1].size;
      }
      var j := TilesCover(rest, cs[0].addr + cs[0].size, hi, x);
      i := j + 1;
    }
  }

  // ---------------------------------------------------------------- taking and releasing a row of locks

  function ChunkAt(cs: seq<Chunk>, base: nat, h: nat): Chunk
    requires base <= h < base + |cs|
  {
    cs[h - base]
  }

  /** The OS after it granted `cs` one by one. */
  function LockAll(os: Os, cs: seq<Chunk>): Os {
    os.(live := os.live + (map h | os.next <= h < os.next + |cs| :: ChunkAt(cs, os.next, h)), next := os.next + |cs|)
  }

  /** The handles it gave out for them. */
  function Handles(os: Os, n: nat): (r: seq<nat>)
    ensures |r| == n
    ensures forall i :: 0 <= i < n ==> r[i] == os.next + i
  {
    seq(n, i => os.next + i)
  }

  function UnlockAll(os: Os, hs: seq<nat>): Os
    decreases |hs|
  {
    if hs == [] then os else UnlockAll(VmUnlock(os, hs[0]), hs[1..])
  }

  lemma LockOneMore(os: Os, all: seq<Chunk>, n: nat)
    requires n < |all|
    ensures VmLock(LockAll(os, all[..n]), all[n]) == LockAll(os, all[..n + 1])
  {
    assert VmLock(LockAll(os, all[..n]), all[n]).live == LockAll(os, all[..n + 1]).live;
  }

  lemma LockNone(os: Os, all: seq<Chunk>)
    ensures LockAll(os, all[..0]) == os
  {
    assert LockAll(os, all[..0]).live == os.live;
  }

  /** With `n` chunks of `all` behind it, the lock loop stands at `a` with `rest` bytes to go. */
  ghost predicate Remaining(all: seq<Chunk>, n: nat, a: nat, rest: nat) {
    n <= |all| && Chunks(a, rest) == all[n..]
  }

  lemma NextChunk(all: seq<Chunk>, n: nat, a: nat, rest: nat, sz: nat)
    requires Remaining(all, n, a, rest) && rest != 0
    requires sz == if MAX_LOCK_SIZE <= rest then MAX_LOCK_SIZE else rest
    ensures n < |all| && all[n] == Chunk(a, sz) && Remaining(all, n + 1, Wrap(a + sz), rest - sz)
  {
    assert all[n] == Chunks(a, rest)[0];
    assert all[n + 1..] == all[n..][1..];
  }

  ghost predicate Distinct(hs: seq<nat>) {
    forall i, j :: 0 <= i < j < |hs| ==> hs[i] != hs[j]
  }

  /** Distinct live handles are released without a stray and exactly they disappear. */
  lemma {:induction false} UnlockAllLive(os: Os, hs: seq<nat>)
    requires Distinct(hs) && forall h :: h in hs ==> h in os.live
    ensures UnlockAll(os, hs) == os.(live := os.live - (set h | h in hs))
    decreases |hs|
  {
    if hs == [] {
      assert os.live - (set h | h in hs) == os.live;
    } else {
      var os1, rest := VmUnlock(os, hs[0]), hs[1..];
      forall h | h in rest
        ensures h in os1.live
      {
        var i :| 0 <= i < |rest| && rest[i] == h;
        assert hs[i + 1] == h && hs[0] != hs[i + 1];
      }
      UnlockAllLive(os1, rest);
      assert hs == [hs[0]] + rest;
      assert os1.live - (set h | h in rest) == os.live - (set h | h in hs);
    }
  }

  /** Locks taken and rolled back leave the lock set of the OS as it was. */
  lemma RollbackRestores(os: Os, cs: seq<Chunk>)
    requires ValidOs(os)
    ensures var os' := UnlockAll(LockAll(os, cs), Handles(os, |cs|)); os'.live == os.live && os'.strays == os.strays
  {
    UnlockAllLive(LockAll(os, cs), Handles(os, |cs|));
    forall h | os.next <= h < os.next + |cs|
      ensures h in Handles(os, |cs|)
    {
      assert Handles(os, |cs|)[h - os.next] == h;
    }
    assert LockAll(os, cs).live - (set h | h in Handles(os, |cs|)) == os.live;
  }

  // ---------------------------------------------------------------- records

  /** A lock record; `handles` are the used slots of its handle buffer. */
  datatype Record = Record(addr: nat, size: nat, use: nat, handles: seq<nat>)

  datatype Locks = Locks(os: Os, records: seq<Record>)

  /** The first record for an address. */
  function Find(records: seq<Record>, addr: nat): (r: Option<nat>)
    ensures r.Some? ==> r.value < |records| && records[r.value].addr == addr
    ensures r.None? ==> forall i :: 0 <= i < |records| ==> records[i].addr != addr
    ensures r.Some? ==> forall i :: 0 <= i < r.value ==> records[i].addr != addr
  {
    if records == [] then None
    else if records[0].addr == addr then Some(0)
    else match Find(records[1..], addr)
      case None => None
      case Some(i) => Some(i + 1)
  }

  /** The first locked block of LX_lock_mem: one more use of a record that exists. */
  function Shared(m: Locks, addr: nat): Locks {
    match Find(m.records, addr)
    case None => m
    case Some(i) => m.(records := m.records[i := m.records[i].(use := Wrap(m.records[i].use + 1))])
  }

  /** How many chunks the OS grants when it refuses chunk number `failAt`. */
  function Granted(addr: nat, size: nat, failAt: nat): (n: nat)
    ensures n <= |RangeChunks(addr, size)|
  {
    if failAt < |RangeChunks(addr, size)| then failAt else |RangeChunks(addr, size)|
  }

  predicate Succeeds(addr: nat, size: nat, failAt: nat) {
    |RangeChunks(addr, size)| <= failAt
  }

  /** The second locked block of LX_lock_mem: a new record, or the locks taken so far rolled back. */
  function Inserted(m: Locks, addr: nat, size: nat, failAt: nat): Locks {
    var n := Granted(addr, size, failAt);
    var os := LockAll(m.os, RangeChunks(addr, size)[..n]);
    var hs := Handles(m.os, n);
    if Succeeds(addr, size, failAt) then Locks(os, [Record(addr, size, 1, hs)] + m.records)
    else m.(os := UnlockAll(os, hs))
  }

  /** LX_unlock_mem: one use less, and with the last use the record and its locks are gone. */
  function Released(m: Locks, addr: nat): Locks {
    match Find(m.records, addr)
    case None => m
    case Some(i) =>
      var r := m.records[i];
      if r.use == 1 then Locks(UnlockAll(m.os, r.handles), Without(m.records, i))
      else m.(records := m.records[i := r.(use := Wrap(r.use - 1))])
  }

  class Manager {
    var os: Os
    var list: seq<Record>

    ghost function View(): Locks
      reads this
    {
      Locks(os, list)
    }

    /** LX_get_lockstruct. */
    method GetLockStruct(addr: nat) returns (r: Option<nat>)
      ensures r == Find(list, addr)
    {
      var i := 0;
      while i < |list|
        invariant 0 <= i <= |list|
        invariant Find(list, addr) == match Find(list[i..], addr) case None => None case Some(k) => Some(i + k)
      {
        assert list[i..][1..] == list[i + 1..];
        if list[i].addr == addr {
          return Some(i);
        }
        i := i + 1;
      }
      return None;
    }

    /** The loop of _LX_lock_mem over a page-aligned range, with the OS refusing call number `failAt`. */
    method LockChunks(start: nat, length: nat, failAt: nat, lock: array<nat>) returns (ok: bool, numLocks: nat)
      requires |Chunks(start, length)| <= lock.Length
      modifies this`os, lock
      ensures ok <==> |Chunks(start, length)| <= failAt
      ensures numLocks == if ok then |Chunks(start, length)| else failAt
      ensures numLocks <= |Chunks(start, length)| && os == LockAll(old(os), Chunks(start, length)[..numLocks])
      ensures lock[..numLocks] == Handles(old(os), numLocks)
    {
      var a: nat, rest: nat := start, length;
      ok, numLocks := true, 0;
      ghost var all, before := Chunks(start, length), os;
      LockNone(os, all);
      while rest != 0 && ok
        invariant numLocks <= |all| && (ok ==> Remaining(all, numLocks, a, rest) && numLocks <= failAt)
        invariant !ok ==> numLocks == failAt < |all|
        invariant os == LockAll(before, all[..numLocks])
        invariant forall i :: 0 <= i < numLocks ==> lock[i] == before.next + i
        decreases rest, ok
      {
        var sz := if MAX_LOCK_SIZE <= rest then MAX_LOCK_SIZE else rest;
        NextChunk(all, numLocks, a, rest, sz);
        if numLocks == failAt {
          ok := false;
        } else {
          LockOneMore(before, all, numLocks);
          lock[numLocks] := os.next;
          os := VmLock(os, Chunk(a, sz));
          a := Wrap(a + sz);
          rest := rest - sz;
          numLocks := numLocks + 1;
        }
      }
    }

    /** _LX_lock_mem; `lock` is the handle buffer, one slot per 12 bytes. */
    method LockRange(addr: nat, size: nat, failAt: nat, lock: array<nat>) returns (ok: bool, numLocks: nat)
      requires addr < U32 && size < U32 && lock.Length == size / MAX_LOCK_SIZE + 4
      modifies this`os, lock
      ensures ok <==> Succeeds(addr, size, failAt)
      ensures numLocks == Granted(addr, size, failAt) <= lock.Length
      ensures os == LockAll(old(os), RangeChunks(addr, size)[..numLocks])
      ensures lock[..numLocks] == Handles(old(os), numLocks)
    {
      HandlesFit(addr, size);
      var a := addr;
      var rest := size;
      if a % PAGE_SIZE != 0 {
        a := a - a % PAGE_SIZE;
        rest := Wrap(rest + (addr - a));
      }
      if rest % PAGE_SIZE != 0 {
        rest := Wrap(rest + PAGE_SIZE);
      }
      rest := rest - rest % PAGE_SIZE;
      assert a == PageDown(addr) && rest == RoundedSize(addr, size);
      ok, numLocks := LockChunks(a, rest, failAt, lock);
    }

    /** _LX_unlock_mem. */
    method UnlockRange(handles: seq<nat>)
      modifies this`os
      ensures os == UnlockAll(old(os), handles)
    {
      var i := 0;
      while i < |handles|
        invariant 0 <= i <= |handles|
        invariant UnlockAll(os, handles[i..]) == UnlockAll(old(os), handles)
      {
        assert handles[i..][1..] == handles[i + 1..];
        os := VmUnlock(os, handles[i]);
        i := i + 1;
      }
    }

    /** LX_lock_mem up to the point where it lets go of the registry for the first time. */
    method TryShare(addr: nat) returns (found: bool)
      modifies this
      ensures found <==> Find(old(list), addr).Some?
      ensures View() == Shared(old(View()), addr)
    {
      var r := GetLockStruct(addr);
      found := r.Some?;
      if found {
        var p := list[r.value];
        list := list[r.value := p.(use := Wrap(p.use + 1))];
      }
    }

    /** The rest of LX_lock_mem, when there was no record. */
    method Insert(addr: nat, size: nat, failAt: nat) returns (ok: bool)
      requires addr < U32 && size < U32
      modifies this
      ensures ok <==> Succeeds(addr, size, failAt)
      ensures View() == Inserted(old(View()), addr, size, failAt)
    {
      var lock := new nat[size / MAX_LOCK_SIZE + 4];
      var numLocks;
      ok, numLocks := LockRange(addr, size, failAt, lock);
      if ok {
        list := [Record(addr, size, 1, lock[..numLocks])] + list;
      } else {
        UnlockRange(lock[..numLocks]);
      }
    }

    /** LX_unlock_mem; the result is None where the source answers -ENOENT. */
    method UnlockMem(addr: nat) returns (left: Option<nat>)
      modifies this
      ensures View() == Released(old(View()), addr)
      ensures left == match Find(old(list), addr)
                      case None => None
                      case Some(i) => Some(if old(list)[i].use == 1 then 0 else Wrap(old(list)[i].use - 1))
    {
      var r := GetLockStruct(addr);
      if r.None? {
        return None;
      }
      var p := list[r.value];
      if p.use == 1 {
        UnlockRange(p.handles);
        list := Without(list, r.value);
        left := Some(0);
      } else {
        var u := Wrap(p.use - 1);
        list := list[r.value := p.(use := u)];
        left := Some(u);
      }
    }
  }
}
