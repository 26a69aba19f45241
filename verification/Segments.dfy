/** The selector pool of Dev32/lxmemory.c and the segment builder of Dev32/lxsegments.c. */
module Segments {
  import opened Machine

  const MAX_GDTSELECTORS: nat := 64
  const MAX_SEGMENT_SIZE: nat := 65535

  /** What a selector is mapped to. */
  datatype Descriptor = Descriptor(base: nat, length: nat, kind: nat)

  /** The selectors that the OS reserved at boot: 64 different ones, none of them null. */
  ghost predicate ValidTable(table: seq<nat>) {
    && |table| == MAX_GDTSELECTORS
    && (forall i :: 0 <= i < |table| ==> table[i] != 0)
    && (forall i, j :: 0 <= i < j < |table| ==> table[i] != table[j])
  }

  /** The selectors whose slots are taken. */
  ghost function Taken(table: seq<nat>, used: seq<bool>): set<nat>
    requires |used| == |table|
  {
    set i | 0 <= i < |table| && used[i] :: table[i]
  }

  /** How many slots are taken. */
  function UsedCount(used: seq<bool>): nat {
    if used == [] then 0 else (if used[0] then 1 else 0) + UsedCount(used[1..])
  }

  function NumSels(size: nat): nat {
    size / MAX_SEGMENT_SIZE + 1
  }

  /** The length that selector number `i` of a segment covers. */
  function Piece(size: nat, i: nat): nat {
    var rest: int := size - i * MAX_SEGMENT_SIZE;
    if rest > MAX_SEGMENT_SIZE then MAX_SEGMENT_SIZE else if rest < 0 then 0 else rest
  }

  /** Selector number `i` maps the bytes from 65535 * i on, at most 65535 of them and none beyond the segment. */
  ghost predicate Maps(gdt: map<nat, Descriptor>, sels: seq<nat>, phys: nat, size: nat, kind: nat) {
    forall i :: 0 <= i < |sels| ==>
        sels[i] in gdt && gdt[sels[i]] == Descriptor(Start(phys, i), Piece(size, i), kind)
  }

  ghost predicate Different(s: seq<nat>) {
    forall i, j :: 0 <= i < j < |s| ==> s[i] != s[j]
  }

  /** Where the piece of selector number `i` starts. */
  function Start(phys: nat, i: nat): nat {
    phys + i * MAX_SEGMENT_SIZE
  }

  /** The descriptors of a segment follow each other without gap or overlap from its first byte to its last. */
  lemma PiecesTile(phys: nat, size: nat, x: nat)
    requires size > 0
    ensures forall i :: 0 <= i < NumSels(size) ==> Piece(size, i) <= MAX_SEGMENT_SIZE
    ensures phys <= x < phys + size <==>
        exists i :: 0 <= i < NumSels(size)
          && Start(phys, i) <= x < Start(phys, i) + Piece(size, i)
    ensures forall i, j :: 0 <= i < j < NumSels(size) ==>
        Start(phys, i) + Piece(size, i) <= Start(phys, j)
  {
    if phys <= x < phys + size {
      var i := (x - phys) / MAX_SEGMENT_SIZE;
      assert x - phys == i * MAX_SEGMENT_SIZE + (x - phys) % MAX_SEGMENT_SIZE;
      assert i <= size / MAX_SEGMENT_SIZE;
      assert Start(phys, i) <= x < Start(phys, i) + Piece(size, i);
    }
  }

  /** It takes the least number of selectors that leave at least one byte of the last one unused, an empty one at worst. */
  lemma NumSelsLeast(size: nat, n: nat)
    ensures n >= NumSels(size) <==> n * 65535 > size
  {
    assert size == size / 65535 * 65535 + size % 65535;
    if n >= NumSels(size) {
      assert n * 65535 >= (size / 65535 + 1) * 65535;
    } else {
      assert n * 65535 <= size / 65535 * 65535;
    }
  }

  /** Which slots are taken after the slots of `sels` were given out or taken back. */
  ghost predicate Differs(table: seq<nat>, used: seq<bool>, used': seq<bool>, sels: seq<nat>, now: bool)
    requires |table| == |used|
  {
    && |used'| == |used|
    && forall i :: 0 <= i < |used| ==> used'[i] == if table[i] in sels then now else used[i]
  }

  class Pool {
    const table: seq<nat>
    var used: array<bool>
    /** The descriptor table of the OS. */
    var gdt: map<nat, Descriptor>

    ghost predicate Valid()
      reads this
    {
      ValidTable(table) && used.Length == |table|
    }

    constructor (selectors: seq<nat>)
      requires ValidTable(selectors)
      ensures Valid() && fresh(used) && table == selectors && forall i :: 0 <= i < used.Length ==> !used[i]
    {
      table := selectors;
      used := new bool[MAX_GDTSELECTORS](_ => false);
      gdt := map[];
    }

    method AllocSelector() returns (sel: nat)
      requires Valid()
      modifies used
      ensures sel == 0 <==> forall i :: 0 <= i < used.Length ==> old(used[i])
      ensures sel == 0 ==> used[..] == old(used[..])
      ensures sel != 0 ==> sel in table && sel !in Taken(table, old(used[..]))
      ensures sel != 0 ==> Differs(table, old(used[..]), used[..], [sel], true)
    {
      var i := 0;
      while i < MAX_GDTSELECTORS
        invariant 0 <= i <= MAX_GDTSELECTORS
        invariant forall k :: 0 <= k < i ==> used[k]
      {
        if !used[i] {
          used[i] := true;
          return table[i];
        }
        i := i + 1;
      }
      return 0;
    }

    method FreeSelector(selector: nat) returns (found: bool)
      requires Valid()
      modifies used
      ensures found <==> selector in table
      ensures Differs(table, old(used[..]), used[..], [selector], false)
    {
      var i := 0;
      while i < MAX_GDTSELECTORS
        invariant 0 <= i <= MAX_GDTSELECTORS
        invariant forall k :: 0 <= k < i ==> table[k] != selector
      {
        if table[i] == selector {
          used[i] := false;
          return true;
        }
        i := i + 1;
      }
      return false;
    }

    /** The clean-up loops of LX_alloc_segment and LX_free_segment; an empty slot of `sels` is skipped. */
    method FreeAll(sels: seq<nat>)
      requires Valid()
      modifies used
      ensures Differs(table, old(used[..]), used[..], sels, false)
    {
      var i := 0;
      while i < |sels|
        invariant 0 <= i <= |sels|
        invariant Differs(table, old(used[..]), used[..], sels[..i], false)
      {
        label before:
        if sels[i] != 0 {
          var _ := FreeSelector(sels[i]);
        }
        assert sels[..i + 1] == sels[..i] + [sels[i]];
        assert Differs(table, old@before(used[..]), used[..], [sels[i]], false);
        i := i + 1;
      }
      assert sels[..|sels|] == sels;
    }

    /**
     LX_alloc_segment for a mapped range of `size` > 0 bytes at `phys`; the OS refuses to map selector number
     `mapFails`, and the linear address of the first one when `linearFails`. A failure at any step leaves the
     pool as it was; success takes different free selectors that map the range piece by piece.
     */
    method AllocSegment(kind: nat, size: nat, phys: nat, mapFails: nat, linearFails: bool)
      returns (ok: bool, sels: seq<nat>)
      requires Valid() && 0 < size < U32 && phys + size <= U32
      modifies this`gdt, used
      ensures ok ==> |sels| == NumSels(size) && Different(sels)
      ensures ok ==> forall i :: 0 <= i < |sels| ==> sels[i] in table && sels[i] !in Taken(table, old(used[..]))
      ensures ok ==> Differs(table, old(used[..]), used[..], sels, true)
      ensures ok ==> Maps(gdt, sels, phys, size, kind)
      ensures ok ==> mapFails >= NumSels(size) && !linearFails
      ensures !ok ==> used[..] == old(used[..])
      ensures !ok && mapFails >= NumSels(size) && !linearFails ==>
          exists s: seq<nat> :: |s| < NumSels(size) && Different(s) && forall i :: 0 <= i < used.Length ==> old(used[i]) || table[i] in s
      ensures forall s :: s in old(gdt) && s in Taken(table, old(used[..])) ==> s in gdt && gdt[s] == old(gdt[s])
    {
      sels := [];
      ok := true;
      var lastPhysical, rest := phys, size;
      var full := false;
      ghost var before := used[..];
      var i := 0;
      while i < NumSels(size) && ok
        invariant 0 <= i <= NumSels(size)
        invariant ok ==> |sels| == i && Maps(gdt, sels, phys, size, kind)
        invariant ok ==> i <= mapFails && (i > 0 ==> !linearFails) && lastPhysical == phys + (size - rest)
        invariant ok ==> rest == if i * MAX_SEGMENT_SIZE <= size then size - i * MAX_SEGMENT_SIZE else 0
        invariant Different(sels) && forall k :: 0 <= k < |sels| ==> sels[k] in table && sels[k] !in Taken(table, before)
        invariant Differs(table, before, used[..], sels, true)
        invariant !ok && mapFails >= NumSels(size) && !linearFails ==> |sels| < NumSels(size)
        invariant !ok && mapFails >= NumSels(size) && !linearFails ==>
            forall k :: 0 <= k < used.Length ==> before[k] || table[k] in sels
        invariant forall s :: s in old(gdt) && s in Taken(table, before) ==> s in gdt && gdt[s] == old(gdt[s])
        decreases NumSels(size) - i, ok
      {
        var sz := if rest > MAX_SEGMENT_SIZE then MAX_SEGMENT_SIZE else rest;
        var sel := AllocSelector();
        if sel == 0 {
          ok := false;
        } else {
          sels := sels + [sel];
          if i == mapFails {
            ok := false;
          } else {
            gdt := gdt[sel := Descriptor(lastPhysical, sz, kind)];
            if i == 0 && linearFails {
              ok := false;
            } else {
              lastPhysical := lastPhysical + sz;
              rest := rest - sz;
              i := i + 1;
            }
          }
        }
      }
      if !ok {
        FreeAll(sels);
        assert used[..] == before;
      }
    }
  }

  // ---------------------------------------------------------------- runs of allocations and releases

  /** The selectors of the live segments, one after the other. */
  function AllSels(live: seq<seq<nat>>): seq<nat> {
    if live == [] then [] else live[0] + AllSels(live[1..])
  }

  /** The pool's slots and the selector rows of the live segments. */
  datatype State = State(used: seq<bool>, live: seq<seq<nat>>)

  datatype Step =
    | Alloc(size: nat, sels: seq<nat>, used': seq<bool>)
    | AllocFails(size: nat)
    | Free(i: nat, used': seq<bool>)

  /** What `Pool.AllocSegment` and `Pool.FreeAll` promise about the pool, and no more; size zero takes no selector. */
  ghost predicate Enabled(table: seq<nat>, s: State, step: Step)
    requires |s.used| == |table|
  {
    match step
    case Alloc(size, sels, used') =>
      && |sels| == (if size == 0 then 0 else NumSels(size)) && Different(sels)
      && (forall k :: 0 <= k < |sels| ==> sels[k] in table && sels[k] !in Taken(table, s.used))
      && Differs(table, s.used, used', sels, true)
    case AllocFails(_) => true
    case Free(i, used') => i < |s.live| && Differs(table, s.used, used', s.live[i], false)
  }

  ghost function Apply(s: State, step: Step): State {
    match step
    case Alloc(_, sels, used') => State(used', s.live + [sels])
    case AllocFails(_) => s
    case Free(i, used') => if i < |s.live| then State(used', Without(s.live, i)) else s
  }

  ghost predicate Legal(table: seq<nat>, s: State, steps: seq<Step>)
    decreases |steps|
  {
    steps == [] || (|s.used| == |table| && Enabled(table, s, steps[0]) && Legal(table, Apply(s, steps[0]), steps[1..]))
  }

  ghost function After(s: State, steps: seq<Step>): State
    decreases |steps|
  {
    if steps == [] then s else After(Apply(s, steps[0]), steps[1..])
  }

  function Boot(): State {
    State(seq(MAX_GDTSELECTORS, _ => false), [])
  }

  /** The selectors of live segments are exactly the taken ones, each in one place. */
  ghost predicate Inv(table: seq<nat>, s: State) {
    |s.used| == |table| && multiset(AllSels(s.live)) == multiset(Taken(table, s.used))
  }

  lemma {:induction false} AllSelsSplit(a: seq<seq<nat>>, b: seq<seq<nat>>)
    ensures AllSels(a + b) == AllSels(a) + AllSels(b)
    decreases |a|
  {
    if a == [] {
      assert a + b == b;
    } else {
      assert (a + b)[1..] == a[1..] + b;
      AllSelsSplit(a[1..], b);
    }
  }

  lemma {:induction false} CountsOnce(s: seq<nat>, x: nat)
    ensures x in multiset(s) <==> x in s
    ensures Different(s) ==> multiset(s)[x] == if x in s then 1 else 0
    decreases |s|
  {
    if s != [] {
      var n := |s| - 1;
      CountsOnce(s[..n], x);
      assert s == s[..n] + [s[n]];
      assert forall i :: 0 <= i < n ==> s[..n][i] == s[i];
    }
  }

  lemma TakenAfter(table: seq<nat>, used: seq<bool>, used': seq<bool>, sels: seq<nat>, now: bool, x: nat)
    requires ValidTable(table) && |used| == |table| && Differs(table, used, used', sels, now)
    ensures x in Taken(table, used') <==> x in table && if x in sels then now else x in Taken(table, used)
  {
    if x in table {
      var i :| 0 <= i < |table| && table[i] == x;
      assert x in Taken(table, used') <==> used'[i];
      assert x in Taken(table, used) <==> used[i];
    }
  }

  lemma AllocKeeps(table: seq<nat>, s: State, step: Step)
    requires ValidTable(table) && Inv(table, s) && step.Alloc? && Enabled(table, s, step)
    ensures Inv(table, Apply(s, step))
  {
    AllSelsSplit(s.live, [step.sels]);
    assert AllSels([step.sels]) == step.sels;
    forall x
      ensures multiset(AllSels(s.live + [step.sels]))[x] == multiset(Taken(table, step.used'))[x]
    {
      CountsOnce(step.sels, x);
      TakenAfter(table, s.used, step.used', step.sels, true, x);
      assert multiset(AllSels(s.live))[x] == multiset(Taken(table, s.used))[x];
    }
  }

  lemma FreeKeeps(table: seq<nat>, s: State, step: Step)
    requires ValidTable(table) && Inv(table, s) && step.Free? && Enabled(table, s, step)
    ensures Inv(table, Apply(s, step))
  {
    var i := step.i;
    var a, b := s.live[..i], s.live[i + 1..];
    assert s.live == a + [s.live[i]] + b;
    AllSelsSplit(a + [s.live[i]], b);
    AllSelsSplit(a, [s.live[i]]);
    AllSelsSplit(a, b);
    assert AllSels([s.live[i]]) == s.live[i];
    forall x
      ensures multiset(AllSels(a + b))[x] == multiset(Taken(table, step.used'))[x]
    {
      assert multiset(AllSels(a + b))[x] + multiset(s.live[i])[x] == multiset(Taken(table, s.used))[x] <= 1;
      CountsOnce(s.live[i], x);
      TakenAfter(table, s.used, step.used', s.live[i], false, x);
    }
  }

  lemma {:induction false} RunKeeps(table: seq<nat>, s: State, steps: seq<Step>)
    requires ValidTable(table) && Inv(table, s) && Legal(table, s, steps)
    ensures Inv(table, After(s, steps))
    decreases |steps|
  {
    if steps != [] {
      if steps[0].Alloc? {
        AllocKeeps(table, s, steps[0]);
      } else if steps[0].Free? {
        FreeKeeps(table, s, steps[0]);
      }
      RunKeeps(table, Apply(s, steps[0]), steps[1..]);
    }
  }

  lemma {:induction false} CountTaken(table: seq<nat>, used: seq<bool>)
    requires |used| == |table| && Different(table)
    ensures |Taken(table, used)| == UsedCount(used)
    decreases |used|
  {
    if used == [] {
      assert Taken(table, used) == {};
    } else {
      CountTaken(table[1..], used[1..]);
      var rest := Taken(table[1..], used[1..]);
      assert table[0] !in rest;
      forall x
        ensures x in Taken(table, used) <==> x in rest || (used[0] && x == table[0])
      {
        if x in Taken(table, used) {
          var i :| 0 <= i < |table| && used[i] && table[i] == x;
          if i > 0 {
            assert table[1..][i - 1] == x && used[1..][i - 1];
          }
        }
        if x in rest {
          var i :| 0 <= i < |table| - 1 && used[1..][i] && table[1..][i] == x;
          assert table[i + 1] == x && used[i + 1];
        }
      }
      assert Taken(table, used) == rest + (if used[0] then {table[0]} else {});
    }
  }

  /**
   Selector conservation over any run: as many slots are taken as the live segments have selectors, a
   selector is taken exactly when a live segment has it, and no two places hold the same one.
   */
  lemma SelectorsConserved(table: seq<nat>, steps: seq<Step>)
    requires ValidTable(table) && Legal(table, Boot(), steps)
    ensures var s := After(Boot(), steps);
        && |s.used| == |table|
        && UsedCount(s.used) == |AllSels(s.live)|
        && Different(AllSels(s.live))
        && (forall x :: x in AllSels(s.live) <==> x in Taken(table, s.used))
  {
    assert Taken(table, Boot().used) == {};
    RunKeeps(table, Boot(), steps);
    var s := After(Boot(), steps);
    var all := AllSels(s.live);
    CountTaken(table, s.used);
    assert |multiset(all)| == |all| && |multiset(Taken(table, s.used))| == |Taken(table, s.used)|;
    forall i, j | 0 <= i < j < |all|
      ensures all[i] != all[j]
    {
      assert all == all[..j] + [all[j]] + all[j + 1..];
      assert all[..j][i] == all[i];
      CountsOnce(all[..j], all[j]);
      assert multiset(all)[all[j]] <= 1;
      assert multiset(all) == multiset(all[..j]) + multiset{all[j]} + multiset(all[j + 1..]);
    }
    forall x
      ensures x in all <==> x in Taken(table, s.used)
    {
      CountsOnce(all, x);
      assert multiset(all)[x] == multiset(Taken(table, s.used))[x];
    }
  }
}
