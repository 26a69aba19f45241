/** The registry of memory objects in Dev32/lxmemory.c: a list that caches virtual-to-physical translations. */
module MemoryObjects {
  import opened Machine

  datatype Kind = Malloced | PhysToVirt | VirtToPhys

  /** A registry record; `node` is the address of the record itself. */
  datatype Obj = Obj(node: nat, virt: nat, phys: nat, unaligned: nat, size: nat, flags: nat, kind: Kind)

  /** The OS: the translations in force, and which addresses each allocated block covers. */
  datatype Os = Os(xlat: map<nat, nat>, blocks: map<nat, set<nat>>)

  datatype Registry = Registry(objs: seq<Obj>, os: Os)

  function FindVirt(objs: seq<Obj>, addr: nat): (r: Option<nat>)
    ensures r.Some? ==> r.value < |objs| && objs[r.value].virt == addr
    ensures r.Some? ==> forall i :: 0 <= i < r.value ==> objs[i].virt != addr
    ensures r.None? ==> forall i :: 0 <= i < |objs| ==> objs[i].virt != addr
  {
    if objs == [] then None
    else if objs[0].virt == addr then Some(0)
    else match FindVirt(objs[1..], addr)
      case None => None
      case Some(i) => Some(i + 1)
  }

  function FindPhys(objs: seq<Obj>, addr: nat): (r: Option<nat>)
    ensures r.Some? ==> r.value < |objs| && objs[r.value].phys == addr
    ensures r.Some? ==> forall i :: 0 <= i < r.value ==> objs[i].phys != addr
    ensures r.None? ==> forall i :: 0 <= i < |objs| ==> objs[i].phys != addr
  {
    if objs == [] then None
    else if objs[0].phys == addr then Some(0)
    else match FindPhys(objs[1..], addr)
      case None => None
      case Some(i) => Some(i + 1)
  }

  /** DevVMFree: the block's addresses lose their translation; an address that starts no block changes nothing. */
  function VmFreed(os: Os, a: nat): Os {
    if a in os.blocks then Os(os.xlat - os.blocks[a], os.blocks - {a}) else os
  }

  /** DevLinToPageList for an address, when it may also fail for reasons of its own. */
  function Translation(os: Os, v: nat, works: bool): Option<nat> {
    if works && v in os.xlat then Some(os.xlat[v]) else None
  }

  /** __LX_malloc once the OS has mapped a block that starts at `unaligned` and contains `virt`. */
  function Allocated(r: Registry, o: Obj, mapping: map<nat, nat>): Registry {
    Registry([o] + r.objs, Os(r.os.xlat + mapping, r.os.blocks[o.unaligned := mapping.Keys]))
  }

  function Freed(r: Registry, ptr: nat): Registry {
    match FindVirt(r.objs, ptr)
    case Some(i) =>
      if r.objs[i].kind != VirtToPhys then Registry(Without(r.objs, i), VmFreed(r.os, r.objs[i].unaligned))
      else r.(os := VmFreed(r.os, ptr))
    case None => r.(os := VmFreed(r.os, ptr))
  }

  /** LX__pa: the registry afterwards and the answer, zero where there is none. */
  function Pa(r: Registry, v: nat, works: bool, node: nat): (Registry, nat) {
    var t := Translation(r.os, v, works);
    match FindVirt(r.objs, v)
    case Some(i) =>
      var o := if r.objs[i].phys == 0 && t.Some? then r.objs[i].(phys := t.value) else r.objs[i];
      (r.(objs := r.objs[i := o]), o.phys)
    case None =>
      if t.Some? then (r.(objs := [Obj(node, v, t.value, v, 4096, 0, VirtToPhys)] + r.objs), t.value)
      else (r, 0)
  }

  /** LX__va: an address that has no record is mapped at `fresh`, or nowhere when the OS refuses. */
  function Va(r: Registry, p: nat, granted: Option<nat>, node: nat): (Registry, nat) {
    match FindPhys(r.objs, p)
    case Some(i) => (r, r.objs[i].virt)
    case None =>
      match granted
      case None => (r, 0)
      case Some(v) =>
        (Registry([Obj(node, v, p, p, 4096, 0, PhysToVirt)] + r.objs, r.os.(xlat := r.os.xlat[v := p])), v)
  }

  // ---------------------------------------------------------------- relocation

  function Reversed<T>(s: seq<T>): (r: seq<T>)
    ensures |r| == |s|
    ensures forall i :: 0 <= i < |s| ==> r[i] == s[|s| - 1 - i]
  {
    if s == [] then [] else Reversed(s[1..]) + [s[0]]
  }

  /** The records as LX_InitComplete_Memory leaves them: reversed, record number `k` copied to node `first + k`. */
  function Moved(objs: seq<Obj>, first: nat): (r: seq<Obj>)
    ensures |r| == |objs|
  {
    Reversed(seq(|objs|, k requires 0 <= k < |objs| => objs[k].(node := first + k)))
  }

  class Memory {
    var objs: seq<Obj>
    var os: Os
    /** The address that LX_alloc_memobj gives the next record. */
    var nextNode: nat
    /** The record addresses handed back to the OS, in order. */
    ghost var freedNodes: seq<nat>

    ghost function View(): Registry
      reads this
    {
      Registry(objs, os)
    }

    method FindMemobj(addr: nat, byPhys: bool) returns (r: Option<nat>)
      ensures r == if byPhys then FindPhys(objs, addr) else FindVirt(objs, addr)
    {
      var i := 0;
      if byPhys {
        while i < |objs|
          invariant 0 <= i <= |objs|
          invariant forall k :: 0 <= k < i ==> objs[k].phys != addr
        {
          if objs[i].phys == addr {
            return Some(i);
          }
          i := i + 1;
        }
      } else {
        while i < |objs|
          invariant 0 <= i <= |objs|
          invariant forall k :: 0 <= k < i ==> objs[k].virt != addr
        {
          if objs[i].virt == addr {
            return Some(i);
          }
          i := i + 1;
        }
      }
      return None;
    }

    method NewNode() returns (node: nat)
      modifies this`nextNode
      ensures node == old(nextNode) && nextNode == node + 1
    {
      node := nextNode;
      nextNode := nextNode + 1;
    }

    /** __LX_malloc; `mapping` is what the OS maps for the block, None when it refuses. */
    method Malloc(size: nat, flags: nat, virt: nat, unaligned: nat, mapping: Option<map<nat, nat>>) returns (p: nat)
      modifies this
      ensures mapping.None? ==> p == 0 && View() == old(View()) && freedNodes == old(freedNodes) + [old(nextNode)]
      ensures mapping.Some? ==> p == virt && freedNodes == old(freedNodes)
      ensures mapping.Some? ==>
          View() == Allocated(old(View()), Obj(old(nextNode), virt, 0, unaligned, size, flags, Malloced), mapping.value)
    {
      var node := NewNode();
      match mapping {
        case None =>
          freedNodes := freedNodes + [node];
          p := 0;
        case Some(m) =>
          os := Os(os.xlat + m, os.blocks[unaligned := m.Keys]);
          objs := [Obj(node, virt, 0, unaligned, size, flags, Malloced)] + objs;
          p := virt;
      }
    }

    method Free(ptr: nat)
      modifies this
      ensures View() == Freed(old(View()), ptr) && nextNode == old(nextNode)
      ensures var i := FindVirt(old(objs), ptr);
          freedNodes == old(freedNodes) +
            if i.Some? && old(objs)[i.value].kind != VirtToPhys then [old(objs)[i.value].node] else []
    {
      var r := FindMemobj(ptr, false);
      if r.Some? && objs[r.value].kind != VirtToPhys {
        var pm := objs[r.value];
        objs := objs[..r.value] + objs[r.value + 1..];
        os := VmFreed(os, pm.unaligned);
        freedNodes := freedNodes + [pm.node];
      } else {
        os := VmFreed(os, ptr);
      }
    }

    method PhysAddr(v: nat, works: bool) returns (pa: nat)
      modifies this
      ensures (View(), pa) == Pa(old(View()), v, works, old(nextNode))
      ensures freedNodes == old(freedNodes) +
          if FindVirt(old(objs), v).None? && Translation(old(os), v, works).None? then [old(nextNode)] else []
    {
      var t := Translation(os, v, works);
      var r := FindMemobj(v, false);
      pa := 0;
      if r.Some? {
        if objs[r.value].phys == 0 && t.Some? {
          objs := objs[r.value := objs[r.value].(phys := t.value)];
        }
        pa := objs[r.value].phys;
        assert objs == old(objs)[r.value := objs[r.value]];
      } else {
        var node := NewNode();
        if t.Some? {
          pa := t.value;
          objs := [Obj(node, v, pa, v, 4096, 0, VirtToPhys)] + objs;
        } else {
          freedNodes := freedNodes + [node];
        }
      }
    }

    method VirtAddr(p: nat, granted: Option<nat>) returns (va: nat)
      modifies this
      ensures (View(), va) == Va(old(View()), p, granted, old(nextNode))
      ensures freedNodes == old(freedNodes) +
          if FindPhys(old(objs), p).None? && granted.None? then [old(nextNode)] else []
    {
      var r := FindMemobj(p, true);
      va := 0;
      if r.Some? {
        va := objs[r.value].virt;
      } else {
        var node := NewNode();
        if granted.None? {
          freedNodes := freedNodes + [node];
        } else {
          va := granted.value;
          os := os.(xlat := os.xlat[va := p]);
          objs := [Obj(node, va, p, p, 4096, 0, PhysToVirt)] + objs;
        }
      }
    }

    /** LX_InitComplete_Memory: every record moves to a new node and every old node is freed once. */
    method InitComplete()
      modifies this
      ensures objs == Moved(old(objs), old(nextNode)) && os == old(os) && nextNode == old(nextNode) + |old(objs)|
      ensures freedNodes == old(freedNodes) + seq(|old(objs)|, k requires 0 <= k < |old(objs)| => old(objs)[k].node)
    {
      ghost var all, first, before := objs, nextNode, freedNodes;
      var nl: seq<Obj> := [];
      ghost var k := 0;
      while objs != []
        invariant k <= |all| && objs == all[k..]
        invariant nextNode == first + k && os == old(os)
        invariant |nl| == k && forall i :: 0 <= i < k ==> nl[i] == all[k - 1 - i].(node := first + (k - 1 - i))
        invariant freedNodes == before + seq(k, i requires 0 <= i < k => all[i].node)
        decreases |objs|
      {
        var oldObj := objs[0];
        assert oldObj == all[k] && objs[1..] == all[k + 1..];
        var node := NewNode();
        nl := [oldObj.(node := node)] + nl;
        objs := objs[1..];
        freedNodes := freedNodes + [oldObj.node];
        k := k + 1;
      }
      objs := nl + objs;
      assert objs == Moved(all, first);
    }
  }

  // ---------------------------------------------------------------- lookups across the relocation

  predicate SameFields(a: Obj, b: Obj) {
    a.(node := 0) == b.(node := 0)
  }

  ghost predicate UniqueVirt(objs: seq<Obj>) {
    forall i, j :: 0 <= i < j < |objs| ==> objs[i].virt != objs[j].virt
  }

  /** The same record fields are found under `v`, or none in either list. */
  ghost predicate SameLookup(objs: seq<Obj>, objs': seq<Obj>, v: nat) {
    match (FindVirt(objs, v), FindVirt(objs', v))
    case (None, None) => true
    case (Some(i), Some(j)) => SameFields(objs[i], objs'[j])
    case _ => false
  }

  /** With unique virtual addresses, every lookup by virtual address gives the same fields after the relocation as before. */
  lemma RelocationKeepsLookups(objs: seq<Obj>, first: nat, v: nat)
    requires UniqueVirt(objs)
    ensures SameLookup(objs, Moved(objs, first), v)
  {
    MovedAt(objs, first);
    var objs' := Moved(objs, first);
    match FindVirt(objs, v)
    case None =>
    case Some(i) => assert objs'[|objs| - 1 - i].virt == v;
  }

  lemma MovedAt(objs: seq<Obj>, first: nat)
    ensures forall i :: 0 <= i < |objs| ==>
        Moved(objs, first)[i] == objs[|objs| - 1 - i].(node := first + (|objs| - 1 - i))
  {
  }

  // ---------------------------------------------------------------- runs

  /**
   Environment inputs: the OS maps a new block or page only at addresses that have no translation yet, never
   at zero, and a malloc'd block starts at an address that starts no other block.
   */
  datatype Step =
    | DoMalloc(o: Obj, mapping: map<nat, nat>)
    | DoFree(ptr: nat)
    | DoPa(v: nat, works: bool, node: nat)
    | DoVa(p: nat, granted: Option<nat>, node: nat)
    | DoRelocate(first: nat)

  /** No record but the one to be freed lies in the block that goes away with it. */
  ghost predicate AloneInBlock(r: Registry, i: nat)
    requires i < |r.objs|
  {
    r.objs[i].unaligned in r.os.blocks ==>
      forall k :: 0 <= k < |r.objs| && k != i ==> r.objs[k].virt !in r.os.blocks[r.objs[i].unaligned]
  }

  ghost predicate Enabled(r: Registry, step: Step) {
    match step
    case DoMalloc(o, mapping) =>
      && o.kind == Malloced && o.phys == 0 && o.unaligned !in r.os.blocks
      && o.virt in mapping && 0 !in mapping && mapping.Keys !! r.os.xlat.Keys
    case DoFree(ptr) =>
      var i := FindVirt(r.objs, ptr);
      i.Some? && r.objs[i.value].kind == Malloced && AloneInBlock(r, i.value)
    case DoPa(v, _, _) => v != 0
    case DoVa(_, granted, _) => granted.Some? ==> granted.value != 0 && granted.value !in r.os.xlat
    case DoRelocate(_) => true
  }

  function Apply(r: Registry, step: Step): Registry {
    match step
    case DoMalloc(o, mapping) => Allocated(r, o, mapping)
    case DoFree(ptr) => Freed(r, ptr)
    case DoPa(v, works, node) => Pa(r, v, works, node).0
    case DoVa(p, granted, node) => Va(r, p, granted, node).0
    case DoRelocate(first) => r.(objs := Moved(r.objs, first))
  }

  ghost predicate Legal(r: Registry, steps: seq<Step>)
    decreases |steps|
  {
    steps == [] || (Enabled(r, steps[0]) && Legal(Apply(r, steps[0]), steps[1..]))
  }

  ghost function After(r: Registry, steps: seq<Step>): Registry
    requires Legal(r, steps)
    decreases |steps|
  {
    if steps == [] then r else After(Apply(r, steps[0]), steps[1..])
  }

  /** Reached from an empty registry, whatever the OS had mapped before. */
  ghost predicate Reachable(r: Registry) {
    exists xlat: map<nat, nat>, steps ::
      0 !in xlat && Legal(Registry([], Os(xlat, map[])), steps) && r == After(Registry([], Os(xlat, map[])), steps)
  }

  /** A cached translation is the one in force. */
  ghost predicate Agrees(r: Registry) {
    forall o :: o in r.objs && o.phys != 0 ==> o.virt in r.os.xlat && r.os.xlat[o.virt] == o.phys
  }

  ghost predicate InvMapped(r: Registry) {
    && (forall o :: o in r.objs ==> o.virt in r.os.xlat)
    && 0 !in r.os.xlat
    && (forall b :: b in r.os.blocks ==> r.os.blocks[b] <= r.os.xlat.Keys)
    && (forall b, c :: b in r.os.blocks && c in r.os.blocks && b != c ==> r.os.blocks[b] !! r.os.blocks[c])
  }

  ghost predicate InvOwners(r: Registry) {
    forall o :: o in r.objs && o.kind == Malloced ==> o.unaligned in r.os.blocks && o.virt in r.os.blocks[o.unaligned]
  }

  ghost predicate Inv(r: Registry) {
    UniqueVirt(r.objs) && Agrees(r) && InvMapped(r) && InvOwners(r)
  }

  lemma MallocKeeps(r: Registry, o: Obj, mapping: map<nat, nat>)
    requires Inv(r) && Enabled(r, DoMalloc(o, mapping))
    ensures Inv(Allocated(r, o, mapping))
  {
    var r' := Allocated(r, o, mapping);
    forall i | 0 <= i < |r.objs|
      ensures r.objs[i].virt != o.virt
    {
      assert r.objs[i] in r.objs;
    }
    assert forall p :: p in r'.objs ==> p == o || p in r.objs;
  }

  lemma WithoutStaysUnique(objs: seq<Obj>, i: nat)
    requires UniqueVirt(objs) && i < |objs|
    ensures UniqueVirt(Without(objs, i))
    ensures forall o :: o in Without(objs, i) ==> exists k :: 0 <= k < |objs| && k != i && objs[k] == o
  {
    var rest := Without(objs, i);
    forall k | 0 <= k < |rest|
      ensures rest[k] == objs[if k < i then k else k + 1]
    {
    }
  }

  lemma FreeKeeps(r: Registry, ptr: nat)
    requires Inv(r) && Enabled(r, DoFree(ptr))
    ensures Inv(Freed(r, ptr))
  {
    var i := FindVirt(r.objs, ptr).value;
    var freed := r.objs[i];
    assert freed in r.objs;
    var r' := Freed(r, ptr);
    WithoutStaysUnique(r.objs, i);
    assert r'.objs == Without(r.objs, i);
    assert r'.os == Os(r.os.xlat - r.os.blocks[freed.unaligned], r.os.blocks - {freed.unaligned});
    forall o | o in r'.objs
      ensures o in r.objs && o.virt !in r.os.blocks[freed.unaligned]
    {
      var k :| 0 <= k < |r.objs| && k != i && r.objs[k] == o;
    }
    forall o | o in r'.objs && o.kind == Malloced
      ensures o.unaligned != freed.unaligned
    {
    }
  }

  lemma PaKeeps(r: Registry, v: nat, works: bool, node: nat)
    requires Inv(r) && v != 0
    ensures Inv(Pa(r, v, works, node).0)
  {
    var r' := Pa(r, v, works, node).0;
    match FindVirt(r.objs, v)
    case None =>
    case Some(i) =>
      assert r.objs[i] in r.objs;
      forall o | o in r'.objs
        ensures o in r.objs || o == r'.objs[i]
      {
      }
  }

  lemma VaKeeps(r: Registry, p: nat, granted: Option<nat>, node: nat)
    requires Inv(r) && Enabled(r, DoVa(p, granted, node))
    ensures Inv(Va(r, p, granted, node).0)
  {
    if granted.Some? {
      forall i | 0 <= i < |r.objs|
        ensures r.objs[i].virt != granted.value
      {
        assert r.objs[i] in r.objs;
      }
    }
  }

  lemma RelocationKeeps(r: Registry, first: nat)
    requires Inv(r)
    ensures Inv(r.(objs := Moved(r.objs, first)))
  {
    MovedAt(r.objs, first);
    var objs' := Moved(r.objs, first);
    forall o | o in objs'
      ensures exists p :: p in r.objs && SameFields(o, p)
    {
      var i :| 0 <= i < |objs'| && objs'[i] == o;
      assert r.objs[|r.objs| - 1 - i] in r.objs && SameFields(o, r.objs[|r.objs| - 1 - i]);
    }
  }

  lemma {:induction false} RunKeeps(r: Registry, steps: seq<Step>)
    requires Inv(r) && Legal(r, steps)
    ensures Inv(After(r, steps))
    decreases |steps|
  {
    if steps != [] {
      match steps[0] {
        case DoMalloc(o, mapping) => MallocKeeps(r, o, mapping);
        case DoFree(ptr) => FreeKeeps(r, ptr);
        case DoPa(v, works, node) => PaKeeps(r, v, works, node);
        case DoVa(p, granted, node) => VaKeeps(r, p, granted, node);
        case DoRelocate(first) => RelocationKeeps(r, first);
      }
      RunKeeps(Apply(r, steps[0]), steps[1..]);
    }
  }

  /**
   In every run, across the relocation too, the cache agrees with the OS and no virtual address has two records.
   Runs free blocks in which no other record lies.
   */
  lemma CacheAgrees(r: Registry)
    requires Reachable(r)
    ensures UniqueVirt(r.objs) && Agrees(r)
  {
    ReachableInv(r);
  }

  lemma ReachableInv(r: Registry)
    requires Reachable(r)
    ensures Inv(r)
  {
    var xlat: map<nat, nat>, steps :|
      0 !in xlat && Legal(Registry([], Os(xlat, map[])), steps) && r == After(Registry([], Os(xlat, map[])), steps);
    RunKeeps(Registry([], Os(xlat, map[])), steps);
  }

  /** LX__pa answers with the translation in force whether or not the address has a record, cached or not. */
  lemma PaIsTranslation(r: Registry, v: nat, works: bool, node: nat)
    requires Reachable(r) && v in r.os.xlat
    ensures works ==> Pa(r, v, works, node).1 == r.os.xlat[v]
    ensures Pa(r, v, works, node).1 in {0, r.os.xlat[v]}
  {
    ReachableInv(r);
    match FindVirt(r.objs, v)
    case None =>
    case Some(i) => assert r.objs[i] in r.objs;
  }

  /** Translating there and back: the physical address of where LX__va maps `p` is `p`, cached or just mapped. */
  lemma PaOfVa(r: Registry, p: nat, granted: Option<nat>, node: nat, works: bool, node': nat)
    requires Reachable(r) && p != 0 && Enabled(r, DoVa(p, granted, node))
    ensures var (r1, va) := Va(r, p, granted, node);
        va != 0 ==> Pa(r1, va, works, node').1 == p
  {
    ReachableInv(r);
    VaKeeps(r, p, granted, node);
    var (r1, va) := Va(r, p, granted, node);
    match FindPhys(r.objs, p)
    case Some(i) =>
      var j := FindVirt(r.objs, va).value;
      assert i == j;
    case None =>
  }

  /**
   LX__va answers whenever it can: for a physical address that has a record, or for which the OS grants a page,
   the answer is a mapped address that translates back to it. Asked again it gives the same address, and no
   record or mapping is added.
   */
  lemma VaMaps(r: Registry, p: nat, granted: Option<nat>, node: nat, granted': Option<nat>, node': nat)
    requires Reachable(r) && p != 0 && Enabled(r, DoVa(p, granted, node))
    requires FindPhys(r.objs, p).Some? || granted.Some?
    ensures var (r1, va) := Va(r, p, granted, node);
        && va != 0 && va in r1.os.xlat && r1.os.xlat[va] == p
        && Va(r1, p, granted', node') == (r1, va)
  {
    ReachableInv(r);
    match FindPhys(r.objs, p)
    case Some(i) => assert r.objs[i] in r.objs && r.objs[i].virt in r.os.xlat;
    case None =>
  }

  /** Where LX__va has no answer it changes nothing: no record and no page. */
  lemma VaRefused(r: Registry, p: nat, node: nat)
    requires FindPhys(r.objs, p).None?
    ensures Va(r, p, None, node) == (r, 0)
  {
  }

  /**
   A translation that LX__pa has found is kept: the address then has a record with it, so the next call gives it
   without the OS, and the lookup by physical address finds a record.
   */
  lemma PaIsKept(r: Registry, v: nat, node: nat, node': nat)
    requires Reachable(r) && v != 0 && v in r.os.xlat && r.os.xlat[v] != 0
    ensures var (r1, pa) := Pa(r, v, true, node);
        && pa == r.os.xlat[v]
        && Pa(r1, v, false, node') == (r1, pa)
        && FindPhys(r1.objs, pa).Some?
        && (exists o :: o in r1.objs && o.virt == v && o.phys == pa)
  {
    PaIsTranslation(r, v, true, node);
    var (r1, pa) := Pa(r, v, true, node);
    match FindVirt(r.objs, v)
    case None =>
      assert r1.objs[0].virt == v && r1.objs[0] in r1.objs && FindVirt(r1.objs, v) == Some(0);
      assert r1.objs[0 := r1.objs[0]] == r1.objs;
    case Some(i) =>
      var o := r1.objs[i];
      assert o.virt == v && o.phys == pa && o in r1.objs;
      assert FindVirt(r1.objs, v) == Some(i) by {
        assert forall k :: 0 <= k < |r.objs| ==> r1.objs[k].virt == r.objs[k].virt;
      }
      assert r1.objs[i := o] == r1.objs;
  }

  /** A block allocated and freed again leaves registry, mappings and blocks as they were. */
  lemma MallocFree(r: Registry, o: Obj, mapping: map<nat, nat>)
    requires Reachable(r) && Enabled(r, DoMalloc(o, mapping))
    ensures FindVirt(Allocated(r, o, mapping).objs, o.virt) == Some(0)
    ensures Freed(Allocated(r, o, mapping), o.virt) == r
  {
    var r1 := Allocated(r, o, mapping);
    assert Without(r1.objs, 0) == r.objs;
    assert (r.os.xlat + mapping) - mapping.Keys == r.os.xlat;
    assert r.os.blocks[o.unaligned := mapping.Keys] - {o.unaligned} == r.os.blocks;
  }

  lemma WithoutForgets(objs: seq<Obj>, i: nat, o: Obj)
    requires UniqueVirt(objs) && i < |objs|
    ensures o in Without(objs, i) <==> o in objs && o.virt != objs[i].virt
  {
    var rest := Without(objs, i);
    if o in rest {
      var k :| 0 <= k < |rest| && rest[k] == o;
      assert o == objs[if k < i then k else k + 1];
    }
    if o in objs && o.virt != objs[i].virt {
      var k :| 0 <= k < |objs| && objs[k] == o;
      assert o == rest[if k < i then k else k - 1];
    }
  }

  /** A free of a malloc'd or mapped address forgets its record and no other. */
  lemma FreeForgets(r: Registry, ptr: nat)
    requires UniqueVirt(r.objs) && FindVirt(r.objs, ptr).Some? && r.objs[FindVirt(r.objs, ptr).value].kind in {Malloced, PhysToVirt}
    ensures FindVirt(Freed(r, ptr).objs, ptr).None?
    ensures forall o :: o in Freed(r, ptr).objs <==> o in r.objs && o.virt != ptr
  {
    var i, rest := FindVirt(r.objs, ptr).value, Freed(r, ptr).objs;
    assert rest == Without(r.objs, i);
    forall o
      ensures o in rest <==> o in r.objs && o.virt != ptr
    {
      WithoutForgets(r.objs, i, o);
    }
    forall k | 0 <= k < |rest|
      ensures rest[k].virt != ptr
    {
      assert rest[k] in rest;
    }
  }

  /** A free of an address that has no record, or one that LX__pa made, leaves every record in place. */
  lemma FreeOfForeign(r: Registry, ptr: nat)
    requires forall o :: o in r.objs && o.virt == ptr ==> o.kind == VirtToPhys
    ensures Freed(r, ptr).objs == r.objs
  {
    match FindVirt(r.objs, ptr)
    case Some(i) => assert r.objs[i] in r.objs;
    case None =>
  }

  lemma {:induction false} RunAppend(r: Registry, steps: seq<Step>, step: Step)
    requires Legal(r, steps) && Enabled(After(r, steps), step)
    ensures Legal(r, steps + [step]) && After(r, steps + [step]) == Apply(After(r, steps), step)
    decreases |steps|
  {
    if steps == [] {
      assert steps + [step] == [step];
      assert Legal(Apply(r, step), []);
    } else {
      assert (steps + [step])[1..] == steps[1..] + [step];
      RunAppend(Apply(r, steps[0]), steps[1..], step);
    }
  }

  lemma ReachableStep(r: Registry, step: Step)
    requires Reachable(r) && Enabled(r, step)
    ensures Reachable(Apply(r, step))
  {
    var xlat: map<nat, nat>, steps :|
      0 !in xlat && Legal(Registry([], Os(xlat, map[])), steps) && r == After(Registry([], Os(xlat, map[])), steps);
    RunAppend(Registry([], Os(xlat, map[])), steps, step);
  }

  /** It can go wrong: a block of two pages, LX__pa on the second, and the block is freed. */
  lemma FreeCanLeaveStale() returns (r: Registry, ptr: nat)
    ensures Reachable(r) && FindVirt(r.objs, ptr).Some? && r.objs[FindVirt(r.objs, ptr).value].kind == Malloced
    ensures !Agrees(Freed(r, ptr))
  {
    ptr := 4096;
    var second := 8192;
    var r0 := Registry([], Os(map[], map[]));
    assert Legal(r0, []) && r0 == After(r0, []);
    var block := Obj(1, ptr, 0, ptr, 8192, 0, Malloced);
    var step := DoMalloc(block, map[ptr := 100, second := 200]);
    ReachableStep(r0, step);
    var r1 := Apply(r0, step);
    assert r1.objs == [block];
    assert FindVirt(r1.objs[1..], second) == None;
    ReachableStep(r1, DoPa(second, true, 2));
    r := Apply(r1, DoPa(second, true, 2));
    var page := Obj(2, second, 200, second, 4096, 0, VirtToPhys);
    assert r.objs == [page, block];
    assert FindVirt(r.objs[1..], ptr) == Some(0);
    assert Freed(r, ptr).objs[0] == page;
  }

  /**
   Why a freed block must not contain another record: with one in it, and only then, the cache keeps a
   translation that the OS has taken back.
   */
  lemma FreeAgreesExactly(r: Registry, ptr: nat)
    requires Reachable(r) && FindVirt(r.objs, ptr).Some?
    requires var i := FindVirt(r.objs, ptr).value; r.objs[i].kind == Malloced && r.objs[i].unaligned in r.os.blocks
    ensures var i := FindVirt(r.objs, ptr).value;
        Agrees(Freed(r, ptr)) <==>
          forall k :: 0 <= k < |r.objs| && k != i && r.objs[k].phys != 0 ==> r.objs[k].virt !in r.os.blocks[r.objs[i].unaligned]
  {
    ReachableInv(r);
    var i := FindVirt(r.objs, ptr).value;
    var rest := Freed(r, ptr).objs;
    forall k | 0 <= k < |r.objs| && k != i
      ensures r.objs[k] in rest && r.objs[k] in r.objs
    {
      assert r.objs[k] == rest[if k < i then k else k - 1];
    }
    WithoutStaysUnique(r.objs, i);
    assert rest == Without(r.objs, i);
  }
}
