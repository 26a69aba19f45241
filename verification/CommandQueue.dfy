/** The two command lists of the driver: what each spin-locked block of Dev32/lxdaemon.c does to them. */
module CommandQueue {
  import opened Machine

  const CMD_SHUTDOWN: nat := 10001
  const CMD_INC_DATAPACKETLEN: nat := 10002
  const CMD_RESTART: nat := 10007
  const STATE_RUNNING: nat := 2
  const STATE_GOING: nat := 3
  const ERROR_NO_CHILDREN: nat := 128

  /** How many handles the counter goes through before it repeats: every 32-bit value but zero. */
  const HANDLES: nat := 0xFFFF_FFFF

  datatype Packet = Packet(rc: nat, cbMaxDataLen: nat, cmd: nat, hcmd: nat, cmdBlockID: nat, cbCmdDataLen: nat)

  /**
   A list entry: the packet and the bytes allocated behind it. `ticket` is the position of the
   command in submission order; it is history, and no branch of the driver looks at it.
   */
  datatype Entry = Entry(packet: Packet, payload: Bytes, ticket: nat)

  datatype Driver = Driver(waiting: seq<Entry>, done: seq<Entry>, handle: nat, pid: nat, phase: nat)

  predicate Blocking(e: Entry) {
    e.packet.cmdBlockID != 0
  }

  function Tickets(s: seq<Entry>): (r: seq<nat>)
    ensures |r| == |s|
  {
    seq(|s|, i requires 0 <= i < |s| => s[i].ticket)
  }

  // ---------------------------------------------------------------- handles

  /** The handle counter: incremented, and once more when that made it zero. */
  function NextHandle(h: nat): nat {
    var h1 := Wrap(h + 1);
    if h1 == 0 then Wrap(h1 + 1) else h1
  }

  /** The counter after `n` submissions, in closed form. */
  function HandleAfter(n: nat): (h: nat)
    ensures h < U32 && (h == 0 <==> n == 0)
  {
    if n == 0 then 0 else 1 + (n - 1) % HANDLES
  }

  lemma HandleCounts(n: nat)
    ensures NextHandle(HandleAfter(n)) == HandleAfter(n + 1)
  {
    if n != 0 {
      assert n - 1 == (n - 1) / HANDLES * HANDLES + (n - 1) % HANDLES;
    }
  }

  /** Two submissions get the same handle exactly when a multiple of 2^32 - 1 submissions lies between them. */
  lemma HandlesCollide(i: nat, j: nat)
    requires i <= j
    ensures HandleAfter(i + 1) == HandleAfter(j + 1) <==> (j - i) % HANDLES == 0
  {
    assert i == i / HANDLES * HANDLES + i % HANDLES && j == j / HANDLES * HANDLES + j % HANDLES;
  }

  /** Any 2^32 - 1 consecutive submissions have pairwise different, non-zero handles. */
  lemma HandlesDistinct(i: nat, j: nat)
    requires i < j < i + HANDLES
    ensures HandleAfter(i + 1) != HandleAfter(j + 1)
    ensures HandleAfter(i + 1) != 0
  {
    HandlesCollide(i, j);
  }

  // ---------------------------------------------------------------- one function per locked block

  function Enqueue(d: Driver, e: Entry): Driver {
    var h := NextHandle(d.handle);
    d.(handle := h, waiting := d.waiting + [e.(packet := e.packet.(hcmd := h))])
  }

  /** The first entry of a list that carries handle `h`. */
  function Position(list: seq<Entry>, h: nat): (r: Option<nat>)
    ensures r.Some? ==> r.value < |list| && list[r.value].packet.hcmd == h
    ensures r.Some? ==> forall k :: 0 <= k < r.value ==> list[k].packet.hcmd != h
    ensures r.None? ==> forall k :: 0 <= k < |list| ==> list[k].packet.hcmd != h
  {
    if list == [] then None
    else if list[0].packet.hcmd == h then Some(0)
    else match Position(list[1..], h)
      case None => None
      case Some(k) => Some(k + 1)
  }

  /** The packet of a fetched command as it is handed to the daemon. */
  function Handed(pa: Packet, e: Entry): Packet {
    e.packet.(rc := pa.rc, cbMaxDataLen := pa.cbMaxDataLen)
  }

  /** The reply to a daemon whose buffer is too small. */
  function AskMore(pa: Packet): Packet {
    pa.(cmd := CMD_INC_DATAPACKETLEN, hcmd := 0, cmdBlockID := 0)
  }

  function OnlyBlocking(s: seq<Entry>): (r: seq<Entry>)
  {
    if s == [] then []
    else (if Blocking(s[0]) then [s[0]] else []) + OnlyBlocking(s[1..])
  }

  function OnlyFree(s: seq<Entry>): (r: seq<Entry>)
  {
    if s == [] then []
    else (if Blocking(s[0]) then [] else [s[0]]) + OnlyFree(s[1..])
  }

  function Failed(e: Entry): Entry {
    e.(packet := e.packet.(rc := ERROR_NO_CHILDREN))
  }

  function AllFailed(s: seq<Entry>): (r: seq<Entry>)
    ensures |r| == |s|
    ensures forall i :: 0 <= i < |s| ==> r[i] == Failed(s[i])
  {
    seq(|s|, i requires 0 <= i < |s| => Failed(s[i]))
  }

  function Closed(d: Driver): Driver {
    d.(waiting := [], done := AllFailed(d.done + OnlyBlocking(d.waiting)), pid := 0, phase := STATE_GOING)
  }

  lemma SplitAppend(s: seq<Entry>, e: Entry)
    ensures OnlyBlocking(s + [e]) == OnlyBlocking(s) + (if Blocking(e) then [e] else [])
    ensures OnlyFree(s + [e]) == OnlyFree(s) + (if Blocking(e) then [] else [e])
  {
    if s != [] {
      assert (s + [e])[1..] == s[1..] + [e];
      SplitAppend(s[1..], e);
    }
  }

  lemma TicketsAppend(a: seq<Entry>, b: seq<Entry>)
    ensures Tickets(a + b) == Tickets(a) + Tickets(b)
    ensures multiset(Tickets(a + b)) == multiset(Tickets(a)) + multiset(Tickets(b))
  {
    assert Tickets(a + b) == Tickets(a) + Tickets(b);
  }

  /** The two halves of a split list are together the list: nothing is kept twice and nothing is dropped. */
  lemma {:induction false} SplitConserves(s: seq<Entry>)
    ensures multiset(Tickets(OnlyBlocking(s))) + multiset(Tickets(OnlyFree(s))) == multiset(Tickets(s))
  {
    if s != [] {
      var n := |s| - 1;
      SplitConserves(s[..n]);
      SplitAppend(s[..n], s[n]);
      assert s == s[..n] + [s[n]];
      TicketsAppend(s[..n], [s[n]]);
      var kept := if Blocking(s[n]) then [s[n]] else [];
      var freed := if Blocking(s[n]) then [] else [s[n]];
      TicketsAppend(OnlyBlocking(s[..n]), kept);
      TicketsAppend(OnlyFree(s[..n]), freed);
      assert Tickets([s[n]]) == [s[n].ticket] && Tickets([]) == [];
    }
  }

  /** And the kept half is in the order of the list. */
  lemma {:induction false} SplitKeepsOrder(s: seq<Entry>)
    requires Increasing(Tickets(s))
    ensures Increasing(Tickets(OnlyBlocking(s)))
    ensures forall e :: e in OnlyBlocking(s) <==> e in s && Blocking(e)
    decreases |s|
  {
    if s != [] {
      var rest := OnlyBlocking(s[1..]);
      forall i, j | 0 <= i < j < |s[1..]|
        ensures Tickets(s[1..])[i] < Tickets(s[1..])[j]
      {
        assert Tickets(s)[i + 1] < Tickets(s)[j + 1];
      }
      SplitKeepsOrder(s[1..]);
      forall e | e in rest
        ensures s[0].ticket < e.ticket
      {
        var k :| 0 <= k < |s[1..]| && s[1..][k] == e;
        assert Tickets(s)[0] < Tickets(s)[k + 1];
      }
      assert s == [s[0]] + s[1..];
      TicketsAppend(if Blocking(s[0]) then [s[0]] else [], rest);
      assert forall k :: 0 <= k < |rest| ==> rest[k] in rest;
    }
  }

  // ---------------------------------------------------------------- the driver's own data

  class Queues {
    var waiting: seq<Entry>
    var done: seq<Entry>
    var cmdHandle: nat
    var pid: nat
    var phase: nat
    /** Entries handed to kfree, in order. */
    ghost var freed: seq<Entry>

    ghost function View(): Driver
      reads this
    {
      Driver(waiting, done, cmdHandle, pid, phase)
    }

    constructor ()
      ensures View() == Driver([], [], 0, 0, 0) && freed == []
    {
      waiting, done, cmdHandle, pid, phase := [], [], 0, 0, 0;
      freed := [];
    }

    /** The locked block of LX_dmn_add_command. */
    method AddCommand(e: Entry) returns (hcmd: nat)
      modifies this
      ensures View() == Enqueue(old(View()), e)
      ensures hcmd == cmdHandle && freed == old(freed)
    {
      cmdHandle := Wrap(cmdHandle + 1);
      if cmdHandle == 0 {
        cmdHandle := Wrap(cmdHandle + 1);
      }
      hcmd := cmdHandle;
      waiting := waiting + [e.(packet := e.packet.(hcmd := hcmd))];
    }

    /** One turn of the loop in LX_get_next_command; None when the list was empty and the loop waits again. */
    method TakeNext() returns (e: Option<Entry>)
      modifies this
      ensures old(waiting) == [] ==> e == None && View() == old(View())
      ensures old(waiting) != [] ==> e == Some(old(waiting)[0]) && View() == old(View()).(waiting := old(waiting)[1..])
      ensures freed == old(freed)
    {
      e := None;
      if waiting != [] {
        e := Some(waiting[0]);
        waiting := waiting[1..];
      }
    }

    /**
     The fetch ioctl run without interference, `dp` being the daemon's buffer and `memory` the buffers of
     blocked callers. A head command that does not fit stays at the head and the daemon is asked to grow;
     one that fits arrives with its own bytes in front of what the buffer held.
     */
    method Fetch(pa: Packet, dp: Bytes, current: nat, memory: map<nat, Bytes>)
      returns (answered: bool, pa': Packet, dp': Bytes)
      requires current != 0 && pa.cbMaxDataLen <= |dp|
      requires forall e :: e in waiting ==>
          if Blocking(e) then e.packet.cmdBlockID in memory && e.packet.cbCmdDataLen <= |memory[e.packet.cmdBlockID]|
          else e.packet.cbCmdDataLen <= |e.payload|
      modifies this
      ensures done == old(done) && cmdHandle == old(cmdHandle)
      ensures pid == if old(pid) == 0 then current else old(pid)
      ensures phase == if old(pid) == 0 && old(phase) < STATE_RUNNING then STATE_RUNNING else old(phase)
      ensures answered <==> old(waiting) != []
      ensures !answered ==> waiting == [] && pa' == pa && dp' == dp && freed == old(freed)
      ensures answered ==>
          var e := old(waiting)[0];
          var n := e.packet.cbCmdDataLen;
          if pa.cbMaxDataLen < n then
            waiting == old(waiting) && pa' == AskMore(pa) && dp' == dp && freed == old(freed)
          else
            && waiting == old(waiting)[1..] && freed == old(freed) + [e] && pa' == Handed(pa, e)
            && dp' == Overlay(dp, (if Blocking(e) then memory[e.packet.cmdBlockID] else e.payload)[..n])
    {
      pa', dp' := pa, dp;
      if pid == 0 {
        pid := current;
        if phase < STATE_RUNNING {
          phase := STATE_RUNNING;
        }
      }
      var head := TakeNext();
      answered := head.Some?;
      if answered {
        var e := head.value;
        if pa.cbMaxDataLen < e.packet.cbCmdDataLen {
          waiting := [e] + waiting;
          pa' := AskMore(pa);
        } else {
          pa' := Handed(pa, e);
          var from := if Blocking(e) then memory[e.packet.cmdBlockID] else e.payload;
          dp' := Overlay(dp, from[..e.packet.cbCmdDataLen]);
          freed := freed + [e];
        }
      }
    }

    /** The locked block of LX_dmn_add_done_command. */
    method AddDone(e: Entry)
      modifies this
      ensures View() == old(View()).(done := old(done) + [e]) && freed == old(freed)
    {
      done := done + [e];
    }

    /** The locked scan of LX_dmn_get_result. */
    method TakeResult(h: nat) returns (r: Option<Packet>)
      modifies this
      ensures Position(old(done), h).None? ==> r == None && View() == old(View()) && freed == old(freed)
      ensures Position(old(done), h).Some? ==>
          var i := Position(old(done), h).value;
          && r == Some(old(done)[i].packet)
          && View() == old(View()).(done := Without(old(done), i))
          && freed == old(freed) + [old(done)[i]]
    {
      r := None;
      var i := 0;
      while i < |done|
        invariant 0 <= i <= |done|
        invariant forall k :: 0 <= k < i ==> done[k].packet.hcmd != h
        invariant r == None && View() == old(View()) && freed == old(freed)
      {
        var pe := done[i];
        if pe.packet.hcmd == h {
          done := done[..i] + done[i + 1..];
          freed := freed + [pe];
          return Some(pe.packet);
        }
        i := i + 1;
      }
    }

    /** The first loop of LX_daemon_closed: waiting entries become results or are freed. */
    method DrainWaiting()
      modifies this
      ensures waiting == [] && done == old(done) + OnlyBlocking(old(waiting)) && freed == old(freed) + OnlyFree(old(waiting))
      ensures cmdHandle == old(cmdHandle) && pid == old(pid) && phase == old(phase)
    {
      ghost var gone: seq<Entry> := [];
      while waiting != []
        invariant gone + waiting == old(waiting)
        invariant done == old(done) + OnlyBlocking(gone)
        invariant freed == old(freed) + OnlyFree(gone)
        invariant cmdHandle == old(cmdHandle) && pid == old(pid) && phase == old(phase)
        decreases |waiting|
      {
        var pe := waiting[0];
        SplitAppend(gone, pe);
        waiting := waiting[1..];
        gone := gone + [pe];
        if Blocking(pe) {
          done := done + [pe];
        } else {
          freed := freed + [pe];
        }
      }
      assert gone == old(waiting);
    }

    /** The second loop of LX_daemon_closed: every result says that there is no daemon. */
    method FailDone()
      modifies this`done
      ensures done == AllFailed(old(done))
    {
      var i := 0;
      while i < |done|
        invariant 0 <= i <= |done| == |old(done)|
        invariant forall k :: 0 <= k < i ==> done[k] == Failed(old(done)[k])
        invariant forall k :: i <= k < |done| ==> done[k] == old(done)[k]
      {
        done := done[i := Failed(done[i])];
        i := i + 1;
      }
    }

    /**
     LX_daemon_closed: the waiting list is emptied, its blocking entries follow the old results in order,
     every result now says that there is no daemon, and each non-blocking entry is freed once.
     */
    method DaemonClosed()
      modifies this
      ensures View() == Closed(old(View()))
      ensures freed == old(freed) + OnlyFree(old(waiting))
    {
      pid := 0;
      phase := STATE_GOING;
      DrainWaiting();
      FailDone();
    }
  }
}
