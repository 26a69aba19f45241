/** What a caller's scan finds when handles repeat: the first result whose submission is a multiple of 2^32 - 1 away. */
module DaemonHandles {
  import opened Machine
  import opened CommandQueue
  import opened DaemonSystem
  import opened DaemonInvariant

  /** The two submissions carry the same handle. */
  predicate SameHandle(t: nat, u: nat) {
    (t - u) % HANDLES == 0
  }

  lemma SameHandleExact(t: nat, u: nat)
    ensures HandleAfter(t + 1) == HandleAfter(u + 1) <==> SameHandle(t, u)
  {
    HandlesCollide(if t <= u then t else u, if t <= u then u else t);
    assert (t - u) % HANDLES == 0 <==> (u - t) % HANDLES == 0;
  }

  lemma DoneHandle(s: State, e: Entry)
    requires InvLog(s) && InvEntries(s) && InvHistory(s) && e in s.drv.done
    ensures e.packet.hcmd == HandleAfter(e.ticket + 1)
  {
    DueHandle(s, e.ticket);
  }

  /**
   Without any bound on how long a command may live, a scan takes the first result in the list whose submission
   is congruent to the caller's own. It takes the caller's own exactly when no other congruent one is before it.
   */
  lemma ScanTakesFirstOfClass(s: State, c: nat)
    requires Inv(s) && CanScan(s, c)
    ensures var r := Position(s.drv.done, s.callers[c].packet.hcmd); var t := s.callers[c].ticket; var done := s.drv.done;
        && (r.None? <==> forall e :: e in done ==> !SameHandle(e.ticket, t))
        && (r.Some? ==> SameHandle(done[r.value].ticket, t) && forall k :: 0 <= k < r.value ==> !SameHandle(done[k].ticket, t))
  {
    var t := s.callers[c].ticket;
    assert s.callers[c].packet.hcmd == HandleAfter(t + 1);
    forall e | e in s.drv.done
      ensures e.packet.hcmd == s.callers[c].packet.hcmd <==> SameHandle(e.ticket, t)
    {
      DoneHandle(s, e);
      SameHandleExact(e.ticket, t);
    }
    var r := Position(s.drv.done, s.callers[c].packet.hcmd);
    forall k | 0 <= k < |s.drv.done|
      ensures s.drv.done[k] in s.drv.done
    {
    }
  }

  // ---------------------------------------------------------------- a state in which it takes another's

  const LAST: nat := HANDLES

  function PacketOf(t: nat): Packet {
    Packet(0, 0, 5, HandleAfter(t + 1), if t == 0 then 1 else if t == LAST then 2 else 0, 0)
  }

  function SubmissionOf(t: nat): Submission {
    Submission(Entry(PacketOf(t), [], t), [], [], t)
  }

  /**
   After 2^32 submissions: the daemon that had fetched the first died with it, its caller still waits, all others
   are served, and the result of the last, which also blocks, is on the done list.
   */
  function Overtaken(): State {
    var n := LAST + 1;
    State(
      Driver([], [Entry(PacketOf(LAST), [], LAST)], HandleAfter(n), 1, 2),
      map[1 := [], 2 := []],
      map[0 := Waits(PacketOf(0), 0), LAST := Waits(PacketOf(LAST), LAST)],
      map[],
      Daemon(Gone, PacketOf(LAST), 8192, [], None),
      History(seq(n, t requires 0 <= t < n => SubmissionOf(t)), Range(n), multiset(Range(LAST)) - multiset{0},
              multiset{0}, multiset{}, {}, map t: nat | t in Range(n) :: [], map[LAST := []], map[LAST := PacketOf(LAST)],
              map[], map t: nat | t in Range(n) :: Offer(8192, 0), Offer(8192, 0), 0, 0, {}))
  }

  lemma OvertakenPlaces()
    ensures InvConserve(Overtaken())
  {
    var s := Overtaken();
    RangeGrows(LAST);
    RangeCounts(LAST, 0);
    assert Tickets(s.drv.done) == [LAST] && Tickets(Line(s)) == [];
    assert multiset(Range(LAST)) - multiset{0} + multiset{0} == multiset(Range(LAST));
  }

  lemma OvertakenFinished(t: nat)
    ensures Overtaken().hist.finished[t] == if 1 <= t < LAST then 1 else 0
  {
    RangeCounts(LAST, t);
  }

  lemma OvertakenLists()
    ensures InvLog(Overtaken()) && InvEntries(Overtaken()) && InvOrder(Overtaken()) && InvFifo(Overtaken())
  {
    var s := Overtaken();
    assert Tickets(Line(s)) == [] && s.hist.delivered + [] == s.hist.delivered;
  }

  lemma OvertakenSettled()
    ensures InvSettled(Overtaken())
  {
    var s := Overtaken();
    assert Tickets(s.drv.done) == [LAST];
    assert Settled(s, LAST);
  }

  lemma OvertakenBytes()
    ensures InvBytes(Overtaken().hist)
  {
    assert Range(LAST + 1)[LAST] == LAST;
  }

  lemma OvertakenUnfinished(t: nat)
    requires t <= LAST && (Blocking(Overtaken().hist.log[t].entry) && t !in Overtaken().hist.finished)
    ensures t in {0, LAST} && Overtaken().callers[t] == Waits(PacketOf(t), t)
  {
    assert Overtaken().hist.log[t] == SubmissionOf(t);
  }

  lemma OvertakenCallers()
    ensures InvCallers(Overtaken())
  {
    var h := Overtaken().hist;
    OvertakenFinished(0);
    OvertakenFinished(LAST);
    assert h.log[0] == SubmissionOf(0) && h.log[LAST] == SubmissionOf(LAST);
    forall t: nat | t < |h.log| && Blocking(Sent(h, t)) && t !in h.finished
      ensures t in {0, LAST} && h.log[t] == SubmissionOf(t)
    {
      OvertakenUnfinished(t);
    }
  }

  lemma OvertakenReturned()
    ensures InvReturned(Overtaken())
  {
    var h := Overtaken().hist;
    forall t: nat | t in h.finished && t < |h.log|
      ensures !Blocking(Sent(h, t))
    {
      OvertakenFinished(t);
    }
  }

  lemma OvertakenMemory()
    ensures InvMemory(Overtaken())
  {
  }

  lemma OvertakenDaemon()
    ensures InvDaemon(Overtaken()) && InvGrowth(Overtaken())
  {
  }

  lemma OvertakenScan()
    ensures var s := Overtaken();
        && CanScan(s, 0) && Position(s.drv.done, s.callers[0].packet.hcmd) == Some(0)
        && s.drv.done[0].packet == PacketOf(LAST) == s.hist.posted[LAST]
  {
    SameHandleExact(LAST, 0);
    assert HandleAfter(LAST + 1) == HandleAfter(1);
  }

  /**
   Why a live command must not be overtaken by 2^32 - 1 submissions: here the invariant holds, only the
   freshness of commands does not, and the caller of the first command gets the result of the last.
   */
  lemma OvertakenScanTakesTheOther()
    ensures var s := Overtaken();
        && Inv(s) && !Fresh(s) && CanScan(s, 0)
        && var r := DoScan(s, 0).hist.returned;
        && 0 in r && r[0].packet == s.hist.posted[LAST]
        && r[0].packet.cmdBlockID != s.hist.log[0].entry.packet.cmdBlockID
  {
    OvertakenPlaces();
    OvertakenLists();
    OvertakenSettled();
    OvertakenBytes();
    OvertakenCallers();
    OvertakenReturned();
    OvertakenMemory();
    OvertakenDaemon();
    OvertakenScan();
  }
}
