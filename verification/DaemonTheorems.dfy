/** The promises of the command protocol, for every run from the boot state. */
module DaemonTheorems {
  import opened Machine
  import opened CommandQueue
  import opened DaemonSystem
  import opened DaemonInvariant

  /** Reached by some run from boot, with any memory contents, in which no live command is overtaken too far. */
  ghost predicate Reachable(s: State) {
    exists mem, steps :: Legal(Init(mem), steps) && s == After(Init(mem), steps)
  }

  /** Every collected result was posted by the daemon or drained by a close. */
  ghost predicate Answered(h: History) {
    forall t :: t in h.returned ==> t in h.posted || t in h.drained
  }

  ghost predicate OffersComplete(h: History) {
    forall t :: t in h.delivered ==> t in h.offers
  }

  ghost predicate Good(s: State) {
    Inv(s) && Answered(s.hist) && OffersComplete(s.hist)
  }

  lemma ScanAnswered(s: State, c: nat)
    requires Inv(s) && Answered(s.hist) && Fresh(s) && CanScan(s, c)
    ensures Answered(DoScan(s, c).hist)
  {
    ScanFindsOwn(s, c);
    var r := Position(s.drv.done, s.callers[c].packet.hcmd);
    if r.Some? {
      assert s.drv.done[r.value] in s.drv.done;
    }
  }

  lemma AnsweredKept(s: State, step: Step)
    requires Answered(s.hist) && Enabled(s, step) && !step.Scan?
    ensures Answered(Apply(s, step).hist)
  {
    Footprints(s, step);
  }

  lemma OffersKept(s: State, step: Step)
    requires OffersComplete(s.hist) && Enabled(s, step)
    ensures OffersComplete(Apply(s, step).hist)
  {
    if !step.Hand? {
      Footprints(s, step);
    }
  }

  lemma GoodKept(s: State, step: Step)
    requires Good(s) && Enabled(s, step) && Fresh(s)
    ensures Good(Apply(s, step))
  {
    StepKeeps(s, step);
    OffersKept(s, step);
    if step.Scan? {
      ScanAnswered(s, step.c);
    } else {
      AnsweredKept(s, step);
    }
  }

  lemma {:induction false} RunKeeps(s: State, steps: seq<Step>)
    requires Good(s) && Legal(s, steps)
    ensures Good(After(s, steps))
    decreases |steps|
  {
    if steps != [] {
      GoodKept(s, steps[0]);
      RunKeeps(Apply(s, steps[0]), steps[1..]);
    }
  }

  /** The invariant holds in every state that any interleaving reaches. */
  lemma ReachableGood(s: State)
    requires Reachable(s)
    ensures Good(s)
  {
    var mem, steps :| Legal(Init(mem), steps) && s == After(Init(mem), steps);
    InitHolds(mem);
    RunKeeps(Init(mem), steps);
  }

  function Count(list: seq<nat>, t: nat): nat {
    multiset(list)[t]
  }

  /**
   Exactly once: however callers, daemon and closes interleave, each accepted command is in exactly one
   place, once; only blocking commands get onto the done list, and only non-blocking ones are dropped.
   */
  lemma ExactlyOnePlace(s: State, t: nat)
    requires Reachable(s)
    ensures t < |s.hist.log| ==>
          && Count(Tickets(Line(s)), t) + Cur(s)[t] + Count(Tickets(s.drv.done), t)
               + s.hist.finished[t] + s.hist.lost[t] + s.hist.dropped[t] == 1
          && (t in Tickets(s.drv.done) ==> Blocking(s.hist.log[t].entry))
          && (t in s.hist.dropped ==> !Blocking(s.hist.log[t].entry))
  {
    ReachableGood(s);
    OnePlace(s, t);
    if t in Tickets(s.drv.done) {
      var i :| 0 <= i < |s.drv.done| && Tickets(s.drv.done)[i] == t;
      assert s.drv.done[i] in s.drv.done;
    }
  }

  /**
   A blocking caller that has returned got the packet posted for its own handle, or, when a close found
   its command waiting or done, a packet of its own command that says there is no daemon. Its buffer was
   as it submitted it, except for the reply bytes once there was a reply.
   */
  lemma CallersGetTheirOwn(s: State, t: nat)
    requires Reachable(s)
    requires t in s.hist.returned
    ensures var h := s.hist;
        && t < |h.log| && h.log[t].entry.packet.hcmd == HandleAfter(t + 1) && h.finished[t] == 1
        && var p := h.returned[t].packet; var own := h.log[t].entry.packet;
        && SameCommand(p, own)
        && (t !in h.drained ==> t in h.posted && p == h.posted[t])
        && (t in h.drained ==> p == (if t in h.posted then h.posted[t] else own).(rc := ERROR_NO_CHILDREN))
        && (t in h.posted ==> t in h.replied && |h.replied[t]| == own.cbCmdDataLen <= |h.log[t].whole|
                              && h.returned[t].buffer == h.replied[t] + h.log[t].whole[own.cbCmdDataLen..])
        && (t !in h.replied ==> h.returned[t].buffer == h.log[t].whole)
  {
    ReachableGood(s);
    OnePlace(s, t);
  }

  /** First in, first out: deliveries never overtake, and until a close they are exactly the first submissions. */
  lemma DeliveredInOrder(s: State)
    requires Reachable(s)
    ensures var h := s.hist;
        && Increasing(h.delivered)
        && (h.closes == 0 ==> h.delivered == Range(|h.delivered|))
  {
    ReachableGood(s);
    var h := s.hist;
    var order := h.delivered + Tickets(Line(s));
    assert forall i :: 0 <= i < |h.delivered| ==> h.delivered[i] == order[i];
    if h.closes == 0 {
      assert order == Range(|h.log|);
    }
  }

  /** The daemon was handed the bytes captured at submission, whatever happened to the caller's memory since. */
  lemma DeliveredBytes(s: State, t: nat)
    requires Reachable(s)
    requires t in s.hist.delivered
    ensures var h := s.hist;
        && t < |h.log| && t in h.received
        && var n := h.log[t].entry.packet.cbCmdDataLen;
        && |h.received[t]| == n
        && (Blocking(h.log[t].entry) ==> n <= |h.log[t].whole| && h.received[t] == h.log[t].whole[..n])
        && (!Blocking(h.log[t].entry) ==> h.received[t] == h.log[t].entry.payload)
  {
    ReachableGood(s);
  }

  /** No copy of the protocol leaves its allocation: a thread that is due to copy can always do so. */
  lemma CopiesStayInside(s: State)
    requires Reachable(s)
    ensures
        && (s.dmn.pc.Holds? ==> CanHand(s))
        && (s.dmn.pc.Reply? ==> CanAnswer(s))
        && (forall c :: c in s.callers && s.callers[c].Ready? ==> CanList(s, c))
        && (forall c :: c in s.callers && s.callers[c].Waits? && c !in s.rousing ==> CanScan(s, c))
        && (!s.dmn.pc.Gone? ==> s.dmn.param.cbMaxDataLen == s.dmn.dataLen == |s.dmn.buffer|)
  {
    ReachableGood(s);
    if s.dmn.pc.Holds? {
      StepFacts(s);
      FetchedAreSent(s, s.dmn.pc.entry);
    } else if s.dmn.pc.Reply? {
      ReplyInside(s);
    }
    forall c | c in s.callers && s.callers[c].Waits? && c !in s.rousing
      ensures CanScan(s, c)
    {
      assert BlockId(s.callers[c]) == s.callers[c].packet.cmdBlockID != 0;
    }
    forall c | c in s.callers && s.callers[c].Ready?
      ensures CanList(s, c)
    {
      assert BlockId(s.callers[c]) == s.callers[c].entry.packet.cmdBlockID;
    }
  }

  lemma ReplyInside(s: State)
    requires Inv(s) && s.dmn.pc.Reply?
    ensures CanAnswer(s)
  {
    if s.dmn.param.cmdBlockID != 0 {
      var t := s.dmn.cur.value;
      OnePlace(s, t);
      var c := s.hist.log[t].caller;
      assert s.callers[c] == Waits(Sent(s.hist, t).packet, t);
      assert BlockId(s.callers[c]) == s.dmn.param.cmdBlockID;
    }
  }

  // ---------------------------------------------------------------- close

  /** A caller whose command has been answered or drained returns on its next scan, with its own result. */
  lemma AnsweredReturns(s: State, c: nat)
    requires Reachable(s) && Fresh(s) && c in s.callers && s.callers[c].Waits? && c !in s.rousing
    requires s.callers[c].ticket in s.hist.posted || s.callers[c].ticket in s.hist.drained
    ensures CanScan(s, c)
    ensures var s' := DoScan(s, c); var t := s.callers[c].ticket;
        && c !in s'.callers && t in s'.hist.returned
        && (t in s.hist.drained ==> s'.hist.returned[t].packet.rc == ERROR_NO_CHILDREN)
  {
    ReachableGood(s);
    var t := s.callers[c].ticket;
    assert BlockId(s.callers[c]) == s.callers[c].packet.cmdBlockID != 0;
    assert Settled(s, t);
    assert t in Tickets(s.drv.done);
    var i :| 0 <= i < |s.drv.done| && Tickets(s.drv.done)[i] == t;
    assert s.drv.done[i] in s.drv.done;
    DueHandle(s, t);
    ScanFindsOwn(s, c);
    var r := Position(s.drv.done, s.callers[c].packet.hcmd);
    assert s.drv.done[r.value] in s.drv.done;
  }

  /** With nothing waiting, a command that no one collected, dropped or lost is done unless the daemon has it. */
  lemma DoneUnlessHeld(s: State, t: nat)
    requires InvConserve(s) && s.drv.waiting == [] && t < |s.hist.log| && t !in s.hist.finished && t !in s.hist.dropped
    ensures t in Tickets(s.drv.done) <==>
        !(t in s.hist.lost || s.dmn.cur == Some(t) || (s.dmn.pc.Holds? && s.dmn.pc.entry.ticket == t))
  {
    OnePlace(s, t);
    var held := if s.dmn.pc.Holds? then [s.dmn.pc.entry] else [];
    assert Line(s) == held;
    assert multiset(Tickets(held))[t] == if s.dmn.pc.Holds? && s.dmn.pc.entry.ticket == t then 1 else 0 by {
      assert s.dmn.pc.Holds? ==> Tickets(held) == [s.dmn.pc.entry.ticket];
    }
    assert multiset(Tickets(s.drv.done))[t] > 0 <==> t in Tickets(s.drv.done);
  }

  /**
   What a close reaches: the waiting list is empty afterwards, and of the blocked callers exactly those go
   on waiting whose command the daemon has in its hands or took with it when it died.
   */
  lemma CloseReaches(s: State, c: nat)
    requires Reachable(s) && Fresh(s) && c in s.callers && s.callers[c].Waits?
    ensures var s' := DoClose(s); var t := s.callers[c].ticket;
        && s'.drv.waiting == [] && s'.callers == s.callers
        && (t in s'.hist.drained <==>
              !(t in s.hist.lost || s.dmn.cur == Some(t) || (s.dmn.pc.Holds? && s.dmn.pc.entry.ticket == t)))
  {
    ReachableGood(s);
    var s' := DoClose(s);
    var t := s.callers[c].ticket;
    StepKeeps(s, Close);
    assert s'.callers[c] == s.callers[c];
    assert Blocking(Sent(s'.hist, t)) && t !in s'.hist.finished && t !in s'.hist.dropped;
    DoneUnlessHeld(s', t);
    assert t in s'.hist.drained ==> Settled(s', t);
    assert multiset(Tickets(s'.drv.done))[t] > 0 <==> t in Tickets(s'.drv.done);
  }

  // ---------------------------------------------------------------- growing the buffer

  /**
   A command of `need` bytes that came first in line when the daemon offered `base` bytes is delivered after
   exactly as many grow replies as 4096-byte steps lie between the two.
   */
  lemma DeliveredAfterRounds(s: State, t: nat)
    requires Reachable(s)
    requires var h := s.hist;
        && t in h.delivered
        && forall u :: 0 <= u < |h.log| ==> h.log[u].entry.packet.cbCmdDataLen <= LARGEST
    ensures var h := s.hist;
        && t in h.offers && t < |h.log|
        && var o, need := h.offers[t], h.log[t].entry.packet.cbCmdDataLen;
           o.rounds == if need <= o.base then 0 else (need - o.base + 4095) / 4096
  {
    ReachableGood(s);
  }

  /** The bound is exact: a buffer grown in 4096-byte steps in 32 bits never has room for more than 0xFFFFF000 bytes. */
  lemma NeverFits(base: nat, need: nat)
    requires base % INCR_DATA_LEN == 0 && base < U32 && need < U32
    ensures (exists k: nat :: need <= Wrap(base + INCR_DATA_LEN * k)) <==> need <= LARGEST
  {
    forall k: nat
      ensures Wrap(base + INCR_DATA_LEN * k) <= LARGEST
    {
      assert Wrap(base + INCR_DATA_LEN * k) % INCR_DATA_LEN == 0;
    }
    if need <= LARGEST {
      var k := (LARGEST - base) / INCR_DATA_LEN;
      assert base <= LARGEST && base + INCR_DATA_LEN * k == LARGEST;
      assert Wrap(base + INCR_DATA_LEN * k) == LARGEST;
    }
  }

  // ---------------------------------------------------------------- the rules of submission

  /** What the daemon's own steps make of a command it has fetched, up to the test at the end of the loop. */
  function Served(s: State, rc: nat, bytes: Bytes): State
    requires s.dmn.pc.Execute? && CanAnswer(DoRun(s, rc, bytes))
  {
    var a := DoAnswer(DoRun(s, rc, bytes));
    if a.dmn.pc.Post? then DoPublish(a) else a
  }

  /** And the results call after the loop. */
  function Ended(s: State): State
    requires s.dmn.pc == Test(false) && s.dmn.param.cmd == CMD_SHUTDOWN && CanAnswer(DoLoop(s))
  {
    var a := DoAnswer(DoLoop(s));
    if a.dmn.pc.Post? then DoPublish(a) else a
  }

  /**
   Why a shutdown must not block: serving it and leaving the loop, the daemon issues the results ioctl twice, and
   that lists two results for the one handle if the shutdown carries a block id, and none if it does not.
   */
  lemma BlockingShutdownPostsTwice(s: State, rc: nat, bytes: Bytes)
    requires s.dmn.pc.Execute? && s.dmn.param.cmd == CMD_SHUTDOWN && CanAnswer(DoRun(s, rc, bytes))
    requires var t := Served(s, rc, bytes); CanAnswer(DoLoop(t))
    ensures var t := Served(s, rc, bytes); var e := Ended(t);
        && e.dmn.pc == Test(true)
        && (s.dmn.param.cmdBlockID == 0 ==> e.drv.done == s.drv.done)
        && (s.dmn.param.cmdBlockID != 0 ==>
              && |e.drv.done| == |s.drv.done| + 2 && s.drv.done <= e.drv.done
              && e.drv.done[|s.drv.done|].packet.hcmd == e.drv.done[|s.drv.done| + 1].packet.hcmd == s.dmn.param.hcmd)
  {
    var r := DoRun(s, rc, bytes);
    var t := Served(s, rc, bytes);
    assert t.dmn.pc == Test(false) && t.dmn.param == r.dmn.param;
    if s.dmn.param.cmdBlockID != 0 {
      var e := Ended(t);
      var one, two := t.drv.done[|s.drv.done|], e.drv.done[|s.drv.done| + 1];
      assert t.drv.done == s.drv.done + [one];
      assert e.drv.done == s.drv.done + [one, two];
    }
  }

  /** The copy at submission reads only bytes of the caller's buffer. */
  predicate SubmitInside(waitflag: bool, pData: nat, cb: nat, mem: map<nat, Bytes>) {
    !waitflag && cb != 0 ==> pData in mem && cb <= |mem[pData]|
  }

  /**
   With a caller's buffer that has the length it says, the two copies of a command, at submission and at the
   fetch, stay inside their allocations exactly when a null buffer comes with length zero.
   */
  lemma FetchStaysInside(pParm: Packet, cmd: nat, waitflag: bool, pData: nat, cb: nat, mem: map<nat, Bytes>)
    requires 0 !in mem && (pData != 0 ==> pData in mem && cb <= |mem[pData]|)
    ensures SubmitInside(waitflag, pData, cb, mem) && FetchInside(NewEntry(pParm, cmd, waitflag, pData, cb, mem), mem)
            <==> (pData == 0 ==> cb == 0)
  {
  }
}
