/**
 Growth and service come to an end. Left to itself the daemon takes a bounded number of steps, however often
 it must grow its buffer, and then it is asleep or out of its loop. Asleep it has answered every command,
 unless it was past its look at the list, and not at the commands that waited, when it was left to itself.
 */
module DaemonProgress {
  import opened Machine
  import opened CommandQueue
  import opened DaemonSystem
  import opened DaemonInvariant
  import opened DaemonTheorems
  import opened DaemonWakeups

  predicate DaemonStep(step: Step) {
    || step.Enter? || step == Wait(Check) || step == Wait(Doze) || step.Pop?
    || step.Hand? || step.Run? || step.Answer? || step.Publish? || step.Loop?
  }

  /** The daemon has left its loop, or is asleep in the fetch ioctl. */
  predicate Resting(s: State) {
    s.dmn.pc.Gone? || s.dmn.pc.Asleep?
  }

  /** The steps left in the current round of the loop, were every command to fit. */
  function PcRank(pc: Pc, waiting: bool): nat {
    match pc
    case Gone => 0
    case Asleep => 0
    case Drowsy => 1
    case Holds(_) => 1
    case Fetching => if waiting then 2 else 3
    case Checking => if waiting then 3 else 2
    case Top => 4
    case Test(last) => if last then 1 else 5
    case Post(last) => if last then 2 else 6
    case Reply(last) => if last then 3 else 7
    case Execute => 8
  }

  /** The grow replies that can still come before the buffer has its largest size. */
  function GrowthLeft(s: State): nat {
    if Room(s.hist.offer) <= LARGEST then (LARGEST - Room(s.hist.offer)) / INCR_DATA_LEN else 0
  }

  /** Each command in line and each grow reply takes at most one round of eight steps. */
  function Rank(s: State): nat {
    8 * (|Line(s)| + GrowthLeft(s)) + PcRank(s.dmn.pc, s.drv.waiting != [])
  }

  lemma HandBackLowers(s: State)
    requires CanHand(s) && s.dmn.param.cbMaxDataLen < s.dmn.pc.entry.packet.cbCmdDataLen
    requires Room(DoHand(s).hist.offer) <= LARGEST
    ensures Rank(DoHand(s)) < Rank(s)
  {
    var s' := DoHand(s);
    assert Room(s'.hist.offer) == Room(s.hist.offer) + INCR_DATA_LEN;
    assert |Line(s')| == |Line(s)|;
  }

  lemma HandOverLowers(s: State)
    requires CanHand(s) && s.dmn.param.cbMaxDataLen >= s.dmn.pc.entry.packet.cbCmdDataLen
    requires s.dmn.param.cbMaxDataLen == Room(s.hist.offer)
    ensures Rank(DoHand(s)) < Rank(s)
  {
    var s' := DoHand(s);
    assert Room(s'.hist.offer) == Room(s.hist.offer);
    assert |Line(s')| == |Line(s)| - 1;
  }

  lemma HandLowers(s: State)
    requires CanHand(s) && Growable(s) && InvGrowth(s) && InvGrowth(DoHand(s))
    ensures Rank(DoHand(s)) < Rank(s)
  {
    if s.dmn.param.cbMaxDataLen < s.dmn.pc.entry.packet.cbCmdDataLen {
      assert Growable(DoHand(s));
      HandBackLowers(s);
    } else {
      HandOverLowers(s);
    }
  }

  lemma WaitLowers(s: State, w: WaitStep)
    requires CanWait(s, w) && (w.Check? || w.Doze?)
    ensures Rank(DoWait(s, w)) < Rank(s)
  {
    assert Line(DoWait(s, w)) == Line(s);
  }

  lemma PopLowers(s: State)
    requires s.dmn.pc.Fetching?
    ensures Rank(DoPop(s)) < Rank(s)
  {
    assert Line(DoPop(s)) == Line(s);
  }

  lemma SameLineLowers(s: State, s': State)
    requires s'.drv.waiting == s.drv.waiting && !s.dmn.pc.Holds? && !s'.dmn.pc.Holds? && s'.hist.offer == s.hist.offer
    requires PcRank(s'.dmn.pc, s.drv.waiting != []) < PcRank(s.dmn.pc, s.drv.waiting != [])
    ensures Rank(s') < Rank(s)
  {
    assert Line(s') == Line(s);
  }

  lemma AnswerLowers(s: State)
    requires CanAnswer(s)
    ensures Rank(DoAnswer(s)) < Rank(s)
  {
    AnswerHistory(s);
    SameLineLowers(s, DoAnswer(s));
  }

  lemma RunLowers(s: State, rc: nat, bytes: Bytes)
    requires s.dmn.pc.Execute?
    ensures Rank(DoRun(s, rc, bytes)) < Rank(s)
  {
    SameLineLowers(s, DoRun(s, rc, bytes));
  }

  lemma LoopLowers(s: State, step: Step)
    requires Enabled(s, step) && (step.Enter? || step.Publish? || step.Loop?)
    ensures Rank(Apply(s, step)) < Rank(s)
  {
    SameLineLowers(s, Apply(s, step));
  }

  lemma CallersStay(s: State, step: Step)
    requires Enabled(s, step) && DaemonStep(step)
    ensures var s' := Apply(s, step);
        && s'.callers == s.callers && s'.rousing == s.rousing
        && s'.hist.lost == s.hist.lost && s'.hist.log == s.hist.log && s'.hist.closes == s.hist.closes
  {
    Footprints(s, step);
    MachineFootprints(s, step);
  }

  /** Every step of the daemon brings it closer to rest, also the one that puts a command back at the head. */
  lemma StepLowers(s: State, step: Step)
    requires InvGrowth(s) && Growable(s) && Enabled(s, step) && DaemonStep(step) && InvGrowth(Apply(s, step))
    ensures Rank(Apply(s, step)) < Rank(s)
  {
    if step.Hand? {
      HandLowers(s);
    } else if step.Wait? {
      WaitLowers(s, step.w);
    } else if step.Pop? {
      PopLowers(s);
    } else if step.Answer? {
      AnswerLowers(s);
    } else if step.Run? {
      RunLowers(s, step.rc, step.bytes);
    } else {
      LoopLowers(s, step);
    }
  }

  lemma GrowableStays(s: State, step: Step)
    requires Growable(s) && Enabled(s, step) && DaemonStep(step)
    ensures Growable(Apply(s, step))
  {
    CallersStay(s, step);
  }

  /** One step of the daemon from a state of a run. */
  lemma DaemonMoves(s: State, step: Step)
    requires Reachable(s) && Fresh(s) && Growable(s) && Enabled(s, step) && DaemonStep(step)
    ensures var s' := Apply(s, step);
        && Rank(s') < Rank(s)
        && Reachable(s') && Fresh(s') && Growable(s')
        && s'.callers == s.callers && s'.rousing == s.rousing && s'.hist.lost == s.hist.lost
  {
    var s' := Apply(s, step);
    ReachableGood(s);
    ReachableStep(s, step);
    ReachableGood(s');
    StepLowers(s, step);
    GrowableStays(s, step);
    CallersStay(s, step);
  }

  /** The daemon's next step; of a command it runs, only that it ends is used. */
  function NextStep(s: State): Step {
    match s.dmn.pc
    case Top => Enter
    case Checking => Wait(Check)
    case Drowsy => Wait(Doze)
    case Fetching => Pop
    case Holds(_) => Hand
    case Execute => Run(0, s.dmn.buffer)
    case Reply(_) => Answer
    case Post(_) => Publish
    case _ => Loop
  }

  /** Awake, the daemon is never stuck: wherever it is neither asleep nor gone it has a step to take. */
  lemma NeverStuck(s: State)
    requires Reachable(s) && !Resting(s)
    ensures Enabled(s, NextStep(s)) && DaemonStep(NextStep(s))
  {
    CopiesStayInside(s);
  }

  /**
   No run of daemon steps is longer than the rank of the state it starts in, whatever the commands return;
   in particular the rounds of growing the buffer end.
   */
  lemma {:induction false} DaemonRunsEnd(s: State, steps: seq<Step>)
    requires Reachable(s) && Growable(s) && Fresh(s) && Legal(s, steps)
    requires forall i :: 0 <= i < |steps| ==> DaemonStep(steps[i])
    ensures |steps| <= Rank(s)
    ensures Reachable(After(s, steps)) && Growable(After(s, steps)) && Fresh(After(s, steps))
    ensures var e := After(s, steps); e.callers == s.callers && e.rousing == s.rousing && e.hist.lost == s.hist.lost
    decreases |steps|
  {
    if steps != [] {
      DaemonMoves(s, steps[0]);
      DaemonRunsEnd(Apply(s, steps[0]), steps[1..]);
    }
  }

  /** And from every state such a run leads to rest. */
  lemma {:induction false} DaemonComesToRest(s: State) returns (steps: seq<Step>)
    requires Reachable(s) && Growable(s) && Fresh(s)
    ensures Legal(s, steps) && Resting(After(s, steps))
    ensures forall i :: 0 <= i < |steps| ==> DaemonStep(steps[i])
    decreases Rank(s)
  {
    steps := [];
    if !Resting(s) {
      NeverStuck(s);
      var step := NextStep(s);
      DaemonMoves(s, step);
      var rest := DaemonComesToRest(Apply(s, step));
      steps := [step] + rest;
      assert steps[1..] == rest;
    }
  }

  // ---------------------------------------------------------------- service

  /** Past its look at the list, the daemon does not see what waits now. */
  predicate Overlooks(s: State) {
    Dozing(s) && s.drv.waiting != []
  }

  lemma OverlooksStep(s: State, step: Step)
    requires Enabled(s, step) && DaemonStep(step)
    ensures Overlooks(Apply(s, step)) <==> Overlooks(s)
  {
  }

  lemma {:induction false} OverlooksRun(s: State, steps: seq<Step>)
    requires Legal(s, steps) && forall i :: 0 <= i < |steps| ==> DaemonStep(steps[i])
    ensures Overlooks(After(s, steps)) <==> Overlooks(s)
    decreases |steps|
  {
    if steps != [] {
      OverlooksStep(s, steps[0]);
      OverlooksRun(Apply(s, steps[0]), steps[1..]);
    }
  }

  /** A blocked caller's command that no one holds any more is posted or drained. */
  lemma RestAnswers(s: State, c: nat)
    requires Inv(s) && s.dmn.pc.Asleep? && s.drv.waiting == []
    requires c in s.callers && s.callers[c].Waits? && s.callers[c].ticket !in s.hist.lost
    ensures s.callers[c].ticket in s.hist.posted || s.callers[c].ticket in s.hist.drained
  {
    var t := s.callers[c].ticket;
    assert t !in s.hist.finished && t < |s.hist.log| && Blocking(Sent(s.hist, t));
    assert t !in s.hist.dropped;
    DoneUnlessHeld(s, t);
    var i :| 0 <= i < |s.drv.done| && Tickets(s.drv.done)[i] == t;
    assert s.drv.done[i] in s.drv.done;
  }

  /**
   Once the daemon is asleep with nothing waiting, every blocked caller returns on its next scan, except one
   whose command an earlier daemon took with it when it died.
   */
  lemma RestServesAll(s: State, c: nat)
    requires Reachable(s) && Fresh(s) && s.dmn.pc.Asleep? && s.drv.waiting == []
    requires c in s.callers && s.callers[c].Waits? && c !in s.rousing && s.callers[c].ticket !in s.hist.lost
    ensures CanScan(s, c) && c !in DoScan(s, c).callers && s.callers[c].ticket in DoScan(s, c).hist.returned
  {
    ReachableGood(s);
    RestAnswers(s, c);
    AnsweredReturns(s, c);
  }

  /** And without a close it has then delivered every submission, in order. */
  lemma RestDeliversAll(s: State)
    requires Reachable(s) && s.dmn.pc.Asleep? && s.drv.waiting == [] && s.hist.closes == 0
    ensures s.hist.delivered == Range(|s.hist.log|)
  {
    ReachableGood(s);
    assert Line(s) == [] && Tickets(Line(s)) == [];
    assert s.hist.delivered + Tickets(Line(s)) == s.hist.delivered;
  }

  /** A caller of a command that is still waiting does not find a result. */
  lemma WaitingIsUnanswered(s: State, c: nat)
    requires Reachable(s) && Fresh(s) && CanScan(s, c) && s.callers[c].ticket in Tickets(s.drv.waiting)
    ensures DoScan(s, c) == s
  {
    ReachableGood(s);
    var t := s.callers[c].ticket;
    var i :| 0 <= i < |s.drv.waiting| && Tickets(s.drv.waiting)[i] == t;
    var e := s.drv.waiting[i];
    assert e in s.drv.waiting && e in Line(s);
    LineUnsettled(s, e);
    forall d | d in s.drv.done
      ensures d.ticket != t
    {
      TicketIn(s.drv.done, d);
    }
    ScanFindsOwn(s, c);
  }

  /**
   Service: however the daemon's own steps go from here, if they end with the daemon asleep, then the list is
   empty if and only if the daemon was not already past its look at a list that was not. In that case every
   caller blocked now returns on its next scan, and without a close every submission has been delivered.
   */
  lemma DaemonServes(s: State, steps: seq<Step>)
    requires Reachable(s) && Growable(s) && Fresh(s) && Legal(s, steps)
    requires forall i :: 0 <= i < |steps| ==> DaemonStep(steps[i])
    requires After(s, steps).dmn.pc.Asleep?
    ensures var e := After(s, steps);
        && (e.drv.waiting == [] <==> !Overlooks(s))
        && (!Overlooks(s) && e.hist.closes == 0 ==> e.hist.delivered == Range(|e.hist.log|))
        && (!Overlooks(s) ==> forall c :: c in s.callers && s.callers[c].Waits? && c !in s.rousing
                                          && s.callers[c].ticket !in s.hist.lost ==>
              CanScan(e, c) && c !in DoScan(e, c).callers && s.callers[c].ticket in DoScan(e, c).hist.returned)
  {
    DaemonRunsEnd(s, steps);
    OverlooksRun(s, steps);
    var e := After(s, steps);
    if !Overlooks(s) {
      forall c | c in s.callers && s.callers[c].Waits? && c !in s.rousing && s.callers[c].ticket !in s.hist.lost
        ensures CanScan(e, c) && c !in DoScan(e, c).callers && s.callers[c].ticket in DoScan(e, c).hist.returned
      {
        RestServesAll(e, c);
      }
      if e.hist.closes == 0 {
        RestDeliversAll(e);
      }
    }
  }

  /**
   Where the daemon is stranded, the next submission is enough: once that thread has called LX_RunOn, every
   run of the daemon that ends asleep has emptied the list.
   */
  lemma NextSubmissionServes(s: State, c: nat, steps: seq<Step>)
    requires Reachable(s) && Fresh(s) && Stranded(s) && CanList(s, c) && Fresh(DoList(s, c))
    requires var s2 := Apply(DoList(s, c), Wait(Rouse(c)));
        Growable(s2) && Fresh(s2) && Legal(s2, steps) && After(s2, steps).dmn.pc.Asleep?
    requires forall i :: 0 <= i < |steps| ==> DaemonStep(steps[i])
    ensures var s2 := Apply(DoList(s, c), Wait(Rouse(c))); After(s2, steps).drv.waiting == []
  {
    NextSubmissionWakes(s, c);
    ReachableStep(s, List(c));
    var s1 := DoList(s, c);
    ReachableStep(s1, Wait(Rouse(c)));
    DaemonServes(Apply(s1, Wait(Rouse(c))), steps);
  }
}
