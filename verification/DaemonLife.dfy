/** When the driver takes commands, and when the daemon leaves its loop. */
module DaemonLife {
  import opened Machine
  import opened CommandQueue
  import opened DaemonSystem
  import opened DaemonInvariant
  import opened DaemonTheorems
  import opened DaemonProgress

  // ---------------------------------------------------------------- what a close stops

  /** No thread can submit anything. */
  ghost predicate Refuses(s: State) {
    forall step: Step :: step.Prepare? ==> !Enabled(s, step)
  }

  lemma ShutStep(s: State, step: Step)
    requires Enabled(s, step) && step != Enter && s.drv.pid == 0 && s.drv.phase == STATE_GOING
    ensures Apply(s, step).drv.pid == 0 && Apply(s, step).drv.phase == STATE_GOING
  {
  }

  lemma {:induction false} ShutRun(s: State, steps: seq<Step>)
    requires Legal(s, steps) && Enter !in steps && s.drv.pid == 0 && s.drv.phase == STATE_GOING
    ensures After(s, steps).drv.pid == 0 && After(s, steps).drv.phase == STATE_GOING
    decreases |steps|
  {
    if steps != [] {
      ShutStep(s, steps[0]);
      assert Enter !in steps[1..];
      ShutRun(Apply(s, steps[0]), steps[1..]);
    }
  }

  /** After a close no submission is accepted, in any run, until a daemon enters the fetch ioctl again. */
  lemma CloseStops(s: State, steps: seq<Step>)
    requires Legal(DoClose(s), steps) && Enter !in steps
    ensures Refuses(After(DoClose(s), steps)) && After(DoClose(s), steps).drv.phase == 3
  {
    ShutRun(DoClose(s), steps);
  }

  /** The driver accepts whatever keeps to the rules of submission exactly while a daemon is known to it. */
  lemma AcceptsExactly(s: State)
    ensures Refuses(s) <==> s.drv.pid == 0
  {
    if s.drv.pid != 0 {
      var c: nat := Largest(s.callers.Keys + s.rousing.Keys) + 1;
      assert c !in s.callers.Keys + s.rousing.Keys;
      assert Enabled(s, Prepare(c, 5, false, 0, 0, Packet(0, 0, 0, 0, 0, 0)));
    }
  }

  /** A number that no element of a set exceeds. */
  ghost function Largest(s: set<nat>): (m: nat)
    ensures forall x :: x in s ==> x <= m
  {
    if s == {} then 0
    else
      var x :| x in s;
      var rest := Largest(s - {x});
      assert forall y :: y in s ==> y == x || y in s - {x};
      if x > rest then x else rest
  }

  // ---------------------------------------------------------------- what LX_wait_for_daemon reads

  /** The phase reads as running from the first fetch of a daemon to the first close, and never again. */
  ghost predicate PhaseIsRight(s: State) {
    && (s.hist.closes > 0 ==> s.drv.phase == STATE_GOING)
    && (s.hist.closes == 0 ==> s.drv.phase == if s.drv.pid != 0 then STATE_RUNNING else 0)
    && (s.dmn.pc.Checking? || s.dmn.pc.Drowsy? || s.dmn.pc.Asleep? || s.dmn.pc.Fetching? || s.dmn.pc.Holds? || s.dmn.pc.Execute?
        ==> s.drv.pid != 0 || s.hist.closes > 0)
  }

  lemma EnterPhase(s: State)
    requires PhaseIsRight(s)
    ensures PhaseIsRight(DoEnter(s)) && DoEnter(s).drv.pid != 0
  {
  }

  lemma StillPhase(s: State, step: Step)
    requires Enabled(s, step) && step != Enter && !step.Close?
    ensures var s' := Apply(s, step); s'.drv.pid == s.drv.pid && s'.drv.phase == s.drv.phase && s'.hist.closes == s.hist.closes
  {
    Footprints(s, step);
  }

  lemma FetchedBefore(s: State, step: Step)
    requires Enabled(s, step) && step != Enter
    ensures var pc, pc' := s.dmn.pc, Apply(s, step).dmn.pc;
        (pc'.Checking? || pc'.Drowsy? || pc'.Asleep? || pc'.Fetching? || pc'.Holds? || pc'.Execute?)
        ==> (pc.Checking? || pc.Drowsy? || pc.Asleep? || pc.Fetching? || pc.Holds? || pc.Execute?)
  {
  }

  lemma PhaseKept(s: State, step: Step)
    requires PhaseIsRight(s) && Enabled(s, step)
    ensures PhaseIsRight(Apply(s, step))
  {
    if step == Enter {
      EnterPhase(s);
    } else {
      FetchedBefore(s, step);
      if !step.Close? {
        StillPhase(s, step);
      }
    }
  }

  lemma {:induction false} PhaseRun(s: State, steps: seq<Step>)
    requires PhaseIsRight(s) && Legal(s, steps)
    ensures PhaseIsRight(After(s, steps))
    decreases |steps|
  {
    if steps != [] {
      PhaseKept(s, steps[0]);
      PhaseRun(Apply(s, steps[0]), steps[1..]);
    }
  }

  /**
   In every run: with a close behind it the driver reads as going away for good; before that as running exactly
   when a daemon has fetched, and a daemon that fetches is known.
   */
  lemma PhaseExact(s: State)
    requires Reachable(s)
    ensures s.hist.closes > 0 ==> s.drv.phase == 3
    ensures s.hist.closes == 0 ==> s.drv.phase == if s.drv.pid != 0 then 2 else 0
    ensures s.hist.closes == 0 && s.dmn.pc.Asleep? ==> s.drv.pid != 0
  {
    var mem, steps :| Legal(Init(mem), steps) && s == After(Init(mem), steps);
    PhaseRun(Init(mem), steps);
  }

  // ---------------------------------------------------------------- leaving the loop

  /** The commands that end the loop. */
  predicate Parting(cmd: nat) {
    cmd == 10001 || cmd == 10007
  }

  /** On the way out: only the last results call and the end are left once the command is answered. */
  predicate Leaving(s: State) {
    var d := s.dmn;
    || d.pc.Gone?
    || (d.pc.Execute? && Parting(d.param.cmd))
    || ((d.pc.Reply? || d.pc.Post? || d.pc.Test?) && (d.pc.last || d.param.cmd == 10001))
  }

  /** On the way round, to the next fetch. */
  predicate Returning(s: State) {
    var d := s.dmn;
    || d.pc.Top?
    || (d.pc.Execute? && !Parting(d.param.cmd))
    || ((d.pc.Reply? || d.pc.Post? || d.pc.Test?) && !d.pc.last && !Parting(d.param.cmd))
  }

  lemma LeavingStep(s: State, step: Step)
    requires Enabled(s, step) && DaemonStep(step) && step != Enter
    ensures Leaving(s) ==> Leaving(Apply(s, step))
    ensures Returning(s) ==> Returning(Apply(s, step))
  {
  }

  lemma {:induction false} LeavingRun(s: State, steps: seq<Step>)
    requires Legal(s, steps) && (forall i :: 0 <= i < |steps| ==> DaemonStep(steps[i]) && steps[i] != Enter)
    ensures Leaving(s) ==> Leaving(After(s, steps))
    ensures Returning(s) ==> Returning(After(s, steps))
    decreases |steps|
  {
    if steps != [] {
      LeavingStep(s, steps[0]);
      LeavingRun(Apply(s, steps[0]), steps[1..]);
    }
  }

  /** Having run a command, the daemon gets out of its loop, and not back to its top, if and only if it was a shutdown or a restart. */
  lemma LeavesExactly(s: State, steps: seq<Step>)
    requires s.dmn.pc.Execute? && Legal(s, steps)
    requires forall i :: 0 <= i < |steps| ==> DaemonStep(steps[i]) && steps[i] != Enter
    requires After(s, steps).dmn.pc.Gone? || After(s, steps).dmn.pc.Top?
    ensures After(s, steps).dmn.pc.Gone? <==> Parting(s.dmn.param.cmd)
  {
    LeavingRun(s, steps);
  }

  /** None of the submissions so far is a shutdown or a restart. */
  ghost predicate NoParting(h: History) {
    forall t :: 0 <= t < |h.log| ==> !Parting(h.log[t].entry.packet.cmd)
  }

  /** The daemon is in its loop and not about to leave it. */
  predicate InLoop(s: State) {
    Returning(s) || s.dmn.pc.Checking? || s.dmn.pc.Drowsy? || s.dmn.pc.Asleep? || s.dmn.pc.Fetching? || s.dmn.pc.Holds?
  }

  lemma HandInLoop(s: State)
    requires CanHand(s) && !Parting(s.dmn.pc.entry.packet.cmd)
    ensures InLoop(DoHand(s))
  {
  }

  lemma WaitInLoop(s: State, w: WaitStep)
    requires CanWait(s, w) && InLoop(s)
    ensures InLoop(DoWait(s, w))
  {
  }

  lemma FetchedEntry(s: State)
    requires Reachable(s) && NoParting(s.hist) && s.dmn.pc.Holds?
    ensures !Parting(s.dmn.pc.entry.packet.cmd)
  {
    ReachableGood(s);
    StepFacts(s);
  }

  lemma InLoopStep(s: State, step: Step)
    requires (s.dmn.pc.Holds? ==> !Parting(s.dmn.pc.entry.packet.cmd)) && InLoop(s) && Enabled(s, step) && DaemonStep(step)
    ensures InLoop(Apply(s, step))
  {
    if step.Hand? {
      HandInLoop(s);
    } else if step.Wait? {
      WaitInLoop(s, step.w);
    } else if step.Enter? || step.Pop? {
      assert Apply(s, step).dmn.pc.Checking? || Apply(s, step).dmn.pc.Holds?;
    } else {
      LeavingStep(s, step);
    }
  }

  lemma NoPartingStays(h: History, h': History)
    requires NoParting(h) && h'.log == h.log
    ensures NoParting(h')
  {
  }

  /** With neither of them submitted, a daemon in its loop stays in it however its own steps go, so it ends asleep. */
  lemma {:induction false} StaysInLoop(s: State, steps: seq<Step>)
    requires Reachable(s) && NoParting(s.hist) && Growable(s) && Fresh(s) && InLoop(s) && Legal(s, steps)
    requires forall i :: 0 <= i < |steps| ==> DaemonStep(steps[i])
    ensures InLoop(After(s, steps))
    ensures Resting(After(s, steps)) ==> After(s, steps).dmn.pc.Asleep?
    decreases |steps|
  {
    if steps != [] {
      if s.dmn.pc.Holds? {
        FetchedEntry(s);
      }
      InLoopStep(s, steps[0]);
      DaemonMoves(s, steps[0]);
      CallersStay(s, steps[0]);
      NoPartingStays(s.hist, Apply(s, steps[0]).hist);
      StaysInLoop(Apply(s, steps[0]), steps[1..]);
    }
  }
}
