/**
 How the daemon sleeps. It looks at the list without the lock and goes to sleep some statements later, so a
 wake-up in between finds nobody asleep. This module says exactly when the daemon sleeps although commands
 are waiting, that it can happen, what it takes to get out, and that the next submission is enough.
 */
module DaemonWakeups {
  import opened Machine
  import opened CommandQueue
  import opened DaemonSystem
  import opened DaemonInvariant
  import opened DaemonTheorems

  /** Between the test that found the list empty and the end of the sleep. */
  predicate Dozing(s: State) {
    s.dmn.pc.Drowsy? || s.dmn.pc.Asleep?
  }

  ghost predicate InvRousing(s: State) {
    && (forall c :: c in s.callers && s.callers[c].Ready? ==> c !in s.rousing)
    && (forall c :: c in s.rousing ==> s.rousing[c] < |s.hist.log|)
  }

  /** What waits behind a dozing daemon was submitted since its test, and its wake-up was missed or is still to come. */
  ghost predicate InvDozing(s: State) {
    var h := s.hist;
    Dozing(s) ==>
      && h.tested <= |h.log|
      && (forall e :: e in s.drv.waiting ==> h.tested <= e.ticket && (e.ticket in h.missed || e.ticket in s.rousing.Values))
      && (forall t :: t in h.missed ==> h.tested <= t < |h.log|)
      && (forall t :: h.tested <= t < |h.log| ==> t in Tickets(s.drv.waiting) || t in h.drained || t in h.dropped)
  }

  ghost predicate InvWake(s: State) {
    InvRousing(s) && InvDozing(s)
  }

  lemma RousingKept(s: State, step: Step)
    requires InvRousing(s) && Enabled(s, step)
    ensures InvRousing(Apply(s, step))
  {
    if !step.List? {
      Footprints(s, step);
      if !step.Prepare? {
        FewerCallers(s, step);
      }
    }
  }

  lemma ListDozing(s: State, c: nat)
    requires InvWake(s) && CanList(s, c)
    ensures InvDozing(DoList(s, c))
  {
    var s' := DoList(s, c);
    var n := |s.hist.log|;
    var e := s'.drv.waiting[|s'.drv.waiting| - 1];
    assert s'.drv.waiting == s.drv.waiting + [e] && e.ticket == n;
    TicketsAppend(s.drv.waiting, [e]);
    assert Tickets([e]) == [n] && s'.rousing[c] == n;
    forall t | t in s.rousing.Values
      ensures t in s'.rousing.Values
    {
      var b :| b in s.rousing && s.rousing[b] == t;
      assert s'.rousing[b] == t;
    }
  }

  /** A close puts what was waiting on the done list or drops it. */
  lemma ClosedTickets(s: State, t: nat)
    requires t in Tickets(s.drv.waiting)
    ensures t in DoClose(s).hist.drained || t in DoClose(s).hist.dropped
  {
    var w := s.drv.waiting;
    SplitConserves(w);
    assert multiset(Tickets(w))[t] > 0;
    TicketsAppend(s.drv.done, OnlyBlocking(w));
    assert Tickets(DoClose(s).drv.done) == Tickets(s.drv.done + OnlyBlocking(w));
    if t in Tickets(OnlyBlocking(w)) {
      assert t in Tickets(s.drv.done + OnlyBlocking(w));
    } else {
      assert multiset(Tickets(OnlyBlocking(w)))[t] == 0;
    }
  }

  lemma CloseDozing(s: State)
    requires InvDozing(s)
    ensures InvDozing(DoClose(s))
  {
    forall t | t in Tickets(s.drv.waiting)
      ensures t in DoClose(s).hist.drained || t in DoClose(s).hist.dropped
    {
      ClosedTickets(s, t);
    }
  }

  lemma RouseDozing(s: State, c: nat)
    requires InvWake(s) && c in s.rousing
    ensures InvDozing(DoRouse(s, c))
  {
    var s' := DoRouse(s, c);
    forall t | t in s.rousing.Values && t != s.rousing[c]
      ensures t in s'.rousing.Values
    {
      var b :| b in s.rousing && s.rousing[b] == t;
      assert s'.rousing[b] == t;
    }
  }

  lemma WaitDozing(s: State, w: WaitStep)
    requires InvWake(s) && CanWait(s, w)
    ensures InvDozing(DoWait(s, w))
  {
    if w.Rouse? {
      RouseDozing(s, w.c);
    }
  }

  lemma OtherDozing(s: State, step: Step)
    requires Enabled(s, step) && !step.Wait? && !step.List? && !step.Close?
    ensures var s' := Apply(s, step);
        Dozing(s') ==> Dozing(s) && s'.drv.waiting == s.drv.waiting && s'.rousing == s.rousing && s'.hist.log == s.hist.log
                       && s'.hist.tested == s.hist.tested && s'.hist.missed == s.hist.missed
                       && s'.hist.drained == s.hist.drained && s'.hist.dropped == s.hist.dropped
  {
    Footprints(s, step);
  }

  lemma WakeKept(s: State, step: Step)
    requires InvWake(s) && Enabled(s, step)
    ensures InvWake(Apply(s, step))
  {
    RousingKept(s, step);
    if step.List? {
      ListDozing(s, step.c);
    } else if step.Close? {
      CloseDozing(s);
    } else if step.Wait? {
      WaitDozing(s, step.w);
    } else {
      OtherDozing(s, step);
    }
  }

  lemma {:induction false} RunWakes(s: State, steps: seq<Step>)
    requires InvWake(s) && Legal(s, steps)
    ensures InvWake(After(s, steps))
    decreases |steps|
  {
    if steps != [] {
      WakeKept(s, steps[0]);
      RunWakes(Apply(s, steps[0]), steps[1..]);
    }
  }

  lemma ReachableWake(s: State)
    requires Reachable(s)
    ensures InvWake(s)
  {
    var mem, steps :| Legal(Init(mem), steps) && s == After(Init(mem), steps);
    RunWakes(Init(mem), steps);
  }

  // ---------------------------------------------------------------- the lost wake-up

  /** Asleep with commands waiting, and no submitter is about to wake it. */
  ghost predicate Stranded(s: State) {
    s.dmn.pc.Asleep? && s.drv.waiting != [] && s.rousing == map[]
  }

  /**
   With no wake-up under way, the daemon sleeps on waiting commands if and only if some submission since its
   test called LX_RunOn before it was asleep, and no close has taken that command away.
   */
  lemma SleepsOnWork(s: State)
    requires Reachable(s) && s.dmn.pc.Asleep? && s.rousing == map[]
    ensures Stranded(s) <==> exists t :: t in s.hist.missed && t !in s.hist.drained && t !in s.hist.dropped
  {
    ReachableGood(s);
    ReachableWake(s);
    if s.drv.waiting != [] {
      var e := s.drv.waiting[0];
      assert e in Line(s) && e in s.drv.waiting;
      assert e.ticket in s.hist.missed;
      LineUnsettled(s, e);
      OnePlace(s, e.ticket);
      TicketIn(Line(s), e);
      assert e.ticket !in s.hist.drained && e.ticket !in s.hist.dropped;
    }
  }

  /** A submitter that calls LX_RunOn while the daemon is asleep gets it going, with everything that waits. */
  lemma RouseWakes(s: State, c: nat)
    requires s.dmn.pc.Asleep? && c in s.rousing
    ensures var s' := DoRouse(s, c); s'.dmn.pc.Fetching? && s'.drv == s.drv
  {
  }

  /** So the next submission gets a stranded daemon going. */
  lemma NextSubmissionWakes(s: State, c: nat)
    requires Stranded(s) && CanList(s, c)
    ensures var s1 := DoList(s, c);
        && s1.dmn.pc.Asleep? && c in s1.rousing && s.drv.waiting < s1.drv.waiting
        && var s2 := DoRouse(s1, c); s2.dmn.pc.Fetching? && s2.drv == s1.drv
  {
    var s1 := DoList(s, c);
    assert s1.drv.waiting == s.drv.waiting + [s1.drv.waiting[|s1.drv.waiting| - 1]];
  }

  /** Nothing else that callers or the daemon do gets it out: it takes a submission, a close, or an end of the sleep. */
  lemma {:induction false} StrandedStays(s: State, steps: seq<Step>)
    requires Stranded(s) && Legal(s, steps)
    requires forall step :: step in steps ==>
        !step.List? && !step.Close? && step != Wait(Resettle) && step != Wait(Stir)
    ensures Stranded(After(s, steps)) && After(s, steps).drv.waiting == s.drv.waiting
    decreases |steps|
  {
    if steps != [] {
      StrandedStep(s, steps[0]);
      assert forall step :: step in steps[1..] ==> step in steps;
      StrandedStays(Apply(s, steps[0]), steps[1..]);
    }
  }

  lemma StrandedStep(s: State, step: Step)
    requires Stranded(s) && Enabled(s, step) && !step.List? && !step.Close? && step != Wait(Resettle) && step != Wait(Stir)
    ensures var s' := Apply(s, step); Stranded(s') && s'.drv.waiting == s.drv.waiting
  {
  }

  // ---------------------------------------------------------------- it can happen

  lemma {:induction false} RunAppend(s: State, steps: seq<Step>, step: Step)
    requires Legal(s, steps) && Enabled(After(s, steps), step) && Fresh(After(s, steps))
    ensures Legal(s, steps + [step]) && After(s, steps + [step]) == Apply(After(s, steps), step)
    decreases |steps|
  {
    if steps == [] {
      assert steps + [step] == [step];
      assert Legal(Apply(s, step), []);
    } else {
      assert (steps + [step])[1..] == steps[1..] + [step];
      RunAppend(Apply(s, steps[0]), steps[1..], step);
    }
  }

  lemma ReachableStep(s: State, step: Step)
    requires Reachable(s) && Fresh(s) && Enabled(s, step)
    ensures Reachable(Apply(s, step))
  {
    var mem, steps :| Legal(Init(mem), steps) && s == After(Init(mem), steps);
    RunAppend(Init(mem), steps, step);
  }

  lemma ReachableInit(mem: map<nat, Bytes>)
    ensures Reachable(Init(mem))
  {
    assert Legal(Init(mem), []) && Init(mem) == After(Init(mem), []);
  }

  /** The daemon started and its empty list tested, with thread 7 holding a command that blocks on buffer 1. */
  lemma DrowsyReached() returns (s: State)
    ensures Reachable(s) && s.dmn.pc.Drowsy? && s.drv.waiting == [] && s.rousing == map[] && s.hist.log == [] && s.mem == map[1 := []]
    ensures s.callers.Keys == {7} && s.callers[7].Ready? && s.hist.tested == 0
    ensures var p := s.callers[7].entry.packet; p.cmdBlockID == 1 && p.cbCmdDataLen == 0
  {
    var s0 := Init(map[1 := []]);
    ReachableInit(map[1 := []]);
    var start := Start(seq(8192, _ => 0));
    ReachableStep(s0, start);
    var s1 := Apply(s0, start);
    ReachableStep(s1, Enter);
    var s2 := Apply(s1, Enter);
    var prepare := Prepare(7, 5, true, 1, 0, Packet(0, 0, 0, 0, 0, 0));
    ReachableStep(s2, prepare);
    var s3 := Apply(s2, prepare);
    ReachableStep(s3, Wait(Check));
    s := Apply(s3, Wait(Check));
  }

  /** A run that strands the daemon: the submission and its wake-up fall between the test and the sleep. */
  lemma WakeupCanBeLost() returns (s: State, c: nat)
    ensures Reachable(s) && Fresh(s) && Stranded(s)
    ensures c in s.callers && s.callers[c].Waits? && s.callers[c].ticket in Tickets(s.drv.waiting)
  {
    c := 7;
    var s0 := DrowsyReached();
    ReachableStep(s0, List(c));
    var s1 := Apply(s0, List(c));
    assert s1.rousing == map[c := 0];
    ReachableStep(s1, Wait(Rouse(c)));
    var s2 := Apply(s1, Wait(Rouse(c)));
    ReachableStep(s2, Wait(Doze));
    s := Apply(s2, Wait(Doze));
    assert Tickets(s.drv.waiting) == [0];
  }
}
