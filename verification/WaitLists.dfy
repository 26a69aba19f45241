/** Waiting and waking in Dev32/lxwaiton.c: waiters that blocked through DevBlock move to wait queues at boot. */
module WaitLists {
  import opened Machine

  /** Where a thread stands in LX_WaitOn. */
  datatype Pc =
    | Entered        // the availability of `current` was read once
    | Chosen         // the mode is chosen, the waiter not yet listed
    | Top            // listed, about to clear the continue flag
    | Waiting        // listed, flag cleared, not yet asleep
    | Asleep         // in DevBlock or in the queue sleep
    | Woken          // back from it, about to look at the availability again
    | Looking        // about to test the continue flag
    | Leaving        // past the loop, still listed

  /** A waiter: its two flag bits are `queue` and `again`; `prev` is the local prev_current_available. */
  datatype Waiter = Waiter(pc: Pc, id: nat, queue: bool, again: bool, prev: bool)

  datatype State = State(available: bool, list: seq<nat>, threads: map<nat, Waiter>)

  datatype Step =
    | Enter(t: nat, id: nat)
    | Move(t: nat)             // the thread's next statement; asleep, its timeout or a wake-up
    | RunOn(id: nat)
    | MakeAvailable
    | Resched                  // the locked pass of LX_ReschedWaitOn

  /** Whether a wait is in the waiter's list between insert and delete. */
  predicate Listed(w: Waiter) {
    !w.pc.Entered? && !w.pc.Chosen?
  }

  function Put(s: State, t: nat, w: Waiter): State {
    s.(threads := s.threads[t := w])
  }

  function Remove(list: seq<nat>, t: nat): (r: seq<nat>)
    ensures forall u :: u in r <==> u in list && u != t
  {
    if list == [] then [] else (if list[0] == t then [] else [list[0]]) + Remove(list[1..], t)
  }

  /** The next statement of thread `t`. A sleeper may always go on: its wait is timed, or somebody else woke it. */
  function Moved(s: State, t: nat): State
    requires t in s.threads
  {
    var w := s.threads[t];
    match w.pc
    case Entered => Put(s, t, w.(pc := Chosen, queue := s.available))
    case Chosen => Put(s, t, w.(pc := Top)).(list := [t] + s.list)
    case Top => Put(s, t, w.(pc := Waiting, again := false))
    case Waiting => Put(s, t, w.(pc := Asleep))
    case Asleep => Put(s, t, Roused(w))
    case Woken =>
      if s.available && !w.prev then Put(s, t, w.(pc := Looking, queue := true, prev := true))
      else Put(s, t, w.(pc := Looking))
    case Looking => Put(s, t, w.(pc := if w.again then Top else Leaving))
    case Leaving => s.(list := Remove(s.list, t), threads := s.threads - {t})
  }

  /** Back from sleep; only a waiter in block mode looks at the availability again. */
  function Roused(w: Waiter): Waiter {
    if w.pc.Asleep? then w.(pc := if w.queue then Looking else Woken) else w
  }

  /** DevRun(id): every thread blocked on `id` runs again. */
  function DevRun(threads: map<nat, Waiter>, id: nat): map<nat, Waiter> {
    map t | t in threads :: if threads[t].id == id && !threads[t].queue then Roused(threads[t]) else threads[t]
  }

  /** What LX_RunOn does at the list entry of `t`. */
  function RunEntry(threads: map<nat, Waiter>, t: nat, id: nat): map<nat, Waiter>
    requires t in threads
  {
    var w := threads[t];
    if w.id != id then threads
    else if w.queue then threads[t := Roused(w)]
    else DevRun(threads, id)
  }

  /** What LX_ReschedWaitOn does at the list entry of `t`: a waiter in block mode is told to go round again, and run. */
  function FlagEntry(threads: map<nat, Waiter>, t: nat): map<nat, Waiter>
    requires t in threads
  {
    var w := threads[t];
    if w.queue then threads else DevRun(threads[t := w.(again := true)], w.id)
  }

  function RunAll(list: seq<nat>, threads: map<nat, Waiter>, id: nat): map<nat, Waiter> {
    if list == [] then threads
    else RunAll(list[1..], if list[0] in threads then RunEntry(threads, list[0], id) else threads, id)
  }

  function Pass(list: seq<nat>, threads: map<nat, Waiter>): map<nat, Waiter> {
    if list == [] then threads
    else Pass(list[1..], if list[0] in threads then FlagEntry(threads, list[0]) else threads)
  }

  predicate Enabled(s: State, step: Step) {
    match step
    case Enter(t, _) => t !in s.threads
    case Move(t) => t in s.threads
    case _ => true
  }

  function Apply(s: State, step: Step): State
    requires Enabled(s, step)
  {
    match step
    case Enter(t, id) => Put(s, t, Waiter(Entered, id, false, false, s.available))
    case Move(t) => Moved(s, t)
    case RunOn(id) => s.(threads := RunAll(s.list, s.threads, id))
    case MakeAvailable => s.(available := true)
    case Resched => if s.available then s.(threads := Pass(s.list, s.threads)) else s
  }

  const BOOT: State := State(false, [], map[])

  ghost predicate Legal(s: State, steps: seq<Step>)
    decreases |steps|
  {
    steps == [] || (Enabled(s, steps[0]) && Legal(Apply(s, steps[0]), steps[1..]))
  }

  ghost function After(s: State, steps: seq<Step>): State
    requires Legal(s, steps)
    decreases |steps|
  {
    if steps == [] then s else After(Apply(s, steps[0]), steps[1..])
  }

  ghost predicate Reachable(s: State) {
    exists steps :: Legal(BOOT, steps) && s == After(BOOT, steps)
  }

  // ---------------------------------------------------------------- what wake-ups leave alone

  /** The same waiter, perhaps flagged, perhaps back from sleep. */
  predicate OnlyRun(w: Waiter, w': Waiter) {
    && w'.id == w.id && w'.queue == w.queue && w'.prev == w.prev && (w.again ==> w'.again)
    && (w'.pc == w.pc || w'.pc == Roused(w).pc)
  }

  ghost predicate AllOnlyRun(threads: map<nat, Waiter>, threads': map<nat, Waiter>) {
    threads'.Keys == threads.Keys && forall t :: t in threads ==> OnlyRun(threads[t], threads'[t])
  }

  lemma OnlyRunChain(a: map<nat, Waiter>, b: map<nat, Waiter>, c: map<nat, Waiter>)
    requires AllOnlyRun(a, b) && AllOnlyRun(b, c)
    ensures AllOnlyRun(a, c)
  {
    forall t | t in a
      ensures OnlyRun(a[t], c[t])
    {
      assert OnlyRun(a[t], b[t]) && OnlyRun(b[t], c[t]);
    }
  }

  lemma {:induction false} RunAllOnlyRuns(list: seq<nat>, threads: map<nat, Waiter>, id: nat)
    ensures AllOnlyRun(threads, RunAll(list, threads, id))
    decreases |list|
  {
    if list != [] {
      var next := if list[0] in threads then RunEntry(threads, list[0], id) else threads;
      assert AllOnlyRun(threads, next);
      RunAllOnlyRuns(list[1..], next, id);
      OnlyRunChain(threads, next, RunAll(list[1..], next, id));
    }
  }

  lemma FlagEntryKeeps(threads: map<nat, Waiter>, t: nat)
    requires t in threads
    ensures FlagEntry(threads, t).Keys == threads.Keys
    ensures forall u :: u in threads ==> FlagEntry(threads, t)[u].queue == threads[u].queue
  {
  }

  /** After a pass every listed waiter in block mode is flagged and awake, and nothing else changed. */
  lemma {:induction false} PassFlags(list: seq<nat>, threads: map<nat, Waiter>)
    ensures AllOnlyRun(threads, Pass(list, threads))
    ensures forall t :: t in list && t in threads && !threads[t].queue ==>
        Pass(list, threads)[t].again && !Pass(list, threads)[t].pc.Asleep?
    ensures forall t :: t in threads && t !in list ==> Pass(list, threads)[t].again == threads[t].again
    decreases |list|
  {
    if list != [] {
      var next := if list[0] in threads then FlagEntry(threads, list[0]) else threads;
      assert AllOnlyRun(threads, next);
      PassFlags(list[1..], next);
      var end := Pass(list[1..], next);
      OnlyRunChain(threads, next, end);
      forall t | t in list && t in threads && !threads[t].queue
        ensures end[t].again && !end[t].pc.Asleep?
      {
        if t == list[0] {
          assert next[t].again && !next[t].pc.Asleep? && OnlyRun(next[t], end[t]);
        } else {
          assert t in list[1..];
        }
      }
    }
  }

  // ---------------------------------------------------------------- the invariant

  ghost predicate NoRepeats(list: seq<nat>) {
    forall i, j :: 0 <= i < j < |list| ==> list[i] != list[j]
  }

  ghost predicate InvList(s: State) {
    && NoRepeats(s.list)
    && (forall t :: t in s.list <==> t in s.threads && Listed(s.threads[t]))
  }

  /** Who saw `current` available on entry is in queue mode, or about to choose it. */
  ghost predicate InvModes(s: State) {
    forall t :: t in s.threads && s.threads[t].prev ==> s.available && (s.threads[t].queue || s.threads[t].pc.Entered?)
  }

  ghost predicate Inv(s: State) {
    InvList(s) && InvModes(s)
  }

  lemma {:induction false} RemoveKeepsOrder(list: seq<nat>, t: nat)
    requires NoRepeats(list)
    ensures NoRepeats(Remove(list, t))
    decreases |list|
  {
    if list != [] {
      RemoveKeepsOrder(list[1..], t);
      assert list[0] !in list[1..];
    }
  }

  lemma RunKeepsInv(s: State, threads: map<nat, Waiter>)
    requires Inv(s) && AllOnlyRun(s.threads, threads)
    ensures Inv(s.(threads := threads))
  {
    forall t | t in s.threads
      ensures Listed(threads[t]) <==> Listed(s.threads[t])
      ensures threads[t].prev == s.threads[t].prev && threads[t].queue == s.threads[t].queue
      ensures threads[t].pc.Entered? <==> s.threads[t].pc.Entered?
    {
      assert OnlyRun(s.threads[t], threads[t]);
    }
  }

  lemma MoveKeeps(s: State, t: nat)
    requires Inv(s) && t in s.threads
    ensures Inv(Moved(s, t))
  {
    if s.threads[t].pc.Leaving? {
      RemoveKeepsOrder(s.list, t);
    } else if s.threads[t].pc.Chosen? {
      assert t !in s.list;
    }
  }

  lemma StepKeeps(s: State, step: Step)
    requires Inv(s) && Enabled(s, step)
    ensures Inv(Apply(s, step))
    ensures s.available ==> Apply(s, step).available
  {
    match step
    case Enter(t, id) =>
    case Move(t) => MoveKeeps(s, t);
    case RunOn(id) =>
      RunAllOnlyRuns(s.list, s.threads, id);
      RunKeepsInv(s, RunAll(s.list, s.threads, id));
    case MakeAvailable =>
    case Resched =>
      PassFlags(s.list, s.threads);
      RunKeepsInv(s, Pass(s.list, s.threads));
  }

  lemma {:induction false} RunKeeps(s: State, steps: seq<Step>)
    requires Inv(s) && Legal(s, steps)
    ensures Inv(After(s, steps))
    ensures s.available ==> After(s, steps).available
    decreases |steps|
  {
    if steps != [] {
      StepKeeps(s, steps[0]);
      RunKeeps(Apply(s, steps[0]), steps[1..]);
    }
  }

  lemma ReachableInv(s: State)
    requires Reachable(s)
    ensures Inv(s)
  {
    var steps :| Legal(BOOT, steps) && s == After(BOOT, steps);
    RunKeeps(BOOT, steps);
  }

  /** In every state the wait list is exactly the set of threads between insert and delete, each once. */
  lemma ListIsTheWaiters(s: State, t: nat)
    requires Reachable(s)
    ensures t in s.list <==> t in s.threads && Listed(s.threads[t])
    ensures forall i, j :: 0 <= i < j < |s.list| ==> s.list[i] != s.list[j]
  {
    ReachableInv(s);
  }

  // ---------------------------------------------------------------- what LX_RunOn reaches

  lemma {:induction false} RunAllReaches(list: seq<nat>, threads: map<nat, Waiter>, id: nat)
    ensures RunAll(list, threads, id).Keys == threads.Keys
    ensures forall t :: t in threads ==>
        && RunAll(list, threads, id)[t] in {threads[t], Roused(threads[t])}
        && (threads[t].id != id ==> RunAll(list, threads, id)[t] == threads[t])
        && (threads[t].id == id && t in list ==> RunAll(list, threads, id)[t] == Roused(threads[t]))
    decreases |list|
  {
    if list != [] {
      var next := if list[0] in threads then RunEntry(threads, list[0], id) else threads;
      RunAllReaches(list[1..], next, id);
    }
  }

  /**
   LX_RunOn wakes exactly the threads that are asleep on its id, in either mode; a thread that waits for the id
   and is not yet asleep, or not asleep any more, is left as it is.
   */
  lemma RunOnReaches(s: State, id: nat, t: nat)
    requires Reachable(s) && t in s.threads
    ensures RunAll(s.list, s.threads, id).Keys == s.threads.Keys
    ensures var w, w' := s.threads[t], RunAll(s.list, s.threads, id)[t];
        if w.pc.Asleep? && w.id == id then w' == Roused(w) && !w'.pc.Asleep? else w' == w
  {
    ReachableInv(s);
    RunAllReaches(s.list, s.threads, id);
  }

  // ---------------------------------------------------------------- new waiters

  /** Whoever waits as `t` saw `current` available on entry. */
  predicate SawAvailable(s: State, t: nat) {
    t in s.threads ==> s.threads[t].prev
  }

  lemma SawStep(s: State, step: Step, t: nat)
    requires s.available && SawAvailable(s, t) && Enabled(s, step)
    ensures SawAvailable(Apply(s, step), t)
  {
    match step
    case RunOn(id) => RunAllOnlyRuns(s.list, s.threads, id);
    case Resched => PassFlags(s.list, s.threads);
    case _ =>
  }

  lemma {:induction false} SawRun(s: State, steps: seq<Step>, t: nat)
    requires Inv(s) && s.available && SawAvailable(s, t) && Legal(s, steps)
    ensures SawAvailable(After(s, steps), t)
    decreases |steps|
  {
    if steps != [] {
      StepKeeps(s, steps[0]);
      SawStep(s, steps[0], t);
      SawRun(Apply(s, steps[0]), steps[1..], t);
    }
  }

  /**
   Once `current` is available, a thread that starts to wait is in queue mode in every later state of every run
   in which it is listed, so it never sleeps in block mode and no pass of LX_ReschedWaitOn finds it.
   */
  lemma NewWaitersQueue(s: State, steps: seq<Step>, t: nat)
    requires Reachable(s) && s.available && t !in s.threads && Legal(s, steps)
    ensures var e := After(s, steps);
        && (t in e.list ==> t in e.threads && e.threads[t].queue)
        && (t in e.threads && e.threads[t].pc.Asleep? ==> e.threads[t].queue)
        && (t in e.threads ==> Rank(e.threads[t]) == 0)
  {
    ReachableInv(s);
    RunKeeps(s, steps);
    SawRun(s, steps, t);
  }

  // ---------------------------------------------------------------- flagged waiters

  /** The step puts `t` to sleep. */
  predicate Falls(s: State, step: Step, t: nat) {
    step == Move(t) && t in s.threads && s.threads[t].pc.Waiting?
  }

  /** A run in which `t` does not go to sleep. */
  ghost predicate StaysUp(s: State, steps: seq<Step>, t: nat)
    requires Legal(s, steps)
    decreases |steps|
  {
    steps == [] || (!Falls(s, steps[0], t) && StaysUp(Apply(s, steps[0]), steps[1..], t))
  }

  /** A flagged waiter on its way to the next sleep, which will be in queue mode. */
  predicate Converting(w: Waiter) {
    if w.queue then (w.again && w.pc.Looking?) || w.pc.Top? || w.pc.Waiting?
    else w.again && (w.pc.Asleep? || w.pc.Woken?)
  }

  /** A flagged waiter on its way to the next sleep, which will be in block mode. */
  predicate Blocking(w: Waiter) {
    !w.queue && ((w.again && w.pc.Looking?) || w.pc.Top? || w.pc.Waiting?)
  }

  lemma FlaggedMove(s: State, t: nat, u: nat)
    requires Inv(s) && s.available && t in s.threads && u in s.threads && !Falls(s, Move(u), t)
    ensures Converting(s.threads[t]) ==> t in Moved(s, u).threads && Converting(Moved(s, u).threads[t])
    ensures Blocking(s.threads[t]) ==> t in Moved(s, u).threads && Blocking(Moved(s, u).threads[t])
  {
  }

  lemma FlaggedStep(s: State, step: Step, t: nat)
    requires Inv(s) && s.available && t in s.threads && Enabled(s, step) && !Falls(s, step, t)
    ensures Converting(s.threads[t]) ==> t in Apply(s, step).threads && Converting(Apply(s, step).threads[t])
    ensures Blocking(s.threads[t]) ==> t in Apply(s, step).threads && Blocking(Apply(s, step).threads[t])
  {
    match step
    case Move(u) => FlaggedMove(s, t, u);
    case RunOn(id) => RunAllOnlyRuns(s.list, s.threads, id);
    case Resched => PassFlags(s.list, s.threads);
    case _ =>
  }

  lemma {:induction false} FlaggedRun(s: State, steps: seq<Step>, t: nat)
    requires Inv(s) && s.available && t in s.threads && Legal(s, steps) && StaysUp(s, steps, t)
    ensures Converting(s.threads[t]) ==> t in After(s, steps).threads && Converting(After(s, steps).threads[t])
    ensures Blocking(s.threads[t]) ==> t in After(s, steps).threads && Blocking(After(s, steps).threads[t])
    decreases |steps|
  {
    if steps != [] && (Converting(s.threads[t]) || Blocking(s.threads[t])) {
      StepKeeps(s, steps[0]);
      FlaggedStep(s, steps[0], t);
      FlaggedRun(Apply(s, steps[0]), steps[1..], t);
    }
  }

  /**
   Whatever the others do meanwhile, a waiter in block mode that was flagged next goes to sleep in queue mode
   if and only if the flag found it asleep or just woken; flagged before it got to sleep, it clears the flag
   and sleeps in block mode first.
   */
  lemma FlaggedConverts(s: State, steps: seq<Step>, t: nat)
    requires Reachable(s) && s.available && t in s.threads
    requires Listed(s.threads[t]) && !s.threads[t].pc.Leaving? && !s.threads[t].queue && s.threads[t].again
    requires Legal(s, steps) && StaysUp(s, steps, t) && Falls(After(s, steps), Move(t), t)
    ensures var w := Moved(After(s, steps), t).threads[t];
        w.pc.Asleep? && (w.queue <==> s.threads[t].pc.Asleep? || s.threads[t].pc.Woken?)
  {
    ReachableInv(s);
    FlaggedRun(s, steps, t);
  }

  lemma {:induction false} RunAppend(s: State, steps: seq<Step>, step: Step)
    requires Legal(s, steps) && Enabled(After(s, steps), step)
    ensures Legal(s, steps + [step]) && After(s, steps + [step]) == Apply(After(s, steps), step)
    decreases |steps|
  {
    if steps == [] {
      assert steps + [step] == [step];
      assert Legal(Apply(s, step), []);
    } else {
      assert (steps + [step])[1..] == steps[1..] + [step];
      RunAppend(Apply(s, steps[0]), steps[1..], step);
    }
  }

  lemma ReachableStep(s: State, step: Step)
    requires Reachable(s) && Enabled(s, step)
    ensures Reachable(Apply(s, step))
  {
    var steps :| Legal(BOOT, steps) && s == After(BOOT, steps);
    RunAppend(BOOT, steps, step);
  }

  // ---------------------------------------------------------------- waiters that were not flagged

  /** Asleep or past its sleep, and not flagged. */
  predicate Back(w: Waiter) {
    !w.again && (w.pc.Asleep? || w.pc.Woken? || w.pc.Looking? || w.pc.Leaving?)
  }

  /** The thread's own statements until it is out of LX_WaitOn. */
  function ToReturn(w: Waiter): nat {
    match w.pc
    case Asleep => if w.queue then 3 else 4
    case Woken => 3
    case Looking => 2
    case Leaving => 1
    case _ => 0
  }

  function Moves(steps: seq<Step>, t: nat): nat {
    if steps == [] then 0 else (if steps[0] == Move(t) then 1 else 0) + Moves(steps[1..], t)
  }

  /** No pass flags `t`, because there is none or it is in queue mode, and it does not start to wait once more. */
  ghost predicate Unflagged(s: State, steps: seq<Step>, t: nat) {
    && (Resched !in steps || (t in s.threads && s.threads[t].queue))
    && forall id :: Enter(t, id) !in steps
  }

  lemma BackMove(s: State, t: nat, u: nat)
    requires Inv(s) && t in s.threads && u in s.threads && Back(s.threads[t])
    ensures var s' := Moved(s, u);
        if t in s'.threads
        then Back(s'.threads[t]) && (s.threads[t].queue ==> s'.threads[t].queue)
             && ToReturn(s'.threads[t]) + (if u == t then 1 else 0) <= ToReturn(s.threads[t])
        else u == t && t !in s'.list && ToReturn(s.threads[t]) == 1
  {
  }

  lemma BackStep(s: State, step: Step, t: nat)
    requires Inv(s) && t in s.threads && Back(s.threads[t]) && Enabled(s, step) && !step.Move?
    requires step == Resched ==> s.threads[t].queue
    ensures var s' := Apply(s, step);
        t in s'.threads && Back(s'.threads[t]) && (s.threads[t].queue ==> s'.threads[t].queue)
        && ToReturn(s'.threads[t]) <= ToReturn(s.threads[t])
  {
    match step
    case RunOn(id) =>
      RunAllReaches(s.list, s.threads, id);
    case Resched =>
      PassFlags(s.list, s.threads);
      PassLeavesQueued(s.list, s.threads, t);
    case _ =>
  }

  /** A pass does not touch a waiter in queue mode. */
  lemma {:induction false} PassLeavesQueued(list: seq<nat>, threads: map<nat, Waiter>, t: nat)
    requires t in threads && threads[t].queue
    ensures t in Pass(list, threads) && Pass(list, threads)[t] == threads[t]
    decreases |list|
  {
    if list != [] {
      PassLeavesQueued(list[1..], if list[0] in threads then FlagEntry(threads, list[0]) else threads, t);
    }
  }

  lemma {:induction false} GoneStays(s: State, steps: seq<Step>, t: nat)
    requires Inv(s) && t !in s.threads && Legal(s, steps) && forall id :: Enter(t, id) !in steps
    ensures t !in After(s, steps).threads
    decreases |steps|
  {
    if steps != [] {
      StepKeeps(s, steps[0]);
      match steps[0] {
        case RunOn(id) => RunAllOnlyRuns(s.list, s.threads, id);
        case Resched => PassFlags(s.list, s.threads);
        case _ =>
      }
      assert steps[0] in steps && forall step :: step in steps[1..] ==> step in steps;
      GoneStays(Apply(s, steps[0]), steps[1..], t);
    }
  }

  lemma {:induction false} BackRun(s: State, steps: seq<Step>, t: nat)
    requires Inv(s) && t in s.threads && Back(s.threads[t]) && Legal(s, steps) && Unflagged(s, steps, t)
    ensures var e := After(s, steps);
        if t in e.threads then Back(e.threads[t]) && ToReturn(e.threads[t]) + Moves(steps, t) <= ToReturn(s.threads[t])
        else Moves(steps, t) > 0
    decreases |steps|
  {
    if steps != [] {
      var s' := Apply(s, steps[0]);
      assert steps[0] in steps && forall step :: step in steps[1..] ==> step in steps;
      StepKeeps(s, steps[0]);
      if steps[0].Move? {
        BackMove(s, t, steps[0].t);
      } else {
        BackStep(s, steps[0], t);
      }
      if t in s'.threads {
        BackRun(s', steps[1..], t);
      } else {
        GoneStays(s', steps[1..], t);
      }
    }
  }

  /**
   LX_WaitOn returns: whatever the others do meanwhile, a waiter whose sleep ends is off the list after at most
   four of its own statements, unless a pass of LX_ReschedWaitOn flags it.
   */
  lemma UnflaggedReturns(s: State, steps: seq<Step>, t: nat)
    requires Reachable(s) && t in s.threads && Back(s.threads[t]) && Legal(s, steps) && Unflagged(s, steps, t)
    requires Moves(steps, t) >= 4
    ensures t !in After(s, steps).threads && t !in After(s, steps).list
  {
    ReachableInv(s);
    BackRun(s, steps, t);
    RunKeeps(s, steps);
  }

  /** Who goes to sleep in queue mode has no flag left. */
  ghost predicate InvClear(s: State) {
    forall t :: t in s.threads && s.threads[t].queue && (s.threads[t].pc.Waiting? || s.threads[t].pc.Asleep?) ==> !s.threads[t].again
  }

  lemma ClearStep(s: State, step: Step)
    requires InvClear(s) && Enabled(s, step)
    ensures InvClear(Apply(s, step))
  {
    if step.RunOn? {
      RunAllReaches(s.list, s.threads, step.id);
    } else if step.Resched? && s.available {
      PassFlags(s.list, s.threads);
      var after := Pass(s.list, s.threads);
      forall t | t in s.threads && after[t].queue
        ensures after[t] == s.threads[t]
      {
        assert OnlyRun(s.threads[t], after[t]);
        PassLeavesQueued(s.list, s.threads, t);
      }
    }
  }

  lemma {:induction false} ClearRun(s: State, steps: seq<Step>)
    requires InvClear(s) && Legal(s, steps)
    ensures InvClear(After(s, steps))
    decreases |steps|
  {
    if steps != [] {
      ClearStep(s, steps[0]);
      ClearRun(Apply(s, steps[0]), steps[1..]);
    }
  }

  /**
   So a sleeper in queue mode, converted or not, goes round no more: whatever passes there are and whatever the
   others do, once its sleep ends it is off the list after at most three of its own statements.
   */
  lemma QueueSleepersReturn(s: State, steps: seq<Step>, t: nat)
    requires Reachable(s) && t in s.threads && s.threads[t].queue && s.threads[t].pc.Asleep?
    requires Legal(s, steps) && (forall id :: Enter(t, id) !in steps) && Moves(steps, t) >= 3
    ensures t !in After(s, steps).threads && t !in After(s, steps).list
  {
    ReachableInv(s);
    var before :| Legal(BOOT, before) && s == After(BOOT, before);
    ClearRun(BOOT, before);
    BackRun(s, steps, t);
    RunKeeps(s, steps);
  }

  /** And a sleeper on its way out is off the list after exactly as many of its own statements as `ToReturn` says, left alone. */
  lemma ReturnsAlone(s: State, t: nat)
    requires Reachable(s) && t in s.threads && Back(s.threads[t])
    ensures var n := ToReturn(s.threads[t]);
        Legal(s, seq(n, _ => Move(t))) && t !in After(s, seq(n, _ => Move(t))).threads
  {
    ReachableInv(s);
    AloneRun(s, t);
  }

  lemma {:induction false} AloneRun(s: State, t: nat)
    requires Inv(s) && t in s.threads && Back(s.threads[t])
    ensures var n := ToReturn(s.threads[t]);
        Legal(s, seq(n, _ => Move(t))) && t !in After(s, seq(n, _ => Move(t))).threads
    decreases ToReturn(s.threads[t])
  {
    var n := ToReturn(s.threads[t]);
    var steps := seq(n, _ => Move(t));
    var s' := Moved(s, t);
    StepKeeps(s, Move(t));
    assert steps[1..] == seq(n - 1, _ => Move(t));
    if t in s'.threads {
      assert ToReturn(s'.threads[t]) == n - 1;
      AloneRun(s', t);
    } else {
      assert n == 1 && steps[1..] == [];
    }
  }

  /** A run in which a pass flags a waiter that then sleeps in block mode all the same. */
  lemma FlagCanComeEarly() returns (s: State, t: nat)
    ensures Reachable(s) && s.available && t in s.threads
    ensures Listed(s.threads[t]) && !s.threads[t].queue && s.threads[t].again && s.threads[t].pc.Waiting?
    ensures Moved(s, t).threads[t].pc.Asleep? && !Moved(s, t).threads[t].queue
  {
    t := 7;
    assert Legal(BOOT, []) && BOOT == After(BOOT, []);
    ReachableStep(BOOT, Enter(t, 1));
    var s1 := Apply(BOOT, Enter(t, 1));
    ReachableStep(s1, Move(t));
    var s2 := Apply(s1, Move(t));
    ReachableStep(s2, Move(t));
    var s3 := Apply(s2, Move(t));
    ReachableStep(s3, Move(t));
    var s4 := Apply(s3, Move(t));
    assert s4.list == [t] && s4.threads[t] == Waiter(Waiting, 1, false, false, false);
    ReachableStep(s4, MakeAvailable);
    var s5 := Apply(s4, MakeAvailable);
    ReachableStep(s5, Resched);
    s := Apply(s5, Resched);
    PassFlags(s5.list, s5.threads);
  }

  // ---------------------------------------------------------------- the migration ends

  /** How far a thread is from being out of block mode, once `current` is available. */
  function Rank(w: Waiter): nat {
    if w.queue then 0
    else match w.pc
      case Entered => 0
      case Chosen => 5
      case Looking => 5
      case Top => 4
      case Waiting => 3
      case Asleep => 2
      case Woken => 1
      case Leaving => 1
  }

  ghost predicate Ranked(s: State, k: nat) {
    forall t :: t in s.threads ==> Rank(s.threads[t]) <= k
  }

  /** Steps of the other threads while LX_ReschedWaitOn sleeps: each one still in block mode gets to run. */
  ghost predicate Fair(s: State, steps: seq<Step>) {
    && Legal(s, steps)
    && forall t :: t in s.threads && Rank(s.threads[t]) > 0 ==> Move(t) in steps
  }

  lemma MoveRanks(s: State, t: nat)
    requires Inv(s) && s.available && t in s.threads
    ensures var s' := Moved(s, t);
        && s'.threads.Keys <= s.threads.Keys && (forall u :: u in s'.threads && u != t ==> s'.threads[u] == s.threads[u])
        && (t in s'.threads ==> Rank(s'.threads[t]) <= Rank(s.threads[t]))
        && (t in s'.threads && Rank(s.threads[t]) > 0 ==> Rank(s'.threads[t]) < Rank(s.threads[t]))
  {
  }

  lemma OnlyRunRanks(w: Waiter, w': Waiter)
    requires OnlyRun(w, w')
    ensures Rank(w') <= Rank(w)
  {
  }

  lemma StepRanks(s: State, step: Step)
    requires Inv(s) && s.available && Enabled(s, step)
    ensures var s' := Apply(s, step);
        && (forall t :: t in s'.threads && t in s.threads ==> Rank(s'.threads[t]) <= Rank(s.threads[t]))
        && (forall t :: t in s'.threads && t !in s.threads ==> Rank(s'.threads[t]) == 0)
        && (step.Move? && step.t in s'.threads && Rank(s.threads[step.t]) > 0 ==>
              Rank(s'.threads[step.t]) < Rank(s.threads[step.t]))
  {
    if step.Move? {
      MoveRanks(s, step.t);
    } else if step.RunOn? || step.Resched? {
      RunAllOnlyRuns(s.list, s.threads, if step.RunOn? then step.id else 0);
      PassFlags(s.list, s.threads);
      var s' := Apply(s, step);
      assert AllOnlyRun(s.threads, s'.threads);
      forall t | t in s.threads
        ensures Rank(s'.threads[t]) <= Rank(s.threads[t])
      {
        OnlyRunRanks(s.threads[t], s'.threads[t]);
      }
    }
  }

  lemma {:induction false} SliceLowers(s: State, steps: seq<Step>, k: nat)
    requires Inv(s) && s.available && Legal(s, steps) && Ranked(s, k + 1)
    requires forall t :: t in s.threads ==> Rank(s.threads[t]) <= k || Move(t) in steps
    ensures Ranked(After(s, steps), k)
    decreases |steps|
  {
    if steps != [] {
      var s' := Apply(s, steps[0]);
      StepKeeps(s, steps[0]);
      StepRanks(s, steps[0]);
      forall t | t in s'.threads
        ensures Rank(s'.threads[t]) <= k || Move(t) in steps[1..]
      {
        if t in s.threads && Rank(s.threads[t]) > k {
          assert steps == [steps[0]] + steps[1..];
        }
      }
      SliceLowers(s', steps[1..], k);
    }
  }

  /** The slices of time that the successive passes leave to the others are fair, as far as they are needed. */
  ghost predicate FairFrom(s: State, slices: seq<seq<Step>>)
    decreases |slices|
  {
    (exists t :: t in s.list && t in s.threads && !s.threads[t].queue) ==>
      && slices != []
      && Fair(Apply(s, Resched), slices[0])
      && FairFrom(After(Apply(s, Resched), slices[0]), slices[1..])
  }

  /** One of the first `i` entries of the list is in block mode. */
  ghost predicate BlockedBefore(list: seq<nat>, i: nat, threads: map<nat, Waiter>)
    requires i <= |list| && forall t :: t in list ==> t in threads
  {
    exists k :: 0 <= k < i && !threads[list[k]].queue
  }

  lemma BlockedStep(list: seq<nat>, i: nat, threads: map<nat, Waiter>)
    requires i < |list| && forall t :: t in list ==> t in threads
    ensures BlockedBefore(list, i + 1, threads) <==> BlockedBefore(list, i, threads) || !threads[list[i]].queue
  {
  }

  lemma PassStep(list: seq<nat>, i: nat, threads: map<nat, Waiter>)
    requires i < |list| && list[i] in threads
    ensures Pass(list[i..], threads) == Pass(list[i + 1..], FlagEntry(threads, list[i]))
  {
    assert list[i..][1..] == list[i + 1..];
  }

  class Waits {
    var available: bool
    var list: seq<nat>
    var threads: map<nat, Waiter>

    ghost function View(): State
      reads this
    {
      State(available, list, threads)
    }

    method RunOn(id: nat)
      requires Inv(View())
      modifies this`threads
      ensures View() == Apply(old(View()), Step.RunOn(id))
    {
      var i := 0;
      while i < |list|
        invariant 0 <= i <= |list|
        invariant threads.Keys == old(threads).Keys
        invariant RunAll(list[i..], threads, id) == RunAll(list, old(threads), id)
      {
        assert list[i..][1..] == list[i + 1..];
        var p := list[i];
        assert p in list;
        if threads[p].id == id {
          if threads[p].queue {
            threads := threads[p := Roused(threads[p])];
          } else {
            threads := DevRun(threads, id);
          }
        }
        i := i + 1;
      }
    }

    /** The locked pass over the list; the result counts the waiters it found in block mode. */
    method FlagBlocked() returns (doResched: nat)
      requires Inv(View()) && available
      modifies this`threads
      ensures View() == Apply(old(View()), Resched)
      ensures doResched > 0 <==> exists t :: t in list && !old(threads)[t].queue
    {
      doResched := 0;
      var i := 0;
      ghost var first := threads;
      while i < |list|
        invariant 0 <= i <= |list|
        invariant threads.Keys == first.Keys && forall t :: t in first ==> threads[t].queue == first[t].queue
        invariant Pass(list[i..], threads) == Pass(list, first)
        invariant doResched > 0 <==> BlockedBefore(list, i, first)
      {
        var p := list[i];
        assert p in list;
        BlockedStep(list, i, first);
        PassStep(list, i, threads);
        FlagEntryKeeps(threads, p);
        ghost var next := FlagEntry(threads, p);
        if !threads[p].queue {
          var id := threads[p].id;
          threads := threads[p := threads[p].(again := true)];
          threads := DevRun(threads, id);
          doResched := doResched + 1;
        }
        assert threads == next;
        i := i + 1;
      }
    }

    /** schedule_timeout: the others take `steps`. */
    method Schedule(steps: seq<Step>)
      requires Legal(View(), steps)
      modifies this
      ensures View() == After(old(View()), steps)
    {
      var i := 0;
      while i < |steps|
        invariant 0 <= i <= |steps|
        invariant Legal(View(), steps[i..]) && After(View(), steps[i..]) == After(old(View()), steps)
      {
        assert steps[i..][1..] == steps[i + 1..] && steps[i..][0] == steps[i];
        var s' := Apply(State(available, list, threads), steps[i]);
        available, list, threads := s'.available, s'.list, s'.threads;
        i := i + 1;
      }
    }

    /**
     LX_ReschedWaitOn, sleeping through `slices` in turn. It comes back after at most `k` passes that find a
     waiter in block mode, where `k` is the highest rank, never more than 5; then every listed waiter queues.
     */
    method ReschedWaitOn(slices: seq<seq<Step>>, k: nat) returns (passes: nat)
      requires Inv(View()) && (available ==> FairFrom(View(), slices) && Ranked(View(), k))
      modifies this
      ensures available == old(available) && Inv(View())
      ensures available ==> forall t :: t in list ==> threads[t].queue
      ensures passes <= k
      decreases k
    {
      passes := 0;
      var doResched := 0;
      if available {
        doResched := FlagBlocked();
      }
      if doResched > 0 {
        ghost var s0 := old(View());
        ghost var s1 := View();
        StepKeeps(s0, Resched);
        StepRanks(s0, Resched);
        ghost var p :| p in list && !s0.threads[p].queue;
        assert Rank(s0.threads[p]) > 0;
        forall t | t in s1.threads
          ensures Rank(s1.threads[t]) <= k - 1 || Move(t) in slices[0]
        {
        }
        SliceLowers(s1, slices[0], k - 1);
        RunKeeps(s1, slices[0]);
        Schedule(slices[0]);
        var more := ReschedWaitOn(slices[1..], k - 1);
        passes := more + 1;
      } else if available {
        StepKeeps(old(View()), Resched);
        PassFlags(list, old(threads));
      }
    }
  }

  /** No thread is ever more than five of its own statements away from the queue. */
  lemma RankBound(s: State)
    ensures Ranked(s, 5)
  {
  }
}
