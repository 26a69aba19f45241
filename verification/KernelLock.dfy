/** The big kernel lock of Dev32/lxszopt.c, one statement at a time, for any number of interleaved tasks. */
module KernelLock {
  import opened Machine

  class Task {
    /** -1 outside, 0 after the first lock_kernel, one more for each nested one. */
    var lockDepth: int
  }

  class KernelFlag {
    var locked: bool
  }

  // ---------------------------------------------------------------- the four functions, uninterrupted

  /** The state of one task and the flag. A call that would spin is described from where the spinning ends. */
  datatype Alone = Alone(depth: int, locked: bool)

  function Locked(a: Alone): Alone {
    Alone(a.depth + 1, a.locked || a.depth + 1 == 0)
  }

  function Unlocked(a: Alone): Alone {
    Alone(a.depth - 1, a.locked && a.depth - 1 >= 0)
  }

  method LockKernel(current: Task, flag: KernelFlag)
    requires current.lockDepth == -1 ==> !flag.locked
    modifies current, flag
    ensures Alone(current.lockDepth, flag.locked) == Locked(Alone(old(current.lockDepth), old(flag.locked)))
  {
    var depth := current.lockDepth + 1;
    if depth == 0 {
      flag.locked := true;
    }
    current.lockDepth := depth;
  }

  method UnlockKernel(current: Task, flag: KernelFlag)
    requires current.lockDepth >= 0
    modifies current, flag
    ensures Alone(current.lockDepth, flag.locked) == Unlocked(Alone(old(current.lockDepth), old(flag.locked)))
  {
    current.lockDepth := current.lockDepth - 1;
    if current.lockDepth < 0 {
      flag.locked := false;
    }
  }

  method ReleaseKernelLock(task: Task, flag: KernelFlag)
    modifies flag
    ensures flag.locked == (old(flag.locked) && task.lockDepth < 0)
  {
    if task.lockDepth >= 0 {
      flag.locked := false;
    }
  }

  method ReacquireKernelLock(task: Task, flag: KernelFlag)
    requires task.lockDepth >= 0 ==> !flag.locked
    modifies flag
    ensures flag.locked == (old(flag.locked) || task.lockDepth >= 0)
  {
    if task.lockDepth >= 0 {
      flag.locked := true;
    }
  }

  // ---------------------------------------------------------------- interleaved

  datatype Pc =
    | Out
    | Locking      // lock_kernel has computed the new depth
    | Spinning     // lock_kernel is in get_kernel_lock
    | Storing      // lock_kernel is about to store the new depth
    | Dropping     // unlock_kernel is past its check
    | Putting      // unlock_kernel is about to put the lock
    | Stopped      // unlock_kernel found nothing to unlock
    | Releasing    // release_kernel_lock is about to put the lock
    | Away         // between release and reacquire
    | Regaining    // reacquire_kernel_lock is in get_kernel_lock

  /**
   `local` is the new depth lock_kernel has computed and not yet stored. `nest` is history: completed
   lock_kernel calls less unlock_kernel calls that have decremented.
   */
  datatype Thread = Thread(pc: Pc, depth: int, local: int, nest: int)

  /** `owner` is history: the task that set the flag last. */
  datatype State = State(threads: map<nat, Thread>, locked: bool, owner: Option<nat>)

  datatype Call = LockCall | UnlockCall | ReleaseCall

  datatype Step =
    | Spawn(t: nat)
    | Begin(t: nat, call: Call)
    | Advance(t: nat)

  predicate Enabled(s: State, step: Step) {
    match step
    case Spawn(t) => t !in s.threads
    case Begin(t, _) => t in s.threads && s.threads[t].pc.Out?
    case Advance(t) =>
      && t in s.threads && !s.threads[t].pc.Out? && !s.threads[t].pc.Stopped?
      && (s.threads[t].pc.Spinning? || s.threads[t].pc.Regaining? ==> !s.locked)
  }

  function Started(th: Thread, call: Call): Thread {
    match call
    case LockCall => th.(pc := Locking, local := th.depth + 1)
    case UnlockCall => th.(pc := if th.depth < 0 then Stopped else Dropping)
    case ReleaseCall => th.(pc := if th.depth >= 0 then Releasing else Away)
  }

  /** What one statement does to its own task. */
  function Next(th: Thread): Thread {
    match th.pc
    case Locking => th.(pc := if th.local == 0 then Spinning else Storing)
    case Spinning => th.(pc := Storing)
    case Storing => th.(pc := Out, depth := th.local, nest := th.nest + 1)
    case Dropping => th.(pc := if th.depth - 1 < 0 then Putting else Out, depth := th.depth - 1, nest := th.nest - 1)
    case Releasing => th.(pc := Away)
    case Away => th.(pc := if th.depth >= 0 then Regaining else Out)
    case Stopped => th
    case _ => th.(pc := Out)
  }

  /** get_kernel_lock and put_kernel_lock are the only statements that touch the flag. */
  predicate Gets(pc: Pc) { pc.Spinning? || pc.Regaining? }

  predicate Puts(pc: Pc) { pc.Putting? || pc.Releasing? }

  function Advanced(s: State, t: nat): State
    requires Enabled(s, Advance(t))
  {
    var pc := s.threads[t].pc;
    var moved := Put(s, t, Next(s.threads[t]));
    if Gets(pc) then moved.(locked := true, owner := Some(t))
    else if Puts(pc) then moved.(locked := false, owner := None)
    else moved
  }

  function Put(s: State, t: nat, th: Thread): State {
    s.(threads := s.threads[t := th])
  }

  function Apply(s: State, step: Step): State
    requires Enabled(s, step)
  {
    match step
    case Spawn(t) => Put(s, t, Thread(Out, -1, 0, 0))
    case Begin(t, call) => Put(s, t, Started(s.threads[t], call))
    case Advance(t) => Advanced(s, t)
  }

  const BOOT: State := State(map[], false, None)

  ghost predicate Legal(s: State, steps: seq<Step>)
    decreases |steps|
  {
    steps == [] || (Enabled(s, steps[0]) && Legal(Apply(s, steps[0]), steps[1..]))
  }

  ghost function After(s: State, steps: seq<Step>): State
    requires Legal(s, steps)
    decreases |steps|
  {
    if steps == [] then s else After(Apply(s, steps[0]), steps[1..])
  }

  ghost predicate Reachable(s: State) {
    exists steps :: Legal(BOOT, steps) && s == After(BOOT, steps)
  }

  /** Whether a task is between getting and putting the lock, read off its program counter and depth. */
  predicate Owns(th: Thread) {
    if th.pc.Out? || th.pc.Locking? then th.depth >= 0
    else th.pc.Storing? || th.pc.Dropping? || th.pc.Putting? || th.pc.Releasing?
  }

  predicate InStep(th: Thread) {
    && th.depth >= -1 && th.depth == th.nest - 1
    && (th.pc.Locking? || th.pc.Storing? ==> th.local == th.depth + 1)
    && (th.pc.Spinning? ==> th.local == 0 && th.depth == -1)
    && (th.pc.Dropping? || th.pc.Releasing? || th.pc.Regaining? ==> th.depth >= 0)
    && (th.pc.Putting? || th.pc.Stopped? ==> th.depth == -1)
  }

  ghost predicate Inv(s: State) {
    && (forall t :: t in s.threads ==> InStep(s.threads[t]) && (Owns(s.threads[t]) <==> s.owner == Some(t)))
    && (s.locked <==> s.owner.Some?)
    && (s.owner.Some? ==> s.owner.value in s.threads)
  }

  lemma {:induction false} StartKeeps(th: Thread, call: Call)
    requires InStep(th) && th.pc.Out?
    ensures InStep(Started(th, call)) && (Owns(Started(th, call)) <==> Owns(th))
  {
  }

  lemma NextInStep(th: Thread)
    requires InStep(th) && !th.pc.Out? && !th.pc.Stopped?
    ensures InStep(Next(th))
  {
    var next := Next(th);
    if th.pc.Locking? {
      assert next.pc == if th.local == 0 then Spinning else Storing;
    } else if th.pc.Storing? {
      assert next.pc == Out && next.depth == th.local;
    } else if th.pc.Dropping? {
      assert next.pc == if th.depth == 0 then Putting else Out;
    } else {
      assert next.depth == th.depth && next.local == th.local && next.nest == th.nest;
      assert next.pc == match th.pc
        case Spinning => Storing
        case Releasing => Away
        case Away => if th.depth >= 0 then Regaining else Out
        case _ => Out;
    }
  }

  /** A task's ownership moves at exactly the statements that touch the flag. */
  lemma NextOwns(th: Thread)
    requires InStep(th) && !th.pc.Out? && !th.pc.Stopped?
    ensures Gets(th.pc) ==> !Owns(th) && Owns(Next(th))
    ensures Puts(th.pc) ==> Owns(th) && !Owns(Next(th))
    ensures !Gets(th.pc) && !Puts(th.pc) ==> (Owns(Next(th)) <==> Owns(th))
  {
  }

  lemma StepKeeps(s: State, step: Step)
    requires Inv(s) && Enabled(s, step)
    ensures Inv(Apply(s, step))
  {
    match step
    case Spawn(t) =>
    case Begin(t, call) => StartKeeps(s.threads[t], call);
    case Advance(t) =>
      NextInStep(s.threads[t]);
      NextOwns(s.threads[t]);
  }

  lemma {:induction false} RunKeeps(s: State, steps: seq<Step>)
    requires Inv(s) && Legal(s, steps)
    ensures Inv(After(s, steps))
    decreases |steps|
  {
    if steps != [] {
      StepKeeps(s, steps[0]);
      RunKeeps(Apply(s, steps[0]), steps[1..]);
    }
  }

  lemma ReachableInv(s: State)
    requires Reachable(s)
    ensures Inv(s)
  {
    var steps :| Legal(BOOT, steps) && s == After(BOOT, steps);
    RunKeeps(BOOT, steps);
  }

  /**
   Mutual exclusion in every interleaving: at most one task owns the lock, the flag is set exactly while one
   does, and a task outside the four functions owns it exactly when its depth is not negative.
   */
  lemma OneOwner(s: State)
    requires Reachable(s)
    ensures forall t, u :: t in s.threads && u in s.threads && Owns(s.threads[t]) && Owns(s.threads[u]) ==> t == u
    ensures s.locked <==> exists t :: t in s.threads && Owns(s.threads[t])
    ensures forall t :: t in s.threads && s.threads[t].pc.Out? ==> (s.threads[t].depth >= 0 <==> s.owner == Some(t))
    ensures forall t :: t in s.threads && s.threads[t].pc.Away? ==> s.owner != Some(t)
  {
    ReachableInv(s);
    if s.locked {
      assert Owns(s.threads[s.owner.value]);
    }
  }

  /** lock_kernel of a task that already holds the lock never spins, whatever the other tasks do. */
  lemma NestedNeverSpins(s: State, t: nat)
    requires Reachable(s) && t in s.threads
    ensures s.threads[t].pc.Spinning? ==> s.threads[t].depth == -1 && s.owner != Some(t)
    ensures s.threads[t].pc.Locking? && s.owner == Some(t) ==> Advanced(s, t).threads[t].pc.Storing?
  {
    ReachableInv(s);
  }

  /** With every task outside and its calls balanced, every depth is -1 and the lock is free. */
  lemma BalancedIsFree(s: State)
    requires Reachable(s)
    requires forall t :: t in s.threads ==> s.threads[t].pc.Out? && s.threads[t].nest == 0
    ensures !s.locked && forall t :: t in s.threads ==> s.threads[t].depth == -1
  {
    ReachableInv(s);
  }

  /**
   A call made in steps with nobody in between is what the uninterrupted function computes; unlock_kernel by a
   task that holds nothing never ends.
   */
  lemma UninterruptedCalls(s: State, t: nat)
    requires Reachable(s) && t in s.threads && s.threads[t].pc.Out? && (s.threads[t].depth == -1 ==> !s.locked)
    ensures var here := Alone(s.threads[t].depth, s.locked);
        var s2 := Advanced(Apply(s, Begin(t, LockCall)), t);
        var s3 := if here.depth == -1 then Advanced(s2, t) else s2;
        Advanced(s3, t).threads[t].pc.Out?
        && Alone(Advanced(s3, t).threads[t].depth, Advanced(s3, t).locked) == Locked(here)
    ensures var here := Alone(s.threads[t].depth, s.locked);
        here.depth >= 0 ==>
          var s2 := Advanced(Apply(s, Begin(t, UnlockCall)), t);
          var s3 := if here.depth == 0 then Advanced(s2, t) else s2;
          s3.threads[t].pc.Out? && Alone(s3.threads[t].depth, s3.locked) == Unlocked(here)
    ensures s.threads[t].depth == -1 ==>
        var s1 := Apply(s, Begin(t, UnlockCall)); !Enabled(s1, Advance(t)) && forall call :: !Enabled(s1, Begin(t, call))
  {
    ReachableInv(s);
  }

  /** release_kernel_lock and reacquire_kernel_lock around a sleep: the lock is given up and taken back, the depth stays. */
  lemma UninterruptedSchedule(s: State, t: nat)
    requires Reachable(s) && t in s.threads && s.threads[t].pc.Out?
    ensures var here := s.threads[t];
        var s1 := Apply(s, Begin(t, ReleaseCall));
        var away := if here.depth >= 0 then Advanced(s1, t) else s1;
        var back := if here.depth >= 0 then Advanced(Advanced(away, t), t) else Advanced(away, t);
        && away.threads[t].pc.Away? && away.threads[t].depth == here.depth && away.owner != Some(t)
        && (s.owner == Some(t) ==> !away.locked) && (s.owner != Some(t) ==> away.locked == s.locked)
        && back.threads[t].pc.Out? && back.threads[t].depth == here.depth
        && (here.depth >= 0 <==> back.owner == Some(t))
  {
    ReachableInv(s);
  }

  /**
   Nobody is stuck for good: a task in one of the functions that is not waiting for the lock has a statement to
   take, one that waits has it as soon as the lock is free, and a lock that is not free has an owner who is not
   waiting for it.
   */
  lemma NobodyStuck(s: State, t: nat)
    requires Reachable(s) && t in s.threads
    ensures !s.threads[t].pc.Out? && !s.threads[t].pc.Stopped? ==>
        Enabled(s, Advance(t))
        || (s.locked && s.threads[t].pc in {Spinning, Regaining} && s.owner.Some? && s.owner != Some(t) && s.owner.value in s.threads
            && (s.threads[s.owner.value].pc.Out? || Enabled(s, Advance(s.owner.value))))
  {
    ReachableInv(s);
    if s.owner.Some? {
      assert Owns(s.threads[s.owner.value]);
    }
  }
}
