/**
 End to end: what goes in at a submission and at the running of a command comes out at the other side. The
 two ends are noted from the arguments of the steps of a run alone, not by the functions that perform them.
 */
module DaemonTraces {
  import opened Machine
  import opened CommandQueue
  import opened DaemonSystem
  import opened DaemonInvariant
  import opened DaemonTheorems

  /** What a submitter asked for, and memory as it was then. */
  datatype Asked = Asked(cmd: nat, waitflag: bool, pData: nat, cb: nat, mem: map<nat, Bytes>)

  /** What the running of a command set: its return code and the contents of the daemon's buffer. */
  datatype Outcome = Outcome(rc: nat, bytes: Bytes)

  /** By thread what it asked for last, by ticket what was asked for and how it ran. */
  datatype Trace = Trace(prepared: map<nat, Asked>, listed: nat, asked: map<nat, Asked>, ran: map<nat, Outcome>)

  const UNTRACED: Trace := Trace(map[], 0, map[], map[])

  function Noted(tr: Trace, s: State, step: Step): Trace {
    match step
    case Prepare(c, cmd, waitflag, pData, cb, _) =>
      tr.(prepared := tr.prepared[c := Asked(cmd, waitflag, pData, cb, s.mem)])
    case List(c) =>
      tr.(listed := tr.listed + 1,
          asked := if c in tr.prepared then tr.asked[tr.listed := tr.prepared[c]] else tr.asked)
    case Run(rc, bytes) =>
      tr.(ran := if s.dmn.cur.Some? then tr.ran[s.dmn.cur.value := Outcome(rc, bytes)] else tr.ran)
    case _ => tr
  }

  ghost function TraceAfter(tr: Trace, s: State, steps: seq<Step>): Trace
    requires Legal(s, steps)
    decreases |steps|
  {
    if steps == [] then tr else TraceAfter(Noted(tr, s, steps[0]), Apply(s, steps[0]), steps[1..])
  }

  /** A state that some run reaches, with the trace of that run. */
  ghost predicate Traced(s: State, tr: Trace) {
    exists mem, steps ::
      Legal(Init(mem), steps) && s == After(Init(mem), steps) && tr == TraceAfter(UNTRACED, Init(mem), steps)
  }

  lemma TracedReachable(s: State, tr: Trace)
    requires Traced(s, tr)
    ensures Reachable(s)
  {
  }

  // ---------------------------------------------------------------- what was asked for

  predicate InMemory(a: Asked) {
    a.cb != 0 ==> a.pData in a.mem && a.cb <= |a.mem[a.pData]|
  }

  /** The command bytes at the moment of submission. */
  function AskedBytes(a: Asked): Bytes
    requires InMemory(a)
  {
    if a.cb == 0 then [] else a.mem[a.pData][..a.cb]
  }

  /** The packet names the command, the length and, for a waiting caller, its buffer. */
  predicate Names(p: Packet, a: Asked) {
    p.cmd == a.cmd && p.cbCmdDataLen == a.cb && p.cmdBlockID == if a.waitflag then a.pData else 0
  }

  predicate Made(e: Entry, a: Asked) {
    && InMemory(a) && Names(e.packet, a)
    && (Blocking(e) ==> a.pData in a.mem && a.cb <= |a.mem[a.pData]|)
    && (!Blocking(e) ==> e.payload == AskedBytes(a))
  }

  ghost predicate InvReady(s: State, tr: Trace) {
    forall c :: c in s.callers && s.callers[c].Ready? ==>
        var e := s.callers[c].entry;
        && c in tr.prepared && Made(e, tr.prepared[c])
        && (Blocking(e) ==> e.packet.cmdBlockID in s.mem && s.mem[e.packet.cmdBlockID] == tr.prepared[c].mem[e.packet.cmdBlockID])
  }

  ghost predicate InvAsked(h: History, tr: Trace) {
    && tr.listed == |h.log|
    && forall t :: 0 <= t < |h.log| ==>
         && t in tr.asked && Made(Sent(h, t), tr.asked[t])
         && (Blocking(Sent(h, t)) ==> h.log[t].whole == tr.asked[t].mem[tr.asked[t].pData])
  }

  lemma PrepareReady(s: State, tr: Trace, step: Step)
    requires InvReady(s, tr) && step.Prepare? && Enabled(s, step)
    ensures InvReady(Apply(s, step), Noted(tr, s, step))
  {
    var a := Asked(step.cmd, step.waitflag, step.pData, step.cb, s.mem);
    var e := NewEntry(step.pParm, step.cmd, step.waitflag, step.pData, step.cb, s.mem);
    assert Made(e, a);
  }

  lemma AnswerReady(s: State, tr: Trace)
    requires InvReady(s, tr) && InvMemory(s) && InvCallers(s) && InvDaemon(s) && CanAnswer(s)
    requires s.dmn.cur.Some? ==> s.dmn.cur.value !in s.hist.finished
    ensures InvReady(DoAnswer(s), tr)
  {
    ReplyMachine(s);
    if s.dmn.param.cmdBlockID != 0 {
      AnswerOwner(s);
      forall c | c in s.callers && s.callers[c].Ready?
        ensures BlockId(s.callers[c]) == s.callers[c].entry.packet.cmdBlockID != s.dmn.param.cmdBlockID
      {
      }
    }
  }

  lemma ScribbleReady(s: State, tr: Trace, addr: nat, bytes: Bytes)
    requires InvReady(s, tr) && addr != 0 && !InUse(s, addr)
    ensures InvReady(s.(mem := s.mem[addr := bytes]), tr)
  {
    forall c | c in s.callers && s.callers[c].Ready?
      ensures s.callers[c].entry.packet.cmdBlockID == BlockId(s.callers[c]) != addr
    {
    }
  }

  lemma SameReady(s: State, s': State, tr: Trace)
    requires InvReady(s, tr) && s'.mem == s.mem
    requires forall c :: c in s'.callers && s'.callers[c].Ready? ==> c in s.callers && s'.callers[c] == s.callers[c]
    ensures InvReady(s', tr)
  {
  }

  lemma ReadyKept(s: State, tr: Trace, step: Step)
    requires InvReady(s, tr) && Inv(s) && Enabled(s, step)
    ensures InvReady(Apply(s, step), Noted(tr, s, step))
  {
    if step.Prepare? {
      PrepareReady(s, tr, step);
    } else if step.List? {
      SameReady(s, DoList(s, step.c), tr);
    } else if step.Answer? {
      if s.dmn.cur.Some? {
        CurUnsettled(s);
      }
      AnswerReady(s, tr);
    } else if step.Scribble? {
      ScribbleReady(s, tr, step.addr, step.bytes);
    } else {
      MachineFootprints(s, step);
      FewerCallers(s, step);
      SameReady(s, Apply(s, step), tr);
    }
  }

  lemma ListAsked(s: State, tr: Trace, c: nat)
    requires InvReady(s, tr) && InvAsked(s.hist, tr) && CanList(s, c)
    ensures InvAsked(DoList(s, c).hist, Noted(tr, s, List(c)))
  {
    var h, h' := s.hist, DoList(s, c).hist;
    assert forall t :: 0 <= t < |h.log| ==> h'.log[t] == h.log[t];
    assert Made(h'.log[|h.log|].entry, tr.prepared[c]);
  }

  lemma AskedKept(s: State, tr: Trace, step: Step)
    requires InvReady(s, tr) && InvAsked(s.hist, tr) && Enabled(s, step)
    ensures InvAsked(Apply(s, step).hist, Noted(tr, s, step))
  {
    if step.List? {
      ListAsked(s, tr, step.c);
    } else {
      Footprints(s, step);
    }
  }

  // ---------------------------------------------------------------- what the command did

  /** A restart is not executed: the daemon leaves its loop with return code zero and the bytes it was given. */
  function DueRc(h: History, tr: Trace, t: nat): nat
    requires t < |h.log| && t in tr.ran
  {
    if Sent(h, t).packet.cmd == CMD_RESTART then 0 else tr.ran[t].rc
  }

  ghost predicate DueBytes(h: History, tr: Trace, t: nat, bytes: Bytes)
    requires t < |h.log| && t in tr.ran
  {
    var n := Sent(h, t).packet.cbCmdDataLen;
    if Sent(h, t).packet.cmd == CMD_RESTART then t in h.received && bytes == h.received[t]
    else n <= |tr.ran[t].bytes| && bytes == tr.ran[t].bytes[..n]
  }

  /** The front of the daemon's buffer, as long as the command it has fetched. */
  function Front(s: State, t: nat): Bytes
    requires t < |s.hist.log|
  {
    var n := Sent(s.hist, t).packet.cbCmdDataLen;
    if n <= |s.dmn.buffer| then s.dmn.buffer[..n] else []
  }

  /** The daemon is in its fetch ioctl. */
  predicate InFetch(pc: Pc) {
    pc.Checking? || pc.Drowsy? || pc.Asleep? || pc.Fetching? || pc.Holds?
  }

  ghost predicate InvRunning(s: State, tr: Trace) {
    var d, h := s.dmn, s.hist;
    && (InFetch(d.pc) ==> d.param.rc == 0)
    && (d.cur.Some? && d.cur.value < |h.log| ==>
          var t := d.cur.value;
          && (d.pc.Execute? ==> t !in tr.ran && d.param.rc == 0 && t in h.received && Front(s, t) == h.received[t])
          && (d.pc.Reply? || d.pc.Post? ==> t in tr.ran && d.param.rc == DueRc(h, tr, t) && DueBytes(h, tr, t, Front(s, t))))
  }

  ghost predicate InvRan(h: History, tr: Trace) {
    && (forall t :: t in tr.ran ==> t in h.delivered)
    && (forall t :: t in h.replied ==> t < |h.log| && t in tr.ran && DueBytes(h, tr, t, h.replied[t]))
    && (forall t :: t in h.posted ==> t < |h.log| && t in tr.ran && h.posted[t].rc == DueRc(h, tr, t))
  }

  ghost predicate InvTrace(s: State, tr: Trace) {
    InvReady(s, tr) && InvAsked(s.hist, tr) && InvRunning(s, tr) && InvRan(s.hist, tr)
  }

  lemma HandRunning(s: State, tr: Trace)
    requires InvRunning(s, tr) && InvRan(s.hist, tr) && InvDaemon(s) && InvBytes(s.hist) && InvOrder(s) && CanHand(s)
    requires s.dmn.pc.entry.ticket < |s.hist.log| && s.dmn.pc.entry == Sent(s.hist, s.dmn.pc.entry.ticket)
    ensures InvRunning(DoHand(s), tr)
  {
    var e := s.dmn.pc.entry;
    assert e in Line(s);
    InLineUndelivered(s, e);
  }

  lemma RunRunning(s: State, tr: Trace, rc: nat, bytes: Bytes)
    requires InvRunning(s, tr) && InvDaemon(s) && s.dmn.pc.Execute? && |bytes| == |s.dmn.buffer|
    requires forall t :: 0 <= t < |s.hist.log| ==> WellMade(Sent(s.hist, t))
    ensures InvRunning(DoRun(s, rc, bytes), Noted(tr, s, Run(rc, bytes)))
  {
    if s.dmn.cur.Some? {
      var t, s', tr' := s.dmn.cur.value, DoRun(s, rc, bytes), Noted(tr, s, Run(rc, bytes));
      assert tr'.ran[t] == Outcome(rc, bytes) && s'.hist == s.hist && s'.dmn.cur == s.dmn.cur;
      assert s.dmn.param.cmd == Sent(s.hist, t).packet.cmd != CMD_INC_DATAPACKETLEN;
      assert DueBytes(s'.hist, tr', t, Front(s', t));
    }
  }

  lemma SameRunning(s: State, s': State, tr: Trace)
    requires InvRunning(s, tr) && s'.hist.received == s.hist.received
    requires |s.hist.log| <= |s'.hist.log| && forall t :: 0 <= t < |s.hist.log| ==> s'.hist.log[t] == s.hist.log[t]
    requires s.dmn.cur.Some? ==> s.dmn.cur.value < |s.hist.log|
    requires InFetch(s'.dmn.pc) ==> s'.dmn.param.rc == 0
    requires s'.dmn.cur.Some? ==> s'.dmn.cur == s.dmn.cur && s'.dmn.param == s.dmn.param && s'.dmn.buffer == s.dmn.buffer
    requires s'.dmn.pc == s.dmn.pc || s'.dmn.cur.None? || (s.dmn.pc.Reply? && s'.dmn.pc.Post?)
    ensures InvRunning(s', tr)
  {
    if s'.dmn.cur.Some? {
      var t := s.dmn.cur.value;
      assert Sent(s'.hist, t) == Sent(s.hist, t) && Front(s', t) == Front(s, t);
    }
  }

  /** A step of the daemon that leaves the command it has alone. */
  predicate SameCommandAt(s: State, s': State) {
    && (InFetch(s'.dmn.pc) ==> s'.dmn.param.rc == 0)
    && (s'.dmn.cur.Some? ==> s'.dmn.cur == s.dmn.cur && s'.dmn.param == s.dmn.param && s'.dmn.buffer == s.dmn.buffer)
    && (s'.dmn.pc == s.dmn.pc || s'.dmn.cur.None? || (s.dmn.pc.Reply? && s'.dmn.pc.Post?))
  }

  lemma WaitSame(s: State, w: WaitStep)
    requires CanWait(s, w) && InvDaemon(s) && (InFetch(s.dmn.pc) ==> s.dmn.param.rc == 0)
    ensures SameCommandAt(s, DoWait(s, w))
  {
  }

  lemma AnswerSame(s: State)
    requires CanAnswer(s)
    ensures SameCommandAt(s, DoAnswer(s))
  {
  }

  lemma DaemonSame(s: State, step: Step)
    requires Enabled(s, step) && !step.Hand? && !step.Run? && !step.List?
    requires InvDaemon(s) && (InFetch(s.dmn.pc) ==> s.dmn.param.rc == 0)
    ensures SameCommandAt(s, Apply(s, step))
  {
    if step.Wait? {
      WaitSame(s, step.w);
    } else if step.Answer? {
      AnswerSame(s);
    }
  }

  lemma RunningKept(s: State, tr: Trace, step: Step)
    requires InvRunning(s, tr) && InvRan(s.hist, tr) && Inv(s) && Enabled(s, step)
    ensures InvRunning(Apply(s, step), Noted(tr, s, step))
  {
    StepFacts(s);
    if step.Hand? {
      HandRunning(s, tr);
    } else if step.Run? {
      RunRunning(s, tr, step.rc, step.bytes);
    } else if step.List? {
      SameRunning(s, DoList(s, step.c), tr);
    } else {
      DaemonSame(s, step);
      Footprints(s, step);
      SameRunning(s, Apply(s, step), tr);
    }
  }

  lemma HandRan(h: History, h': History, tr: Trace)
    requires InvRan(h, tr) && h'.log == h.log && h'.replied == h.replied && h'.posted == h.posted
    requires forall t :: t in h.delivered ==> t in h'.delivered
    requires forall t :: t in h.delivered ==> t in h.received && t in h'.received && h'.received[t] == h.received[t]
    ensures InvRan(h', tr)
  {
    forall t | t in h'.replied
      ensures DueBytes(h', tr, t, h'.replied[t])
    {
      assert t in h.delivered;
    }
  }

  lemma RunRan(s: State, tr: Trace, rc: nat, bytes: Bytes)
    requires InvRan(s.hist, tr) && InvRunning(s, tr) && InvDaemon(s) && s.dmn.pc.Execute?
    ensures InvRan(s.hist, Noted(tr, s, Run(rc, bytes)))
  {
    var h, tr' := s.hist, Noted(tr, s, Run(rc, bytes));
    if s.dmn.cur.Some? {
      forall t | t in tr.ran
        ensures t != s.dmn.cur.value && tr'.ran[t] == tr.ran[t]
      {
      }
    }
  }

  lemma AnswerRan(s: State, tr: Trace)
    requires InvRan(s.hist, tr) && InvRunning(s, tr) && InvDaemon(s) && CanAnswer(s)
    ensures InvRan(DoAnswer(s).hist, tr)
  {
    AnswerHistory(s);
    var h, h' := s.hist, DoAnswer(s).hist;
    if s.dmn.param.cmdBlockID != 0 && s.dmn.cur.Some? {
      var t := s.dmn.cur.value;
      assert h'.replied == h.replied[t := Front(s, t)];
      forall u | u in h'.replied
        ensures u < |h'.log| && u in tr.ran && DueBytes(h', tr, u, h'.replied[u])
      {
      }
    }
  }

  lemma PublishRan(s: State, tr: Trace)
    requires InvRan(s.hist, tr) && InvRunning(s, tr) && InvDaemon(s) && s.dmn.pc.Post?
    ensures InvRan(DoPublish(s).hist, tr)
  {
    var h, h' := s.hist, DoPublish(s).hist;
    assert h' == h.(posted := h.posted[s.dmn.cur.value := s.dmn.param]);
    forall t | t in h'.replied
      ensures DueBytes(h', tr, t, h'.replied[t])
    {
    }
  }

  lemma SameRan(h: History, h': History, tr: Trace)
    requires InvRan(h, tr)
    requires |h.log| <= |h'.log| && forall t :: 0 <= t < |h.log| ==> h'.log[t] == h.log[t]
    requires h'.delivered == h.delivered && h'.received == h.received && h'.replied == h.replied && h'.posted == h.posted
    ensures InvRan(h', tr)
  {
    forall t | t in h'.replied
      ensures DueBytes(h', tr, t, h'.replied[t])
    {
    }
  }

  lemma HandRanKept(s: State, tr: Trace)
    requires InvRan(s.hist, tr) && InvEntries(s) && InvOrder(s) && InvBytes(s.hist) && CanHand(s)
    ensures InvRan(DoHand(s).hist, tr)
  {
    HandHistory(s);
    assert s.dmn.pc.entry in Line(s);
    InLineUndelivered(s, s.dmn.pc.entry);
    HandRan(s.hist, DoHand(s).hist, tr);
  }

  lemma ListRan(s: State, tr: Trace, c: nat)
    requires InvRan(s.hist, tr) && CanList(s, c)
    ensures InvRan(DoList(s, c).hist, tr)
  {
    SameRan(s.hist, DoList(s, c).hist, tr);
  }

  lemma OtherRan(s: State, tr: Trace, step: Step)
    requires InvRan(s.hist, tr) && Enabled(s, step)
    requires !step.Hand? && !step.List? && !step.Answer? && !step.Publish?
    ensures InvRan(Apply(s, step).hist, tr)
  {
    Footprints(s, step);
    SameRan(s.hist, Apply(s, step).hist, tr);
  }

  lemma RanKept(s: State, tr: Trace, step: Step)
    requires InvRan(s.hist, tr) && InvRunning(s, tr) && Enabled(s, step)
    requires InvEntries(s) && InvOrder(s) && InvBytes(s.hist) && InvDaemon(s)
    ensures InvRan(Apply(s, step).hist, Noted(tr, s, step))
  {
    if step.Hand? {
      HandRanKept(s, tr);
    } else if step.List? {
      ListRan(s, tr, step.c);
      RanOnly(DoList(s, step.c).hist, tr, Noted(tr, s, step));
    } else if step.Answer? {
      AnswerRan(s, tr);
    } else if step.Publish? {
      PublishRan(s, tr);
    } else if step.Run? {
      RunRan(s, tr, step.rc, step.bytes);
      OtherRan(s, Noted(tr, s, step), step);
    } else {
      OtherRan(s, tr, step);
      RanOnly(Apply(s, step).hist, tr, Noted(tr, s, step));
    }
  }

  lemma RanOnly(h: History, tr: Trace, tr': Trace)
    requires InvRan(h, tr) && tr'.ran == tr.ran
    ensures InvRan(h, tr')
  {
    forall t | t in h.replied
      ensures DueBytes(h, tr', t, h.replied[t])
    {
    }
  }

  lemma TraceKept(s: State, tr: Trace, step: Step)
    requires InvTrace(s, tr) && Inv(s) && Enabled(s, step)
    ensures InvTrace(Apply(s, step), Noted(tr, s, step))
  {
    ReadyKept(s, tr, step);
    AskedKept(s, tr, step);
    RunningKept(s, tr, step);
    RanKept(s, tr, step);
  }

  lemma {:induction false} RunTraces(s: State, tr: Trace, steps: seq<Step>)
    requires InvTrace(s, tr) && Inv(s) && Legal(s, steps)
    ensures InvTrace(After(s, steps), TraceAfter(tr, s, steps))
    decreases |steps|
  {
    if steps != [] {
      TraceKept(s, tr, steps[0]);
      StepKeeps(s, steps[0]);
      RunTraces(Apply(s, steps[0]), Noted(tr, s, steps[0]), steps[1..]);
    }
  }

  lemma TracedInv(s: State, tr: Trace)
    requires Traced(s, tr)
    ensures InvTrace(s, tr)
  {
    var mem, steps :|
      Legal(Init(mem), steps) && s == After(Init(mem), steps) && tr == TraceAfter(UNTRACED, Init(mem), steps);
    InitHolds(mem);
    RunTraces(Init(mem), UNTRACED, steps);
  }

  // ---------------------------------------------------------------- the promises

  /**
   What the daemon is handed is what the submitter asked for: the bytes its buffer held at the moment of the
   call, whether or not it waits and whatever it did to that buffer since.
   */
  lemma DeliveredAsAsked(s: State, tr: Trace, t: nat)
    requires Traced(s, tr) && t in s.hist.delivered
    ensures t in tr.asked && InMemory(tr.asked[t]) && t in s.hist.received
    ensures s.hist.received[t] == AskedBytes(tr.asked[t])
  {
    TracedReachable(s, tr);
    ReachableGood(s);
    TracedInv(s, tr);
    DeliveredBytes(s, t);
  }

  /** When the daemon is about to run it, packet and buffer are as asked for, and the return code is zero. */
  lemma ExecutedAsAsked(s: State, tr: Trace)
    requires Traced(s, tr) && s.dmn.pc.Execute? && s.dmn.cur.Some?
    ensures var t := s.dmn.cur.value;
        && t in tr.asked && InMemory(tr.asked[t])
        && Names(s.dmn.param, tr.asked[t]) && s.dmn.param.rc == 0
        && tr.asked[t].cb <= |s.dmn.buffer| && s.dmn.buffer[..tr.asked[t].cb] == AskedBytes(tr.asked[t])
  {
    TracedReachable(s, tr);
    ReachableGood(s);
    TracedInv(s, tr);
    DeliveredAsAsked(s, tr, s.dmn.cur.value);
  }

  /** What is known of a returned command at either end. */
  lemma ReturnedEnds(s: State, tr: Trace, t: nat)
    requires Traced(s, tr) && t in s.hist.returned
    ensures t < |s.hist.log| && t in tr.asked && Names(s.hist.returned[t].packet, tr.asked[t]) && tr.asked[t].waitflag
    ensures tr.asked[t].pData in tr.asked[t].mem && tr.asked[t].cb <= |tr.asked[t].mem[tr.asked[t].pData]|
    ensures s.hist.log[t].whole == tr.asked[t].mem[tr.asked[t].pData]
    ensures Sent(s.hist, t).packet.cmd == tr.asked[t].cmd && Sent(s.hist, t).packet.cbCmdDataLen == tr.asked[t].cb
    ensures t in s.hist.replied ==> t in s.hist.delivered
  {
    TracedReachable(s, tr);
    ReachableGood(s);
    TracedInv(s, tr);
    CallersGetTheirOwn(s, t);
    assert Blocking(Sent(s.hist, t));
  }

  /**
   A caller that no close failed gets what the running of its own command set: the return code, and in front of
   its buffer as it was at the call as many of the bytes as it asked for; a restart gives zero and leaves the
   buffer alone.
   */
  lemma ReturnedAsRun(s: State, tr: Trace, t: nat)
    requires Traced(s, tr) && t in s.hist.returned && t !in s.hist.drained
    ensures t in tr.asked && t in tr.ran && tr.asked[t].waitflag && tr.asked[t].pData in tr.asked[t].mem
    ensures var r, a, o := s.hist.returned[t], tr.asked[t], tr.ran[t]; var before := a.mem[a.pData];
        && Names(r.packet, a)
        && (a.cmd != CMD_RESTART ==>
              r.packet.rc == o.rc && a.cb <= |o.bytes| && a.cb <= |before| && r.buffer == o.bytes[..a.cb] + before[a.cb..])
        && (a.cmd == CMD_RESTART ==> r.packet.rc == 0 && r.buffer == before)
  {
    TracedReachable(s, tr);
    TracedInv(s, tr);
    ReturnedEnds(s, tr, t);
    CallersGetTheirOwn(s, t);
    assert InvRan(s.hist, tr);
    var a := tr.asked[t];
    var before := a.mem[a.pData];
    assert DueBytes(s.hist, tr, t, s.hist.replied[t]);
    assert s.hist.returned[t].buffer == s.hist.replied[t] + before[a.cb..];
    if a.cmd == CMD_RESTART {
      DeliveredAsAsked(s, tr, t);
      assert before[..a.cb] + before[a.cb..] == before;
    }
  }

  /** A caller that a close failed is told so; its buffer is as it was at the call unless the daemon had already replied. */
  lemma ReturnedAsDrained(s: State, tr: Trace, t: nat)
    requires Traced(s, tr) && t in s.hist.returned && t in s.hist.drained
    ensures t in tr.asked && tr.asked[t].pData in tr.asked[t].mem
    ensures var r, a := s.hist.returned[t], tr.asked[t];
        && Names(r.packet, a) && r.packet.rc == ERROR_NO_CHILDREN
        && (t !in tr.ran ==> r.buffer == a.mem[a.pData])
  {
    TracedReachable(s, tr);
    TracedInv(s, tr);
    ReturnedEnds(s, tr, t);
    CallersGetTheirOwn(s, t);
  }
}
