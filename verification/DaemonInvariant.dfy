/** What holds in every state of every run of the command protocol, and that each step keeps it. */
module DaemonInvariant {
  import opened Machine
  import opened CommandQueue
  import opened DaemonSystem

  /** The commands between submission and hand-over, oldest first: the one the driver has popped, then the list. */
  function Line(s: State): seq<Entry> {
    (if s.dmn.pc.Holds? then [s.dmn.pc.entry] else []) + s.drv.waiting
  }

  function Cur(s: State): multiset<nat> {
    if s.dmn.cur.Some? then multiset{s.dmn.cur.value} else multiset{}
  }

  /** The entry submitted as number `t`. */
  function Sent(h: History, t: nat): Entry
    requires t < |h.log|
  {
    h.log[t].entry
  }

  /** The packet the caller of `t` is due: the daemon's, or its own if that never came, failed by a close. */
  function Due(h: History, t: nat): Packet
    requires t < |h.log|
  {
    var p := if t in h.posted then h.posted[t] else Sent(h, t).packet;
    if t in h.drained then p.(rc := ERROR_NO_CHILDREN) else p
  }

  /** The buffer of the caller of `t`: as submitted, with the daemon's reply bytes in front once they were copied. */
  function DueBuffer(h: History, t: nat): Bytes
    requires t < |h.log|
  {
    var whole := h.log[t].whole;
    if t in h.replied && |h.replied[t]| <= |whole| then Overlay(whole, h.replied[t]) else whole
  }

  /** Equal in the fields that the daemon does not manage. */
  predicate SameCommand(p: Packet, q: Packet) {
    p.cmd == q.cmd && p.hcmd == q.hcmd && p.cmdBlockID == q.cmdBlockID && p.cbCmdDataLen == q.cbCmdDataLen
  }

  predicate WellMade(e: Entry) {
    && (!Blocking(e) ==> |e.payload| == e.packet.cbCmdDataLen)
    && e.packet.cmd != CMD_INC_DATAPACKETLEN
    && (e.packet.cmd == CMD_SHUTDOWN ==> !Blocking(e))
  }

  ghost predicate InvLog(s: State) {
    var log := s.hist.log;
    && s.drv.handle == HandleAfter(|log|)
    && (forall c :: c in s.callers && s.callers[c].Ready? ==> WellMade(s.callers[c].entry))
    && forall t :: 0 <= t < |log| ==>
         && log[t].entry.ticket == t && log[t].entry.packet.hcmd == HandleAfter(t + 1) && WellMade(log[t].entry)
         && (if Blocking(log[t].entry)
             then log[t].entry.packet.cbCmdDataLen <= |log[t].whole| && log[t].sent == log[t].whole[..log[t].entry.packet.cbCmdDataLen]
             else log[t].sent == log[t].entry.payload)
  }

  ghost predicate InvEntries(s: State) {
    && (forall e :: e in Line(s) ==> e.ticket < |s.hist.log| && e == Sent(s.hist, e.ticket))
    && (forall e :: e in s.drv.done ==>
          && e.ticket < |s.hist.log| && Blocking(Sent(s.hist, e.ticket)) && e.packet == Due(s.hist, e.ticket)
          && (e.ticket in s.hist.posted || e.ticket in s.hist.drained))
  }

  /** Where the accepted commands are: in line, with the daemon, done, collected, lost with a daemon, dropped by a close. */
  ghost function Places(s: State): multiset<nat> {
    multiset(Tickets(Line(s))) + Cur(s) + multiset(Tickets(s.drv.done))
      + s.hist.finished + s.hist.lost + s.hist.dropped
  }

  /** Every accepted command is in exactly one place. */
  ghost predicate InvConserve(s: State) {
    Places(s) == multiset(Range(|s.hist.log|))
  }

  ghost predicate InvOrder(s: State) {
    && Increasing(s.hist.delivered + Tickets(Line(s)))
    && (forall t :: t in s.hist.delivered ==> t < |s.hist.log|)
  }

  /** Until the first close, what was handed over and what is in line are all submissions, in order. */
  ghost predicate InvFifo(s: State) {
    s.hist.closes == 0 ==> s.hist.delivered + Tickets(Line(s)) == Range(|s.hist.log|)
  }

  /** Settled: a result for `t` is on the done list or was collected. */
  ghost predicate Settled(s: State, t: nat) {
    multiset(Tickets(s.drv.done))[t] + s.hist.finished[t] >= 1
  }

  ghost predicate InvSettled(s: State) {
    var h := s.hist;
    && (forall t :: t in h.drained ==> t < |h.log| && Settled(s, t))
    && (forall t :: t in h.posted ==> t < |h.log| && Settled(s, t) && SameCommand(h.posted[t], Sent(h, t).packet))
    && (forall t :: t in h.dropped ==> t < |h.log| && !Blocking(Sent(h, t)))
  }

  ghost predicate InvBytes(h: History) {
    && (forall t :: t in h.posted ==> t in h.replied)
    && (forall t :: t in h.replied ==> t in h.delivered && t < |h.log| && Blocking(Sent(h, t))
                                        && |h.replied[t]| == Sent(h, t).packet.cbCmdDataLen)
    && (forall t :: t in h.received <==> t in h.delivered)
    && (forall t :: t in h.received ==> t < |h.log| && h.received[t] == h.log[t].sent)
  }

  ghost predicate InvHistory(s: State) {
    InvSettled(s) && InvBytes(s.hist)
  }

  ghost predicate InvCallers(s: State) {
    var h := s.hist;
    && (forall c :: c in s.callers && s.callers[c].Waits? ==>
          var t := s.callers[c].ticket;
          t < |h.log| && h.log[t].caller == c && Blocking(Sent(h, t)) && s.callers[c].packet == Sent(h, t).packet
          && t !in h.finished)
    && (forall t :: 0 <= t < |h.log| && Blocking(Sent(h, t)) && t !in h.finished ==>
          h.log[t].caller in s.callers && s.callers[h.log[t].caller] == Waits(Sent(h, t).packet, t))
    && (forall c, c' :: c in s.callers && c' in s.callers && c != c' && BlockId(s.callers[c]) != 0 ==>
          BlockId(s.callers[c]) != BlockId(s.callers[c']))
  }

  ghost predicate InvReturned(s: State) {
    var h := s.hist;
    && (forall t :: t in h.returned <==> t in h.finished && t < |h.log| && Blocking(Sent(h, t)))
    && (forall t :: t in h.returned ==> h.returned[t] == Result(Due(h, t), DueBuffer(h, t)))
  }

  ghost predicate InvDaemon(s: State) {
    var d, h := s.dmn, s.hist;
    && (d.cur.Some? ==>
          var t := d.cur.value;
          && (d.pc.Execute? || d.pc.Reply? || d.pc.Post?)
          && t < |h.log| && t in h.delivered && SameCommand(d.param, Sent(h, t).packet))
    && (d.cur.None? && (d.pc.Execute? || d.pc.Reply?) ==> d.param.cmdBlockID == 0)
    && (d.cur.None? && d.pc.Execute? ==> d.param.cmd == CMD_INC_DATAPACKETLEN)
    && (d.pc.Post? ==> d.cur.Some? && d.param.cmdBlockID != 0 && d.cur.value in h.replied)
    && (d.pc.Test? && d.param.cmd == CMD_SHUTDOWN ==> d.param.cmdBlockID == 0)
    && (!d.pc.Gone? ==>
          && d.param.cbMaxDataLen == d.dataLen == |d.buffer|
          && (d.cur.Some? ==> Sent(h, d.cur.value).packet.cbCmdDataLen <= |d.buffer|))
  }

  ghost predicate InvMemory(s: State) {
    && (forall c :: c in s.callers && BlockId(s.callers[c]) != 0 ==> BlockId(s.callers[c]) in s.mem)
    && (forall c :: c in s.callers && s.callers[c].Ready? && Blocking(s.callers[c].entry) ==>
          s.callers[c].entry.packet.cbCmdDataLen <= |s.mem[BlockId(s.callers[c])]|)
    && (forall c :: c in s.callers && s.callers[c].Waits? && s.callers[c].ticket < |s.hist.log| && BlockId(s.callers[c]) != 0 ==>
          s.mem[BlockId(s.callers[c])] == DueBuffer(s.hist, s.callers[c].ticket))
  }

  /** The largest length that a buffer grown in steps of 4096 bytes can reach in 32 bits. */
  const LARGEST: nat := 0xFFFF_F000

  /** No command is larger than a buffer can become. */
  ghost predicate Growable(s: State) {
    forall t :: 0 <= t < |s.hist.log| ==> s.hist.log[t].entry.packet.cbCmdDataLen <= LARGEST
  }

  /** The number of 4096-byte steps from `base` that the need `need` takes. */
  function Rounds(base: nat, need: nat): nat {
    if need <= base then 0 else (need - base + INCR_DATA_LEN - 1) / INCR_DATA_LEN
  }

  ghost predicate InvGrowth(s: State) {
    Growable(s) ==>
      && (!s.dmn.pc.Gone? ==>
            var o := s.hist.offer;
            && o.base % INCR_DATA_LEN == 0 && Room(o) <= LARGEST
            && s.dmn.param.cbMaxDataLen == Room(o) - (if s.dmn.pc.Execute? && s.dmn.cur.None? then INCR_DATA_LEN else 0)
            && (o.rounds > 0 ==> Line(s) != [] && Line(s)[0].packet.cbCmdDataLen > Room(o) - INCR_DATA_LEN))
      && forall t :: t in s.hist.offers ==>
           t < |s.hist.log| && s.hist.offers[t].rounds == Rounds(s.hist.offers[t].base, s.hist.log[t].entry.packet.cbCmdDataLen)
  }

  ghost predicate Inv(s: State) {
    && InvLog(s) && InvEntries(s) && InvConserve(s) && InvOrder(s) && InvFifo(s) && InvHistory(s)
    && InvCallers(s) && InvReturned(s) && InvDaemon(s) && InvMemory(s) && InvGrowth(s)
  }

  lemma InitHolds(mem: map<nat, Bytes>)
    ensures Inv(Init(mem))
  {
    assert Tickets([]) == [];
  }

  /** Steps that leave the history as it is. */
  predicate Silent(step: Step) {
    step.Prepare? || step.Scribble? || step.Enter? || step.Pop? || step.Run? || step.Loop?
  }

  lemma SilentHistory(s: State, step: Step)
    requires Enabled(s, step) && Silent(step)
    ensures Apply(s, step).hist == s.hist
  {
  }

  lemma WaitHistory(s: State, w: WaitStep)
    requires CanWait(s, w)
    ensures var h' := DoWait(s, w).hist; h' == s.hist.(tested := h'.tested, missed := h'.missed)
  {
  }

  lemma CallerHistory(s: State, step: Step)
    requires Enabled(s, step) && (step.List? || step.Scan?)
    ensures var h, h' := s.hist, Apply(s, step).hist;
        h' == if step.List? then h.(log := h'.log) else h.(finished := h'.finished, returned := h'.returned)
  {
  }

  lemma HandHistory(s: State)
    requires CanHand(s)
    ensures var h' := DoHand(s).hist;
        h' == s.hist.(delivered := h'.delivered, received := h'.received, offers := h'.offers, offer := h'.offer)
  {
    var h, h' := s.hist, DoHand(s).hist;
    if s.dmn.param.cbMaxDataLen < s.dmn.pc.entry.packet.cbCmdDataLen {
      assert h' == h.(offer := h'.offer);
    } else {
      assert h' == h.(delivered := h'.delivered, received := h'.received, offers := h'.offers, offer := h'.offer);
    }
  }

  lemma AnswerHistory(s: State)
    requires CanAnswer(s)
    ensures var h' := DoAnswer(s).hist; h' == s.hist.(replied := h'.replied, finished := h'.finished)
  {
    var h, h' := s.hist, DoAnswer(s).hist;
    if s.dmn.cur.None? {
      assert h' == h;
    } else if s.dmn.param.cmdBlockID == 0 {
      assert h' == h.(finished := h'.finished);
    } else {
      assert h' == h.(replied := h'.replied);
    }
  }

  lemma EndHistory(s: State, step: Step)
    requires Enabled(s, step) && (step.Start? || step.Die? || step.Close?)
    ensures var h, h' := s.hist, Apply(s, step).hist;
        h' == if step.Close? then h.(drained := h'.drained, dropped := h'.dropped, closes := h'.closes, offer := h'.offer)
              else h.(lost := h'.lost, offer := h'.offer)
  {
  }

  /** Which step may change which part of the history. */
  lemma Footprints(s: State, step: Step)
    requires Enabled(s, step)
    ensures var h, h' := s.hist, Apply(s, step).hist;
        && (!step.List? ==> h'.log == h.log)
        && (!step.Close? ==> h'.drained == h.drained && h'.dropped == h.dropped && h'.closes == h.closes)
        && (!step.Publish? ==> h'.posted == h.posted)
        && (!step.Answer? ==> h'.replied == h.replied)
        && (!step.Hand? ==> h'.delivered == h.delivered && h'.received == h.received && h'.offers == h.offers)
        && (!step.Scan? ==> h'.returned == h.returned)
        && (!step.Scan? && !step.Answer? ==> h'.finished == h.finished)
  {
    if Silent(step) {
      SilentHistory(s, step);
    } else if step.List? || step.Scan? {
      CallerHistory(s, step);
    } else if step.Wait? {
      WaitHistory(s, step.w);
    } else if step.Hand? {
      HandHistory(s);
    } else if step.Answer? {
      AnswerHistory(s);
    } else if !step.Publish? {
      EndHistory(s, step);
    }
  }

  lemma WaitMachine(s: State, w: WaitStep)
    requires CanWait(s, w)
    ensures var s' := DoWait(s, w);
        && s'.callers == s.callers && s'.drv == s.drv && s'.mem == s.mem
        && s'.dmn.pc.Holds? == s.dmn.pc.Holds? && (s.dmn.pc.Holds? ==> s'.dmn.pc == s.dmn.pc)
  {
  }

  lemma ReplyMachine(s: State)
    requires CanAnswer(s)
    ensures var s' := DoAnswer(s); s'.callers == s.callers && s'.drv == s.drv && !s'.dmn.pc.Holds?
  {
  }

  /** Which step may change which part of the machine. */
  lemma MachineFootprints(s: State, step: Step)
    requires Enabled(s, step)
    ensures var s' := Apply(s, step);
        && (!step.Scan? && !step.List? && !step.Prepare? ==> s'.callers == s.callers)
        && (!step.Scan? && !step.Publish? && !step.Close? ==> s'.drv.done == s.drv.done)
        && (!step.Scribble? && !step.Answer? ==> s'.mem == s.mem)
        && (!step.List? && !step.Hand? && !step.Pop? && !step.Close? ==>
              s'.drv.waiting == s.drv.waiting && s'.dmn.pc.Holds? == s.dmn.pc.Holds?
              && (s.dmn.pc.Holds? ==> s'.dmn.pc == s.dmn.pc))
  {
    if step.Wait? {
      WaitMachine(s, step.w);
    } else if step.Answer? {
      ReplyMachine(s);
    }
  }

  // ---------------------------------------------------------------- the submission log

  lemma PrepareLog(s: State, c: nat, cmd: nat, w: bool, p: nat, cb: nat, pParm: Packet)
    requires InvLog(s) && CanPrepare(s, c, cmd, w, p, cb)
    ensures InvLog(DoPrepare(s, c, cmd, w, p, cb, pParm))
  {
    var s' := DoPrepare(s, c, cmd, w, p, cb, pParm);
    assert WellMade(NewEntry(pParm, cmd, w, p, cb, s.mem));
    assert s'.hist == s.hist && s'.drv == s.drv;
  }

  lemma ListLog(s: State, c: nat)
    requires InvLog(s) && CanList(s, c)
    ensures InvLog(DoList(s, c))
  {
    HandleCounts(|s.hist.log|);
    var s' := DoList(s, c);
    var log, log' := s.hist.log, s'.hist.log;
    assert log' == log + [log'[|log|]];
    assert log'[|log|].entry == s.callers[c].entry.(ticket := |log|, packet := s.callers[c].entry.packet.(hcmd := HandleAfter(|log| + 1)));
    forall t | 0 <= t < |log|
      ensures log'[t] == log[t]
    {
    }
  }

  lemma SameLog(s: State, s': State)
    requires InvLog(s) && s'.hist.log == s.hist.log && s'.drv.handle == s.drv.handle
    requires forall c :: c in s'.callers ==> c in s.callers && s'.callers[c] == s.callers[c]
    ensures InvLog(s')
  {
  }

  lemma FewerCallers(s: State, step: Step)
    requires Enabled(s, step) && !step.List? && !step.Prepare?
    ensures var s' := Apply(s, step);
        s'.drv.handle == s.drv.handle && forall c :: c in s'.callers ==> c in s.callers && s'.callers[c] == s.callers[c]
  {
    if !step.Scan? {
      MachineFootprints(s, step);
    }
  }

  lemma LogKept(s: State, step: Step)
    requires InvLog(s) && Enabled(s, step)
    ensures InvLog(Apply(s, step))
  {
    if step.Prepare? {
      PrepareLog(s, step.c, step.cmd, step.waitflag, step.pData, step.cb, step.pParm);
    } else if step.List? {
      ListLog(s, step.c);
    } else {
      Footprints(s, step);
      FewerCallers(s, step);
      SameLog(s, Apply(s, step));
    }
  }

  // ---------------------------------------------------------------- one place for each command

  lemma TicketIn(list: seq<Entry>, e: Entry)
    requires e in list
    ensures e.ticket in Tickets(list) && multiset(Tickets(list))[e.ticket] >= 1
  {
    var i :| 0 <= i < |list| && list[i] == e;
    assert Tickets(list)[i] == e.ticket;
  }

  /** The places of a command add up to one: waiting, held, done, collected, lost with the daemon, dropped by a close. */
  lemma OnePlace(s: State, t: nat)
    requires InvConserve(s)
    ensures multiset(Tickets(Line(s)))[t] + Cur(s)[t] + multiset(Tickets(s.drv.done))[t]
              + s.hist.finished[t] + s.hist.lost[t] + s.hist.dropped[t]
            == if t < |s.hist.log| then 1 else 0
  {
    RangeCounts(|s.hist.log|, t);
  }

  lemma CurUnsettled(s: State)
    requires InvConserve(s) && s.dmn.cur.Some?
    ensures !Settled(s, s.dmn.cur.value)
    ensures forall e :: e in s.drv.done ==> e.ticket != s.dmn.cur.value
  {
    OnePlace(s, s.dmn.cur.value);
    forall e | e in s.drv.done
      ensures e.ticket != s.dmn.cur.value
    {
      TicketIn(s.drv.done, e);
    }
  }

  lemma LineUnsettled(s: State, e: Entry)
    requires InvConserve(s) && e in Line(s)
    ensures !Settled(s, e.ticket)
  {
    OnePlace(s, e.ticket);
    TicketIn(Line(s), e);
  }

  lemma ListLine(s: State, c: nat)
    requires CanList(s, c)
    ensures var s' := DoList(s, c);
        s'.drv.waiting != [] && Line(s') == Line(s) + [s'.drv.waiting[|s'.drv.waiting| - 1]]
        && Tickets(Line(s')) == Tickets(Line(s)) + [|s.hist.log|]
  {
    var s' := DoList(s, c);
    var e := s'.drv.waiting[|s'.drv.waiting| - 1];
    assert Line(s') == Line(s) + [e];
    TicketsAppend(Line(s), [e]);
    assert Tickets([e]) == [|s.hist.log|];
  }

  lemma OneMore(line: multiset<nat>, n: nat, cur: multiset<nat>, done: multiset<nat>, finished: multiset<nat>,
                lost: multiset<nat>, dropped: multiset<nat>)
    ensures (line + multiset{n}) + cur + done + finished + lost + dropped
            == (line + cur + done + finished + lost + dropped) + multiset{n}
  {
  }

  lemma ListPlaces(s: State, c: nat)
    requires CanList(s, c)
    ensures Places(DoList(s, c)) == Places(s) + multiset{|s.hist.log|}
  {
    var n, s', h := |s.hist.log|, DoList(s, c), s.hist;
    ListLine(s, c);
    assert multiset(Tickets(Line(s'))) == multiset(Tickets(Line(s))) + multiset{n};
    OneMore(multiset(Tickets(Line(s))), n, Cur(s), multiset(Tickets(s.drv.done)), h.finished, h.lost, h.dropped);
    assert s'.dmn == s.dmn && s'.drv.done == s.drv.done;
    assert s'.hist == h.(log := s'.hist.log);
  }

  lemma ListConserve(s: State, c: nat)
    requires InvConserve(s) && CanList(s, c)
    ensures InvConserve(DoList(s, c))
  {
    ListPlaces(s, c);
    RangeGrows(|s.hist.log|);
    assert |DoList(s, c).hist.log| == |s.hist.log| + 1;
  }

  lemma ScanConserve(s: State, c: nat)
    requires InvConserve(s) && CanScan(s, c)
    ensures InvConserve(DoScan(s, c))
  {
    var r := Position(s.drv.done, s.callers[c].packet.hcmd);
    if r.Some? {
      var d, i := s.drv.done, r.value;
      assert d == d[..i] + [d[i]] + d[i + 1..];
      TicketsAppend(d[..i] + [d[i]], d[i + 1..]);
      TicketsAppend(d[..i], [d[i]]);
      TicketsAppend(d[..i], d[i + 1..]);
      assert Tickets([d[i]]) == [d[i].ticket];
    }
  }

  lemma HandConserve(s: State)
    requires InvConserve(s) && CanHand(s) && InvDaemon(s)
    ensures InvConserve(DoHand(s))
  {
    var s' := DoHand(s);
    var e := s.dmn.pc.entry;
    assert Line(s) == [e] + s.drv.waiting;
    TicketsAppend([e], s.drv.waiting);
    assert Tickets([e]) == [e.ticket];
    assert s'.dmn.cur.None? ==> Line(s') == Line(s);
    assert s'.dmn.cur.Some? ==> Line(s') == s.drv.waiting;
  }

  lemma PublishConserve(s: State)
    requires InvConserve(s) && s.dmn.pc.Post? && InvDaemon(s)
    ensures InvConserve(DoPublish(s))
  {
    var s' := DoPublish(s);
    var e := s'.drv.done[|s.drv.done|];
    assert s'.drv.done == s.drv.done + [e];
    TicketsAppend(s.drv.done, [e]);
    assert Tickets([e]) == [s.dmn.cur.value];
    assert Line(s') == Line(s);
  }

  lemma CloseConserve(s: State)
    requires InvConserve(s)
    ensures InvConserve(DoClose(s))
  {
    var s' := DoClose(s);
    var held := if s.dmn.pc.Holds? then [s.dmn.pc.entry] else [];
    SplitConserves(s.drv.waiting);
    TicketsAppend(held, s.drv.waiting);
    assert Line(s') == held;
    TicketsAppend(s.drv.done, OnlyBlocking(s.drv.waiting));
    assert Tickets(s'.drv.done) == Tickets(s.drv.done + OnlyBlocking(s.drv.waiting));
  }

  /** Steps that leave every command where it is. */
  predicate Quiet(step: Step) {
    step.Wait? || step.Prepare? || step.Scribble? || step.Start? || step.Enter? || step.Pop? || step.Run? || step.Loop?
  }

  lemma QuietSame(s: State, step: Step)
    requires Quiet(step) && Enabled(s, step)
    requires s.dmn.pc.Gone? ==> s.dmn.cur.None?
    ensures var s' := Apply(s, step);
        && Line(s') == Line(s) && s'.dmn.cur == s.dmn.cur && s'.drv.done == s.drv.done && s'.drv.handle == s.drv.handle
        && s'.hist == s.hist.(offer := s'.hist.offer, tested := s'.hist.tested, missed := s'.hist.missed)
  {
    if step.Wait? {
      WaitHistory(s, step.w);
      WaitMachine(s, step.w);
    }
  }

  lemma MovedConserve(s: State, s': State)
    requires InvConserve(s)
    requires Line(s') == Line(s) && s'.drv.done == s.drv.done && s'.hist.log == s.hist.log
    requires Cur(s') + s'.hist.finished + s'.hist.lost + s'.hist.dropped
             == Cur(s) + s.hist.finished + s.hist.lost + s.hist.dropped
    ensures InvConserve(s')
  {
    var fixed := multiset(Tickets(Line(s))) + multiset(Tickets(s.drv.done));
    assert Places(s) == fixed + (Cur(s) + s.hist.finished + s.hist.lost + s.hist.dropped);
    assert Places(s') == fixed + (Cur(s') + s'.hist.finished + s'.hist.lost + s'.hist.dropped);
  }

  lemma ConserveKept(s: State, step: Step)
    requires InvConserve(s) && InvDaemon(s) && Enabled(s, step)
    ensures InvConserve(Apply(s, step))
  {
    match step
    case List(c) => ListConserve(s, c);
    case Scan(c) => ScanConserve(s, c);
    case Hand => HandConserve(s);
    case Publish => PublishConserve(s);
    case Close => CloseConserve(s);
    case Answer => MovedConserve(s, DoAnswer(s));
    case Die => MovedConserve(s, DoDie(s));
    case _ =>
      QuietSame(s, step);
      MovedConserve(s, Apply(s, step));
  }

  // ---------------------------------------------------------------- the entries on the lists

  lemma PublishEntries(s: State)
    requires InvEntries(s) && InvDaemon(s) && InvHistory(s) && InvConserve(s) && s.dmn.pc.Post?
    ensures InvEntries(DoPublish(s))
  {
    CurUnsettled(s);
    var s' := DoPublish(s);
    assert Line(s') == Line(s);
    var t := s.dmn.cur.value;
    var pe := Entry(s.dmn.param, [], t);
    assert s'.drv.done == s.drv.done + [pe] && s'.hist.log == s.hist.log;
    assert t !in s.hist.drained && pe.packet == Due(s'.hist, t);
    forall e | e in s.drv.done
      ensures Due(s'.hist, e.ticket) == Due(s.hist, e.ticket)
    {
      assert e.ticket != t;
    }
  }

  /** What becomes of one entry that a close puts on, or finds on, the done list. */
  lemma ClosedEntry(s: State, e: Entry)
    requires InvEntries(s) && InvHistory(s) && InvConserve(s)
    requires e in s.drv.done || e in OnlyBlocking(s.drv.waiting)
    ensures e.ticket < |s.hist.log| && Blocking(Sent(s.hist, e.ticket))
    ensures e.packet.(rc := ERROR_NO_CHILDREN) == Due(s.hist, e.ticket).(rc := ERROR_NO_CHILDREN)
  {
    if e !in s.drv.done {
      OnlyBlockingIn(s.drv.waiting, e);
      LineUnsettled(s, e);
    }
  }

  lemma ClosedDone(s: State, e: Entry)
    requires InvEntries(s) && InvHistory(s) && InvConserve(s)
    requires e in Closed(s.drv).done
    ensures var h' := DoClose(s).hist;
        e.ticket < |h'.log| && Blocking(Sent(h', e.ticket)) && e.packet == Due(h', e.ticket) && e.ticket in h'.drained
  {
    var all := s.drv.done + OnlyBlocking(s.drv.waiting);
    var i :| 0 <= i < |all| && Closed(s.drv).done[i] == e;
    assert e == Failed(all[i]) && all[i] in all;
    ClosedEntry(s, all[i]);
    TicketIn(Closed(s.drv).done, e);
  }

  lemma CloseEntries(s: State)
    requires InvEntries(s) && InvHistory(s) && InvConserve(s)
    ensures InvEntries(DoClose(s))
  {
    var s' := DoClose(s);
    forall e | e in s'.drv.done
      ensures e.ticket < |s'.hist.log| && Blocking(Sent(s'.hist, e.ticket)) && e.packet == Due(s'.hist, e.ticket)
              && e.ticket in s'.hist.drained
    {
      ClosedDone(s, e);
    }
    assert Line(s) == Line(s') + s.drv.waiting;
  }

  lemma {:induction false} OnlyBlockingIn(list: seq<Entry>, e: Entry)
    requires e in OnlyBlocking(list)
    ensures e in list && Blocking(e)
  {
    if e !in OnlyBlocking(list[1..]) {
      assert e == list[0];
    } else {
      OnlyBlockingIn(list[1..], e);
    }
  }

  /** Steps that add nothing to a list and leave the due packets alone. */
  lemma FewerEntries(s: State, s': State)
    requires InvEntries(s)
    requires forall e :: e in Line(s') ==> e in Line(s)
    requires forall e :: e in s'.drv.done ==> e in s.drv.done
    requires s'.hist.log == s.hist.log && s'.hist.posted == s.hist.posted && s'.hist.drained == s.hist.drained
    ensures InvEntries(s')
  {
    forall e | e in s'.drv.done
      ensures Due(s'.hist, e.ticket) == Due(s.hist, e.ticket)
    {
    }
  }

  lemma ListEntries(s: State, c: nat)
    requires InvEntries(s) && |s.hist.log| !in s.hist.posted && |s.hist.log| !in s.hist.drained && CanList(s, c)
    ensures InvEntries(DoList(s, c))
  {
    var s' := DoList(s, c);
    var e := s'.drv.waiting[|s'.drv.waiting| - 1];
    assert Line(s') == Line(s) + [e] && e == Sent(s'.hist, e.ticket);
    forall e | e in s.drv.done
      ensures Due(s'.hist, e.ticket) == Due(s.hist, e.ticket)
    {
    }
  }

  lemma ScanEntries(s: State, c: nat)
    requires InvEntries(s) && CanScan(s, c)
    ensures InvEntries(DoScan(s, c))
  {
    assert Line(DoScan(s, c)) == Line(s);
    FewerEntries(s, DoScan(s, c));
  }

  lemma HandEntries(s: State)
    requires InvEntries(s) && CanHand(s)
    ensures InvEntries(DoHand(s))
  {
    assert Line(s) == [s.dmn.pc.entry] + s.drv.waiting;
    FewerEntries(s, DoHand(s));
  }

  lemma EntriesKept(s: State, step: Step)
    requires InvEntries(s) && InvDaemon(s) && InvHistory(s) && InvConserve(s) && Enabled(s, step)
    ensures InvEntries(Apply(s, step))
  {
    match step
    case List(c) => ListEntries(s, c);
    case Publish => PublishEntries(s);
    case Close => CloseEntries(s);
    case Scan(c) => ScanEntries(s, c);
    case Hand => HandEntries(s);
    case Answer => FewerEntries(s, Apply(s, step));
    case Die => FewerEntries(s, Apply(s, step));
    case _ =>
      QuietSame(s, step);
      FewerEntries(s, Apply(s, step));
  }

  // ---------------------------------------------------------------- submission order

  lemma ListOrder(s: State, c: nat)
    requires InvOrder(s) && InvEntries(s) && CanList(s, c)
    ensures InvOrder(DoList(s, c))
  {
    var s' := DoList(s, c);
    var e := s'.drv.waiting[|s'.drv.waiting| - 1];
    assert Line(s') == Line(s) + [e];
    TicketsAppend(Line(s), [e]);
    var order := s.hist.delivered + Tickets(Line(s));
    assert s'.hist.delivered + Tickets(Line(s')) == order + [|s.hist.log|];
    forall i | 0 <= i < |order|
      ensures order[i] < |s.hist.log|
    {
      if i < |s.hist.delivered| {
        assert order[i] == s.hist.delivered[i] && order[i] in s.hist.delivered;
      } else {
        assert order[i] == Line(s)[i - |s.hist.delivered|].ticket && Line(s)[i - |s.hist.delivered|] in Line(s);
      }
    }
  }

  /** A hand-over moves the head of the line to the end of the deliveries; a push-back moves nothing. */
  lemma HandLine(s: State)
    requires CanHand(s)
    ensures var s' := DoHand(s);
        && s'.hist.delivered + Tickets(Line(s')) == s.hist.delivered + Tickets(Line(s))
        && s'.hist.log == s.hist.log && s'.hist.closes == s.hist.closes
        && forall t :: t in s'.hist.delivered ==> t in s.hist.delivered || t == s.dmn.pc.entry.ticket
  {
    var s' := DoHand(s);
    var e := s.dmn.pc.entry;
    assert Line(s) == [e] + s.drv.waiting;
    TicketsAppend([e], s.drv.waiting);
    assert Tickets([e]) == [e.ticket];
    if s.dmn.param.cbMaxDataLen < e.packet.cbCmdDataLen {
      assert Line(s') == Line(s);
    } else {
      assert Line(s') == s.drv.waiting;
    }
  }

  lemma HandOrder(s: State)
    requires InvOrder(s) && InvEntries(s) && CanHand(s)
    ensures InvOrder(DoHand(s))
  {
    HandLine(s);
    assert s.dmn.pc.entry in Line(s);
  }

  lemma CloseOrder(s: State)
    requires InvOrder(s)
    ensures InvOrder(DoClose(s))
  {
    var s' := DoClose(s);
    assert Line(s) == Line(s') + s.drv.waiting;
    TicketsAppend(Line(s'), s.drv.waiting);
    var order, order' := s.hist.delivered + Tickets(Line(s)), s'.hist.delivered + Tickets(Line(s'));
    assert order == order' + Tickets(s.drv.waiting);
    assert forall i :: 0 <= i < |order'| ==> order'[i] == order[i];
  }

  lemma SameOrder(s: State, s': State)
    requires InvOrder(s) && Line(s') == Line(s)
    requires s'.hist.log == s.hist.log && s'.hist.delivered == s.hist.delivered
    ensures InvOrder(s')
  {
  }

  lemma OrderKept(s: State, step: Step)
    requires InvOrder(s) && InvEntries(s) && InvDaemon(s) && Enabled(s, step)
    ensures InvOrder(Apply(s, step))
  {
    match step
    case List(c) => ListOrder(s, c);
    case Hand => HandOrder(s);
    case Close => CloseOrder(s);
    case Scan(c) =>
      assert Line(DoScan(s, c)) == Line(s);
      SameOrder(s, DoScan(s, c));
    case Publish =>
      assert Line(DoPublish(s)) == Line(s);
      SameOrder(s, DoPublish(s));
    case Answer => SameOrder(s, DoAnswer(s));
    case Die => SameOrder(s, DoDie(s));
    case _ =>
      QuietSame(s, step);
      SameOrder(s, Apply(s, step));
  }

  lemma SameFifo(s: State, s': State)
    requires InvFifo(s) && Tickets(Line(s')) == Tickets(Line(s))
    requires s'.hist.log == s.hist.log && s'.hist.delivered == s.hist.delivered && s'.hist.closes == s.hist.closes
    ensures InvFifo(s')
  {
  }

  lemma HandFifo(s: State)
    requires InvFifo(s) && CanHand(s)
    ensures InvFifo(DoHand(s))
  {
    HandLine(s);
  }

  lemma FifoKept(s: State, step: Step)
    requires InvFifo(s) && Enabled(s, step) && (s.dmn.pc.Gone? ==> s.dmn.cur.None?)
    ensures InvFifo(Apply(s, step))
  {
    if step.List? {
      var s' := DoList(s, step.c);
      var e := s'.drv.waiting[|s'.drv.waiting| - 1];
      assert Line(s') == Line(s) + [e];
      TicketsAppend(Line(s), [e]);
      assert Tickets([e]) == [|s.hist.log|];
      assert Range(|s.hist.log| + 1) == Range(|s.hist.log|) + [|s.hist.log|];
    } else if step.Hand? {
      HandFifo(s);
    } else if step.Pop? {
      assert Line(DoPop(s)) == Line(s);
    } else if !step.Close? {
      Footprints(s, step);
      MachineFootprints(s, step);
      assert Line(Apply(s, step)) == Line(s);
      SameFifo(s, Apply(s, step));
    }
  }

  /** A command still in line has not been delivered. */
  lemma InLineUndelivered(s: State, e: Entry)
    requires InvOrder(s) && e in Line(s)
    ensures e.ticket !in s.hist.delivered
  {
    var i :| 0 <= i < |Line(s)| && Line(s)[i] == e;
    var order := s.hist.delivered + Tickets(Line(s));
    assert order[|s.hist.delivered| + i] == e.ticket;
    forall j | 0 <= j < |s.hist.delivered|
      ensures s.hist.delivered[j] != e.ticket
    {
      assert order[j] == s.hist.delivered[j] && order[j] < order[|s.hist.delivered| + i];
    }
  }

  // ---------------------------------------------------------------- the history of results

  lemma ScanSettles(s: State, c: nat)
    requires CanScan(s, c)
    ensures var s' := DoScan(s, c);
        multiset(Tickets(s'.drv.done)) + s'.hist.finished == multiset(Tickets(s.drv.done)) + s.hist.finished
  {
    var r := Position(s.drv.done, s.callers[c].packet.hcmd);
    if r.Some? {
      var d, i := s.drv.done, r.value;
      assert d == d[..i] + [d[i]] + d[i + 1..];
      TicketsAppend(d[..i] + [d[i]], d[i + 1..]);
      TicketsAppend(d[..i], [d[i]]);
      TicketsAppend(d[..i], d[i + 1..]);
      assert Tickets([d[i]]) == [d[i].ticket];
    }
  }

  /** Once a command has a result it keeps one until its caller has collected it. */
  lemma SettledKept(s: State, step: Step, t: nat)
    requires InvDaemon(s) && Enabled(s, step) && Settled(s, t)
    ensures Settled(Apply(s, step), t)
  {
    match step
    case Scan(c) =>
      ScanSettles(s, c);
      var s' := DoScan(s, c);
      assert (multiset(Tickets(s'.drv.done)) + s'.hist.finished)[t] >= 1;
    case Publish =>
      TicketsAppend(s.drv.done, [Entry(s.dmn.param, [], s.dmn.cur.value)]);
    case Close =>
      TicketsAppend(s.drv.done, OnlyBlocking(s.drv.waiting));
      assert Tickets(DoClose(s).drv.done) == Tickets(s.drv.done + OnlyBlocking(s.drv.waiting));
    case Answer =>
    case _ =>
      Footprints(s, step);
      MachineFootprints(s, step);
  }

  lemma ListHistory(s: State, c: nat)
    requires InvHistory(s) && CanList(s, c)
    ensures InvHistory(DoList(s, c))
  {
    var s' := DoList(s, c);
    assert forall t :: 0 <= t < |s.hist.log| ==> s'.hist.log[t] == s.hist.log[t];
  }

  lemma SameSettled(s: State, step: Step)
    requires InvSettled(s) && InvDaemon(s) && Enabled(s, step)
    requires var h, h' := s.hist, Apply(s, step).hist;
        && h'.log == h.log && h'.drained == h.drained && h'.posted == h.posted && h'.dropped == h.dropped
    ensures InvSettled(Apply(s, step))
  {
    var s' := Apply(s, step);
    forall t | Settled(s, t)
      ensures Settled(s', t)
    {
      SettledKept(s, step, t);
    }
  }

  /** The buffer of a caller whose command has no result and no reply yet is as it was submitted. */
  lemma UntouchedBuffer(s: State, t: nat)
    requires InvCallers(s) && InvMemory(s)
    requires t < |s.hist.log| && Blocking(Sent(s.hist, t)) && t !in s.hist.finished && t !in s.hist.replied
    ensures var b := Sent(s.hist, t).packet.cmdBlockID;
        b in s.mem && s.mem[b] == s.hist.log[t].whole
  {
    var c := s.hist.log[t].caller;
    assert s.callers[c] == Waits(Sent(s.hist, t).packet, t);
    assert BlockId(s.callers[c]) == Sent(s.hist, t).packet.cmdBlockID;
  }

  lemma LineUntouched(s: State, e: Entry)
    requires InvHistory(s) && InvConserve(s) && InvOrder(s) && e in Line(s)
    ensures e.ticket !in s.hist.finished && e.ticket !in s.hist.replied && e.ticket !in s.hist.delivered
  {
    LineUnsettled(s, e);
    InLineUndelivered(s, e);
  }

  lemma FetchedOf(e: Entry, sub: Submission, mem: map<nat, Bytes>)
    requires e == sub.entry && WellMade(e)
    requires if Blocking(e) then e.packet.cbCmdDataLen <= |sub.whole| && sub.sent == sub.whole[..e.packet.cbCmdDataLen]
             else sub.sent == e.payload
    requires Blocking(e) ==> e.packet.cmdBlockID in mem && mem[e.packet.cmdBlockID] == sub.whole
    ensures FetchInside(e, mem) && FetchedBytes(e, mem) == sub.sent
  {
  }

  /** The bytes a fetch copies for a command still in line are the bytes that were submitted. */
  lemma FetchedAreSent(s: State, e: Entry)
    requires InvHistory(s) && InvLog(s) && InvMemory(s) && InvCallers(s) && InvConserve(s) && InvOrder(s)
    requires e in Line(s) && e.ticket < |s.hist.log| && e == Sent(s.hist, e.ticket)
    ensures FetchInside(e, s.mem) && FetchedBytes(e, s.mem) == s.hist.log[e.ticket].sent
  {
    LineUntouched(s, e);
    if Blocking(e) {
      UntouchedBuffer(s, e.ticket);
    }
    FetchedOf(e, s.hist.log[e.ticket], s.mem);
  }

  lemma HandBytes(h: History, t: nat, h': History)
    requires InvBytes(h) && t < |h.log|
    requires h'.log == h.log && h'.posted == h.posted && h'.replied == h.replied
    requires h'.delivered == h.delivered + [t] && h'.received == h.received[t := h.log[t].sent]
    ensures InvBytes(h')
  {
    forall u
      ensures u in h'.delivered <==> u in h.delivered || u == t
    {
    }
    assert forall u :: u in h'.received <==> u in h.received || u == t;
  }

  lemma SameBytes(h: History, h': History)
    requires InvBytes(h)
    requires h'.log == h.log && h'.replied == h.replied && h'.received == h.received && h'.delivered == h.delivered
    requires h'.posted == h.posted
    ensures InvBytes(h')
  {
  }

  lemma AnswerBytes(s: State)
    requires InvBytes(s.hist) && InvDaemon(s) && CanAnswer(s)
    ensures InvBytes(DoAnswer(s).hist)
  {
  }

  lemma PublishSettled(s: State)
    requires InvSettled(s) && InvDaemon(s) && s.dmn.pc.Post?
    ensures InvSettled(DoPublish(s))
  {
    var s' := DoPublish(s);
    forall t | Settled(s, t)
      ensures Settled(s', t)
    {
      SettledKept(s, Publish, t);
    }
    TicketsAppend(s.drv.done, [Entry(s.dmn.param, [], s.dmn.cur.value)]);
    assert Tickets([Entry(s.dmn.param, [], s.dmn.cur.value)])[0] == s.dmn.cur.value;
  }

  lemma {:induction false} OnlyFreeTickets(list: seq<Entry>, t: nat)
    requires t in Tickets(OnlyFree(list))
    ensures exists e :: e in list && !Blocking(e) && e.ticket == t
  {
    var i :| 0 <= i < |OnlyFree(list)| && Tickets(OnlyFree(list))[i] == t;
    OnlyFreeIn(list, OnlyFree(list)[i]);
  }

  lemma {:induction false} OnlyFreeIn(list: seq<Entry>, e: Entry)
    requires e in OnlyFree(list)
    ensures e in list && !Blocking(e)
  {
    if e !in OnlyFree(list[1..]) {
      assert e == list[0];
    } else {
      OnlyFreeIn(list[1..], e);
    }
  }

  lemma FreedUnblocked(s: State, t: nat)
    requires InvEntries(s) && t in Tickets(OnlyFree(s.drv.waiting))
    ensures t < |s.hist.log| && !Blocking(Sent(s.hist, t))
  {
    OnlyFreeTickets(s.drv.waiting, t);
    var e :| e in s.drv.waiting && !Blocking(e) && e.ticket == t;
    assert e in Line(s);
  }

  lemma ClosedSettled(s: State, t: nat)
    requires InvEntries(s) && InvHistory(s) && InvConserve(s) && t in Tickets(Closed(s.drv).done)
    ensures t < |s.hist.log| && Settled(DoClose(s), t)
  {
    var done := Closed(s.drv).done;
    var i :| 0 <= i < |done| && Tickets(done)[i] == t;
    ClosedDone(s, done[i]);
    assert t in multiset(Tickets(done));
  }

  lemma CloseSettled(s: State)
    requires InvHistory(s) && InvEntries(s) && InvConserve(s) && InvDaemon(s)
    ensures InvSettled(DoClose(s))
  {
    var s' := DoClose(s);
    forall t | t in s'.hist.drained || t in s'.hist.posted
      ensures t < |s.hist.log| && Settled(s', t)
    {
      if t in s.hist.drained || t in s.hist.posted {
        SettledKept(s, Close, t);
      } else {
        ClosedSettled(s, t);
      }
    }
    forall t | t in s'.hist.dropped
      ensures t < |s.hist.log| && !Blocking(Sent(s.hist, t))
    {
      if t !in s.hist.dropped {
        FreedUnblocked(s, t);
      }
    }
  }

  lemma SettledsKept(s: State, step: Step)
    requires InvHistory(s) && InvEntries(s) && InvConserve(s) && InvDaemon(s) && Enabled(s, step)
    ensures InvSettled(Apply(s, step))
  {
    if step.List? {
      ListHistory(s, step.c);
    } else if step.Publish? {
      PublishSettled(s);
    } else if step.Close? {
      CloseSettled(s);
    } else {
      Footprints(s, step);
      SameSettled(s, step);
    }
  }

  lemma PublishBytes(s: State)
    requires InvBytes(s.hist) && InvDaemon(s) && s.dmn.pc.Post?
    ensures InvBytes(DoPublish(s).hist)
  {
  }

  lemma HandKeepsBytes(s: State)
    requires InvBytes(s.hist) && CanHand(s) && s.dmn.pc.entry.ticket < |s.hist.log|
    requires FetchInside(s.dmn.pc.entry, s.mem)
             && FetchedBytes(s.dmn.pc.entry, s.mem) == s.hist.log[s.dmn.pc.entry.ticket].sent
    ensures InvBytes(DoHand(s).hist)
  {
    var e := s.dmn.pc.entry;
    var h' := DoHand(s).hist;
    if e.packet.cbCmdDataLen <= s.dmn.param.cbMaxDataLen {
      HandBytes(s.hist, e.ticket, h');
    } else {
      SameBytes(s.hist, h');
    }
  }

  lemma BytesKept(s: State, step: Step)
    requires InvBytes(s.hist) && InvDaemon(s) && Enabled(s, step) && !step.Hand?
    ensures InvBytes(Apply(s, step).hist)
  {
    if step.List? {
      var h, h' := s.hist, DoList(s, step.c).hist;
      assert forall t :: 0 <= t < |h.log| ==> h'.log[t] == h.log[t];
    } else if step.Answer? {
      AnswerBytes(s);
    } else if step.Publish? {
      PublishBytes(s);
    } else {
      Footprints(s, step);
      SameBytes(s.hist, Apply(s, step).hist);
    }
  }

  // ---------------------------------------------------------------- callers

  lemma PrepareCallers(s: State, c: nat, cmd: nat, w: bool, p: nat, cb: nat, pParm: Packet)
    requires InvCallers(s) && CanPrepare(s, c, cmd, w, p, cb)
    ensures InvCallers(DoPrepare(s, c, cmd, w, p, cb, pParm))
  {
    var s' := DoPrepare(s, c, cmd, w, p, cb, pParm);
    assert BlockId(s'.callers[c]) != 0 ==> !InUse(s, BlockId(s'.callers[c]));
  }

  lemma ListCallers(s: State, c: nat)
    requires InvCallers(s) && CanList(s, c)
    requires forall t :: t in s.hist.finished ==> t < |s.hist.log|
    ensures InvCallers(DoList(s, c))
  {
    var s' := DoList(s, c);
    var n := |s.hist.log|;
    assert forall t :: 0 <= t < n ==> s'.hist.log[t] == s.hist.log[t];
    assert Blocking(Sent(s'.hist, n)) ==> s'.callers == s.callers[c := Waits(Sent(s'.hist, n).packet, n)];
    assert !Blocking(Sent(s'.hist, n)) ==> s'.callers == s.callers - {c};
    assert s'.hist.log[n].caller == c;
    forall b | b in s'.callers
      ensures b in s.callers && BlockId(s'.callers[b]) == BlockId(s.callers[b])
    {
    }
    forall t | 0 <= t <= n && Blocking(Sent(s'.hist, t)) && t !in s.hist.finished
      ensures s'.hist.log[t].caller in s'.callers
      ensures s'.callers[s'.hist.log[t].caller] == Waits(Sent(s'.hist, t).packet, t)
    {
      if t < n {
        assert s.callers[s.hist.log[t].caller].Waits?;
      }
    }
  }

  /** Two live commands never share a handle as long as none is overtaken by 2^32 - 1 submissions. */
  lemma LiveHandlesDiffer(s: State, c: nat, u: nat)
    requires InvLog(s) && InvCallers(s) && Fresh(s)
    requires c in s.callers && s.callers[c].Waits?
    requires u < |s.hist.log| && Blocking(Sent(s.hist, u)) && u !in s.hist.finished
    requires Sent(s.hist, u).packet.hcmd == s.callers[c].packet.hcmd
    ensures u == s.callers[c].ticket
  {
    var t := s.callers[c].ticket;
    var b := s.hist.log[u].caller;
    assert s.callers[b].ticket == u;
    if t < u {
      HandlesDistinct(t, u);
    } else if u < t {
      HandlesDistinct(u, t);
    }
  }

  /** The entry a caller's scan finds is the one for its own command. */
  lemma ScanFindsOwn(s: State, c: nat)
    requires InvLog(s) && InvEntries(s) && InvCallers(s) && InvHistory(s) && InvConserve(s) && Fresh(s) && CanScan(s, c)
    ensures var r := Position(s.drv.done, s.callers[c].packet.hcmd);
        r.Some? ==> s.drv.done[r.value].ticket == s.callers[c].ticket
  {
    var r := Position(s.drv.done, s.callers[c].packet.hcmd);
    if r.Some? {
      var e := s.drv.done[r.value];
      assert e in s.drv.done;
      DueHandle(s, e.ticket);
      OnePlace(s, e.ticket);
      TicketIn(s.drv.done, e);
      LiveHandlesDiffer(s, c, e.ticket);
    }
  }

  lemma DueHandle(s: State, t: nat)
    requires InvSettled(s) && t < |s.hist.log|
    ensures Due(s.hist, t).hcmd == Sent(s.hist, t).packet.hcmd
  {
  }

  lemma ScanCallers(s: State, c: nat)
    requires InvCallers(s) && CanScan(s, c)
    requires var r := Position(s.drv.done, s.callers[c].packet.hcmd);
        r.Some? ==> s.drv.done[r.value].ticket == s.callers[c].ticket
    ensures InvCallers(DoScan(s, c))
  {
    var s' := DoScan(s, c);
    assert s'.hist.log == s.hist.log;
  }

  lemma AnswerCallers(s: State)
    requires InvCallers(s) && InvDaemon(s) && CanAnswer(s)
    ensures InvCallers(DoAnswer(s))
  {
    var s' := DoAnswer(s);
    forall t | t in s'.hist.finished && t !in s.hist.finished
      ensures t < |s.hist.log| && !Blocking(Sent(s.hist, t))
    {
    }
  }

  lemma SameCallers(s: State, s': State)
    requires InvCallers(s) && s'.callers == s.callers && s'.hist.log == s.hist.log && s'.hist.finished == s.hist.finished
    ensures InvCallers(s')
  {
  }

  lemma FinishedListed(s: State)
    requires InvConserve(s)
    ensures forall t :: t in s.hist.finished ==> t < |s.hist.log|
  {
    forall t | t in s.hist.finished
      ensures t < |s.hist.log|
    {
      OnePlace(s, t);
    }
  }

  lemma CallersKept(s: State, step: Step)
    requires InvCallers(s) && InvDaemon(s) && InvConserve(s) && Enabled(s, step)
    requires step.Scan? ==>
        var r := Position(s.drv.done, s.callers[step.c].packet.hcmd);
        r.Some? ==> s.drv.done[r.value].ticket == s.callers[step.c].ticket
    ensures InvCallers(Apply(s, step))
  {
    match step
    case Prepare(c, cmd, w, p, cb, pParm) => PrepareCallers(s, c, cmd, w, p, cb, pParm);
    case List(c) =>
      FinishedListed(s);
      ListCallers(s, c);
    case Scan(c) => ScanCallers(s, c);
    case Answer => AnswerCallers(s);
    case _ =>
      Footprints(s, step);
      MachineFootprints(s, step);
      SameCallers(s, Apply(s, step));
  }

  // ---------------------------------------------------------------- what callers got back

  lemma SameReturned(h: History, h': History)
    requires forall t :: t in h.returned <==> t in h.finished && t < |h.log| && Blocking(Sent(h, t))
    requires forall t :: t in h.returned ==> h.returned[t] == Result(Due(h, t), DueBuffer(h, t))
    requires forall t :: 0 <= t < |h.log| ==> t < |h'.log| && h'.log[t] == h.log[t]
    requires forall t :: 0 <= t < |h'.log| && Blocking(Sent(h', t)) ==> (t in h'.finished <==> t in h.finished)
    requires forall t :: t in h.finished ==> t < |h.log|
    requires h'.returned == h.returned
    requires forall t :: t in h.returned ==>
        && (t in h.posted <==> t in h'.posted) && (t in h.posted ==> h'.posted[t] == h.posted[t])
        && (t in h.replied <==> t in h'.replied) && (t in h.replied ==> h'.replied[t] == h.replied[t])
        && (t in h.drained <==> t in h'.drained)
    ensures forall t :: t in h'.returned <==> t in h'.finished && t < |h'.log| && Blocking(Sent(h', t))
    ensures forall t :: t in h'.returned ==> h'.returned[t] == Result(Due(h', t), DueBuffer(h', t))
  {
    forall t | t in h'.returned
      ensures h'.returned[t] == Result(Due(h', t), DueBuffer(h', t))
    {
      assert Due(h', t) == Due(h, t) && DueBuffer(h', t) == DueBuffer(h, t);
    }
  }

  lemma ScanReturned(s: State, c: nat)
    requires InvReturned(s) && CanScan(s, c)
    requires InvCallers(s) && InvMemory(s)
    requires var r := Position(s.drv.done, s.callers[c].packet.hcmd);
        r.Some? ==> s.drv.done[r.value].ticket == s.callers[c].ticket && s.callers[c].ticket < |s.hist.log|
                    && s.drv.done[r.value].packet == Due(s.hist, s.callers[c].ticket)
    ensures InvReturned(DoScan(s, c))
  {
    var r := Position(s.drv.done, s.callers[c].packet.hcmd);
    if r.Some? {
      var t := s.callers[c].ticket;
      var h, h' := s.hist, DoScan(s, c).hist;
      assert forall u :: 0 <= u < |h.log| ==> Due(h', u) == Due(h, u) && DueBuffer(h', u) == DueBuffer(h, u);
      assert BlockId(s.callers[c]) == s.callers[c].packet.cmdBlockID != 0;
      assert h'.returned == h.returned[t := Result(Due(h, t), DueBuffer(h, t))];
      assert forall u :: u in h'.finished <==> u in h.finished || u == t;
    }
  }

  /** A collected command is neither with the daemon nor on the done list. */
  lemma ReturnedElsewhere(s: State, t: nat)
    requires InvConserve(s) && t in s.hist.finished
    ensures t < |s.hist.log| && s.dmn.cur != Some(t) && t !in Tickets(Closed(s.drv).done)
  {
    OnePlace(s, t);
    var done := Closed(s.drv).done;
    var held := if s.dmn.pc.Holds? then [s.dmn.pc.entry] else [];
    SplitConserves(s.drv.waiting);
    TicketsAppend(held, s.drv.waiting);
    TicketsAppend(s.drv.done, OnlyBlocking(s.drv.waiting));
    assert Tickets(done) == Tickets(s.drv.done + OnlyBlocking(s.drv.waiting));
    assert multiset(Tickets(OnlyBlocking(s.drv.waiting)))[t] <= multiset(Tickets(s.drv.waiting))[t];
    assert multiset(Tickets(done))[t] == 0;
  }

  lemma ReturnedKept(s: State, step: Step)
    requires InvReturned(s) && InvConserve(s) && InvDaemon(s) && Enabled(s, step) && !step.Scan?
    ensures InvReturned(Apply(s, step))
  {
    var h, h' := s.hist, Apply(s, step).hist;
    Footprints(s, step);
    assert forall t :: 0 <= t < |h.log| ==> t < |h'.log| && h'.log[t] == h.log[t];
    forall t | t in h.finished
      ensures t < |h.log| && s.dmn.cur != Some(t) && t !in Tickets(Closed(s.drv).done)
    {
      ReturnedElsewhere(s, t);
    }
    SameReturned(h, h');
  }

  // ---------------------------------------------------------------- the daemon

  lemma ListDaemon(s: State, c: nat)
    requires InvDaemon(s) && InvBytes(s.hist) && CanList(s, c)
    ensures InvDaemon(DoList(s, c))
  {
    var s' := DoList(s, c);
    assert forall t :: 0 <= t < |s.hist.log| ==> s'.hist.log[t] == s.hist.log[t];
  }

  lemma HandDaemon(s: State)
    requires InvDaemon(s) && CanHand(s)
    requires forall e :: e in Line(s) ==> e.ticket < |s.hist.log| && e == Sent(s.hist, e.ticket)
    requires forall t :: 0 <= t < |s.hist.log| ==> WellMade(Sent(s.hist, t))
    ensures InvDaemon(DoHand(s))
  {
    assert s.dmn.pc.entry in Line(s);
  }

  lemma WaitDaemon(s: State, w: WaitStep)
    requires InvDaemon(s) && CanWait(s, w)
    ensures InvDaemon(DoWait(s, w))
  {
  }

  lemma RunDaemon(s: State, rc: nat, bytes: Bytes)
    requires InvDaemon(s) && InvBytes(s.hist) && s.dmn.pc.Execute? && |bytes| == |s.dmn.buffer|
    requires forall t :: 0 <= t < |s.hist.log| ==> WellMade(Sent(s.hist, t))
    ensures InvDaemon(DoRun(s, rc, bytes))
  {
  }

  lemma DaemonKept(s: State, step: Step)
    requires InvDaemon(s) && InvBytes(s.hist) && Enabled(s, step)
    requires forall e :: e in Line(s) ==> e.ticket < |s.hist.log| && e == Sent(s.hist, e.ticket)
    requires forall t :: 0 <= t < |s.hist.log| ==> WellMade(Sent(s.hist, t))
    ensures InvDaemon(Apply(s, step))
  {
    match step
    case List(c) => ListDaemon(s, c);
    case Hand => HandDaemon(s);
    case Run(rc, bytes) => RunDaemon(s, rc, bytes);
    case Wait(w) => WaitDaemon(s, w);
    case _ =>
  }

  // ---------------------------------------------------------------- callers' buffers

  lemma OverlayTwice(whole: Bytes, b: Bytes, b': Bytes)
    requires |b| == |b'| <= |whole|
    ensures Overlay(Overlay(whole, b), b') == Overlay(whole, b')
  {
  }

  /** The owner of the command being answered is blocked on it. */
  lemma AnswerOwner(s: State)
    requires InvMemory(s) && InvCallers(s) && InvDaemon(s) && CanAnswer(s) && s.dmn.param.cmdBlockID != 0
    requires s.dmn.cur.Some? ==> s.dmn.cur.value !in s.hist.finished
    ensures var t := s.dmn.cur.value; var c := s.hist.log[t].caller;
        && c in s.callers && s.callers[c] == Waits(Sent(s.hist, t).packet, t) && BlockId(s.callers[c]) == s.dmn.param.cmdBlockID
        && s.mem[s.dmn.param.cmdBlockID] == DueBuffer(s.hist, t)
    ensures forall c :: c in s.callers && c != s.hist.log[s.dmn.cur.value].caller ==>
        BlockId(s.callers[c]) != s.dmn.param.cmdBlockID && (s.callers[c].Waits? ==> s.callers[c].ticket != s.dmn.cur.value)
  {
  }

  /** The reply turns the buffer the caller was due into the one it is due from now on. */
  lemma AnswerDue(h: History, t: nat, bytes: Bytes)
    requires t < |h.log| && |bytes| == Sent(h, t).packet.cbCmdDataLen <= |h.log[t].whole|
    requires t in h.replied ==> |h.replied[t]| == |bytes|
    ensures DueBuffer(h.(replied := h.replied[t := bytes]), t) == Overlay(DueBuffer(h, t), bytes)
  {
    if t in h.replied {
      OverlayTwice(h.log[t].whole, h.replied[t], bytes);
    }
  }

  lemma AnswerDueHere(s: State)
    requires InvMemory(s) && InvCallers(s) && InvDaemon(s) && InvBytes(s.hist) && CanAnswer(s) && s.dmn.param.cmdBlockID != 0
    requires s.dmn.cur.Some? ==> s.dmn.cur.value !in s.hist.finished
    ensures var s', t := DoAnswer(s), s.dmn.cur.value; t < |s'.hist.log| && s'.mem[s.dmn.param.cmdBlockID] == DueBuffer(s'.hist, t)
  {
    AnswerOwner(s);
    assert |s.mem[s.dmn.param.cmdBlockID]| == |s.hist.log[s.dmn.cur.value].whole|;
    AnswerDue(s.hist, s.dmn.cur.value, s.dmn.buffer[..s.dmn.param.cbCmdDataLen]);
  }

  /** A reply for `t` that changes only what the blocked caller of `t` is due. */
  lemma OwnerMemory(s: State, t: nat, owner: nat)
    requires InvMemory(s) && CanAnswer(s) && s.dmn.param.cmdBlockID != 0 && s.dmn.cur == Some(t) && t < |s.hist.log|
    requires owner in s.callers && s.callers[owner].Waits? && s.callers[owner].ticket == t
    requires BlockId(s.callers[owner]) == s.dmn.param.cmdBlockID
    requires forall c :: c in s.callers && c != owner ==>
        BlockId(s.callers[c]) != s.dmn.param.cmdBlockID && (s.callers[c].Waits? ==> s.callers[c].ticket != t)
    requires DoAnswer(s).mem[s.dmn.param.cmdBlockID] == DueBuffer(DoAnswer(s).hist, t)
    ensures InvMemory(DoAnswer(s))
  {
    var s' := DoAnswer(s);
    forall c | c in s.callers && c != owner && s.callers[c].Waits? && s.callers[c].ticket < |s.hist.log|
      ensures DueBuffer(s'.hist, s.callers[c].ticket) == DueBuffer(s.hist, s.callers[c].ticket)
    {
    }
  }

  lemma AnswerMemory(s: State)
    requires InvMemory(s) && InvCallers(s) && InvDaemon(s) && InvBytes(s.hist) && CanAnswer(s)
    requires s.dmn.cur.Some? ==> s.dmn.cur.value !in s.hist.finished
    ensures InvMemory(DoAnswer(s))
  {
    if s.dmn.param.cmdBlockID != 0 {
      AnswerOwner(s);
      AnswerDueHere(s);
      OwnerMemory(s, s.dmn.cur.value, s.hist.log[s.dmn.cur.value].caller);
    }
  }

  lemma SameMemory(s: State, s': State)
    requires InvMemory(s) && s'.mem == s.mem && s'.hist.log == s.hist.log && s'.hist.replied == s.hist.replied
    requires forall c :: c in s'.callers ==> c in s.callers && s'.callers[c] == s.callers[c]
    ensures InvMemory(s')
  {
    forall c | c in s'.callers && s'.callers[c].Waits? && s'.callers[c].ticket < |s'.hist.log|
      ensures DueBuffer(s'.hist, s'.callers[c].ticket) == DueBuffer(s.hist, s.callers[c].ticket)
    {
    }
  }

  lemma PrepareMemory(s: State, c: nat, cmd: nat, w: bool, p: nat, cb: nat, pParm: Packet)
    requires InvMemory(s) && CanPrepare(s, c, cmd, w, p, cb)
    ensures InvMemory(DoPrepare(s, c, cmd, w, p, cb, pParm))
  {
  }

  lemma ListedMemory(s: State, c: nat)
    requires InvMemory(s) && CanList(s, c) && |s.hist.log| !in s.hist.replied
    requires forall b :: b in s.callers && s.callers[b].Waits? ==> s.callers[b].ticket < |s.hist.log|
    ensures InvMemory(DoList(s, c))
  {
    var s' := DoList(s, c);
    var n := |s.hist.log|;
    assert forall t :: 0 <= t < n ==> s'.hist.log[t] == s.hist.log[t];
    forall b | b in s'.callers && s'.callers[b].Waits?
      ensures s'.callers[b].ticket <= n
      ensures s'.callers[b].ticket < n ==> b in s.callers && s'.callers[b] == s.callers[b]
      ensures s'.callers[b].ticket < n ==> DueBuffer(s'.hist, s'.callers[b].ticket) == DueBuffer(s.hist, s'.callers[b].ticket)
    {
    }
    assert DueBuffer(s'.hist, n) == s'.hist.log[n].whole;
  }

  lemma ScribbleMemory(s: State, addr: nat, bytes: Bytes)
    requires InvMemory(s) && addr != 0 && !InUse(s, addr)
    ensures InvMemory(s.(mem := s.mem[addr := bytes]))
  {
    forall c | c in s.callers
      ensures BlockId(s.callers[c]) != addr
    {
    }
  }

  lemma ScanMemory(s: State, c: nat)
    requires InvMemory(s) && CanScan(s, c)
    ensures InvMemory(DoScan(s, c))
  {
    SameMemory(s, DoScan(s, c));
  }

  lemma OtherMemory(s: State, step: Step)
    requires InvMemory(s) && Enabled(s, step)
    requires !step.Prepare? && !step.List? && !step.Scribble? && !step.Answer? && !step.Scan?
    ensures InvMemory(Apply(s, step))
  {
    Footprints(s, step);
    MachineFootprints(s, step);
    SameMemory(s, Apply(s, step));
  }

  lemma ListMemory(s: State, c: nat)
    requires InvMemory(s) && InvCallers(s) && InvBytes(s.hist) && CanList(s, c)
    ensures InvMemory(DoList(s, c))
  {
    ListedMemory(s, c);
  }

  lemma CallerMemory(s: State, step: Step)
    requires InvMemory(s) && Enabled(s, step)
    requires step.Prepare? || step.Scribble? || step.Scan?
    ensures InvMemory(Apply(s, step))
  {
    if step.Prepare? {
      PrepareMemory(s, step.c, step.cmd, step.waitflag, step.pData, step.cb, step.pParm);
    } else if step.Scribble? {
      ScribbleMemory(s, step.addr, step.bytes);
    } else {
      ScanMemory(s, step.c);
    }
  }

  lemma MemoryKept(s: State, step: Step)
    requires InvMemory(s) && InvCallers(s) && InvDaemon(s) && InvBytes(s.hist) && Enabled(s, step)
    requires s.dmn.cur.Some? ==> s.dmn.cur.value !in s.hist.finished
    ensures InvMemory(Apply(s, step))
  {
    if step.List? {
      ListMemory(s, step.c);
    } else if step.Answer? {
      AnswerMemory(s);
    } else if step.Prepare? || step.Scribble? || step.Scan? {
      CallerMemory(s, step);
    } else {
      OtherMemory(s, step);
    }
  }

  // ---------------------------------------------------------------- growing the daemon's buffer

  /** One more step of 4096 bytes is exactly what separates a need that fits from one that does not. */
  lemma RoundsExact(base: nat, rounds: nat, need: nat)
    requires need <= base + INCR_DATA_LEN * rounds
    requires rounds > 0 ==> need > base + INCR_DATA_LEN * (rounds - 1)
    ensures rounds == Rounds(base, need)
  {
  }

  lemma RoomGrows(o: Offer, need: nat)
    requires o.base % INCR_DATA_LEN == 0 && Room(o) < need <= LARGEST
    ensures Room(o.(rounds := o.rounds + 1)) == Room(o) + INCR_DATA_LEN <= LARGEST
  {
    assert Room(o) % INCR_DATA_LEN == 0;
  }

  lemma HandBackGrowth(s: State)
    requires InvGrowth(s) && CanHand(s) && Line(s)[0] == s.dmn.pc.entry && s.dmn.cur.None?
    requires s.dmn.param.cbMaxDataLen < s.dmn.pc.entry.packet.cbCmdDataLen
    requires s.dmn.pc.entry.ticket < |s.hist.log| && s.dmn.pc.entry == s.hist.log[s.dmn.pc.entry.ticket].entry
    ensures InvGrowth(DoHand(s))
  {
    var s' := DoHand(s);
    assert Line(s') == Line(s);
    if Growable(s') {
      RoomGrows(s.hist.offer, s.dmn.pc.entry.packet.cbCmdDataLen);
    }
  }

  lemma HandOverGrowth(s: State)
    requires InvGrowth(s) && CanHand(s) && Line(s)[0] == s.dmn.pc.entry
    requires s.dmn.pc.entry.packet.cbCmdDataLen <= s.dmn.param.cbMaxDataLen
    requires s.dmn.pc.entry.ticket < |s.hist.log| && s.dmn.pc.entry == s.hist.log[s.dmn.pc.entry.ticket].entry
    ensures InvGrowth(DoHand(s))
  {
    if Growable(s) {
      RoundsExact(s.hist.offer.base, s.hist.offer.rounds, s.dmn.pc.entry.packet.cbCmdDataLen);
    }
  }

  lemma HandGrowth(s: State)
    requires InvGrowth(s) && CanHand(s) && s.dmn.cur.None?
    requires s.dmn.pc.entry.ticket < |s.hist.log| && s.dmn.pc.entry == s.hist.log[s.dmn.pc.entry.ticket].entry
    ensures InvGrowth(DoHand(s))
  {
    assert Line(s)[0] == s.dmn.pc.entry;
    if s.dmn.param.cbMaxDataLen < s.dmn.pc.entry.packet.cbCmdDataLen {
      HandBackGrowth(s);
    } else {
      HandOverGrowth(s);
    }
  }

  lemma ListGrowth(s: State, c: nat)
    requires InvGrowth(s) && CanList(s, c)
    ensures InvGrowth(DoList(s, c))
  {
    var s' := DoList(s, c);
    assert forall t :: 0 <= t < |s.hist.log| ==> s'.hist.log[t] == s.hist.log[t];
    if Growable(s') {
      assert forall t :: 0 <= t < |s.hist.log| ==> Sent(s.hist, t) == Sent(s'.hist, t);
      assert Line(s') == Line(s) + [s'.drv.waiting[|s'.drv.waiting| - 1]];
    }
  }

  lemma RunGrowth(s: State, rc: nat, bytes: Bytes)
    requires InvGrowth(s) && InvDaemon(s) && s.dmn.pc.Execute?
    requires s.dmn.cur.Some? ==> s.dmn.param.cmd != CMD_INC_DATAPACKETLEN
    ensures InvGrowth(DoRun(s, rc, bytes))
  {
    var s' := DoRun(s, rc, bytes);
    assert Line(s') == Line(s) && s'.hist == s.hist;
  }

  lemma QuietGrowth(s: State, s': State)
    requires InvGrowth(s) && Line(s') == Line(s)
    requires s'.hist.log == s.hist.log && s'.hist.offers == s.hist.offers
    requires s'.dmn.pc.Gone? || (!s.dmn.pc.Gone? && s'.hist.offer == s.hist.offer
        && s'.dmn.param.cbMaxDataLen == s.dmn.param.cbMaxDataLen
        && (s'.dmn.pc.Execute? && s'.dmn.cur.None? <==> s.dmn.pc.Execute? && s.dmn.cur.None?))
    ensures InvGrowth(s')
  {
  }

  lemma PopGrowth(s: State)
    requires InvGrowth(s) && s.dmn.pc.Fetching?
    ensures InvGrowth(DoPop(s))
  {
    assert Line(DoPop(s)) == Line(s);
    QuietGrowth(s, DoPop(s));
  }

  /** A close leaves at most the command the daemon has popped; a line without it starts over at the present room. */
  lemma CloseGrowth(s: State)
    requires InvGrowth(s)
    ensures InvGrowth(DoClose(s))
  {
    var s' := DoClose(s);
    assert Room(s'.hist.offer) == Room(s.hist.offer);
    if s.dmn.pc.Holds? {
      assert Line(s)[0] == s.dmn.pc.entry == Line(s')[0];
    } else if Growable(s) && !s.dmn.pc.Gone? {
      assert Room(s.hist.offer) % INCR_DATA_LEN == 0;
    }
  }

  lemma OtherGrowth(s: State, step: Step)
    requires InvGrowth(s) && Enabled(s, step)
    requires !step.Hand? && !step.List? && !step.Run? && !step.Pop? && !step.Close? && !step.Start?
    ensures InvGrowth(Apply(s, step))
  {
    Footprints(s, step);
    MachineFootprints(s, step);
    var s' := Apply(s, step);
    assert Line(s') == Line(s);
    QuietGrowth(s, s');
  }

  lemma GrowthKept(s: State, step: Step)
    requires InvGrowth(s) && InvDaemon(s) && Enabled(s, step)
    requires s.dmn.pc.Holds? ==> s.dmn.pc.entry.ticket < |s.hist.log| && s.dmn.pc.entry == Sent(s.hist, s.dmn.pc.entry.ticket)
    requires s.dmn.cur.Some? ==> s.dmn.param.cmd != CMD_INC_DATAPACKETLEN
    ensures InvGrowth(Apply(s, step))
  {
    if step.Hand? {
      HandGrowth(s);
    } else if step.List? {
      ListGrowth(s, step.c);
    } else if step.Run? {
      RunGrowth(s, step.rc, step.bytes);
    } else if step.Pop? {
      PopGrowth(s);
    } else if step.Close? {
      CloseGrowth(s);
    } else if !step.Start? {
      OtherGrowth(s, step);
    }
  }

  // ---------------------------------------------------------------- all together

  lemma StepFacts(s: State)
    requires InvLog(s) && InvEntries(s) && InvConserve(s) && InvDaemon(s)
    ensures forall e :: e in Line(s) ==> e.ticket < |s.hist.log| && e == Sent(s.hist, e.ticket)
    ensures forall t :: 0 <= t < |s.hist.log| ==> WellMade(Sent(s.hist, t))
    ensures s.dmn.pc.Holds? ==> s.dmn.pc.entry in Line(s)
    ensures s.dmn.cur.Some? ==> s.dmn.param.cmd != CMD_INC_DATAPACKETLEN && s.dmn.cur.value !in s.hist.finished
  {
    if s.dmn.cur.Some? {
      OnePlace(s, s.dmn.cur.value);
    }
  }

  lemma ScanFacts(s: State, c: nat)
    requires InvLog(s) && InvEntries(s) && InvCallers(s) && InvHistory(s) && InvConserve(s) && Fresh(s) && CanScan(s, c)
    ensures var r := Position(s.drv.done, s.callers[c].packet.hcmd);
        r.Some? ==> s.drv.done[r.value].ticket == s.callers[c].ticket && s.callers[c].ticket < |s.hist.log|
                    && s.drv.done[r.value].packet == Due(s.hist, s.callers[c].ticket)
  {
    ScanFindsOwn(s, c);
    var r := Position(s.drv.done, s.callers[c].packet.hcmd);
    if r.Some? {
      assert s.drv.done[r.value] in s.drv.done;
    }
  }

  lemma ListsKept(s: State, step: Step)
    requires Inv(s) && Enabled(s, step)
    ensures var s' := Apply(s, step);
        InvLog(s') && InvEntries(s') && InvConserve(s')
  {
    LogKept(s, step);
    EntriesKept(s, step);
    ConserveKept(s, step);
  }

  lemma OrdersKept(s: State, step: Step)
    requires Inv(s) && Enabled(s, step)
    ensures var s' := Apply(s, step);
        InvOrder(s') && InvFifo(s') && InvSettled(s')
  {
    OrderKept(s, step);
    FifoKept(s, step);
    SettledsKept(s, step);
  }

  lemma HistoryBytesKept(s: State, step: Step)
    requires Inv(s) && Enabled(s, step)
    ensures InvBytes(Apply(s, step).hist)
  {
    if step.Hand? {
      StepFacts(s);
      FetchedAreSent(s, s.dmn.pc.entry);
      HandKeepsBytes(s);
    } else {
      BytesKept(s, step);
    }
  }

  lemma ResultsKept(s: State, step: Step)
    requires Inv(s) && Enabled(s, step) && Fresh(s)
    ensures var s' := Apply(s, step); InvReturned(s') && InvCallers(s')
  {
    if step.Scan? {
      ScanFacts(s, step.c);
      ScanReturned(s, step.c);
    } else {
      ReturnedKept(s, step);
    }
    CallersKept(s, step);
  }

  lemma MachineKept(s: State, step: Step)
    requires Inv(s) && Enabled(s, step)
    ensures var s' := Apply(s, step); InvDaemon(s') && InvMemory(s') && InvGrowth(s')
  {
    StepFacts(s);
    DaemonKept(s, step);
    MemoryKept(s, step);
    GrowthKept(s, step);
  }

  /** Every step of every interleaving keeps the invariant. */
  lemma StepKeeps(s: State, step: Step)
    requires Inv(s) && Enabled(s, step) && Fresh(s)
    ensures Inv(Apply(s, step))
  {
    ListsKept(s, step);
    OrdersKept(s, step);
    HistoryBytesKept(s, step);
    ResultsKept(s, step);
    MachineKept(s, step);
  }
}
