/**
 The command protocol as a step system. Callers (LX_dmn_add_command, LX_dmn_get_result) and one daemon
 thread (commandLoop with the ioctls it issues) each have a program counter; a step is one spin-locked
 block or one stretch of thread-local work between two of them, and a run is any interleaving of steps.
 */
module DaemonSystem {
  import opened Machine
  import opened CommandQueue

  /** Where a caller stands: entry built but not yet listed, or waiting for the result of `ticket`. */
  datatype Caller =
    | Ready(entry: Entry)
    | Waits(packet: Packet, ticket: nat)

  datatype Pc =
    | Gone
    | Top                     // about to issue the fetch ioctl
    | Checking                // about to look, without the lock, whether the list is empty
    | Drowsy                  // saw it empty; in LX_WaitOn, not asleep
    | Asleep                  // in LX_WaitOn, until LX_RunOn
    | Fetching                // about to take the lock for the head of the list
    | Holds(entry: Entry)     // has taken it off
    | Execute
    | Reply(last: bool)       // about to issue the results ioctl; `last` is the one after the loop
    | Post(last: bool)        // the reply is copied, the result not yet listed
    | Test(last: bool)        // about to test for the end of the loop

  /** `cur` is the ticket of the command the daemon has fetched and not yet answered. */
  datatype Daemon = Daemon(pc: Pc, param: Packet, dataLen: nat, buffer: Bytes, cur: Option<nat>)

  /** What was submitted: the entry as listed, the command bytes, the caller's whole buffer, and by whom. */
  datatype Submission = Submission(entry: Entry, sent: Bytes, whole: Bytes, caller: nat)

  /** What a caller got back: the packet and its buffer at that moment. */
  datatype Result = Result(packet: Packet, buffer: Bytes)

  /** How a command was offered room: the length on offer when it came first in line, and the grow replies since. */
  datatype Offer = Offer(base: nat, rounds: nat)

  /** The room on offer after the grow replies of `o`. */
  function Room(o: Offer): nat {
    o.base + INCR_DATA_LEN * o.rounds
  }

  /**
   History variables; no guard of a step reads them. `tested` is the number of submissions when the daemon last
   saw the list empty, `missed` the tickets since then whose LX_RunOn found it not yet asleep.
   */
  datatype History = History(
    log: seq<Submission>,
    delivered: seq<nat>,
    finished: multiset<nat>,
    lost: multiset<nat>,
    dropped: multiset<nat>,
    drained: set<nat>,
    received: map<nat, Bytes>,
    replied: map<nat, Bytes>,
    posted: map<nat, Packet>,
    returned: map<nat, Result>,
    offers: map<nat, Offer>,
    offer: Offer,
    closes: nat,
    tested: nat,
    missed: set<nat>)

  /** `rousing` holds the threads that have listed a command and not yet called LX_RunOn for it. */
  datatype State = State(drv: Driver, mem: map<nat, Bytes>, callers: map<nat, Caller>, rousing: map<nat, nat>,
                         dmn: Daemon, hist: History)

  const DAEMON_PID: nat := 1
  const INITIAL_DATA_LEN: nat := 4096
  const INCR_DATA_LEN: nat := 4096

  function Init(mem: map<nat, Bytes>): State {
    var idle := Packet(0, 0, 0, 0, 0, 0);
    State(Driver([], [], 0, 0, 0), mem, map[], map[], Daemon(Gone, idle, 0, [], None),
          History([], [], multiset{}, multiset{}, multiset{}, {}, map[], map[], map[], map[], map[], Offer(0, 0), 0,
                  0, {}))
  }

  /** How the daemon gets to sleep on the empty list, and what ends that. */
  datatype WaitStep =
    | Check
    | Doze
    | Rouse(c: nat)          // LX_RunOn after listing
    | Resettle               // LX_ReschedWaitOn sends a sleeper round the loop of LX_WaitOn
    | Stir                   // a signal ends the sleep

  datatype Step =
    | Prepare(c: nat, cmd: nat, waitflag: bool, pData: nat, cb: nat, pParm: Packet)
    | List(c: nat)
    | Scan(c: nat)
    | Scribble(addr: nat, bytes: Bytes)
    | Start(bytes: Bytes)
    | Enter
    | Wait(w: WaitStep)
    | Pop
    | Hand
    | Run(rc: nat, bytes: Bytes)
    | Answer
    | Publish
    | Loop
    | Die
    | Close

  // ---------------------------------------------------------------- callers

  function BlockId(c: Caller): nat {
    match c
    case Ready(e) => e.packet.cmdBlockID
    case Waits(p, _) => p.cmdBlockID
  }

  predicate InUse(s: State, addr: nat) {
    exists c :: c in s.callers && BlockId(s.callers[c]) == addr
  }

  /**
   What the driver's own wrappers keep to: a blocking shutdown or grow request is never submitted, and a
   null buffer comes with length zero. `BlockingShutdownPostsTwice` and `FetchStaysInside` below say
   what the first and the last of these rules are for.
   */
  predicate Submittable(cmd: nat, waitflag: bool, pData: nat, cb: nat) {
    && cmd != CMD_INC_DATAPACKETLEN
    && (cmd == CMD_SHUTDOWN ==> !waitflag || pData == 0)
    && (pData == 0 ==> cb == 0)
  }

  /** The entry LX_dmn_add_command builds before it takes the lock. */
  function NewEntry(pParm: Packet, cmd: nat, waitflag: bool, pData: nat, cb: nat, mem: map<nat, Bytes>): Entry
    requires !waitflag && cb != 0 ==> pData in mem && cb <= |mem[pData]|
  {
    var p := pParm.(rc := 0, cmd := cmd, cbCmdDataLen := cb);
    if waitflag then Entry(p.(cmdBlockID := pData), [], 0)
    else Entry(p.(cmdBlockID := 0), if cb == 0 then [] else mem[pData][..cb], 0)
  }

  predicate CanPrepare(s: State, c: nat, cmd: nat, waitflag: bool, pData: nat, cb: nat) {
    && s.drv.pid != 0
    && c !in s.callers && c !in s.rousing
    && Submittable(cmd, waitflag, pData, cb)
    && (pData != 0 && (waitflag || cb != 0) ==> pData in s.mem && cb <= |s.mem[pData]|)
    && (waitflag && pData != 0 ==> !InUse(s, pData))
  }

  function DoPrepare(s: State, c: nat, cmd: nat, waitflag: bool, pData: nat, cb: nat, pParm: Packet): State
    requires CanPrepare(s, c, cmd, waitflag, pData, cb)
  {
    s.(callers := s.callers[c := Ready(NewEntry(pParm, cmd, waitflag, pData, cb, s.mem))])
  }

  predicate CanList(s: State, c: nat) {
    && c in s.callers && s.callers[c].Ready?
    && var e := s.callers[c].entry;
       (Blocking(e) ==> e.packet.cmdBlockID in s.mem && e.packet.cbCmdDataLen <= |s.mem[e.packet.cmdBlockID]|)
  }

  function DoList(s: State, c: nat): State
    requires CanList(s, c)
  {
    var n := |s.hist.log|;
    var drv := Enqueue(s.drv, s.callers[c].entry.(ticket := n));
    var e := drv.waiting[|drv.waiting| - 1];
    var whole := if Blocking(e) then s.mem[e.packet.cmdBlockID] else [];
    var sent := if Blocking(e) then whole[..e.packet.cbCmdDataLen] else e.payload;
    s.(drv := drv,
       callers := if Blocking(e) then s.callers[c := Waits(e.packet, n)] else s.callers - {c},
       rousing := s.rousing[c := n],
       hist := s.hist.(log := s.hist.log + [Submission(e, sent, whole, c)]))
  }

  /** LX_RunOn on the waiting list wakes the daemon if it sleeps, and does nothing otherwise. */
  function DoRouse(s: State, c: nat): State
    requires c in s.rousing
  {
    var t, pc := s.rousing[c], s.dmn.pc;
    s.(rousing := s.rousing - {c},
       dmn := s.dmn.(pc := if pc.Asleep? then Fetching else pc),
       hist := s.hist.(missed := if pc.Drowsy? && s.hist.tested <= t then s.hist.missed + {t} else s.hist.missed))
  }

  predicate CanScan(s: State, c: nat) {
    c in s.callers && s.callers[c].Waits? && c !in s.rousing && s.callers[c].packet.cmdBlockID in s.mem
  }

  function DoScan(s: State, c: nat): State
    requires CanScan(s, c)
  {
    var w := s.callers[c];
    match Position(s.drv.done, w.packet.hcmd)
    case None => s
    case Some(i) =>
      var pe := s.drv.done[i];
      s.(drv := s.drv.(done := Without(s.drv.done, i)),
         callers := s.callers - {c},
         hist := s.hist.(finished := s.hist.finished + multiset{pe.ticket},
                         returned := s.hist.returned[w.ticket := Result(pe.packet, s.mem[w.packet.cmdBlockID])]))
  }

  // ---------------------------------------------------------------- the daemon

  /** increaseDataPacketLength with a successful allocation of `dataLen` bytes. */
  function Grown(d: Daemon): Daemon {
    var len := Wrap(d.dataLen + INCR_DATA_LEN);
    d.(dataLen := len, param := d.param.(cbMaxDataLen := len, rc := 0), buffer := seq(len, _ => 0))
  }

  function DoStart(s: State, bytes: Bytes): State {
    s.(dmn := Daemon(Top, Packet(0, |bytes|, 0, 0, 0, 0), |bytes|, bytes, None),
       hist := s.hist.(offer := Offer(|bytes|, 0)))
  }

  /** Loop top and the part of the fetch ioctl before the list is looked at. */
  function DoEnter(s: State): State {
    var drv :=
      if s.drv.pid != 0 then s.drv
      else s.drv.(pid := DAEMON_PID, phase := if s.drv.phase < STATE_RUNNING then STATE_RUNNING else s.drv.phase);
    s.(drv := drv, dmn := s.dmn.(pc := Checking, param := s.dmn.param.(rc := 0, cmd := 0)))
  }

  /** The test of the list without the lock. */
  function DoCheck(s: State): State {
    if s.drv.waiting != [] then s.(dmn := s.dmn.(pc := Fetching))
    else s.(dmn := s.dmn.(pc := Drowsy), hist := s.hist.(tested := |s.hist.log|, missed := {}))
  }

  predicate CanWait(s: State, w: WaitStep) {
    match w
    case Check => s.dmn.pc.Checking?
    case Doze => s.dmn.pc.Drowsy?
    case Rouse(c) => c in s.rousing
    case Resettle => s.dmn.pc.Asleep?
    case Stir => s.dmn.pc.Asleep?
  }

  function DoWait(s: State, w: WaitStep): State
    requires CanWait(s, w)
  {
    match w
    case Check => DoCheck(s)
    case Doze => s.(dmn := s.dmn.(pc := Asleep))
    case Rouse(c) => DoRouse(s, c)
    case Resettle => s.(dmn := s.dmn.(pc := Drowsy))
    case Stir => s.(dmn := s.dmn.(pc := Fetching))
  }

  /** The locked block of LX_get_next_command; with nothing there its loop starts again. */
  function DoPop(s: State): State {
    if s.drv.waiting == [] then s.(dmn := s.dmn.(pc := Checking))
    else s.(drv := s.drv.(waiting := s.drv.waiting[1..]), dmn := s.dmn.(pc := Holds(s.drv.waiting[0])))
  }

  /** The bytes the fetch copies to the daemon; FetchStaysInside says when they lie within their allocation. */
  predicate FetchInside(e: Entry, mem: map<nat, Bytes>) {
    if Blocking(e) then e.packet.cmdBlockID in mem && e.packet.cbCmdDataLen <= |mem[e.packet.cmdBlockID]|
    else e.packet.cbCmdDataLen <= |e.payload|
  }

  function FetchedBytes(e: Entry, mem: map<nat, Bytes>): Bytes
    requires FetchInside(e, mem)
  {
    if Blocking(e) then mem[e.packet.cmdBlockID][..e.packet.cbCmdDataLen] else e.payload[..e.packet.cbCmdDataLen]
  }

  predicate CanHand(s: State) {
    && s.dmn.pc.Holds?
    && var e := s.dmn.pc.entry;
       (e.packet.cbCmdDataLen <= s.dmn.param.cbMaxDataLen ==>
          e.packet.cbCmdDataLen <= |s.dmn.buffer| && FetchInside(e, s.mem))
  }

  /** The second half of the fetch: the head command goes back to the head of the list, or to the daemon. */
  function DoHand(s: State): State
    requires CanHand(s)
  {
    var e := s.dmn.pc.entry;
    if s.dmn.param.cbMaxDataLen < e.packet.cbCmdDataLen then
      s.(drv := s.drv.(waiting := [e] + s.drv.waiting),
         dmn := s.dmn.(pc := Execute, param := AskMore(s.dmn.param)),
         hist := s.hist.(offer := s.hist.offer.(rounds := s.hist.offer.rounds + 1)))
    else
      var bytes := FetchedBytes(e, s.mem);
      s.(dmn := s.dmn.(pc := Execute, param := Handed(s.dmn.param, e), buffer := Overlay(s.dmn.buffer, bytes),
                       cur := Some(e.ticket)),
         hist := s.hist.(delivered := s.hist.delivered + [e.ticket],
                         received := s.hist.received[e.ticket := bytes],
                         offers := s.hist.offers[e.ticket := s.hist.offer],
                         offer := Offer(s.dmn.param.cbMaxDataLen, 0)))
  }

  /** The command itself: a restart leaves the loop, a grow reply enlarges the buffer, anything else sets a result. */
  function DoRun(s: State, rc: nat, bytes: Bytes): State {
    var d := s.dmn;
    if d.param.cmd == CMD_RESTART then s.(dmn := d.(pc := Reply(true), param := d.param.(rc := 0)))
    else if d.param.cmd == CMD_INC_DATAPACKETLEN then s.(dmn := Grown(d).(pc := Reply(false)))
    else s.(dmn := d.(pc := Reply(false), param := d.param.(rc := rc), buffer := bytes))
  }

  predicate CanAnswer(s: State) {
    && s.dmn.pc.Reply?
    && var p := s.dmn.param;
       (p.cmdBlockID != 0 ==>
          p.cmdBlockID in s.mem && p.cbCmdDataLen <= |s.mem[p.cmdBlockID]| && p.cbCmdDataLen <= |s.dmn.buffer|)
  }

  /** The results ioctl up to the lock: the reply bytes go to the blocked caller's buffer. */
  function DoAnswer(s: State): State
    requires CanAnswer(s)
  {
    var p := s.dmn.param;
    if p.cmdBlockID == 0 then
      s.(dmn := s.dmn.(pc := Test(s.dmn.pc.last), cur := None),
         hist := if s.dmn.cur.None? then s.hist
                 else s.hist.(finished := s.hist.finished + multiset{s.dmn.cur.value}))
    else
      var bytes := s.dmn.buffer[..p.cbCmdDataLen];
      s.(mem := s.mem[p.cmdBlockID := Overlay(s.mem[p.cmdBlockID], bytes)],
         dmn := s.dmn.(pc := Post(s.dmn.pc.last)),
         hist := if s.dmn.cur.None? then s.hist else s.hist.(replied := s.hist.replied[s.dmn.cur.value := bytes]))
  }

  /** The locked block of LX_dmn_add_done_command. */
  function DoPublish(s: State): State
    requires s.dmn.pc.Post?
  {
    var t := if s.dmn.cur.Some? then s.dmn.cur.value else 0;
    s.(drv := s.drv.(done := s.drv.done + [Entry(s.dmn.param, [], t)]),
       dmn := s.dmn.(pc := Test(s.dmn.pc.last), cur := None),
       hist := s.hist.(posted := s.hist.posted[t := s.dmn.param]))
  }

  function DoLoop(s: State): State
    requires s.dmn.pc.Test?
  {
    if s.dmn.pc.last then s.(dmn := s.dmn.(pc := Gone))
    else if s.dmn.param.cmd == CMD_SHUTDOWN then s.(dmn := s.dmn.(pc := Reply(true), param := s.dmn.param.(rc := 0)))
    else s.(dmn := s.dmn.(pc := Top))
  }

  /** The daemon process ends outside the driver, taking along the command it had fetched. */
  function DoDie(s: State): State {
    s.(dmn := s.dmn.(pc := Gone, cur := None),
       hist := if s.dmn.cur.None? then s.hist else s.hist.(lost := s.hist.lost + multiset{s.dmn.cur.value}))
  }

  /** LX_daemon_closed, whose list work is one locked block. */
  function DoClose(s: State): State {
    var drv := Closed(s.drv);
    s.(drv := drv,
       hist := s.hist.(drained := s.hist.drained + (set t | t in Tickets(drv.done)),
                       dropped := s.hist.dropped + multiset(Tickets(OnlyFree(s.drv.waiting))),
                       closes := s.hist.closes + 1,
                       offer := if s.dmn.pc.Holds? then s.hist.offer else Offer(Room(s.hist.offer), 0)))
  }

  // ---------------------------------------------------------------- runs

  predicate Enabled(s: State, step: Step) {
    match step
    case Prepare(c, cmd, w, p, cb, _) => CanPrepare(s, c, cmd, w, p, cb)
    case List(c) => CanList(s, c)
    case Scan(c) => CanScan(s, c)
    case Scribble(addr, _) => addr != 0 && !InUse(s, addr)
    case Start(bytes) => s.dmn.pc.Gone? && |bytes| == INITIAL_DATA_LEN + INCR_DATA_LEN
    case Enter => s.dmn.pc.Top?
    case Wait(w) => CanWait(s, w)
    case Pop => s.dmn.pc.Fetching?
    case Hand => CanHand(s)
    case Run(_, bytes) => s.dmn.pc.Execute? && |bytes| == |s.dmn.buffer|
    case Answer => CanAnswer(s)
    case Publish => s.dmn.pc.Post?
    case Loop => s.dmn.pc.Test?
    case Die => s.dmn.pc.Top? || s.dmn.pc.Execute? || s.dmn.pc.Reply? || s.dmn.pc.Test?
    case Close => true
  }

  function Apply(s: State, step: Step): State
    requires Enabled(s, step)
  {
    match step
    case Prepare(c, cmd, w, p, cb, pParm) => DoPrepare(s, c, cmd, w, p, cb, pParm)
    case List(c) => DoList(s, c)
    case Scan(c) => DoScan(s, c)
    case Scribble(addr, bytes) => s.(mem := s.mem[addr := bytes])
    case Start(bytes) => DoStart(s, bytes)
    case Enter => DoEnter(s)
    case Wait(w) => DoWait(s, w)
    case Pop => DoPop(s)
    case Hand => DoHand(s)
    case Run(rc, bytes) => DoRun(s, rc, bytes)
    case Answer => DoAnswer(s)
    case Publish => DoPublish(s)
    case Loop => DoLoop(s)
    case Die => DoDie(s)
    case Close => DoClose(s)
  }

  /**
   No waiting command is overtaken by 2^32 - 1 later submissions. By `CommandQueue.HandlesCollide` this is
   what keeps the handles of the live commands apart.
   */
  ghost predicate Fresh(s: State) {
    forall c :: c in s.callers && s.callers[c].Waits? ==> |s.hist.log| <= s.callers[c].ticket + HANDLES
  }

  /** Each step of `steps` is enabled where it is taken. */
  ghost predicate Legal(s: State, steps: seq<Step>)
    decreases |steps|
  {
    steps == [] || (Enabled(s, steps[0]) && Fresh(s) && Legal(Apply(s, steps[0]), steps[1..]))
  }

  ghost function After(s: State, steps: seq<Step>): State
    requires Legal(s, steps)
    decreases |steps|
  {
    if steps == [] then s else After(Apply(s, steps[0]), steps[1..])
  }
}
