/** The daemon's own data: the packet buffer of Daemon/lxapid.c and the rotation of its log files. */
module DaemonProcess {
  import opened Machine
  import opened CommandQueue
  import DaemonSystem

  class Process {
    var dataLen: nat
    var pData: array?<byte>
    var param: Packet

    /** The announced length, the remembered length and the real length agree. */
    ghost predicate Sized()
      reads this
    {
      pData != null && param.cbMaxDataLen == dataLen == pData.Length
    }

    constructor ()
      ensures dataLen == DaemonSystem.INITIAL_DATA_LEN && pData == null && param == Packet(0, 0, 0, 0, 0, 0)
    {
      dataLen, pData, param := DaemonSystem.INITIAL_DATA_LEN, null, Packet(0, 0, 0, 0, 0, 0);
    }

    /**
     increaseDataPacketLength, where DosAllocMem answers `err`. With memory it is the step of the system
     model; without, the announced length is one step ahead of the buffer, so the lengths agree after the
     call exactly when the allocation succeeded.
     */
    method IncreaseDataPacketLength(err: nat) returns (rc: nat)
      requires dataLen < U32
      modifies this
      ensures rc == err == param.rc
      ensures err == 0 ==>
          pData != null && fresh(pData)
          && forall pc, buffer, cur :: DaemonSystem.Grown(DaemonSystem.Daemon(pc, old(param), old(dataLen), buffer, cur))
                                       == DaemonSystem.Daemon(pc, param, dataLen, pData[..], cur)
      ensures err != 0 ==> pData == old(pData) && dataLen == old(dataLen)
      ensures err != 0 ==> param == old(param).(cbMaxDataLen := Wrap(old(dataLen) + 4096), rc := err)
      ensures Sized() <==> err == 0
    {
      var oldData := pData;
      dataLen := Wrap(dataLen + DaemonSystem.INCR_DATA_LEN);
      param := param.(cbMaxDataLen := dataLen, rc := err);
      if err == 0 {
        pData := new byte[dataLen](_ => 0);
      } else {
        pData := oldData;
        dataLen := Wrap(dataLen - DaemonSystem.INCR_DATA_LEN);
      }
      rc := err;
    }
  }

  // ---------------------------------------------------------------- log rotation

  type Files = map<string, string>

  function Lookup(f: Files, name: string): Option<string> {
    if name in f then Some(f[name]) else None
  }

  /** DosCopy with DCPY_EXISTING: a missing source leaves everything as it is. */
  function Copied(f: Files, src: string, dst: string): Files {
    if src in f then f[dst := f[src]] else f
  }

  function Digit(k: nat): char
    requires k <= 9
  {
    "0123456789"[k]
  }

  /** Generation `k` of a log: its name with the last character replaced by the digit `k`. */
  function Generation(log: string, k: nat): string
    requires log != "" && k <= 9
  {
    log[|log| - 1 := Digit(k)]
  }

  /** The files after the copies i - 1 to i, ..., 0 to 1, in that order. */
  function Shifted(f: Files, log: string, i: nat): Files
    requires log != "" && i <= 9
    decreases i
  {
    if i == 0 then f
    else Shifted(Copied(f, Generation(log, i - 1), Generation(log, i)), log, i - 1)
  }

  function RotatedFiles(f: Files, log: string): Files
    requires log != ""
  {
    Copied(Shifted(f, log, 9), log, Generation(log, 0)) - {log}
  }

  class LogFiles {
    var files: Files
    var logFileName: string

    method DosCopy(src: string, dst: string)
      modifies this`files
      ensures files == Copied(old(files), src, dst)
    {
      if src in files {
        files := files[dst := files[src]];
      }
    }

    method SetLogFile(logfile: string)
      requires logfile != ""
      modifies this
      ensures files == RotatedFiles(old(files), logfile) && logFileName == logfile
    {
      var s1, s2 := logfile, logfile;
      var s := |logfile| - 1;
      var i := 9;
      while i > 0
        invariant 0 <= i <= 9
        invariant |s1| == |s2| == |logfile| && s1[..s] == s2[..s] == logfile[..s]
        invariant Shifted(files, logfile, i) == Shifted(old(files), logfile, 9)
      {
        s1 := s1[s := Digit(i - 1)];
        s2 := s2[s := Digit(i)];
        assert s1 == Generation(logfile, i - 1) && s2 == Generation(logfile, i);
        DosCopy(s1, s2);
        i := i - 1;
      }
      s2 := s2[s := '0'];
      assert s2 == Generation(logfile, 0);
      DosCopy(logfile, s2);
      files := files - {logfile};
      logFileName := logfile;
    }
  }

  /** Every generation moves up by one where it existed, the log becomes generation 0, and nothing else changes. */
  ghost predicate MovedUp(f: Files, f': Files, log: string)
    requires log != ""
  {
    && (forall k: nat :: k <= 8 ==>
          Lookup(f', Generation(log, k + 1))
          == Lookup(f, if Generation(log, k) in f then Generation(log, k) else Generation(log, k + 1)))
    && Lookup(f', Generation(log, 0)) == Lookup(f, if log in f then log else Generation(log, 0))
    && log !in f'
    && forall name :: name != log && (forall k: nat :: k <= 9 ==> name != Generation(log, k)) ==> Lookup(f', name) == Lookup(f, name)
  }

  predicate EndsInDigit(log: string)
    requires log != ""
  {
    log[|log| - 1] in "0123456789"
  }

  /** Generation `k` ends in the digit `k` where the log's name ends in something else, and is otherwise the log's name. */
  lemma GenerationNamed(log: string, k: nat)
    requires log != "" && k <= 9
    ensures Generation(log, k) == log[..|log| - 1] + ['0' + k as char]
  {
    assert log == log[..|log| - 1] + [log[|log| - 1]];
  }

  lemma GenerationsDiffer(log: string, j: nat, k: nat)
    requires log != "" && j <= 9 && k <= 9
    ensures Generation(log, j) == Generation(log, k) <==> j == k
    ensures !EndsInDigit(log) ==> Generation(log, k) != log
    ensures Generation(log, k)[|log| - 1] == Digit(k)
  {
    assert Generation(log, j)[|log| - 1] == Digit(j) && Generation(log, k)[|log| - 1] == Digit(k);
    assert Digit(j) == Digit(k) <==> j == k;
  }

  /** What the countdown leaves under generation `k`: shifted up to generation `i`, untouched above. */
  lemma {:induction false} ShiftedGeneration(f: Files, log: string, i: nat, k: nat)
    requires log != "" && i <= 9 && k <= 9
    ensures Lookup(Shifted(f, log, i), Generation(log, k))
            == Lookup(f, if 1 <= k <= i && Generation(log, k - 1) in f then Generation(log, k - 1) else Generation(log, k))
    decreases i
  {
    if i > 0 {
      ShiftedGeneration(Copied(f, Generation(log, i - 1), Generation(log, i)), log, i - 1, k);
      GenerationsDiffer(log, k, i);
      if k > 0 {
        GenerationsDiffer(log, k - 1, i);
      }
    }
  }

  lemma {:induction false} ShiftedElsewhere(f: Files, log: string, i: nat, name: string)
    requires log != "" && i <= 9 && forall k: nat :: k <= 9 ==> name != Generation(log, k)
    ensures Lookup(Shifted(f, log, i), name) == Lookup(f, name)
    decreases i
  {
    if i > 0 {
      ShiftedElsewhere(Copied(f, Generation(log, i - 1), Generation(log, i)), log, i - 1, name);
    }
  }

  /** Rotation keeps its promise for every set of files exactly when the log's name does not end in a digit. */
  lemma RotationExact(log: string)
    requires log != ""
    ensures (forall f: Files :: MovedUp(f, RotatedFiles(f, log), log)) <==> !EndsInDigit(log)
  {
    if EndsInDigit(log) {
      DigitLogIsLost(log);
    } else {
      forall f: Files
        ensures MovedUp(f, RotatedFiles(f, log), log)
      {
        RotationMoves(f, log);
      }
    }
  }

  lemma RotatedGeneration(f: Files, log: string, k: nat)
    requires log != "" && k <= 9 && !EndsInDigit(log)
    ensures Lookup(RotatedFiles(f, log), Generation(log, k))
            == Lookup(f, if k == 0 then (if log in f then log else Generation(log, 0))
                         else if Generation(log, k - 1) in f then Generation(log, k - 1) else Generation(log, k))
  {
    var g := Shifted(f, log, 9);
    GenerationsDiffer(log, k, 0);
    ShiftedGeneration(f, log, 9, k);
    forall j: nat | j <= 9
      ensures Generation(log, j) != log
    {
      GenerationsDiffer(log, j, j);
    }
    ShiftedElsewhere(f, log, 9, log);
    assert Lookup(g, log) == Lookup(f, log) && (log in g <==> log in f);
  }

  lemma RotationMoves(f: Files, log: string)
    requires log != "" && !EndsInDigit(log)
    ensures MovedUp(f, RotatedFiles(f, log), log)
  {
    RotatedGeneration(f, log, 0);
    forall k: nat | k <= 8
      ensures Lookup(RotatedFiles(f, log), Generation(log, k + 1))
              == Lookup(f, if Generation(log, k) in f then Generation(log, k) else Generation(log, k + 1))
    {
      RotatedGeneration(f, log, k + 1);
      assert (k + 1) - 1 == k;
    }
    forall name | name != log && (forall k: nat :: k <= 9 ==> name != Generation(log, k))
      ensures Lookup(RotatedFiles(f, log), name) == Lookup(f, name)
    {
      ShiftedElsewhere(f, log, 9, name);
    }
  }

  /** A log whose own name is generation `d`: with no other file around, its contents are lost or its name stays. */
  lemma DigitLogIsLost(log: string)
    requires log != "" && EndsInDigit(log)
    ensures exists f: Files :: !MovedUp(f, RotatedFiles(f, log), log)
  {
    var d: nat :| d <= 9 && "0123456789"[d] == log[|log| - 1];
    assert Generation(log, d) == log;
    var f: Files := map[log := "x"];
    if d > 0 {
      GenerationsDiffer(log, d - 1, d);
      var k: nat := d - 1;
      assert Generation(log, k) !in f && Lookup(f, Generation(log, k + 1)) == Some("x");
    }
    assert !MovedUp(f, RotatedFiles(f, log), log);
  }
}
