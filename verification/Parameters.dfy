/** The scanner of the driver's command line, from Dev32/lxparam.c. */
module Parameters {
  import opened Machine

  const MAX_PARM_LENGTH: nat := 256
  const LX_MAXPATH: nat := 260
  const PARM_LIST: seq<string> := ["/3", "/VM", "/V", "/NOSTARTCHECK"]

  type Span = (nat, nat)

  /** The first position from `i` on that is not a blank. */
  function SkipBlanks(s: string, i: nat): (r: nat)
    requires i <= |s|
    ensures i <= r <= |s| && (r < |s| ==> s[r] != ' ')
    ensures forall k :: i <= k < r ==> s[k] == ' '
    decreases |s| - i
  {
    if i < |s| && s[i] == ' ' then SkipBlanks(s, i + 1) else i
  }

  /** The first position from `i` on that is a blank or the end. */
  function EndOfRun(s: string, i: nat): (r: nat)
    requires i <= |s|
    ensures i <= r <= |s| && (r < |s| ==> s[r] == ' ')
    ensures forall k :: i <= k < r ==> s[k] != ' '
    decreases |s| - i
  {
    if i < |s| && s[i] != ' ' then EndOfRun(s, i + 1) else i
  }

  /** Where the token buffer is full, or the run of non-blanks from `i` over. */
  function EndOfPiece(s: string, i: nat): (r: nat)
    requires i <= |s|
    ensures i <= r <= EndOfRun(s, i) && r - i <= MAX_PARM_LENGTH - 1
    ensures i < |s| && s[i] != ' ' ==> i < r
  {
    var e := EndOfRun(s, i);
    if e - i > MAX_PARM_LENGTH - 1 then i + (MAX_PARM_LENGTH - 1) else e
  }

  /** What the token buffer holds, round by round: pieces of runs of non-blanks, and nothing after trailing blanks. */
  function Pieces(s: string, i: nat): seq<Span>
    requires i <= |s|
    decreases |s| - i
  {
    if i == |s| then []
    else
      var b := SkipBlanks(s, i);
      var e := EndOfPiece(s, b);
      [(b, e)] + Pieces(s, e)
  }

  /** A span of non-blanks that extends as far as it can both ways. */
  ghost predicate MaximalRun(s: string, from: nat, a: nat, b: nat) {
    && from <= a < b <= |s|
    && (forall k :: a <= k < b ==> s[k] != ' ')
    && (a == from || s[a - 1] == ' ')
    && (b == |s| || s[b] == ' ')
  }

  function NonEmpty(spans: seq<Span>): seq<Span> {
    if spans == [] then []
    else (if spans[0].0 < spans[0].1 then [spans[0]] else []) + NonEmpty(spans[1..])
  }

  ghost predicate InOrder(spans: seq<Span>) {
    forall i, j :: 0 <= i < j < |spans| ==> spans[i].1 <= spans[j].0
  }

  /** With every run shorter than the buffer, the non-empty pieces are exactly the maximal runs, in order. */
  lemma {:induction false} PiecesAreRuns(s: string, i: nat)
    requires i <= |s|
    requires i == 0 || i == |s| || s[i] == ' ' || s[i - 1] == ' '
    requires forall a: nat, b: nat :: MaximalRun(s, i, a, b) ==> b - a < MAX_PARM_LENGTH - 1
    ensures forall a: nat, b: nat :: (a, b) in NonEmpty(Pieces(s, i)) <==> MaximalRun(s, i, a, b)
    ensures InOrder(NonEmpty(Pieces(s, i)))
    decreases |s| - i
  {
    if i < |s| {
      var b := SkipBlanks(s, i);
      var e := EndOfRun(s, b);
      RunsSplit(s, i, b, e);
      assert b < |s| ==> MaximalRun(s, i, b, e);
      assert EndOfPiece(s, b) == e;
      PiecesAreRuns(s, e);
      assert Pieces(s, i) == [(b, e)] + Pieces(s, e) && ([(b, e)] + Pieces(s, e))[1..] == Pieces(s, e);
      assert NonEmpty(Pieces(s, i)) == (if b < e then [(b, e)] else []) + NonEmpty(Pieces(s, e));
      FirstInOrder(b, e, s, NonEmpty(Pieces(s, e)));
      FirstAndRest(s, i, b, e, NonEmpty(Pieces(s, e)));
    }
  }

  lemma RunsSplit(s: string, i: nat, b: nat, e: nat)
    requires i < |s| && b == SkipBlanks(s, i) && e == EndOfRun(s, b)
    ensures forall x: nat, y: nat :: MaximalRun(s, i, x, y) <==> (b < e && (x, y) == (b, e)) || MaximalRun(s, e, x, y)
  {
    forall x: nat, y: nat
      ensures MaximalRun(s, i, x, y) <==> (b < e && (x, y) == (b, e)) || MaximalRun(s, e, x, y)
    {
      RunSplit(s, i, b, e, x, y);
    }
  }

  lemma FirstAndRest(s: string, i: nat, b: nat, e: nat, rest: seq<Span>)
    requires forall x: nat, y: nat :: (x, y) in rest <==> MaximalRun(s, e, x, y)
    requires forall x: nat, y: nat :: MaximalRun(s, i, x, y) <==> (b < e && (x, y) == (b, e)) || MaximalRun(s, e, x, y)
    ensures forall x: nat, y: nat :: (x, y) in (if b < e then [(b, e)] else []) + rest <==> MaximalRun(s, i, x, y)
  {
  }

  lemma FirstInOrder(b: nat, e: nat, s: string, rest: seq<Span>)
    requires InOrder(rest) && forall x: nat, y: nat :: (x, y) in rest ==> MaximalRun(s, e, x, y)
    ensures InOrder((if b < e then [(b, e)] else []) + rest)
  {
    forall k | 0 <= k < |rest|
      ensures e <= rest[k].0
    {
      assert (rest[k].0, rest[k].1) in rest;
    }
  }

  lemma RunSplit(s: string, i: nat, b: nat, e: nat, x: nat, y: nat)
    requires i < |s| && b == SkipBlanks(s, i) && e == EndOfRun(s, b)
    ensures MaximalRun(s, i, x, y) <==> (b < e && (x, y) == (b, e)) || MaximalRun(s, e, x, y)
  {
    assert i <= x < b ==> s[x] == ' ';
    assert b <= x < e ==> s[x] != ' ';
    assert b < x < e ==> s[x - 1] != ' ';
    assert b <= y < e ==> s[y] != ' ';
    assert e < |s| ==> s[e] == ' ';
  }

  // ---------------------------------------------------------------- what is done with a token

  /** The number of the parameter that a token starts with, the first in the list. */
  function Matches(arg: string, i: nat): (r: Option<nat>)
    requires i <= |PARM_LIST|
    ensures r.Some? ==> i <= r.value < |PARM_LIST| && PARM_LIST[r.value] <= arg
    ensures r.Some? ==> forall k :: i <= k < r.value ==> !(PARM_LIST[k] <= arg)
    ensures r.None? ==> forall k :: i <= k < |PARM_LIST| ==> !(PARM_LIST[k] <= arg)
    decreases |PARM_LIST| - i
  {
    if i == |PARM_LIST| then None
    else if PARM_LIST[i] <= arg then Some(i)
    else Matches(arg, i + 1)
  }

  predicate Known(arg: string) {
    Matches(arg, 0).Some?
  }

  datatype Flags = Flags(verbose: bool, verboseModules: bool, startupCheck: bool, breaks: nat)

  /** The flags after one token. */
  function Switched(f: Flags, arg: string): Flags {
    match Matches(arg, 0)
    case None => f
    case Some(k) =>
      if k == 0 then f.(breaks := f.breaks + 1)
      else if k == 1 then f.(verboseModules := true, verbose := true)
      else if k == 2 then f.(verbose := true)
      else f.(startupCheck := false)
  }

  function AllSwitched(f: Flags, args: seq<string>): Flags
    decreases |args|
  {
    if args == [] then f else AllSwitched(Switched(f, args[0]), args[1..])
  }

  function Text(s: string, p: Span): string
    requires p.0 <= p.1 <= |s|
  {
    s[p.0..p.1]
  }

  /** A token that fills the buffer is not dispatched, nor is an empty one. */
  function TokenOf(arg: string): seq<string> {
    if |arg| >= MAX_PARM_LENGTH - 1 || arg == "" then [] else [arg]
  }

  /** What is written about a token: that it is too long, or unknown. */
  function ComplaintOf(arg: string): seq<string> {
    if |arg| >= MAX_PARM_LENGTH - 1 || (arg != "" && !Known(arg)) then [arg] else []
  }

  /** An unknown token ends the scan. */
  predicate EndsScan(arg: string) {
    arg != "" && |arg| < MAX_PARM_LENGTH - 1 && !Known(arg)
  }

  /** The tokens that are dispatched, up to the first unknown one. */
  function Dispatched(s: string, spans: seq<Span>): seq<string>
    requires forall p :: p in spans ==> p.0 <= p.1 <= |s|
    decreases |spans|
  {
    if spans == [] then []
    else
      var arg := Text(s, spans[0]);
      TokenOf(arg) + (if EndsScan(arg) then [] else Dispatched(s, spans[1..]))
  }

  /** What is written about the pieces, up to the first unknown token. */
  function Complaints(s: string, spans: seq<Span>): seq<string>
    requires forall p :: p in spans ==> p.0 <= p.1 <= |s|
    decreases |spans|
  {
    if spans == [] then []
    else
      var arg := Text(s, spans[0]);
      ComplaintOf(arg) + (if EndsScan(arg) then [] else Complaints(s, spans[1..]))
  }

  lemma {:induction false} PiecesInside(s: string, i: nat)
    requires i <= |s|
    ensures forall p :: p in Pieces(s, i) ==> p.0 <= p.1 <= |s| && p.1 - p.0 <= MAX_PARM_LENGTH - 1
    decreases |s| - i
  {
    if i < |s| {
      PiecesInside(s, EndOfPiece(s, SkipBlanks(s, i)));
    }
  }

  /** The tokens that the loop dispatches when it starts at `i`. */
  function DispatchedFrom(s: string, i: nat): seq<string>
    requires i <= |s|
  {
    PiecesInside(s, i);
    Dispatched(s, Pieces(s, i))
  }

  /** What the loop writes when it starts at `i`. */
  function WrittenFrom(s: string, i: nat): seq<string>
    requires i <= |s|
  {
    PiecesInside(s, i);
    Complaints(s, Pieces(s, i))
  }

  function Texts(s: string, spans: seq<Span>): (r: seq<string>)
    requires forall p :: p in spans ==> p.0 <= p.1 <= |s|
    ensures |r| == |spans|
  {
    if spans == [] then [] else [Text(s, spans[0])] + Texts(s, spans[1..])
  }

  /** `d` is `all` up to and including the first unknown token, or the whole of it. */
  ghost predicate UpToFirstUnknown(d: seq<string>, all: seq<string>) {
    && |d| <= |all| && d == all[..|d|]
    && (forall i :: 0 <= i < |d| - 1 ==> Known(d[i]))
    && (|d| < |all| ==> d != [] && !Known(d[|d| - 1]))
  }

  lemma {:induction false} NonEmptyInside(s: string, spans: seq<Span>)
    requires forall p :: p in spans ==> p.0 <= p.1 <= |s|
    ensures forall p :: p in NonEmpty(spans) ==> p in spans
    decreases |spans|
  {
    if spans != [] {
      NonEmptyInside(s, spans[1..]);
    }
  }

  lemma UpToOneMore(arg: string, d: seq<string>, all: seq<string>)
    requires UpToFirstUnknown(d, all)
    ensures UpToFirstUnknown(if Known(arg) then [arg] + d else [arg], [arg] + all)
  {
    if Known(arg) {
      assert ([arg] + all)[..|d| + 1] == [arg] + all[..|d|];
      forall i | 0 <= i < |[arg] + d| - 1
        ensures Known(([arg] + d)[i])
      {
        if i > 0 {
          assert ([arg] + d)[i] == d[i - 1];
        }
      }
    }
  }

  lemma {:induction false} DispatchedUpTo(s: string, spans: seq<Span>)
    requires forall p :: p in spans ==> p.0 <= p.1 <= |s| && p.1 - p.0 < MAX_PARM_LENGTH - 1
    ensures forall p :: p in NonEmpty(spans) ==> p.0 <= p.1 <= |s|
    ensures UpToFirstUnknown(Dispatched(s, spans), Texts(s, NonEmpty(spans)))
    decreases |spans|
  {
    NonEmptyInside(s, spans);
    if spans != [] {
      DispatchedUpTo(s, spans[1..]);
      NonEmptyInside(s, spans[1..]);
      var d, all := Dispatched(s, spans[1..]), Texts(s, NonEmpty(spans[1..]));
      var arg := Text(s, spans[0]);
      if arg != "" {
        assert NonEmpty(spans) == [spans[0]] + NonEmpty(spans[1..]);
        assert NonEmpty(spans)[1..] == NonEmpty(spans[1..]);
        assert Texts(s, NonEmpty(spans)) == [arg] + all;
        UpToOneMore(arg, d, all);
      } else {
        assert NonEmpty(spans) == NonEmpty(spans[1..]);
      }
    }
  }

  /**
   With every run after the device path shorter than 255 characters, the tokens dispatched are the texts of
   the maximal non-blank runs, in order, up to and including the first unknown one.
   */
  lemma RunsAreDispatched(s: string, e: nat)
    requires e <= |s| && (e == |s| || s[e] == ' ')
    requires forall a: nat, b: nat :: MaximalRun(s, e, a, b) ==> b - a < MAX_PARM_LENGTH - 1
    ensures var runs := NonEmpty(Pieces(s, e));
        && (forall a: nat, b: nat :: (a, b) in runs <==> MaximalRun(s, e, a, b))
        && InOrder(runs)
        && (forall p :: p in runs ==> p.0 <= p.1 <= |s|)
        && UpToFirstUnknown(DispatchedFrom(s, e), Texts(s, runs))
  {
    PiecesInside(s, e);
    PiecesAreRuns(s, e);
    forall p | p in Pieces(s, e)
      ensures p.1 - p.0 < MAX_PARM_LENGTH - 1
    {
      if p.0 < p.1 {
        NonEmptyKeeps(Pieces(s, e), p);
        assert (p.0, p.1) in NonEmpty(Pieces(s, e));
      }
    }
    DispatchedUpTo(s, Pieces(s, e));
  }

  lemma {:induction false} NonEmptyKeeps(spans: seq<Span>, p: Span)
    requires p in spans && p.0 < p.1
    ensures p in NonEmpty(spans)
    decreases |spans|
  {
    if p != spans[0] {
      NonEmptyKeeps(spans[1..], p);
    }
  }

  ghost predicate AnyStarts(args: seq<string>, prefix: string) {
    exists a :: a in args && prefix <= a
  }

  lemma AnyStartsStep(args: seq<string>, prefix: string)
    requires args != []
    ensures AnyStarts(args, prefix) <==> prefix <= args[0] || AnyStarts(args[1..], prefix)
  {
    forall a
      ensures a in args <==> a == args[0] || a in args[1..]
    {
      assert args == [args[0]] + args[1..];
    }
    if prefix <= args[0] {
      assert args[0] in args;
    } else if AnyStarts(args, prefix) {
      var a :| a in args && prefix <= a;
      assert a in args[1..];
    }
    if AnyStarts(args[1..], prefix) {
      var a :| a in args[1..] && prefix <= a;
      assert a in args;
    }
  }

  /**
   Verbose-module-list is set exactly by a dispatched token that starts with /VM, and verbose by one with /V; the
   debugger is entered once for each one with /3.
   */
  lemma {:induction false} FlagsExact(f: Flags, args: seq<string>)
    ensures var f' := AllSwitched(f, args);
        && (f'.verboseModules <==> f.verboseModules || AnyStarts(args, "/VM"))
        && (f'.verbose <==> f.verbose || AnyStarts(args, "/V"))
        && (f'.startupCheck <==> f.startupCheck && !AnyStarts(args, "/NOSTARTCHECK"))
        && f'.breaks == f.breaks + CountStarts(args, "/3")
    decreases |args|
  {
    if args != [] {
      FlagsExact(Switched(f, args[0]), args[1..]);
      SwitchedExact(f, args[0]);
      AnyStartsStep(args, "/VM");
      AnyStartsStep(args, "/V");
      AnyStartsStep(args, "/NOSTARTCHECK");
    }
  }

  /** The tokens the driver knows. */
  lemma KnownExact(arg: string)
    ensures Known(arg) <==> "/3" <= arg || "/V" <= arg || "/NOSTARTCHECK" <= arg
  {
    assert PARM_LIST[0] == "/3" && PARM_LIST[1] == "/VM" && PARM_LIST[2] == "/V" && PARM_LIST[3] == "/NOSTARTCHECK";
    assert "/VM"[..2] == "/V";
    if "/VM" <= arg {
      assert arg[..2] == "/VM"[..2];
    }
  }

  /** How many of the tokens start with `prefix`. */
  function CountStarts(args: seq<string>, prefix: string): nat {
    if args == [] then 0 else (if prefix <= args[0] then 1 else 0) + CountStarts(args[1..], prefix)
  }

  lemma SwitchedExact(f: Flags, arg: string)
    ensures var f' := Switched(f, arg);
        && (f'.verboseModules <==> f.verboseModules || "/VM" <= arg)
        && (f'.verbose <==> f.verbose || "/V" <= arg)
        && (f'.startupCheck <==> f.startupCheck && !("/NOSTARTCHECK" <= arg))
        && f'.breaks == f.breaks + if "/3" <= arg then 1 else 0
  {
    var m := Matches(arg, 0);
    assert PARM_LIST[0] == "/3" && PARM_LIST[1] == "/VM" && PARM_LIST[2] == "/V" && PARM_LIST[3] == "/NOSTARTCHECK";
    assert "/3"[1] == '3' && "/VM"[1] == 'V' && "/V"[1] == 'V' && "/NOSTARTCHECK"[1] == 'N';
    assert "/VM"[..2] == "/V";
  }

  // ---------------------------------------------------------------- the home path

  /** What a character buffer says as a C string. */
  function CString(buf: string): string {
    if buf == "" || buf[0] == '\0' then "" else [buf[0]] + CString(buf[1..])
  }

  /** A path up to and including its last backslash, or all of it when it has none. */
  function HomeOf(path: string): string {
    if '\\' !in path then path
    else if path[|path| - 1] == '\\' then path
    else HomeOf(path[..|path| - 1])
  }

  lemma {:induction false} HomeCut(path: string, sl: nat)
    requires sl < |path| && path[sl] == '\\' && forall k :: sl < k < |path| ==> path[k] != '\\'
    ensures HomeOf(path) == path[..sl + 1]
    decreases |path|
  {
    var n := |path| - 1;
    if sl < n {
      HomeCut(path[..n], sl);
      assert path[..n][..sl + 1] == path[..sl + 1];
    } else {
      assert path[..sl + 1] == path;
    }
  }

  lemma {:induction false} CStringOf(buf: string, text: string)
    requires '\0' !in text && |text| < |buf| && buf[..|text|] == text && buf[|text|] == '\0'
    ensures CString(buf) == text
    decreases |text|
  {
    if text != "" {
      assert buf[0] == text[0] && buf[1..][..|text| - 1] == text[1..];
      CStringOf(buf[1..], text[1..]);
      assert [text[0]] + text[1..] == text;
    }
  }

  /** The buffer after the path was stored in it, cut behind the last backslash if there is one. */
  lemma HomeStored(buf: string, path: string, sl: int)
    requires |path| < |buf| && buf[..|path|] == path && buf[|path|] == '\0' && '\0' !in path
    requires -1 <= sl < |path| && (sl >= 0 ==> path[sl] == '\\') && forall k :: sl < k < |path| ==> path[k] != '\\'
    ensures sl >= 0 ==> CString(buf[sl + 1 := '\0']) == HomeOf(path)
    ensures sl < 0 ==> CString(buf) == HomeOf(path)
  {
    if sl >= 0 {
      HomeCut(path, sl);
      var cut := buf[sl + 1 := '\0'];
      assert cut[..sl + 1] == path[..sl + 1] by {
        assert forall k :: 0 <= k < sl + 1 ==> cut[k] == buf[..|path|][k];
      }
      CStringOf(cut, path[..sl + 1]);
    } else {
      CStringOf(buf, path);
    }
  }

  class Scanner {
    var flags: Flags
    var homePath: array<char>
    /** Tokens given to LX_parseArg, in order. */
    ghost var dispatched: seq<string>
    /** What LX_WriteString was given a text of: tokens too long or unknown. */
    var written: seq<string>

    /** LX_parseArg; the result is zero for a known parameter. */
    method ParseArg(arg: string) returns (rc: nat)
      modifies this`flags, this`written, this`dispatched
      ensures rc == 0 <==> Known(arg)
      ensures flags == Switched(old(flags), arg) && dispatched == old(dispatched) + [arg]
      ensures written == old(written) + (if Known(arg) then [] else [arg])
    {
      dispatched := dispatched + [arg];
      var i := 0;
      while i < |PARM_LIST|
        invariant 0 <= i <= |PARM_LIST|
        invariant Matches(arg, 0) == Matches(arg, i)
        invariant flags == old(flags) && written == old(written) && dispatched == old(dispatched) + [arg]
      {
        if PARM_LIST[i] <= arg {
          if i == 0 {
            flags := flags.(breaks := flags.breaks + 1);
          } else if i == 1 {
            flags := flags.(verboseModules := true, verbose := true);
          } else if i == 2 {
            flags := flags.(verbose := true);
          } else {
            flags := flags.(startupCheck := false);
          }
          return 0;
        }
        i := i + 1;
      }
      written := written + [arg];
      rc := 1;
    }

    /** The loop that stores the device path; `sl` is where its last backslash is, if it has one. */
    method StorePath(args: string, from: nat) returns (at: nat)
      requires from <= |args| && '\0' !in args
      requires EndOfRun(args, from) - from < homePath.Length == LX_MAXPATH
      requires forall k :: 0 <= k < homePath.Length ==> homePath[k] == '\0'
      modifies homePath
      ensures at == EndOfRun(args, from)
      ensures CString(homePath[..]) == HomeOf(args[from..at])
    {
      at := from;
      var p := 0;
      var sl: int := -1;
      while at < |args| && args[at] != ' '
        invariant from <= at <= EndOfRun(args, from) && p == at - from
        invariant homePath[..p] == args[from..at]
        invariant forall k :: p <= k < homePath.Length ==> homePath[k] == '\0'
        invariant -1 <= sl < p && (sl >= 0 ==> args[from..at][sl] == '\\')
        invariant forall k :: sl < k < p ==> args[from..at][k] != '\\'
        decreases |args| - at
      {
        homePath[p] := args[at];
        if homePath[p] == '\\' {
          sl := p;
        }
        assert args[from..at + 1] == args[from..at] + [args[at]];
        at := at + 1;
        p := p + 1;
      }
      HomeStored(homePath[..], args[from..at], sl);
      label stored:
      if sl >= 0 {
        sl := sl + 1;
        homePath[sl] := '\0';
        assert homePath[..] == old@stored(homePath[..])[sl := '\0'];
      }
    }

    /** The first loop of LX_parseArgs. */
    method SkipLeading(line: string) returns (args: nat)
      ensures args == SkipBlanks(line, 0)
    {
      args := 0;
      while args < |line| && line[args] == ' '
        invariant 0 <= args <= |line| && SkipBlanks(line, args) == SkipBlanks(line, 0)
      {
        args := args + 1;
      }
    }

    /**
     LX_parseArgs on a command line that the OS has mapped. The home path is the device path up to its last
     backslash, and the tokens dispatched are those of the pieces after it.
     */
    method ParseArgs(line: string)
      requires '\0' !in line && dispatched == []
      requires var b := SkipBlanks(line, 0); EndOfRun(line, b) - b < homePath.Length == LX_MAXPATH
      requires forall k :: 0 <= k < homePath.Length ==> homePath[k] == '\0'
      modifies this`flags, this`written, this`dispatched, homePath
      ensures var b := SkipBlanks(line, 0); var e := EndOfRun(line, b);
          && CString(homePath[..]) == HomeOf(line[b..e])
          && dispatched == DispatchedFrom(line, e)
          && written == old(written) + WrittenFrom(line, e)
          && flags == AllSwitched(old(flags), dispatched)
    {
      var args := SkipLeading(line);
      args := StorePath(line, args);
      ParseTokens(line, args);
    }

    /** The token loop of LX_parseArgs. */
    method ParseTokens(line: string, start: nat)
      requires start <= |line| && dispatched == []
      modifies this`flags, this`written, this`dispatched
      ensures dispatched == DispatchedFrom(line, start)
      ensures written == old(written) + WrittenFrom(line, start)
      ensures flags == AllSwitched(old(flags), dispatched)
    {
      var carg := new char[MAX_PARM_LENGTH];
      var args := start;
      ghost var before, said := flags, written;
      var stop := false;
      while args < |line| && !stop
        invariant start <= args <= |line|
        invariant Scanned(line, start, args, stop, dispatched, said, written)
        invariant flags == AllSwitched(before, dispatched)
        decreases |line| - args, !stop
      {
        var b, e := NextToken(line, args, carg);
        ghost var arg := line[b..e];
        ScannedStep(line, start, args, b, e, dispatched, said, written);
        SwitchedSplit(before, dispatched, TokenOf(arg));
        args := e;
        stop := TakeToken(carg, e - b);
      }
    }

    /** What the loop does with the first `i` characters of the token buffer; the result says whether it stops. */
    method TakeToken(carg: array<char>, i: nat) returns (stop: bool)
      requires i < carg.Length == MAX_PARM_LENGTH
      modifies this`flags, this`written, this`dispatched, carg
      ensures var arg := old(carg[..i]);
          && (stop <==> EndsScan(arg))
          && dispatched == old(dispatched) + TokenOf(arg)
          && written == old(written) + ComplaintOf(arg)
          && flags == AllSwitched(old(flags), TokenOf(arg))
    {
      stop := false;
      if i >= MAX_PARM_LENGTH - 1 {
        carg[MAX_PARM_LENGTH - 1] := '\0';
        written := written + [carg[..i]];
      } else {
        carg[i] := '\0';
        if i != 0 {
          var rc := ParseArg(carg[..i]);
          stop := rc != 0;
        }
      }
    }

    /** Skips blanks and fills the token buffer. */
    method NextToken(line: string, args: nat, carg: array<char>) returns (b: nat, e: nat)
      requires args <= |line| && carg.Length == MAX_PARM_LENGTH
      modifies carg
      ensures b == SkipBlanks(line, args) && e == EndOfPiece(line, b) && carg[..e - b] == line[b..e]
    {
      b := args;
      while b < |line| && line[b] == ' '
        invariant args <= b <= |line| && SkipBlanks(line, b) == SkipBlanks(line, args)
      {
        b := b + 1;
      }
      var i := CopyToken(line, b, carg);
      e := b + i;
    }

    /** The loop that fills the token buffer. */
    method CopyToken(line: string, from: nat, carg: array<char>) returns (i: nat)
      requires from <= |line| && carg.Length == MAX_PARM_LENGTH
      modifies carg
      ensures from + i == EndOfPiece(line, from) && carg[..i] == line[from..from + i]
    {
      i := 0;
      while from + i < |line| && line[from + i] != ' ' && i < MAX_PARM_LENGTH - 1
        invariant 0 <= i <= MAX_PARM_LENGTH - 1 && from + i <= EndOfRun(line, from)
        invariant carg[..i] == line[from..from + i]
      {
        carg[i] := line[from + i];
        i := i + 1;
      }
    }
  }

  /** With `d` dispatched and `w` written, `w0` of it before, the scan that began at `start` stands at `i`, or has stopped. */
  ghost predicate Scanned(s: string, start: nat, i: nat, stop: bool, d: seq<string>, w0: seq<string>, w: seq<string>)
    requires start <= |s| && i <= |s|
  {
    && d + (if stop then [] else DispatchedFrom(s, i)) == DispatchedFrom(s, start)
    && w + (if stop then [] else WrittenFrom(s, i)) == w0 + WrittenFrom(s, start)
  }

  lemma Regroup(a: seq<string>, b: seq<string>, c: seq<string>)
    ensures (a + b) + c == a + (b + c)
  {
  }

  lemma ScannedStep(s: string, start: nat, i: nat, b: nat, e: nat, d: seq<string>, w0: seq<string>, w: seq<string>)
    requires start <= |s| && i < |s| && b == SkipBlanks(s, i) && e == EndOfPiece(s, b) && Scanned(s, start, i, false, d, w0, w)
    ensures i < e <= |s|
    ensures var arg := s[b..e]; Scanned(s, start, e, EndsScan(arg), d + TokenOf(arg), w0, w + ComplaintOf(arg))
  {
    var arg := s[b..e];
    PieceStep(s, i, b, e);
    Regroup(d, TokenOf(arg), if EndsScan(arg) then [] else DispatchedFrom(s, e));
    Regroup(w, ComplaintOf(arg), if EndsScan(arg) then [] else WrittenFrom(s, e));
  }

  /** What one round of the token loop adds to the tokens dispatched and the texts written. */
  lemma PieceStep(s: string, i: nat, b: nat, e: nat)
    requires i < |s| && b == SkipBlanks(s, i) && e == EndOfPiece(s, b)
    ensures i < e
    ensures DispatchedFrom(s, i) == TokenOf(s[b..e]) + (if EndsScan(s[b..e]) then [] else DispatchedFrom(s, e))
    ensures WrittenFrom(s, i) == ComplaintOf(s[b..e]) + (if EndsScan(s[b..e]) then [] else WrittenFrom(s, e))
  {
    PiecesInside(s, e);
    assert Pieces(s, i)[1..] == Pieces(s, e);
  }

  /**
   A run of 255 characters or more is cut: its first 255 characters are written and not dispatched, and scanning
   goes on behind them, so that a shorter rest counts as a token of its own.
   */
  lemma LongRunIsCut(s: string, i: nat, b: nat)
    requires i <= b && b + 255 <= |s|
    requires (forall k :: i <= k < b ==> s[k] == ' ') && (forall k :: b <= k < b + 255 ==> s[k] != ' ')
    ensures DispatchedFrom(s, i) == DispatchedFrom(s, b + 255)
    ensures WrittenFrom(s, i) == [s[b..b + 255]] + WrittenFrom(s, b + 255)
  {
    assert SkipBlanks(s, i) == b by {
      assert s[b] != ' ';
    }
    var e := EndOfRun(s, b);
    assert e >= b + 255;
    assert EndOfPiece(s, b) == b + 255;
    PieceStep(s, i, b, b + 255);
  }

  /** With short runs, nothing is written but the unknown token at which the scan stops. */
  lemma {:induction false} ShortRunsWriteUnknown(s: string, spans: seq<Span>)
    requires forall p :: p in spans ==> p.0 <= p.1 <= |s| && p.1 - p.0 < MAX_PARM_LENGTH - 1
    ensures Complaints(s, spans) == LastUnknown(Dispatched(s, spans))
    decreases |spans|
  {
    if spans != [] {
      ShortRunsWriteUnknown(s, spans[1..]);
      var arg, d := Text(s, spans[0]), Dispatched(s, spans[1..]);
      if EndsScan(arg) {
        assert Dispatched(s, spans) == [arg] && Complaints(s, spans) == [arg];
      } else {
        assert Complaints(s, spans) == Complaints(s, spans[1..]);
        LastUnknownBehind(TokenOf(arg), d);
      }
    }
  }

  lemma LastUnknownBehind(a: seq<string>, d: seq<string>)
    requires |a| <= 1 && forall arg :: arg in a ==> Known(arg)
    ensures LastUnknown(a + d) == LastUnknown(d)
  {
  }

  function LastUnknown(d: seq<string>): seq<string> {
    if d != [] && !Known(d[|d| - 1]) then [d[|d| - 1]] else []
  }

  lemma {:induction false} SwitchedSplit(f: Flags, a: seq<string>, b: seq<string>)
    ensures AllSwitched(f, a + b) == AllSwitched(AllSwitched(f, a), b)
    decreases |a|
  {
    if a == [] {
      assert a + b == b;
    } else {
      assert (a + b)[1..] == a[1..] + b;
      SwitchedSplit(Switched(f, a[0]), a[1..], b);
    }
  }
}
