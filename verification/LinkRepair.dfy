/** Repair of link attributes below a renamed directory, from Daemon/lxapid_cmd.c. */
module LinkRepair {
  import opened Machine

  const LINK_COUNT: string := "LX_LC"
  const LINK_TO: string := "LX_LT"
  const LINKED_BY: string := "LX_LB_%d"
  const LX_MAXPATH: nat := 260

  // ---------------------------------------------------------------- rendering attribute names

  function DigitChar(d: nat): char
    requires d <= 9
  {
    "0123456789"[d]
  }

  /** The decimal digits of a number. */
  function Decimal(n: nat): (r: string)
    ensures r != ""
  {
    if n < 10 then [DigitChar(n)] else Decimal(n / 10) + [DigitChar(n % 10)]
  }

  function Itoa(d: int): string {
    if d < 0 then "-" + Decimal(-d) else Decimal(d)
  }

  /** The format with every %d replaced by the digits `num`. */
  function Render(fmt: string, num: string): string
    decreases |fmt|
  {
    if fmt == "" then ""
    else if |fmt| >= 2 && fmt[0] == '%' && fmt[1] == 'd' then num + Render(fmt[2..], num)
    else [fmt[0]] + Render(fmt[1..], num)
  }

  /** The name of the attribute that holds the `i`th link to a file. */
  function LinkedBy(i: nat): string {
    "LX_LB_" + Decimal(i)
  }

  /** The inner loop of simple_d_sprintf: `tmp` goes to the buffer from position `at` on. */
  method CopyTo(buf: array<char>, at: nat, tmp: string) returns (j: nat)
    requires at + |tmp| < buf.Length
    modifies buf
    ensures j == at + |tmp| && buf[..j] == old(buf[..at]) + tmp
  {
    j := at;
    var c := 0;
    while c < |tmp|
      invariant 0 <= c <= |tmp| && j == at + c
      invariant buf[..at] == old(buf[..at]) && buf[at..j] == tmp[..c]
    {
      buf[j] := tmp[c];
      j := j + 1;
      c := c + 1;
    }
  }

  /** The output so far and the rendering of the rest of the format make up the whole rendering. */
  ghost predicate Written(head: string, fmt: string, i: int, num: string) {
    0 <= i <= |fmt| && head + Render(fmt[i..], num) == Render(fmt, num)
  }

  lemma Associate(a: string, b: string, c: string)
    ensures a + (b + c) == (a + b) + c
  {
  }

  lemma NumberWritten(head: string, fmt: string, i: int, num: string)
    requires Written(head, fmt, i, num) && i + 1 < |fmt| && fmt[i] == '%' && fmt[i + 1] == 'd'
    ensures Written(head + num, fmt, i + 2, num) && |head + num| <= |Render(fmt, num)|
  {
    var f, tail := fmt[i..], Render(fmt[i + 2..], num);
    assert f[2..] == fmt[i + 2..] && f[0] == '%' && f[1] == 'd';
    assert Render(f, num) == num + tail;
    Associate(head, num, tail);
  }

  lemma CharWritten(head: string, fmt: string, i: int, num: string)
    requires Written(head, fmt, i, num) && i < |fmt| && !(i + 1 < |fmt| && fmt[i] == '%' && fmt[i + 1] == 'd')
    ensures Written(head + [fmt[i]], fmt, i + 1, num) && |head + [fmt[i]]| <= |Render(fmt, num)|
  {
    var f, tail := fmt[i..], Render(fmt[i + 1..], num);
    assert f[1..] == fmt[i + 1..] && f[0] == fmt[i];
    assert Render(f, num) == [fmt[i]] + tail;
    Associate(head, [fmt[i]], tail);
  }

  lemma AllWritten(head: string, fmt: string, i: int, num: string)
    requires Written(head, fmt, i, num) && i >= |fmt|
    ensures head == Render(fmt, num) && |head| == |Render(fmt, num)|
  {
    assert fmt[i..] == "" && head + "" == head;
  }

  /** simple_d_sprintf: the rendered format and a terminating null character. */
  method SimpleDSprintf(buf: array<char>, fmt: string, d: int)
    requires |Render(fmt, Itoa(d))| < buf.Length
    modifies buf
    ensures buf[..|Render(fmt, Itoa(d))|] == Render(fmt, Itoa(d)) && buf[|Render(fmt, Itoa(d))|] == '\0'
  {
    var tmp := Itoa(d);
    var i, j := 0, 0;
    while i < |fmt|
      invariant 0 <= j < buf.Length && Written(buf[..j], fmt, i, tmp)
      decreases |fmt| - i
    {
      ghost var head := buf[..j];
      if fmt[i] == '%' && i + 1 < |fmt| && fmt[i + 1] == 'd' {
        NumberWritten(head, fmt, i, tmp);
        j := CopyTo(buf, j, tmp);
        j := j - 1;
        i := i + 1;
      } else {
        CharWritten(head, fmt, i, tmp);
        buf[j] := fmt[i];
        assert buf[..j + 1] == head + [fmt[i]];
      }
      i := i + 1;
      j := j + 1;
    }
    AllWritten(buf[..j], fmt, i, tmp);
    buf[j] := '\0';
  }

  lemma {:induction false} DecimalInjective(m: nat, n: nat)
    requires Decimal(m) == Decimal(n)
    ensures m == n
    decreases m
  {
    var a, b := Decimal(m), Decimal(n);
    if m >= 10 && n >= 10 {
      assert a[..|a| - 1] == Decimal(m / 10) && b[..|b| - 1] == Decimal(n / 10);
      DecimalInjective(m / 10, n / 10);
      DigitsDiffer(m % 10, n % 10);
      assert a[|a| - 1] == b[|b| - 1];
    } else if m < 10 && n < 10 {
      DigitsDiffer(m, n);
      assert a[0] == b[0];
    }
  }

  lemma DigitsDiffer(d: nat, e: nat)
    requires d <= 9 && e <= 9
    ensures DigitChar(d) == DigitChar(e) <==> d == e
  {
  }

  function Pow10(k: nat): nat {
    if k == 0 then 1 else 10 * Pow10(k - 1)
  }

  lemma {:induction false} DecimalLength(n: nat, k: nat)
    requires k > 0 && n < Pow10(k)
    ensures |Decimal(n)| <= k
    decreases k
  {
    if n >= 10 {
      assert Pow10(k) == 10 * Pow10(k - 1) && k > 1;
      DecimalLength(n / 10, k - 1);
    }
  }

  lemma LinkedByIsRendered(i: nat)
    ensures Render(LINKED_BY, Itoa(i)) == LinkedBy(i)
  {
    var num := Itoa(i);
    RenderPlain("LX_", "LB_%d", num);
    RenderPlain("LB_", "%d", num);
    assert "LX_" + "LB_%d" == LINKED_BY && "LB_" + "%d" == "LB_%d";
    assert Render("%d", num) == num + Render("", num);
    Associate("LX_", "LB_", num);
  }

  /** Text without a percent sign is rendered as it is. */
  lemma {:induction false} RenderPlain(a: string, b: string, num: string)
    requires '%' !in a
    ensures Render(a + b, num) == a + Render(b, num)
    decreases |a|
  {
    if a == "" {
      assert a + b == b;
    } else {
      RenderPlain(a[1..], b, num);
      assert (a + b)[1..] == a[1..] + b;
      Associate([a[0]], a[1..], Render(b, num));
      assert [a[0]] + a[1..] == a;
    }
  }

  /** The names of different link attributes differ, and none is the link target's. */
  lemma LinkNamesDiffer(i: nat, j: nat)
    ensures LinkedBy(i) == LinkedBy(j) <==> i == j
    ensures LinkedBy(i) != LINK_TO && LinkedBy(i) != LINK_COUNT
  {
    assert LinkedBy(i)[6..] == Decimal(i) && LinkedBy(j)[6..] == Decimal(j);
    if LinkedBy(i) == LinkedBy(j) {
      DecimalInjective(i, j);
    }
    assert LinkedBy(i)[3] == 'L' && LinkedBy(i)[4] == 'B';
  }

  // ---------------------------------------------------------------- one file's attributes

  type Attrs = map<string, string>

  function DigitValue(c: char): nat {
    if '0' <= c <= '9' then (c - '0') as nat else 0
  }

  /** atoi of a text that starts with decimal digits; `acc` is the value of the digits before. */
  function Atoi(s: string, acc: nat): nat
    decreases |s|
  {
    if s == "" || !('0' <= s[0] <= '9') then acc else Atoi(s[1..], 10 * acc + DigitValue(s[0]))
  }

  function LinkCount(a: Attrs): nat {
    if LINK_COUNT in a then Atoi(a[LINK_COUNT], 0) else 0
  }

  /** A value that starts with the old directory gets the new one instead. */
  function Moved(v: string, newdir: string, olddir: string): string {
    if olddir <= v then newdir + v[|olddir|..] else v
  }

  function Rewritten(a: Attrs, name: string, newdir: string, olddir: string): Attrs {
    if name in a && olddir <= a[name] then a[name := Moved(a[name], newdir, olddir)] else a
  }

  /** The attributes after the names of links `i` down to 1 were rewritten. */
  function LinksRewritten(a: Attrs, i: nat, newdir: string, olddir: string): Attrs
    decreases i
  {
    if i == 0 then a else LinksRewritten(Rewritten(a, LinkedBy(i), newdir, olddir), i - 1, newdir, olddir)
  }

  function Corrected(a: Attrs, newdir: string, olddir: string): Attrs {
    Rewritten(LinksRewritten(a, LinkCount(a), newdir, olddir), LINK_TO, newdir, olddir)
  }

  /** The name is that of one of the links 1 to `i`. */
  ghost predicate Linked(name: string, i: nat) {
    exists j: nat :: 1 <= j <= i && name == LinkedBy(j)
  }

  lemma LinkedStep(name: string, i: nat)
    requires i > 0
    ensures Linked(name, i) <==> Linked(name, i - 1) || name == LinkedBy(i)
    ensures !Linked(LinkedBy(i), i - 1)
  {
    forall j: nat | 1 <= j < i
      ensures LinkedBy(j) != LinkedBy(i)
    {
      LinkNamesDiffer(j, i);
    }
  }

  /** The attributes of a file that hold a path: its link target and the names of its counted links. */
  ghost predicate HoldsPath(a: Attrs, name: string) {
    name == LINK_TO || Linked(name, LinkCount(a))
  }

  lemma {:induction false} LinksRewrittenAt(a: Attrs, i: nat, newdir: string, olddir: string, name: string)
    ensures var a' := LinksRewritten(a, i, newdir, olddir);
        && (name in a' <==> name in a)
        && (name in a ==> a'[name] == if Linked(name, i) then Moved(a[name], newdir, olddir) else a[name])
    decreases i
  {
    if i > 0 {
      LinksRewrittenAt(Rewritten(a, LinkedBy(i), newdir, olddir), i - 1, newdir, olddir, name);
      LinkedStep(name, i);
    }
  }

  /** Every path attribute is rewritten once, from the value it had, and no other attribute changes. */
  lemma CorrectedAt(a: Attrs, newdir: string, olddir: string, name: string)
    ensures var a' := Corrected(a, newdir, olddir);
        && (name in a' <==> name in a)
        && (name in a ==> a'[name] == if HoldsPath(a, name) then Moved(a[name], newdir, olddir) else a[name])
  {
    LinksRewrittenAt(a, LinkCount(a), newdir, olddir, name);
    LinksRewrittenAt(a, LinkCount(a), newdir, olddir, LINK_TO);
    forall j: nat
      ensures LinkedBy(j) != LINK_TO
    {
      LinkNamesDiffer(j, j);
    }
  }

  // ---------------------------------------------------------------- reading the count back

  ghost predicate AllDigits(s: string) {
    forall i :: 0 <= i < |s| ==> '0' <= s[i] <= '9'
  }

  lemma DigitsAreDigits(d: nat)
    requires d <= 9
    ensures DigitChar(d) == '0' + d as char && DigitValue(DigitChar(d)) == d
  {
  }

  lemma {:induction false} DecimalDigits(n: nat)
    ensures AllDigits(Decimal(n))
    decreases n
  {
    DigitsAreDigits(n % 10);
    if n >= 10 {
      DecimalDigits(n / 10);
    }
  }

  /** One more digit at the end is the units of a number ten times as large. */
  lemma {:induction false} AtoiAppend(s: string, d: nat, acc: nat)
    requires AllDigits(s) && d <= 9
    ensures Atoi(s + [DigitChar(d)], acc) == 10 * Atoi(s, acc) + d
    decreases |s|
  {
    DigitsAreDigits(d);
    if s == "" {
      assert s + [DigitChar(d)] == [DigitChar(d)];
      assert Atoi([DigitChar(d)][1..], 10 * acc + d) == 10 * acc + d;
    } else {
      assert (s + [DigitChar(d)])[1..] == s[1..] + [DigitChar(d)];
      AtoiAppend(s[1..], d, 10 * acc + DigitValue(s[0]));
    }
  }

  /** atoi reads back what was written in decimal, for every number. */
  lemma {:induction false} AtoiOfDecimal(n: nat)
    ensures Atoi(Decimal(n), 0) == n
    decreases n
  {
    if n >= 10 {
      DecimalDigits(n / 10);
      AtoiAppend(Decimal(n / 10), n % 10, 0);
      AtoiOfDecimal(n / 10);
    } else {
      AtoiAppend("", n, 0);
      assert "" + [DigitChar(n)] == Decimal(n);
    }
  }

  /** The name of a path attribute of a file with `n` links. */
  ghost predicate IsPathName(name: string, n: nat) {
    name == "LX_LT" || exists j: nat :: 1 <= j <= n && name == "LX_LB_" + Decimal(j)
  }

  /**
   A file whose count attribute says `n` in decimal has exactly its link target and its links 1 to n rewritten,
   each from the value it had.
   */
  lemma CountedLinksCorrected(a: Attrs, n: nat, newdir: string, olddir: string, name: string)
    requires "LX_LC" in a && a["LX_LC"] == Decimal(n)
    ensures LinkCount(a) == n && (HoldsPath(a, name) <==> IsPathName(name, n))
    ensures var a' := Corrected(a, newdir, olddir);
        && (name in a' <==> name in a)
        && (name in a ==> a'[name] == if IsPathName(name, n) then Moved(a[name], newdir, olddir) else a[name])
  {
    AtoiOfDecimal(n);
    CorrectedAt(a, newdir, olddir, name);
    if Linked(name, n) {
      var j: nat :| 1 <= j <= n && name == LinkedBy(j);
      assert name == "LX_LB_" + Decimal(j);
    }
    if j: nat :| 1 <= j <= n && name == "LX_LB_" + Decimal(j) {
      assert name == LinkedBy(j);
    }
  }

  /** A file that counts no links has only its link target rewritten. */
  lemma UncountedLinksStay(a: Attrs, newdir: string, olddir: string, name: string)
    requires "LX_LC" !in a
    ensures var a' := Corrected(a, newdir, olddir);
        name in a ==> name in a' && a'[name] == if name == "LX_LT" then Moved(a[name], newdir, olddir) else a[name]
  {
    CorrectedAt(a, newdir, olddir, name);
  }

  // ---------------------------------------------------------------- the directory walk

  /** A directory listing as DosFindFirst and DosFindNext give it; `inside` is the listing of a subdirectory. */
  datatype Listing = End | Item(name: string, isDir: bool, inside: Listing, next: Listing)

  /** The attributes of every file, by full path. */
  type Files = map<string, Attrs>

  datatype Visit = Visit(path: string, newdir: string, olddir: string)

  predicate Dots(name: string) {
    name == "." || name == ".."
  }

  /** The files that the walk corrects, in order, with the directories it corrects them for. */
  function Visits(l: Listing, newdir: string, olddir: string): seq<Visit>
    decreases l
  {
    match l
    case End => []
    case Item(name, isDir, inside, next) =>
      if Dots(name) then Visits(next, newdir, olddir)
      else (if isDir then Visits(inside, newdir + "/" + name, olddir + "/" + name) else [])
           + [Visit(newdir + "/" + name, newdir, olddir)] + Visits(next, newdir, olddir)
  }

  function CorrectedFile(f: Files, v: Visit): Files {
    if v.path in f then f[v.path := Corrected(f[v.path], v.newdir, v.olddir)] else f
  }

  function AllCorrected(f: Files, visits: seq<Visit>): Files
    decreases |visits|
  {
    if visits == [] then f else AllCorrected(CorrectedFile(f, visits[0]), visits[1..])
  }

  lemma {:induction false} CorrectSplit(f: Files, a: seq<Visit>, b: seq<Visit>)
    ensures AllCorrected(f, a + b) == AllCorrected(AllCorrected(f, a), b)
    decreases |a|
  {
    if a == [] {
      assert a + b == b;
    } else {
      assert (a + b)[1..] == a[1..] + b;
      CorrectSplit(CorrectedFile(f, a[0]), a[1..], b);
    }
  }

  /** One entry of a directory: what lies inside it, then the entry itself, then its later siblings. */
  function CorrectedEntry(f: Files, l: Listing, newdir: string, olddir: string): Files
    requires l.Item?
  {
    if Dots(l.name) then f
    else
      var path := newdir + "/" + l.name;
      var inside := if l.isDir then AllCorrected(f, Visits(l.inside, path, olddir + "/" + l.name)) else f;
      CorrectedFile(inside, Visit(path, newdir, olddir))
  }

  lemma VisitsEntry(f: Files, l: Listing, newdir: string, olddir: string)
    requires l.Item?
    ensures AllCorrected(f, Visits(l, newdir, olddir)) ==
        AllCorrected(CorrectedEntry(f, l, newdir, olddir), Visits(l.next, newdir, olddir))
  {
    if !Dots(l.name) {
      var path := newdir + "/" + l.name;
      var inner := if l.isDir then Visits(l.inside, path, olddir + "/" + l.name) else [];
      var v, next := Visit(path, newdir, olddir), Visits(l.next, newdir, olddir);
      assert Visits(l, newdir, olddir) == inner + ([v] + next);
      CorrectSplit(f, inner, [v] + next);
      assert ([v] + next)[1..] == next;
    }
  }

  class Volume {
    var files: Files

    /** eahWriteStringEA_F on an attribute that starts with the old directory. */
    method RewriteIfBelow(path: string, name: string, newdir: string, olddir: string)
      requires path in files
      modifies this
      ensures files == old(files)[path := Rewritten(old(files)[path], name, newdir, olddir)]
    {
      var attrs := files[path];
      if name in attrs && olddir <= attrs[name] {
        var tmp := attrs[name][|olddir|..];
        attrs := attrs[name := newdir + tmp];
      }
      files := files[path := attrs];
    }

    /** The name that simple_d_sprintf leaves in the buffer, up to its null character. */
    method RenderName(eaname: array<char>, i: nat) returns (name: string)
      requires eaname.Length == LX_MAXPATH && i < 0x8000_0000
      modifies eaname
      ensures name == LinkedBy(i)
    {
      LinkedByIsRendered(i);
      DecimalLength(i, 10);
      SimpleDSprintf(eaname, LINKED_BY, i);
      name := eaname[..|LinkedBy(i)|];
    }

    /** lxafs_correct_linkinfo; a file that cannot be read is left alone. */
    method CorrectLinkInfo(path: string, newdir: string, olddir: string)
      requires path in files ==> LinkCount(files[path]) < 0x8000_0000
      modifies this
      ensures files == CorrectedFile(old(files), Visit(path, newdir, olddir))
    {
      if path !in files {
        return;
      }
      var i := 0;
      if LINK_COUNT in files[path] {
        i := Atoi(files[path][LINK_COUNT], 0);
      }
      ghost var n, a := i, files[path];
      while i != 0
        invariant 0 <= i <= n < 0x8000_0000 && path in files
        invariant files == old(files)[path := files[path]]
        invariant LinksRewritten(files[path], i, newdir, olddir) == LinksRewritten(a, n, newdir, olddir)
      {
        var eaname := new char[LX_MAXPATH];
        var name := RenderName(eaname, i);
        RewriteIfBelow(path, name, newdir, olddir);
        i := i - 1;
      }
      RewriteIfBelow(path, LINK_TO, newdir, olddir);
    }

    /** lxafs_linkinfo_correction. */
    method CorrectBelow(l: Listing, newname: string, oldname: string)
      requires forall p :: p in files ==> LinkCount(files[p]) < 0x8000_0000
      modifies this
      ensures files == AllCorrected(old(files), Visits(l, newname, oldname))
      ensures forall p :: p in files ==> LinkCount(files[p]) < 0x8000_0000
      decreases l
    {
      var rest := l;
      while rest.Item?
        invariant forall p :: p in files ==> LinkCount(files[p]) < 0x8000_0000
        invariant AllCorrected(files, Visits(rest, newname, oldname)) == AllCorrected(old(files), Visits(l, newname, oldname))
        invariant rest == l || rest < l
        decreases rest
      {
        VisitsEntry(files, rest, newname, oldname);
        if !Dots(rest.name) {
          var newnewname, newoldname := newname + "/" + rest.name, oldname + "/" + rest.name;
          if rest.isDir {
            CorrectBelow(rest.inside, newnewname, newoldname);
          }
          CountKept(files, Visit(newnewname, newname, oldname));
          CorrectLinkInfo(newnewname, newname, oldname);
        }
        rest := rest.next;
      }
    }
  }

  /** Correcting a file leaves its link count alone. */
  lemma CountKept(f: Files, v: Visit)
    requires forall p :: p in f ==> LinkCount(f[p]) < 0x8000_0000
    ensures forall p :: p in CorrectedFile(f, v) ==> LinkCount(CorrectedFile(f, v)[p]) < 0x8000_0000
  {
    if v.path in f {
      CorrectedAt(f[v.path], v.newdir, v.olddir, LINK_COUNT);
      forall i: nat
        ensures LinkedBy(i) != LINK_COUNT
      {
        LinkNamesDiffer(i, i);
      }
    }
  }
}
