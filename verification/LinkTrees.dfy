/** Whole trees: what the directory walk of Daemon/lxapid_cmd.c does to every file below a renamed directory. */
module LinkTrees {
  import opened Machine
  import opened LinkRepair

  /** An entry that stands for the directory itself or for the one above it. */
  predicate NotBelow(name: string) {
    name in {".", ".."}
  }

  /** The names a directory listing shows besides its dots. */
  function Names(l: Listing): set<string> {
    match l
    case End => {}
    case Item(name, _, _, next) => (if NotBelow(name) then {} else {name}) + Names(next)
  }

  /** A tree as a file system has it: names without separators, different within a directory. */
  ghost predicate WellNamed(l: Listing) {
    match l
    case End => true
    case Item(name, isDir, inside, next) =>
      && (!NotBelow(name) ==> '/' !in name && name !in Names(next) && (isDir ==> WellNamed(inside)))
      && WellNamed(next)
  }

  /** The tree has a node at the end of the path `comps` of names. */
  ghost predicate NodeAt(l: Listing, comps: seq<string>)
    requires comps != []
    decreases l
  {
    match l
    case End => false
    case Item(name, isDir, inside, next) =>
      || (!NotBelow(name) && name == comps[0] && (|comps| == 1 || (isDir && NodeAt(inside, comps[1..]))))
      || NodeAt(next, comps)
  }

  function Join(dir: string, comps: seq<string>): string
    decreases |comps|
  {
    if comps == [] then dir else Join(dir + "/" + comps[0], comps[1..])
  }

  function Parent(comps: seq<string>): seq<string>
    requires comps != []
  {
    comps[..|comps| - 1]
  }

  /** The visit that a node at `comps` is due. */
  function VisitFor(comps: seq<string>, newdir: string, olddir: string): Visit
    requires comps != []
  {
    Visit(Join(newdir, comps), Join(newdir, Parent(comps)), Join(olddir, Parent(comps)))
  }

  lemma VisitForInside(comps: seq<string>, newdir: string, olddir: string)
    requires |comps| > 1
    ensures VisitFor(comps, newdir, olddir) == VisitFor(comps[1..], newdir + "/" + comps[0], olddir + "/" + comps[0])
  {
    assert Parent(comps)[1..] == Parent(comps[1..]) && Parent(comps)[0] == comps[0];
  }

  /** Every node below the root is visited, for the new and the old name of the directory it is in. */
  lemma {:induction false} NodesAreVisited(l: Listing, comps: seq<string>, newdir: string, olddir: string)
    requires comps != [] && NodeAt(l, comps)
    ensures VisitFor(comps, newdir, olddir) in Visits(l, newdir, olddir)
    decreases l
  {
    if NodeAt(l.next, comps) {
      NodesAreVisited(l.next, comps, newdir, olddir);
    } else if |comps| > 1 {
      NodesAreVisited(l.inside, comps[1..], newdir + "/" + l.name, olddir + "/" + l.name);
      VisitForInside(comps, newdir, olddir);
    } else {
      assert comps == [l.name] && Parent(comps) == [];
      assert Join(newdir, comps) == Join(newdir + "/" + l.name, []);
    }
  }

  /** Every visit is the visit of a node. */
  lemma {:induction false} VisitsAreNodes(l: Listing, v: Visit, newdir: string, olddir: string) returns (comps: seq<string>)
    requires v in Visits(l, newdir, olddir)
    ensures comps != [] && NodeAt(l, comps) && v == VisitFor(comps, newdir, olddir)
    decreases l
  {
    if v in Visits(l.next, newdir, olddir) {
      comps := VisitsAreNodes(l.next, v, newdir, olddir);
    } else if l.isDir && v in Visits(l.inside, newdir + "/" + l.name, olddir + "/" + l.name) {
      var rest := VisitsAreNodes(l.inside, v, newdir + "/" + l.name, olddir + "/" + l.name);
      comps := [l.name] + rest;
      assert comps[1..] == rest;
      VisitForInside(comps, newdir, olddir);
    } else {
      comps := [l.name];
      assert Parent(comps) == [] && comps[1..] == [];
      assert Join(newdir, comps) == Join(newdir + "/" + l.name, []);
    }
  }

  // ---------------------------------------------------------------- different nodes have different paths

  /** The text up to the first separator. */
  function Head(s: string): string {
    if s == "" || s[0] == '/' then "" else [s[0]] + Head(s[1..])
  }

  lemma {:induction false} HeadOf(name: string, rest: string)
    requires '/' !in name && (rest == "" || rest[0] == '/')
    ensures Head(name + rest) == name
    decreases |name|
  {
    if name == "" {
      assert name + rest == rest;
    } else {
      assert (name + rest)[1..] == name[1..] + rest && [name[0]] + name[1..] == name;
      HeadOf(name[1..], rest);
    }
  }

  /** The path lies in `dir`, in or at an entry with one of the names. */
  ghost predicate Below(path: string, dir: string, names: set<string>) {
    |dir| < |path| && path[..|dir| + 1] == dir + "/" && Head(path[|dir| + 1..]) in names
  }

  lemma BelowInside(path: string, dir: string, name: string, names: set<string>)
    requires Below(path, dir + "/" + name, names) && '/' !in name
    ensures Below(path, dir, {name}) && |path| > |dir + "/" + name|
  {
    var sub := dir + "/" + name;
    var rest := path[|sub|..];
    assert path[..|sub| + 1] == sub + "/";
    assert rest[0] == path[..|sub| + 1][|sub|] == '/';
    assert path[..|sub|] == (sub + "/")[..|sub|] == sub;
    assert path == sub + rest;
    assert path[|dir| + 1..] == name + rest;
    assert path[..|dir| + 1] == sub[..|dir| + 1] == dir + "/";
    HeadOf(name, rest);
  }

  lemma BelowSelf(dir: string, name: string)
    requires '/' !in name
    ensures Below(dir + "/" + name, dir, {name})
  {
    var path := dir + "/" + name;
    assert path[|dir| + 1..] == name && name + "" == name;
    HeadOf(name, "");
  }

  lemma {:induction false} VisitsBelow(l: Listing, newdir: string, olddir: string)
    requires WellNamed(l)
    ensures forall v :: v in Visits(l, newdir, olddir) ==> Below(v.path, newdir, Names(l))
    decreases l
  {
    if l.Item? {
      VisitsBelow(l.next, newdir, olddir);
      if !Dots(l.name) {
        ItemBelow(l, newdir, olddir);
      }
    }
  }

  /** The visits at and inside one entry of a listing. */
  function ItemVisits(l: Listing, newdir: string, olddir: string): seq<Visit>
    requires l.Item?
  {
    (if l.isDir then Visits(l.inside, newdir + "/" + l.name, olddir + "/" + l.name) else [])
    + [Visit(newdir + "/" + l.name, newdir, olddir)]
  }

  lemma ItemBelow(l: Listing, newdir: string, olddir: string)
    requires l.Item? && !Dots(l.name) && WellNamed(l)
    ensures forall v :: v in ItemVisits(l, newdir, olddir) ==> Below(v.path, newdir, {l.name})
    ensures l.isDir ==> forall v :: v in Visits(l.inside, newdir + "/" + l.name, olddir + "/" + l.name) ==>
        |v.path| > |newdir + "/" + l.name|
    decreases l, 0
  {
    BelowSelf(newdir, l.name);
    if l.isDir {
      VisitsBelow(l.inside, newdir + "/" + l.name, olddir + "/" + l.name);
      forall v | v in Visits(l.inside, newdir + "/" + l.name, olddir + "/" + l.name)
        ensures Below(v.path, newdir, {l.name}) && |v.path| > |newdir + "/" + l.name|
      {
        BelowInside(v.path, newdir, l.name, Names(l.inside));
      }
    }
  }

  ghost predicate DifferentPaths(visits: seq<Visit>) {
    forall i, j :: 0 <= i < j < |visits| ==> visits[i].path != visits[j].path
  }

  lemma DifferentAppend(a: seq<Visit>, b: seq<Visit>)
    requires DifferentPaths(a) && DifferentPaths(b)
    requires forall v, w :: v in a && w in b ==> v.path != w.path
    ensures DifferentPaths(a + b)
  {
    var c := a + b;
    forall i, j | 0 <= i < j < |c|
      ensures c[i].path != c[j].path
    {
      if i < |a| <= j {
        assert a[i] in a && b[j - |a|] in b;
      }
    }
  }

  /** No file is visited twice. */
  lemma {:induction false} VisitedOnce(l: Listing, newdir: string, olddir: string)
    requires WellNamed(l)
    ensures DifferentPaths(Visits(l, newdir, olddir))
    decreases l
  {
    if l.Item? {
      VisitedOnce(l.next, newdir, olddir);
      if !Dots(l.name) {
        ItemBelow(l, newdir, olddir);
        VisitsBelow(l.next, newdir, olddir);
        var self := Visit(newdir + "/" + l.name, newdir, olddir);
        if l.isDir {
          var inner := Visits(l.inside, newdir + "/" + l.name, olddir + "/" + l.name);
          VisitedOnce(l.inside, newdir + "/" + l.name, olddir + "/" + l.name);
          DifferentAppend(inner, [self]);
        }
        var here, after := ItemVisits(l, newdir, olddir), Visits(l.next, newdir, olddir);
        forall v, w | v in here && w in after
          ensures v.path != w.path
        {
          assert Below(v.path, newdir, {l.name}) && Below(w.path, newdir, Names(l.next));
        }
        DifferentAppend(here, after);
        assert Visits(l, newdir, olddir) == here + after;
      }
    }
  }

  // ---------------------------------------------------------------- the promise

  /** Correcting files at different paths changes each as if it were the only one, and no other file. */
  lemma {:induction false} CorrectedEach(f: Files, visits: seq<Visit>, path: string)
    requires DifferentPaths(visits)
    ensures var f' := AllCorrected(f, visits);
        && (path in f' <==> path in f)
        && (path in f ==>
              (forall v :: v in visits && v.path == path ==> f'[path] == Corrected(f[path], v.newdir, v.olddir))
              && ((forall v :: v in visits ==> v.path != path) ==> f'[path] == f[path]))
    decreases |visits|
  {
    if visits != [] {
      var rest := visits[1..];
      assert forall i, j :: 0 <= i < j < |rest| ==> rest[i] == visits[i + 1] && rest[j] == visits[j + 1];
      CorrectedEach(CorrectedFile(f, visits[0]), rest, path);
      forall v | v in rest
        ensures v.path != visits[0].path
      {
        var i :| 0 <= i < |rest| && rest[i] == v;
        assert visits[i + 1] == v;
      }
      assert visits == [visits[0]] + rest;
    }
  }

  /**
   The repair of a whole tree: at every node below the root, every attribute that holds a path has the old
   name of the node's directory in front replaced by the new one, once; other attributes keep their values.
   */
  lemma WholeTreeRepaired(f: Files, l: Listing, newname: string, oldname: string, comps: seq<string>, name: string)
    requires WellNamed(l) && comps != [] && NodeAt(l, comps)
    requires var path := Join(newname, comps); path in f && name in f[path]
    ensures var path := Join(newname, comps);
        var f' := AllCorrected(f, Visits(l, newname, oldname));
        && path in f' && name in f'[path]
        && f'[path][name] ==
             if HoldsPath(f[path], name) then Moved(f[path][name], Join(newname, Parent(comps)), Join(oldname, Parent(comps)))
             else f[path][name]
  {
    var v := VisitFor(comps, newname, oldname);
    NodesAreVisited(l, comps, newname, oldname);
    VisitedOnce(l, newname, oldname);
    CorrectedEach(f, Visits(l, newname, oldname), v.path);
    CorrectedAt(f[v.path], v.newdir, v.olddir, name);
  }

  /** The same with the attributes by name: at a node that counts `n` links these are LX_LT and LX_LB_1 to LX_LB_n. */
  lemma WholeTreeByName(f: Files, l: Listing, newname: string, oldname: string, comps: seq<string>, name: string, n: nat)
    requires WellNamed(l) && comps != [] && NodeAt(l, comps)
    requires var path := Join(newname, comps);
        path in f && name in f[path] && "LX_LC" in f[path] && f[path]["LX_LC"] == Decimal(n)
    ensures var path := Join(newname, comps);
        var f' := AllCorrected(f, Visits(l, newname, oldname));
        && path in f' && name in f'[path]
        && f'[path][name] ==
             if IsPathName(name, n) then Moved(f[path][name], Join(newname, Parent(comps)), Join(oldname, Parent(comps)))
             else f[path][name]
  {
    WholeTreeRepaired(f, l, newname, oldname, comps, name);
    CountedLinksCorrected(f[Join(newname, comps)], n, newname, oldname, name);
  }

  /** A file that is no node of the tree keeps its attributes. */
  lemma OthersUntouched(f: Files, l: Listing, newname: string, oldname: string, path: string)
    requires WellNamed(l) && path in f
    requires forall comps :: comps != [] && NodeAt(l, comps) ==> Join(newname, comps) != path
    ensures var f' := AllCorrected(f, Visits(l, newname, oldname)); path in f' && f'[path] == f[path]
  {
    VisitedOnce(l, newname, oldname);
    forall v | v in Visits(l, newname, oldname)
      ensures v.path != path
    {
      var comps := VisitsAreNodes(l, v, newname, oldname);
    }
    CorrectedEach(f, Visits(l, newname, oldname), path);
  }

  // ---------------------------------------------------------------- when the repaired value is the right path

  /** The path is `root` itself or lies below it. */
  predicate Under(path: string, root: string) {
    root <= path && (|path| == |root| || path[|root|] == '/')
  }

  /** Where a path leads after the directory `oldname` has become `newname`. */
  function Renamed(path: string, newname: string, oldname: string): string {
    if Under(path, oldname) then newname + path[|oldname|..] else path
  }

  /** The names of a path below a directory add the same text to every name of that directory. */
  lemma {:induction false} JoinTail(dir: string, comps: seq<string>)
    ensures Join(dir, comps) == dir + Join("", comps)
    ensures comps != [] ==> Join("", comps) != "" && Join("", comps)[0] == '/'
    decreases |comps|
  {
    if comps == [] {
      assert dir + "" == dir;
    } else {
      var step := "/" + comps[0];
      assert "" + "/" + comps[0] == step && dir + "/" + comps[0] == dir + step;
      JoinTail(dir + step, comps[1..]);
      JoinTail(step, comps[1..]);
      assert dir + step + Join("", comps[1..]) == dir + (step + Join("", comps[1..]));
    }
  }

  lemma PrefixCancels(a: string, b: string, c: string)
    requires a + c == b + c
    ensures a == b
  {
    assert |a| == |b| && (a + c)[..|a|] == a && (b + c)[..|b|] == b;
  }

  /** The two replacements on one value: `tail` leads from the renamed directory to the one the node is in. */
  lemma MovedIsRenamed(v: string, newname: string, oldname: string, tail: string)
    requires newname != oldname && (tail != "" ==> tail[0] == '/')
    ensures Moved(v, newname + tail, oldname + tail) == Renamed(v, newname, oldname)
            <==> (Under(v, oldname) <==> oldname + tail <= v)
  {
    var olddir, newdir := oldname + tail, newname + tail;
    if olddir <= v {
      var rest := v[|olddir|..];
      assert v == oldname + (tail + rest) && v[|oldname|..] == tail + rest;
      assert newdir + rest == newname + (tail + rest);
      if newname + (tail + rest) == oldname + (tail + rest) {
        PrefixCancels(newname, oldname, tail + rest);
      }
    } else if Under(v, oldname) {
      var rest := v[|oldname|..];
      assert v == oldname + rest;
      if newname + rest == oldname + rest {
        PrefixCancels(newname, oldname, rest);
      }
    }
  }

  /**
   When the repair is right. After renaming `oldname`, a path attribute of a node ends up as the path its
   target has now if and only if the target lies below the renamed directory exactly when its text starts
   with the old name of the node's own directory.
   */
  lemma RepairIsRightExactly(f: Files, l: Listing, newname: string, oldname: string, comps: seq<string>, name: string)
    requires WellNamed(l) && comps != [] && NodeAt(l, comps) && newname != oldname
    requires var path := Join(newname, comps); path in f && name in f[path] && HoldsPath(f[path], name)
    ensures var path := Join(newname, comps);
        var f' := AllCorrected(f, Visits(l, newname, oldname));
        && path in f' && name in f'[path]
        && (f'[path][name] == Renamed(f[path][name], newname, oldname)
            <==> (Under(f[path][name], oldname) <==> Join(oldname, Parent(comps)) <= f[path][name]))
  {
    WholeTreeRepaired(f, l, newname, oldname, comps, name);
    JoinTail(newname, Parent(comps));
    JoinTail(oldname, Parent(comps));
    MovedIsRenamed(f[Join(newname, comps)][name], newname, oldname, Join("", Parent(comps)));
  }

  /** In particular it is right for every target in the node's own directory, and for every one outside the tree whose text tells. */
  lemma RepairIsRightNearby(v: string, newname: string, oldname: string, comps: seq<string>)
    requires comps != [] && newname != oldname
    requires Under(v, Join(oldname, Parent(comps))) || !(oldname <= v)
    ensures Moved(v, Join(newname, Parent(comps)), Join(oldname, Parent(comps))) == Renamed(v, newname, oldname)
  {
    var tail := Join("", Parent(comps));
    JoinTail(newname, Parent(comps));
    JoinTail(oldname, Parent(comps));
    MovedIsRenamed(v, newname, oldname, tail);
    if oldname + tail <= v {
      assert oldname <= v;
      assert tail != "" ==> v[|oldname|] == (oldname + tail)[|oldname|] == '/';
    }
  }

  /** The two ways it goes wrong: a sibling whose name goes on after the old one, and a link across two subdirectories. */
  lemma RepairGoesWrong()
    ensures Moved("/a/foobar/x", "/a/new", "/a/foo") == "/a/newbar/x" && Renamed("/a/foobar/x", "/a/new", "/a/foo") == "/a/foobar/x"
    ensures Moved("/a/foo/q/x", "/a/new/p", "/a/foo/p") == "/a/foo/q/x" && Renamed("/a/foo/q/x", "/a/new", "/a/foo") == "/a/new/q/x"
  {
    assert "/a/foobar/x"[..6] == "/a/foo" && "/a/foobar/x"[6..] == "bar/x";
    assert "/a/foo/q/x"[..6] == "/a/foo" && "/a/foo/q/x"[6..] == "/q/x";
    assert "/a/foo/q/x"[7] == 'q' && "/a/foo/p"[7] == 'p';
  }
}
