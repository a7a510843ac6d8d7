/**
 Directory views inferred from file paths: `_traverse` and `find` (plenith/orchestrator.py) and
 `list_directory_typed` (plenith/vfs.py).

 The filesystem stores files only. `paths` is the key sequence of its live snapshot, in whatever
 order the dict yields; directories are the ancestors of those paths.
 */
module Traverse {
  import Paths

  /** A root without trailing slashes, unless it is nothing but slashes. Canonicalising a path
      without backslashes gives one; a trailing backslash leaves a trailing slash behind. */
  predicate Root(canon: string) {
    canon == "/" || canon == "//" || canon == "" || canon[|canon| - 1] != '/'
  }

  /** All the traversal asks of its root, which every absolute path meets. From a relative path with
      a trailing slash the source's parent walk would not end. */
  predicate Rooted(canon: string) {
    Paths.Absolute(canon) || Root(canon)
  }

  /** Every canonical path is a root. */
  lemma CanonicalRoot(canon: string)
    requires Paths.Canonical(canon)
    ensures Root(canon)
  {
    hide Paths.Split, Paths.Join, Paths.Walk, Paths.Stack;
    Paths.RootStrips();
    var stack := Paths.Stack(canon);
    if stack == [] {
      assert canon == "/" || canon == "//";
    } else {
      JoinEnds(stack);
      assert canon[|canon| - 1] == Paths.Join(stack)[|Paths.Join(stack)| - 1];
    }
  }

  lemma {:induction false} JoinEnds(stack: seq<string>)
    requires stack != [] && Paths.AllProper(stack)
    ensures Paths.Join(stack) != "" && Paths.Join(stack)[|Paths.Join(stack)| - 1] != '/'
  {
    if |stack| == 1 {
      assert stack[0][|stack[0]| - 1] in stack[0];
    } else {
      JoinEnds(stack[1..]);
    }
  }

  /** The root without its trailing slashes; "" for "/" and "//". */
  function Stem(canon: string): string {
    Paths.StripRight(canon)
  }

  predicate Under(canon: string, path: string) {
    path == canon || Stem(canon) + "/" <= path
  }

  /** The position of the last slash, or the length when there is none. */
  function LastSlash(s: string): (k: nat)
    ensures k <= |s| && (k < |s| ==> s[k] == '/')
    ensures forall i :: 0 <= i < |s| && (k < i || k == |s|) ==> s[i] != '/'
  {
    if s == "" then 0
    else if s[|s| - 1] == '/' then |s| - 1
    else
      var k := LastSlash(s[..|s| - 1]);
      if k == |s| - 1 then |s| else k
  }

  /** `path.rsplit("/", 1)[0]`. */
  function ParentOf(path: string): string {
    path[..LastSlash(path)]
  }

  /** `path.rsplit("/", 1)[-1]`. */
  function NameOf(path: string): string {
    if LastSlash(path) == |path| then path else path[LastSlash(path) + 1..]
  }

  /** The name is what follows the last slash, and the parent what precedes it. */
  lemma LastSlashSplits(path: string)
    ensures '/' !in NameOf(path)
    ensures path == if '/' in path then ParentOf(path) + "/" + NameOf(path) else NameOf(path)
    ensures '/' !in path ==> ParentOf(path) == path
  {
    hide LastSlash;
    var k := LastSlash(path);
    if k < |path| { assert path == path[..k] + [path[k]] + path[k + 1..]; }
  }

  /** `x` is a proper ancestor of `path`, as text. */
  predicate Cut(x: string, path: string) {
    x <= path && |x| < |path| && path[|x|] == '/'
  }

  /** The walk up from `path` reports `dir`: a proper ancestor no shorter than the root's stem, met
      before the root itself is. */
  ghost predicate Walked(canon: string, dir: string, path: string) {
    && Under(canon, path) && Cut(dir, path) && dir != "" && Stem(canon) <= dir && dir != canon
    && !(Cut(canon, path) && |dir| < |canon|)
  }

  /** `dir` is a proper ancestor of `path` strictly below the root. */
  ghost predicate Between(canon: string, dir: string, path: string) {
    Cut(dir, path) && |Stem(canon)| < |dir| && dir != canon && Stem(canon) + "/" <= path
  }

  ghost predicate IsFile(canon: string, paths: seq<string>, path: string) {
    path in paths && Under(canon, path)
  }

  ghost predicate IsDir(canon: string, paths: seq<string>, dir: string) {
    exists path :: path in paths && Walked(canon, dir, path)
  }

  lemma StemOfRoot(canon: string)
    requires Root(canon)
    ensures Stem(canon) == if canon == "/" || canon == "//" then "" else canon
  {
    Paths.RootStrips();
    Paths.StripSlashes();
  }

  /** The stem is the root with nothing but slashes cut off. */
  lemma {:induction false} StemTail(s: string)
    ensures Paths.StripRight(s) <= s && forall i :: |Paths.StripRight(s)| <= i < |s| ==> s[i] == '/'
    ensures Paths.StripRight(s) != "" ==> Paths.StripRight(s)[0] == s[0]
  {
    if s != "" && s[|s| - 1] == '/' {
      StemTail(s[..|s| - 1]);
    }
  }

  /** For a root without trailing slashes the walk reports exactly the proper ancestors strictly
      below it. */
  lemma WalkedBelow(canon: string, dir: string, path: string)
    requires Root(canon) && (canon == "//" ==> !("///" <= path))
    ensures Walked(canon, dir, path) <==> Between(canon, dir, path)
  {
    hide Paths.StripRight;
    StemOfRoot(canon);
    var stem := Stem(canon);
    if Cut(dir, path) {
      if stem <= path && |stem| <= |dir| { assert stem <= dir; }
      if stem + "/" <= path { assert path[|stem|] == '/' && path[..|stem|] == stem; }
    }
  }

  /** Of a root with trailing slashes, the walk reports the root itself, spelled without them. */
  lemma SlashedRootReported(canon: string, name: string)
    requires Stem(canon) != "" && canon[|canon| - 1] == '/' && name != "" && name[0] != '/'
    ensures var path := Stem(canon) + "/" + name;
      Walked(canon, Stem(canon), path) && !Between(canon, Stem(canon), path)
  {
    hide Paths.StripRight;
    var stem := Stem(canon);
    StemTail(canon);
    Paths.StripRightText(canon);
    var path := stem + "/" + name;
    assert stem + "/" <= path && path[..|stem|] == stem && path[|stem|] == '/';
    assert path[|stem| + 1] == name[0];
  }

  /** When the walk reports exactly the proper ancestors strictly below the root: over the keys that
      can be there without backslashes, exactly for roots without trailing slashes, or out of
      reach of such keys; over any keys at all, `//` drops out. */
  lemma WalkedBelowIff(canon: string)
    ensures Root(canon) || "///" <= canon <==>
      forall dir, path :: !("///" <= path) ==> (Walked(canon, dir, path) <==> Between(canon, dir, path))
    ensures Root(canon) && canon != "//" <==>
      forall dir, path :: Walked(canon, dir, path) <==> Between(canon, dir, path)
  {
    hide Root, Walked, Between, Paths.StripRight;
    if Root(canon) {
      forall dir, path | canon == "//" ==> !("///" <= path)
        ensures Walked(canon, dir, path) <==> Between(canon, dir, path)
      {
        WalkedBelow(canon, dir, path);
      }
      if canon == "//" { DoubleRootMisses(); }
    } else if Stem(canon) == "" {
      SlashesOnly(canon);
    } else {
      TrailingMisses(canon);
    }
  }

  lemma DoubleRootMisses()
    ensures Between("//", "/", "///x") && !Walked("//", "/", "///x")
  {
    Paths.StripSlashes();
    assert "///x"[..1] == "/" && "///x"[..2] == "//";
  }

  /** A root of three slashes or more is above no key that begins with fewer. */
  lemma SlashesOnly(canon: string)
    requires !Root(canon) && Stem(canon) == ""
    ensures "///" <= canon
    ensures forall dir, path :: !("///" <= path) ==> (Walked(canon, dir, path) <==> Between(canon, dir, path))
    ensures exists dir, path :: Between(canon, dir, path) && !Walked(canon, dir, path)
  {
    hide Paths.StripRight;
    StemTail(canon);
    var dir, path := "/", canon + "/";
    assert |canon| == 1 ==> canon == "/";
    assert |canon| == 2 ==> canon == "//";
    assert Cut(canon, path) && path[..1] == dir && path[1] == '/';
    assert Between(canon, dir, path) && !Walked(canon, dir, path);
  }

  lemma TrailingMisses(canon: string)
    requires !Root(canon) && Stem(canon) != ""
    ensures exists dir, path :: Walked(canon, dir, path) && !Between(canon, dir, path)
    ensures "///" <= canon <==>
      forall dir, path :: !("///" <= path) ==> (Walked(canon, dir, path) <==> Between(canon, dir, path))
  {
    hide Paths.StripRight, Between, Walked;
    var stem := Stem(canon);
    StemTail(canon);
    Paths.StripRightText(canon);
    SlashedRootReported(canon, "x");
    var path := stem + "/" + "x";
    assert Walked(canon, stem, path) && !Between(canon, stem, path);
    assert stem + "/" <= canon by { assert canon[|stem|] == '/' && canon[..|stem|] == stem; }
    OutOfReach(canon);
    assert "///" <= path ==> "///" <= stem by {
      if "///" <= path { ThreeSlashes(stem, "x"); }
    }
  }

  /** A stem that is not all slashes begins with three only if its text does. */
  lemma ThreeSlashes(stem: string, name: string)
    requires stem != "" && stem[|stem| - 1] != '/' && "///" <= stem + "/" + name
    ensures "///" <= stem
  {
    var path := stem + "/" + name;
    assert forall i :: 0 <= i < |stem| ==> path[i] == stem[i];
    assert path[0] == '/' && path[1] == '/' && path[2] == '/';
  }

  lemma OutOfReach(canon: string)
    requires Stem(canon) != "" && !Root(canon)
    ensures "///" <= canon ==>
      forall dir, path :: !("///" <= path) ==> !Walked(canon, dir, path) && !Between(canon, dir, path)
  {
    hide Paths.StripRight;
    StemTail(canon);
    Paths.StripRightText(canon);
    var stem := Stem(canon);
    assert |stem| <= 3 ==> stem[|stem| - 1] == canon[|stem| - 1];
    assert "///" <= canon ==> "///" <= stem;
    forall dir, path | Walked(canon, dir, path) || Between(canon, dir, path) ensures stem <= path {
      assert stem <= stem + "/" && stem <= canon;
    }
  }

  // ---- Roots as `_canon` gives them --------------------------------------------------------------

  /** The last component of a resolved path ends in a backslash, and is not a lone one below a single
      leading slash. */
  predicate EndsInBackslash(resolved: string) {
    var stack := Paths.Stack(resolved);
    && stack != []
    && !(Paths.Lead(resolved) == "/" && stack == ["\\"])
    && stack[|stack| - 1] != "" && stack[|stack| - 1][|stack[|stack| - 1]| - 1] == '\\'
  }

  lemma JoinLastChar(stack: seq<string>)
    requires stack != [] && Paths.AllProper(stack)
    ensures var joined, last := Paths.Join(stack), stack[|stack| - 1];
      joined != "" && last != "" && joined[|joined| - 1] == last[|last| - 1] && joined[|joined| - 1] != '/'
    ensures Paths.Join(stack) == "\\" <==> stack == ["\\"]
  {
    hide Paths.Join;
    var front, last := stack[..|stack| - 1], stack[|stack| - 1];
    assert Paths.Proper(last) && last[|last| - 1] in last;
    assert stack == front + [last];
    Paths.JoinLast(front, last);
    if front == [] {
      assert stack == [last] && Paths.Head(front) + last == last;
    }
  }

  lemma EmptyRoot(lead: string)
    requires lead == "/" || lead == "//"
    ensures Root(lead + Paths.Replace(Paths.Join([])))
  {
    Paths.RootStrips();
    assert lead + "" == lead;
  }

  lemma ReplacedEnd(lead: string, joined: string)
    requires (lead == "/" || lead == "//") && joined != "" && joined[|joined| - 1] != '/'
    ensures Root(lead + Paths.Replace(joined)) <==>
      joined[|joined| - 1] != '\\' || (lead == "/" && joined == "\\")
  {
    var canon := lead + Paths.Replace(joined);
    assert |canon| == |lead| + |joined| && canon[|canon| - 1] == Paths.Replace(joined)[|joined| - 1];
  }

  /** A canonicalised path has trailing slashes exactly when its last component ended in a backslash. */
  lemma CanonRootIff(path: string, cwd: string, home: string)
    requires path != "" && Paths.Absolute(Paths.Resolve(path, cwd, home))
    ensures Root(Paths.Canon(path, cwd, home)) <==> !EndsInBackslash(Paths.Resolve(path, cwd, home))
  {
    hide Paths.Split, Paths.Join, Paths.Walk, Paths.Stack, Paths.Lead, Paths.Resolve, Paths.Replace;
    hide Paths.Absolute, Paths.AllProper, Root;
    var resolved, canon := Paths.Resolve(path, cwd, home), Paths.Canon(path, cwd, home);
    var lead, stack := Paths.Lead(resolved), Paths.Stack(resolved);
    var joined := Paths.Join(stack);
    Paths.LeadNonEmpty(resolved);
    Paths.StackProper(resolved);
    Paths.ReplaceParts(lead, joined);
    assert canon == lead + Paths.Replace(joined);
    if stack == [] {
      EmptyRoot(lead);
    } else {
      JoinLastChar(stack);
      ReplacedEnd(lead, joined);
    }
  }

  /** Which paths make the traversal report more than what lies strictly below: exactly those whose
      last component ends in a backslash. */
  lemma TraversedBelowIff(path: string, cwd: string, home: string)
    requires path != "" && Paths.Absolute(Paths.Resolve(path, cwd, home))
    ensures var canon := Paths.Canon(path, cwd, home);
      !EndsInBackslash(Paths.Resolve(path, cwd, home)) || "///" <= canon <==>
      forall dir, key :: !("///" <= key) ==> (Walked(canon, dir, key) <==> Between(canon, dir, key))
  {
    hide *;
    CanonRootIff(path, cwd, home);
    WalkedBelowIff(Paths.Canon(path, cwd, home));
  }

  /** The input: `/name\`, of which `/name` is reported although it is the root. */
  lemma BackslashRootReported(name: string, file: string, cwd: string, home: string)
    requires Paths.Proper(name) && '\\' !in name && file != "" && file[0] != '/'
    ensures var canon := Paths.Canon("/" + name + "\\", cwd, home);
      canon == "/" + name + "/" && IsDir(canon, ["/" + name + "/" + file], "/" + name)
  {
    hide Walked, Between, Paths.StripRight, Paths.Canon;
    Paths.TrailingBackslash(name, cwd, home);
    var canon := "/" + name + "/";
    assert canon[..|canon| - 1] == "/" + name;
    StemOfNamed(name);
    SlashedRootReported(canon, file);
    var path := "/" + name + "/" + file;
    assert path in [path];
  }

  lemma StemOfNamed(name: string)
    requires Paths.Proper(name)
    ensures Stem("/" + name + "/") == "/" + name
  {
    var canon := "/" + name + "/";
    var stem := "/" + name;
    assert canon == stem + "/" && canon[..|canon| - 1] == stem;
    assert stem[|stem| - 1] == name[|name| - 1] && name[|name| - 1] in name;
    assert Paths.StripRight(stem) == stem;
  }

  // ---- Under a directory, by components ----------------------------------------------------------

  lemma {:induction false} JoinBoth(a: seq<string>, b: seq<string>)
    requires a != [] && b != []
    ensures Paths.Join(a + b) == Paths.Join(a) + "/" + Paths.Join(b)
  {
    if |a| == 1 {
      assert (a + b)[1..] == b;
    } else {
      JoinBoth(a[1..], b);
      assert (a + b)[1..] == a[1..] + b;
      assert Paths.Join(a + b) == a[0] + "/" + (Paths.Join(a[1..]) + "/" + Paths.Join(b));
    }
  }

  lemma StackOfBelow(canon: string, path: string)
    requires Paths.Canonical(canon) && Paths.Canonical(path) && Paths.Stack(canon) != [] && canon + "/" <= path
    ensures Paths.Lead(path) == Paths.Lead(canon) && Paths.Stack(canon) <= Paths.Stack(path)
  {
    hide Paths.Split, Paths.Join, Paths.Walk, Paths.Stack;
    Paths.RootStrips();
    var a, b, rest := Paths.Stack(canon), Paths.Stack(path), path[|canon| + 1..];
    assert path == canon + "/" + rest;
    Paths.LeadNonEmpty(canon);
    Paths.LeadNonEmpty(path);
    SameLead(canon, path);
    Paths.SplitConcat(canon, rest);
    Paths.RenderPieces(Paths.Lead(canon), a);
    Paths.RenderPieces(Paths.Lead(path), b);
    var slashes := if Paths.Lead(canon) == "//" then ["", ""] else [""];
    assert slashes + b == slashes + a + Paths.Split(rest);
    assert b == (slashes + b)[|slashes|..] == a + Paths.Split(rest);
  }

  lemma SameLead(canon: string, path: string)
    requires Paths.Canonical(canon) && Paths.Stack(canon) != [] && canon <= path
    ensures Paths.Lead(path) == Paths.Lead(canon)
  {
    hide Paths.Split, Paths.Join, Paths.Walk, Paths.Stack;
    Paths.JoinHead(Paths.Stack(canon));
  }

  /** A file is found under a directory exactly when the directory's components begin its own, under
      the same leading slashes; the bare roots have every absolute file under them. */
  lemma UnderByStack(canon: string, path: string)
    requires Paths.Canonical(canon) && Paths.Canonical(path)
    ensures Under(canon, path) <==>
      Paths.Stack(canon) == [] || (Paths.Lead(path) == Paths.Lead(canon) && Paths.Stack(canon) <= Paths.Stack(path))
  {
    hide Paths.Split, Paths.Join, Paths.Walk, Paths.Stack, Paths.StripRight;
    Paths.RootStrips();
    var a, b := Paths.Stack(canon), Paths.Stack(path);
    CanonicalRoot(canon);
    StemOfRoot(canon);
    if a == [] {
      assert canon == Paths.Lead(canon) + "" == Paths.Lead(canon);
      assert "" + "/" <= path;
    } else {
      Paths.JoinHead(a);
      Paths.LeadNonEmpty(canon);
      assert canon != "/" && canon != "//" by { OneMoreThanLead(canon); }
      if canon + "/" <= path { StackOfBelow(canon, path); }
      if Paths.Lead(path) == Paths.Lead(canon) && a <= b && a != b {
        var more := b[|a|..];
        assert b == a + more;
        JoinBoth(a, more);
        assert path == Paths.Lead(canon) + (Paths.Join(a) + "/" + Paths.Join(more));
        assert path == canon + "/" + Paths.Join(more);
      }
    }
  }

  lemma OneMoreThanLead(canon: string)
    requires Paths.Canonical(canon) && Paths.Stack(canon) != []
    ensures canon != "/" && canon != "//"
  {
    hide Paths.Split, Paths.Join, Paths.Walk, Paths.Stack;
    Paths.JoinHead(Paths.Stack(canon));
    Paths.LeadNonEmpty(canon);
    assert canon[|Paths.Lead(canon)|] == Paths.Join(Paths.Stack(canon))[0];
  }

  // ---- Walking up ------------------------------------------------------------------------------

  /** A parent on the way up from `path`: not yet past the root. */
  ghost predicate OnTheWay(canon: string, path: string, parent: string) {
    && Under(canon, path) && ((parent == canon == path && '/' !in path) || Cut(parent, path))
    && !(Cut(canon, path) && |parent| < |canon|)
  }

  ghost predicate Continues(canon: string, parent: string) {
    parent != "" && Stem(canon) <= parent && parent != canon
  }

  lemma StemFacts(canon: string, path: string)
    requires Rooted(canon) && Under(canon, path)
    ensures Stem(canon) <= path && Stem(canon) <= canon
    ensures Paths.Absolute(path) || Stem(canon) == canon
    ensures path != canon ==> |Stem(canon)| < |path| && path[|Stem(canon)|] == '/'
  {
    hide Paths.StripRight;
    StemTail(canon);
    if !Paths.Absolute(canon) { StemOfRoot(canon); }
    if path != canon {
      assert Stem(canon) <= Stem(canon) + "/" <= path;
      assert path[|Stem(canon)|] == '/';
    }
  }

  /** The first parent, before any other ancestor. */
  lemma FirstParent(canon: string, path: string)
    requires Rooted(canon) && Under(canon, path)
    ensures OnTheWay(canon, path, ParentOf(path))
    ensures forall dir :: Walked(canon, dir, path) ==> |dir| <= |ParentOf(path)|
  {
    hide LastSlash, Stem, Under;
    StemFacts(canon, path);
    assert LastSlash(path) == |path| ==> path == canon;
  }

  /** Going one parent up passes over no ancestor. */
  lemma NextParent(canon: string, path: string, parent: string)
    requires Rooted(canon) && OnTheWay(canon, path, parent) && Continues(canon, parent)
    ensures Walked(canon, parent, path)
    ensures var up := ParentOf(parent);
      && |up| < |parent| && OnTheWay(canon, path, up)
      && forall dir :: Walked(canon, dir, path) && |dir| > |up| ==> dir == parent || |dir| > |parent|
  {
    hide LastSlash, Stem, Under;
    StemFacts(canon, path);
    var k := LastSlash(parent);
    assert forall i :: 0 <= i < |parent| ==> parent[i] == path[i];
    assert k < |parent| by {
      if Paths.Absolute(path) { assert parent[0] == '/'; } else { assert parent[|Stem(canon)|] == '/'; }
    }
    assert Cut(canon, path) && |canon| < |parent| ==> parent[|canon|] == '/';
  }

  /** No key of a snapshot of canonical paths begins with three slashes. */
  lemma CanonicalKey(path: string)
    requires Paths.Canonical(path)
    ensures !("///" <= path)
  {
    var stack := Paths.Stack(path);
    Paths.RootStrips();
    if stack != [] {
      Paths.JoinHead(stack);
    }
  }

  method Traverse(canon: string, paths: seq<string>) returns (files: seq<string>, dirs: set<string>)
    requires Rooted(canon)
    ensures forall path :: path in files <==> IsFile(canon, paths, path)
    ensures forall dir :: dir in dirs <==> IsDir(canon, paths, dir)
  {
    hide Walked, Under;
    files, dirs := [], {};
    for i := 0 to |paths|
      invariant forall path :: path in files <==> IsFile(canon, paths[..i], path)
      invariant forall dir :: dir in dirs <==> IsDir(canon, paths[..i], dir)
    {
      var path := paths[i];
      if Under(canon, path) {
        files := files + [path];
        var ancestors := Ancestors(canon, path);
        dirs := dirs + ancestors;
      }
      OutsideNeverWalked(canon, path);
      assert paths[..i + 1] == paths[..i] + [path];
      assert forall dir ::
        IsDir(canon, paths[..i + 1], dir) <==> IsDir(canon, paths[..i], dir) || Walked(canon, dir, path);
    }
    assert paths[..|paths|] == paths;
  }

  lemma OutsideNeverWalked(canon: string, path: string)
    ensures !Under(canon, path) ==> forall dir :: !Walked(canon, dir, path)
  {}

  /** The parent-walking loop for one file. */
  method Ancestors(canon: string, path: string) returns (dirs: set<string>)
    requires Rooted(canon) && Under(canon, path)
    ensures forall dir :: dir in dirs <==> Walked(canon, dir, path)
  {
    dirs := {};
    var parent := ParentOf(path);
    FirstParent(canon, path);
    while parent != "" && Stem(canon) <= parent && parent != canon
      invariant OnTheWay(canon, path, parent)
      invariant forall dir :: dir in dirs <==> Walked(canon, dir, path) && |dir| > |parent|
      decreases |parent|
    {
      dirs := dirs + {parent};
      NextParent(canon, path, parent);
      parent := ParentOf(parent);
    }
    WalkEnds(canon, path, parent);
  }

  lemma WalkEnds(canon: string, path: string, parent: string)
    requires Rooted(canon) && OnTheWay(canon, path, parent) && !Continues(canon, parent)
    ensures forall dir :: Walked(canon, dir, path) ==> |dir| > |parent|
  {
    hide Stem, Under;
    StemFacts(canon, path);
    forall dir | Walked(canon, dir, path) ensures |dir| > |parent| {
      assert |dir| <= |parent| ==> dir <= parent && Stem(canon) <= parent;
      assert path[|dir|] in path;
    }
  }

  // ---- Listing one level -----------------------------------------------------------------------

  function FirstSlash(s: string): (k: nat)
    ensures k <= |s| && (k < |s| ==> s[k] == '/')
    ensures forall i :: 0 <= i < k ==> s[i] != '/'
  {
    if s == "" || s[0] == '/' then 0 else 1 + FirstSlash(s[1..])
  }

  predicate FileHere(canon: string, path: string, name: string) {
    name != "" && '/' !in name && path == Stem(canon) + "/" + name
  }

  predicate DirHere(canon: string, path: string, name: string) {
    '/' !in name && Stem(canon) + "/" + name + "/" <= path
  }

  /** A file directly in the root, by name. */
  ghost predicate ChildFile(canon: string, paths: seq<string>, name: string) {
    exists path :: path in paths && FileHere(canon, path, name)
  }

  /** A name with something below it. */
  ghost predicate ChildDir(canon: string, paths: seq<string>, name: string) {
    exists path :: path in paths && DirHere(canon, path, name)
  }

  method ListDirectoryTyped(canon: string, paths: seq<string>) returns (files: set<string>, dirs: set<string>)
    ensures forall name :: name in files <==> ChildFile(canon, paths, name)
    ensures forall name :: name in dirs <==> ChildDir(canon, paths, name)
  {
    hide FileHere, DirHere, FirstSlash, Paths.StripRight;
    files, dirs := {}, {};
    var prefix := if canon != "/" then Stem(canon) + "/" else "/";
    Paths.RootStrips();
    for i := 0 to |paths|
      invariant forall name :: name in files <==> ChildFile(canon, paths[..i], name)
      invariant forall name :: name in dirs <==> ChildDir(canon, paths[..i], name)
    {
      var path := paths[i];
      Classify(canon, path);
      assert paths[..i + 1] == paths[..i] + [path];
      ListedStep(canon, paths[..i], path);
      if prefix <= path && path != prefix {
        var rest := path[|prefix|..];
        var k := FirstSlash(rest);
        if k == |rest| {
          files := files + {rest};
        } else {
          dirs := dirs + {rest[..k]};
        }
      }
    }
    assert paths[..|paths|] == paths;
  }

  lemma ListedStep(canon: string, paths: seq<string>, path: string)
    ensures forall name ::
      ChildFile(canon, paths + [path], name) <==> ChildFile(canon, paths, name) || FileHere(canon, path, name)
    ensures forall name ::
      ChildDir(canon, paths + [path], name) <==> ChildDir(canon, paths, name) || DirHere(canon, path, name)
  {
    hide FileHere, DirHere;
    assert path in paths + [path];
  }

  /** What one path contributes to the listing, read off from its first slash past the root. */
  lemma Classify(canon: string, path: string)
    ensures var prefix := Stem(canon) + "/";
      if prefix <= path then
        var rest := path[|prefix|..];
        var k := FirstSlash(rest);
        && (forall name :: FileHere(canon, path, name) <==> rest != "" && k == |rest| && name == rest)
        && (forall name :: DirHere(canon, path, name) <==> k < |rest| && name == rest[..k])
      else
        forall name :: !FileHere(canon, path, name) && !DirHere(canon, path, name)
  {
    var prefix := Stem(canon) + "/";
    forall name ensures FileHere(canon, path, name) || DirHere(canon, path, name) ==> prefix <= path {
      assert prefix <= prefix + name && prefix <= prefix + name + "/";
    }
    if prefix <= path {
      var rest := path[|prefix|..];
      assert path == prefix + rest;
      forall name ensures FileHere(canon, path, name) <==> rest != "" && FirstSlash(rest) == |rest| && name == rest {
        if FileHere(canon, path, name) { assert path[|prefix|..] == name; }
      }
      forall name
        ensures DirHere(canon, path, name) <==> FirstSlash(rest) < |rest| && name == rest[..FirstSlash(rest)]
      {
        OneDir(prefix, rest, name);
      }
    }
  }

  lemma OneDir(prefix: string, rest: string, name: string)
    ensures '/' !in name && prefix + name + "/" <= prefix + rest <==>
      FirstSlash(rest) < |rest| && name == rest[..FirstSlash(rest)]
  {
    assert prefix + name + "/" == prefix + (name + "/");
    PrefixCancel(prefix, name + "/", rest);
    FirstName(rest, name);
  }

  lemma PrefixCancel(a: string, b: string, c: string)
    ensures a + b <= a + c <==> b <= c
  {
    assert (a + c)[|a|..] == c;
    if a + b <= a + c { assert (a + c)[|a|..|a + b|] == b == c[..|b|]; }
    if b <= c { assert a + c == a + b + c[|b|..]; }
  }

  lemma FirstName(rest: string, name: string)
    ensures '/' !in name && name + "/" <= rest <==> FirstSlash(rest) < |rest| && name == rest[..FirstSlash(rest)]
  {
    hide FirstSlash;
    var k := FirstSlash(rest);
    if '/' !in name && name + "/" <= rest {
      assert rest[|name|] == (name + "/")[|name|] == '/';
      assert forall i :: 0 <= i < |name| ==> rest[i] == name[i] && name[i] in name;
    }
    if k < |rest| && name == rest[..k] {
      assert (name + "/")[..k] == name && rest[..k + 1] == name + "/";
    }
  }

  /** The listing is the depth-one slice of the traversal: its files are the traversed files one
      name below the root and its directories the traversed directories one name below it. A
      path with an empty component right below the root adds the empty name, and nothing else. */
  lemma ListingIsSlice(canon: string, paths: seq<string>, name: string)
    ensures ChildFile(canon, paths, name) <==>
      name != "" && '/' !in name && IsFile(canon, paths, Stem(canon) + "/" + name)
    ensures name != "" ==>
      (ChildDir(canon, paths, name) <==> '/' !in name && IsDir(canon, paths, Stem(canon) + "/" + name))
    ensures ChildDir(canon, paths, "") <==> exists path :: path in paths && Stem(canon) + "//" <= path
  {
    hide Walked;
    var stem := Stem(canon);
    var dir := stem + "/" + name;
    assert stem + "/" <= dir;
    if name != "" {
      forall path ensures DirHere(canon, path, name) <==> '/' !in name && Walked(canon, dir, path) {
        if '/' !in name { BelowChild(canon, path, name); }
      }
    }
    assert stem + "/" + "" + "/" == stem + "//";
    assert forall path :: DirHere(canon, path, "") <==> stem + "//" <= path;
  }

  lemma BelowChild(canon: string, path: string, name: string)
    requires '/' !in name && name != ""
    ensures var dir := Stem(canon) + "/" + name; DirHere(canon, path, name) <==> Walked(canon, dir, path)
  {
    hide Paths.StripRight;
    StemTail(canon);
    var stem := Stem(canon);
    var dir := stem + "/" + name;
    assert stem + "/" <= dir <= dir + "/" && dir[|stem| + 1] == name[0] && name[0] != '/';
    assert dir == canon ==> canon[|stem| + 1] == '/';
    if Cut(dir, path) { assert path[..|dir| + 1] == dir + "/"; }
    if dir + "/" <= path {
      assert path[|dir|] == '/' && dir <= path;
      assert path[|stem| + 1] == dir[|stem| + 1];
    }
  }

  // ---- find --------------------------------------------------------------------------------------

  datatype TypeFilter = AnyType | FilesOnly | DirsOnly

  /** What `find` prints, as a set: the root unless only files are wanted, matching files but not
      the `.keep` placeholders, and matching directories. `matches` is the glob of `-name`. */
  method Find(canon: string, paths: seq<string>, matches: string -> bool, kind: TypeFilter)
    returns (results: set<string>)
    requires Rooted(canon)
    ensures forall path :: path in results <==>
      || (kind != FilesOnly && path == canon)
      || (kind != DirsOnly && IsFile(canon, paths, path) && NameOf(path) != ".keep" && matches(NameOf(path)))
      || (kind != FilesOnly && IsDir(canon, paths, path) && matches(NameOf(path)))
  {
    var files, dirs := Traverse(canon, paths);
    results := if kind != FilesOnly then {canon} else {};
    if kind != DirsOnly {
      results := results + set path | path in files && NameOf(path) != ".keep" && matches(NameOf(path));
    }
    if kind != FilesOnly {
      results := results + set path | path in dirs && matches(NameOf(path));
    }
  }
}
