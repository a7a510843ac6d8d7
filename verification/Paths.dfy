/**
 Path canonicalisation (`VirtualFS._canon` in plenith/vfs.py) and `cd` (`_resolve_cd` in
 plenith/orchestrator.py).

 `_canon` wraps `posixpath.normpath`, modelled here as the component stack of pathname
 resolution (section 4.13 of POSIX.1-2017): a path is split at its slashes and its components
 are pushed on, or popped off, a stack. A missing `cwd` or `home` is the empty string; the
 source treats both the same.
 */
module Paths {

  // ---- Splitting and joining ---------------------------------------------------------------

  /** The pieces of `s` between slashes; "" has one empty piece. */
  function Split(s: string): (parts: seq<string>)
    ensures parts != []
  {
    if s == "" then [""] else Attach(s[0], Split(s[1..]))
  }

  /** The pieces after one more character in front. */
  function Attach(c: char, rest: seq<string>): (parts: seq<string>)
    requires rest != []
    ensures |parts| == |rest| + if c == '/' then 1 else 0
  {
    if c == '/' then [""] + rest else [[c] + rest[0]] + rest[1..]
  }

  lemma AttachConcat(c: char, rest: seq<string>, more: seq<string>)
    requires rest != []
    ensures Attach(c, rest + more) == Attach(c, rest) + more
  {
    assert (rest + more)[1..] == rest[1..] + more;
  }

  function Join(parts: seq<string>): string {
    if parts == [] then ""
    else if |parts| == 1 then parts[0]
    else parts[0] + "/" + Join(parts[1..])
  }

  lemma {:induction false} SplitConcat(a: string, b: string)
    ensures Split(a + "/" + b) == Split(a) + Split(b)
  {
    var whole := a + "/" + b;
    if a == "" {
      assert whole[1..] == b;
    } else {
      SplitConcat(a[1..], b);
      assert whole[1..] == a[1..] + "/" + b && whole[0] == a[0];
      AttachConcat(a[0], Split(a[1..]), Split(b));
    }
  }

  lemma {:induction false} SplitNoSlash(s: string)
    requires '/' !in s
    ensures Split(s) == [s]
  {
    if s != "" {
      SplitNoSlash(s[1..]);
      assert [s[0]] + s[1..] == s;
    }
  }

  lemma {:induction false} SplitJoin(parts: seq<string>)
    requires parts != [] && forall i :: 0 <= i < |parts| ==> '/' !in parts[i]
    ensures Split(Join(parts)) == parts
  {
    SplitNoSlash(parts[0]);
    if |parts| > 1 {
      SplitJoin(parts[1..]);
      SplitConcat(parts[0], Join(parts[1..]));
    }
  }

  lemma {:induction false} SplitPieces(s: string, i: nat)
    requires i < |Split(s)|
    ensures '/' !in Split(s)[i]
    ensures forall c :: c in Split(s)[i] ==> c in s
  {
    if s != "" {
      var rest := Split(s[1..]);
      if i == 0 { SplitPieces(s[1..], 0); }
      else { SplitPieces(s[1..], i - (if s[0] == '/' then 1 else 0)); }
    }
  }

  // ---- The component stack -----------------------------------------------------------------

  /** A component that names something: not empty, not `.` and not `..`. */
  predicate Proper(c: string) {
    c != "" && c != "." && c != ".." && '/' !in c
  }

  function Pop(stack: seq<string>): seq<string> {
    if stack == [] then [] else stack[..|stack| - 1]
  }

  /** One component of the loop in `normpath`. Above the root, `..` is dropped; in a relative
      path it is kept when there is nothing to cancel. */
  function Push(absolute: bool, stack: seq<string>, c: string): seq<string> {
    if c == "" || c == "." then stack
    else if c != ".." then stack + [c]
    else if (!absolute && stack == []) || (stack != [] && stack[|stack| - 1] == "..") then stack + [c]
    else Pop(stack)
  }

  function Walk(absolute: bool, stack: seq<string>, comps: seq<string>): seq<string>
    decreases |comps|
  {
    if comps == [] then stack else Walk(absolute, Push(absolute, stack, comps[0]), comps[1..])
  }

  lemma {:induction false} WalkConcat(absolute: bool, stack: seq<string>, a: seq<string>, b: seq<string>)
    ensures Walk(absolute, stack, a + b) == Walk(absolute, Walk(absolute, stack, a), b)
    decreases |a|
  {
    if a == [] {
      assert a + b == b;
    } else {
      WalkConcat(absolute, Push(absolute, stack, a[0]), a[1..], b);
      assert (a + b)[1..] == a[1..] + b;
    }
  }

  predicate AllProper(stack: seq<string>) {
    forall i :: 0 <= i < |stack| ==> Proper(stack[i])
  }

  lemma {:induction false} WalkProper(stack: seq<string>, comps: seq<string>)
    requires AllProper(stack)
    requires forall i :: 0 <= i < |comps| ==> '/' !in comps[i]
    ensures AllProper(Walk(true, stack, comps))
    decreases |comps|
  {
    if comps != [] { WalkProper(Push(true, stack, comps[0]), comps[1..]); }
  }

  /** Proper components are pushed one by one and never cancelled. */
  lemma {:induction false} WalkPushes(stack: seq<string>, comps: seq<string>)
    requires AllProper(comps)
    ensures Walk(true, stack, comps) == stack + comps
    decreases |comps|
  {
    if comps != [] {
      WalkPushes(stack + [comps[0]], comps[1..]);
      assert stack + comps == stack + [comps[0]] + comps[1..];
    }
  }

  // ---- Canonical paths ---------------------------------------------------------------------

  predicate Absolute(path: string) {
    path != "" && path[0] == '/'
  }

  /** Two leading slashes, and no third, are kept by `normpath`. */
  predicate DoubleSlash(path: string) {
    |path| >= 2 && path[0] == '/' && path[1] == '/' && (|path| == 2 || path[2] != '/')
  }

  function Lead(path: string): string {
    if DoubleSlash(path) then "//" else if Absolute(path) then "/" else ""
  }

  function Stack(path: string): seq<string> {
    Walk(Absolute(path), [], Split(path))
  }

  function NormPath(path: string): string {
    var normal := Lead(path) + Join(Stack(path));
    if normal == "" then "." else normal
  }

  function StripLeft(s: string): string {
    if s != "" && s[0] == '/' then StripLeft(s[1..]) else s
  }

  function StripRight(s: string): string {
    if s != "" && s[|s| - 1] == '/' then StripRight(s[..|s| - 1]) else s
  }

  function Replace(s: string): string {
    seq(|s|, i requires 0 <= i < |s| => if s[i] == '\\' then '/' else s[i])
  }

  /** `posixpath.join` with a relative second part. */
  function JoinPath(base: string, path: string): string {
    if base == "" || base[|base| - 1] == '/' then base + path else base + "/" + path
  }

  predicate Tilde(path: string) {
    path == "~" || (|path| >= 2 && path[0] == '~' && path[1] == '/')
  }

  /** The path before normalisation: `~` expanded and made absolute against `cwd`. */
  function Resolve(path: string, cwd: string, home: string): string
    requires path != ""
  {
    var expanded :=
      if !Tilde(path) then path
      else if home != "" then home + path[1..]
      else "/" + StripLeft(path[1..]);
    if Absolute(expanded) then expanded
    else JoinPath(if cwd == "" then "/" else cwd, expanded)
  }

  function Canon(path: string, cwd: string, home: string): string {
    if path == "" then "" else Replace(NormPath(Resolve(path, cwd, home)))
  }

  // ---- What a canonical path looks like ----------------------------------------------------

  /** An absent or absolute base directory, without backslashes. */
  predicate Base(dir: string) {
    (dir == "" || Absolute(dir)) && '\\' !in dir
  }

  /** A canonical path: one leading slash, or exactly two, then proper components only. */
  predicate Canonical(path: string) {
    && Absolute(path)
    && path == Lead(path) + Join(Stack(path))
    && AllProper(Stack(path))
  }

  lemma {:induction false} JoinChars(parts: seq<string>, c: char)
    requires c != '/' && forall i :: 0 <= i < |parts| ==> c !in parts[i]
    ensures c !in Join(parts)
  {
    if |parts| > 1 { JoinChars(parts[1..], c); }
  }

  lemma {:induction false} WalkChars(absolute: bool, stack: seq<string>, comps: seq<string>, c: char)
    requires c != '.'
    requires forall i :: 0 <= i < |stack| ==> c !in stack[i]
    requires forall i :: 0 <= i < |comps| ==> c !in comps[i]
    ensures forall i :: 0 <= i < |Walk(absolute, stack, comps)| ==> c !in Walk(absolute, stack, comps)[i]
    decreases |comps|
  {
    if comps != [] { WalkChars(absolute, Push(absolute, stack, comps[0]), comps[1..], c); }
  }

  lemma StackProper(path: string)
    requires Absolute(path)
    ensures AllProper(Stack(path))
  {
    forall i | 0 <= i < |Split(path)| ensures '/' !in Split(path)[i] { SplitPieces(path, i); }
    WalkProper([], Split(path));
  }

  /** The pieces of a rendered stack's text: its slashes, then its components or one empty piece. */
  lemma RenderPieces(lead: string, stack: seq<string>)
    requires (lead == "/" || lead == "//") && AllProper(stack)
    ensures Split(lead + Join(stack))
      == (if lead == "//" then ["", ""] else [""]) + (if stack == [] then [""] else stack)
  {
    hide Split, Join;
    SplitRendered(stack);
    SplitSlash(Join(stack));
    if lead == "//" {
      SplitSlash("/" + Join(stack));
      assert lead + Join(stack) == "/" + ("/" + Join(stack));
    }
  }

  lemma RenderLead(lead: string, stack: seq<string>)
    requires (lead == "/" || lead == "//") && AllProper(stack)
    ensures Absolute(lead + Join(stack)) && Lead(lead + Join(stack)) == lead
  {
    hide Join;
    RootStrips();
    if stack != [] { JoinHead(stack); }
  }

  /** Reading a rendered stack gives the stack back. */
  lemma RenderStack(lead: string, stack: seq<string>)
    requires lead == "/" || lead == "//"
    requires AllProper(stack)
    ensures var path := lead + Join(stack);
      Absolute(path) && Lead(path) == lead && Stack(path) == stack
  {
    hide Split, Walk, Join, Lead;
    RenderPieces(lead, stack);
    RenderLead(lead, stack);
    EmptyPieces(Split(lead + Join(stack)), if stack == [] then [""] else stack);
    if stack == [] {
      RootStrips();
      WalkOne([], "");
    } else {
      WalkPushes([], stack);
    }
  }

  lemma EmptyPieces(parts: seq<string>, tail: seq<string>)
    requires parts == [""] + tail || parts == ["", ""] + tail
    ensures Walk(true, [], parts) == Walk(true, [], tail)
  {
    if parts == [""] + tail {
      WalkConcat(true, [], [""], tail);
    } else {
      WalkConcat(true, [], ["", ""], tail);
      assert Walk(true, [], ["", ""]) == Walk(true, [], [""]);
    }
  }

  lemma NormCanonical(path: string)
    requires Absolute(path)
    ensures Canonical(NormPath(path)) && Stack(NormPath(path)) == Stack(path) && Lead(NormPath(path)) == Lead(path)
  {
    StackProper(path);
    RenderStack(Lead(path), Stack(path));
  }

  lemma NormFixpoint(path: string)
    requires Canonical(path)
    ensures NormPath(path) == path
  {}

  lemma NormNoBackslash(path: string)
    requires '\\' !in path
    ensures Replace(NormPath(path)) == NormPath(path)
  {
    forall i | 0 <= i < |Split(path)| ensures '\\' !in Split(path)[i] { SplitPieces(path, i); }
    WalkChars(Absolute(path), [], Split(path), '\\');
    JoinChars(Stack(path), '\\');
    var p := NormPath(path);
    assert '\\' !in p;
    assert forall i :: 0 <= i < |p| ==> p[i] in p;
  }

  lemma ResolveAbsolute(path: string, cwd: string, home: string)
    requires path != "" && '\\' !in path && Base(cwd) && Base(home)
    ensures Absolute(Resolve(path, cwd, home)) && '\\' !in Resolve(path, cwd, home)
  {
    StripLeftChars(path[1..]);
  }

  lemma {:induction false} StripLeftChars(s: string)
    ensures forall c :: c in StripLeft(s) ==> c in s
  {
    if s != "" && s[0] == '/' { StripLeftChars(s[1..]); }
  }

  lemma CanonOfResolved(path: string, cwd: string, home: string, resolved: string)
    requires path != "" && resolved == Resolve(path, cwd, home) && Absolute(resolved) && '\\' !in resolved
    ensures var c := Canon(path, cwd, home);
      Canonical(c) && Stack(c) == Stack(resolved) && Lead(c) == Lead(resolved) && '\\' !in c
  {
    NormNoBackslash(resolved);
    NormCanonical(resolved);
  }

  /** The pieces that the components of a normalised path fall into once their backslashes have
      become slashes. */
  function Exposed(stack: seq<string>): seq<string> {
    if stack == [] then [] else Split(Replace(Join(stack)))
  }

  /** The exposed pieces are all names; or, under one leading slash, all but an empty first one. */
  predicate Settled(lead: string, pieces: seq<string>) {
    || AllProper(pieces)
    || (lead == "/" && pieces != [] && pieces[0] == "" && (AllProper(pieces[1..]) || pieces[1..] == [""]))
  }

  lemma ReplaceParts(lead: string, tail: string)
    requires lead == "/" || lead == "//"
    ensures Replace(lead + tail) == lead + Replace(tail)
  {
    assert |Replace(lead + tail)| == |lead + Replace(tail)|;
  }

  lemma ReplaceLength(s: string)
    ensures |Replace(s)| == |s| && '\\' !in Replace(s)
  {}

  /** A canonical path is its own rendering. */
  lemma CanonicalForms(c: string)
    requires Canonical(c)
    ensures (Lead(c) == "/" || Lead(c) == "//") && c == Lead(c) + Join(Stack(c)) && AllProper(Stack(c))
    ensures Lead(c) == "/" ==> Stack(c) == [] || (|c| > 1 && c[1] != '/')
  {
    hide Walk, Split, Join;
    RootStrips();
    if Stack(c) != [] {
      JoinHead(Stack(c));
    }
  }

  lemma SplitRendered(stack: seq<string>)
    requires AllProper(stack)
    ensures Split(Join(stack)) == if stack == [] then [""] else stack
  {
    hide Split, Join;
    RootStrips();
    if stack != [] { SplitJoin(stack); }
  }

  lemma SplitSlash(tail: string)
    ensures Split("/" + tail) == [""] + Split(tail)
  {
    SplitConcat("", tail);
    assert "" + "/" + tail == "/" + tail;
  }

  /** Settled pieces render as a canonical path. */
  lemma SettledCanonical(lead: string, stack: seq<string>, c: string)
    requires (lead == "/" || lead == "//") && AllProper(stack)
    requires c == lead + Replace(Join(stack)) && Settled(lead, Exposed(stack))
    ensures Canonical(c)
  {
    hide Walk, Split, Join, Replace, Lead;
    RootStrips();
    var pieces, tail := Exposed(stack), Replace(Join(stack));
    ReplaceLength(Join(stack));
    if AllProper(pieces) {
      RenderStack(lead, pieces);
      if stack != [] { JoinOfSplit(tail); }
    } else {
      JoinHead(stack);
      JoinOfSplit(tail);
      JoinEmptyHead(pieces);
      var rest := if pieces[1..] == [""] then [] else pieces[1..];
      assert Join(pieces[1..]) == Join(rest) by { JoinEmpties(); }
      RenderStack("//", rest);
      assert c == "//" + Join(rest);
    }
  }

  lemma {:induction false} JoinOfSplit(s: string)
    ensures Join(Split(s)) == s
  {
    if s == "" {
    } else {
      JoinOfSplit(s[1..]);
      AttachJoin(s[0], Split(s[1..]));
    }
  }

  lemma AttachJoin(c: char, rest: seq<string>)
    requires rest != []
    ensures Join(Attach(c, rest)) == [c] + Join(rest)
  {
    if c == '/' {
      assert ([""] + rest)[1..] == rest;
    } else if |rest| > 1 {
      assert Attach(c, rest)[1..] == rest[1..];
    }
  }

  lemma JoinEmpties()
    ensures Join([""]) == "" && Join([]) == ""
  {}

  lemma JoinEmptyHead(pieces: seq<string>)
    requires pieces != [] && pieces[0] == ""
    ensures Join(pieces) == if |pieces| == 1 then "" else "/" + Join(pieces[1..])
  {}

  /** A canonical path exposes settled pieces. */
  lemma CanonicalSettled(lead: string, stack: seq<string>, c: string)
    requires (lead == "/" || lead == "//") && AllProper(stack)
    requires c == lead + Replace(Join(stack)) && Canonical(c)
    ensures Settled(lead, Exposed(stack))
  {
    hide Walk, Split, Join, Replace, Lead, Canonical;
    var tail, names := Replace(Join(stack)), Stack(c);
    ReplaceLength(Join(stack));
    CanonicalForms(c);
    SplitRendered(names);
    RootStrips();
    if stack != [] {
      JoinHead(stack);
      if Lead(c) == lead {
        assert tail == c[|lead|..] == Join(names);
      } else if lead == "/" {
        assert tail == c[1..] == "/" + Join(names);
        SplitSlash(Join(names));
      }
    }
  }

  /** The canonical form has no backslash, and is canonical exactly when the pieces its component
      stack exposes are settled; it names the resolved stack, under the same leading slashes,
      exactly when no component holds a backslash. */
  lemma CanonIsCanonical(path: string, cwd: string, home: string)
    requires path != "" && Absolute(Resolve(path, cwd, home))
    ensures var c, resolved := Canon(path, cwd, home), Resolve(path, cwd, home);
      && Absolute(c) && '\\' !in c
      && (Canonical(c) <==> Settled(Lead(resolved), Exposed(Stack(resolved))))
      && (Stack(c) == Stack(resolved) && Lead(c) == Lead(resolved) <==> Clean(Stack(resolved)))
      && (Clean(Stack(resolved)) ==> Canonical(c))
  {
    hide Walk, Split, Join, Settled, Exposed, Replace, Stack, Lead, Canonical;
    var c, resolved := Canon(path, cwd, home), Resolve(path, cwd, home);
    var lead, stack := Lead(resolved), Stack(resolved);
    LeadNonEmpty(resolved);
    StackProper(resolved);
    ReplaceParts(lead, Join(stack));
    ReplaceLength(Join(stack));
    assert c == lead + Replace(Join(stack));
    if Settled(lead, Exposed(stack)) { SettledCanonical(lead, stack, c); }
    if Canonical(c) { CanonicalSettled(lead, stack, c); }
    if Clean(stack) { CleanRendered(lead, stack); }
    StackClean(c);
  }

  lemma CleanRendered(lead: string, stack: seq<string>)
    requires (lead == "/" || lead == "//") && AllProper(stack) && Clean(stack)
    ensures var c := lead + Replace(Join(stack)); Canonical(c) && Stack(c) == stack && Lead(c) == lead
  {
    hide Walk, Split, Join, Stack, Lead;
    JoinChars(stack, '\\');
    ReplaceClean(Join(stack));
    RenderStack(lead, stack);
  }

  /** Canonicalising again, from any directory, changes nothing. */
  lemma CanonIdempotent(path: string, cwd: string, home: string, cwd': string, home': string)
    requires '\\' !in path && Base(cwd) && Base(home)
    ensures Canon(Canon(path, cwd, home), cwd', home') == Canon(path, cwd, home)
  {
    hide *;
    if path != "" {
      ResolveAbsolute(path, cwd, home);
      StackClean(Resolve(path, cwd, home));
      CanonIsCanonical(path, cwd, home);
      CanonAgain(Canon(path, cwd, home), cwd', home');
    } else {
      CanonEmpty(cwd, home);
      CanonEmpty(cwd', home');
    }
  }

  lemma CanonEmpty(cwd: string, home: string)
    ensures Canon("", cwd, home) == ""
  {}

  /** The replacement of backslashes comes after normalisation, so it can expose components that
      were never resolved. Canonicalising again changes nothing exactly when the pieces it exposes
      are settled. */
  lemma CanonIdempotentIff(path: string, cwd: string, home: string, cwd': string, home': string)
    requires path != "" && Absolute(Resolve(path, cwd, home))
    ensures var c, resolved := Canon(path, cwd, home), Resolve(path, cwd, home);
      Canon(c, cwd', home') == c <==> Settled(Lead(resolved), Exposed(Stack(resolved)))
  {
    hide *;
    CanonIsCanonical(path, cwd, home);
    CanonAgain(Canon(path, cwd, home), cwd', home');
  }

  lemma CanonAgain(c: string, cwd: string, home: string)
    requires Absolute(c) && '\\' !in c
    ensures Canon(c, cwd, home) == c <==> Canonical(c)
  {
    assert Resolve(c, cwd, home) == c;
    NormNoBackslash(c);
    NormCanonical(c);
  }

  lemma BackslashCanon(path: string)
    requires path == "/a\\.." && NormPath(path) == path
    ensures Canon(path, "/", "/root") == "/a/.."
  {
    hide NormPath;
    assert Replace(path) == "/a/..";
  }

  lemma BackslashBreaksIdempotence()
    ensures var c := Canon("/a\\..", "/", "/root");
      c == "/a/.." && Canon(c, "/", "/root") == "/"
  {
    hide Canon, Split, Walk;
    RootStrips();
    var path := "/" + Join(["a\\.."]);
    RenderStack("/", ["a\\.."]);
    NormFixpoint(path);
    assert Resolve(path, "/", "/root") == path;
    NameUp("a");
    assert "/" + "a" + "/.." == "/a/..";
    assert Replace(path) == "/a/..";
    CanonOfResolved("/a/..", "/", "/root", "/a/..");
    BackslashCanon(path);
  }

  /** A backslash at the end of a name is left as a slash at the end of the canonical path. */
  lemma TrailingBackslash(name: string, cwd: string, home: string)
    requires Proper(name) && '\\' !in name
    ensures Canon("/" + name + "\\", cwd, home) == "/" + name + "/"
  {
    hide NormPath, Split, Walk, Stack, Lead;
    var last := name + "\\";
    var path := "/" + name + "\\";
    assert last[|name|] == '\\' && Proper(last);
    JoinOne(last);
    RenderStack("/", [last]);
    assert path == "/" + Join([last]);
    NormFixpoint(path);
    assert Resolve(path, cwd, home) == path;
    ReplaceClean(name);
    assert Replace(path) == "/" + name + "/" by {
      ReplaceParts("/", last);
      assert Replace(last) == Replace(name) + "/";
    }
  }

  // ---- Laws of resolution ------------------------------------------------------------------------

  lemma CleanCanon(p: string, cwd: string, home: string)
    requires Absolute(p) && '\\' !in p
    ensures Canon(p, cwd, home) == Lead(p) + Join(Stack(p)) && AllProper(Stack(p))
  {
    hide Walk, Split, Join, Lead, Stack;
    NormNoBackslash(p);
    StackProper(p);
    LeadNonEmpty(p);
    assert Resolve(p, cwd, home) == p;
  }

  /** The stack of a path with one more piece, and its leading slashes. */
  lemma OneBelow(p: string, piece: string)
    requires Absolute(p) && p[|p| - 1] != '/' && '/' !in piece
    ensures var q := p + "/" + piece;
      Absolute(q) && Lead(q) == Lead(p) && Stack(q) == Push(true, Stack(p), piece)
  {
    hide Walk, Split;
    StackBelow(p, piece);
    SplitNoSlash(piece);
    WalkOne(Stack(p), piece);
  }

  lemma RenderedChild(lead: string, stack: seq<string>, name: string)
    requires (lead == "/" || lead == "//") && AllProper(stack) && Proper(name)
    ensures var c := lead + Join(stack);
      lead + Join(stack + [name]) == if c == "/" || c == "//" then c + name else c + "/" + name
  {
    hide Join;
    RootStrips();
    JoinLast(stack, name);
    if stack != [] {
      JoinHead(stack);
      assert (lead + Join(stack))[|lead|] == Join(stack)[0];
      assert lead + (Join(stack) + "/" + name) == lead + Join(stack) + "/" + name;
    } else {
      assert lead + "" == lead && "" + name == name;
    }
  }

  /** What each kind of piece at the end of an absolute path means to its canonical form: a name goes one
      level down, `..` after a name comes back, `.` and nothing change nothing. Together with
      the roots this says what every such path canonicalises to. */
  lemma CanonLaws(p: string, name: string, cwd: string, home: string)
    requires Absolute(p) && p[|p| - 1] != '/' && '\\' !in p && Proper(name) && '\\' !in name
    ensures var c := Canon(p, cwd, home);
      && Canon(p + "/" + name, cwd, home) == (if c == "/" || c == "//" then c + name else c + "/" + name)
      && Canon(p + "/" + name + "/" + "..", cwd, home) == c
      && Canon(p + "/" + ".", cwd, home) == c && Canon(p + "/", cwd, home) == c
  {
    hide Walk, Split, Join, Lead, Stack, Canon;
    CleanCanon(p, cwd, home);
    LeadNonEmpty(p);
    var down := p + "/" + name;
    OneBelow(p, name);
    CleanCanon(down, cwd, home);
    RenderedChild(Lead(p), Stack(p), name);
    assert down[|down| - 1] == name[|name| - 1] && name[|name| - 1] in name;
    OneBelow(down, "..");
    assert '\\' !in "..";
    CleanCanon(down + "/" + "..", cwd, home);
    assert Pop(Stack(p) + [name]) == Stack(p);
    OneBelow(p, ".");
    CleanCanon(p + "/" + ".", cwd, home);
    OneBelow(p, "");
    assert p + "/" + "" == p + "/";
    CleanCanon(p + "/", cwd, home);
  }

  lemma CanonRoots(name: string, cwd: string, home: string)
    requires Proper(name) && '\\' !in name
    ensures Canon("/", cwd, home) == "/" && Canon("//", cwd, home) == "//" && Canon("/..", cwd, home) == "/"
    ensures Canon("/" + name, cwd, home) == "/" + name && Canon("//" + name, cwd, home) == "//" + name
  {
    hide Walk, Split, Join, Stack, Canon;
    RootStrips();
    RenderStack("/", []);
    assert "/" + "" == "/" && "//" + "" == "//";
    RenderStack("//", []);
    CleanCanon("/", cwd, home);
    CleanCanon("//", cwd, home);
    JoinOne(name);
    RenderStack("/", [name]);
    RenderStack("//", [name]);
    CleanCanon("/" + name, cwd, home);
    CleanCanon("//" + name, cwd, home);
    UpFromRoot();
    CleanCanon("/..", cwd, home);
  }

  lemma UpFromRoot()
    ensures Absolute("/..") && Lead("/..") == "/" && Stack("/..") == []
  {
    hide Walk, Split;
    SplitNoSlash("..");
    SplitSlash("..");
    assert "/" + ".." == "/..";
    EmptyPieces(Split("/.."), [".."]);
    WalkOne([], "..");
  }

  /** What a path is resolved against: itself if absolute, the home for a tilde, and otherwise the
      current directory, whose pieces it goes on from. */
  lemma ResolvedAgainst(path: string, cwd: string, home: string)
    requires path != "" && Absolute(cwd)
    ensures Absolute(path) ==> Resolve(path, cwd, home) == path
    ensures !Absolute(path) && !Tilde(path) ==>
      var r := Resolve(path, cwd, home);
      Absolute(r) && Lead(r) == Lead(cwd) && Stack(r) == Walk(true, Stack(cwd), Split(path))
  {
    hide Walk, Split, Lead, Stack;
    if !Absolute(path) && !Tilde(path) { JoinStack(cwd, path); }
  }

  /** A tilde stands for the home directory, or for the root when there is none. */
  lemma ResolvedTilde(rest: string, cwd: string, home: string)
    requires Absolute(home)
    ensures Resolve("~", cwd, home) == home && Resolve("~/" + rest, cwd, home) == home + "/" + rest
    ensures Resolve("~", cwd, "") == "/"
    ensures rest != "" && rest[0] != '/' ==> Resolve("~/" + rest, cwd, "") == "/" + rest
  {
    assert "~"[1..] == "" && home + "" == home && "/" + "" == "/";
    var path := "~/" + rest;
    assert path[1..] == "/" + rest && home + ("/" + rest) == home + "/" + rest;
    assert ("/" + rest)[1..] == rest;
    assert StripLeft("") == "";
    assert rest != "" && rest[0] != '/' ==> StripLeft("/" + rest) == StripLeft(rest) == rest;
  }

  // ---- Relative paths ----------------------------------------------------------------------------

  /** Parent components first, and only names after them. */
  predicate UpsThenNames(stack: seq<string>) {
    && (forall i :: 0 <= i < |stack| ==> stack[i] == ".." || Proper(stack[i]))
    && (forall i, j :: 0 <= i < j < |stack| && stack[j] == ".." ==> stack[i] == "..")
  }

  /** The names on top of the parents of a relative stack. */
  lemma RelativePush(stack: seq<string>, c: string)
    requires UpsThenNames(stack) && '/' !in c
    ensures var pushed := Push(false, stack, c);
      && UpsThenNames(pushed)
      && (c == "" || c == "." ==> pushed == stack)
      && (Proper(c) ==> pushed == stack + [c])
      && (c == ".." && stack != [] && Proper(stack[|stack| - 1]) ==> pushed == stack[..|stack| - 1])
      && (c == ".." && (stack == [] || stack[|stack| - 1] == "..") ==> pushed == stack + [".."])
  {}

  lemma {:induction false} RelativeWalk(stack: seq<string>, comps: seq<string>)
    requires UpsThenNames(stack) && forall i :: 0 <= i < |comps| ==> '/' !in comps[i]
    ensures UpsThenNames(Walk(false, stack, comps))
    decreases |comps|
  {
    if comps != [] {
      hide Push, UpsThenNames;
      RelativePush(stack, comps[0]);
      RelativeWalk(Push(false, stack, comps[0]), comps[1..]);
    }
  }

  /** A relative path stays relative: parents first, then names, or a dot when nothing is left. */
  lemma RelativeNorm(path: string)
    requires !Absolute(path)
    ensures UpsThenNames(Stack(path)) && !Absolute(NormPath(path))
    ensures NormPath(path) == if Stack(path) == [] then "." else Join(Stack(path))
  {
    hide Walk, Split, Join;
    forall i | 0 <= i < |Split(path)| ensures '/' !in Split(path)[i] { SplitPieces(path, i); }
    RelativeWalk([], Split(path));
    RootStrips();
    var stack := Stack(path);
    assert Lead(path) == "" && "" + Join(stack) == Join(stack);
    if stack != [] { RelativeHead(stack); }
  }

  lemma RelativeHead(stack: seq<string>)
    requires stack != [] && UpsThenNames(stack)
    ensures Join(stack) != "" && Join(stack)[0] != '/'
  {
    assert stack[0] != "" && stack[0][0] in stack[0];
  }

  // ---- Resolution depends only on the canonical directory ------------------------------------

  /** No path resolves differently from `d` and from `d'`. */
  ghost predicate SameDir(d: string, d': string) {
    forall path, home :: Canon(path, d, home) == Canon(path, d', home)
  }

  /** A slash at the end of a directory adds nothing to its stack. */
  lemma TrailingSlash(front: string)
    requires Absolute(front + "/")
    ensures Stack(front + "/") == Walk(true, [], Split(front))
  {
    hide Split;
    assert front + "/" == front + "/" + "";
    SplitConcat(front, "");
    RootStrips();
    WalkConcat(true, [], Split(front), [""]);
    WalkOne(Walk(true, [], Split(front)), "");
  }

  lemma StackBelow(front: string, path: string)
    requires Absolute(front + "/" + path)
    ensures Stack(front + "/" + path) == Walk(true, Walk(true, [], Split(front)), Split(path))
  {
    hide Split, Walk;
    SplitConcat(front, path);
    WalkConcat(true, [], Split(front), Split(path));
  }

  lemma LeadBelow(dir: string, path: string)
    requires Absolute(dir) && path != "" && path[0] != '/'
    ensures Absolute(JoinPath(dir, path)) && Lead(JoinPath(dir, path)) == Lead(dir)
  {}

  lemma JoinStack(dir: string, path: string)
    requires Absolute(dir) && path != "" && !Absolute(path)
    ensures var p := JoinPath(dir, path);
      Absolute(p) && Lead(p) == Lead(dir) && Stack(p) == Walk(true, Stack(dir), Split(path))
  {
    hide Split, Walk, Lead;
    LeadBelow(dir, path);
    if dir[|dir| - 1] == '/' {
      var front := dir[..|dir| - 1];
      assert dir == front + "/";
      TrailingSlash(front);
      StackBelow(front, path);
    } else {
      StackBelow(dir, path);
    }
  }

  lemma {:induction false} UpsWalk(stack: seq<string>, k: nat)
    requires AllProper(stack)
    ensures Walk(true, stack, Ups(k)) == Dropped(stack, k)
  {
    if k > 0 {
      hide Walk;
      WalkConcat(true, stack, [".."], Ups(k - 1));
      WalkOne(stack, "..");
      assert stack != [] ==> Proper(stack[|stack| - 1]);
      UpsWalk(Pop(stack), k - 1);
    } else {
      assert Walk(true, stack, []) == stack;
    }
  }

  /** `k` parent components. */
  function Ups(k: nat): (ups: seq<string>)
    ensures |ups| == k && forall i :: 0 <= i < k ==> ups[i] == ".."
  {
    if k == 0 then [] else [".."] + Ups(k - 1)
  }

  function Dropped(stack: seq<string>, k: nat): seq<string> {
    if k == 0 then stack else Dropped(Pop(stack), k - 1)
  }

  function UpPath(k: nat): string {
    if k == 0 then "." else Join(Ups(k))
  }

  lemma UpPathFacts(k: nat)
    ensures UpPath(k) != "" && UpPath(k)[0] == '.'
    ensures Split(UpPath(k)) == if k == 0 then ["."] else Ups(k)
  {
    hide Split;
    if k == 0 {
      SplitNoSlash(".");
    } else {
      SplitJoin(Ups(k));
    }
  }

  /** From any directory, going up `k` levels shows the stack with `k` components dropped. */
  lemma CanonUp(d: string, k: nat)
    requires Absolute(d)
    ensures Canon(UpPath(k), d, "") == Replace(Lead(d) + Join(Dropped(Stack(d), k)))
  {
    hide Split, Walk, Join, Lead, Replace;
    UpPathFacts(k);
    JoinStack(d, UpPath(k));
    StackProper(d);
    if k == 0 { WalkOne(Stack(d), "."); } else { UpsWalk(Stack(d), k); }
    assert Resolve(UpPath(k), d, "") == JoinPath(d, UpPath(k));
    LeadNonEmpty(JoinPath(d, UpPath(k)));
  }

  lemma LeadNonEmpty(d: string)
    requires Absolute(d)
    ensures Lead(d) == "/" || Lead(d) == "//"
  {}

  /** No component holds a backslash. */
  predicate Clean(stack: seq<string>) {
    forall i :: 0 <= i < |stack| ==> '\\' !in stack[i]
  }

  lemma ReplaceClean(s: string)
    requires '\\' !in s
    ensures Replace(s) == s
  {
    assert forall i :: 0 <= i < |s| ==> s[i] in s;
  }

  lemma StackClean(d: string)
    requires Absolute(d) && '\\' !in d
    ensures Clean(Stack(d))
  {
    hide Split, Walk;
    forall i | 0 <= i < |Split(d)| ensures '\\' !in Split(d)[i] { SplitPieces(d, i); }
    WalkChars(true, [], Split(d), '\\');
  }

  lemma {:induction false} DroppedAll(stack: seq<string>, k: nat)
    requires k >= |stack|
    ensures Dropped(stack, k) == []
  {
    if k > 0 { DroppedAll(Pop(stack), k - 1); }
  }

  ghost predicate SameShown(a: seq<string>, b: seq<string>) {
    forall k: nat :: Replace(Join(Dropped(a, k))) == Join(Dropped(b, k))
  }

  lemma ShownPopped(a: seq<string>, b: seq<string>)
    requires SameShown(a, b)
    ensures SameShown(Pop(a), Pop(b))
  {
    hide Replace, Join;
    forall k: nat ensures Replace(Join(Dropped(Pop(a), k))) == Join(Dropped(Pop(b), k)) {
      assert Dropped(a, k + 1) == Dropped(Pop(a), k) && Dropped(b, k + 1) == Dropped(Pop(b), k);
    }
  }

  /** What a join puts in front of its last component. */
  function Head(front: seq<string>): string {
    if front == [] then "" else Join(front) + "/"
  }

  lemma JoinLast(front: seq<string>, last: string)
    ensures Join(front + [last]) == Head(front) + last
  {
    hide Join;
    if front == [] {
      JoinOne(last);
      assert front + [last] == [last];
    } else {
      JoinSnoc(front, last);
    }
  }

  lemma JoinOne(c: string)
    ensures Join([c]) == c
  {}

  /** Stacks that show alike at every level are the same, and hold no backslash: one would have
      become a slash inside the last component shown. */
  lemma {:induction false} ShownSame(a: seq<string>, b: seq<string>)
    requires SameShown(a, b) && AllProper(a) && AllProper(b)
    ensures Clean(a) && a == b
    decreases |a|
  {
    hide Replace, Join, SameShown;
    ShownTop(a, b);
    if a == [] {
    } else {
      ShownPopped(a, b);
      ShownSame(Pop(a), Pop(b));
      var front, x, y := Pop(a), a[|a| - 1], b[|b| - 1];
      assert a == front + [x] && b == front + [y];
      ShownLast(front, x, y);
    }
  }

  lemma ShownTop(a: seq<string>, b: seq<string>)
    requires SameShown(a, b) && AllProper(a) && AllProper(b)
    ensures Replace(Join(a)) == Join(b) && (a == [] <==> b == [])
  {
    hide Join;
    assert Replace(Join(Dropped(a, 0))) == Join(Dropped(b, 0));
    RootStrips();
    if a != [] { JoinHead(a); }
    if b != [] { JoinHead(b); }
  }

  lemma ShownLast(front: seq<string>, x: string, y: string)
    requires Replace(Join(front + [x])) == Join(front + [y]) && '/' !in y
    ensures x == y && '\\' !in x
  {
    hide Join, Replace, Head;
    JoinLast(front, x);
    JoinLast(front, y);
    ReplaceSuffix(Head(front), x);
    assert (Head(front) + y)[|Head(front)|..] == y;
    NoSlashNoBackslash(x);
  }

  lemma ReplaceSuffix(head: string, x: string)
    ensures |Replace(head + x)| == |head| + |x| && Replace(head + x)[|head|..] == Replace(x)
  {}

  lemma NoSlashNoBackslash(x: string)
    requires '/' !in Replace(x)
    ensures '\\' !in x && Replace(x) == x
  {
    forall i | 0 <= i < |x| ensures x[i] != '\\' {
      assert Replace(x)[i] in Replace(x);
    }
  }

  /** Whether two directories are interchangeable, one of them written without backslashes: exactly
      when they have the same component stack and the same leading slashes. */
  lemma SameDirIff(d: string, d': string)
    requires Absolute(d) && Absolute(d') && '\\' !in d'
    ensures SameDir(d, d') <==> Stack(d) == Stack(d') && Lead(d) == Lead(d')
  {
    hide Split, Walk, Join, Lead, Replace, Canon;
    if Stack(d) == Stack(d') && Lead(d) == Lead(d') {
      forall path, home ensures Canon(path, d, home) == Canon(path, d', home) {
        StackDecides(d, d', path, home);
      }
    }
    if SameDir(d, d') {
      SameDirShown(d, d');
    }
  }

  lemma StackDecides(d: string, d': string, path: string, home: string)
    requires Absolute(d) && Absolute(d') && Stack(d) == Stack(d') && Lead(d) == Lead(d')
    ensures Canon(path, d, home) == Canon(path, d', home)
  {
    hide Split, Walk, Join, Lead, Replace, Stack;
    if path != "" {
      if !Tilde(path) && !Absolute(path) {
        JoinStack(d, path);
        JoinStack(d', path);
      } else if Tilde(path) && home != "" && !Absolute(home) {
        JoinStack(d, home + path[1..]);
        JoinStack(d', home + path[1..]);
      }
    }
  }

  lemma UpShows(d: string, d': string, k: nat)
    requires Absolute(d) && Absolute(d') && '\\' !in d' && SameDir(d, d')
    ensures Lead(d) + Replace(Join(Dropped(Stack(d), k))) == Lead(d') + Join(Dropped(Stack(d'), k))
  {
    hide Split, Walk, Join, Lead, Replace, Stack, Canon;
    CanonUp(d, k);
    CanonUp(d', k);
    assert Canon(UpPath(k), d, "") == Canon(UpPath(k), d', "");
    LeadNonEmpty(d);
    LeadNonEmpty(d');
    ReplaceParts(Lead(d), Join(Dropped(Stack(d), k)));
    ReplaceParts(Lead(d'), Join(Dropped(Stack(d'), k)));
    StackClean(d');
    DroppedClean(Stack(d'), k);
    JoinChars(Dropped(Stack(d'), k), '\\');
    ReplaceClean(Join(Dropped(Stack(d'), k)));
  }

  lemma {:induction false} DroppedClean(stack: seq<string>, k: nat)
    requires Clean(stack)
    ensures Clean(Dropped(stack, k))
  {
    if k > 0 { DroppedClean(Pop(stack), k - 1); }
  }

  lemma SameDirShown(d: string, d': string)
    requires Absolute(d) && Absolute(d') && '\\' !in d' && SameDir(d, d')
    ensures Stack(d) == Stack(d') && Lead(d) == Lead(d')
  {
    hide Split, Walk, Join, Lead, Replace, Stack, SameDir, AllProper;
    RootStrips();
    var n := |Stack(d)| + |Stack(d')|;
    UpShows(d, d', n);
    DroppedAll(Stack(d), n);
    DroppedAll(Stack(d'), n);
    ReplaceClean("");
    assert Lead(d) + "" == Lead(d) && Lead(d') + "" == Lead(d');
    forall k: nat ensures Replace(Join(Dropped(Stack(d), k))) == Join(Dropped(Stack(d'), k)) {
      UpShows(d, d', k);
      SamePrefix(Lead(d), Replace(Join(Dropped(Stack(d), k))), Join(Dropped(Stack(d'), k)));
    }
    StackProper(d);
    StackProper(d');
    ShownSame(Stack(d), Stack(d'));
  }

  lemma SamePrefix(a: string, b: string, c: string)
    requires a + b == a + c
    ensures b == c
  {
    assert b == (a + b)[|a|..] == (a + c)[|a|..] == c;
  }

  /** Moving to `d` is moving to the canonical form of `resolved` exactly when their stacks and
      leading slashes agree and no component holds a backslash. */
  lemma SameDirResolved(d: string, resolved: string, c: string)
    requires Absolute(d) && Absolute(resolved) && c == Replace(NormPath(resolved))
    requires Clean(Stack(d)) ==> Clean(Stack(resolved))
    ensures SameDir(d, c) <==> Stack(d) == Stack(resolved) && Lead(d) == Lead(resolved) && Clean(Stack(d))
  {
    hide Split, Walk, Join, Lead, Replace, Stack, SameDir;
    var lead, stack := Lead(resolved), Stack(resolved);
    LeadNonEmpty(resolved);
    ReplaceParts(lead, Join(stack));
    ReplaceLength(Join(stack));
    assert c == lead + Replace(Join(stack));
    SameDirIff(d, c);
    if Clean(stack) {
      StackProper(resolved);
      CleanRendered(lead, stack);
    }
    StackClean(c);
  }

  // ---- cd ------------------------------------------------------------------------------------

  function OrRoot(path: string): string {
    if path == "" then "/" else path
  }

  /** The text of `cwd` as its last piece and the pieces before it, as `cd ..` sees it. */
  function Front(cwd: string): seq<string> {
    var parts := Split(StripRight(cwd));
    parts[..|parts| - 1]
  }

  function LastPiece(cwd: string): string {
    var parts := Split(StripRight(cwd));
    parts[|parts| - 1]
  }

  /** Where the pieces before the last one lead. */
  function Above(cwd: string): seq<string> {
    Walk(true, [], Front(cwd))
  }

  function Parent(cwd: string): string {
    OrRoot(Join(Front(cwd)))
  }

  function ResolveCd(target: string, cwd: string, home: string): string {
    if target == "" || target == "~" then home
    else if target == "-" then cwd
    else if Tilde(target) then home + target[1..]
    else if Absolute(target) then OrRoot(StripRight(target))
    else if target == ".." then Parent(cwd)
    else StripRight(cwd) + "/" + target
  }

  lemma {:induction false} StripRightText(path: string)
    ensures StripRight(path) <= path && forall i :: |StripRight(path)| <= i < |path| ==> path[i] == '/'
    ensures StripRight(path) == "" || StripRight(path)[|StripRight(path)| - 1] != '/'
  {
    if path != "" && path[|path| - 1] == '/' {
      StripRightText(path[..|path| - 1]);
    }
  }

  lemma {:induction false} StripRightPieces(path: string)
    requires Absolute(path)
    ensures Absolute(OrRoot(StripRight(path))) && Stack(OrRoot(StripRight(path))) == Stack(path)
  {
    var shorter := path[..|path| - 1];
    if path[|path| - 1] == '/' && shorter != "" {
      hide Split, Walk;
      StripRightPieces(shorter);
      assert path == shorter + "/";
      TrailingSlash(shorter);
    } else if path == "/" {
      RootStrips();
    }
  }

  /** Dropping trailing slashes leaves the stack, and the leading slashes but for a bare `//`. */
  lemma StripRightStack(path: string)
    requires Absolute(path)
    ensures var p := OrRoot(StripRight(path));
      Absolute(p) && Stack(p) == Stack(path) && (Lead(p) == Lead(path) <==> path != "//")
    ensures StripRight(path) == "" || StripRight(path)[|StripRight(path)| - 1] != '/'
    ensures StripRight(path) <= path
  {
    hide Split, Walk, StripRight, Stack;
    StripRightText(path);
    StripRightPieces(path);
  }

  lemma CdAbsolute(target: string, cwd: string, home: string)
    requires Absolute(target)
    ensures SameDir(ResolveCd(target, cwd, home), Canon(target, cwd, home)) <==> target != "//" && Clean(Stack(target))
  {
    hide Split, Walk, Join, Lead, Replace, Stack, SameDir, StripRight;
    StripRightStack(target);
    SameDirResolved(OrRoot(StripRight(target)), target, Canon(target, cwd, home));
  }

  lemma CdTilde(target: string, cwd: string, home: string)
    requires Tilde(target) && Absolute(home)
    ensures SameDir(ResolveCd(target, cwd, home), Canon(target, cwd, home)) <==>
      Clean(Stack(Resolve(target, cwd, home)))
  {
    hide Split, Walk, Join, Lead, Replace, Stack, SameDir;
    assert ResolveCd(target, cwd, home) == Resolve(target, cwd, home) by {
      if target == "~" { assert home + target[1..] == home; }
    }
    SameDirResolved(ResolveCd(target, cwd, home), Resolve(target, cwd, home), Canon(target, cwd, home));
  }

  predicate Relative(target: string) {
    target != "" && !Tilde(target) && !Absolute(target)
  }

  lemma CdRelative(target: string, cwd: string, home: string)
    requires Relative(target) && target != "-" && target != ".." && Absolute(cwd)
    ensures SameDir(ResolveCd(target, cwd, home), Canon(target, cwd, home)) <==>
      cwd != "//" && Clean(Stack(Resolve(target, cwd, home)))
  {
    hide Split, Walk, Join, Lead, Replace, Stack, SameDir, StripRight;
    var d, top := ResolveCd(target, cwd, home), OrRoot(StripRight(cwd));
    StripRightStack(cwd);
    JoinStack(cwd, target);
    JoinStack(top, target);
    assert d == JoinPath(top, target);
    SameDirResolved(d, JoinPath(cwd, target), Canon(target, cwd, home));
  }

  /** `cd -` stays where it is, which is never the directory that the name `-` stands for. */
  lemma CdDash(cwd: string, home: string)
    requires Absolute(cwd)
    ensures !SameDir(ResolveCd("-", cwd, home), Canon("-", cwd, home))
  {
    hide Split, Walk, Join, Lead, Replace, Stack, SameDir, StripRight;
    JoinStack(cwd, "-");
    SplitNoSlash("-");
    WalkOne(Stack(cwd), "-");
    assert '\\' !in "-";
    SameDirResolved(cwd, JoinPath(cwd, "-"), Canon("-", cwd, home));
  }

  /** After `cd target` every path resolves as it would after moving to the canonical form of
      `target`, unless two bare leading slashes are dropped on the way, a component holds a
      backslash, or the target is `-`. */
  lemma CdResolves(target: string, cwd: string, home: string)
    requires target != "" && target != ".." && Absolute(cwd) && Absolute(home)
    ensures SameDir(ResolveCd(target, cwd, home), Canon(target, cwd, home)) <==>
      && target != "-" && target != "//" && (Relative(target) ==> cwd != "//")
      && Clean(Stack(Resolve(target, cwd, home)))
  {
    hide ResolveCd, Canon, SameDir, Stack, Clean;
    if target == "-" { CdDash(cwd, home); }
    else if Tilde(target) { CdTilde(target, cwd, home); }
    else if Absolute(target) { CdAbsolute(target, cwd, home); }
    else { CdRelative(target, cwd, home); }
  }

  /** `cd` without a target goes home, as `cd ~` does. */
  lemma CdHome(cwd: string, home: string)
    ensures ResolveCd("", cwd, home) == home && ResolveCd("~", cwd, home) == home
  {}

  lemma {:induction false} SplitLast(s: string)
    requires s != "" && s[|s| - 1] != '/'
    ensures Split(s)[|Split(s)| - 1] != ""
  {
    hide Attach;
    AttachLast(s[0], Split(s[1..]));
    if |s| > 1 { SplitLast(s[1..]); }
  }

  lemma AttachLast(c: char, rest: seq<string>)
    requires rest != []
    ensures var parts := Attach(c, rest);
      parts[|parts| - 1] == if c == '/' || |rest| > 1 then rest[|rest| - 1] else [c] + rest[0]
  {}

  lemma FirstPiece(s: string)
    requires s != "" && s[0] != '/'
    ensures Split(s)[0] != "" && Split(s)[0][0] == s[0]
  {}

  lemma JoinFirst(parts: seq<string>)
    requires |parts| > 1 && parts[0] == "" && parts[1] != ""
    ensures |Join(parts)| > 1 && Join(parts)[0] == '/' && Join(parts)[1] == parts[1][0]
  {
    assert Join(parts)[1..] == Join(parts[1..]);
  }

  /** The textual parent of a path, piece by piece. */
  lemma ParentStack(cwd: string)
    requires Absolute(cwd)
    ensures Absolute(Parent(cwd)) && Stack(Parent(cwd)) == Above(cwd)
  {
    StripRightStack(cwd);
    RootStrips();
    var s := StripRight(cwd);
    if s == "" {
      assert Stack("/") == [];
    } else {
      var parts := Split(s);
      var front := Front(cwd);
      assert s[0] == cwd[0] && parts == [""] + Split(s[1..]);
      forall i | 0 <= i < |parts| ensures '/' !in parts[i] { SplitPieces(s, i); }
      SplitJoin(front);
      if |front| > 1 {
        assert Join(front) == "/" + Join(front[1..]);
      } else {
        assert front == [""];
        assert Stack("/") == [];
      }
    }
  }

  /** Under one leading slash the textual parent has one too. */
  lemma ParentLead(cwd: string)
    requires Absolute(cwd) && (|cwd| == 1 || cwd[1] != '/')
    ensures Lead(Parent(cwd)) == "/" && Lead(cwd) == "/"
  {
    StripRightStack(cwd);
    var s := StripRight(cwd);
    if s != "" {
      var front := Front(cwd);
      assert s[0] == cwd[0] && Split(s) == [""] + Split(s[1..]);
      if |front| > 1 {
        assert s[1] == cwd[1] && front[1] == Split(s[1..])[0];
        FirstPiece(s[1..]);
        JoinFirst(front);
      }
    }
  }

  /** How many slashes a path begins with. */
  function Slashes(path: string): (k: nat)
    ensures k <= |path| && (forall i :: 0 <= i < k ==> path[i] == '/') && (k < |path| ==> path[k] != '/')
  {
    if path != "" && path[0] == '/' then 1 + Slashes(path[1..]) else 0
  }

  /** Cutting the last piece off leaves the leading slashes what they were to `normpath`: two or
      three of them are only safe with another slash further on. */
  predicate KeepsLead(cwd: string) {
    var s := StripRight(cwd);
    if s == "" then cwd != "//"
    else Slashes(s) == 2 || Slashes(s) == 3 ==> '/' in s[Slashes(s)..]
  }

  lemma {:induction false} JoinSnoc(front: seq<string>, last: string)
    requires front != []
    ensures Join(front + [last]) == Join(front) + "/" + last
  {
    if |front| == 1 {
      assert (front + [last])[1..] == [last];
    } else {
      JoinSnoc(front[1..], last);
      assert (front + [last])[1..] == front[1..] + [last];
      assert Join(front + [last]) == front[0] + "/" + (Join(front[1..]) + "/" + last);
    }
  }

  /** The text before the last slash, which is where `cd ..` cuts. */
  lemma ParentText(cwd: string)
    requires Absolute(cwd) && StripRight(cwd) != ""
    ensures var s, m := StripRight(cwd), |Join(Front(cwd))|;
      && m < |s| && s[m] == '/' && Join(Front(cwd)) == s[..m]
      && forall i :: m < i < |s| ==> s[i] != '/'
  {
    hide Split, Join, StripRight;
    StripRightStack(cwd);
    var s := StripRight(cwd);
    var parts := Split(s);
    var front, last := parts[..|parts| - 1], parts[|parts| - 1];
    SplitPieces(s, |parts| - 1);
    JoinOfSplit(s);
    assert parts == front + [last];
    assert front != [] by { AbsoluteParts(s); }
    JoinSnoc(front, last);
    assert forall i :: |Join(front)| < i < |s| ==> s[i] == last[i - |Join(front)| - 1] && s[i] in last;
  }

  lemma AbsoluteParts(s: string)
    requires Absolute(s)
    ensures |Split(s)| >= 2
  {}

  lemma LeadKept(cwd: string)
    requires Absolute(cwd)
    ensures Lead(Parent(cwd)) == Lead(cwd) <==> KeepsLead(cwd)
  {
    hide Join, StripRight, Split, Slashes;
    RootStrips();
    StripRightStack(cwd);
    var s := StripRight(cwd);
    if s == "" {
      AllSlashes(cwd);
    } else {
      ParentText(cwd);
      LeadOfCut(s, |Join(Front(cwd))|);
    }
  }

  /** The leading slashes of a text and of what comes before its last slash. */
  lemma LeadOfCut(s: string, m: nat)
    requires Absolute(s) && s[|s| - 1] != '/' && m < |s| && s[m] == '/' && forall i :: m < i < |s| ==> s[i] != '/'
    ensures Lead(if s[..m] == "" then "/" else s[..m]) == Lead(s) <==>
      (Slashes(s) == 2 || Slashes(s) == 3 ==> '/' in s[Slashes(s)..])
  {
    hide Slashes;
    var k := Slashes(s);
    assert k < |s| && s[k] != '/' && s[k - 1] == '/';
    assert m >= k - 1;
    assert k <= m <==> '/' in s[k..] by {
      assert k <= m ==> s[k..][m - k] == '/';
    }
  }

  lemma {:induction false} AllSlashes(cwd: string)
    requires StripRight(cwd) == ""
    ensures forall i :: 0 <= i < |cwd| ==> cwd[i] == '/'
  {
    if cwd != "" { AllSlashes(cwd[..|cwd| - 1]); }
  }

  /** `cd ..` drops the last piece of the text. That is the parent directory exactly when the
      last piece is a real name, or nothing is left above it to cancel, the cut leaves the leading
      slashes as they were, and no component above holds a backslash. */
  lemma CdDotDotIff(cwd: string, home: string)
    requires Absolute(cwd)
    ensures SameDir(ResolveCd("..", cwd, home), Canon("..", cwd, home)) <==>
      (Proper(LastPiece(cwd)) || Above(cwd) == []) && KeepsLead(cwd) && Clean(Above(cwd))
  {
    hide Split, Walk, Join, Lead, Replace, Stack, SameDir, StripRight, KeepsLead, Parent, Above, Proper, LastPiece;
    LeadKept(cwd);
    ParentStack(cwd);
    DotDotStack(cwd, home);
    AboveOrBelow(cwd);
    assert ResolveCd("..", cwd, home) == Parent(cwd);
    SameDirResolved(Parent(cwd), JoinPath(cwd, ".."), Canon("..", cwd, home));
  }

  lemma AboveOrBelow(cwd: string)
    requires Absolute(cwd)
    ensures Pop(Stack(cwd)) == Above(cwd) <==> Proper(LastPiece(cwd)) || Above(cwd) == []
    ensures Clean(Above(cwd)) ==> Clean(Pop(Stack(cwd)))
  {
    hide Split, Walk, StripRight, Proper;
    RootStrips();
    if StripRight(cwd) != "" {
      LastPush(cwd);
      PopPush(Above(cwd), LastPiece(cwd));
    } else {
      AllSlashes(cwd);
      StripRightStack(cwd);
      SlashStack(cwd);
      assert Front(cwd) == [] && Above(cwd) == [];
    }
  }

  lemma SlashStack(cwd: string)
    requires Absolute(cwd) && StripRight(cwd) == ""
    ensures Stack(cwd) == []
  {
    hide StripRight;
    StripRightStack(cwd);
    RootStack();
  }

  lemma RootStack()
    ensures Stack("/") == []
  {}

  lemma DotDotStack(cwd: string, home: string)
    requires Absolute(cwd)
    ensures var r := JoinPath(cwd, "..");
      && Resolve("..", cwd, home) == r && Absolute(r) && Stack(r) == Pop(Stack(cwd)) && Lead(r) == Lead(cwd)
  {
    hide Split, Walk, Stack;
    SplitNoSlash("..");
    JoinStack(cwd, "..");
    StackProper(cwd);
    WalkOne(Stack(cwd), "..");
    assert Stack(cwd) != [] ==> Proper(Stack(cwd)[|Stack(cwd)| - 1]);
  }

  lemma WalkOne(stack: seq<string>, c: string)
    ensures Walk(true, stack, [c]) == Push(true, stack, c)
  {}

  lemma LastPush(cwd: string)
    requires Absolute(cwd) && StripRight(cwd) != ""
    ensures Stack(cwd) == Push(true, Above(cwd), LastPiece(cwd))
    ensures AllProper(Above(cwd)) && LastPiece(cwd) != "" && '/' !in LastPiece(cwd)
  {
    hide Split, Walk, StripRight, Push, Proper;
    var s := StripRight(cwd);
    var parts := Split(s);
    StripRightStack(cwd);
    SplitLast(s);
    forall i | 0 <= i < |parts| ensures '/' !in parts[i] { SplitPieces(s, i); }
    assert parts == Front(cwd) + [LastPiece(cwd)];
    WalkConcat(true, [], Front(cwd), [LastPiece(cwd)]);
    WalkOne(Above(cwd), LastPiece(cwd));
    WalkProper([], Front(cwd));
  }

  lemma PopPush(above: seq<string>, last: string)
    requires AllProper(above) && last != "" && '/' !in last
    ensures Pop(Push(true, above, last)) == above <==> Proper(last) || above == []
  {
    if above != [] { assert Proper(above[|above| - 1]); }
  }

  /** The pieces of a canonical path's text are its leading slashes and its components. */
  lemma CanonicalPieces(cwd: string)
    requires Canonical(cwd) && '\\' !in cwd && Stack(cwd) != []
    ensures var stack := Stack(cwd);
      && StripRight(cwd) == cwd
      && Split(cwd) == (if Lead(cwd) == "//" then ["", ""] else [""]) + stack
      && LastPiece(cwd) == stack[|stack| - 1] && Proper(LastPiece(cwd))
  {
    hide Walk, StripRight, Join, Split;
    RootStrips();
    var stack := Stack(cwd);
    SplitJoin(stack);
    SplitConcat("", Join(stack));
    assert "" + "/" + Join(stack) == "/" + Join(stack);
    if Lead(cwd) == "//" {
      SplitConcat("", "/" + Join(stack));
      assert cwd == "" + "/" + ("/" + Join(stack));
      assert [""] + ([""] + stack) == ["", ""] + stack;
    } else {
      assert cwd == "" + "/" + Join(stack);
    }
    LastPieceKept(cwd, stack[|stack| - 1]);
  }

  lemma DoubleParent(cwd: string)
    requires Canonical(cwd) && '\\' !in cwd && Lead(cwd) == "//"
    ensures Lead(Parent(cwd)) == "//" <==> |Stack(cwd)| >= 2
  {
    hide Walk, StripRight, Join, Split;
    RootStrips();
    var stack := Stack(cwd);
    if stack == [] {
      StripSlashes();
      assert cwd == "//";
      assert Front(cwd) == [];
    } else {
      var up := stack[..|stack| - 1];
      CanonicalPieces(cwd);
      assert Front(cwd) == ["", ""] + up;
      JoinSlashes(up);
      if up != [] {
        RenderStack("//", up);
      }
    }
  }

  lemma StripSlashes()
    ensures StripRight("//") == ""
  {
    assert "//"[..1] == "/" && "/"[..0] == "";
  }

  lemma JoinSlashes(up: seq<string>)
    ensures Join(["", ""] + up) == if up == [] then "/" else "//" + Join(up)
  {
    assert (["", ""] + up)[1..] == [""] + up && ([""] + up)[1..] == up;
  }

  /** In a canonical directory `cd ..` is right, exactly unless it is one level or less below
      two leading slashes. */
  lemma CdDotDotCanonical(cwd: string, home: string)
    requires Canonical(cwd) && '\\' !in cwd
    ensures SameDir(ResolveCd("..", cwd, home), Canon("..", cwd, home)) <==> Lead(cwd) == "/" || |Stack(cwd)| >= 2
  {
    hide Walk, StripRight, Join, ResolveCd, Canon, SameDir, Split, Parent, KeepsLead, Above, Stack;
    RootStrips();
    var stack := Stack(cwd);
    CdDotDotIff(cwd, home);
    StackClean(cwd);
    AboveOrBelow(cwd);
    if Lead(cwd) == "//" {
      LeadKept(cwd);
      DoubleParent(cwd);
    } else {
      SingleSlash(cwd);
      LeadKept(cwd);
      ParentLead(cwd);
    }
    if stack == [] {
      NoneAbove(cwd);
    } else {
      CanonicalPieces(cwd);
    }
  }

  lemma SingleSlash(cwd: string)
    requires Canonical(cwd) && '\\' !in cwd && Lead(cwd) != "//"
    ensures |cwd| == 1 || cwd[1] != '/'
  {
    hide Walk, Join, Split;
    RootStrips();
    RenderStack("/", Stack(cwd));
    if Stack(cwd) != [] {
      JoinHead(Stack(cwd));
    }
  }

  lemma JoinHead(stack: seq<string>)
    requires stack != [] && AllProper(stack)
    ensures Join(stack) != "" && Join(stack)[0] != '/'
  {
    assert stack[0] != "" && stack[0][0] in stack[0];
  }

  lemma NoneAbove(cwd: string)
    requires Canonical(cwd) && Stack(cwd) == []
    ensures Above(cwd) == []
  {
    RootStrips();
    StripSlashes();
    assert cwd == "/" || cwd == "//";
  }

  lemma RootStrips()
    ensures StripRight("/") == "" && Join([]) == "" && Split("") == [""] && Walk(true, [], []) == []
  {}

  lemma LastPieceKept(path: string, last: string)
    requires path != "" && Split(path)[|Split(path)| - 1] == last && last != ""
    ensures StripRight(path) == path
  {
    if path[|path| - 1] == '/' {
      var front := path[..|path| - 1];
      assert path == front + "/" + "";
      SplitConcat(front, "");
    }
  }

  /** `cd name/..` and then `cd ..` from the root ends up inside `name`. */
  lemma CdDotDotWrong(name: string, home: string)
    requires Proper(name) && name[0] != '~' && '\\' !in name
    ensures var cwd := ResolveCd(name + "/..", "/", home);
      ResolveCd("..", cwd, home) == "/" + name && Canon("..", cwd, home) == "/"
  {
    hide Walk, Split, Canon, Join;
    var cwd := "/" + name + "/..";
    assert StripRight("/") == "";
    assert ResolveCd(name + "/..", "/", home) == cwd;
    NameUp(name);
    DotDotStack(cwd, home);
    CanonOfResolved("..", cwd, home, JoinPath(cwd, ".."));
    assert StripRight(cwd) == cwd;
    assert Front(cwd) == ["", name];
    JoinRoot(name);
    RootStrips();
  }

  lemma JoinRoot(name: string)
    ensures Join(["", name]) == "/" + name
  {
    assert ["", name][1..] == [name];
  }

  lemma NameUp(name: string)
    requires Proper(name)
    ensures var path := "/" + name + "/..";
      Absolute(path) && Lead(path) == "/" && Stack(path) == [] && Split(path) == ["", name, ".."]
  {
    var root, dir, up := "", "/" + name, "..";
    var path := dir + "/" + up;
    assert path == "/" + name + "/..";
    SplitNoSlash(up);
    SplitNoSlash(name);
    assert dir == root + "/" + name;
    SplitConcat(root, name);
    SplitConcat(dir, up);
    var pieces := [root, name, up];
    assert Split(root) == [root];
    assert Split(path) == [root] + [name] + [up] == pieces;
    WalkConcat(true, [], [root, name], [up]);
    assert pieces == [root, name] + [up];
    WalkConcat(true, [], [root], [name]);
    assert [root, name] == [root] + [name];
    assert Walk(true, [], [root]) == [];
    WalkPushes([], [name]);
    assert Push(true, [name], up) == [];
    assert Walk(true, [name], [up]) == [];
    assert path[1] == name[0];
  }
}
