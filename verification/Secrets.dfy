/**
 Secret references in a configuration tree (plenith/secrets.py): how one is recognised and taken
 apart, and how a tree of them is resolved through a shared cache.
 */
module Secrets {
  import opened Common

  type Params = map<string, seq<string>>

  /** What a provider answers; `Failed` stands for any exception it raises. */
  datatype Outcome = Found(secret: string) | Failed(reason: string)

  /** The registered providers, and the query-string parser of the standard library. */
  datatype Env = Env(providers: map<string, (string, Params) -> Outcome>, parseQs: string -> Params)

  // ---- References ------------------------------------------------------------------------------

  /** `<scheme>://<spec>[?<query>][#<fragment>]`, taken apart. */
  datatype Parts = Parts(scheme: string, spec: string, query: Option<string>, fragment: Option<string>)

  predicate SchemeChar(c: char) {
    'a' <= c <= 'z' || '0' <= c <= '9' || c == '+' || c == '-'
  }

  predicate ValidScheme(s: string) {
    s != "" && 'a' <= s[0] <= 'z' && forall i :: 0 <= i < |s| ==> SchemeChar(s[i])
  }

  /** A scheme is a lower-case letter, and then lower-case letters, digits, `+` and `-`. */
  lemma SchemeSpelled(s: string)
    ensures ValidScheme(s) <==>
      && s != "" && s[0] in "abcdefghijklmnopqrstuvwxyz"
      && forall c :: c in s ==> c in "abcdefghijklmnopqrstuvwxyz0123456789+-"
  {
    hide SchemeChar;
    forall c ensures SchemeChar(c) <==> c in "abcdefghijklmnopqrstuvwxyz0123456789+-" { SchemeCharSpelled(c); }
    if s != "" { LetterSpelled(s[0]); }
  }

  lemma LetterSpelled(c: char)
    ensures 'a' <= c <= 'z' <==> c in "abcdefghijklmnopqrstuvwxyz"
  {
    var letters := "abcdefghijklmnopqrstuvwxyz";
    assert forall i :: 0 <= i < 26 ==> letters[i] as int == 'a' as int + i;
    if 'a' <= c <= 'z' { assert letters[c as int - 'a' as int] == c; }
  }

  lemma SchemeCharSpelled(c: char)
    ensures SchemeChar(c) <==> c in "abcdefghijklmnopqrstuvwxyz0123456789+-"
  {
    var all := "abcdefghijklmnopqrstuvwxyz0123456789+-";
    assert forall i :: 0 <= i < 26 ==> all[i] as int == 'a' as int + i;
    assert forall i :: 26 <= i < 36 ==> all[i] as int == '0' as int + (i - 26);
    assert all[36] == '+' && all[37] == '-';
    if 'a' <= c <= 'z' { assert all[c as int - 'a' as int] == c; }
    if '0' <= c <= '9' { assert all[26 + (c as int - '0' as int)] == c; }
  }

  /** The length of the longest run of scheme characters. */
  function SchemeRun(s: string): (n: nat)
    ensures n <= |s| && (forall i :: 0 <= i < n ==> SchemeChar(s[i])) && (n < |s| ==> !SchemeChar(s[n]))
  {
    if s != "" && SchemeChar(s[0]) then 1 + SchemeRun(s[1..]) else 0
  }

  /** `s.split(c, 1)`: what comes before the first `c`, and what comes after it. */
  function SplitAt(s: string, c: char): (r: (string, Option<string>))
    ensures c !in r.0
    ensures s == if r.1.Some? then r.0 + [c] + r.1.value else r.0
  {
    if s == "" then ("", None)
    else if s[0] == c then ("", Some(s[1..]))
    else var rest := SplitAt(s[1..], c); ([s[0]] + rest.0, rest.1)
  }

  function Apart(value: string): Option<Parts> {
    var n := SchemeRun(value);
    if n == 0 || !('a' <= value[0] <= 'z') || !("://" <= value[n..]) then None
    else
      var (body, fragment) := SplitAt(value[n + 3..], '#');
      var (spec, query) := SplitAt(body, '?');
      Some(Parts(value[..n], spec, query, fragment))
  }

  function Tail(mark: char, part: Option<string>): string {
    if part.Some? then [mark] + part.value else ""
  }

  function Written(p: Parts): string {
    p.scheme + "://" + p.spec + Tail('?', p.query) + Tail('#', p.fragment)
  }

  /** Parts that can be read back: the separators occur only where they separate. */
  predicate Readable(p: Parts) {
    ValidScheme(p.scheme) && '?' !in p.spec && '#' !in p.spec && (p.query.Some? ==> '#' !in p.query.value)
  }

  lemma {:induction false} SchemeRunOf(scheme: string, rest: string)
    requires forall i :: 0 <= i < |scheme| ==> SchemeChar(scheme[i])
    requires rest != "" && !SchemeChar(rest[0])
    ensures SchemeRun(scheme + rest) == |scheme|
  {
    if scheme == "" {
      assert scheme + rest == rest;
    } else {
      SchemeRunOf(scheme[1..], rest);
      assert (scheme + rest)[1..] == scheme[1..] + rest;
    }
  }

  lemma SplitJoins(s: string, c: char)
    ensures var (before, after) := SplitAt(s, c); s == before + Tail(c, after) && c !in before
  {
    hide SplitAt;
  }

  lemma SplitNotLonger(s: string, c: char, b: string, a: Option<string>, b': string, a': Option<string>)
    requires s == b + Tail(c, a) && s == b' + Tail(c, a') && c !in b
    ensures |b| <= |b'|
  {
    assert forall i :: 0 <= i < |b| ==> s[i] == b[i];
    assert |b'| < |s| ==> s[|b'|] == c;
  }

  /** The split is the only one with the separator not before it. */
  lemma SplitOf(before: string, c: char, after: Option<string>)
    requires c !in before
    ensures SplitAt(before + Tail(c, after), c) == (before, after)
  {
    hide SplitAt;
    var s := before + Tail(c, after);
    var (b, a) := SplitAt(s, c);
    SplitJoins(s, c);
    SplitNotLonger(s, c, b, a, before, after);
    SplitNotLonger(s, c, before, after, b, a);
    assert before == s[..|b|] == b;
    assert Tail(c, after) == s[|b|..] == Tail(c, a);
    TailInjective(c, after, a);
  }

  lemma TailInjective(c: char, a: Option<string>, b: Option<string>)
    requires Tail(c, a) == Tail(c, b)
    ensures a == b
  {
    if a.Some? && b.Some? {
      assert a.value == Tail(c, a)[1..] == Tail(c, b)[1..] == b.value;
    }
  }

  lemma WrittenApart(p: Parts)
    requires Readable(p)
    ensures Apart(Written(p)) == Some(p)
  {
    hide SplitAt, SchemeRun, Tail, Written, Readable, Apart;
    var value, body, fragment := Written(p), p.spec + Tail('?', p.query), Tail('#', p.fragment);
    WrittenText(p);
    WrittenParts(value, p.scheme, body, fragment);
    WrittenScheme(p, value);
    NoHash(p);
    SplitOf(body, '#', p.fragment);
    SplitOf(p.spec, '?', p.query);
    ApartBy(value, p, body);
  }

  lemma ApartBy(value: string, p: Parts, body: string)
    requires |value| >= |p.scheme| + 3 && p.scheme != "" && SchemeRun(value) == |p.scheme| && 'a' <= value[0] <= 'z'
    requires value[..|p.scheme|] == p.scheme && "://" <= value[|p.scheme|..]
    requires SplitAt(value[|p.scheme| + 3..], '#') == (body, p.fragment) && SplitAt(body, '?') == (p.spec, p.query)
    ensures Apart(value) == Some(p)
  {
    hide SplitAt, SchemeRun;
  }

  lemma WrittenText(p: Parts)
    requires Readable(p)
    ensures Written(p) == p.scheme + "://" + (p.spec + Tail('?', p.query)) + Tail('#', p.fragment)
    ensures p.scheme != "" && 'a' <= p.scheme[0] <= 'z' && '?' !in p.spec
  {
    hide Tail;
  }

  lemma WrittenScheme(p: Parts, value: string)
    requires Readable(p) && |value| >= |p.scheme| + 3 && value[..|p.scheme|] == p.scheme && "://" <= value[|p.scheme|..]
    ensures SchemeRun(value) == |p.scheme| && value[0] == p.scheme[0]
  {
    hide SchemeRun;
    var rest := value[|p.scheme|..];
    assert value == p.scheme + rest && rest[0] == "://"[0];
    SchemeRunOf(p.scheme, rest);
  }

  lemma WrittenParts(value: string, scheme: string, body: string, fragment: string)
    requires value == scheme + "://" + body + fragment
    ensures |value| >= |scheme| + 3 && value[..|scheme|] == scheme && value[|scheme| + 3..] == body + fragment
    ensures "://" <= value[|scheme|..]
  {
    assert value == scheme + ("://" + (body + fragment));
    assert value[|scheme|..] == "://" + (body + fragment);
  }

  lemma NoHash(p: Parts)
    requires Readable(p)
    ensures '#' !in p.spec + Tail('?', p.query)
  {}

  lemma NotInParts(s: string, c: char, x: char)
    requires x !in s
    ensures var (before, after) := SplitAt(s, c); x !in before && (after.Some? ==> x !in after.value)
  {
    hide SplitAt;
    var (before, after) := SplitAt(s, c);
    assert forall i :: 0 <= i < |before| ==> before[i] == s[i];
    assert after.Some? ==> forall i :: 0 <= i < |after.value| ==> after.value[i] == s[|before| + 1 + i];
  }

  lemma SchemeValid(value: string)
    requires SchemeRun(value) > 0 && 'a' <= value[0] <= 'z'
    ensures ValidScheme(value[..SchemeRun(value)])
  {
    hide SchemeRun;
  }

  lemma ApartWritten(value: string, p: Parts)
    requires Apart(value) == Some(p)
    ensures Readable(p) && value == Written(p)
  {
    hide SplitAt, SchemeRun, Tail, ValidScheme;
    var n := SchemeRun(value);
    var rest := value[n + 3..];
    var body := SplitAt(rest, '#').0;
    SchemeValid(value);
    SplitTwice(rest, body, p);
    ApartJoins(value, n, rest, body, p.spec, Tail('?', p.query), Tail('#', p.fragment));
  }

  lemma SplitTwice(rest: string, body: string, p: Parts)
    requires SplitAt(rest, '#') == (body, p.fragment) && SplitAt(body, '?') == (p.spec, p.query)
    ensures body == p.spec + Tail('?', p.query) && rest == body + Tail('#', p.fragment)
    ensures '?' !in p.spec && '#' !in p.spec && (p.query.Some? ==> '#' !in p.query.value)
  {
    hide SplitAt, Tail;
    SplitJoins(rest, '#');
    SplitJoins(body, '?');
    NotInParts(body, '?', '#');
  }

  lemma ApartJoins(value: string, n: nat, rest: string, body: string, spec: string, query: string, fragment: string)
    requires n + 3 <= |value| && rest == value[n + 3..] && "://" <= value[n..]
    requires body == spec + query && rest == body + fragment
    ensures value == value[..n] + "://" + spec + query + fragment
  {
    assert value[n..n + 3] == "://";
    assert value == value[..n] + value[n..n + 3] + rest;
  }

  /** Writing and reading back is the identity, and whatever is read was written so: the parser
      accepts exactly the readable parts. */
  lemma ApartIffWritten(value: string, p: Parts)
    ensures Apart(value) == Some(p) <==> Readable(p) && value == Written(p)
  {
    hide Apart, Readable, Written;
    if Readable(p) {
      WrittenApart(p);
    }
    if Apart(value) == Some(p) {
      ApartWritten(value, p);
    }
  }

  /** A reference is a readable value whose scheme is registered; any other text is plain. */
  function ParseReference(env: Env, value: string): Option<Parts> {
    var p := Apart(value);
    if p.Some? && p.value.scheme in env.providers then p else None
  }

  predicate IsReference(env: Env, value: string) {
    ParseReference(env, value).Some?
  }

  function ParamsOf(env: Env, p: Parts): Params {
    var params := if p.query.Some? then env.parseQs(p.query.value) else map[];
    if p.fragment.Some? && p.fragment.value != "" then params["_fragment" := [p.fragment.value]] else params
  }

  /** What a reference stands for: the provider's answer, or else its default. */
  function Answer(env: Env, value: string): Outcome
    requires IsReference(env, value)
  {
    var p := ParseReference(env, value).value;
    var params := ParamsOf(env, p);
    var defaults := if "default" in params then params["default"] else [];
    match env.providers[p.scheme](p.spec, params - {"default"})
    case Found(secret) => Found(secret)
    case Failed(reason) => if defaults != [] then Found(defaults[0]) else Failed(reason)
  }

  /** What a provider is handed: the query's parameters without the default, and the fragment, when
      there is a non-empty one, under a name of its own. */
  ghost predicate HandedOver(params: Params, query: Params, fragment: Option<string>) {
    && "default" !in params
    && (forall k :: k != "default" && k != "_fragment" ==>
          (k in params <==> k in query) && (k in params ==> params[k] == query[k]))
    && (if fragment.Some? && fragment.value != "" then "_fragment" in params && params["_fragment"] == [fragment.value]
        else ("_fragment" in params <==> "_fragment" in query)
             && ("_fragment" in params ==> params["_fragment"] == query["_fragment"]))
  }

  /** A reference with a registered scheme asks that provider for its spec with those parameters, and
      falls back on the first default of the query only if the provider fails. */
  lemma AnswerAsks(env: Env, p: Parts, params: Params)
    requires Readable(p) && p.scheme in env.providers
    requires HandedOver(params, if p.query.Some? then env.parseQs(p.query.value) else map[], p.fragment)
    ensures IsReference(env, Written(p))
    ensures var query := if p.query.Some? then env.parseQs(p.query.value) else map[];
      var asked := env.providers[p.scheme](p.spec, params);
      Answer(env, Written(p)) ==
        if asked.Failed? && "default" in query && query["default"] != [] then Found(query["default"][0]) else asked
  {
    hide Apart, Written, Readable;
    ApartIffWritten(Written(p), p);
    var handed := ParamsOf(env, p) - {"default"};
    assert forall k :: k in handed <==> k in params;
    assert handed == params;
  }

  // ---- The tree --------------------------------------------------------------------------------

  /** A configuration: dicts in insertion order, lists, text and everything else. */
  datatype Config =
    | Dict(entries: seq<Entry>)
    | Listing(items: seq<Config>)
    | Text(text: string)
    | Scalar(number: real)

  datatype Entry = Entry(key: string, value: Config)

  datatype Leaf = Leaf(path: string, text: string)

  function Digits(n: nat): string {
    if n < 10 then ["0123456789"[n]] else Digits(n / 10) + ["0123456789"[n % 10]]
  }

  function KeyPath(path: string, key: string): string {
    if path != "" then path + "." + key else key
  }

  function ItemPath(path: string, i: nat): string {
    path + "[" + Digits(i) + "]"
  }

  function Shown(path: string): string {
    if path != "" then path else "<root>"
  }

  /** The text leaves of a tree with their paths, in the order of the walk. */
  function Leaves(cfg: Config, path: string): seq<Leaf>
    decreases cfg, 1, 0
  {
    match cfg
    case Dict(entries) => EntryLeaves(cfg, path, |entries|)
    case Listing(items) => ItemLeaves(cfg, path, |items|)
    case Text(text) => [Leaf(Shown(path), text)]
    case Scalar(_) => []
  }

  function EntryLeaves(cfg: Config, path: string, k: nat): seq<Leaf>
    requires cfg.Dict? && k <= |cfg.entries|
    decreases cfg, 0, k
  {
    if k == 0 then []
    else
      var e := cfg.entries[k - 1];
      EntryLeaves(cfg, path, k - 1) + Leaves(e.value, KeyPath(path, e.key))
  }

  function ItemLeaves(cfg: Config, path: string, k: nat): seq<Leaf>
    requires cfg.Listing? && k <= |cfg.items|
    decreases cfg, 0, k
  {
    if k == 0 then [] else ItemLeaves(cfg, path, k - 1) + Leaves(cfg.items[k - 1], ItemPath(path, k - 1))
  }

  /** A way down a tree. */
  datatype Turn = Key(key: string) | Index(i: nat)

  /** The turns lead from the tree, found under `path`, to the leaf and spell its path. */
  ghost predicate LeadsTo(cfg: Config, path: string, turns: seq<Turn>, l: Leaf)
    decreases turns
  {
    if turns == [] then cfg.Text? && l == Leaf(if path == "" then "<root>" else path, cfg.text)
    else
      match turns[0]
      case Key(key) =>
        cfg.Dict? && exists k :: 0 <= k < |cfg.entries| && cfg.entries[k].key == key
                                 && LeadsTo(cfg.entries[k].value, Dotted(path, key), turns[1..], l)
      case Index(i) =>
        cfg.Listing? && i < |cfg.items| && LeadsTo(cfg.items[i], path + "[" + Digits(i) + "]", turns[1..], l)
  }

  function Dotted(path: string, key: string): string {
    (if path == "" then "" else path + ".") + key
  }

  lemma SameDots(path: string, key: string)
    ensures KeyPath(path, key) == Dotted(path, key)
  {
    assert "" + key == key;
  }

  lemma {:induction false} EntryOfLeaf(cfg: Config, path: string, k: nat, l: Leaf) returns (i: nat)
    requires cfg.Dict? && k <= |cfg.entries| && l in EntryLeaves(cfg, path, k)
    ensures i < k && l in Leaves(cfg.entries[i].value, Dotted(path, cfg.entries[i].key))
  {
    hide Leaves, KeyPath, Dotted;
    SameDots(path, cfg.entries[k - 1].key);
    if l in Leaves(cfg.entries[k - 1].value, KeyPath(path, cfg.entries[k - 1].key)) {
      i := k - 1;
    } else {
      i := EntryOfLeaf(cfg, path, k - 1, l);
    }
  }

  lemma {:induction false} ItemOfLeaf(cfg: Config, path: string, k: nat, l: Leaf) returns (i: nat)
    requires cfg.Listing? && k <= |cfg.items| && l in ItemLeaves(cfg, path, k)
    ensures i < k && l in Leaves(cfg.items[i], ItemPath(path, i))
  {
    hide Leaves, ItemPath;
    if l in Leaves(cfg.items[k - 1], ItemPath(path, k - 1)) {
      i := k - 1;
    } else {
      i := ItemOfLeaf(cfg, path, k - 1, l);
    }
  }

  lemma {:induction false} LeafOfEntry(cfg: Config, path: string, k: nat, i: nat, l: Leaf)
    requires cfg.Dict? && i < k <= |cfg.entries|
    requires l in Leaves(cfg.entries[i].value, Dotted(path, cfg.entries[i].key))
    ensures l in EntryLeaves(cfg, path, k)
  {
    hide Leaves, KeyPath, Dotted;
    SameDots(path, cfg.entries[k - 1].key);
    if i < k - 1 {
      LeafOfEntry(cfg, path, k - 1, i, l);
    }
  }

  lemma {:induction false} LeafOfItem(cfg: Config, path: string, k: nat, i: nat, l: Leaf)
    requires cfg.Listing? && i < k <= |cfg.items| && l in Leaves(cfg.items[i], ItemPath(path, i))
    ensures l in ItemLeaves(cfg, path, k)
  {
    hide Leaves, ItemPath;
    if i < k - 1 {
      LeafOfItem(cfg, path, k - 1, i, l);
    }
  }

  /** Every leaf has an address. */
  lemma {:induction false} LeafHasAddress(cfg: Config, path: string, l: Leaf) returns (turns: seq<Turn>)
    requires l in Leaves(cfg, path)
    ensures LeadsTo(cfg, path, turns, l)
    decreases cfg
  {
    hide Dotted, Digits;
    match cfg
    case Text(_) => turns := [];
    case Dict(entries) =>
      var k := EntryOfLeaf(cfg, path, |entries|, l);
      var rest := LeafHasAddress(entries[k].value, Dotted(path, entries[k].key), l);
      turns := [Key(entries[k].key)] + rest;
      assert turns[1..] == rest;
    case Listing(items) =>
      var k := ItemOfLeaf(cfg, path, |items|, l);
      var rest := LeafHasAddress(items[k], ItemPath(path, k), l);
      turns := [Index(k)] + rest;
      assert turns[1..] == rest;
  }

  /** Every address is that of a leaf. */
  lemma {:induction false} AddressIsLeaf(cfg: Config, path: string, turns: seq<Turn>, l: Leaf)
    requires LeadsTo(cfg, path, turns, l)
    ensures l in Leaves(cfg, path)
    decreases turns
  {
    hide Dotted, Digits;
    if turns != [] {
      match turns[0]
      case Key(key) =>
        var k :| 0 <= k < |cfg.entries| && cfg.entries[k].key == key
                 && LeadsTo(cfg.entries[k].value, Dotted(path, key), turns[1..], l);
        AddressIsLeaf(cfg.entries[k].value, Dotted(path, key), turns[1..], l);
        LeafOfEntry(cfg, path, |cfg.entries|, k, l);
      case Index(i) =>
        AddressIsLeaf(cfg.items[i], ItemPath(path, i), turns[1..], l);
        LeafOfItem(cfg, path, |cfg.items|, i, l);
    }
  }

  /** The walk meets each text of the tree under the path that leads to it, and nothing else. */
  lemma LeafIffAddressed(cfg: Config, path: string, l: Leaf)
    ensures l in Leaves(cfg, path) <==> exists turns :: LeadsTo(cfg, path, turns, l)
  {
    hide Leaves, LeadsTo;
    if l in Leaves(cfg, path) {
      var turns := LeafHasAddress(cfg, path, l);
    }
    if turns: seq<Turn> :| LeadsTo(cfg, path, turns, l) {
      AddressIsLeaf(cfg, path, turns, l);
    }
  }

  function Numeral(s: string): int {
    if s == "" then 0 else 10 * Numeral(s[..|s| - 1]) + (s[|s| - 1] as int - '0' as int)
  }

  /** An index is spelled as its decimal numeral. */
  lemma {:induction false} DigitsSpell(n: nat)
    ensures Numeral(Digits(n)) == n && Digits(n) != "" && (n > 0 ==> Digits(n)[0] != '0')
    ensures forall i :: 0 <= i < |Digits(n)| ==> '0' <= Digits(n)[i] <= '9'
  {
    if n >= 10 {
      DigitsSpell(n / 10);
      assert Digits(n)[..|Digits(n)| - 1] == Digits(n / 10);
    } else {
      assert Digits(n)[..0] == "";
    }
  }

  function References(env: Env, leaves: seq<Leaf>): seq<Leaf> {
    if leaves == [] then []
    else
      var front, last := References(env, leaves[..|leaves| - 1]), leaves[|leaves| - 1];
      if IsReference(env, last.text) then front + [last] else front
  }

  lemma {:induction false} ReferencesConcat(env: Env, a: seq<Leaf>, b: seq<Leaf>)
    ensures References(env, a + b) == References(env, a) + References(env, b)
  {
    hide IsReference;
    if b == [] {
      assert a + b == a;
    } else {
      ReferencesConcat(env, a, b[..|b| - 1]);
      assert (a + b)[..|a + b| - 1] == a + b[..|b| - 1];
    }
  }

  /** `find_references`: the walk lists exactly the reference leaves, in order. */
  method FindReferences(env: Env, cfg: Config, path: string) returns (found: seq<Leaf>)
    ensures found == References(env, Leaves(cfg, path))
    decreases cfg
  {
    hide IsReference;
    found := [];
    match cfg {
      case Dict(entries) =>
        for k := 0 to |entries|
          invariant found == References(env, EntryLeaves(cfg, path, k))
        {
          var more := FindReferences(env, entries[k].value, KeyPath(path, entries[k].key));
          ReferencesConcat(env, EntryLeaves(cfg, path, k), Leaves(entries[k].value, KeyPath(path, entries[k].key)));
          found := found + more;
        }
      case Listing(items) =>
        for k := 0 to |items|
          invariant found == References(env, ItemLeaves(cfg, path, k))
        {
          var more := FindReferences(env, items[k], ItemPath(path, k));
          ReferencesConcat(env, ItemLeaves(cfg, path, k), Leaves(items[k], ItemPath(path, k)));
          found := found + more;
        }
      case Text(text) =>
        assert Leaves(cfg, path)[..0] == [];
        if IsReference(env, text) {
          found := [Leaf(Shown(path), text)];
        }
      case Scalar(_) =>
    }
  }

  // ---- Resolution without a cache --------------------------------------------------------------

  datatype Failure = Failure(path: string, reference: string, reason: string)

  datatype Result<T> = Ok(value: T) | Err(failure: Failure)

  /** The first reference that cannot be resolved, in the order of the walk. */
  function FirstFailure(env: Env, leaves: seq<Leaf>): Option<Failure> {
    if leaves == [] then None
    else
      var l, earlier := leaves[|leaves| - 1], FirstFailure(env, leaves[..|leaves| - 1]);
      if earlier.Some? then earlier
      else if IsReference(env, l.text) && Answer(env, l.text).Failed? then
        Some(Failure(l.path, l.text, Answer(env, l.text).reason))
      else None
  }

  lemma {:induction false} FirstFailureConcat(env: Env, a: seq<Leaf>, b: seq<Leaf>)
    ensures FirstFailure(env, a + b) ==
      if FirstFailure(env, a).Some? then FirstFailure(env, a) else FirstFailure(env, b)
  {
    hide IsReference, Answer;
    if b == [] {
      assert a + b == a;
    } else {
      FirstFailureConcat(env, a, b[..|b| - 1]);
      assert (a + b)[..|a + b| - 1] == a + b[..|b| - 1];
    }
  }

  /** What a text becomes: the secret it refers to, or itself. */
  function Replaced(env: Env, text: string): string {
    if IsReference(env, text) && Answer(env, text).Found? then Answer(env, text).secret else text
  }

  function Substituted(env: Env, cfg: Config): Config
    decreases cfg, 1, 0
  {
    match cfg
    case Dict(entries) => Dict(SubstitutedEntries(env, cfg, |entries|))
    case Listing(items) => Listing(SubstitutedItems(env, cfg, |items|))
    case Text(text) => Text(Replaced(env, text))
    case Scalar(_) => cfg
  }

  function SubstitutedEntries(env: Env, cfg: Config, k: nat): (r: seq<Entry>)
    requires cfg.Dict? && k <= |cfg.entries|
    ensures |r| == k
    decreases cfg, 0, k
  {
    if k == 0 then []
    else
      SubstitutedEntries(env, cfg, k - 1) + [Entry(cfg.entries[k - 1].key, Substituted(env, cfg.entries[k - 1].value))]
  }

  function SubstitutedItems(env: Env, cfg: Config, k: nat): (r: seq<Config>)
    requires cfg.Listing? && k <= |cfg.items|
    ensures |r| == k
    decreases cfg, 0, k
  {
    if k == 0 then [] else SubstitutedItems(env, cfg, k - 1) + [Substituted(env, cfg.items[k - 1])]
  }

  /** What resolving a tree owes, with no cache in sight: every reference replaced and nothing else,
      or else the first failure. */
  function Owed(env: Env, cfg: Config, path: string): Result<Config> {
    match FirstFailure(env, Leaves(cfg, path))
    case Some(f) => Err(f)
    case None => Ok(Substituted(env, cfg))
  }

  // ---- Resolution through the cache ------------------------------------------------------------

  class Resolver {
    var cache: map<string, string>

    constructor ()
      ensures cache == map[]
    {
      cache := map[];
    }

    /** The cache holds only true answers. */
    ghost predicate Sound(env: Env)
      reads this
    {
      forall uri :: uri in cache ==> IsReference(env, uri) && Answer(env, uri) == Found(cache[uri])
    }

    method ResolveValue(env: Env, value: string, fieldPath: string) returns (r: Result<string>)
      requires Sound(env)
      modifies this
      ensures Sound(env)
      ensures r == if FirstFailure(env, [Leaf(fieldPath, value)]).Some?
        then Err(FirstFailure(env, [Leaf(fieldPath, value)]).value) else Ok(Replaced(env, value))
    {
      hide ParseReference, ParamsOf;
      assert [Leaf(fieldPath, value)][..0] == [];
      var parsed := ParseReference(env, value);
      assert IsReference(env, value) <==> parsed.Some?;
      if parsed == None {
        return Ok(value);
      }
      if value in cache {
        return Ok(cache[value]);
      }
      var params := ParamsOf(env, parsed.value);
      var defaults := if "default" in params then params["default"] else [];
      Registered(env, value);
      var answer := env.providers[parsed.value.scheme](parsed.value.spec, params - {"default"});
      match answer {
        case Found(secret) =>
          cache := cache[value := secret];
          return Ok(secret);
        case Failed(reason) =>
          if defaults != [] {
            cache := cache[value := defaults[0]];
            return Ok(defaults[0]);
          }
          return Err(Failure(fieldPath, value, reason));
      }
    }

    /** The cached walk gives just what the cache-free specification owes. */
    method Resolve(env: Env, cfg: Config, path: string) returns (r: Result<Config>)
      requires Sound(env)
      modifies this
      ensures Sound(env)
      ensures r == Owed(env, cfg, path)
      decreases cfg
    {
      hide FirstFailure, Replaced, Sound;
      NoLeaves(env);
      match cfg {
        case Dict(entries) =>
          var out: seq<Entry> := [];
          for k := 0 to |entries|
            invariant Sound(env)
            invariant out == SubstitutedEntries(env, cfg, k) && FirstFailure(env, EntryLeaves(cfg, path, k)) == None
          {
            var e := entries[k];
            EntryFailure(env, cfg, path, k);
            var v := Resolve(env, e.value, KeyPath(path, e.key));
            if v.Err? {
              EntryEnds(env, cfg, path, k + 1, v.failure);
              return Err(v.failure);
            }
            out := out + [Entry(e.key, v.value)];
          }
          return Ok(Dict(out));
        case Listing(items) =>
          var out: seq<Config> := [];
          for k := 0 to |items|
            invariant Sound(env)
            invariant out == SubstitutedItems(env, cfg, k) && FirstFailure(env, ItemLeaves(cfg, path, k)) == None
          {
            ItemFailure(env, cfg, path, k);
            var v := Resolve(env, items[k], ItemPath(path, k));
            if v.Err? {
              ItemEnds(env, cfg, path, k + 1, v.failure);
              return Err(v.failure);
            }
            out := out + [v.value];
          }
          return Ok(Listing(out));
        case Text(text) =>
          var v := ResolveValue(env, text, Shown(path));
          if v.Err? {
            return Err(v.failure);
          }
          return Ok(Text(v.value));
        case Scalar(_) =>
          return Ok(cfg);
      }
    }
  }

  lemma Registered(env: Env, value: string)
    requires IsReference(env, value)
    ensures ParseReference(env, value).value.scheme in env.providers
  {}

  lemma NoLeaves(env: Env)
    ensures FirstFailure(env, []) == None
  {}

  lemma EntryFailure(env: Env, cfg: Config, path: string, k: nat)
    requires cfg.Dict? && k < |cfg.entries| && FirstFailure(env, EntryLeaves(cfg, path, k)) == None
    ensures FirstFailure(env, EntryLeaves(cfg, path, k + 1))
      == FirstFailure(env, Leaves(cfg.entries[k].value, KeyPath(path, cfg.entries[k].key)))
  {
    hide FirstFailure;
    FirstFailureConcat(env, EntryLeaves(cfg, path, k), Leaves(cfg.entries[k].value, KeyPath(path, cfg.entries[k].key)));
  }

  lemma ItemFailure(env: Env, cfg: Config, path: string, k: nat)
    requires cfg.Listing? && k < |cfg.items| && FirstFailure(env, ItemLeaves(cfg, path, k)) == None
    ensures FirstFailure(env, ItemLeaves(cfg, path, k + 1)) ==
      FirstFailure(env, Leaves(cfg.items[k], ItemPath(path, k)))
  {
    hide FirstFailure;
    FirstFailureConcat(env, ItemLeaves(cfg, path, k), Leaves(cfg.items[k], ItemPath(path, k)));
  }

  /** A failure found is the failure of the whole walk. */
  lemma {:induction false} EntryEnds(env: Env, cfg: Config, path: string, k: nat, f: Failure)
    requires cfg.Dict? && k <= |cfg.entries| && FirstFailure(env, EntryLeaves(cfg, path, k)) == Some(f)
    ensures FirstFailure(env, Leaves(cfg, path)) == Some(f)
    decreases |cfg.entries| - k
  {
    hide FirstFailure;
    if k < |cfg.entries| {
      var e := cfg.entries[k];
      FirstFailureConcat(env, EntryLeaves(cfg, path, k), Leaves(e.value, KeyPath(path, e.key)));
      EntryEnds(env, cfg, path, k + 1, f);
    }
  }

  lemma {:induction false} ItemEnds(env: Env, cfg: Config, path: string, k: nat, f: Failure)
    requires cfg.Listing? && k <= |cfg.items| && FirstFailure(env, ItemLeaves(cfg, path, k)) == Some(f)
    ensures FirstFailure(env, Leaves(cfg, path)) == Some(f)
    decreases |cfg.items| - k
  {
    hide FirstFailure;
    if k < |cfg.items| {
      FirstFailureConcat(env, ItemLeaves(cfg, path, k), Leaves(cfg.items[k], ItemPath(path, k)));
      ItemEnds(env, cfg, path, k + 1, f);
    }
  }

  // ---- What resolution may change --------------------------------------------------------------

  /** The same tree up to the text of its leaves. */
  predicate SameShape(a: Config, b: Config)
    decreases a
  {
    match a
    case Dict(entries) =>
      && b.Dict? && |entries| == |b.entries|
      && forall i :: 0 <= i < |entries| ==>
           entries[i].key == b.entries[i].key && SameShape(entries[i].value, b.entries[i].value)
    case Listing(items) =>
      b.Listing? && |items| == |b.items| && forall i :: 0 <= i < |items| ==> SameShape(items[i], b.items[i])
    case Text(_) => b.Text?
    case Scalar(_) => a == b
  }

  lemma {:induction false} EntriesAt(env: Env, cfg: Config, k: nat, i: nat)
    requires cfg.Dict? && i < k <= |cfg.entries|
    ensures SubstitutedEntries(env, cfg, k)[i] == Entry(cfg.entries[i].key, Substituted(env, cfg.entries[i].value))
  {
    if i < k - 1 {
      EntriesAt(env, cfg, k - 1, i);
    }
  }

  lemma {:induction false} ItemsAt(env: Env, cfg: Config, k: nat, i: nat)
    requires cfg.Listing? && i < k <= |cfg.items|
    ensures SubstitutedItems(env, cfg, k)[i] == Substituted(env, cfg.items[i])
  {
    if i < k - 1 {
      ItemsAt(env, cfg, k - 1, i);
    }
  }

  lemma {:induction false} ShapeKept(env: Env, cfg: Config)
    ensures SameShape(cfg, Substituted(env, cfg))
    decreases cfg
  {
    hide Replaced;
    match cfg
    case Dict(entries) =>
      forall i | 0 <= i < |entries|
        ensures var e := SubstitutedEntries(env, cfg, |entries|)[i];
          entries[i].key == e.key && SameShape(entries[i].value, e.value)
      {
        EntriesAt(env, cfg, |entries|, i);
        ShapeKept(env, entries[i].value);
      }
    case Listing(items) =>
      forall i | 0 <= i < |items| ensures SameShape(items[i], SubstitutedItems(env, cfg, |items|)[i]) {
        ItemsAt(env, cfg, |items|, i);
        ShapeKept(env, items[i]);
      }
    case Text(_) =>
    case Scalar(_) =>
  }

  /** The leaves of `b` are those of `a`, each replaced by its secret or left alone. */
  ghost predicate Swapped(env: Env, a: seq<Leaf>, b: seq<Leaf>) {
    |a| == |b| && forall i :: 0 <= i < |a| ==> b[i] == Leaf(a[i].path, Replaced(env, a[i].text))
  }

  lemma SwappedConcat(env: Env, a: seq<Leaf>, b: seq<Leaf>, c: seq<Leaf>, d: seq<Leaf>)
    requires Swapped(env, a, b) && Swapped(env, c, d)
    ensures Swapped(env, a + c, b + d)
  {
    hide Replaced;
  }

  lemma {:induction false} LeavesSwapped(env: Env, cfg: Config, path: string)
    ensures Swapped(env, Leaves(cfg, path), Leaves(Substituted(env, cfg), path))
    decreases cfg, 1, 0
  {
    hide Replaced;
    match cfg
    case Dict(entries) => EntriesSwapped(env, cfg, path, |entries|);
    case Listing(items) => ItemsSwapped(env, cfg, path, |items|);
    case Text(_) =>
    case Scalar(_) =>
  }

  lemma {:induction false} EntriesSwapped(env: Env, cfg: Config, path: string, k: nat)
    requires cfg.Dict? && k <= |cfg.entries|
    ensures Swapped(env, EntryLeaves(cfg, path, k), EntryLeaves(Substituted(env, cfg), path, k))
    decreases cfg, 0, k
  {
    hide Replaced, Swapped;
    if k == 0 {
      NothingSwapped(env);
    } else {
      var e := cfg.entries[k - 1];
      EntriesSwapped(env, cfg, path, k - 1);
      LeavesSwapped(env, e.value, KeyPath(path, e.key));
      EntriesAt(env, cfg, |cfg.entries|, k - 1);
      SwappedConcat(env, EntryLeaves(cfg, path, k - 1), EntryLeaves(Substituted(env, cfg), path, k - 1),
                    Leaves(e.value, KeyPath(path, e.key)), Leaves(Substituted(env, e.value), KeyPath(path, e.key)));
    }
  }

  lemma {:induction false} ItemsSwapped(env: Env, cfg: Config, path: string, k: nat)
    requires cfg.Listing? && k <= |cfg.items|
    ensures Swapped(env, ItemLeaves(cfg, path, k), ItemLeaves(Substituted(env, cfg), path, k))
    decreases cfg, 0, k
  {
    hide Replaced, Swapped;
    if k == 0 {
      NothingSwapped(env);
    } else {
      ItemsSwapped(env, cfg, path, k - 1);
      LeavesSwapped(env, cfg.items[k - 1], ItemPath(path, k - 1));
      ItemsAt(env, cfg, |cfg.items|, k - 1);
      SwappedConcat(env, ItemLeaves(cfg, path, k - 1), ItemLeaves(Substituted(env, cfg), path, k - 1),
                    Leaves(cfg.items[k - 1], ItemPath(path, k - 1)),
                    Leaves(Substituted(env, cfg.items[k - 1]), ItemPath(path, k - 1)));
    }
  }

  lemma NothingSwapped(env: Env)
    ensures Swapped(env, [], [])
  {}

  lemma {:induction false} FoundIffLeaf(env: Env, leaves: seq<Leaf>, l: Leaf)
    ensures l in References(env, leaves) <==> l in leaves && IsReference(env, l.text)
  {
    hide IsReference;
    if leaves != [] {
      FoundIffLeaf(env, leaves[..|leaves| - 1], l);
      assert leaves == leaves[..|leaves| - 1] + [leaves[|leaves| - 1]];
    }
  }

  lemma {:induction false} FailsIffReference(env: Env, leaves: seq<Leaf>)
    ensures forall l :: l in References(env, leaves) ==> IsReference(env, l.text)
    ensures FirstFailure(env, leaves) == None <==>
      forall l :: l in References(env, leaves) ==> Answer(env, l.text).Found?
  {
    hide Answer, IsReference;
    if leaves != [] {
      FailsIffReference(env, leaves[..|leaves| - 1]);
    }
  }

  /** Resolution succeeds exactly when every reference that `find_references` reports can be
      answered; then the tree keeps its shape, every leaf its path, and only reported leaves
      change, each to its secret. */
  lemma ResolveChangesReferences(env: Env, cfg: Config, path: string)
    ensures forall l :: l in References(env, Leaves(cfg, path)) ==> IsReference(env, l.text)
    ensures Owed(env, cfg, path).Ok? <==>
      forall l :: l in References(env, Leaves(cfg, path)) ==> Answer(env, l.text).Found?
    ensures Owed(env, cfg, path).Ok? ==>
      var before, out := Leaves(cfg, path), Owed(env, cfg, path).value;
      var after := Leaves(out, path);
      && SameShape(cfg, out)
      && |after| == |before|
      && forall i :: 0 <= i < |before| ==>
           after[i].path == before[i].path && (after[i] != before[i] ==> before[i] in References(env, before))
  {
    hide Answer, IsReference;
    FailsIffReference(env, Leaves(cfg, path));
    ShapeKept(env, cfg);
    LeavesSwapped(env, cfg, path);
    var before := Leaves(cfg, path);
    forall i | 0 <= i < |before| ensures before[i] in References(env, before) <==> IsReference(env, before[i].text) {
      FoundIffLeaf(env, before, before[i]);
    }
  }
}
