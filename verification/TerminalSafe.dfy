/**
 The terminal sanitiser (`_CONTROL_RE` and `_safe` in tools/audit.py): a leftmost-first scanner
 over control sequences (section 5.4 of ECMA-48), control strings and bare control characters.
 */
module TerminalSafe {
  import opened Common

  const ESC := '\U{1b}'
  const BEL := '\U{7}'

  predicate Between(c: char, low: int, high: int) {
    low <= c as int <= high
  }

  /** The bare C0 and C1 controls, without tab, line feed and carriage return. */
  predicate Control(c: char) {
    Between(c, 0x00, 0x08) || Between(c, 0x0b, 0x0c) || Between(c, 0x0e, 0x1f) || Between(c, 0x7f, 0x9f)
  }

  predicate Parameter(c: char) { Between(c, 0x30, 0x3f) }

  predicate Intermediate(c: char) { Between(c, 0x20, 0x2f) }

  predicate Final(c: char) { Between(c, 0x40, 0x7e) }

  predicate InOsc(c: char) { c != BEL && c != ESC }

  predicate InString(c: char) { c != ESC }

  predicate Introduces(c: char) { c == 'P' || c == 'X' || c == '^' || c == '_' }

  predicate Single(c: char) { Between(c, 0x40, 0x5a) || Between(c, 0x5c, 0x5f) }

  /** The length of the longest prefix whose characters are all in a class. */
  function Run(s: string, inClass: char -> bool): (n: nat)
    ensures n <= |s| && (forall i :: 0 <= i < n ==> inClass(s[i])) && (n < |s| ==> !inClass(s[n]))
  {
    if s != "" && inClass(s[0]) then 1 + Run(s[1..], inClass) else 0
  }

  predicate Opens(s: string, c: char) {
    |s| >= 2 && s[0] == ESC && s[1] == c
  }

  /** Each pattern gives the length of its match at the start of `s`, or 0. */
  function MatchCsi(s: string): (n: nat)
    ensures n <= |s|
  {
    if !Opens(s, '[') then 0
    else
      var a := 2 + Run(s[2..], Parameter);
      var b := a + Run(s[a..], Intermediate);
      if b < |s| && Final(s[b]) then b + 1 else 0
  }

  function MatchOsc(s: string): (n: nat)
    ensures n <= |s|
  {
    if !Opens(s, ']') then 0
    else
      var a := 2 + Run(s[2..], InOsc);
      if a < |s| && s[a] == BEL then a + 1
      else if Opens(s[a..], '\\') then a + 2
      else 0
  }

  function MatchString(s: string): (n: nat)
    ensures n <= |s|
  {
    if |s| < 2 || s[0] != ESC || !Introduces(s[1]) then 0
    else
      var a := 2 + Run(s[2..], InString);
      if Opens(s[a..], '\\') then a + 2 else 0
  }

  function MatchSingle(s: string): (n: nat)
    ensures n <= |s|
  {
    if |s| >= 2 && s[0] == ESC && Single(s[1]) then 2 else 0
  }

  /** The alternatives in their order: the bare class comes last. */
  function Match(s: string): (n: nat)
    ensures n <= |s|
    ensures n == 0 <==> s == "" || !Control(s[0])
  {
    if s == "" then 0
    else if MatchCsi(s) > 0 then MatchCsi(s)
    else if MatchOsc(s) > 0 then MatchOsc(s)
    else if MatchString(s) > 0 then MatchString(s)
    else if MatchSingle(s) > 0 then MatchSingle(s)
    else if Control(s[0]) then 1
    else 0
  }

  function Sub(s: string): string
    decreases |s|
  {
    if s == "" then ""
    else if Match(s) > 0 then "?" + Sub(s[Match(s)..])
    else [s[0]] + Sub(s[1..])
  }

  function Safe(value: Option<string>): string {
    if value == None then "" else Sub(value.value)
  }

  /** The classes by their code points: parameters `0` to `?`, intermediates from the space to `/`, finals
      `@` to `~`; strings are introduced by P, X, ^ and _, and no other single escape is left out
      but [. */
  lemma Classes(c: char)
    ensures Parameter(c) <==> '0' <= c <= '?'
    ensures Intermediate(c) <==> ' ' <= c <= '/'
    ensures Final(c) <==> '@' <= c <= '~'
    ensures Single(c) <==> ('A' <= c <= 'Z' || c == '@' || c == '\\' || c == ']' || c == '^' || c == '_')
    ensures Introduces(c) <==> c in "PX^_"
    ensures InOsc(c) <==> c as int != 7 && c as int != 27
    ensures InString(c) <==> c as int != 27
  {
    assert "PX^_"[0] == 'P' && "PX^_"[1] == 'X' && "PX^_"[2] == '^' && "PX^_"[3] == '_';
  }

  // ---- Clean output ----------------------------------------------------------------------------

  predicate Clean(s: string) {
    forall i :: 0 <= i < |s| ==> !Control(s[i])
  }

  /** Whatever the attacker sends, no control character reaches the terminal. */
  lemma {:induction false} SubClean(s: string)
    ensures Clean(Sub(s)) && |Sub(s)| <= |s|
    decreases |s|
  {
    if s != "" {
      if Match(s) > 0 {
        SubClean(s[Match(s)..]);
      } else {
        SubClean(s[1..]);
      }
    }
  }

  /** The same by code points: of C0 only tab, line feed and carriage return are left, of DEL and C1
      nothing. */
  lemma SubCodePoints(s: string, i: nat)
    requires i < |Sub(s)|
    ensures var c := Sub(s)[i] as int; (c >= 32 || c == 9 || c == 10 || c == 13) && !(127 <= c <= 159)
  {
    SubClean(s);
  }

  /** Text without control characters passes through, in front of anything. */
  lemma {:induction false} PlainPasses(plain: string, rest: string)
    requires Clean(plain)
    ensures Sub(plain + rest) == plain + Sub(rest)
  {
    hide Match, Control;
    if plain == "" {
      assert plain + rest == rest;
    } else {
      PlainPasses(plain[1..], rest);
      assert (plain + rest)[1..] == plain[1..] + rest && (plain + rest)[0] == plain[0];
      assert [plain[0]] + (plain[1..] + Sub(rest)) == plain + Sub(rest);
    }
  }

  /** Exactly the clean texts are left alone, so sanitising twice is sanitising once. */
  lemma SafeFixesIff(s: string)
    ensures Sub(s) == s <==> Clean(s)
    ensures Safe(Some(Safe(Some(s)))) == Safe(Some(s))
  {
    hide Match, Control;
    SubClean(s);
    PlainPasses(Sub(s), "");
    if Clean(s) {
      PlainPasses(s, "");
      assert s + "" == s;
    }
    assert Sub(s) + "" == Sub(s);
  }

  // ---- Whole sequences -------------------------------------------------------------------------

  /** A complete escape sequence. */
  datatype Sequence =
    | Csi(parameters: string, intermediates: string, final: char)
    | Osc(body: string, bell: bool)
    | Str(introducer: char, text: string)
    | Short(c: char)

  predicate All(s: string, inClass: char -> bool) {
    forall i :: 0 <= i < |s| ==> inClass(s[i])
  }

  predicate WellFormed(q: Sequence) {
    match q
    case Csi(p, i, f) => All(p, Parameter) && All(i, Intermediate) && Final(f)
    case Osc(body, _) => All(body, InOsc)
    case Str(c, text) => Introduces(c) && All(text, InString)
    case Short(c) => Single(c) && !Introduces(c) && c != ']'
  }

  function Spelled(q: Sequence): (s: string)
    ensures |s| >= 2 && s[0] == ESC
  {
    match q
    case Csi(p, i, f) => [ESC, '['] + p + i + [f]
    case Osc(body, bell) => [ESC, ']'] + body + if bell then [BEL] else [ESC, '\\']
    case Str(c, text) => [ESC, c] + text + [ESC, '\\']
    case Short(c) => [ESC, c]
  }

  lemma {:induction false} RunStops(s: string, rest: string, inClass: char -> bool)
    requires All(s, inClass) && rest != "" && !inClass(rest[0])
    ensures Run(s + rest, inClass) == |s|
  {
    if s == "" {
      assert s + rest == rest;
    } else {
      RunStops(s[1..], rest, inClass);
      assert (s + rest)[1..] == s[1..] + rest;
    }
  }

  lemma CsiWhole(p: string, i: string, f: char, rest: string)
    requires All(p, Parameter) && All(i, Intermediate) && Final(f)
    ensures MatchCsi([ESC, '['] + p + i + [f] + rest) == |p| + |i| + 3
  {
    var s := [ESC, '['] + p + i + [f] + rest;
    var tail := [f] + rest;
    assert s[2..] == p + (i + tail);
    assert s[2 + |p|..] == i + tail;
    assert (i + tail)[0] == if i == "" then f else i[0];
    RunStops(p, i + tail, Parameter);
    RunStops(i, tail, Intermediate);
  }

  lemma OscWhole(body: string, bell: bool, rest: string)
    requires All(body, InOsc)
    ensures var end := if bell then [BEL] else [ESC, '\\'];
      MatchOsc([ESC, ']'] + body + end + rest) == |body| + 2 + |end|
  {
    var end := if bell then [BEL] else [ESC, '\\'];
    var s := [ESC, ']'] + body + end + rest;
    assert s[2..] == body + (end + rest);
    assert s[2 + |body|..] == end + rest;
    RunStops(body, end + rest, InOsc);
  }

  lemma StrWhole(c: char, text: string, rest: string)
    requires Introduces(c) && All(text, InString)
    ensures MatchString([ESC, c] + text + [ESC, '\\'] + rest) == |text| + 4
  {
    var end := [ESC, '\\'];
    var s := [ESC, c] + text + end + rest;
    assert s[2..] == text + (end + rest);
    assert s[2 + |text|..] == end + rest;
    RunStops(text, end + rest, InString);
  }

  /** The order of the alternatives pays: a complete sequence is consumed whole, leaving none of
      its text behind. */
  lemma MatchWhole(q: Sequence, rest: string)
    requires WellFormed(q)
    ensures Match(Spelled(q) + rest) == |Spelled(q)|
  {
    var s := Spelled(q) + rest;
    assert s[0] == ESC && s[1] == Spelled(q)[1];
    match q
    case Csi(p, i, f) =>
      CsiWhole(p, i, f, rest);
      assert s == [ESC, '['] + p + i + [f] + rest;
    case Osc(body, bell) => OscWhole(body, bell, rest);
    case Str(c, text) =>
      StrWhole(c, text, rest);
      assert s == [ESC, c] + text + [ESC, '\\'] + rest;
    case Short(c) =>
  }

  datatype Piece = Plain(text: string) | Escape(sequence: Sequence)

  predicate Proper(p: Piece) {
    match p
    case Plain(text) => Clean(text)
    case Escape(q) => WellFormed(q)
  }

  function Raw(pieces: seq<Piece>): string {
    if pieces == [] then ""
    else (match pieces[0] case Plain(text) => text case Escape(q) => Spelled(q)) + Raw(pieces[1..])
  }

  function Shown(pieces: seq<Piece>): string {
    if pieces == [] then ""
    else (match pieces[0] case Plain(text) => text case Escape(_) => "?") + Shown(pieces[1..])
  }

  /** Any mixture of clean text and complete sequences is shown with each sequence as one `?` and
      all the text intact. */
  lemma {:induction false} MixtureShown(pieces: seq<Piece>)
    requires forall i :: 0 <= i < |pieces| ==> Proper(pieces[i])
    ensures Sub(Raw(pieces)) == Shown(pieces)
  {
    if pieces != [] {
      hide Match, Spelled, WellFormed;
      var rest := Raw(pieces[1..]);
      MixtureShown(pieces[1..]);
      match pieces[0]
      case Plain(text) => PlainPasses(text, rest);
      case Escape(q) =>
        MatchWhole(q, rest);
        assert (Spelled(q) + rest)[|Spelled(q)|..] == rest;
    }
  }

  lemma CleanIsInOsc(body: string)
    requires Clean(body)
    ensures All(body, InOsc)
  {
    assert Control(ESC) && Control(BEL);
  }

  lemma UnendedMatch(body: string)
    requires All(body, InOsc)
    ensures Match([ESC, ']'] + body) == 2
  {
    hide Control;
    var s := [ESC, ']'] + body;
    assert s[2..] == body;
    var n := Run(body, InOsc);
    assert s[2 + n..] == "";
  }

  /** A sequence that never ends is not consumed whole, but its introducer still is: nothing of it
      is left for a terminal to act on. */
  lemma UnendedOsc(body: string)
    requires Clean(body)
    ensures Sub([ESC, ']'] + body) == "?" + body
  {
    hide Match, Clean, All;
    CleanIsInOsc(body);
    UnendedMatch(body);
    assert ([ESC, ']'] + body)[2..] == body;
    PlainPasses(body, "");
    assert body + "" == body;
  }
}
