/** The decoded values of a URI (UriTemplate.match), and which templates can share one (may_overlap). */
module Matching {
  import opened Wrappers
  import opened UriTemplates
  import UriSplit

  /** urllib.parse.unquote as strict UTF-8: None where it raises UnicodeDecodeError. */
  type Unquote = string -> Option<string>

  predicate IsHex(c: char) {
    '0' <= c <= '9' || 'A' <= c <= 'F' || 'a' <= c <= 'f'
  }

  /** A '%' that starts no escape. */
  predicate BadEscape(raw: string) {
    exists i :: 0 <= i < |raw| && raw[i] == '%' && !(i + 2 < |raw| && IsHex(raw[i + 1]) && IsHex(raw[i + 2]))
  }

  predicate IsControl(c: char) {
    c <= '\U{1f}' || '\U{7f}' <= c <= '\U{9f}'
  }

  /** str.split("/"). */
  function Segments(s: string): (segments: seq<string>)
    ensures segments != []
  {
    if s == "" then [""]
    else if s[0] == '/' then [""] + Segments(s[1..])
    else var rest := Segments(s[1..]); [[s[0]] + rest[0]] + rest[1..]
  }

  /** The traversal guard. */
  predicate Unsafe(value: string, reserved: bool) {
    || value == "" || '\\' in value || (exists c :: c in value && IsControl(c))
    || (if reserved then value[0] == '/' || "." in Segments(value) || ".." in Segments(value)
        else '/' in value || value in {".", ".."})
  }

  /** The value of one variable, or None when it is refused. */
  function Decoded(unquote: Unquote, raw: string, reserved: bool): Option<string> {
    match unquote(raw)
    case None => None
    case Some(value) => if BadEscape(raw) || Unsafe(value, reserved) then None else Some(value)
  }

  /** The values of the first n variables. */
  function DecodedTo(unquote: Unquote, t: UriTemplate, raws: seq<string>, n: nat): (r: Option<map<string, string>>)
    requires |raws| == |t.variables| && n <= |raws|
    ensures r.Some? ==> r.value.Keys == set k | 0 <= k < n :: t.variables[k]
  {
    if n == 0 then Some(map[])
    else match DecodedTo(unquote, t, raws, n - 1)
      case None => None
      case Some(values) =>
        match Decoded(unquote, raws[n - 1], t.variables[n - 1] in t.reserved)
        case None => None
        case Some(value) => Some(values[t.variables[n - 1] := value])
  }

  lemma {:induction false} RefusedStays(unquote: Unquote, t: UriTemplate, raws: seq<string>, m: nat, n: nat)
    requires |raws| == |t.variables| && m <= n <= |raws| && DecodedTo(unquote, t, raws, m).None?
    ensures DecodedTo(unquote, t, raws, n).None?
    decreases n
  {
    if m < n { RefusedStays(unquote, t, raws, m, n - 1); }
  }

  /** The decoded value of each variable, when the URI fits the whole template and no value is refused. */
  function Match(unquote: Unquote, t: UriTemplate, uri: string): Option<map<string, string>>
    requires |t.variables| >= 1 && |t.literals| == |t.variables| + 1
  {
    match Greedy(t, uri)
    case None => None
    case Some(ends) =>
      if |ends| != |t.variables| then None else DecodedTo(unquote, t, Values(t, uri, ends), |ends|)
  }

  // ------------------------------------------------ what a match hands on

  /** Every '%' starts an escape. */
  ghost predicate GoodEscapes(raw: string) {
    forall i :: 0 <= i < |raw| && raw[i] == '%' ==> i + 2 < |raw| && HexDigit(raw[i + 1]) && HexDigit(raw[i + 2])
  }

  ghost predicate HexDigit(c: char) {
    || c in {'0', '1', '2', '3', '4', '5', '6', '7', '8', '9'}
    || c in {'a', 'b', 'c', 'd', 'e', 'f', 'A', 'B', 'C', 'D', 'E', 'F'}
  }

  /** value[from..to] stands between slashes, or between one and an end. */
  ghost predicate Between(value: string, from: int, to: int) {
    && 0 <= from <= to <= |value|
    && (from == 0 || value[from - 1] == '/') && (to == |value| || value[to] == '/')
  }

  /** x is the first segment. */
  ghost predicate Begins(s: string, x: string) {
    exists to :: Between(s, 0, to) && s[..to] == x
  }

  /** x is a later one. */
  ghost predicate Goes(s: string, x: string) {
    exists from, to :: 0 < from && Between(s, from, to) && s[from..to] == x
  }

  /** The value leads nowhere but below where it is put: one segment of a path, or for {+name} several. */
  ghost predicate StaysBelow(value: string, reserved: bool) {
    && value != "" && (forall c :: c in value ==> c != '\\' && 32 <= c as int && !(127 <= c as int < 160))
    && if reserved then
         value[0] != '/' && forall from, to :: Between(value, from, to) ==>
             value[from..to] != "." && value[from..to] != ".."
       else
         value != "." && value != ".." && forall c :: c in value ==> c != '/'
  }

  /** The raw values the greedy expression captures, if it matches. */
  ghost function Captured(t: UriTemplate, uri: string): (raws: Option<seq<string>>)
    requires t.WellFormed()
    ensures raws.Some? ==> |raws.value| == |t.variables|
  {
    match Greedy(t, uri)
    case None => None
    case Some(ends) => if |ends| == |t.variables| then Some(Values(t, uri, ends)) else None
  }

  /** Every raw value holds whole escapes only and decodes to what may be handed on. */
  ghost predicate Accepted(unquote: Unquote, t: UriTemplate, raws: seq<string>) {
    |raws| == |t.variables| && forall k :: 0 <= k < |raws| ==>
        AcceptedAs(unquote, raws[k], t.variables[k] in t.reserved)
  }

  ghost predicate AcceptedAs(unquote: Unquote, raw: string, reserved: bool) {
    GoodEscapes(raw) && unquote(raw).Some? && StaysBelow(unquote(raw).value, reserved)
  }

  lemma EscapesAre(raw: string)
    ensures GoodEscapes(raw) <==> !BadEscape(raw)
  {
    assert forall c :: HexDigit(c) <==> IsHex(c);
    hide HexDigit, IsHex;
  }

  lemma Shifted(s: string, from: int, to: int)
    requires 1 <= from <= to <= |s|
    ensures Between(s, from, to) <==> Between(s[1..], from - 1, to - 1) && (from == 1 ==> s[0] == '/')
    ensures s[from..to] == s[1..][from - 1..to - 1]
  {
    var rest := s[1..];
    assert from > 1 ==> rest[from - 2] == s[from - 1];
    assert to < |s| ==> rest[to - 1] == s[to];
    var here, there := s[from..to], rest[from - 1..to - 1];
    forall i | 0 <= i < |here| ensures here[i] == there[i] { assert there[i] == rest[from - 1 + i]; }
  }

  lemma GoesOn(s: string, x: string)
    requires s != ""
    ensures Goes(s, x) <==> Goes(s[1..], x) || (s[0] == '/' && Begins(s[1..], x))
  {
    if Goes(s, x) {
      var from, to :| 0 < from && Between(s, from, to) && s[from..to] == x;
      Shifted(s, from, to);
      if from == 1 { assert s[1..][..to - 1] == x; }
    }
    if Goes(s[1..], x) {
      var from, to :| 0 < from && Between(s[1..], from, to) && s[1..][from..to] == x;
      Shifted(s, from + 1, to + 1);
    }
    if s[0] == '/' && Begins(s[1..], x) {
      var to :| Between(s[1..], 0, to) && s[1..][..to] == x;
      Shifted(s, 1, to + 1);
    }
  }

  lemma BeginsWith(s: string, x: string)
    requires s != ""
    ensures s[0] == '/' && '/' !in x ==> (Begins(s, x) <==> x == "")
    ensures s[0] != '/' ==> (Begins(s, x) <==> x != "" && x[0] == s[0] && Begins(s[1..], x[1..]))
  {
    if s[0] == '/' { assert Between(s, 0, 0) && s[..0] == ""; }
    else {
      if Begins(s, x) {
        var to :| Between(s, 0, to) && s[..to] == x;
        assert Between(s[1..], 0, to - 1) && s[1..][..to - 1] == x[1..];
      }
      if x != "" && x[0] == s[0] && Begins(s[1..], x[1..]) {
        var to :| Between(s[1..], 0, to) && s[1..][..to] == x[1..];
        assert Between(s, 0, to + 1) && s[..to + 1] == [s[0]] + x[1..] == x;
      }
    }
  }

  lemma {:induction false} SegmentsAre(s: string, x: string)
    requires '/' !in x
    ensures Segments(s)[0] == x <==> Begins(s, x)
    ensures x in Segments(s)[1..] <==> Goes(s, x)
  {
    if s == "" {
      assert Between(s, 0, 0) && s[..0] == "";
    } else {
      BeginsWith(s, x);
      GoesOn(s, x);
      SegmentsAre(s[1..], x);
      var rest := Segments(s[1..]);
      assert rest == [rest[0]] + rest[1..];
      if s[0] != '/' {
        assert Segments(s) == [[s[0]] + rest[0]] + rest[1..];
        assert Segments(s)[1..] == rest[1..];
        if x != "" { SegmentsAre(s[1..], x[1..]); assert x == [x[0]] + x[1..]; }
        assert x != "" && x[0] == s[0] && rest[0] == x[1..] ==> Segments(s)[0] == x;
      } else {
        assert Segments(s)[1..] == rest;
      }
    }
  }

  lemma UnsafeIs(value: string, reserved: bool)
    ensures StaysBelow(value, reserved) <==> !Unsafe(value, reserved)
  {
    if reserved {
      assert forall x: string :: x in Segments(value) <==> x == Segments(value)[0] || x in Segments(value)[1..];
      SegmentsAre(value, ".");
      SegmentsAre(value, "..");
    }
  }

  lemma DecodedIs(unquote: Unquote, raw: string, reserved: bool)
    ensures Decoded(unquote, raw, reserved) == if AcceptedAs(unquote, raw, reserved) then unquote(raw) else None
    ensures Decoded(unquote, raw, reserved).Some? <==> AcceptedAs(unquote, raw, reserved)
  {
    EscapesAre(raw);
    if unquote(raw).Some? { UnsafeIs(unquote(raw).value, reserved); }
    hide GoodEscapes, BadEscape, StaysBelow, Unsafe;
  }

  lemma {:induction false} DecodedToWhen(unquote: Unquote, t: UriTemplate, raws: seq<string>, n: nat)
    requires |raws| == |t.variables| && n <= |raws|
    ensures DecodedTo(unquote, t, raws, n).Some? <==>
      forall k :: 0 <= k < n ==> AcceptedAs(unquote, raws[k], t.variables[k] in t.reserved)
  {
    hide AcceptedAs, Decoded;
    if n > 0 {
      DecodedToWhen(unquote, t, raws, n - 1);
      DecodedIs(unquote, raws[n - 1], t.variables[n - 1] in t.reserved);
    }
  }

  lemma {:induction false} DecodedToAt(unquote: Unquote, t: UriTemplate, raws: seq<string>, n: nat, k: nat)
    requires t.WellFormed() && |raws| == |t.variables| && k < n <= |raws| && DecodedTo(unquote, t, raws, n).Some?
    ensures unquote(raws[k]) == Some(DecodedTo(unquote, t, raws, n).value[t.variables[k]])
  {
    hide Decoded;
    DecodedIs(unquote, raws[n - 1], t.variables[n - 1] in t.reserved);
    hide AcceptedAs;
    if k < n - 1 {
      DecodedToAt(unquote, t, raws, n - 1, k);
      assert t.variables[k] != t.variables[n - 1];
    }
  }

  /** The stop characters of RFC 6570 read backwards: neither kind of value reaches the query or the fragment. */
  lemma StopsAre(t: UriTemplate, i: nat, c: char)
    requires i < |t.variables|
    ensures c in t.Stops(i) <==> c == '?' || c == '#' || (c == '/' && t.variables[i] !in t.reserved)
  {
  }

  /**
   * A URI matches exactly when the greedy expression does and every value it captures is accepted, and then each
   * variable, and nothing else, has what its raw value decodes to.
   */
  lemma MatchMeans(unquote: Unquote, t: UriTemplate, uri: string)
    requires t.WellFormed()
    ensures var r, raws := Match(unquote, t, uri), Captured(t, uri);
      && (r.Some? <==> raws.Some? && Accepted(unquote, t, raws.value))
      && (r.Some? ==> r.value.Keys == set name | name in t.variables)
      && (r.Some? ==> forall k :: 0 <= k < |t.variables| ==>
          unquote(raws.value[k]) == Some(r.value[t.variables[k]]))
  {
    hide AcceptedAs, Greedy, Values, DecodedTo;
    if Captured(t, uri).Some? {
      var raws := Captured(t, uri).value;
      DecodedToWhen(unquote, t, raws, |raws|);
      if Match(unquote, t, uri).Some? {
        forall k | 0 <= k < |raws| ensures unquote(raws[k]) == Some(Match(unquote, t, uri).value[t.variables[k]]) {
          DecodedToAt(unquote, t, raws, |raws|, k);
        }
      }
    }
  }

  /** A captured value holds a character, and none that its expression stops at. */
  lemma CapturedIsGood(t: UriTemplate, uri: string, raws: seq<string>)
    requires t.WellFormed() && Fits(t, raws, uri)
    ensures forall k :: 0 <= k < |raws| ==> raws[k] != ""
    ensures forall k, c :: 0 <= k < |raws| && c in raws[k] ==>
      c != '?' && c != '#' && (c == '/' ==> t.variables[k] in t.reserved)
  {
    forall k | 0 <= k < |raws| ensures GoodValue(raws[k], t.Stops(k)) { assert GoodValue(raws[k], t.Stops(0 + k)); }
    forall k, c | 0 <= k < |raws| && c in raws[k]
      ensures c != '?' && c != '#' && (c == '/' ==> t.variables[k] in t.reserved)
    {
      StopsAre(t, k, c);
    }
  }

  method MatchUri(unquote: Unquote, t: UriTemplate, uri: string) returns (r: Option<map<string, string>>)
    requires t.WellFormed()
    ensures r == Match(unquote, t, uri)
    // some values fit exactly when the expression captures some, and it does not capture what it stops at
    ensures Captured(t, uri).None? <==> forall vs :: !Fits(t, vs, uri)
    ensures r.Some? ==> forall k, c :: 0 <= k < |t.variables| && c in Captured(t, uri).value[k] ==>
      c != '?' && c != '#' && (c == '/' ==> t.variables[k] in t.reserved)
    // there is an answer exactly when every captured value is accepted, and the answer is what they decode to
    ensures r.Some? <==> Captured(t, uri).Some? && Accepted(unquote, t, Captured(t, uri).value)
    ensures r.Some? ==> r.value.Keys == set name | name in t.variables
    ensures r.Some? ==> forall k :: 0 <= k < |t.variables| ==>
      unquote(Captured(t, uri).value[k]) == Some(r.value[t.variables[k]])
  {
    hide Decoded, Greedy, Values, Fits, EndsOf, AcceptedAs;
    MatchMeans(unquote, t, uri);
    var raws, _ := UriSplit.Split(t, uri);
    if raws.None? { return None; }
    CapturedIsGood(t, uri, raws.value);
    var values: map<string, string> := map[];
    for i := 0 to |t.variables|
      invariant DecodedTo(unquote, t, raws.value, i) == Some(values)
    {
      var name := t.variables[i];
      var value := Decoded(unquote, raws.value[i], name in t.reserved);
      if value.None? {
        RefusedStays(unquote, t, raws.value, i + 1, |t.variables|);
        return None;
      }
      values := values[name := value.value];
    }
    r := Some(values);
  }

  /** Whether a URI might match both templates: neither their heads nor their tails disagree. */
  predicate MayOverlap(t: UriTemplate, other: UriTemplate)
    requires |t.literals| >= 1 && |other.literals| >= 1
  {
    var head, tail := t.literals[0], t.literals[|t.literals| - 1];
    var otherHead, otherTail := other.literals[0], other.literals[|other.literals| - 1];
    && (StartsWith(head, otherHead) || StartsWith(otherHead, head))
    && (EndsWith(tail, otherTail) || EndsWith(otherTail, tail))
  }

  predicate StartsWith(s: string, prefix: string) {
    |prefix| <= |s| && s[..|prefix|] == prefix
  }

  predicate EndsWith(s: string, suffix: string) {
    |suffix| <= |s| && s[|s| - |suffix|..] == suffix
  }

  /** One text begins with both. */
  ghost predicate ShareAHead(a: string, b: string) {
    exists text :: StartsWith(text, a) && StartsWith(text, b)
  }

  ghost predicate ShareATail(a: string, b: string) {
    exists text :: EndsWith(text, a) && EndsWith(text, b)
  }

  /** Templates overlap exactly when some text begins as both do and some text ends as both do. */
  lemma OverlapIs(t: UriTemplate, other: UriTemplate)
    requires t.WellFormed() && other.WellFormed()
    ensures MayOverlap(t, other) <==>
      && ShareAHead(t.literals[0], other.literals[0])
      && ShareATail(t.literals[|t.variables|], other.literals[|other.variables|])
  {
    HeadsShare(t.literals[0], other.literals[0]);
    TailsShare(t.literals[|t.variables|], other.literals[|other.variables|]);
  }

  lemma HeadsShare(a: string, b: string)
    ensures StartsWith(a, b) || StartsWith(b, a) <==> ShareAHead(a, b)
  {
    assert StartsWith(a, a) && StartsWith(b, b);
    if ShareAHead(a, b) {
      var text :| StartsWith(text, a) && StartsWith(text, b);
      if |a| <= |b| { PrefixesAgree(text, a, b); } else { PrefixesAgree(text, b, a); }
    }
  }

  lemma TailsShare(a: string, b: string)
    ensures EndsWith(a, b) || EndsWith(b, a) <==> ShareATail(a, b)
  {
    assert EndsWith(a, a) && EndsWith(b, b);
    if ShareATail(a, b) {
      var text :| EndsWith(text, a) && EndsWith(text, b);
      if |a| <= |b| { SuffixesAgree(text, a, b); } else { SuffixesAgree(text, b, a); }
    }
  }

  /** Two templates that share a URI are never told apart by may_overlap. */
  lemma SharedUriOverlaps(t: UriTemplate, other: UriTemplate, uri: string, vs: seq<string>, ws: seq<string>)
    requires t.WellFormed() && other.WellFormed() && Fits(t, vs, uri) && Fits(other, ws, uri)
    ensures MayOverlap(t, other)
  {
    EdgesOf(t, uri, vs);
    EdgesOf(other, uri, ws);
    var head, tail := t.literals[0], t.literals[|t.variables|];
    var otherHead, otherTail := other.literals[0], other.literals[|other.variables|];
    if |head| <= |otherHead| { PrefixesAgree(uri, head, otherHead); } else { PrefixesAgree(uri, otherHead, head); }
    if |tail| <= |otherTail| { SuffixesAgree(uri, tail, otherTail); } else { SuffixesAgree(uri, otherTail, tail); }
  }

  lemma EdgesOf(t: UriTemplate, uri: string, vs: seq<string>)
    requires t.WellFormed() && Fits(t, vs, uri)
    ensures StartsWith(uri, t.literals[0]) && EndsWith(uri, t.literals[|t.variables|])
  {
    FitsIffSplit(t, uri, vs);
    UriSplit.LastEnd(t, uri, 0, |t.literals[0]|, EndsOf(t, vs));
  }

  lemma PrefixesAgree(s: string, a: string, b: string)
    requires StartsWith(s, a) && StartsWith(s, b) && |a| <= |b|
    ensures StartsWith(b, a)
  {
    assert b[..|a|] == s[..|b|][..|a|];
  }

  lemma SuffixesAgree(s: string, a: string, b: string)
    requires EndsWith(s, a) && EndsWith(s, b) && |a| <= |b|
    ensures EndsWith(b, a)
  {
    assert b[|b| - |a|..] == s[|s| - |b|..][|b| - |a|..];
  }
}
