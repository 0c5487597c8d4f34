/**
 * Matching a URI against a template (easy_mcp/uritemplate.py).
 *
 * A template is literal text around expressions: {name} stands for one path segment and {+name} for several (sections
 * 3.2.2 and 3.2.3 of RFC 6570, read backwards).  This module says what it means for values to fit a URI, and what the
 * regular expression with one greedy group per expression would find; module UriSplit holds the worklist algorithm
 * and proves that it finds the same.
 */
module UriTemplates {
  import opened Wrappers

  const SIMPLE_STOPS := "/?#"
  const RESERVED_STOPS := "?#"

  /** A parsed template: n expressions and the n + 1 literals around them. */
  datatype UriTemplate = UriTemplate(literals: seq<string>, variables: seq<string>, reserved: set<string>) {
    predicate WellFormed() {
      && 1 <= |variables|
      && |literals| == |variables| + 1
      && forall i, j :: 0 <= i < j < |variables| ==> variables[i] != variables[j]
    }

    /** The characters the value of variable i cannot hold. */
    function Stops(i: nat): string
      requires i < |variables|
    {
      if variables[i] in reserved then RESERVED_STOPS else SIMPLE_STOPS
    }
  }

  predicate OccursAt(uri: string, literal: string, p: int) {
    0 <= p && p + |literal| <= |uri| && uri[p..p + |literal|] == literal
  }

  /** No character of uri[from..to] is one of stops. */
  predicate Clean(uri: string, from: int, to: int, stops: string)
    requires 0 <= from && to <= |uri|
  {
    forall k :: from <= k < to ==> uri[k] !in stops
  }

  // ------------------------------------------------ what a match means

  /** What literal i and everything after it expand to, given the values from i on. */
  function ExpandFrom(t: UriTemplate, i: nat, vs: seq<string>): string
    requires |t.literals| == i + |vs| + 1
    decreases |vs|
  {
    if vs == [] then t.literals[i] else t.literals[i] + vs[0] + ExpandFrom(t, i + 1, vs[1..])
  }

  predicate GoodValue(value: string, stops: string) {
    value != "" && Clean(value, 0, |value|, stops)
  }

  /** The values fit the text: each holds a character and no stop, and they expand to the text. */
  ghost predicate FitsFrom(t: UriTemplate, i: nat, vs: seq<string>, text: string)
    requires t.WellFormed()
  {
    && |t.variables| == i + |vs|
    && (forall k :: 0 <= k < |vs| ==> GoodValue(vs[k], t.Stops(i + k)))
    && ExpandFrom(t, i, vs) == text
  }

  ghost predicate Fits(t: UriTemplate, vs: seq<string>, uri: string)
    requires t.WellFormed()
  {
    FitsFrom(t, 0, vs, uri)
  }

  // -------------------------------- the same, by where each value ends

  /** One value of a split: where it starts and ends, with the literal after it in place. */
  predicate ValueAt(t: UriTemplate, uri: string, i: nat, begin: int, end: int)
    requires i < |t.variables| && |t.literals| == |t.variables| + 1
  {
    && 0 <= begin < end
    && OccursAt(uri, t.literals[i + 1], end)
    && Clean(uri, begin, end, t.Stops(i))
    && (i + 1 == |t.variables| ==> end + |t.literals[i + 1]| == |uri|)
  }

  /** ends splits uri[begin..] into the values i, i + 1, ... and the literals after them. */
  ghost predicate TailSplit(t: UriTemplate, uri: string, i: nat, begin: int, ends: seq<int>)
    requires t.WellFormed() && i < |t.variables|
    decreases |t.variables| - i
  {
    && |ends| == |t.variables| - i
    && ValueAt(t, uri, i, begin, ends[0])
    && (i + 1 < |t.variables| ==> TailSplit(t, uri, i + 1, ends[0] + |t.literals[i + 1]|, ends[1..]))
  }

  ghost predicate IsSplit(t: UriTemplate, uri: string, ends: seq<int>)
    requires t.WellFormed()
  {
    OccursAt(uri, t.literals[0], 0) && TailSplit(t, uri, 0, |t.literals[0]|, ends)
  }

  function Cut(uri: string, from: int, to: int): string {
    if 0 <= from <= to <= |uri| then uri[from..to] else ""
  }

  /** The values i, i + 1, ... that end at ends, the first one starting at begin. */
  function ValuesFrom(t: UriTemplate, uri: string, i: nat, begin: int, ends: seq<int>): (vs: seq<string>)
    requires |t.literals| == i + |ends| + 1
    ensures |vs| == |ends|
    decreases |ends|
  {
    if ends == [] then []
    else [Cut(uri, begin, ends[0])] + ValuesFrom(t, uri, i + 1, ends[0] + |t.literals[i + 1]|, ends[1..])
  }

  function Values(t: UriTemplate, uri: string, ends: seq<int>): (vs: seq<string>)
    requires |t.literals| == |ends| + 1
    ensures |vs| == |ends|
  {
    ValuesFrom(t, uri, 0, |t.literals[0]|, ends)
  }

  /** Where the values i, i + 1, ... end in what they expand to, literal i being at position at. */
  function EndsFrom(t: UriTemplate, i: nat, at: int, vs: seq<string>): (ends: seq<int>)
    requires |t.literals| == i + |vs| + 1
    ensures |ends| == |vs|
    decreases |vs|
  {
    if vs == [] then []
    else var end := at + |t.literals[i]| + |vs[0]|; [end] + EndsFrom(t, i + 1, end, vs[1..])
  }

  function EndsOf(t: UriTemplate, vs: seq<string>): seq<int>
    requires |t.literals| == |vs| + 1
  {
    EndsFrom(t, 0, 0, vs)
  }

  lemma CleanPiece(uri: string, begin: nat, value: string, stops: string)
    requires begin + |value| <= |uri| && uri[begin..begin + |value|] == value && GoodValue(value, stops)
    ensures Clean(uri, begin, begin + |value|, stops)
  {
    forall k | begin <= k < begin + |value| ensures uri[k] !in stops {
      assert uri[k] == value[k - begin];
    }
  }

  lemma Pieces(uri: string, at: nat, a: string, b: string, rest: string)
    requires at <= |uri| && uri[at..] == a + b + rest
    ensures at + |a| + |b| <= |uri| && uri[at..at + |a|] == a
    ensures uri[at + |a|..at + |a| + |b|] == b && uri[at + |a| + |b|..] == rest
  {
    assert uri[at..at + |a|] == uri[at..][..|a|];
    assert uri[at + |a|..at + |a| + |b|] == uri[at..][|a|..|a| + |b|];
    assert uri[at + |a| + |b|..] == uri[at..][|a| + |b|..];
  }

  lemma FitsHead(t: UriTemplate, i: nat, vs: seq<string>, uri: string, at: nat)
    requires t.WellFormed() && i < |t.variables| && at <= |uri| && FitsFrom(t, i, vs, uri[at..])
    ensures var begin := at + |t.literals[i]|; var end := begin + |vs[0]|;
            && OccursAt(uri, t.literals[i], at) && begin < end <= |uri|
            && Clean(uri, begin, end, t.Stops(i)) && uri[begin..end] == vs[0]
            && FitsFrom(t, i + 1, vs[1..], uri[end..])
  {
    Pieces(uri, at, t.literals[i], vs[0], ExpandFrom(t, i + 1, vs[1..]));
    CleanPiece(uri, at + |t.literals[i]|, vs[0], t.Stops(i + 0));
    forall k | 0 <= k < |vs[1..]| ensures GoodValue(vs[1..][k], t.Stops(i + 1 + k)) {
      assert GoodValue(vs[k + 1], t.Stops(i + (k + 1)));
    }
  }

  /** Values that fit a text end where TailSplit wants them to, and are what that split cuts out. */
  lemma {:induction false} FitsSplits(t: UriTemplate, i: nat, vs: seq<string>, uri: string, at: nat)
    requires t.WellFormed() && i < |t.variables| && at <= |uri| && FitsFrom(t, i, vs, uri[at..])
    ensures OccursAt(uri, t.literals[i], at)
    ensures var begin, ends := at + |t.literals[i]|, EndsFrom(t, i, at, vs);
            TailSplit(t, uri, i, begin, ends) && ValuesFrom(t, uri, i, begin, ends) == vs
    decreases |vs|
  {
    hide Clean, GoodValue;
    FitsHead(t, i, vs, uri, at);
    var end := at + |t.literals[i]| + |vs[0]|;
    if i + 1 < |t.variables| {
      FitsSplits(t, i + 1, vs[1..], uri, end);
    } else {
      assert uri[end..end + |t.literals[i + 1]|] == uri[end..];
    }
  }

  lemma SplitHead(t: UriTemplate, i: nat, uri: string, at: nat, end: int, rest: seq<string>)
    requires t.WellFormed() && i < |t.variables| && OccursAt(uri, t.literals[i], at)
    requires ValueAt(t, uri, i, at + |t.literals[i]|, end)
    requires FitsFrom(t, i + 1, rest, uri[end..])
    ensures FitsFrom(t, i, [uri[at + |t.literals[i]|..end]] + rest, uri[at..])
  {
    assert GoodValue(uri[at + |t.literals[i]|..end], t.Stops(i));
    hide GoodValue, ValueAt;
    var begin := at + |t.literals[i]|;
    var vs := [uri[begin..end]] + rest;
    assert vs[1..] == rest;
    assert uri[at..] == uri[at..begin] + uri[begin..end] + uri[end..];
    forall k | 0 <= k < |vs| ensures GoodValue(vs[k], t.Stops(i + k)) {
      if k > 0 {
        assert GoodValue(rest[k - 1], t.Stops(i + 1 + (k - 1)));
      }
    }
  }

  lemma SplitEnd(t: UriTemplate, i: nat, uri: string, begin: int, end: int)
    requires t.WellFormed() && i + 1 == |t.variables| && ValueAt(t, uri, i, begin, end)
    ensures FitsFrom(t, i + 1, [], uri[end..])
  {
    assert uri[end..] == uri[end..end + |t.literals[i + 1]|];
  }

  /** The values a split cuts out fit, and end where the split says. */
  lemma {:induction false} SplitFits(t: UriTemplate, i: nat, uri: string, at: nat, ends: seq<int>)
    requires t.WellFormed() && i < |t.variables| && OccursAt(uri, t.literals[i], at)
    requires TailSplit(t, uri, i, at + |t.literals[i]|, ends)
    ensures var vs := ValuesFrom(t, uri, i, at + |t.literals[i]|, ends);
            FitsFrom(t, i, vs, uri[at..]) && EndsFrom(t, i, at, vs) == ends
    decreases |t.variables| - i
  {
    hide FitsFrom, Clean;
    var begin := at + |t.literals[i]|;
    var rest := ValuesFrom(t, uri, i + 1, ends[0] + |t.literals[i + 1]|, ends[1..]);
    var vs := [uri[begin..ends[0]]] + rest;
    assert vs == ValuesFrom(t, uri, i, begin, ends) && vs[1..] == rest;
    assert ends == [ends[0]] + ends[1..];
    if i + 1 < |t.variables| {
      SplitFits(t, i + 1, uri, ends[0], ends[1..]);
    } else {
      SplitEnd(t, i, uri, begin, ends[0]);
      assert rest == [];
    }
    SplitHead(t, i, uri, at, ends[0], rest);
  }

  /** Values fit exactly when they are cut out by a split, the one that ends where they end. */
  lemma FitsIffSplit(t: UriTemplate, uri: string, vs: seq<string>)
    requires t.WellFormed() && |vs| == |t.variables|
    ensures Fits(t, vs, uri) <==> IsSplit(t, uri, EndsOf(t, vs)) && Values(t, uri, EndsOf(t, vs)) == vs
  {
    assert uri[0..] == uri;
    if Fits(t, vs, uri) {
      FitsSplits(t, 0, vs, uri, 0);
    }
    if IsSplit(t, uri, EndsOf(t, vs)) && Values(t, uri, EndsOf(t, vs)) == vs {
      SplitFits(t, 0, uri, 0, EndsOf(t, vs));
    }
  }

  // --------------------------------- the greedy regular expression

  /** What `([^stops]+)literal...` finds from begin on, with group i ending at end or before it. */
  function Backtrack(t: UriTemplate, uri: string, i: nat, begin: nat, end: int): Option<seq<int>>
    requires i < |t.variables| && |t.literals| == |t.variables| + 1 && end <= |uri|
    decreases |t.variables| - i, end
  {
    if end <= begin then None
    else if !ValueAt(t, uri, i, begin, end) then Backtrack(t, uri, i, begin, end - 1)
    else if i + 1 == |t.variables| then Some([end])
    else match Backtrack(t, uri, i + 1, end + |t.literals[i + 1]|, |uri|)
      case Some(rest) => Some([end] + rest)
      case None => Backtrack(t, uri, i, begin, end - 1)
  }

  /** Where the groups of the anchored greedy expression end. */
  function Greedy(t: UriTemplate, uri: string): Option<seq<int>>
    requires |t.variables| >= 1 && |t.literals| == |t.variables| + 1
  {
    if OccursAt(uri, t.literals[0], 0) then Backtrack(t, uri, 0, |t.literals[0]|, |uri|) else None
  }

  lemma {:induction false} BacktrackSound(t: UriTemplate, uri: string, i: nat, begin: nat, end: int)
    requires t.WellFormed() && i < |t.variables| && end <= |uri|
    ensures var r := Backtrack(t, uri, i, begin, end);
            r.Some? ==> TailSplit(t, uri, i, begin, r.value) && r.value[0] <= end
    decreases |t.variables| - i, end
  {
    if end <= begin {
    } else if !ValueAt(t, uri, i, begin, end) {
      BacktrackSound(t, uri, i, begin, end - 1);
    } else if i + 1 < |t.variables| {
      var next := end + |t.literals[i + 1]|;
      BacktrackSound(t, uri, i + 1, next, |uri|);
      match Backtrack(t, uri, i + 1, next, |uri|) {
        case Some(rest) =>
          assert ([end] + rest)[1..] == rest;
        case None =>
          BacktrackSound(t, uri, i, begin, end - 1);
      }
    }
  }

  /** Value by value, ends is at or after every split of the tail. */
  ghost predicate Latest(t: UriTemplate, uri: string, i: nat, begin: int, ends: seq<int>)
    requires t.WellFormed() && i < |t.variables|
  {
    forall other, k :: TailSplit(t, uri, i, begin, other) && 0 <= k < |ends| && k < |other| ==> other[k] <= ends[k]
  }

  lemma LatestTail(t: UriTemplate, uri: string, i: nat, begin: int, ends: seq<int>)
    requires t.WellFormed() && i + 1 < |t.variables|
    requires TailSplit(t, uri, i, begin, ends) && Latest(t, uri, i, begin, ends)
    ensures Latest(t, uri, i + 1, ends[0] + |t.literals[i + 1]|, ends[1..])
  {
    var next, rest := ends[0] + |t.literals[i + 1]|, ends[1..];
    forall other, k | TailSplit(t, uri, i + 1, next, other) && 0 <= k < |rest| && k < |other|
      ensures other[k] <= rest[k]
    {
      var whole := [ends[0]] + other;
      assert whole[1..] == other;
      assert TailSplit(t, uri, i, begin, whole);
      assert whole[k + 1] <= ends[k + 1];
    }
  }

  /** No split has its first value end after the latest one's. */
  lemma LaterEndFails(t: UriTemplate, uri: string, i: nat, begin: nat, end: int, ends: seq<int>)
    requires t.WellFormed() && i < |t.variables| && end <= |uri|
    requires TailSplit(t, uri, i, begin, ends) && Latest(t, uri, i, begin, ends) && ends[0] < end
    ensures Backtrack(t, uri, i, begin, end) == Backtrack(t, uri, i, begin, end - 1)
  {
    hide OccursAt, Clean;
    if ValueAt(t, uri, i, begin, end) && i + 1 < |t.variables| {
      var next := end + |t.literals[i + 1]|;
      BacktrackSound(t, uri, i + 1, next, |uri|);
      if Backtrack(t, uri, i + 1, next, |uri|).Some? {
        var whole := [end] + Backtrack(t, uri, i + 1, next, |uri|).value;
        assert whole[1..] == Backtrack(t, uri, i + 1, next, |uri|).value;
        assert TailSplit(t, uri, i, begin, whole) && whole[0] > ends[0];
      }
    }
  }

  /** Backtracking finds the split that is latest value by value, when there is one. */
  lemma {:induction false} BacktrackFindsLatest(t: UriTemplate, uri: string, i: nat, begin: nat, end: int,
      ends: seq<int>)
    requires t.WellFormed() && i < |t.variables| && end <= |uri|
    requires TailSplit(t, uri, i, begin, ends) && Latest(t, uri, i, begin, ends) && ends[0] <= end
    ensures Backtrack(t, uri, i, begin, end) == Some(ends)
    decreases |t.variables| - i, end
  {
    hide Clean, Latest;
    if ends[0] < end {
      LaterEndFails(t, uri, i, begin, end, ends);
      BacktrackFindsLatest(t, uri, i, begin, end - 1, ends);
    } else if i + 1 == |t.variables| {
      assert ends == [end];
    } else {
      var next := end + |t.literals[i + 1]|;
      LatestTail(t, uri, i, begin, ends);
      assert TailSplit(t, uri, i + 1, next, ends[1..]);
      BacktrackFindsLatest(t, uri, i + 1, next, |uri|, ends[1..]);
      assert [end] + ends[1..] == ends;
    }
  }

  /** The greedy expression fails where there is no split, and finds the latest one otherwise. */
  lemma GreedyIs(t: UriTemplate, uri: string, found: Option<seq<int>>)
    requires t.WellFormed()
    requires found.None? ==> forall ends :: !IsSplit(t, uri, ends)
    requires found.Some? ==> IsSplit(t, uri, found.value) && Latest(t, uri, 0, |t.literals[0]|, found.value)
    ensures Greedy(t, uri) == found
  {
    var begin := |t.literals[0]|;
    match found {
      case Some(ends) =>
        BacktrackFindsLatest(t, uri, 0, begin, |uri|, ends);
      case None =>
        BacktrackSound(t, uri, 0, begin, |uri|);
        if Greedy(t, uri).Some? {
          assert IsSplit(t, uri, Greedy(t, uri).value);
        }
    }
  }
}
