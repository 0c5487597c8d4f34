/**
 * The split of a URI without backtracking (UriTemplate._split).
 *
 * A point is where the literal between two values starts.  Each point starts at the end and only ever moves left.
 * The invariant that carries the proof is that every valid split is, point by point, at or before the points: so when
 * all the rules hold the points are the latest split, which is what the greedy regular expression finds, and when a
 * point is pushed below its floor there is none.
 */
module UriSplit {
  import opened Wrappers
  import opened UriTemplates

  /** What _split works on once the head and the tail are matched. */
  datatype Setup = Setup(uri: string, start: nat, end: nat, inner: seq<string>, stops: seq<string>) {
    ghost predicate WellFormed() {
      && start <= end <= |uri|
      && 1 <= |inner|
      && |stops| == |inner| + 1
    }

    function From(q: seq<int>, i: nat): int
      requires i <= |q| && i <= |inner|
    {
      if i == 0 then start else q[i - 1] + |inner[i - 1]|
    }

    /** Point i is on its literal, after a value of its own with no stop in it. */
    ghost predicate PointOk(q: seq<int>, i: nat)
      requires WellFormed() && |q| == |inner| && i < |q|
    {
      && start <= From(q, i) < q[i] <= end
      && OccursAt(uri, inner[i], q[i])
      && Clean(uri, From(q, i), q[i], stops[i])
    }

    /** The points from i on are right, and so is the last value. */
    ghost predicate ValidFrom(q: seq<int>, i: nat)
      requires WellFormed() && |q| == |inner|
    {
      && (forall k :: i <= k < |q| ==> PointOk(q, k))
      && start <= From(q, |q|) < end
      && Clean(uri, From(q, |q|), end, stops[|inner|])
    }

    ghost predicate Valid(q: seq<int>)
      requires WellFormed()
    {
      |q| == |inner| && ValidFrom(q, 0)
    }
  }

  // ------------------------------------------------- what the library does

  /** from, from - 1, and so on: the places a search from the right comes to. */
  function Down(from: int, n: nat): seq<int> {
    seq(n, k => from - k)
  }

  /** from, from + 1, and so on. */
  function Up(from: int, n: nat): seq<int> {
    seq(n, k => from + k)
  }

  /**
   * str.rfind: the last place at or before cap, and not before lo, where the literal is; and the places it was tried
   * at.
   */
  method RFind(uri: string, literal: string, lo: nat, cap: int) returns (found: int, ghost places: seq<int>)
    requires lo <= cap + 1 && cap + |literal| <= |uri|
    ensures found == -1 || (lo <= found <= cap && OccursAt(uri, literal, found))
    ensures forall p :: lo <= p <= cap && found < p ==> !OccursAt(uri, literal, p)
    ensures places == Down(cap, if found == -1 then cap + 1 - lo else cap + 1 - found)
  {
    found, places := cap, [];
    while lo <= found
      invariant lo - 1 <= found <= cap && places == Down(cap, cap - found)
      invariant forall p :: found < p <= cap ==> !OccursAt(uri, literal, p)
    {
      places := places + [found];
      if OccursAt(uri, literal, found) { return; }
      found := found - 1;
    }
    found := -1;
  }

  /** re.search for one of the stops in uri[from..to]: the first one, or None; and the places that were looked at. */
  method FirstStop(uri: string, from: nat, to: nat, stops: string) returns (stop: Option<nat>, ghost places: seq<int>)
    requires from <= to <= |uri|
    ensures stop.None? ==> Clean(uri, from, to, stops)
    ensures stop.Some? ==> from <= stop.value < to && uri[stop.value] in stops && Clean(uri, from, stop.value, stops)
    ensures |places| <= to - from && places == Up(from, |places|)
  {
    var k := from;
    places := [];
    while k < to
      invariant from <= k <= to && places == Up(from, k - from)
      invariant Clean(uri, from, k, stops)
    {
      places := places + [k];
      if uri[k] in stops { return Some(k), places; }
      k := k + 1;
    }
    return None, places;
  }

  /** No entry twice. */
  ghost predicate Once<T>(log: seq<T>) {
    forall i, j :: 0 <= i < j < |log| ==> log[i] != log[j]
  }

  /** A place that a literal was tried at, or a value looked at. */
  datatype Visit = Visit(index: nat, place: int)

  /** What was tried or looked at for the index-th literal or value, at each place. */
  function Tagged(index: nat, places: seq<int>): (r: seq<Visit>)
    ensures |r| == |places| && forall k :: 0 <= k < |r| ==> r[k] == Visit(index, places[k])
  {
    seq(|places|, k requires 0 <= k < |places| => Visit(index, places[k]))
  }

  /** Each place at most once for each of n literals, values or characters, and none outside the stretch. */
  ghost predicate OnceIn(log: seq<Visit>, n: nat, lo: int, hi: int) {
    Once(log) && forall k :: 0 <= k < |log| ==> log[k].index < n && lo <= log[k].place < hi
  }

  /** Each place at most once, and none before its mark: what lies before it is still to be searched. */
  ghost predicate PastMarks(log: seq<Visit>, marks: seq<int>, hi: int) {
    Once(log) && forall k :: 0 <= k < |log| ==> log[k].index < |marks| && marks[log[k].index] <= log[k].place < hi
  }

  /** Places before the mark are new; once the mark moves to the first of them, all are at or past their marks again. */
  lemma NewPlaces(log: seq<Visit>, marks: seq<int>, hi: int, index: nat, places: seq<int>, lo: int)
    requires PastMarks(log, marks, hi) && index < |marks| && Once(places) && marks[index] <= hi && lo <= marks[index]
    requires forall k :: 0 <= k < |places| ==> lo <= places[k] < marks[index]
    ensures PastMarks(log + Tagged(index, places), marks[index := lo], hi)
  {
    var more := log + Tagged(index, places);
    forall k | 0 <= k < |more| ensures more[k].index < |marks| &&
        marks[index := lo][more[k].index] <= more[k].place < hi {
      if k >= |log| { assert more[k] == Visit(index, places[k - |log|]); }
    }
    forall i, j | 0 <= i < j < |more| ensures more[i] != more[j] {
      if i >= |log| { assert more[i] == Visit(index, places[i - |log|]); }
      if j >= |log| { assert more[j] == Visit(index, places[j - |log|]); }
    }
  }

  lemma MarksWithin(log: seq<Visit>, marks: seq<int>, lo: int, hi: int)
    requires PastMarks(log, marks, hi) && Within(marks, lo, hi)
    ensures OnceIn(log, |marks|, lo, hi)
  {
  }

  /**
   * max(uri.rfind(char, start, end) for char in stops): the last stop in uri[from..to], or -1; each place is tried
   * once a character.
   */
  method LastStop(uri: string, from: nat, to: nat, stops: string) returns (last: int, ghost scanned: seq<Visit>)
    requires from <= to <= |uri| && stops != ""
    ensures last == -1 || from <= last < to
    ensures Clean(uri, if last == -1 then from else last + 1, to, stops)
    ensures last != -1 ==> uri[last] in stops
    ensures OnceIn(scanned, |stops|, from, to) && |scanned| <= |stops| * (to - from)
  {
    last, scanned := -1, [];
    for j := 0 to |stops|
      invariant last == -1 || (from <= last < to && uri[last] in stops)
      invariant forall k :: from <= k < to && last < k ==> uri[k] !in stops[..j]
      invariant OnceIn(scanned, j, from, to) && |scanned| <= j * (to - from)
    {
      var found;
      ghost var places;
      found, places := RFind(uri, [stops[j]], from, to - 1);
      assert stops[..j + 1] == stops[..j] + [stops[j]];
      forall k | from <= k < to && found < k ensures uri[k] != stops[j] {
        assert !OccursAt(uri, [stops[j]], k);
      }
      assert found != -1 ==> uri[found] == uri[found..found + 1][0] == stops[j];
      NextScan(scanned, j, from, to, places);
      scanned := scanned + Tagged(j, places);
      if found > last { last := found; }
    }
    assert stops[..|stops|] == stops;
  }

  lemma NextScan(scanned: seq<Visit>, j: nat, from: nat, to: nat, places: seq<int>)
    requires OnceIn(scanned, j, from, to) && from <= to && |scanned| <= j * (to - from)
    requires |places| <= to - from && places == Down(to - 1, |places|)
    ensures OnceIn(scanned + Tagged(j, places), j + 1, from, to) && |scanned| + |places| <= (j + 1) * (to - from)
  {
    assert (j + 1) * (to - from) == j * (to - from) + (to - from);
    var more := scanned + Tagged(j, places);
    forall a, b | 0 <= a < b < |more| ensures more[a] != more[b] {
      if b >= |scanned| { assert more[b] == Visit(j, places[b - |scanned|]); }
      if a >= |scanned| { assert more[a] == Visit(j, places[a - |scanned|]); }
    }
  }

  // ------------------------------------------------------------ the worklist

  function Sum(s: seq<int>): int {
    if s == [] then 0 else s[|s| - 1] + Sum(s[..|s| - 1])
  }

  lemma {:induction false} SumUpdate(s: seq<int>, i: nat, v: int)
    requires i < |s|
    ensures Sum(s[i := v]) == Sum(s) - s[i] + v
  {
    var n := |s| - 1;
    if i == n {
      assert s[i := v][..n] == s[..n];
    } else {
      assert s[i := v][..n] == s[..n][i := v];
      SumUpdate(s[..n], i, v);
    }
  }

  lemma {:induction false} SumBounds(s: seq<int>, lo: int, hi: int)
    requires forall i :: 0 <= i < |s| ==> lo <= s[i] <= hi
    ensures |s| * lo <= Sum(s) <= |s| * hi
  {
    if s != [] {
      SumBounds(s[..|s| - 1], lo, hi);
      assert |s| * lo == (|s| - 1) * lo + lo && |s| * hi == (|s| - 1) * hi + hi;
    }
  }

  ghost predicate NoRepeats(s: seq<nat>) {
    forall i, j :: 0 <= i < j < |s| ==> s[i] != s[j]
  }

  ghost predicate QueueOk(queue: seq<nat>, queued: seq<bool>) {
    && NoRepeats(queue)
    && (forall k {:trigger queue[k]} :: 0 <= k < |queue| ==> queue[k] < |queued| && queued[queue[k]])
    && (forall i {:trigger queued[i]} :: 0 <= i < |queued| && queued[i] ==> i in queue)
  }

  ghost predicate Within(p: seq<int>, lo: int, hi: int) {
    forall i :: 0 <= i < |p| ==> lo <= p[i] <= hi
  }

  ghost predicate Above(p: seq<int>, lo: int) {
    forall i :: 0 <= i < |p| ==> lo < p[i]
  }

  /** The floors lie at or below every valid split, and every valid split at or below the points. */
  ghost predicate Bounded(s: Setup, low: seq<int>, points: seq<int>)
    requires s.WellFormed() && |low| == |points| == |s.inner|
  {
    forall q, i :: s.Valid(q) && 0 <= i < |s.inner| ==> low[i] <= q[i] <= points[i]
  }

  ghost predicate OnLiteral(s: Setup, low: seq<int>, points: seq<int>, i: int)
    requires s.WellFormed() && |low| == |points| == |s.inner| && 0 <= i < |points|
  {
    low[i] <= points[i] && OccursAt(s.uri, s.inner[i], points[i])
  }

  /** Point i is on its literal, not below its floor, and the value after the literal holds a character. */
  ghost predicate Placed(s: Setup, low: seq<int>, points: seq<int>, i: int)
    requires s.WellFormed() && |low| == |points| == |s.inner| && 0 <= i < |points|
  {
    && OnLiteral(s, low, points, i)
    && points[i] + |s.inner[i]| < (if i + 1 < |points| then points[i + 1] else s.end)
  }

  ghost predicate AllPlaced(s: Setup, low: seq<int>, points: seq<int>)
    requires s.WellFormed() && |low| == |points| == |s.inner|
  {
    forall i :: 0 <= i < |points| ==> Placed(s, low, points, i)
  }

  /** [clean[i], points[i]) holds no stop of value i, and reaches its start unless i is queued. */
  ghost predicate Searched(s: Setup, points: seq<int>, clean: seq<int>, queued: seq<bool>, i: int)
    requires s.WellFormed() && |points| == |clean| == |queued| == |s.inner| && 0 <= i < |points|
    requires Within(points, s.start, s.end) && Within(clean, s.start, s.end)
  {
    && s.From(points, i) <= clean[i]
    && Clean(s.uri, clean[i], points[i], s.stops[i])
    && (!queued[i] ==> clean[i] == s.From(points, i))
  }

  /** No point moved right, nothing left the queue, and each value whose start moved is queued. */
  ghost predicate MovedLeft(p0: seq<int>, q0: seq<bool>, p: seq<int>, q: seq<bool>) {
    && |p| == |p0| == |q| == |q0|
    && (forall i {:trigger p[i]} :: 0 <= i < |p| ==> p[i] <= p0[i] && (i + 1 < |p| && p[i] != p0[i] ==> q[i + 1]))
    && (forall i {:trigger q[i]} :: 0 <= i < |q| && q0[i] ==> q[i])
  }

  lemma MovesNowhere(p: seq<int>, q: seq<bool>)
    ensures |p| == |q| ==> MovedLeft(p, q, p, q)
  {
  }

  lemma MovedTwice(p0: seq<int>, q0: seq<bool>, p1: seq<int>, q1: seq<bool>, p2: seq<int>, q2: seq<bool>)
    requires MovedLeft(p0, q0, p1, q1) && MovedLeft(p1, q1, p2, q2)
    ensures MovedLeft(p0, q0, p2, q2)
  {
  }

  /**
   * No place was tried twice for a literal, nor one before its point; and how much was tried and taken off the queue,
   * against how far left the points have moved.
   */
  ghost predicate Cheap(s: Setup, points: seq<int>, queue: seq<nat>, tried: seq<Visit>, rounds: nat) {
    && PastMarks(tried, points, s.end)
    && |tried| <= |points| * s.end - Sum(points)
    && rounds + |queue| <= |points| + |points| * s.end - Sum(points)
  }

  ghost predicate CheapEnough(s: Setup, queue: seq<nat>, tried: seq<Visit>, rounds: nat) {
    && OnceIn(tried, |s.inner|, s.start, s.end)
    && |tried| <= |s.inner| * (s.end - s.start)
    && rounds + |queue| <= |s.inner| * (1 + s.end - s.start)
  }

  /** No place was looked at twice for a value, nor one before where it is known to be clean. */
  ghost predicate LookedOnce(s: Setup, clean: seq<int>, looked: seq<Visit>) {
    PastMarks(looked, clean, s.end) && |looked| <= |clean| * s.end - Sum(clean)
  }

  ghost predicate LookedEnough(s: Setup, looked: seq<Visit>) {
    OnceIn(looked, |s.inner|, s.start, s.end) && |looked| <= |s.inner| * (s.end - s.start)
  }

  lemma Spread(n: nat, lo: int, hi: int)
    ensures n * (hi - lo) == n * hi - n * lo && n * (1 + hi - lo) == n + n * hi - n * lo
  {
  }

  /** What a search that fails may still cost: it tried places before the point, each once. */
  lemma FailIsCheap(s: Setup, points: seq<int>, queue: seq<nat>, tried: seq<Visit>, rounds: nat, index: nat,
      places: seq<int>)
    requires |points| == |s.inner| && index < |points| && s.start <= s.end
    requires Once(places) && |places| <= points[index] - s.start && forall k :: 0 <= k < |places| ==>
      s.start <= places[k] < points[index]
    requires Within(points, s.start, s.end) && Cheap(s, points, queue, tried, rounds)
    ensures CheapEnough(s, queue, tried + Tagged(index, places), rounds)
  {
    hide Sum;
    SumUpdate(points, index, s.start);
    SumBounds(points[index := s.start], s.start, s.end);
    SumBounds(points, s.start, s.end);
    Spread(|points|, s.start, s.end);
    NewPlaces(tried, points, s.end, index, places, s.start);
    MarksWithin(tried + Tagged(index, places), points[index := s.start], s.start, s.end);
  }

  /** A valid split has point index on its literal, so not after the last place it occurs. */
  lemma LastPlaceBounds(s: Setup, low: seq<int>, points: seq<int>, index: nat, cap: int, found: int)
    requires s.WellFormed() && |low| == |points| == |s.inner| && index < |points|
    requires Bounded(s, low, points)
    requires forall q :: s.Valid(q) ==> q[index] <= cap
    requires forall p :: s.start <= p <= cap && found < p ==> !OccursAt(s.uri, s.inner[index], p)
    ensures forall q :: s.Valid(q) ==> low[index] <= q[index] <= found
    ensures Bounded(s, low, points[index := found])
    ensures index > 0 ==> forall q :: s.Valid(q) ==> q[index - 1] <= found - |s.inner[index - 1]| - 1
  {
    forall q | s.Valid(q)
      ensures low[index] <= q[index] <= found
      ensures index > 0 ==> q[index - 1] <= found - |s.inner[index - 1]| - 1
    {
      assert s.PointOk(q, index);
    }
  }

  /** Moving one point left to its literal leaves the points away from it as they were. */
  lemma PlacedAfterMove(s: Setup, low: seq<int>, points: seq<int>, index: nat, found: int)
    requires s.WellFormed() && |low| == |points| == |s.inner| && index < |points|
    requires low[index] <= found && OccursAt(s.uri, s.inner[index], found)
    requires found + |s.inner[index]| < if index + 1 < |points| then points[index + 1] else s.end
    ensures var p := points[index := found];
            && Placed(s, low, p, index)
            && (forall i :: 0 <= i < |p| && i != index && i + 1 != index && Placed(s, low, points, i) ==>
                Placed(s, low, p, i))
            && (index > 0 && OnLiteral(s, low, points, index - 1) ==> OnLiteral(s, low, p, index - 1))
  {
  }

  /** Every valid split has point index at or before cap. */
  ghost predicate Capped(s: Setup, index: nat, cap: int)
    requires s.WellFormed() && index < |s.inner|
  {
    forall q :: s.Valid(q) ==> q[index] <= cap
  }

  ghost predicate NoSplit(s: Setup)
    requires s.WellFormed()
  {
    forall q :: !s.Valid(q)
  }

  /** No place of literal index lies after the given one, up to the cap. */
  ghost predicate LastBefore(s: Setup, index: nat, at: int, cap: int)
    requires index < |s.inner|
  {
    forall p :: s.start <= p <= cap && at < p ==> !OccursAt(s.uri, s.inner[index], p)
  }

  /**
   * How far push_left has come: the points from index on (from 0 on, once nothing moves) up to the first are each at
   * the last place of their literal that leaves the value after it a character, the first at the last place before
   * most; the others are where they were.
   */
  ghost predicate Landed(s: Setup, was: seq<int>, points: seq<int>, first: nat, most: int, index: nat, moving: bool)
    requires |was| == |points| == |s.inner| && index <= first < |points|
  {
    var from := if moving then index + 1 else 0;
    && (forall i :: 0 <= i < |points| && (i < from || first < i) ==> points[i] == was[i])
    && (from <= first ==> LastBefore(s, first, points[first], most))
    && (forall i :: from <= i < first ==> LastBefore(s, i, points[i], points[i + 1] - |s.inner[i]| - 1))
  }

  /** It stopped somewhere. */
  ghost predicate AllLanded(s: Setup, was: seq<int>, points: seq<int>, first: nat, most: int)
    requires |was| == |points| == |s.inner| && first < |points|
  {
    exists index: nat, moving: bool :: index <= first && Landed(s, was, points, first, most, index, moving)
  }

  lemma LandsAtFirst(s: Setup, points: seq<int>, first: nat, most: int)
    requires |points| == |s.inner| && first < |points|
    ensures Landed(s, points, points, first, most, first, true)
  {
  }

  lemma LandsNext(s: Setup, was: seq<int>, points: seq<int>, first: nat, most: int, index: nat, found: int)
    requires |was| == |points| == |s.inner| && index <= first < |points| &&
      Landed(s, was, points, first, most, index, true)
    requires LastBefore(s, index, found, if index == first then most else points[index + 1] - |s.inner[index]| - 1)
    ensures var p := points[index := found];
      if index == 0 then Landed(s, was, p, first, most, 0, false) else Landed(s, was, p, first, most, index - 1, true)
  {
  }

  /** Where push_left stands, and what it has come to. */
  ghost predicate PushState(s: Setup, low: seq<int>, was: seq<int>, points: seq<int>, first: nat, most: int,
      index: nat, cap: int, moving: bool,
                            settled: bool)
    requires s.WellFormed() && |low| == |was| == |points| == |s.inner| && index <= first < |points|
  {
    && Bounded(s, low, points) && Pushing(s, low, points, index, moving, settled, first) &&
        Landed(s, was, points, first, most, index, moving)
    && (moving ==> Capped(s, index, cap))
    && (if index == first && moving then cap == most && points == was
        else Sum(points) < Sum(was) && points[first] <= most)
    && (index < first && moving ==> cap == points[index + 1] - |s.inner[index]| - 1)
  }

  lemma PushStarts(s: Setup, low: seq<int>, points: seq<int>, first: nat, most: int, settled: bool)
    requires s.WellFormed() && |low| == |points| == |s.inner| && first < |points| && Bounded(s, low, points) &&
      Capped(s, first, most)
    requires settled == AllPlaced(s, low, points)
    requires settled || (first + 1 == |points| && forall i :: 0 <= i < |points| ==> points[i] == s.end)
    ensures PushState(s, low, points, points, first, most, first, most, true, settled)
  {
    hide Bounded, Capped, Sum, AllPlaced;
    PushingStarts(s, low, points, settled, first);
    LandsAtFirst(s, points, first, most);
  }

  lemma PushReady(s: Setup, low: seq<int>, was: seq<int>, points: seq<int>, first: nat, most: int, index: nat,
      cap: int, settled: bool)
    requires s.WellFormed() && |low| == |was| == |points| == |s.inner| && index <= first < |points|
    requires PushState(s, low, was, points, first, most, index, cap, true, settled)
    requires most + |s.inner[first]| < if first + 1 < |was| then was[first + 1] else s.end
    ensures Bounded(s, low, points) && Capped(s, index, cap)
    ensures cap + |s.inner[index]| < if index + 1 < |points| then points[index + 1] else s.end
  {
    hide Bounded, Capped, Sum, Pushing;
  }

  lemma PushNext(s: Setup, low: seq<int>, was: seq<int>, points: seq<int>, first: nat, most: int, index: nat, cap: int,
      settled: bool, found: int)
    requires s.WellFormed() && |low| == |was| == |points| == |s.inner| && index <= first < |points| &&
      cap < points[index]
    requires PushState(s, low, was, points, first, most, index, cap, true, settled)
    requires most + |s.inner[first]| < if first + 1 < |was| then was[first + 1] else s.end
    requires low[index] <= found <= cap && OccursAt(s.uri, s.inner[index], found) && LastBefore(s, index, found, cap)
    requires Bounded(s, low, points[index := found]) && Sum(points[index := found]) < Sum(points)
    requires index > 0 ==> Capped(s, index - 1, found - |s.inner[index - 1]| - 1)
    ensures var p := points[index := found];
      if index == 0 then PushState(s, low, was, p, first, most, 0, cap, false, settled)
      else PushState(s, low, was, p, first, most, index - 1, found - |s.inner[index - 1]| - 1, true, settled)
  {
    PushReady(s, low, was, points, first, most, index, cap, settled);
    hide Bounded, Capped, Sum, Pushing, Landed, LastBefore;
    PushingStep(s, low, points, index, settled, first, found);
    LandsNext(s, was, points, first, most, index, found);
  }

  lemma PushEnds(s: Setup, low: seq<int>, was: seq<int>, points: seq<int>, first: nat, most: int, index: nat, cap: int,
      moving: bool, settled: bool)
    requires s.WellFormed() && |low| == |was| == |points| == |s.inner| && index <= first < |points| &&
      Within(points, s.start, s.end)
    requires PushState(s, low, was, points, first, most, index, cap, moving, settled) && most < was[first]
    requires moving ==> cap >= points[index]
    ensures Bounded(s, low, points) && AllPlaced(s, low, points) && Sum(points) < Sum(was) && points[first] <= most
    ensures AllLanded(s, was, points, first, most)
  {
    hide Bounded, Capped, Sum, Pushing, Landed, AllPlaced;
    PushingStops(s, low, points, index, moving, settled, first);
  }

  /** The variables the loop and push_left share. */
  class Worklist {
    const s: Setup
    const low: seq<int>
    var points: seq<int>
    var clean: seq<int>
    var queue: seq<nat>
    var queued: seq<bool>
    /** The places each literal was tried at and each value looked at, and the turns of the loop. */
    ghost var tried: seq<Visit>
    ghost var looked: seq<Visit>
    ghost var rounds: nat

    ghost predicate Shaped()
      reads this
    {
      && s.WellFormed()
      && |low| == |points| == |clean| == |queued| == |s.inner|
      && Above(low, s.start)
      && Within(points, s.start, s.end) && Within(clean, s.start, s.end)
      && QueueOk(queue, queued)
    }

    constructor (s: Setup, low: seq<int>)
      requires s.WellFormed() && |low| == |s.inner| && Above(low, s.start)
      requires forall q, i :: s.Valid(q) && 0 <= i < |s.inner| ==> low[i] <= q[i]
      ensures this.s == s && this.low == low && Shaped() && Bounded(s, low, points)
      ensures Cheap(s, points, queue, tried, rounds) && LookedOnce(s, clean, looked)
      ensures forall i :: 0 <= i < |points| ==> points[i] == s.end && clean[i] == s.end && queued[i]
    {
      var count := |s.inner|;
      this.s, this.low := s, low;
      points := seq(count, _ => s.end as int);
      clean := seq(count, _ => s.end as int);
      queue := seq(count, i requires 0 <= i < count => (count - 1 - i) as nat);
      queued := seq(count, _ => true);
      tried, looked, rounds := [], [], 0;
      new;
      SumBounds(points, s.end, s.end);
      SumBounds(clean, s.end, s.end);
      forall i | 0 <= i < count ensures i in queue {
        assert queue[count - 1 - i] == i;
      }
      forall q, i | s.Valid(q) && 0 <= i < |s.inner| ensures q[i] <= points[i] {
        assert s.PointOk(q, i);
      }
    }

    /** Put point index at found, further left, and queue the value that now starts further left. */
    method MovePoint(index: nat, found: int, ghost places: seq<int>)
      requires Shaped() && Cheap(s, points, queue, tried, rounds) && index < |points|
      requires s.start <= found < points[index] && |places| <= points[index] - found && Once(places)
      requires forall k :: 0 <= k < |places| ==> found <= places[k] < points[index]
      modifies this
      ensures Shaped() && clean == old(clean) && looked == old(looked) && rounds == old(rounds)
      ensures points == old(points)[index := found] && Sum(points) < old(Sum(points))
      ensures Cheap(s, points, queue, tried, rounds) && MovedLeft(old(points), old(queued), points, queued)
    {
      SumUpdate(points, index, found);
      NewPlaces(tried, points, s.end, index, places, found);
      points := points[index := found];
      tried := tried + Tagged(index, places);
      var after := index + 1;
      if after < |points| && !queued[after] {
        queued := queued[after := true];
        queue := queue + [after];
      }
    }

    /** The last place of literal index at or before cap; move the point there if it is not below its floor. */
    method PushOne(index: nat, cap: int) returns (found: int)
      requires Shaped() && Bounded(s, low, points) && Cheap(s, points, queue, tried, rounds) && index < |points|
      requires cap < points[index]
      requires cap + |s.inner[index]| < if index + 1 < |points| then points[index + 1] else s.end
      requires Capped(s, index, cap)
      modifies this
      ensures Shaped() && clean == old(clean) && looked == old(looked) && rounds == old(rounds)
      ensures MovedLeft(old(points), old(queued), points, queued)
      ensures found == -1 ==> NoSplit(s) && CheapEnough(s, queue, tried, rounds)
      ensures found != -1 ==>
        low[index] <= found <= cap && OccursAt(s.uri, s.inner[index], found) && LastBefore(s, index, found, cap)
      ensures found != -1 ==> points == old(points)[index := found] && Sum(points) < old(Sum(points))
      ensures found != -1 ==> Bounded(s, low, points) && Cheap(s, points, queue, tried, rounds)
      ensures found != -1 && index > 0 ==> Capped(s, index - 1, found - |s.inner[index - 1]| - 1)
    {
      if cap < low[index] {
        LastPlaceBounds(s, low, points, index, cap, cap);
        FailIsCheap(s, points, queue, tried, rounds, index, []);
        assert tried + Tagged(index, []) == tried;
        return -1;
      }
      ghost var places;
      found, places := RFind(s.uri, s.inner[index], s.start, cap);
      LastPlaceBounds(s, low, points, index, cap, found);
      if found < low[index] {
        FailIsCheap(s, points, queue, tried, rounds, index, places);
        tried := tried + Tagged(index, places);
        return -1;
      }
      MovePoint(index, found, places);
    }

    /** A point must be at or before most: move it there, and the points before it as far as that pushes them. */
    method PushLeft(first: nat, most: int) returns (ok: bool)
      requires Shaped() && Bounded(s, low, points) && Cheap(s, points, queue, tried, rounds) && first < |points|
      requires most < points[first]
      requires most + |s.inner[first]| < if first + 1 < |points| then points[first + 1] else s.end
      requires Capped(s, first, most)
      requires AllPlaced(s, low, points) ||
        (first + 1 == |points| && forall i :: 0 <= i < |points| ==> points[i] == s.end)
      modifies this
      ensures Shaped() && clean == old(clean) && looked == old(looked) && rounds == old(rounds)
      ensures MovedLeft(old(points), old(queued), points, queued)
      ensures ok ==> Bounded(s, low, points) && Cheap(s, points, queue, tried, rounds) && AllPlaced(s, low, points)
      ensures ok ==> Sum(points) < old(Sum(points)) && points[first] <= most
      // each point that moved is at the last place its literal has before what pushed it
      ensures ok ==> AllLanded(s, old(points), points, first, most)
      ensures !ok ==> NoSplit(s) && CheapEnough(s, queue, tried, rounds)
    {
      hide Sum, QueueOk, Bounded, Cheap, CheapEnough, AllPlaced, AllLanded, LastBefore, Capped, NoSplit, MovedLeft,
          Within, Above, PushState;
      ghost var was, marked, settled := points, queued, AllPlaced(s, low, points);
      PushStarts(s, low, points, first, most, settled);
      MovesNowhere(points, queued);
      var index: nat, cap: int := first, most;
      var moving := true;
      while moving && cap < points[index]
        invariant index <= first < |points| && Shaped() && Cheap(s, points, queue, tried, rounds)
        invariant clean == old(clean) && looked == old(looked) && rounds == old(rounds) &&
          MovedLeft(was, marked, points, queued)
        invariant PushState(s, low, was, points, first, most, index, cap, moving, settled)
        decreases index, moving
      {
        ghost var before, waiting := points, queued;
        PushReady(s, low, was, points, first, most, index, cap, settled);
        var found := PushOne(index, cap);
        MovedTwice(was, marked, before, waiting, points, queued);
        if found == -1 { return false; }
        PushNext(s, low, was, before, first, most, index, cap, settled, found);
        if index == 0 {
          moving := false;
        } else {
          index := index - 1;
          cap := found - |s.inner[index]| - 1;
        }
      }
      PushEnds(s, low, was, points, first, most, index, cap, moving, settled);
      return true;
    }

    /** Take the next value to look at off the queue. */
    method Pop() returns (index: nat)
      requires Shaped() && queue != []
      modifies this
      ensures Shaped() && points == old(points) && clean == old(clean) && looked == old(looked) && tried == old(tried)
      ensures index < |queued| && old(queued)[index] && queued == old(queued)[index := false]
      ensures |queue| + 1 == |old(queue)| && rounds == old(rounds) + 1
    {
      index := queue[|queue| - 1];
      queue := queue[..|queue| - 1];
      queued := queued[index := false];
      rounds := rounds + 1;
      assert forall i :: i in old(queue) && i != index ==> i in queue;
    }

    /** One turn of the loop: search what the value has not been searched for, and push its end before a stop. */
    method Look() returns (ok: bool)
      requires Shaped() && Bounded(s, low, points) && AllPlaced(s, low, points) && queue != []
      requires AllSearched(s, points, clean, queued)
      requires Cheap(s, points, queue, tried, rounds) && LookedOnce(s, clean, looked)
      modifies this
      ensures Shaped()
      ensures ok ==> Bounded(s, low, points) && AllPlaced(s, low, points) && AllSearched(s, points, clean, queued)
      ensures ok ==> Cheap(s, points, queue, tried, rounds) && LookedOnce(s, clean, looked)
      ensures ok ==> Sum(points) < old(Sum(points)) || (points == old(points) && |queue| < |old(queue)|)
      ensures !ok ==> NoSplit(s) && CheapEnough(s, queue, tried, rounds) && LookedEnough(s, looked)
    {
      hide Sum, QueueOk, Bounded, CheapEnough, OccursAt, OnLiteral, NoRepeats;
      var index := Pop();
      var begin := s.From(points, index);
      var unchecked := if clean[index] < points[index] then clean[index] else points[index];
      ghost var was, marked := points, old(queued);
      assert Searched(s, points, clean, old(queued), index) && Placed(s, low, points, index);
      var stop: Option<nat> := None;
      if begin < unchecked {
        ghost var places;
        stop, places := FirstStop(s.uri, begin, unchecked, s.stops[index]);
        LooksStep(s, clean, index, begin, looked, places);
        looked := looked + Tagged(index, places);
        if stop.Some? {
          StopCaps(s, low, points, index, stop.value);
          var pushed := PushLeft(index, stop.value);
          if !pushed { return false; }
        }
      } else {
        LooksStep(s, clean, index, begin, looked, []);
        assert looked + Tagged(index, []) == looked;
      }
      SearchedAfter(s, was, marked, clean, index, points, queued);
      clean := clean[index := begin];
      return true;
    }

    /** The main loop: look at each queued value's stops until no value is queued. */
    method Settle() returns (ok: bool)
      requires Shaped() && Bounded(s, low, points) && AllPlaced(s, low, points) && TailClean(s, low)
      requires AllSearched(s, points, clean, queued)
      requires Cheap(s, points, queue, tried, rounds) && LookedOnce(s, clean, looked)
      modifies this
      ensures Shaped() && CheapEnough(s, queue, tried, rounds) && LookedEnough(s, looked)
      ensures ok ==> s.Valid(points) && Bounded(s, low, points)
      ensures !ok ==> NoSplit(s)
    {
      hide Sum, QueueOk, Bounded, Cheap, CheapEnough, OccursAt, OnLiteral, Placed, AllPlaced, Searched, AllSearched,
          Clean, MovedLeft, NoRepeats;
      while |queue| > 0
        invariant Shaped() && Bounded(s, low, points) && AllPlaced(s, low, points)
        invariant AllSearched(s, points, clean, queued)
        invariant Cheap(s, points, queue, tried, rounds) && LookedOnce(s, clean, looked)
        decreases Sum(points), |queue|
      {
        SumBounds(points, 0, s.end);
        var found := Look();
        if !found { return false; }
      }
      assert queue == [];
      SettledIsValid(s, low, points, clean, queued);
      CheapIsEnough(s, points, queue, tried, rounds);
      LookedIsEnough(s, clean, looked);
      return true;
    }
  }

  ghost predicate AllSearched(s: Setup, points: seq<int>, clean: seq<int>, queued: seq<bool>)
    requires s.WellFormed() && |points| == |clean| == |queued| == |s.inner|
    requires Within(points, s.start, s.end) && Within(clean, s.start, s.end)
  {
    forall i :: 0 <= i < |points| ==> Searched(s, points, clean, queued, i)
  }

  /** Past the last point's floor, the last value holds none of its stops. */
  ghost predicate TailClean(s: Setup, low: seq<int>)
    requires s.WellFormed() && |low| == |s.inner|
  {
    var from := low[|low| - 1] + |s.inner[|low| - 1]|;
    s.start <= from && Clean(s.uri, from, s.end, s.stops[|low|])
  }

  lemma CheapIsEnough(s: Setup, points: seq<int>, queue: seq<nat>, tried: seq<Visit>, rounds: nat)
    requires |points| == |s.inner| && s.start <= s.end
    requires Within(points, s.start, s.end) && Cheap(s, points, queue, tried, rounds)
    ensures CheapEnough(s, queue, tried, rounds)
  {
    hide Sum;
    SumBounds(points, s.start, s.end);
    Spread(|points|, s.start, s.end);
    MarksWithin(tried, points, s.start, s.end);
  }

  /** What was looked at is what clean has moved left by, now and once clean[index] moves to begin. */
  lemma LooksStep(s: Setup, clean: seq<int>, index: nat, begin: int, looked: seq<Visit>, places: seq<int>)
    requires |clean| == |s.inner| && index < |clean| && s.start <= begin <= clean[index]
    requires Within(clean, s.start, s.end) && |places| <= clean[index] - begin && places == Up(begin, |places|)
    requires LookedOnce(s, clean, looked)
    ensures LookedOnce(s, clean[index := begin], looked + Tagged(index, places))
    ensures LookedEnough(s, looked + Tagged(index, places))
  {
    hide Sum;
    SumUpdate(clean, index, begin);
    SumBounds(clean[index := begin], s.start, s.end);
    Spread(|clean|, s.start, s.end);
    NewPlaces(looked, clean, s.end, index, places, begin);
    MarksWithin(looked + Tagged(index, places), clean[index := begin], s.start, s.end);
  }

  /** No valid split has value index run past the first stop after its latest start. */
  lemma StopCaps(s: Setup, low: seq<int>, points: seq<int>, index: nat, stop: nat)
    requires s.WellFormed() && |low| == |points| == |s.inner| && index < |points|
    requires Bounded(s, low, points) && s.From(points, index) <= stop < s.end && s.uri[stop] in s.stops[index]
    ensures Capped(s, index, stop)
  {
    forall q | s.Valid(q) ensures q[index] <= stop {
      assert s.PointOk(q, index);
      assert index > 0 ==> q[index - 1] <= points[index - 1];
    }
  }

  /** Once value index is searched from its start, every value is as searched as it needs to be. */
  lemma SearchedAfter(s: Setup, p0: seq<int>, q0: seq<bool>, clean: seq<int>, index: nat, p: seq<int>, q: seq<bool>)
    requires s.WellFormed() && |p0| == |clean| == |q0| == |p| == |q| == |s.inner| && index < |p|
    requires Within(p0, s.start, s.end) && Within(p, s.start, s.end) && Within(clean, s.start, s.end)
    requires AllSearched(s, p0, clean, q0) && q0[index] && MovedLeft(p0, q0[index := false], p, q)
    requires s.start <= s.From(p0, index) <= s.end && Clean(s.uri, s.From(p0, index), p[index], s.stops[index])
    ensures AllSearched(s, p, clean[index := s.From(p0, index)], q)
  {
    var after := clean[index := s.From(p0, index)];
    forall i | 0 <= i < |p| ensures Searched(s, p, after, q, i) {
      assert Searched(s, p0, clean, q0, i);
      assert i > 0 ==> p[i - 1] <= p0[i - 1];
      assert p[i] <= p0[i];
    }
  }

  /** When no value is queued, the points are a valid split. */
  lemma SettledIsValid(s: Setup, low: seq<int>, points: seq<int>, clean: seq<int>, queued: seq<bool>)
    requires s.WellFormed() && |low| == |points| == |clean| == |queued| == |s.inner|
    requires Above(low, s.start) && Within(points, s.start, s.end) && Within(clean, s.start, s.end)
    requires AllPlaced(s, low, points) && AllSearched(s, points, clean, queued) && TailClean(s, low)
    requires QueueOk([], queued)
    ensures s.Valid(points)
  {
    var last := |points| - 1;
    assert Placed(s, low, points, last);
    forall i | 0 <= i < |points| ensures s.PointOk(points, i) {
      assert Searched(s, points, clean, queued, i) && Placed(s, low, points, i);
      assert i > 0 ==> Placed(s, low, points, i - 1);
    }
  }

  /** Where push_left stands: the points after index are placed, and so are those before it unless none was yet. */
  ghost predicate Pushing(s: Setup, low: seq<int>, points: seq<int>, index: nat, moving: bool, settled: bool,
      first: nat)
    requires s.WellFormed() && |low| == |points| == |s.inner| && index <= first < |points|
  {
    if !moving then AllPlaced(s, low, points)
    else
      && (settled ==> OnLiteral(s, low, points, index))
      && (settled ==> forall i :: 0 <= i < index ==> Placed(s, low, points, i))
      && (!settled ==> first + 1 == |points| && forall i :: 0 <= i <= index ==> points[i] == s.end)
      && (settled || index < first ==> forall i :: index < i < |points| ==> Placed(s, low, points, i))
  }

  lemma PushingStep(s: Setup, low: seq<int>, points: seq<int>, index: nat, settled: bool, first: nat, found: int)
    requires s.WellFormed() && |low| == |points| == |s.inner| && index <= first < |points|
    requires Pushing(s, low, points, index, true, settled, first)
    requires low[index] <= found <= points[index] && OccursAt(s.uri, s.inner[index], found)
    requires found + |s.inner[index]| < if index + 1 < |points| then points[index + 1] else s.end
    ensures var p := points[index := found];
            if index == 0 then Pushing(s, low, p, 0, false, settled, first)
            else Pushing(s, low, p, index - 1, true, settled, first)
  {
    PlacedAfterMove(s, low, points, index, found);
    assert settled && index > 0 ==> Placed(s, low, points, index - 1);
  }

  lemma PushingStarts(s: Setup, low: seq<int>, points: seq<int>, settled: bool, first: nat)
    requires s.WellFormed() && |low| == |points| == |s.inner| && first < |points|
    requires settled == AllPlaced(s, low, points)
    requires settled || (first + 1 == |points| && forall i :: 0 <= i < |points| ==> points[i] == s.end)
    ensures Pushing(s, low, points, first, true, settled, first)
  {
    assert settled ==> Placed(s, low, points, first);
  }

  /** A point already far enough left stops the push, and then all of them are placed. */
  lemma PushingStops(s: Setup, low: seq<int>, points: seq<int>, index: nat, moving: bool, settled: bool, first: nat)
    requires s.WellFormed() && |low| == |points| == |s.inner| && index <= first < |points|
    requires Pushing(s, low, points, index, moving, settled, first) && Within(points, s.start, s.end)
    requires moving ==> index < first && points[index] <= points[index + 1] - |s.inner[index]| - 1
    ensures AllPlaced(s, low, points)
  {
  }

  // ------------------------------------------------------------- the split

  /** What _split has when it starts on the points: the head and the tail match. */
  ghost predicate IsSetup(t: UriTemplate, uri: string, s: Setup) {
    && t.WellFormed() && s.WellFormed() && |t.variables| == |s.inner| + 1
    && s.uri == uri && s.start == |t.literals[0]| && s.end + |t.literals[|s.inner| + 1]| == |uri|
    && (forall k :: 0 <= k < |s.inner| ==> s.inner[k] == t.literals[k + 1])
    && (forall k :: 0 <= k < |s.stops| ==> s.stops[k] == t.Stops(k))
    && OccursAt(uri, t.literals[0], 0) && OccursAt(uri, t.literals[|s.inner| + 1], s.end)
  }

  /** The tail of a split of the URI is a valid tail of points, and then the end. */
  lemma {:induction false} TailIsPoints(t: UriTemplate, uri: string, s: Setup, q: seq<int>, i: nat)
    requires IsSetup(t, uri, s) && |q| == |s.inner| && i <= |q| && s.start <= s.From(q, i)
    ensures TailSplit(t, uri, i, s.From(q, i), q[i..] + [s.end]) <==> s.ValidFrom(q, i)
    decreases |q| - i
  {
    var ends := q[i..] + [s.end];
    if i < |q| {
      assert ends[1..] == q[i + 1..] + [s.end];
      assert s.From(q, i + 1) == ends[0] + |t.literals[i + 1]|;
      PointIsValue(t, uri, s, q, i);
      if s.start <= q[i] {
        TailIsPoints(t, uri, s, q, i + 1);
      }
    }
  }

  lemma PointIsValue(t: UriTemplate, uri: string, s: Setup, q: seq<int>, i: nat)
    requires IsSetup(t, uri, s) && |q| == |s.inner| && i < |q| && s.start <= s.From(q, i)
    ensures s.ValidFrom(q, i) <==> ValueAt(t, uri, i, s.From(q, i), q[i]) && s.ValidFrom(q, i + 1)
    ensures s.ValidFrom(q, i) ==> s.start <= q[i]
  {
    if s.ValidFrom(q, i + 1) && i + 1 < |q| { assert s.PointOk(q, i + 1); }
    if s.ValidFrom(q, i) { assert s.PointOk(q, i); }
  }

  /** A split of the URI, whole, is a valid setting of the points and the end. */
  lemma SplitIsPoints(t: UriTemplate, uri: string, s: Setup, ends: seq<int>)
    requires IsSetup(t, uri, s)
    ensures IsSplit(t, uri, ends) <==>
            |ends| == |s.inner| + 1 && ends[|s.inner|] == s.end && s.Valid(ends[..|s.inner|])
  {
    if |ends| == |s.inner| + 1 {
      var q := ends[..|s.inner|];
      if IsSplit(t, uri, ends) { LastEnd(t, uri, 0, s.start, ends); }
      if ends[|s.inner|] == s.end {
        assert q[0..] + [s.end] == ends;
        TailIsPoints(t, uri, s, q, 0);
      }
    }
  }

  lemma {:induction false} LastEnd(t: UriTemplate, uri: string, i: nat, begin: int, ends: seq<int>)
    requires t.WellFormed() && i < |t.variables| && TailSplit(t, uri, i, begin, ends)
    ensures ends[|ends| - 1] + |t.literals[|t.variables|]| == |uri| && begin < ends[|ends| - 1]
    ensures OccursAt(uri, t.literals[|t.variables|], ends[|ends| - 1])
    ensures ends[|ends| - 1] - begin >= Shortest(t, i)
    decreases |t.variables| - i
  {
    if i + 1 < |t.variables| {
      LastEnd(t, uri, i + 1, ends[0] + |t.literals[i + 1]|, ends[1..]);
    }
  }

  /** One character for each value from i on, and the literals between them (_shortest, for i == 0). */
  function Shortest(t: UriTemplate, i: nat): nat
    requires i < |t.variables| && |t.literals| == |t.variables| + 1
    decreases |t.variables| - i
  {
    if i + 1 == |t.variables| then 1 else 1 + |t.literals[i + 1]| + Shortest(t, i + 1)
  }

  /** What the floors must satisfy: at or below every valid split, with the tail clean past the last. */
  ghost predicate GoodFloors(s: Setup, low: seq<int>)
    requires s.WellFormed()
  {
    && |low| == |s.inner| && Above(low, s.start) && TailClean(s, low)
    && forall q, i :: s.Valid(q) && 0 <= i < |s.inner| ==> low[i] <= q[i]
  }

  ghost predicate FloorAt(s: Setup, floors: seq<int>, k: nat)
    requires k < |floors| && k <= |s.inner|
  {
    floors[k] == s.From(floors, k) + 1
  }

  /** Each floor leaves one character for the value before it. */
  ghost predicate IsFloors(s: Setup, floors: seq<int>, n: nat)
    requires n == |floors| <= |s.inner|
  {
    forall k :: 0 <= k < n ==> FloorAt(s, floors, k)
  }

  lemma {:induction false} FloorBounds(s: Setup, floors: seq<int>, q: seq<int>, i: nat)
    requires s.WellFormed() && |floors| == |s.inner| && s.Valid(q) && i < |floors|
    requires IsFloors(s, floors, |floors|)
    ensures floors[i] <= q[i]
  {
    assert s.PointOk(q, i) && FloorAt(s, floors, i);
    if i > 0 { FloorBounds(s, floors, q, i - 1); }
  }

  lemma PastLastStop(s: Setup, q: seq<int>, last: int)
    requires s.WellFormed() && s.Valid(q) && -1 <= last < s.end && (last == -1 || s.uri[last] in s.stops[|s.inner|])
    ensures last + 1 - |s.inner[|q| - 1]| <= q[|q| - 1]
  {
    assert s.PointOk(q, |q| - 1);
  }

  /** low: one character for every value before, and for the last point also nothing but clean text after it. */
  method Floors(s: Setup) returns (low: seq<int>, ghost scanned: seq<Visit>)
    requires s.WellFormed() && s.stops[|s.inner|] != ""
    ensures GoodFloors(s, low)
    ensures OnceIn(scanned, |s.stops[|s.inner|]|, s.start, s.end) &&
      |scanned| <= |s.stops[|s.inner|]| * (s.end - s.start)
  {
    hide OccursAt, Clean, GoodFloors;
    var n := |s.inner|;
    low, scanned := [], [];
    var floor := s.start;
    for i := 0 to n
      invariant |low| == i && floor == s.From(low, i) && s.start <= floor
      invariant IsFloors(s, low, i) && Above(low, s.start)
    {
      ghost var before := low;
      low := low + [floor + 1];
      forall k | 0 <= k < i + 1 ensures FloorAt(s, low, k) {
        assert k < i ==> FloorAt(s, before, k);
      }
      floor := floor + |s.inner[i]| + 1;
    }
    var last;
    last, scanned := LastStop(s.uri, s.start, s.end, s.stops[n]);
    FloorsAreGood(s, low, last);
    var past := last + 1 - |s.inner[n - 1]|;
    if past > low[n - 1] { low := low[n - 1 := past]; }
  }

  lemma FloorsAreGood(s: Setup, floors: seq<int>, last: int)
    requires s.WellFormed() && |floors| == |s.inner| && Above(floors, s.start)
    requires IsFloors(s, floors, |floors|)
    requires -1 <= last < s.end && (last == -1 || s.uri[last] in s.stops[|s.inner|])
    requires Clean(s.uri, if last == -1 then s.start else last + 1, s.end, s.stops[|s.inner|])
    ensures var n, past := |s.inner| - 1, last + 1 - |s.inner[|s.inner| - 1]|;
            GoodFloors(s, if past > floors[n] then floors[n := past] else floors)
  {
    hide IsFloors;
    var n := |s.inner|;
    forall q, i | s.Valid(q) && 0 <= i < n
      ensures floors[i] <= q[i] && (i == n - 1 ==> last + 1 - |s.inner[i]| <= q[i])
    {
      FloorBounds(s, floors, q, i);
      if i == n - 1 { PastLastStop(s, q, last); }
    }
  }

  /** What the values must be, given where the latest split ends them. */
  lemma Conclude(t: UriTemplate, uri: string, found: Option<seq<int>>)
    requires t.WellFormed()
    requires found.None? ==> forall ends :: !IsSplit(t, uri, ends)
    requires found.Some? ==> IsSplit(t, uri, found.value) && Latest(t, uri, 0, |t.literals[0]|, found.value)
    ensures Greedy(t, uri) == found
    ensures found.None? ==> forall vs :: !Fits(t, vs, uri)
    ensures found.Some? ==> var vs := Values(t, uri, found.value);
      && Fits(t, vs, uri)
      && forall other, k :: Fits(t, other, uri) && 0 <= k < |other| ==> EndsOf(t, other)[k] <= EndsOf(t, vs)[k]
  {
    GreedyIs(t, uri, found);
    forall vs | Fits(t, vs, uri)
      ensures IsSplit(t, uri, EndsOf(t, vs))
    {
      FitsIffSplit(t, uri, vs);
    }
    if found.Some? {
      assert uri[0..] == uri;
      SplitFits(t, 0, uri, 0, found.value);
    }
  }

  /** Points that are latest, with the end, are the latest split of the URI. */
  lemma PointsAreLatest(t: UriTemplate, uri: string, s: Setup, points: seq<int>)
    requires IsSetup(t, uri, s) && s.Valid(points)
    requires forall q, i :: s.Valid(q) && 0 <= i < |s.inner| ==> q[i] <= points[i]
    ensures IsSplit(t, uri, points + [s.end]) && Latest(t, uri, 0, |t.literals[0]|, points + [s.end])
  {
    var ends := points + [s.end];
    assert ends[..|points|] == points;
    SplitIsPoints(t, uri, s, ends);
    forall other, k | TailSplit(t, uri, 0, |t.literals[0]|, other) && 0 <= k < |ends| && k < |other|
      ensures other[k] <= ends[k]
    {
      SplitIsPoints(t, uri, s, other);
      assert k < |points| ==> other[..|points|][k] <= points[k];
    }
  }

  /** With one variable, there is a split exactly when its value holds no stop. */
  lemma SingleValue(t: UriTemplate, uri: string, end: int)
    requires t.WellFormed() && |t.variables| == 1 && OccursAt(uri, t.literals[0], 0)
    requires OccursAt(uri, t.literals[1], end) && end + |t.literals[1]| == |uri| && |t.literals[0]| < end
    ensures TailSplit(t, uri, 0, |t.literals[0]|, [end]) <==> Clean(uri, |t.literals[0]|, end, t.Stops(0))
    ensures forall ends :: TailSplit(t, uri, 0, |t.literals[0]|, ends) ==> ends == [end]
  {
  }

  /** The pieces of the URI between the literals. */
  method Pieces(t: UriTemplate, s: Setup, points: seq<int>) returns (values: seq<string>)
    requires IsSetup(t, s.uri, s) && s.Valid(points)
    ensures values == Values(t, s.uri, points + [s.end])
  {
    hide OccursAt, Clean;
    ghost var ends := points + [s.end];
    values := [];
    for index := 0 to |points|
      invariant values + ValuesFrom(t, s.uri, index, s.From(points, index), ends[index..]) == Values(t, s.uri, ends)
    {
      assert s.PointOk(points, index);
      assert ends[index..][1..] == ends[index + 1..];
      values := values + [s.uri[s.From(points, index)..points[index]]];
    }
    assert ends[|points|..] == [s.end];
    assert ValuesFrom(t, s.uri, |points| + 1, s.end + |t.literals[|points| + 1]|, []) == [];
    values := values + [s.uri[s.From(points, |points|)..s.end]];
  }

  /**
   * What a split looked at: the places each literal was tried at, the places each value was looked at for its stops,
   * the places each stop of the last value was tried at for the floors, and the turns of the loop.
   */
  datatype Work = Work(tried: seq<Visit>, looked: seq<Visit>, scanned: seq<Visit>, rounds: nat)

  /** No place of uri[lo..hi] more than once a literal, a value, and a stop of the last value. */
  ghost predicate Linear(work: Work, inner: nat, values: nat, stops: nat, lo: int, hi: int) {
    && OnceIn(work.tried, inner, lo, hi) && OnceIn(work.looked, values, lo, hi) && OnceIn(work.scanned, stops, lo, hi)
    && |work.tried| <= inner * (hi - lo) && |work.looked| <= values * (hi - lo) && |work.scanned| <= stops * (hi - lo)
    && work.rounds <= inner * (1 + hi - lo)
  }

  /** The points of the latest split, or None when there is no split. */
  method FindPoints(s: Setup) returns (points: Option<seq<int>>, ghost work: Work)
    requires s.WellFormed() && s.stops[|s.inner|] != "" && s.start + |s.inner[|s.inner| - 1]| < s.end
    ensures points.None? ==> forall q :: !s.Valid(q)
    ensures points.Some? ==> s.Valid(points.value)
    ensures points.Some? ==> forall q, i :: s.Valid(q) && 0 <= i < |s.inner| ==> q[i] <= points.value[i]
    ensures Linear(work, |s.inner|, |s.inner|, |s.stops[|s.inner|]|, s.start, s.end)
  {
    hide Sum, QueueOk, OnLiteral, OccursAt, Clean, Cheap, AllPlaced, AllSearched, Searched, TailClean, NoRepeats,
        Placed, Bounded;
    hide OnceIn, PastMarks, LookedOnce;
    var low;
    ghost var scanned;
    low, scanned := Floors(s);
    var list := new Worklist(s, low);
    var last := |s.inner| - 1;
    var ok := list.PushLeft(last, s.end - |s.inner[last]| - 1);
    if ok {
      FreshIsSearched(s, low, list.points, list.clean, list.queued);
      ok := list.Settle();
    } else {
      LookedIsEnough(s, list.clean, list.looked);
    }
    work := Work(list.tried, list.looked, scanned, list.rounds);
    points := if ok then Some(list.points) else None;
    if ok { BoundedMeans(s, low, list.points); }
  }

  lemma LookedIsEnough(s: Setup, clean: seq<int>, looked: seq<Visit>)
    requires s.WellFormed() && |clean| == |s.inner| && Within(clean, s.start, s.end) && LookedOnce(s, clean, looked)
    ensures LookedEnough(s, looked)
  {
    LooksStep(s, clean, 0, clean[0], looked, []);
    assert looked + Tagged(0, []) == looked;
  }

  lemma BoundedMeans(s: Setup, low: seq<int>, points: seq<int>)
    requires s.WellFormed() && |low| == |points| == |s.inner| && Bounded(s, low, points)
    ensures forall q, i :: s.Valid(q) && 0 <= i < |s.inner| ==> q[i] <= points[i]
  {
  }

  lemma FreshIsSearched(s: Setup, low: seq<int>, points: seq<int>, clean: seq<int>, queued: seq<bool>)
    requires s.WellFormed() && |low| == |points| == |clean| == |queued| == |s.inner| && AllPlaced(s, low, points)
    requires Within(points, s.start, s.end) && Within(clean, s.end, s.end)
    requires forall i :: 0 <= i < |queued| ==> queued[i]
    ensures AllSearched(s, points, clean, queued)
  {
    forall i | 0 <= i < |points| ensures Searched(s, points, clean, queued, i) {
      assert i > 0 ==> Placed(s, low, points, i - 1);
    }
  }

  ghost predicate IsAnswer(t: UriTemplate, uri: string, r: Option<seq<string>>)
    requires t.WellFormed()
  {
    // some values fit, exactly when there is an answer, and the answer fits
    && (r.None? ==> forall vs :: !Fits(t, vs, uri))
    && (r.Some? ==> Fits(t, r.value, uri))
    // each value ends as late as in any other answer
    && (r.Some? ==> forall vs, k :: Fits(t, vs, uri) && 0 <= k < |vs| ==> EndsOf(t, vs)[k] <= EndsOf(t, r.value)[k])
    // it is what the greedy expression captures
    && (Greedy(t, uri).None? <==> r.None?)
    && (r.Some? ==> |Greedy(t, uri).value| == |t.variables| && r.value == Values(t, uri, Greedy(t, uri).value))
  }

  /** The case of a single variable, whose value is all there is between the head and the tail. */
  method SplitOne(t: UriTemplate, uri: string, start: nat, end: nat) returns (r: Option<seq<string>>, ghost work: Work)
    requires t.WellFormed() && |t.variables| == 1 && start == |t.literals[0]| < end && OccursAt(uri, t.literals[0], 0)
    requires OccursAt(uri, t.literals[1], end) && end + |t.literals[1]| == |uri|
    ensures IsAnswer(t, uri, r) && Linear(work, 0, 1, 0, start, end)
  {
    var stop;
    ghost var places;
    stop, places := FirstStop(uri, start, end, t.Stops(0));
    work := Work([], Tagged(0, places), [], 0);
    SingleValue(t, uri, end);
    ghost var found := if stop.None? then Some([end]) else None;
    assert found.None? ==> forall ends :: !IsSplit(t, uri, ends);
    Conclude(t, uri, found);
    ghost var ends: seq<int> := [end];
    assert ValuesFrom(t, uri, 1, end + |t.literals[1]|, ends[1..]) == [];
    assert Values(t, uri, ends) == [uri[start..end]];
    r := if stop.None? then Some([uri[start..end]]) else None;
  }

  /** The worklist, for two variables or more. */
  method SplitMany(t: UriTemplate, uri: string, start: nat, end: nat)
      returns (r: Option<seq<string>>, ghost work: Work)
    requires t.WellFormed() && |t.variables| > 1 && start == |t.literals[0]| && end - start >= Shortest(t, 0) &&
      OccursAt(uri, t.literals[0], 0)
    requires OccursAt(uri, t.literals[|t.variables|], end) && end + |t.literals[|t.variables|]| == |uri|
    ensures IsAnswer(t, uri, r)
    ensures Linear(work, |t.variables| - 1, |t.variables| - 1, |t.Stops(|t.variables| - 1)|, start, end)
  {
    hide FitsFrom, Fits, TailSplit, ValueAt, EndsFrom, EndsOf, ValuesFrom, Clean, Latest, Backtrack, Greedy;
    var n := |t.variables|;
    var s := Setup(uri, start, end, t.literals[1..n], seq(n, i requires 0 <= i < n => t.Stops(i)));
    ShortestCovers(t, 0);
    var points;
    points, work := FindPoints(s);
    match points {
      case Some(q) =>
        var values := Pieces(t, s, q);
        r := Some(values);
        PointsAreLatest(t, uri, s, q);
        Conclude(t, uri, Some(q + [end]));
      case None =>
        r := None;
        forall ends ensures !IsSplit(t, uri, ends) {
          SplitIsPoints(t, uri, s, ends);
        }
        Conclude(t, uri, None);
    }
  }

  /** The raw value of each variable when the URI matches the whole template. */
  method Split(t: UriTemplate, uri: string) returns (r: Option<seq<string>>, ghost work: Work)
    requires t.WellFormed()
    ensures IsAnswer(t, uri, r)
    // each place at most once a literal, once a value, and once a stop of the last value, which has at most three
    ensures Linear(work, |t.variables| - 1, |t.variables|, 3, 0, |uri|)
  {
    hide FitsFrom, Fits, TailSplit, ValueAt, EndsFrom, EndsOf, ValuesFrom, Clean, Latest, Backtrack, Greedy, Linear,
        OnceIn;
    work := Work([], [], [], 0);
    var n := |t.variables|;
    var head, tail := t.literals[0], t.literals[n];
    var start, end := |head|, |uri| - |tail|;
    if end - start < Shortest(t, 0) || !OccursAt(uri, head, 0) || !OccursAt(uri, tail, end) {
      forall ends ensures !IsSplit(t, uri, ends) {
        if IsSplit(t, uri, ends) { LastEnd(t, uri, 0, start, ends); }
      }
      Conclude(t, uri, None);
      NothingIsLinear(n - 1, n, 3, |uri|);
      return None, work;
    }
    if n == 1 {
      r, work := SplitOne(t, uri, start, end);
      LinearInUri(work, 0, 1, 0, start, end, n, |uri|);
    } else {
      r, work := SplitMany(t, uri, start, end);
      LinearInUri(work, n - 1, n - 1, |t.Stops(n - 1)|, start, end, n, |uri|);
    }
  }

  lemma {:induction false} ShortestCovers(t: UriTemplate, i: nat)
    requires |t.literals| == |t.variables| + 1 && i + 1 < |t.variables|
    ensures Shortest(t, i) >= 2 + |t.literals[|t.variables| - 1]|
    decreases |t.variables| - i
  {
    if i + 2 < |t.variables| { ShortestCovers(t, i + 1); }
  }

  lemma OnceInMore(log: seq<Visit>, n: nat, m: nat, lo: nat, hi: nat, length: nat)
    requires OnceIn(log, n, lo, hi) && n <= m && hi <= length
    ensures OnceIn(log, m, 0, length)
  {
    hide Once;
  }

  /** Linear in a stretch of the URI is linear in the URI. */
  lemma LinearInUri(work: Work, inner: nat, values: nat, stops: nat, lo: nat, hi: nat, n: nat, length: nat)
    requires lo <= hi <= length && inner < n && values <= n && stops <= 3 && Linear(work, inner, values, stops, lo, hi)
    ensures Linear(work, n - 1, n, 3, 0, length)
  {
    hide OnceIn;
    OnceInMore(work.tried, inner, n - 1, lo, hi, length);
    OnceInMore(work.looked, values, n, lo, hi, length);
    OnceInMore(work.scanned, stops, 3, lo, hi, length);
    AtMostTimes(inner, n - 1, hi - lo, length);
    AtMostTimes(values, n, hi - lo, length);
    AtMostTimes(stops, 3, hi - lo, length);
    AtMostTimes(inner, n - 1, 1 + hi - lo, 1 + length);
  }

  lemma NothingIsLinear(inner: nat, values: nat, stops: nat, length: nat)
    ensures Linear(Work([], [], [], 0), inner, values, stops, 0, length)
  {
    AtMostTimes(0, inner, 0, length);
    AtMostTimes(0, values, 0, length);
    AtMostTimes(0, inner, 0, 1 + length);
  }

  lemma AtMostTimes(a: nat, b: nat, x: nat, y: nat)
    requires a <= b && x <= y
    ensures a * x <= b * y
  {
    assert a * x <= b * x && b * x <= b * y;
  }
}
