/**
 * The sliding window rate limit (easy_mcp/security/ratelimit.py), and the same limit counted in Redis (RATE_HIT of
 * easy_mcp/store/redis_store.py).  Both are measured against one log of admitted requests that forgets nothing:
 * neither sweeping nor a key's expiry can be told from it.  The clock never goes back.
 */
module RateLimit {
  import opened Wrappers

  type Time = real
  type Client = string

  datatype Limit = Limit(max: nat, window: real)

  datatype Reply = Admitted(at: Time) | Refused(retry: real) | Free | Busy(retry: real) | Done

  datatype Request =
    | Check(client: Client, now: Time)             // check: record it or refuse it
    | Peek(client: Client, now: Time)              // _retry_after
    | Refund(client: Client, recorded: Time)
    | Reset(client: Client)
    | ResetAll

  predicate ValidLimit(limit: Limit) {
    limit.max >= 1 && limit.window > 0.0
  }

  predicate Sorted(stamps: seq<Time>) {
    forall i, j :: 0 <= i < j < |stamps| ==> stamps[i] <= stamps[j]
  }

  // ---------------------------------------------------------------- the log

  /** The stamps inside the window that ends now. */
  function Live(stamps: seq<Time>, now: Time, window: real): (r: seq<Time>)
    ensures forall i :: 0 <= i < |r| ==> r[i] > now - window
    ensures |r| <= |stamps|
  {
    if stamps == [] then []
    else (if stamps[0] > now - window then [stamps[0]] else []) + Live(stamps[1..], now, window)
  }

  function Of(log: map<Client, seq<Time>>, client: Client): seq<Time> {
    if client in log then log[client] else []
  }

  function Max0(x: real): real {
    if x > 0.0 then x else 0.0
  }

  function First(stamps: seq<Time>, stamp: Time): (at: nat)
    requires stamp in stamps
    ensures at < |stamps| && stamps[at] == stamp && forall i :: 0 <= i < at ==> stamps[i] != stamp
  {
    if stamps[0] == stamp then 0 else First(stamps[1..], stamp) + 1
  }

  /** list.remove: the first one like it. */
  function Without(stamps: seq<Time>, stamp: Time): seq<Time> {
    if stamp in stamps then var at := First(stamps, stamp);
        seq(|stamps| - 1, i requires 0 <= i < |stamps| - 1 => stamps[if i < at then i else i + 1])
    else stamps
  }

  function AskLog(limit: Limit, log: map<Client, seq<Time>>, r: Request): (map<Client, seq<Time>>, Reply)
    requires ValidLimit(limit)
  {
    match r
    case Check(client, now) =>
      var live := Live(Of(log, client), now, limit.window);
      if |live| >= limit.max then (log, Refused(Max0(live[0] + limit.window - now)))
      else (log[client := Of(log, client) + [now]], Admitted(now))
    case Peek(client, now) =>
      var live := Live(Of(log, client), now, limit.window);
      (log, if |live| >= limit.max then Busy(Max0(live[0] + limit.window - now)) else Free)
    case Refund(client, recorded) => (log[client := Without(Of(log, client), recorded)], Done)
    case Reset(client) => (log - {client}, Done)
    case ResetAll => (map[], Done)
  }

  // --------------------------------------------------- the in-process limiter

  datatype Local = Local(events: map<Client, seq<Time>>, lastSweep: Time)

  /** The deque once its front has been popped. */
  function Trimmed(stamps: seq<Time>, cutoff: Time): seq<Time> {
    if stamps != [] && stamps[0] <= cutoff then Trimmed(stamps[1..], cutoff) else stamps
  }

  predicate IdleSince(stamps: seq<Time>, cutoff: Time) {
    stamps == [] || stamps[|stamps| - 1] <= cutoff
  }

  function Swept(l: Local, cutoff: Time, now: Time): Local {
    Local(map client | client in l.events && !IdleSince(l.events[client], cutoff) :: l.events[client], now)
  }

  function SweptIfDue(limit: Limit, l: Local, now: Time): Local {
    if now - l.lastSweep >= limit.window then Swept(l, now - limit.window, now) else l
  }

  function AskLocal(limit: Limit, l: Local, r: Request): (Local, Reply)
    requires ValidLimit(limit)
  {
    match r
    case Check(client, now) =>
      var l1 := SweptIfDue(limit, l, now);
      var window := Trimmed(Of(l1.events, client), now - limit.window);
      if |window| >= limit.max
          then (l1.(events := l1.events[client := window]), Refused(Max0(window[0] + limit.window - now)))
      else (l1.(events := l1.events[client := window + [now]]), Admitted(now))
    case Peek(client, now) =>
      var live := Live(Of(l.events, client), now, limit.window);
      (l, if |live| >= limit.max then Busy(Max0(live[0] + limit.window - now)) else Free)
    case Refund(client, recorded) =>
      (if client in l.events then l.(events := l.events[client := Without(l.events[client], recorded)]) else l, Done)
    case Reset(client) => (l.(events := l.events - {client}), Done)
    case ResetAll => (l.(events := map[]), Done)
  }

  // ------------------------------------------------------------ the Redis one

  /** A client's key: the sorted set's scores, and the key's deadline. */
  datatype Window = Window(scores: seq<Time>, deadline: Time)

  /** What is there of a key now. */
  function Present(db: map<Client, Window>, client: Client, now: Time): seq<Time> {
    if client in db && now < db[client].deadline then db[client].scores else []
  }

  /** RATE_HIT. */
  function Hit(limit: Limit, db: map<Client, Window>, client: Client, now: Time): (map<Client, Window>, Reply)
    requires ValidLimit(limit)
  {
    var scores := Trimmed(Present(db, client, now), now - limit.window);
    if |scores| >= limit.max
        then (db[client := Window(scores, db[client].deadline)], Refused(Max0(scores[0] + limit.window - now)))
    else (db[client := Window(scores + [now], now + limit.window)], Admitted(now))
  }

  // --------------------------------------------------------- what a window is

  lemma {:induction false} TrimmedSkips(front: seq<Time>, back: seq<Time>, cutoff: Time)
    requires forall x :: x in front ==> x <= cutoff
    ensures Trimmed(front + back, cutoff) == Trimmed(back, cutoff)
  {
    if front == [] {
      assert front + back == back;
    } else {
      assert (front + back)[1..] == front[1..] + back;
      assert front[0] in front && forall x :: x in front[1..] ==> x in front;
      TrimmedSkips(front[1..], back, cutoff);
    }
  }

  lemma {:induction false} LiveIsTrimmed(stamps: seq<Time>, now: Time, window: real)
    requires Sorted(stamps)
    ensures Live(stamps, now, window) == Trimmed(stamps, now - window)
  {
    if stamps != [] {
      LiveIsTrimmed(stamps[1..], now, window);
      if stamps[0] > now - window { AllLive(stamps, now, window); }
    }
  }

  lemma {:induction false} AllLive(stamps: seq<Time>, now: Time, window: real)
    requires forall x :: x in stamps ==> x > now - window
    ensures Live(stamps, now, window) == stamps
  {
    if stamps != [] {
      assert stamps[0] in stamps && forall x :: x in stamps[1..] ==> x in stamps;
      AllLive(stamps[1..], now, window);
    }
  }

  /** What Trimmed drops, and what it keeps. */
  lemma {:induction false} TrimmedAt(stamps: seq<Time>, cutoff: Time)
    ensures var kept := Trimmed(stamps, cutoff); var k := |stamps| - |kept|;
      && 0 <= k && (forall i :: 0 <= i < |kept| ==> kept[i] == stamps[k + i])
      && (forall i :: 0 <= i < k ==> stamps[i] <= cutoff) && (k < |stamps| ==> stamps[k] > cutoff)
  {
    if stamps != [] && stamps[0] <= cutoff {
      var rest := stamps[1..];
      TrimmedAt(rest, cutoff);
      var kept := Trimmed(rest, cutoff);
      assert Trimmed(stamps, cutoff) == kept;
      hide Trimmed;
      var k := |rest| - |kept|;
      forall i | 0 <= i < |kept| ensures kept[i] ==
          stamps[k + 1 + i] { assert kept[i] == rest[k + i] == stamps[k + i + 1]; }
      forall i | 0 <= i < k + 1 ensures stamps[i] <= cutoff { if i > 0 { assert stamps[i] == rest[i - 1]; } }
    }
  }

  /** The end of the log after a cutoff that parts it. */
  lemma KeptByIndex(kept: seq<Time>, log: seq<Time>, cutoff: Time, k: nat)
    requires |log| == k + |kept| && forall i :: 0 <= i < |kept| ==> kept[i] == log[k + i]
    requires (forall i :: 0 <= i < k ==> log[i] <= cutoff) && forall i :: 0 <= i < |kept| ==> kept[i] > cutoff
    ensures Kept(kept, log, cutoff) && forall x :: x in kept ==> x > cutoff
  {
    var front := log[..k];
    assert Front(kept, log) == front && log == front + kept;
    assert forall x :: x in front ==> x <= cutoff;
    assert forall x :: x in kept ==> x > cutoff;
  }

  lemma TrimmedParts(stamps: seq<Time>, cutoff: Time)
    requires Sorted(stamps)
    ensures var kept := Trimmed(stamps, cutoff); Kept(kept, stamps, cutoff) && forall x :: x in kept ==> x > cutoff
  {
    hide Trimmed, Kept, Front;
    TrimmedAt(stamps, cutoff);
    var kept := Trimmed(stamps, cutoff);
    var k := |stamps| - |kept|;
    forall i | 0 <= i < |kept| ensures kept[i] > cutoff { assert stamps[k] <= stamps[k + i]; }
    KeptByIndex(kept, stamps, cutoff, k);
  }

  /** What of the log the limiter no longer has. */
  function Front(kept: seq<Time>, log: seq<Time>): seq<Time> {
    if |kept| <= |log| then log[..|log| - |kept|] else []
  }

  /** The limiter has the end of the log, and what it dropped is too old ever to count again. */
  ghost predicate Kept(kept: seq<Time>, log: seq<Time>, cutoff: Time) {
    && log == Front(kept, log) + kept
    && forall x :: x in Front(kept, log) ==> x <= cutoff && forall y :: y in kept ==> x < y
  }

  ghost predicate LogOk(log: seq<Time>, now: Time) {
    Sorted(log) && forall x :: x in log ==> x <= now
  }

  lemma KeptSorted(kept: seq<Time>, log: seq<Time>, cutoff: Time)
    requires Kept(kept, log, cutoff) && Sorted(log)
    ensures Sorted(kept)
  {
    var front := Front(kept, log);
    forall i, j | 0 <= i < j < |kept| ensures kept[i] <= kept[j] {
      assert kept[i] == log[|front| + i] && kept[j] == log[|front| + j];
    }
  }

  lemma KeptFront(kept: seq<Time>, log: seq<Time>, cutoff: Time, now: Time)
    requires Kept(kept, log, cutoff) && cutoff <= now
    ensures log == Front(kept, log) + kept && forall x :: x in Front(kept, log) ==> x <= now
  {
  }

  /** So the limiter sees the same live requests as the log. */
  lemma KeptWindow(kept: seq<Time>, log: seq<Time>, before: Time, now: Time, window: real)
    requires Kept(kept, log, before - window) && LogOk(log, before) && before <= now
    ensures Trimmed(kept, now - window) == Live(log, now, window) == Live(kept, now, window)
    ensures Kept(Trimmed(kept, now - window), log, now - window)
  {
    hide Trimmed, Live, Kept, Sorted, Front;
    KeptSorted(kept, log, before - window);
    KeptFront(kept, log, before - window, now - window);
    TrimmedSkips(Front(kept, log), kept, now - window);
    LiveIsTrimmed(log, now, window);
    LiveIsTrimmed(kept, now, window);
    TrimmedParts(log, now - window);
  }

  lemma KeptLater(kept: seq<Time>, log: seq<Time>, before: Time, now: Time)
    requires Kept(kept, log, before) && before <= now
    ensures Kept(kept, log, now)
  {
  }

  lemma KeptMore(kept: seq<Time>, log: seq<Time>, now: Time, window: real)
    requires Kept(kept, log, now - window) && window > 0.0
    ensures Kept(kept + [now], log + [now], now - window)
  {
    assert Front(kept + [now], log + [now]) == Front(kept, log);
    assert log + [now] == Front(kept, log) + (kept + [now]);
  }

  /** One is taken out, and the rest stays in its order. */
  predicate RemovedAt(stamps: seq<Time>, after: seq<Time>, at: nat) {
    at < |stamps| && |after| == |stamps| - 1 && forall i :: 0 <= i < |after| ==>
        after[i] == stamps[if i < at then i else i + 1]
  }

  lemma FirstIs(stamps: seq<Time>, at: nat)
    requires at < |stamps| && forall i :: 0 <= i < at ==> stamps[i] != stamps[at]
    ensures First(stamps, stamps[at]) == at
  {
  }

  lemma WithoutAt(stamps: seq<Time>, stamp: Time)
    requires stamp in stamps
    ensures var at := First(stamps, stamp);
      stamps[at] == stamp && (forall i :: 0 <= i < at ==> stamps[i] != stamp) &&
          RemovedAt(stamps, Without(stamps, stamp), at)
  {
    hide First;
  }

  lemma SameRemoval(stamps: seq<Time>, a: seq<Time>, b: seq<Time>, at: nat)
    requires RemovedAt(stamps, a, at) && RemovedAt(stamps, b, at)
    ensures a == b
  {
  }

  lemma WithoutFront(front: seq<Time>, back: seq<Time>, stamp: Time)
    requires stamp in front
    ensures Without(front + back, stamp) == Without(front, stamp) + back
  {
    hide Without;
    WithoutAt(front, stamp);
    WithoutAt(front + back, stamp);
    FirstIs(front + back, First(front, stamp));
    SameRemoval(front + back, Without(front + back, stamp), Without(front, stamp) + back, First(front, stamp));
  }

  lemma WithoutBack(front: seq<Time>, back: seq<Time>, stamp: Time)
    requires stamp !in front && stamp in back
    ensures Without(front + back, stamp) == front + Without(back, stamp)
  {
    hide Without;
    var at := First(back, stamp);
    WithoutAt(back, stamp);
    assert (front + back)[|front| + at] == stamp;
    WithoutAt(front + back, stamp);
    FirstIs(front + back, |front| + at);
    SameRemoval(front + back, Without(front + back, stamp), front + Without(back, stamp), |front| + at);
  }

  lemma WithoutSplits(front: seq<Time>, back: seq<Time>, stamp: Time)
    ensures Without(front + back, stamp) ==
      if stamp in front then Without(front, stamp) + back else front + Without(back, stamp)
  {
    if stamp in front { WithoutFront(front, back, stamp); }
    else if stamp in back { WithoutBack(front, back, stamp); }
  }

  lemma WithoutMembers(stamps: seq<Time>, stamp: Time)
    ensures forall x :: x in Without(stamps, stamp) ==> x in stamps
    ensures Sorted(stamps) ==> Sorted(Without(stamps, stamp))
  {
    if stamp in stamps {
      WithoutAt(stamps, stamp);
      hide Without;
    }
  }

  lemma KeptWithout(kept: seq<Time>, log: seq<Time>, cutoff: Time, stamp: Time)
    requires Kept(kept, log, cutoff)
    ensures Kept(Without(kept, stamp), Without(log, stamp), cutoff)
  {
    var front := Front(kept, log);
    WithoutSplits(front, kept, stamp);
    WithoutMembers(front, stamp);
    WithoutMembers(kept, stamp);
    if stamp in front {
      assert stamp !in kept;
      assert Front(kept, Without(log, stamp)) == Without(front, stamp);
    } else {
      assert Front(Without(kept, stamp), Without(log, stamp)) == front;
    }
  }

  // ------------------------------------------- the in-process one refines it

  ghost predicate Refines(limit: Limit, l: Local, log: map<Client, seq<Time>>, now: Time) {
    forall client :: RefinesFor(limit, l, log, now, client)
  }

  ghost predicate RefinesFor(limit: Limit, l: Local, log: map<Client, seq<Time>>, now: Time, client: Client) {
    Kept(Of(l.events, client), Of(log, client), now - limit.window) && LogOk(Of(log, client), now)
  }

  /** When a request comes that comes after now. */
  function At(r: Request, now: Time): Time {
    match r
    case Check(_, at) => at
    case Peek(_, at) => at
    case _ => now
  }

  lemma SweptRefines(limit: Limit, l: Local, log: map<Client, seq<Time>>, before: Time, now: Time, client: Client)
    requires ValidLimit(limit) && RefinesFor(limit, l, log, before, client) && before <= now
    ensures RefinesFor(limit, SweptIfDue(limit, l, now), log, now, client)
  {
    var after := SweptIfDue(limit, l, now);
    var kept, stamps := Of(l.events, client), Of(log, client);
    KeptSorted(kept, stamps, before - limit.window);
    KeptLater(kept, stamps, before - limit.window, now - limit.window);
    if Of(after.events, client) != kept {
      assert Of(after.events, client) == [] && Front([], stamps) == stamps;
      forall x | x in stamps ensures x <= now - limit.window {
        if x in kept {
          var i :| 0 <= i < |kept| && kept[i] == x;
          assert kept[i] <= kept[|kept| - 1];
        }
      }
    }
  }

  lemma CheckRefines(limit: Limit, l: Local, log: map<Client, seq<Time>>, before: Time, client: Client, now: Time,
      other: Client)
    requires ValidLimit(limit) && Refines(limit, l, log, before) && before <= now
    ensures AskLocal(limit, l, Check(client, now)).1 == AskLog(limit, log, Check(client, now)).1
    ensures RefinesFor(limit, AskLocal(limit, l, Check(client, now)).0, AskLog(limit, log, Check(client, now)).0, now,
      other)
  {
    hide Kept, Live, Trimmed, SweptIfDue, Sorted;
    var l1 := SweptIfDue(limit, l, now);
    assert RefinesFor(limit, l, log, before, client) && RefinesFor(limit, l, log, before, other);
    SweptRefines(limit, l, log, before, now, client);
    SweptRefines(limit, l, log, before, now, other);
    var kept, stamps := Of(l1.events, client), Of(log, client);
    KeptWindow(kept, stamps, now, now, limit.window);
    KeptMore(Trimmed(kept, now - limit.window), stamps, now, limit.window);
    LogMore(stamps, now);
  }

  lemma LogMore(log: seq<Time>, now: Time)
    requires LogOk(log, now)
    ensures LogOk(log + [now], now)
  {
    forall i, j | 0 <= i < j < |log + [now]| ensures (log + [now])[i] <= (log + [now])[j] {
      if j == |log| { assert log[i] in log; }
    }
  }

  lemma LogLater(log: seq<Time>, before: Time, now: Time)
    requires LogOk(log, before) && before <= now
    ensures LogOk(log, now)
  {
  }

  lemma RefundRefines(limit: Limit, l: Local, log: map<Client, seq<Time>>, now: Time, of: Client, recorded: Time,
      client: Client)
    requires ValidLimit(limit) && RefinesFor(limit, l, log, now, of) && RefinesFor(limit, l, log, now, client)
    ensures RefinesFor(limit, AskLocal(limit, l, Refund(of, recorded)).0, AskLog(limit, log, Refund(of, recorded)).0,
      now, client)
  {
    hide Kept, LogOk, Without;
    KeptWithout(Of(l.events, of), Of(log, of), now - limit.window, recorded);
    WithoutOk(Of(log, of), now, recorded);
    WithoutNone(recorded);
  }

  lemma OthersRefine(limit: Limit, l: Local, log: map<Client, seq<Time>>, before: Time, r: Request, client: Client)
    requires ValidLimit(limit) && Refines(limit, l, log, before) && before <= At(r, before) && !r.Check?
    ensures AskLocal(limit, l, r).1 == AskLog(limit, log, r).1
    ensures RefinesFor(limit, AskLocal(limit, l, r).0, AskLog(limit, log, r).0, At(r, before), client)
  {
    hide Kept, Live, Trimmed, LogOk, Without;
    assert RefinesFor(limit, l, log, before, client);
    KeptLater(Of(l.events, client), Of(log, client), before - limit.window, At(r, before) - limit.window);
    LogLater(Of(log, client), before, At(r, before));
    match r
    case Peek(of, now) =>
      assert RefinesFor(limit, l, log, before, of);
      KeptWindow(Of(l.events, of), Of(log, of), before, now, limit.window);
    case Refund(of, recorded) =>
      assert RefinesFor(limit, l, log, before, of);
      RefundRefines(limit, l, log, before, of, recorded, client);
    case _ => NoneKept(before - limit.window, before);
  }

  lemma WithoutNone(stamp: Time)
    ensures Without([], stamp) == []
  {
  }

  lemma NoneKept(cutoff: Time, now: Time)
    ensures Kept([], [], cutoff) && LogOk([], now)
  {
  }

  lemma WithoutOk(log: seq<Time>, now: Time, stamp: Time)
    requires LogOk(log, now)
    ensures LogOk(Without(log, stamp), now)
  {
    WithoutMembers(log, stamp);
  }

  function LocalReplies(limit: Limit, l: Local, run: seq<Request>): seq<Reply>
    requires ValidLimit(limit)
    decreases |run|
  {
    if run == [] then [] else var (after, reply) := AskLocal(limit, l, run[0]);
        [reply] + LocalReplies(limit, after, run[1..])
  }

  function LogReplies(limit: Limit, log: map<Client, seq<Time>>, run: seq<Request>): seq<Reply>
    requires ValidLimit(limit)
    decreases |run|
  {
    if run == [] then [] else var (after, reply) := AskLog(limit, log, run[0]);
        [reply] + LogReplies(limit, after, run[1..])
  }

  /** No request comes before the one it follows. */
  predicate InOrder(run: seq<Request>, now: Time)
    decreases |run|
  {
    run == [] || (now <= At(run[0], now) && InOrder(run[1..], At(run[0], now)))
  }

  lemma {:induction false} LocalFollowsLog(limit: Limit, l: Local, log: map<Client, seq<Time>>, now: Time,
      run: seq<Request>)
    requires ValidLimit(limit) && Refines(limit, l, log, now) && InOrder(run, now)
    ensures LocalReplies(limit, l, run) == LogReplies(limit, log, run)
    decreases |run|
  {
    if run != [] {
      var after, later := AskLocal(limit, l, run[0]).0, AskLog(limit, log, run[0]).0;
      forall client
        ensures RefinesFor(limit, after, later, At(run[0], now), client) &&
          AskLocal(limit, l, run[0]).1 == AskLog(limit, log, run[0]).1
      {
        if run[0].Check? { CheckRefines(limit, l, log, now, run[0].client, run[0].now, client); }
        else { OthersRefine(limit, l, log, now, run[0], client); }
      }
      assert RefinesFor(limit, after, later, At(run[0], now), "");
      hide AskLocal, AskLog, RefinesFor;
      LocalFollowsLog(limit, after, later, At(run[0], now), run[1..]);
    }
  }

  /**
   * Whatever is asked of it and when, the limiter answers as a log that forgets nothing would: sweeping cannot be
   * observed.
   */
  lemma SweepingIsInvisible(limit: Limit, start: Time, run: seq<Request>)
    requires ValidLimit(limit) && InOrder(run, start)
    ensures LocalReplies(limit, Local(map[], start), run) == LogReplies(limit, map[], run)
  {
    NoneKept(start - limit.window, start);
    LocalFollowsLog(limit, Local(map[], start), map[], start, run);
  }

  // --------------------------------------------------- and so does the Redis one

  /** A key's deadline comes when its newest member leaves the window. */
  ghost predicate RedisRefines(limit: Limit, db: map<Client, Window>, log: map<Client, seq<Time>>, now: Time) {
    forall client :: RedisRefinesFor(limit, db, log, now, client)
  }

  ghost predicate RedisRefinesFor(limit: Limit, db: map<Client, Window>, log: map<Client, seq<Time>>, now: Time,
      client: Client) {
    && LogOk(Of(log, client), now)
    && Kept(if client in db then db[client].scores else [], Of(log, client), now - limit.window)
    && (client in db ==> LapsesWithNewest(limit, db[client]))
  }

  /** The key's deadline is when its newest member leaves the window. */
  predicate LapsesWithNewest(limit: Limit, window: Window) {
    var scores := window.scores;
    scores != [] && Sorted(scores) && window.deadline == scores[|scores| - 1] + limit.window
  }

  lemma NewestIsLast(limit: Limit, window: Window)
    requires LapsesWithNewest(limit, window)
    ensures forall x :: x in window.scores ==> x <= window.deadline - limit.window
  {
  }

  lemma PresentRefines(limit: Limit, db: map<Client, Window>, log: map<Client, seq<Time>>, before: Time, now: Time,
      client: Client)
    requires RedisRefinesFor(limit, db, log, before, client) && before <= now
    ensures Kept(Present(db, client, now), Of(log, client), now - limit.window) && LogOk(Of(log, client), now)
  {
    var scores, stamps := if client in db then db[client].scores else [], Of(log, client);
    KeptLater(scores, stamps, before - limit.window, now - limit.window);
    if client in db && db[client].deadline <= now {
      NewestIsLast(limit, db[client]);
      assert Front([], stamps) == stamps;
      forall x | x in stamps ensures x <= now - limit.window {
        assert x in Front(scores, stamps) || x in scores;
      }
    }
  }

  lemma NewestAdmitted(limit: Limit, kept: seq<Time>, now: Time)
    requires Sorted(kept) && forall x :: x in kept ==> x <= now
    ensures LapsesWithNewest(limit, Window(kept + [now], now + limit.window))
  {
    var all := kept + [now];
    forall i, j | 0 <= i < j < |all| ensures all[i] <= all[j] {
      if j == |kept| { assert kept[i] in kept; }
    }
  }

  lemma NewestKept(limit: Limit, window: Window, cutoff: Time)
    requires LapsesWithNewest(limit, window) && Trimmed(window.scores, cutoff) != []
    ensures LapsesWithNewest(limit, Window(Trimmed(window.scores, cutoff), window.deadline))
  {
    TrimmedAt(window.scores, cutoff);
  }

  /** What a hit does to the window of a client whose key is there. */
  lemma HitNewest(limit: Limit, db: map<Client, Window>, client: Client, now: Time)
    requires ValidLimit(limit) && (client in db ==> LapsesWithNewest(limit, db[client]))
    requires var kept := Trimmed(Present(db, client, now), now - limit.window);
      Sorted(kept) && forall x :: x in kept ==> x <= now
    ensures LapsesWithNewest(limit, Hit(limit, db, client, now).0[client])
  {
    hide Trimmed, LapsesWithNewest, Sorted;
    var kept := Trimmed(Present(db, client, now), now - limit.window);
    if |kept| >= limit.max { PresentThere(db, client, now, now - limit.window);
        NewestKept(limit, db[client], now - limit.window); }
    else { NewestAdmitted(limit, kept, now); }
  }

  lemma PresentThere(db: map<Client, Window>, client: Client, now: Time, cutoff: Time)
    requires Trimmed(Present(db, client, now), cutoff) != []
    ensures client in db && Present(db, client, now) == db[client].scores
  {
  }

  lemma HitSame(limit: Limit, db: map<Client, Window>, log: map<Client, seq<Time>>, before: Time, client: Client,
      now: Time)
    requires ValidLimit(limit) && RedisRefinesFor(limit, db, log, before, client) && before <= now
    ensures Hit(limit, db, client, now).1 == AskLog(limit, log, Check(client, now)).1
    ensures RedisRefinesFor(limit, Hit(limit, db, client, now).0, AskLog(limit, log, Check(client, now)).0, now, client)
  {
    hide Kept, Live, Trimmed, LogOk, LapsesWithNewest, Sorted;
    PresentRefines(limit, db, log, before, now, client);
    var kept, stamps := Present(db, client, now), Of(log, client);
    KeptWindow(kept, stamps, now, now, limit.window);
    KeptMore(Trimmed(kept, now - limit.window), stamps, now, limit.window);
    LogMore(stamps, now);
    LogPast(stamps, now);
    LogSorted(stamps, now);
    KeptSorted(Trimmed(kept, now - limit.window), stamps, now - limit.window);
    KeptMembers(Trimmed(kept, now - limit.window), stamps, now - limit.window);
    HitNewest(limit, db, client, now);
  }

  lemma HitElsewhere(limit: Limit, db: map<Client, Window>, log: map<Client, seq<Time>>, client: Client, now: Time,
      other: Client)
    requires ValidLimit(limit) && other != client
    ensures var after := Hit(limit, db, client, now).0;
      (other in after <==> other in db) && (other in db ==> after[other] == db[other])
    ensures Of(AskLog(limit, log, Check(client, now)).0, other) == Of(log, other)
  {
    hide Live, Trimmed, Present;
  }

  lemma HitOther(limit: Limit, db: map<Client, Window>, log: map<Client, seq<Time>>, before: Time, client: Client,
      now: Time, other: Client)
    requires ValidLimit(limit) && RedisRefinesFor(limit, db, log, before, other) && before <= now && other != client
    ensures RedisRefinesFor(limit, Hit(limit, db, client, now).0, AskLog(limit, log, Check(client, now)).0, now, other)
  {
    hide Kept, Live, Trimmed, LogOk, LapsesWithNewest, Hit, AskLog, Of;
    HitElsewhere(limit, db, log, client, now, other);
    KeptLater(if other in db then db[other].scores else [], Of(log, other), before - limit.window, now - limit.window);
    LogLater(Of(log, other), before, now);
  }

  lemma HitRefines(limit: Limit, db: map<Client, Window>, log: map<Client, seq<Time>>, before: Time, client: Client,
      now: Time, other: Client)
    requires ValidLimit(limit) && RedisRefines(limit, db, log, before) && before <= now
    ensures Hit(limit, db, client, now).1 == AskLog(limit, log, Check(client, now)).1
    ensures RedisRefinesFor(limit, Hit(limit, db, client, now).0, AskLog(limit, log, Check(client, now)).0, now, other)
  {
    assert RedisRefinesFor(limit, db, log, before, client) && RedisRefinesFor(limit, db, log, before, other);
    hide RedisRefinesFor, Hit, AskLog;
    HitSame(limit, db, log, before, client, now);
    if other != client { HitOther(limit, db, log, before, client, now, other); }
  }

  lemma LogPast(log: seq<Time>, now: Time)
    requires LogOk(log, now)
    ensures forall x :: x in log ==> x <= now
  {
  }

  lemma KeptMembers(kept: seq<Time>, log: seq<Time>, cutoff: Time)
    requires Kept(kept, log, cutoff)
    ensures forall x :: x in kept ==> x in log
  {
  }

  function RedisReplies(limit: Limit, db: map<Client, Window>, run: seq<(Client, Time)>): seq<Reply>
    requires ValidLimit(limit)
    decreases |run|
  {
    if run == [] then [] else var (after, reply) := Hit(limit, db, run[0].0, run[0].1);
        [reply] + RedisReplies(limit, after, run[1..])
  }

  function Checks(run: seq<(Client, Time)>): (r: seq<Request>)
    ensures |r| == |run| && forall i :: 0 <= i < |run| ==> r[i] == Check(run[i].0, run[i].1)
  {
    seq(|run|, i requires 0 <= i < |run| => Check(run[i].0, run[i].1))
  }

  lemma {:induction false} RedisFollowsLog(limit: Limit, db: map<Client, Window>, log: map<Client, seq<Time>>,
      now: Time, run: seq<(Client, Time)>)
    requires ValidLimit(limit) && RedisRefines(limit, db, log, now) && InOrder(Checks(run), now)
    ensures RedisReplies(limit, db, run) == LogReplies(limit, log, Checks(run))
    decreases |run|
  {
    if run != [] {
      var (client, at) := run[0];
      var after, later := Hit(limit, db, client, at).0, AskLog(limit, log, Check(client, at)).0;
      forall other
        ensures RedisRefinesFor(limit, after, later, at, other) &&
          Hit(limit, db, client, at).1 == AskLog(limit, log, Check(client, at)).1
      {
        HitRefines(limit, db, log, now, client, at, other);
      }
      assert RedisRefinesFor(limit, after, later, at, "");
      assert Checks(run)[1..] == Checks(run[1..]);
      hide Hit, AskLog, RedisRefinesFor;
      RedisFollowsLog(limit, after, later, at, run[1..]);
    }
  }

  /**
   * On every sequence of requests both limiters admit and refuse alike, with the same retry times: a key's expiry
   * cannot be observed.
   */
  lemma BothLimitersAgree(limit: Limit, start: Time, run: seq<(Client, Time)>)
    requires ValidLimit(limit) && InOrder(Checks(run), start)
    ensures RedisReplies(limit, map[], run) == LocalReplies(limit, Local(map[], start), Checks(run)) ==
      LogReplies(limit, map[], Checks(run))
  {
    NoneKept(start - limit.window, start);
    RedisFollowsLog(limit, map[], map[], start, run);
    SweepingIsInvisible(limit, start, Checks(run));
  }

  // -------------------------------------------------------- the window's bound

  /** Any max + 1 requests in a row span at least a window. */
  ghost predicate Spaced(limit: Limit, log: seq<Time>) {
    forall i, j :: 0 <= i && i + limit.max <= j < |log| ==> log[j] - log[i] >= limit.window
  }

  /** How many live requests there are, and which. */
  lemma {:induction false} LiveIsEnd(stamps: seq<Time>, now: Time, window: real)
    requires Sorted(stamps)
    ensures var n := |Live(stamps, now, window)|; Live(stamps, now, window) == stamps[|stamps| - n..]
    ensures forall i :: 0 <= i < |stamps| - |Live(stamps, now, window)| ==> stamps[i] <= now - window
  {
    LiveIsTrimmed(stamps, now, window);
    TrimmedParts(stamps, now - window);
    var live := Live(stamps, now, window);
    var front := Front(live, stamps);
    forall i | 0 <= i < |stamps| - |live| ensures stamps[i] <= now - window { assert front[i] in front; }
  }

  lemma SpacedMore(limit: Limit, log: seq<Time>, now: Time)
    requires ValidLimit(limit) && Spaced(limit, log) && LogOk(log, now) && |Live(log, now, limit.window)| < limit.max
    ensures Spaced(limit, log + [now])
  {
    LiveIsEnd(log, now, limit.window);
  }

  lemma SpacedRemoved(limit: Limit, log: seq<Time>, after: seq<Time>, at: nat)
    requires Spaced(limit, log) && Sorted(log) && RemovedAt(log, after, at)
    ensures Spaced(limit, after)
  {
    forall i, j | 0 <= i && i + limit.max <= j < |after| ensures after[j] - after[i] >= limit.window {
      var i', j' := if i < at then i else i + 1, if j < at then j else j + 1;
      assert after[i] == log[i'] && after[j] == log[j'] && i' + limit.max <= j' + 1;
    }
  }

  lemma SpacedWithout(limit: Limit, log: seq<Time>, stamp: Time)
    requires Spaced(limit, log) && Sorted(log)
    ensures Spaced(limit, Without(log, stamp))
  {
    if stamp in log {
      WithoutAt(log, stamp);
      SpacedRemoved(limit, log, Without(log, stamp), First(log, stamp));
    }
  }

  lemma SpacedStep(limit: Limit, log: map<Client, seq<Time>>, before: Time, r: Request, client: Client)
    requires ValidLimit(limit) && before <= At(r, before) &&
      (forall c :: LogOk(Of(log, c), before) && Spaced(limit, Of(log, c)))
    ensures var after := AskLog(limit, log, r).0;
      LogOk(Of(after, client), At(r, before)) && Spaced(limit, Of(after, client))
  {
    hide Live, Without, LogOk, Spaced;
    var stamps := Of(log, client);
    LogLater(stamps, before, At(r, before));
    NoneKept(0.0, At(r, before));
    NoneSpaced(limit);
    match r
    case Check(of, now) =>
        if |Live(Of(log, of), now, limit.window)| < limit.max { LogLater(Of(log, of), before, now);
        SpacedMore(limit, Of(log, of), now); LogMore(Of(log, of), now); }
    case Refund(of, recorded) => LogSorted(Of(log, of), before); SpacedWithout(limit, Of(log, of), recorded);
        WithoutOk(Of(log, of), before, recorded);
    case _ =>
  }

  lemma LogSorted(log: seq<Time>, now: Time)
    requires LogOk(log, now)
    ensures Sorted(log)
  {
  }

  lemma NoneSpaced(limit: Limit)
    ensures Spaced(limit, [])
  {
  }

  function LogAfter(limit: Limit, log: map<Client, seq<Time>>, run: seq<Request>): map<Client, seq<Time>>
    requires ValidLimit(limit)
    decreases |run|
  {
    if run == [] then log else LogAfter(limit, AskLog(limit, log, run[0]).0, run[1..])
  }

  function EndOf(run: seq<Request>, now: Time): Time
    decreases |run|
  {
    if run == [] then now else EndOf(run[1..], At(run[0], now))
  }

  lemma {:induction false} SpacedRun(limit: Limit, log: map<Client, seq<Time>>, now: Time, run: seq<Request>,
      client: Client)
    requires ValidLimit(limit) && InOrder(run, now) && (forall c :: LogOk(Of(log, c), now) && Spaced(limit, Of(log, c)))
    ensures var after := Of(LogAfter(limit, log, run), client); LogOk(after, EndOf(run, now)) && Spaced(limit, after)
    decreases |run|
  {
    if run != [] {
      forall c ensures LogOk(Of(AskLog(limit, log, run[0]).0, c), At(run[0], now)) &&
          Spaced(limit, Of(AskLog(limit, log, run[0]).0, c)) {
        SpacedStep(limit, log, now, run[0], c);
      }
      hide AskLog, LogOk, Spaced;
      SpacedRun(limit, AskLog(limit, log, run[0]).0, At(run[0], now), run[1..], client);
    }
  }

  /** The requests in the window that ends at the given time, past or to come. */
  function InWindow(stamps: seq<Time>, end: Time, window: real): seq<Time> {
    if stamps == [] then []
    else (if end - window < stamps[0] <= end then [stamps[0]] else []) + InWindow(stamps[1..], end, window)
  }

  lemma {:induction false} SpacedBound(limit: Limit, stamps: seq<Time>, end: Time)
    requires ValidLimit(limit) && Spaced(limit, stamps) && Sorted(stamps)
    ensures |InWindow(stamps, end, limit.window)| <= limit.max
    decreases |stamps|
  {
    if |stamps| <= limit.max {
      AtMostAll(stamps, end, limit.window);
    } else if end - limit.window < stamps[0] <= end {
      forall j | limit.max <= j < |stamps| ensures stamps[j] > end { assert stamps[j] - stamps[0] >= limit.window; }
      NoneAfter(stamps, end, limit.window, limit.max);
    } else {
      assert Spaced(limit, stamps[1..]) by { assert forall i :: 0 <= i < |stamps[1..]| ==>
          stamps[1..][i] == stamps[i + 1]; }
      SpacedBound(limit, stamps[1..], end);
    }
  }

  lemma {:induction false} AtMostAll(stamps: seq<Time>, end: Time, window: real)
    ensures |InWindow(stamps, end, window)| <= |stamps|
  {
    if stamps != [] { AtMostAll(stamps[1..], end, window); }
  }

  lemma {:induction false} NoneAfter(stamps: seq<Time>, end: Time, window: real, n: nat)
    requires n <= |stamps| && forall j :: n <= j < |stamps| ==> stamps[j] > end
    ensures |InWindow(stamps, end, window)| <= n
  {
    if stamps != [] { NoneAfter(stamps[1..], end, window, if n == 0 then 0 else n - 1); }
  }

  /** At no time do more than max recorded, unrefunded requests of a client lie in the window that ends then. */
  lemma NeverMoreThanMax(limit: Limit, start: Time, run: seq<Request>, client: Client, end: Time)
    requires ValidLimit(limit) && InOrder(run, start)
    ensures |InWindow(Of(LogAfter(limit, map[], run), client), end, limit.window)| <= limit.max
  {
    NoneKept(0.0, start);
    NoneSpaced(limit);
    SpacedRun(limit, map[], start, run, client);
    SpacedBound(limit, Of(LogAfter(limit, map[], run), client), end);
  }

  // --------------------------------------------------------- when to retry

  /** A refusal says exactly when: every earlier retry is refused, one at that moment or after is admitted. */
  lemma RetryIsExact(limit: Limit, start: Time, run: seq<Request>, client: Client, now: Time, later: Time)
    requires ValidLimit(limit) && InOrder(run, start) && EndOf(run, start) <= now <= later
    requires AskLog(limit, LogAfter(limit, map[], run), Check(client, now)).1.Refused?
    ensures var log := LogAfter(limit, map[], run);
      AskLog(limit, log, Check(client, later)).1.Admitted? <==>
          later >= now + AskLog(limit, log, Check(client, now)).1.retry
  {
    hide Live, LogOk, Spaced, LogAfter, EndOf, InOrder;
    var stamps := Of(LogAfter(limit, map[], run), client);
    NoneKept(0.0, start);
    NoneSpaced(limit);
    SpacedRun(limit, map[], start, run, client);
    LogLater(stamps, EndOf(run, start), now);
    LogLater(stamps, EndOf(run, start), later);
    RetryOf(limit, stamps, now, later);
  }

  lemma LiveAtMost(limit: Limit, stamps: seq<Time>, now: Time)
    requires ValidLimit(limit) && Spaced(limit, stamps) && LogOk(stamps, now)
    ensures |Live(stamps, now, limit.window)| <= limit.max
  {
    var live := Live(stamps, now, limit.window);
    LiveIsEnd(stamps, now, limit.window);
    if live != [] {
      var first, last := |stamps| - |live|, |stamps| - 1;
      assert live[0] == stamps[first] && stamps[last] in stamps;
      assert stamps[last] - stamps[first] < limit.window;
      assert !(first + limit.max <= last);
    }
  }

  lemma RetryOf(limit: Limit, stamps: seq<Time>, now: Time, later: Time)
    requires ValidLimit(limit) && Spaced(limit, stamps) && LogOk(stamps, now) && now <= later &&
      |Live(stamps, now, limit.window)| >= limit.max
    ensures |Live(stamps, later, limit.window)| < limit.max <==>
      later >= now + Max0(Live(stamps, now, limit.window)[0] + limit.window - now)
  {
    hide Live, Spaced;
    var live, left := Live(stamps, now, limit.window), Live(stamps, later, limit.window);
    LiveAtMost(limit, stamps, now);
    LiveIsEnd(stamps, now, limit.window);
    LiveIsEnd(stamps, later, limit.window);
    var first := |stamps| - |live|;
    assert live[0] == stamps[first];
    if |left| < limit.max { assert stamps[first] <= later - limit.window; }
    else { assert left[0] == stamps[|stamps| - |left|] && stamps[|stamps| - |left|] <= stamps[first]; }
  }

  /** Looking tells what asking would: _retry_after names a time exactly when check would refuse, and the same one. */
  lemma PeekTells(limit: Limit, log: map<Client, seq<Time>>, client: Client, now: Time)
    requires ValidLimit(limit)
    ensures var check, peek := AskLog(limit, log, Check(client, now)).1, AskLog(limit, log, Peek(client, now)).1;
      if peek.Free? then check == Admitted(now) else check == Refused(peek.retry)
  {
  }

  // ---------------------------------------------- what callers can tell

  /** The requests of the client that were admitted, as their callers were told. */
  function AdmittedOf(run: seq<Request>, replies: seq<Reply>, client: Client): seq<Time>
    requires |replies| == |run|
    decreases |run|
  {
    if run == [] then []
    else
      AdmittedOf(run[..|run| - 1], replies[..|run| - 1], client) +
      if run[|run| - 1].Check? && run[|run| - 1].client == client && replies[|run| - 1].Admitted?
      then [run[|run| - 1].now] else []
  }

  /** Nobody takes a request of the client back, or forgets its history. */
  predicate TakesNoneBack(run: seq<Request>, client: Client) {
    forall i :: 0 <= i < |run| ==>
      !run[i].ResetAll? && !(run[i].Refund? && run[i].client == client) && !(run[i].Reset? && run[i].client == client)
  }

  /** One request more: the log it comes to, and the reply it gets. */
  lemma {:induction false} OneMore(limit: Limit, log: map<Client, seq<Time>>, run: seq<Request>, r: Request)
    requires ValidLimit(limit)
    ensures LogAfter(limit, log, run + [r]) == AskLog(limit, LogAfter(limit, log, run), r).0
    ensures |LogReplies(limit, log, run)| == |run|
    ensures LogReplies(limit, log, run + [r])
         == LogReplies(limit, log, run) + [AskLog(limit, LogAfter(limit, log, run), r).1]
    decreases |run|
  {
    hide AskLog;
    if run == [] {
      assert [] + [r] == [r];
    } else {
      assert (run + [r])[1..] == run[1..] + [r];
      OneMore(limit, AskLog(limit, log, run[0]).0, run[1..], r);
    }
  }

  /** What the log holds of a client is what it was admitted, as long as nothing is taken back. */
  lemma {:induction false} LogIsWhatWasAdmitted(limit: Limit, run: seq<Request>, client: Client)
    requires ValidLimit(limit) && TakesNoneBack(run, client)
    ensures var replies := LogReplies(limit, map[], run);
      |replies| == |run| && Of(LogAfter(limit, map[], run), client) == AdmittedOf(run, replies, client)
    decreases |run|
  {
    if run != [] {
      var before, r := run[..|run| - 1], run[|run| - 1];
      assert run == before + [r];
      LogIsWhatWasAdmitted(limit, before, client);
      OneMore(limit, map[], before, r);
      AskedOf(limit, LogAfter(limit, map[], before), r, client);
      var replies := LogReplies(limit, map[], run);
      assert replies[..|run| - 1] == LogReplies(limit, map[], before);
      hide LogReplies, LogAfter, AskLog;
    }
  }

  /** What one request adds to a client's log. */
  lemma AskedOf(limit: Limit, log: map<Client, seq<Time>>, r: Request, client: Client)
    requires ValidLimit(limit) && TakesNoneBack([r], client)
    ensures var (after, reply) := AskLog(limit, log, r);
      Of(after, client) == Of(log, client) +
        if r.Check? && r.client == client && reply.Admitted? then [r.now] else []
  {
    assert [r][0] == r;
  }

  lemma {:induction false} LiveIsInWindow(stamps: seq<Time>, now: Time, window: real)
    requires forall x :: x in stamps ==> x <= now
    ensures Live(stamps, now, window) == InWindow(stamps, now, window)
  {
    if stamps != [] {
      assert stamps[0] in stamps && forall x :: x in stamps[1..] ==> x in stamps;
      LiveIsInWindow(stamps[1..], now, window);
    }
  }

  lemma {:induction false} OrderedMore(run: seq<Request>, start: Time, r: Request)
    requires InOrder(run, start) && EndOf(run, start) <= At(r, EndOf(run, start))
    ensures InOrder(run + [r], start)
    decreases |run|
  {
    if run == [] { assert [] + [r] == [r]; }
    else {
      assert (run + [r])[1..] == run[1..] + [r];
      OrderedMore(run[1..], At(run[0], start), r);
    }
  }

  /**
   * On every ordered run of requests, sweeps and all: a request is admitted exactly when fewer than max of the
   * client's were admitted in the window that ends now, counting what their callers were told.
   */
  lemma AdmittedWhereThereIsRoom(limit: Limit, start: Time, run: seq<Request>, client: Client, now: Time)
    requires ValidLimit(limit) && InOrder(run, start) && EndOf(run, start) <= now && TakesNoneBack(run, client)
    ensures var replies := LocalReplies(limit, Local(map[], start), run + [Check(client, now)]);
      && |replies| == |run| + 1
      && (replies[|run|] == Admitted(now) <==>
          |InWindow(AdmittedOf(run, replies[..|run|], client), now, limit.window)| < limit.max)
      && (replies[|run|].Admitted? || (replies[|run|].Refused? && replies[|run|].retry > 0.0))
  {
    OrderedMore(run, start, Check(client, now));
    SweepingIsInvisible(limit, start, run + [Check(client, now)]);
    hide LocalReplies, InOrder, LogReplies;
    OneMore(limit, map[], run, Check(client, now));
    LogIsWhatWasAdmitted(limit, run, client);
    var stamps := Of(LogAfter(limit, map[], run), client);
    NoneKept(0.0, start);
    NoneSpaced(limit);
    SpacedRun(limit, map[], start, run, client);
    LogLater(stamps, EndOf(run, start), now);
    LogPast(stamps, now);
    LiveIsInWindow(stamps, now, limit.window);
    hide InWindow, LogAfter, EndOf, LogOk, Spaced;
  }

  /** A refund takes back one request recorded then, if there is one, and a reset forgets them all. */
  lemma WhatIsTakenBack(limit: Limit, log: map<Client, seq<Time>>, client: Client, recorded: Time, other: Client)
    requires ValidLimit(limit) && other != client
    ensures var after := AskLog(limit, log, Refund(client, recorded)).0;
      && multiset(Of(after, client)) == multiset(Of(log, client)) - multiset{recorded}
      && Of(after, other) == Of(log, other)
    ensures var after := AskLog(limit, log, Reset(client)).0;
      Of(after, client) == [] && Of(after, other) == Of(log, other)
    ensures Of(AskLog(limit, log, ResetAll).0, other) == []
  {
    hide Without;
    var stamps := Of(log, client);
    if recorded in stamps { RemovedOne(stamps, recorded); } else { NoneRemoved(stamps, recorded); }
  }

  lemma NoneRemoved(stamps: seq<Time>, stamp: Time)
    requires stamp !in stamps
    ensures Without(stamps, stamp) == stamps
  {
  }

  lemma RemovedOne(stamps: seq<Time>, stamp: Time)
    requires stamp in stamps
    ensures multiset(Without(stamps, stamp)) == multiset(stamps) - multiset{stamp}
  {
    WithoutAt(stamps, stamp);
    hide Without, First;
    var at, after := First(stamps, stamp), Without(stamps, stamp);
    assert stamps == stamps[..at] + [stamp] + stamps[at + 1..];
    assert after == stamps[..at] + stamps[at + 1..];
  }
}
