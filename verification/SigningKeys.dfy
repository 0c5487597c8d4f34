/**
 * The cache of an issuer's signing keys (_wants_fetch, _signing_keys and _refresh_keys of
 * easy_mcp/security/oauth.py): one loop, a clock that never goes back, fetches shorter than 270 s, none of them
 * cancelled, and requests that wait for a fetch going on when it completes.
 */
module SigningKeys {
  import opened Wrappers

  type Time = real

  const KEYS_TTL := 3600.0
  const REFRESH_AHEAD := 300.0
  const COOLDOWN := 30.0
  const UNAVAILABLE_RETRY := 5.0
  const LONGEST_FETCH := 270.0

  datatype Outcome = Failed | NoUsableKey | Fetched

  /** A fetch that is over. */
  datatype Attempt = Attempt(begin: Time, end: Time, outcome: Outcome)

  /** A task that has not run yet, or the fetch it is making. */
  datatype Task = NoTask | Scheduled | Fetching(begin: Time, due: bool)

  /** keys is when the cached keys were asked for; log and lastBegin are read by nothing. */
  datatype State = State(
    now: Time, keys: Option<Time>, attemptedAt: Option<Time>, refreshFailed: bool, task: Task, log: seq<Attempt>,
    lastBegin: Option<Time>)

  datatype Answer = Keys(at: Time) | Unavailable | Waits

  predicate WantsFetch(s: State, unknownKid: bool) {
    match s.keys
    case None => s.attemptedAt.None? || s.now - s.attemptedAt.value >= UNAVAILABLE_RETRY
    case Some(at) =>
      (unknownKid || s.now - at >= KEYS_TTL - REFRESH_AHEAD) &&
          (s.attemptedAt.None? || s.now - s.attemptedAt.value >= COOLDOWN)
  }

  predicate Expired(s: State) {
    s.keys.Some? && s.now - s.keys.value >= KEYS_TTL && !s.refreshFailed
  }

  function Cached(s: State): Answer {
    if s.keys.Some? then Keys(s.keys.value) else Unavailable
  }

  /** _signing_keys up to its await, if it waits: the state it leaves and what it answers now. */
  function Ask(s: State, unknownKid: bool): (State, Answer) {
    var wanted, needed := WantsFetch(s, unknownKid), s.keys.None? || unknownKid || Expired(s);
    var after := if wanted && s.task.NoTask? then s.(task := Scheduled) else s;
    (after, if needed && !after.task.NoTask? then Waits else Cached(s))
  }

  datatype Step =
    | Asks(unknownKid: bool)
    | Begin
    | Complete(outcome: Outcome)
    | Wait(time: real)

  predicate Enabled(s: State, step: Step) {
    match step
    case Asks(_) => true
    case Begin => s.task.Scheduled?
    case Complete(_) => s.task.Fetching?
    case Wait(time) => time >= 0.0 && (s.task.Fetching? ==> s.now + time < s.task.begin + LONGEST_FETCH)
  }

  /** The start of _refresh_keys. */
  function Begun(s: State): State {
    s.(attemptedAt := Some(s.now), lastBegin := Some(s.now),
       task := Fetching(s.now, s.keys.Some? && s.now - s.keys.value >= KEYS_TTL - REFRESH_AHEAD))
  }

  /** Its end. */
  function Completed(s: State, outcome: Outcome): State
    requires s.task.Fetching?
  {
    var done := s.(task := NoTask, log := s.log + [Attempt(s.task.begin, s.now, outcome)]);
    match outcome
    case Failed => done.(refreshFailed := s.refreshFailed || s.task.due, attemptedAt := Some(s.now))
    case NoUsableKey => done.(keys := None, refreshFailed := false, attemptedAt := Some(s.now))
    case Fetched => done.(keys := Some(s.task.begin), refreshFailed := false)
  }

  function Do(s: State, step: Step): State
    requires Enabled(s, step)
  {
    match step
    case Asks(unknownKid) => Ask(s, unknownKid).0
    case Begin => Begun(s)
    case Complete(outcome) => Completed(s, outcome)
    case Wait(time) => s.(now := s.now + time)
  }

  predicate Initial(s: State) {
    s.keys.None? && s.attemptedAt.None? && !s.refreshFailed && s.task.NoTask? && s.log == [] && s.lastBegin.None?
  }

  ghost predicate Leads(s: State, run: seq<Step>, t: State)
    decreases |run|
  {
    if run == [] then t == s else Enabled(s, run[0]) && Leads(Do(s, run[0]), run[1..], t)
  }

  // -------------------------------------------------------------- invariants

  /** A refresh begun when these keys were due for one has failed since they were fetched. */
  predicate DueRefreshFailed(s: State) {
    s.keys.Some? && exists i ::
        0 <= i < |s.log| && s.log[i].outcome.Failed? && s.log[i].begin - s.keys.value >= KEYS_TTL - REFRESH_AHEAD
  }

  predicate Valid(s: State) {
    && (s.keys.Some? ==> s.keys.value <= s.now)
    && (s.refreshFailed ==> DueRefreshFailed(s))
    // the last attempt, and how long ago
    && (s.lastBegin.Some? <==> s.attemptedAt.Some?)
    && (s.attemptedAt.Some? ==> s.lastBegin.value <= s.attemptedAt.value <= s.now)
    && (s.keys.Some? ==> s.attemptedAt.Some? && s.keys.value <= s.lastBegin.value)
    && (s.task.Fetching? ==>
          && s.lastBegin == s.attemptedAt == Some(s.task.begin) && s.now < s.task.begin + LONGEST_FETCH
          && s.task.due == (s.keys.Some? && s.task.begin - s.keys.value >= KEYS_TTL - REFRESH_AHEAD))
    // an attempt that left the keys without a failed refresh began before they were due
    && (!s.task.Fetching? && s.keys.Some? && !s.refreshFailed ==>
        s.attemptedAt.value < s.keys.value + KEYS_TTL - COOLDOWN)
  }

  lemma ValidStep(s: State, step: Step)
    requires Valid(s) && Enabled(s, step)
    ensures Valid(Do(s, step))
  {
    match step
    case Complete(outcome) =>
      var t := Completed(s, outcome);
      if s.refreshFailed && outcome.Failed? {
        var i :| 0 <= i < |s.log| && s.log[i].outcome.Failed? &&
            s.log[i].begin - s.keys.value >= KEYS_TTL - REFRESH_AHEAD;
        assert t.log[i] == s.log[i];
      }
      assert t.log[|s.log|] == Attempt(s.task.begin, s.now, outcome);
    case _ =>
  }

  lemma {:induction false} ValidRun(s: State, run: seq<Step>, t: State)
    requires Valid(s) && Leads(s, run, t)
    ensures Valid(t)
    decreases |run|
  {
    if run != [] {
      ValidStep(s, run[0]);
      ValidRun(Do(s, run[0]), run[1..], t);
    }
  }

  // ------------------------------------------------------------ main results

  /**
   * Keys an hour old are answered with only after a refresh begun when they were due failed; an answer that waited is
   * the next one.
   */
  lemma OldKeysOnlyAfterAFailedRefresh(s: State, run: seq<Step>, t: State, unknownKid: bool)
    requires Initial(s) && Leads(s, run, t)
    ensures var answer := Ask(t, unknownKid).1; answer.Keys? && t.now - answer.at >= KEYS_TTL ==> DueRefreshFailed(t)
  {
    ValidRun(s, run, t);
  }

  /** The same for every request that waited for the fetch that now completes. */
  lemma NorAfterAWait(s: State, run: seq<Step>, t: State, outcome: Outcome)
    requires Initial(s) && Leads(s, run, t) && Enabled(t, Complete(outcome))
    ensures var after := Completed(t, outcome); var answer := Cached(after);
      answer.Keys? && after.now - answer.at >= KEYS_TTL ==> DueRefreshFailed(after)
  {
    ValidRun(s, run, t);
    ValidStep(t, Complete(outcome));
  }

  /** No fetch of the run brings keys, or takes them away. */
  predicate OnlyFails(run: seq<Step>) {
    forall i :: 0 <= i < |run| && run[i].Complete? ==> run[i].outcome.Failed?
  }

  /**
   * A silent authorization server holds up requests once: from the failed refresh on, for as long as no fetch brings
   * an answer, however long that is, every request that knows its key is answered at once.
   */
  lemma {:induction false} HeldUpOnce(s: State, run: seq<Step>, t: State)
    requires s.keys.Some? && s.refreshFailed && Leads(s, run, t) && OnlyFails(run)
    ensures t.refreshFailed && t.keys == s.keys && Ask(t, false).1 == Keys(s.keys.value)
    decreases |run|
  {
    if run != [] { HeldUpOnce(Do(s, run[0]), run[1..], t); }
  }

  /**
   * A withdrawn key stops working: once a fetch completes with keys, or with none, the earlier ones are not answered
   * with.
   */
  lemma WithdrawnWithTheFetch(s: State, run: seq<Step>, t: State, outcome: Outcome)
    requires Initial(s) && Leads(s, run, t) && Enabled(t, Complete(outcome)) && outcome != Failed
    ensures Cached(Completed(t, outcome)) == if outcome.Fetched? then Keys(t.task.begin) else Unavailable
    ensures t.keys.Some? ==> t.keys.value <= t.task.begin
  {
    ValidRun(s, run, t);
  }

  /** Where a task is scheduled, the last fetch began long enough ago. */
  predicate Rested(s: State) {
    s.task.Scheduled? && s.lastBegin.Some? ==> s.now - s.lastBegin.value >= if s.keys.Some? then COOLDOWN
        else UNAVAILABLE_RETRY
  }

  lemma RestedStep(s: State, step: Step)
    requires Valid(s) && Rested(s) && Enabled(s, step)
    ensures Rested(Do(s, step))
  {
  }

  lemma {:induction false} RestedRun(s: State, run: seq<Step>, t: State)
    requires Valid(s) && Rested(s) && Leads(s, run, t)
    ensures Valid(t) && Rested(t)
    decreases |run|
  {
    if run != [] {
      ValidStep(s, run[0]);
      RestedStep(s, run[0]);
      RestedRun(Do(s, run[0]), run[1..], t);
    }
  }

  /** Fetches begin at least 30 s apart while keys are cached, and 5 s apart while none are. */
  lemma FetchesAreSpaced(s: State, run: seq<Step>, t: State)
    requires Initial(s) && Leads(s, run, t) && Enabled(t, Begin)
    ensures t.lastBegin.Some? ==> Begun(t).lastBegin.value - t.lastBegin.value >= if t.keys.Some? then COOLDOWN
      else UNAVAILABLE_RETRY
  {
    RestedRun(s, run, t);
  }

  // ------------------------------------- when a fetch is called for

  /** When the keys in use were asked for: the last fetch that was answered brought them, if it brought any. */
  function KeysFrom(log: seq<Attempt>): Option<Time> {
    if log == [] then None
    else match log[|log| - 1].outcome
      case Failed => KeysFrom(log[..|log| - 1])
      case NoUsableKey => None
      case Fetched => Some(log[|log| - 1].begin)
  }

  /** What the wait after an attempt is measured from: a fetch that brought no keys counts until it was over. */
  function Moment(attempt: Attempt): Time {
    if attempt.outcome.Fetched? then attempt.begin else attempt.end
  }

  /** There was no attempt in the last so many seconds, and none is being made that began in them. */
  predicate QuietFor(s: State, time: real) {
    && (forall i :: 0 <= i < |s.log| ==> s.now - Moment(s.log[i]) >= time)
    && (s.task.Fetching? ==> s.now - s.task.begin >= time)
  }

  /** A refresh of the keys in use that began 55 minutes or more after they were asked for has failed. */
  predicate FailedWhenDue(log: seq<Attempt>) {
    KeysFrom(log).Some? && exists i ::
      0 <= i < |log| && log[i].outcome.Failed? && log[i].begin - KeysFrom(log).value >= 3300.0
  }

  /** Attempts are made one after the other. */
  predicate InTurn(s: State) {
    && (forall i :: 0 <= i < |s.log| ==> s.log[i].begin <= s.log[i].end <= s.now)
    && (forall i, j :: 0 <= i < j < |s.log| ==> s.log[i].end <= s.log[j].begin)
    && (s.task.Fetching? ==> s.task.begin <= s.now && forall i :: 0 <= i < |s.log| ==> s.log[i].end <= s.task.begin)
  }

  /** What the issuer's state remembers of its attempts. */
  predicate Remembers(s: State) {
    && s.keys == KeysFrom(s.log) && (s.refreshFailed <==> FailedWhenDue(s.log))
    && s.attemptedAt == (if s.task.Fetching? then Some(s.task.begin)
                         else if s.log == [] then None else Some(Moment(s.log[|s.log| - 1])))
    && (s.task.Fetching? ==> s.task.due == (s.keys.Some? && s.task.begin - s.keys.value >= 3300.0))
  }

  lemma KeysOfMore(log: seq<Attempt>, last: Attempt)
    ensures KeysFrom(log + [last]) ==
      match last.outcome case Failed => KeysFrom(log) case NoUsableKey => None case Fetched => Some(last.begin)
  {
    assert (log + [last])[..|log|] == log;
  }

  /** A failed attempt adds to what failed, if it was due; one that was answered begins anew. */
  lemma FailedOfMore(log: seq<Attempt>, last: Attempt)
    requires forall i :: 0 <= i < |log| ==> log[i].begin <= last.begin
    ensures FailedWhenDue(log + [last]) <==>
      last.outcome.Failed? &&
      (FailedWhenDue(log) || (KeysFrom(log).Some? && last.begin - KeysFrom(log).value >= 3300.0))
  {
    hide KeysFrom;
    KeysOfMore(log, last);
    var more := log + [last];
    if last.outcome.Failed? {
      if FailedWhenDue(log) {
        var i :| 0 <= i < |log| && log[i].outcome.Failed? && log[i].begin - KeysFrom(log).value >= 3300.0;
        assert more[i] == log[i];
      }
      assert more[|log|] == last;
    } else if last.outcome.Fetched? {
      assert forall i :: 0 <= i < |more| ==> more[i].begin <= last.begin;
    }
  }

  lemma CompletedRemembers(s: State, outcome: Outcome)
    requires InTurn(s) && Remembers(s) && Enabled(s, Complete(outcome))
    ensures Remembers(Completed(s, outcome))
  {
    hide KeysFrom, FailedWhenDue;
    var last := Attempt(s.task.begin, s.now, outcome);
    KeysOfMore(s.log, last);
    FailedOfMore(s.log, last);
  }

  lemma CompletedInTurn(s: State, outcome: Outcome)
    requires InTurn(s) && Enabled(s, Complete(outcome))
    ensures InTurn(Completed(s, outcome))
  {
  }

  lemma {:induction false} RemembersRun(s: State, run: seq<Step>, t: State)
    requires InTurn(s) && Remembers(s) && Leads(s, run, t)
    ensures InTurn(t) && Remembers(t)
    decreases |run|
  {
    if run != [] {
      if run[0].Complete? {
        CompletedRemembers(s, run[0].outcome);
        CompletedInTurn(s, run[0].outcome);
        hide Completed;
      }
      hide Moment, KeysFrom, FailedWhenDue;
      RemembersRun(Do(s, run[0]), run[1..], t);
    }
  }

  lemma QuietIs(s: State, time: real)
    requires InTurn(s) && Remembers(s) && time > 0.0
    ensures QuietFor(s, time) <==> s.attemptedAt.None? || s.now - s.attemptedAt.value >= time
  {
    hide KeysFrom, FailedWhenDue;
    forall i | 0 <= i < |s.log| ensures s.attemptedAt.Some? && Moment(s.log[i]) <= s.attemptedAt.value {
      if i < |s.log| - 1 { assert s.log[i].end <= s.log[|s.log| - 1].begin; }
    }
  }

  /**
   * A fetch is called for when there are no keys and none was tried for in the last 5 s, or when there was no attempt
   * in the last 30 s and the keys are 55 minutes old or lack the one a token names.
   */
  predicate CalledFor(s: State, unknownKid: bool) {
    match KeysFrom(s.log)
    case None => QuietFor(s, 5.0)
    case Some(at) => QuietFor(s, 30.0) && (unknownKid || s.now - at >= 3300.0)
  }

  /** The request cannot be answered with the keys there are. */
  predicate CannotGoOn(s: State, unknownKid: bool) {
    match KeysFrom(s.log)
    case None => true
    case Some(at) => unknownKid || (s.now - at >= 3600.0 && !FailedWhenDue(s.log))
  }

  /** What a request makes of the task, and how it is answered. */
  ghost predicate IsServed(s: State, unknownKid: bool, task: Task, answer: Answer) {
    && task == (if s.task.NoTask? && CalledFor(s, unknownKid) then Scheduled else s.task)
    && (answer.Waits? <==> CannotGoOn(s, unknownKid) && (s.task.NoTask? ==> CalledFor(s, unknownKid)))
    && (!answer.Waits? ==> answer == if KeysFrom(s.log).Some? then Keys(KeysFrom(s.log).value) else Unavailable)
  }

  lemma AskMeans(s: State, unknownKid: bool)
    requires InTurn(s) && Remembers(s)
    ensures var after, answer := Ask(s, unknownKid).0, Ask(s, unknownKid).1;
      IsServed(s, unknownKid, after.task, answer) && after == s.(task := after.task)
  {
    hide Moment, QuietFor, InTurn;
    QuietIs(s, 5.0);
    QuietIs(s, 30.0);
  }

  /**
   * Whatever was asked and fetched before: a request starts a fetch exactly when one is called for and none is on its
   * way, it waits exactly when it cannot go on without one and one is on its way by then, and any other is answered
   * with the keys of the last fetch that was answered.
   */
  lemma WhatARequestStarts(s: State, run: seq<Step>, t: State, unknownKid: bool)
    requires Initial(s) && Leads(s, run, t)
    ensures var after, answer := Ask(t, unknownKid).0, Ask(t, unknownKid).1;
      && after == t.(task := if t.task.NoTask? && CalledFor(t, unknownKid) then Scheduled else t.task)
      && (answer.Waits? <==> CannotGoOn(t, unknownKid) && (t.task.NoTask? ==> CalledFor(t, unknownKid)))
      && (!answer.Waits? ==>
          answer == if KeysFrom(t.log).Some? then Keys(KeysFrom(t.log).value) else Unavailable)
  {
    hide CalledFor, CannotGoOn, KeysFrom, FailedWhenDue;
    assert InTurn(s) && Remembers(s) by { InitiallyRemembers(s); }
    RemembersRun(s, run, t);
    AskMeans(t, unknownKid);
  }

  lemma InitiallyRemembers(s: State)
    requires Initial(s)
    ensures InTurn(s) && Remembers(s)
  {
  }

  /** The issuer's state as the object it is. */
  class IssuerState {
    var keys: Option<Time>
    var attemptedAt: Option<Time>
    var refreshFailed: bool
    var task: Task

    constructor ()
      ensures keys == None && attemptedAt == None && !refreshFailed && task == NoTask
    {
      keys, attemptedAt, refreshFailed, task := None, None, false, NoTask;
    }

    ghost predicate Is(s: State)
      reads this
    {
      keys == s.keys && attemptedAt == s.attemptedAt && refreshFailed == s.refreshFailed && task == s.task
    }

    method SigningKeys(now: Time, unknownKid: bool) returns (answer: Answer)
      modifies this`task
      ensures forall s: State :: s.now == now && old(Is(s)) ==>
        Is(Ask(s, unknownKid).0) && answer == Ask(s, unknownKid).1
      // by the attempts made so far, as every run leaves them remembered
      ensures forall s: State :: s.now == now && old(Is(s)) && InTurn(s) && Remembers(s) ==>
        IsServed(s, unknownKid, task, answer)
    {
      forall s: State | s.now == now && Is(s) && InTurn(s) && Remembers(s)
        ensures IsServed(s, unknownKid, Ask(s, unknownKid).0.task, Ask(s, unknownKid).1)
      {
        AskMeans(s, unknownKid);
      }
      hide InTurn, Remembers, IsServed;
      var wanted: bool;
      match keys {
        case None => wanted := attemptedAt.None? || now - attemptedAt.value >= UNAVAILABLE_RETRY;
        case Some(at) =>
          wanted := (unknownKid || now - at >= KEYS_TTL - REFRESH_AHEAD) &&
              (attemptedAt.None? || now - attemptedAt.value >= COOLDOWN);
      }
      var expired := keys.Some? && now - keys.value >= KEYS_TTL && !refreshFailed;
      var needed := keys.None? || unknownKid || expired;
      if wanted || needed {
        if task.NoTask? && wanted { task := Scheduled; }
        if !task.NoTask? && needed { return Waits; }
      }
      answer := if keys.Some? then Keys(keys.value) else Unavailable;
    }

    method BeginRefresh(now: Time)
      requires task.Scheduled?
      modifies this`attemptedAt, this`task
      ensures forall s: State :: s.now == now && old(Is(s)) ==> Is(Begun(s))
    {
      attemptedAt := Some(now);
      task := Fetching(now, keys.Some? && now - keys.value >= KEYS_TTL - REFRESH_AHEAD);
    }

    method EndRefresh(now: Time, outcome: Outcome)
      requires task.Fetching?
      modifies this
      ensures forall s: State :: s.now == now && old(Is(s)) ==> Is(Completed(s, outcome))
    {
      var begin, due := task.begin, task.due;
      task := NoTask;
      match outcome
      case Failed =>
        if due { refreshFailed := true; }
        attemptedAt := Some(now);
      case NoUsableKey =>
        keys, refreshFailed, attemptedAt := None, false, Some(now);
      case Fetched =>
        keys, refreshFailed := Some(begin), false;
    }
  }
}
