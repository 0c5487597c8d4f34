/**
 * The cap on calls of one tool in one session (_execute_tool, _run_tool and _run_user_code of easy_mcp/server.py).
 *
 * Calls interleave at every await: in middleware, in the tool, and while the shared store reserves or takes back a
 * unit.  Without a store the count is the session context's own; with one it is the store's, and lives as long as the
 * session does there.
 */
module CallCap {
  import opened Wrappers
  import opened RedisSessions

  type Call = nat

  datatype Phase =
    | Asking                    // awaiting the store's reservation
    | Abandoned                 // cancelled while the request was on its way to the store
    | Granted                   // the store reserved; the answer is on its way, or the arguments are being checked
    | Open(started: bool)       // past the cap, until its finally
    | Refunding                 // closed unstarted, awaiting the store's release
    | Over(started: bool)

  datatype Reservation = Ok | AtLimit | Gone

  /** leaked counts the units no call will give back any more; nothing reads it. */
  datatype State = State(shared: bool, limit: nat, count: Option<nat>, calls: map<Call, Phase>, leaked: nat)

  datatype Step =
    | Arrive(call: Call, arguments: bool)   // without a store: the cap and the arguments are checked with no await
    | Ask(call: Call)
    | Reserve(call: Call)                   // the store answers
    | CancelAsk(call: Call)
    | CancelGrant(call: Call)
    | Deny(call: Call)                      // the arguments are invalid
    | Proceed(call: Call)
    | Busy(call: Call)                      // no worker was free
    | Start(call: Call)                     // _closed is checked and _started set with no await in between
    | Finish(call: Call)                    // the finally
    | Release(call: Call)                   // the store takes the unit back
    | LoseRelease(call: Call)
    | Expire

  /** reserve_call and release_call on one session's count of one tool. */
  function ReserveUnit(count: Option<nat>, limit: nat): (Option<nat>, Reservation) {
    if count.None? then (count, Gone)
    else if count.value >= limit then (count, AtLimit)
    else (Some(count.value + 1), Ok)
  }

  function ReleaseUnit(count: Option<nat>): Option<nat> {
    if count.None? || count.value == 0 then count else Some(count.value - 1)
  }

  predicate Is(s: State, call: Call, phase: Phase) {
    call in s.calls && s.calls[call] == phase
  }

  predicate Enabled(s: State, step: Step) {
    match step
    case Arrive(call, _) => !s.shared && call !in s.calls
    case Ask(call) => s.shared && call !in s.calls
    case Reserve(call) => Is(s, call, Asking) || Is(s, call, Abandoned)
    case CancelAsk(call) => Is(s, call, Asking)
    case CancelGrant(call) => Is(s, call, Granted)
    case Deny(call) => Is(s, call, Granted)
    case Proceed(call) => Is(s, call, Granted)
    case Busy(call) => Is(s, call, Open(false))
    case Start(call) => Is(s, call, Open(false))
    case Finish(call) => call in s.calls && s.calls[call].Open?
    case Release(call) => Is(s, call, Refunding)
    case LoseRelease(call) => Is(s, call, Refunding)
    case Expire => s.shared
  }

  function Become(s: State, call: Call, phase: Phase): State {
    s.(calls := s.calls[call := phase])
  }

  function Do(s: State, step: Step): State
    requires Enabled(s, step)
  {
    match step
    case Arrive(call, arguments) =>
      if s.count.None? || s.count.value >= s.limit || !arguments then Become(s, call, Over(false))
      else Become(s, call, Open(false)).(count := Some(s.count.value + 1))
    case Ask(call) => Become(s, call, Asking)
    case Reserve(call) =>
      var (count, answer) := ReserveUnit(s.count, s.limit);
      if answer != Ok then Become(s, call, Over(false))
      else if s.calls[call].Asking? then Become(s, call, Granted).(count := count)
      else Become(s, call, Over(false)).(count := count, leaked := s.leaked + 1)
    case CancelAsk(call) => Become(s, call, Abandoned)
    case CancelGrant(call) => Become(s, call, Over(false)).(leaked := s.leaked + 1)
    case Deny(call) => Become(s, call, Refunding)
    case Proceed(call) => Become(s, call, Open(false))
    case Busy(call) => s
    case Start(call) => Become(s, call, Open(true))
    case Finish(call) =>
      if s.calls[call].started then Become(s, call, Over(true))
      else if s.shared then Become(s, call, Refunding)
      else Become(s, call, Over(false)).(count := ReleaseUnit(s.count))
    case Release(call) => Become(s, call, Over(false)).(count := ReleaseUnit(s.count))
    case LoseRelease(call) => Become(s, call, Over(false)).(leaked := s.leaked + 1)
    case Expire => s.(count := None)
  }

  // --------------------------------------------------------------- conservation

  /** The tool started for it, whether it is still running or not. */
  function Started(s: State): set<Call> {
    set call | call in s.calls && (s.calls[call] == Open(true) || s.calls[call] == Over(true))
  }

  /** In flight, not started, and holding a unit. */
  function Waiting(s: State): set<Call> {
    set call | call in s.calls && (s.calls[call] == Open(false) || s.calls[call] == Granted)
  }

  function Returning(s: State): set<Call> {
    set call | call in s.calls && s.calls[call] == Refunding
  }

  /** Every unit of the count is a started call's, a waiting call's, on its way back, or leaked. */
  predicate Conserved(s: State) {
    && (s.count.Some? ==>
        s.count.value == |Started(s)| + |Waiting(s)| + |Returning(s)| + s.leaked && s.count.value <= s.limit)
    && |Started(s)| + |Waiting(s)| <= s.limit
    && (!s.shared ==> s.count.Some? && s.leaked == 0 && forall call :: call in s.calls ==>
        s.calls[call].Open? || s.calls[call].Over?)
  }

  predicate Initial(s: State) {
    s.count == Some(0) && s.calls == map[] && s.leaked == 0
  }

  ghost predicate Leads(s: State, run: seq<Step>, t: State)
    decreases |run|
  {
    if run == [] then t == s else Enabled(s, run[0]) && Leads(Do(s, run[0]), run[1..], t)
  }

  /** Which of the three sets a phase puts a call in. */
  function Weight(phase: Phase): (int, int, int) {
    if phase == Open(true) || phase == Over(true) then (1, 0, 0)
    else if phase == Open(false) || phase == Granted then (0, 1, 0)
    else if phase == Refunding then (0, 0, 1)
    else (0, 0, 0)
  }

  function WeightIn(s: State, call: Call): (int, int, int) {
    if call in s.calls then Weight(s.calls[call]) else (0, 0, 0)
  }

  /** One call changes its phase: the sets gain or lose it and nothing else. */
  lemma Moved(s: State, call: Call, phase: Phase)
    ensures var t := Become(s, call, phase); var was, now := WeightIn(s, call), Weight(phase);
      && |Started(t)| == |Started(s)| - was.0 + now.0 && |Waiting(t)| == |Waiting(s)| - was.1 + now.1
      && |Returning(t)| == |Returning(s)| - was.2 + now.2
  {
    hide Started, Waiting, Returning, Become, Weight, WeightIn;
    var t := Become(s, call, phase);
    StartedBut(s, call, phase);
    WaitingBut(s, call, phase);
    ReturningBut(s, call, phase);
    BesidesOne(Started(s), call);
    BesidesOne(Started(t), call);
    BesidesOne(Waiting(s), call);
    BesidesOne(Waiting(t), call);
    BesidesOne(Returning(s), call);
    BesidesOne(Returning(t), call);
  }

  lemma StartedBut(s: State, call: Call, phase: Phase)
    ensures Started(Become(s, call, phase)) - {call} == Started(s) - {call}
    ensures WeightIn(s, call).0 == if call in Started(s) then 1 else 0
    ensures Weight(phase).0 == if call in Started(Become(s, call, phase)) then 1 else 0
  {
  }

  lemma WaitingBut(s: State, call: Call, phase: Phase)
    ensures Waiting(Become(s, call, phase)) - {call} == Waiting(s) - {call}
    ensures WeightIn(s, call).1 == if call in Waiting(s) then 1 else 0
    ensures Weight(phase).1 == if call in Waiting(Become(s, call, phase)) then 1 else 0
  {
  }

  lemma ReturningBut(s: State, call: Call, phase: Phase)
    ensures Returning(Become(s, call, phase)) - {call} == Returning(s) - {call}
    ensures WeightIn(s, call).2 == if call in Returning(s) then 1 else 0
    ensures Weight(phase).2 == if call in Returning(Become(s, call, phase)) then 1 else 0
  {
  }

  lemma BesidesOne(calls: set<Call>, call: Call)
    ensures |calls| == |calls - {call}| + if call in calls then 1 else 0
  {
    if call in calls { assert calls == calls - {call} + {call}; } else { assert calls - {call} == calls; }
  }

  /** The count and the limit, against the sizes of the three sets: all that conservation speaks of but who they are. */
  predicate Balanced(s: State, started: nat, waiting: nat, returning: nat) {
    && (s.count.Some? ==> s.count.value == started + waiting + returning + s.leaked && s.count.value <= s.limit)
    && started + waiting <= s.limit
  }

  /** One step moves the call from one set to another and pays for it. */
  lemma BalancedStep(s: State, step: Step, started: nat, waiting: nat, returning: nat)
    requires Enabled(s, step) && !step.Busy? && !step.Expire? && Balanced(s, started, waiting, returning)
    requires !s.shared ==> s.count.Some?
    requires var was := WeightIn(s, step.call); started >= was.0 && waiting >= was.1 && returning >= was.2
    ensures var t := Do(s, step); var was, now := WeightIn(s, step.call), Weight(t.calls[step.call]);
      Balanced(t, started - was.0 + now.0, waiting - was.1 + now.1, returning - was.2 + now.2)
  {
  }

  /** Without a store the count is always there, nothing leaks, and no call waits for one. */
  predicate OwnCount(s: State) {
    !s.shared ==> s.count.Some? && s.leaked == 0 && forall call :: call in s.calls ==>
        s.calls[call].Open? || s.calls[call].Over?
  }

  lemma OwnStep(s: State, step: Step)
    requires OwnCount(s) && Enabled(s, step)
    ensures OwnCount(Do(s, step))
  {
  }

  lemma ConservedStep(s: State, step: Step)
    requires Conserved(s) && Enabled(s, step)
    ensures Conserved(Do(s, step))
  {
    hide Started, Waiting, Returning;
    OwnStep(s, step);
    if !step.Busy? && !step.Expire? {
      var phase := Do(s, step).calls[step.call];
      Moved(s, step.call, phase);
      SetsOfCalls(Become(s, step.call, phase), Do(s, step));
      WeightsCounted(s, step.call);
      BalancedStep(s, step, |Started(s)|, |Waiting(s)|, |Returning(s)|);
      hide Do, Weight, WeightIn;
    } else {
      SetsOfCalls(s, Do(s, step));
    }
  }

  lemma WeightsCounted(s: State, call: Call)
    ensures var was := WeightIn(s, call); |Started(s)| >= was.0 && |Waiting(s)| >= was.1 && |Returning(s)| >= was.2
  {
    hide Weight, WeightIn;
    StartedBut(s, call, Asking);
    WaitingBut(s, call, Asking);
    ReturningBut(s, call, Asking);
    hide Started, Waiting, Returning;
    BesidesOne(Started(s), call);
    BesidesOne(Waiting(s), call);
    BesidesOne(Returning(s), call);
  }

  lemma SetsOfCalls(s: State, t: State)
    requires s.calls == t.calls
    ensures Started(s) == Started(t) && Waiting(s) == Waiting(t) && Returning(s) == Returning(t)
  {
  }

  lemma {:induction false} ConservedRun(s: State, run: seq<Step>, t: State)
    requires Conserved(s) && Leads(s, run, t)
    ensures Conserved(t)
    decreases |run|
  {
    if run != [] {
      ConservedStep(s, run[0]);
      ConservedRun(Do(s, run[0]), run[1..], t);
    }
  }

  /**
   * Whatever middleware, cancellations, busy refusals and a store's losses interleave, no more calls start than the
   * cap allows.
   */
  lemma AtMostLimitStart(s: State, run: seq<Step>, t: State)
    requires Initial(s) && Leads(s, run, t)
    ensures |Started(t)| <= s.limit
    ensures !s.shared ==> t.count == Some(|Started(t)| + |Waiting(t)|)
    ensures t.count.Some? ==> t.count.value == |Started(t)| + |Waiting(t)| + |Returning(t)| + t.leaked
  {
    assert Started(s) == {} && Waiting(s) == {} && Returning(s) == {};
    ConservedRun(s, run, t);
    LimitStays(s, run, t);
    if !s.shared { assert Returning(t) == {}; }
  }

  lemma {:induction false} LimitStays(s: State, run: seq<Step>, t: State)
    requires Leads(s, run, t)
    ensures t.limit == s.limit && t.shared == s.shared
    decreases |run|
  {
    if run != [] { LimitStays(Do(s, run[0]), run[1..], t); }
  }

  /** How many units of the cap are spent in this process's sight: on calls started, waiting or being given back. */
  function Spent(s: State): nat {
    |Started(s)| + |Waiting(s)| + |Returning(s)| + s.leaked
  }

  /**
   * No call is turned away while there is room: without a store one with valid arguments goes ahead exactly while
   * fewer calls than the cap have started or wait to; with one the store grants a unit exactly while the session is
   * there and fewer than the cap are spent.
   */
  lemma WhoIsLetThrough(s: State, run: seq<Step>, t: State, call: Call)
    requires Initial(s) && Leads(s, run, t)
    ensures Enabled(t, Arrive(call, true)) ==>
      Do(t, Arrive(call, true)).calls[call] ==
        if |Started(t)| + |Waiting(t)| < s.limit then Open(false) else Over(false)
    ensures Enabled(t, Arrive(call, false)) ==> Do(t, Arrive(call, false)) == t.(calls := t.calls[call := Over(false)])
    ensures Is(t, call, Asking) ==>
      Do(t, Step.Reserve(call)).calls[call] ==
        if t.count.Some? && Spent(t) < s.limit then Granted else Over(false)
  {
    AtMostLimitStart(s, run, t);
    LimitStays(s, run, t);
    hide Started, Waiting, Returning, Leads;
  }

  lemma StartedMore(s: State, call: Call)
    requires Is(s, call, Open(false))
    ensures call !in Started(s) && Started(Become(s, call, Open(true))) == Started(s) + {call}
  {
  }

  lemma StartedStay(s: State, call: Call, before: Phase, after: Phase)
    requires Is(s, call, before) && Weight(before).0 == Weight(after).0
    ensures Started(Become(s, call, after)) == Started(s)
  {
  }

  lemma WaitingStay(s: State, call: Call, before: Phase, after: Phase)
    requires Is(s, call, before) && Weight(before).1 == Weight(after).1
    ensures Waiting(Become(s, call, after)) == Waiting(s)
  {
  }

  /**
   * A call that was let through and is not denied or cancelled is open, and is counted among the started from when it
   * is started, while it runs and once it is over; the count of the cap stays what it is.
   */
  lemma WhatBecomesOfACall(s: State, call: Call)
    ensures Is(s, call, Granted) ==>
      var t := Do(s, Proceed(call)); Is(t, call, Open(false)) && Waiting(t) == Waiting(s) && t.count == s.count
    ensures Is(s, call, Open(false)) ==>
      var t := Do(s, Start(call)); call !in Started(s) && Started(t) == Started(s) + {call} && t.count == s.count
    ensures Is(s, call, Open(true)) ==>
      var t := Do(s, Finish(call)); Started(t) == Started(s) && t.count == s.count
  {
    hide Started, Waiting;
    if Is(s, call, Granted) { WaitingStay(s, call, Granted, Open(false)); }
    if Is(s, call, Open(false)) { StartedMore(s, call); }
    if Is(s, call, Open(true)) { StartedStay(s, call, Open(true), Over(true)); }
  }

  /** A call that ends unstarted has its unit taken off the count: at once without a store, by its release with one. */
  lemma UnitsComeBack(s: State, call: Call)
    requires Conserved(s)
    ensures Is(s, call, Open(false)) && !s.shared ==>
      s.count.Some? && s.count.value > 0 && Do(s, Finish(call)).count == Some(s.count.value - 1)
    ensures Is(s, call, Refunding) && s.count.Some? ==>
      s.count.value > 0 && Do(s, Release(call)).count == Some(s.count.value - 1)
  {
    if call in s.calls { UnitsAreCounted(s, call); }
    hide Conserved, Started, Waiting, Returning;
  }

  /**
   * With a store: a call that ends unstarted gives its unit back there; one cancelled while the request for its unit
   * is on its way never starts, but may still cost the unit; and once the session is gone nobody is granted one.
   */
  lemma WhatTheStoreKeeps(s: State, call: Call)
    requires s.shared
    ensures Is(s, call, Open(false)) || Is(s, call, Granted) ==>
      Is(Do(s, if Is(s, call, Granted) then Deny(call) else Finish(call)), call, Refunding)
    ensures Is(s, call, Asking) ==>
      var gone, cancelled := Do(s, Expire), Do(s, CancelAsk(call));
      && Is(Do(gone, Step.Reserve(call)), call, Over(false))
      && Enabled(cancelled, Step.Reserve(call)) && Is(Do(cancelled, Step.Reserve(call)), call, Over(false))
      && (s.count.Some? && s.count.value < s.limit ==>
          Do(cancelled, Step.Reserve(call)).count == Some(s.count.value + 1) &&
          Do(cancelled, Step.Reserve(call)).leaked == s.leaked + 1)
  {
  }

  lemma UnitsAreCounted(s: State, call: Call)
    requires Conserved(s) && call in s.calls
    ensures s.count.Some? && (s.calls[call] == Open(false) || s.calls[call] == Refunding) ==> s.count.value > 0
    ensures !s.shared ==> s.count.Some?
  {
    if s.calls[call] == Open(false) { assert call in Waiting(s); }
    if s.calls[call] == Refunding { assert call in Returning(s); }
  }

  /** Its unit given back, or about to be: the call is closed for good. */
  predicate Closed(s: State, call: Call) {
    call in s.calls && (s.calls[call] == Refunding || s.calls[call].Over?)
  }

  /** A call never starts after its unit was refunded. */
  lemma {:induction false} NoStartAfterRefund(s: State, run: seq<Step>, t: State, call: Call)
    requires Closed(s, call) && Leads(s, run, t)
    ensures Closed(t, call) && !Enabled(t, Start(call)) && (call in Started(t) <==> call in Started(s))
    decreases |run|
  {
    if run != [] { NoStartAfterRefund(Do(s, run[0]), run[1..], t, call); }
  }

  // ------------------------------------------------------ the stores' own units

  /** One session's count of one tool in Redis. */
  function RedisCount(db: Db, ref: Ref, tool: string): Option<nat> {
    if ref in db.records then Some(Calls(db.records[ref], tool)) else None
  }

  /** How a reply is read. */
  function ReservationOf(reply: int): Reservation {
    if reply == -2 then Gone else if reply == -1 then AtLimit else Ok
  }

  /** Redis reserves and releases as the machine above assumes, and touches no other count. */
  lemma RedisKeepsUnits(db: Db, ref: Ref, tool: string, limit: nat, other: Ref, otherTool: string)
    ensures var (after, reply) := Reserved(db, ref, tool, limit);
      && (RedisCount(after, ref, tool), ReservationOf(reply)) == ReserveUnit(RedisCount(db, ref, tool), limit)
      && ((other, otherTool) != (ref, tool) ==> RedisCount(after, other, otherTool) == RedisCount(db, other, otherTool))
    ensures var after := Unreserved(db, ref, tool);
      && RedisCount(after, ref, tool) == ReleaseUnit(RedisCount(db, ref, tool))
      && ((other, otherTool) != (ref, tool) ==> RedisCount(after, other, otherTool) == RedisCount(db, other, otherTool))
  {
  }

  // ------------------------------------------------- the machine on a running store

  /** What happens in one session's life: a step of a call, or anything else that happens to the store. */
  datatype Happening = OfCall(step: Step) | OfStore(event: Event)

  /**
   * Reserving and releasing are what the scripts do to the record; nobody else reserves for the tool, or creates the
   * session again.
   */
  ghost predicate CanHappen(s: State, db: Db, ref: Ref, tool: string, h: Happening) {
    match h
    case OfCall(step) => !step.Expire? && Enabled(s, step)
    case OfStore(e) =>
      && Happens(db, e) && !Creates(db, e, ref)
      && !(e.Reserve? && e.ref == ref && e.tool == tool) && !(e.Unreserve? && e.ref == ref && e.tool == tool)
  }

  function DbAfter(db: Db, ref: Ref, tool: string, limit: nat, h: Happening): Db {
    match h
    case OfCall(Reserve(_)) => Reserved(db, ref, tool, limit).0
    case OfCall(Release(_)) => Unreserved(db, ref, tool)
    case OfCall(_) => db
    case OfStore(e) => RedisSessions.Step(db, e)
  }

  /** The calls go on from what the store answers; the session may be gone from it at any time. */
  function StateAfter(s: State, db: Db, ref: Ref, tool: string, h: Happening): State
    requires h.OfCall? ==> Enabled(s, h.step)
  {
    match h
    case OfCall(step) => Do(s, step)
    case OfStore(e) => s.(count := RedisCount(RedisSessions.Step(db, e), ref, tool))
  }

  ghost predicate LeadsOn(s: State, db: Db, ref: Ref, tool: string, run: seq<Happening>, t: State, end: Db)
    decreases |run|
  {
    if run == [] then t == s && end == db
    else
      && CanHappen(s, db, ref, tool, run[0])
      && LeadsOn(StateAfter(s, db, ref, tool, run[0]), DbAfter(db, ref, tool, s.limit, run[0]), ref, tool, run[1..], t,
          end)
  }

  /** Nothing else that happens changes a session's count, but by taking the session away. */
  lemma CountStays(db: Db, e: Event, ref: Ref, tool: string)
    requires !Creates(db, e, ref) && !(e.Reserve? && e.ref == ref && e.tool == tool) &&
      !(e.Unreserve? && e.ref == ref && e.tool == tool)
    ensures var after := RedisCount(RedisSessions.Step(db, e), ref, tool);
      after == RedisCount(db, ref, tool) || after == None
  {
    hide Pruned, Counted, Lapsed;
    match e
    case RefreshMany(refs, ttl) => CountRefreshed(Swept(db), refs, ttl, ref, tool);
    case Create(_, _, _, _, pruned) => PrunedRecords(db, pruned);
    case _ =>
  }

  lemma PrunedRecords(db: Db, pruned: set<Ref>)
    ensures Pruned(db, pruned).records == db.records
  {
  }

  lemma {:induction false} CountRefreshed(db: Db, refs: seq<Ref>, ttl: Ttl, ref: Ref, tool: string)
    ensures RedisCount(RefreshedAll(db, refs, ttl).0, ref, tool) == RedisCount(db, ref, tool)
    decreases |refs|
  {
    if refs != [] { CountRefreshed(db, refs[..|refs| - 1], ttl, ref, tool); }
  }

  /** The count is the record's, whatever happens, and every unit of it stays accounted for. */
  lemma ConservedOn(s: State, db: Db, ref: Ref, tool: string, h: Happening)
    requires Conserved(s) && s.shared && s.count == RedisCount(db, ref, tool) && CanHappen(s, db, ref, tool, h)
    ensures var t, after := StateAfter(s, db, ref, tool, h), DbAfter(db, ref, tool, s.limit, h);
      Conserved(t) && t.shared && t.limit == s.limit && t.count == RedisCount(after, ref, tool)
  {
    hide Started, Waiting, Returning, RedisSessions.Step, Reserved, Unreserved;
    match h
    case OfCall(step) =>
      ConservedStep(s, step);
      RedisKeepsUnits(db, ref, tool, s.limit, ref, tool);
    case OfStore(e) =>
      CountStays(db, e, ref, tool);
      SetsOfCalls(s, StateAfter(s, db, ref, tool, h));
  }

  lemma {:induction false} ConservedOnRun(s: State, db: Db, ref: Ref, tool: string, run: seq<Happening>, t: State,
      end: Db)
    requires Conserved(s) && s.shared && s.count == RedisCount(db, ref, tool) && LeadsOn(s, db, ref, tool, run, t, end)
    ensures Conserved(t) && t.limit == s.limit && t.count == RedisCount(end, ref, tool)
    decreases |run|
  {
    if run != [] {
      hide Conserved, StateAfter, DbAfter, RedisCount;
      ConservedOn(s, db, ref, tool, run[0]);
      ConservedOnRun(StateAfter(s, db, ref, tool, run[0]), DbAfter(db, ref, tool, s.limit, run[0]), ref, tool,
          run[1..], t, end);
    }
  }

  /**
   * On a Redis that goes on running - other sessions' calls, heartbeats, prunes, time passing, losses - the count is
   * the one in the session's record, and in one life of the session no more calls start than the cap allows.
   */
  lemma AtMostLimitStartOnRedis(s: State, db: Db, ref: Ref, tool: string, run: seq<Happening>, t: State, end: Db)
    requires Initial(s) && s.shared && RedisCount(db, ref, tool) == Some(0) && LeadsOn(s, db, ref, tool, run, t, end)
    ensures |Started(t)| <= s.limit && t.count == RedisCount(end, ref, tool)
    ensures RedisCount(end, ref, tool).Some? ==>
      RedisCount(end, ref, tool).value == |Started(t)| + |Waiting(t)| + |Returning(t)| + t.leaked
  {
    assert Started(s) == {} && Waiting(s) == {} && Returning(s) == {};
    hide RedisCount, Started, Waiting, Returning;
    ConservedOnRun(s, db, ref, tool, run, t, end);
  }
}
