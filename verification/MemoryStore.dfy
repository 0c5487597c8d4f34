/**
 * The in-memory store (easy_mcp/store/memory.py): sessions held by the requests using them, which lapse once idle for
 * their own ttl, and the counts of calls.  Every method is one step of the event loop.
 */
module MemoryStore {
  import opened Wrappers
  import opened CallCap

  type Ref = string
  type Time = real

  const STATELESS_CLIENTS_MAX: nat := 4096

  datatype Kind = Http | Sse
  datatype Session = Session(kind: Kind, version: string, lastSeen: Time, ttl: Option<Time>, active: nat,
      counts: map<string, nat>)
  datatype Client = Client(counts: map<string, nat>, lastSeen: Time)

  type Sessions = map<Ref, Session>

  /** Idle past its ttl, and no request running. */
  predicate Lapsed(session: Session, now: Time) {
    session.ttl.Some? && session.active == 0 && now - session.lastSeen > session.ttl.value
  }

  function LapsedOf(sessions: Sessions, kind: Kind, now: Time): set<Ref> {
    set ref | ref in sessions && sessions[ref].kind == kind && Lapsed(sessions[ref], now)
  }

  function OfKind(sessions: Sessions, kind: Kind): set<Ref> {
    set ref | ref in sessions && sessions[ref].kind == kind
  }

  datatype Status = Created | AtCap | Exists

  datatype Op =
    | Create(ref: Ref, kind: Kind, ttl: Option<Time>, cap: nat)
    | Acquire(kind: Kind, ref: Ref)
    | ReleaseSession(kind: Kind, ref: Ref, version: Option<string>, touch: bool)
    | Refresh(kind: Kind, refs: set<Ref>)
    | Delete(kind: Kind, ref: Ref)

  predicate Has(sessions: Sessions, kind: Kind, ref: Ref) {
    ref in sessions && sessions[ref].kind == kind
  }

  function CreateStatus(sessions: Sessions, ref: Ref, kind: Kind, cap: nat, now: Time): Status {
    var left := sessions - LapsedOf(sessions, kind, now);
    if |OfKind(left, kind)| >= cap then AtCap else if ref in left then Exists else Created
  }

  /** The sessions one operation leaves. */
  function After(sessions: Sessions, op: Op, now: Time): Sessions {
    match op
    case Create(ref, kind, ttl, cap) =>
      var left := sessions - LapsedOf(sessions, kind, now);
      if CreateStatus(sessions, ref, kind, cap, now) == Created then left[ref := Session(kind, "", now, ttl, 1, map[])]
          else left
    case Acquire(kind, ref) =>
      if !Has(sessions, kind, ref) then sessions
      else if Lapsed(sessions[ref], now) then sessions - {ref}
      else sessions[ref := sessions[ref].(active := sessions[ref].active + 1)]
    case ReleaseSession(kind, ref, version, touch) =>
      if !Has(sessions, kind, ref) then sessions
      else
        var s := sessions[ref];
        sessions[ref := s.(active := if s.active == 0 then 0 else s.active - 1, lastSeen := if touch then now
            else s.lastSeen,
                           version := if version.Some? then version.value else s.version)]
    case Refresh(kind, refs) =>
      map ref | ref in sessions :: if ref in refs && sessions[ref].kind == kind then sessions[ref].(lastSeen := now)
          else sessions[ref]
    case Delete(kind, ref) => if Has(sessions, kind, ref) then sessions - {ref} else sessions
  }

  /** The refs an operation reports as removed: its caller audits their close. */
  function Reports(sessions: Sessions, op: Op, now: Time): set<Ref> {
    match op
    case Create(_, kind, _, _) => LapsedOf(sessions, kind, now)
    case Acquire(kind, ref) => if Has(sessions, kind, ref) && Lapsed(sessions[ref], now) then {ref} else {}
    case ReleaseSession(_, _, _, _) => {}
    case Refresh(_, _) => {}
    case Delete(kind, ref) => if Has(sessions, kind, ref) then {ref} else {}
  }

  /** A session ends exactly when some operation reports it; only a create that says so makes one. */
  lemma EveryEndIsReported(sessions: Sessions, op: Op, now: Time, ref: Ref)
    ensures ref in Reports(sessions, op, now) ==>
      ref in sessions && (ref in After(sessions, op, now) ==>
          op.Create? && op.ref == ref && After(sessions, op, now)[ref].lastSeen == now)
    ensures ref in sessions && ref !in After(sessions, op, now) ==> ref in Reports(sessions, op, now)
    ensures ref !in sessions && ref in After(sessions, op, now) ==>
      op.Create? && op.ref == ref && CreateStatus(sessions, op.ref, op.kind, op.cap, now) == Created
  {
    hide OfKind;
  }

  /** A session in use never ends but by a delete, and its counts are kept. */
  lemma HeldSessionsStay(sessions: Sessions, op: Op, now: Time, ref: Ref)
    requires ref in sessions && sessions[ref].active > 0 && !(op.Delete? && op.ref == ref)
    ensures ref in After(sessions, op, now) && After(sessions, op, now)[ref].counts == sessions[ref].counts
    ensures After(sessions, op, now)[ref].active >= sessions[ref].active - 1
    ensures After(sessions, op, now)[ref].active < sessions[ref].active ==> op.ReleaseSession? && op.ref == ref
  {
    hide OfKind;
  }

  /** No request holds the session, and its last use is longer ago than the ttl it was opened with. */
  predicate IsIdle(session: Session, now: Time) {
    session.active == 0 && match session.ttl case None => false case Some(ttl) => session.lastSeen + ttl < now
  }

  /** The sessions that go when one of a kind is opened: those of that kind that are idle, and no other. */
  function StayingOn(sessions: Sessions, kind: Kind, now: Time): set<Ref> {
    set ref | ref in sessions && !(sessions[ref].kind == kind && IsIdle(sessions[ref], now))
  }

  /**
   * Idle sessions end, and only those: opening a session ends every idle one of its kind, and asking for one that is
   * idle ends that one.  Then a session is opened exactly where fewer than the cap of its kind are left and none has
   * its ref; it is held by its opener and in use from now on.
   */
  lemma WhichSessionsEnd(sessions: Sessions, ref: Ref, kind: Kind, ttl: Option<Time>, cap: nat, now: Time)
    ensures var left := StayingOn(sessions, kind, now);
      var status := CreateStatus(sessions, ref, kind, cap, now);
      var after := After(sessions, Op.Create(ref, kind, ttl, cap), now);
      && status == (if |set r | r in left && sessions[r].kind == kind| >= cap then AtCap
                    else if ref in left then Exists else Created)
      && Reports(sessions, Op.Create(ref, kind, ttl, cap), now) == sessions.Keys - left
      && after.Keys == (if status == Created then left + {ref} else left)
      && (forall r :: r in left ==> after[r] == sessions[r])
      && (status == Created ==> after[ref] == Session(kind, "", now, ttl, 1, map[]))
    ensures Has(sessions, kind, ref) ==>
      if IsIdle(sessions[ref], now)
        then After(sessions, Acquire(kind, ref), now) == sessions - {ref} &&
          Reports(sessions, Acquire(kind, ref), now) == {ref}
      else After(sessions, Acquire(kind, ref), now) ==
             sessions[ref := sessions[ref].(active := sessions[ref].active + 1)] &&
           Reports(sessions, Acquire(kind, ref), now) == {}
  {
    var left, rest := StayingOn(sessions, kind, now), sessions - LapsedOf(sessions, kind, now);
    assert rest.Keys == left;
    assert OfKind(rest, kind) == set r | r in left && sessions[r].kind == kind;
    assert sessions.Keys - left == LapsedOf(sessions, kind, now);
  }

  /**
   * A session's idle time runs from its last use: one whose last request ended at a time, or that a heartbeat named
   * then, is there for exactly its ttl from that time on; a request that was refused leaves its idle time alone.
   */
  lemma IdleSinceItsLastUse(sessions: Sessions, kind: Kind, ref: Ref, version: Option<string>, refs: set<Ref>,
      now: Time, later: Time)
    requires Has(sessions, kind, ref) && sessions[ref].active <= 1
    ensures var used := After(sessions, ReleaseSession(kind, ref, version, true), now);
      && used.Keys == sessions.Keys && (forall r :: r in sessions && r != ref ==> used[r] == sessions[r])
      && (version.Some? ==> used[ref].version == version.value)
      && (IsIdle(used[ref], later) <==> sessions[ref].ttl.Some? && now + sessions[ref].ttl.value < later)
    ensures var kept := After(sessions, ReleaseSession(kind, ref, None, false), now);
      IsIdle(kept[ref], later) <==>
        sessions[ref].ttl.Some? && sessions[ref].lastSeen + sessions[ref].ttl.value < later
    ensures var named := After(sessions, Refresh(kind, refs), now);
      named.Keys == sessions.Keys && forall r :: r in sessions ==>
        named[r] == sessions[r].(lastSeen := if r in refs && Has(sessions, kind, r) then now else sessions[r].lastSeen)
  {
  }

  /** A request that takes a session and gives it back untouched leaves it as it was. */
  lemma ReleaseUndoesAcquire(sessions: Sessions, kind: Kind, ref: Ref, now: Time, later: Time)
    requires Has(sessions, kind, ref) && !Lapsed(sessions[ref], now)
    ensures After(After(sessions, Acquire(kind, ref), now), ReleaseSession(kind, ref, None, false), later) == sessions
  {
  }

  /** Sessions of a kind never exceed the cap. */
  lemma KindsAreCapped(sessions: Sessions, op: Op, now: Time, kind: Kind, cap: nat)
    requires |OfKind(sessions, kind)| <= cap && (op.Create? && op.kind == kind ==> op.cap <= cap)
    ensures |OfKind(After(sessions, op, now), kind)| <= cap
  {
    var after := After(sessions, op, now);
    if op.Create? && op.kind == kind && CreateStatus(sessions, op.ref, op.kind, op.cap, now) == Created {
      var left := sessions - LapsedOf(sessions, kind, now);
      assert OfKind(after, kind) == OfKind(left, kind) + {op.ref};
    } else {
      NoneAdded(sessions, op, now, kind);
      AtMost(OfKind(after, kind), OfKind(sessions, kind));
    }
  }

  /** Operations one after the other, each at its time. */
  function AfterAll(sessions: Sessions, run: seq<(Op, Time)>): Sessions
    decreases |run|
  {
    if run == [] then sessions else AfterAll(After(sessions, run[0].0, run[0].1), run[1..])
  }

  predicate CapsAtMost(run: seq<(Op, Time)>, cap: nat) {
    forall i :: 0 <= i < |run| && run[i].0.Create? ==> run[i].0.cap <= cap
  }

  /** Over every run of operations, at whatever times, live sessions of a kind stay within the cap. */
  lemma {:induction false} SessionsAreCapped(sessions: Sessions, run: seq<(Op, Time)>, kind: Kind, cap: nat)
    requires |OfKind(sessions, kind)| <= cap && CapsAtMost(run, cap)
    ensures |OfKind(AfterAll(sessions, run), kind)| <= cap
    decreases |run|
  {
    if run != [] {
      KindsAreCapped(sessions, run[0].0, run[0].1, kind, cap);
      SessionsAreCapped(After(sessions, run[0].0, run[0].1), run[1..], kind, cap);
    }
  }

  lemma NoneAdded(sessions: Sessions, op: Op, now: Time, kind: Kind)
    requires op.Create? && op.kind == kind ==> CreateStatus(sessions, op.ref, op.kind, op.cap, now) != Created
    ensures OfKind(After(sessions, op, now), kind) <= OfKind(sessions, kind)
  {
    forall ref | ref in OfKind(After(sessions, op, now), kind) ensures ref in OfKind(sessions, kind) {
      if op.Create? { assert op.ref == ref ==> ref in After(sessions, op, now); }
    }
  }

  // --------------------------------------------------- the cap on calls, on this store

  /** One session's count of one tool. */
  function MemoryCount(sessions: Sessions, ref: Ref, tool: string): Option<nat> {
    if ref in sessions then Some(CountIn(sessions[ref].counts, tool)) else None
  }

  function WithCounts(sessions: Sessions, ref: Ref, counts: map<string, nat>): Sessions
    requires ref in sessions
  {
    sessions[ref := sessions[ref].(counts := counts)]
  }

  /** A step of a call of the tool, an operation on sessions, or a call of another session or tool. */
  datatype Happening = OfCall(step: Step) | OfStore(op: Op, now: Time) | OfOthers(ref: Ref, counts: map<string, nat>)

  ghost predicate CanHappen(s: State, sessions: Sessions, ref: Ref, tool: string, h: Happening) {
    match h
    case OfCall(step) => !step.Expire? && Enabled(s, step)
    case OfStore(op, now) => !(op.Create? && op.ref == ref)
    case OfOthers(other, counts) =>
      other in sessions && (other == ref ==> CountIn(counts, tool) == CountIn(sessions[ref].counts, tool))
  }

  function SessionsAfter(sessions: Sessions, ref: Ref, tool: string, limit: nat, h: Happening): Sessions {
    match h
    case OfCall(Reserve(_)) => if ref in sessions
        then WithCounts(sessions, ref, Reserved(sessions[ref].counts, tool, limit).0) else sessions
    case OfCall(Release(_)) => if ref in sessions
        then WithCounts(sessions, ref, Unreserved(sessions[ref].counts, tool)) else sessions
    case OfCall(_) => sessions
    case OfStore(op, now) => After(sessions, op, now)
    case OfOthers(other, counts) => if other in sessions then WithCounts(sessions, other, counts) else sessions
  }

  function CallsAfter(s: State, sessions: Sessions, ref: Ref, tool: string, h: Happening): State
    requires h.OfCall? ==> Enabled(s, h.step)
  {
    match h
    case OfCall(step) => Do(s, step)
    case _ => s.(count := MemoryCount(SessionsAfter(sessions, ref, tool, s.limit, h), ref, tool))
  }

  ghost predicate LeadsOn(s: State, sessions: Sessions, ref: Ref, tool: string, run: seq<Happening>, t: State,
      end: Sessions)
    decreases |run|
  {
    if run == [] then t == s && end == sessions
    else
      && CanHappen(s, sessions, ref, tool, run[0])
      && LeadsOn(CallsAfter(s, sessions, ref, tool, run[0]), SessionsAfter(sessions, ref, tool, s.limit, run[0]), ref,
          tool, run[1..], t, end)
  }

  /** No operation on sessions changes a session's count, but by ending it. */
  lemma CountStays(sessions: Sessions, op: Op, now: Time, ref: Ref, tool: string)
    requires !(op.Create? && op.ref == ref)
    ensures var after := MemoryCount(After(sessions, op, now), ref, tool);
      after == MemoryCount(sessions, ref, tool) || after == None
  {
    hide OfKind;
  }

  lemma UnitsKept(sessions: Sessions, ref: Ref, tool: string, limit: nat)
    requires ref in sessions
    ensures MemoryCount(WithCounts(sessions, ref, Reserved(sessions[ref].counts, tool, limit).0), ref, tool)
         == ReserveUnit(MemoryCount(sessions, ref, tool), limit).0
    ensures MemoryCount(WithCounts(sessions, ref, Unreserved(sessions[ref].counts, tool)), ref, tool)
         == ReleaseUnit(MemoryCount(sessions, ref, tool))
  {
  }

  lemma ConservedOn(s: State, sessions: Sessions, ref: Ref, tool: string, h: Happening)
    requires Conserved(s) && s.shared && s.count == MemoryCount(sessions, ref, tool) &&
      CanHappen(s, sessions, ref, tool, h)
    ensures var t, after := CallsAfter(s, sessions, ref, tool, h), SessionsAfter(sessions, ref, tool, s.limit, h);
      Conserved(t) && t.shared && t.limit == s.limit && t.count == MemoryCount(after, ref, tool)
  {
    hide Started, Waiting, Returning, After, Reserved, Unreserved;
    if ref in sessions { UnitsKept(sessions, ref, tool, s.limit); }
    if h.OfCall? { ConservedStep(s, h.step); }
    else {
      if h.OfStore? { CountStays(sessions, h.op, h.now, ref, tool); }
      SetsOfCalls(s, CallsAfter(s, sessions, ref, tool, h));
    }
  }

  lemma {:induction false} ConservedOnRun(
      s: State, sessions: Sessions, ref: Ref, tool: string, run: seq<Happening>, t: State, end: Sessions)
    requires Conserved(s) && s.shared && s.count == MemoryCount(sessions, ref, tool)
    requires LeadsOn(s, sessions, ref, tool, run, t, end)
    ensures Conserved(t) && t.count == MemoryCount(end, ref, tool) && t.limit == s.limit
    decreases |run|
  {
    if run != [] {
      hide Conserved, CallsAfter, SessionsAfter, MemoryCount;
      ConservedOn(s, sessions, ref, tool, run[0]);
      ConservedOnRun(CallsAfter(s, sessions, ref, tool, run[0]), SessionsAfter(sessions, ref, tool, s.limit, run[0]),
                     ref, tool, run[1..], t, end);
    }
  }

  /**
   * On a store that goes on running the count is the session's, and in one life of the session no more calls start
   * than the cap allows.
   */
  lemma AtMostLimitStartInMemory(
      s: State, sessions: Sessions, ref: Ref, tool: string, run: seq<Happening>, t: State, end: Sessions)
    requires Initial(s) && s.shared && MemoryCount(sessions, ref, tool) == Some(0)
    requires LeadsOn(s, sessions, ref, tool, run, t, end)
    ensures |Started(t)| <= s.limit && t.count == MemoryCount(end, ref, tool)
    ensures t.count.Some? ==> t.count.value == |Started(t)| + |Waiting(t)| + |Returning(t)| + t.leaked
  {
    assert Started(s) == {} && Waiting(s) == {} && Returning(s) == {};
    hide MemoryCount, Started, Waiting, Returning;
    ConservedOnRun(s, sessions, ref, tool, run, t, end);
  }

  // ------------------------------------------------------------------ the object

  class Store {
    var sessions: Sessions
    /** Stateless clients' counts, least recently seen first. */
    var clients: seq<(string, Client)>

    constructor ()
      ensures sessions == map[] && clients == []
    {
      sessions, clients := map[], [];
    }

    method CreateSession(now: Time, ref: Ref, kind: Kind, ttl: Option<Time>, cap: nat)
        returns (status: Status, expired: set<Ref>)
      modifies this`sessions
      ensures sessions == After(old(sessions), Op.Create(ref, kind, ttl, cap), now)
      ensures status == CreateStatus(old(sessions), ref, kind, cap, now) &&
        expired == Reports(old(sessions), Op.Create(ref, kind, ttl, cap), now)
    {
      expired := Prune(now, kind);
      if |OfKind(sessions, kind)| >= cap { return AtCap, expired; }
      if ref in sessions { return Exists, expired; }
      sessions := sessions[ref := Session(kind, "", now, ttl, 1, map[])];
      status := Created;
    }

    /** What is idle past its ttl goes. */
    method Prune(now: Time, kind: Kind) returns (expired: set<Ref>)
      modifies this`sessions
      ensures expired == LapsedOf(old(sessions), kind, now) && sessions == old(sessions) - expired
    {
      expired := {};
      ghost var before := sessions;
      var left := sessions.Keys;
      while left != {}
        invariant left <= before.Keys && left <= sessions.Keys
        invariant expired == LapsedOf(before, kind, now) - left && sessions == before - expired
        decreases left
      {
        var r :| r in left;
        if sessions[r].kind == kind && Lapsed(sessions[r], now) {
          sessions, expired := sessions - {r}, expired + {r};
        }
        left := left - {r};
      }
    }

    method AcquireSession(now: Time, kind: Kind, ref: Ref) returns (found: bool, expired: set<Ref>)
      modifies this`sessions
      ensures sessions == After(old(sessions), Acquire(kind, ref), now) &&
        expired == Reports(old(sessions), Acquire(kind, ref), now)
      ensures found <==> Has(old(sessions), kind, ref) && !Lapsed(old(sessions)[ref], now)
    {
      if !Has(sessions, kind, ref) { return false, {}; }
      var entry := sessions[ref];
      if Lapsed(entry, now) {
        sessions := sessions - {ref};
        return false, {ref};
      }
      sessions := sessions[ref := entry.(active := entry.active + 1)];
      return true, {};
    }

    method ReleaseHeld(now: Time, kind: Kind, ref: Ref, version: Option<string>, touch: bool)
      modifies this`sessions
      ensures sessions == After(old(sessions), ReleaseSession(kind, ref, version, touch), now)
    {
      if !Has(sessions, kind, ref) { return; }
      var entry := sessions[ref];
      entry := entry.(active := if entry.active == 0 then 0 else entry.active - 1);
      if touch { entry := entry.(lastSeen := now); }
      if version.Some? { entry := entry.(version := version.value); }
      sessions := sessions[ref := entry];
    }

    method DeleteSession(now: Time, kind: Kind, ref: Ref) returns (removed: bool)
      modifies this`sessions
      ensures sessions == After(old(sessions), Delete(kind, ref), now) &&
        removed == (Reports(old(sessions), Delete(kind, ref), now) == {ref})
    {
      removed := Has(sessions, kind, ref);
      if removed { sessions := sessions - {ref}; }
    }

    function Count(ref: Ref, tool: string): Option<nat>
      reads this
    {
      if ref !in sessions then None else Some(CountIn(sessions[ref].counts, tool))
    }

    /** reserve_session_call, as the cap on calls assumes a store does. */
    method ReserveCall(ref: Ref, tool: string, limit: nat) returns (reply: Reservation)
      modifies this`sessions
      ensures (Count(ref, tool), reply) == ReserveUnit(old(Count(ref, tool)), limit)
      ensures forall r, t :: (r, t) != (ref, tool) ==> Count(r, t) == old(Count(r, t))
    {
      if ref !in sessions { return Gone; }
      var (counts, answer) := Reserved(sessions[ref].counts, tool, limit);
      sessions := sessions[ref := sessions[ref].(counts := counts)];
      reply := answer;
    }

    /** release_session_call. */
    method ReleaseCall(ref: Ref, tool: string)
      modifies this`sessions
      ensures Count(ref, tool) == ReleaseUnit(old(Count(ref, tool)))
      ensures forall r, t :: (r, t) != (ref, tool) ==> Count(r, t) == old(Count(r, t))
    {
      if ref in sessions { sessions :=
          sessions[ref := sessions[ref].(counts := Unreserved(sessions[ref].counts, tool))]; }
    }

    ghost predicate ClientsOk()
      reads this
    {
      |clients| <= STATELESS_CLIENTS_MAX && forall i, j :: 0 <= i < j < |clients| ==> clients[i].0 != clients[j].0
    }

    /**
     * _client: the client's counts, fresh when it is new or was idle past the ttl; the least recently seen of too
     * many goes.
     */
    method TouchClient(now: Time, client: string, ttl: Option<Time>)
      requires ClientsOk()
      modifies this`clients
      ensures ClientsOk()
      // the others in their order, this client last, and the first gone where there are too many
      ensures var all := Others(old(clients), client) +
        [(client, Client(CountsKept(old(clients), client, now, ttl), now))];
        clients == if |all| > STATELESS_CLIENTS_MAX then all[1..] else all
    {
      var at := 0;
      while at < |clients| && clients[at].0 != client
        invariant 0 <= at <= |clients| && forall i :: 0 <= i < at ==> clients[i].0 != client
      {
        at := at + 1;
      }
      var entry := Client(map[], now);
      var others := clients;
      if at < |clients| {
        if !(ttl.Some? && now - clients[at].1.lastSeen > ttl.value) { entry := clients[at].1.(lastSeen := now); }
        others := clients[..at] + clients[at + 1..];
      }
      assert forall i :: 0 <= i < |others| ==> others[i].0 != client;
      CountsAt(clients, client, now, ttl, at);
      OthersAt(clients, client, at);
      clients := others + [(client, entry)];
      if |clients| > STATELESS_CLIENTS_MAX { clients := clients[1..]; }
    }
  }

  /** A client's counts, unless it was idle past the ttl. */
  function CountsKept(clients: seq<(string, Client)>, client: string, now: Time, ttl: Option<Time>): map<string, nat> {
    if clients == [] then map[]
    else if clients[0].0 != client then CountsKept(clients[1..], client, now, ttl)
    else if ttl.Some? && now - clients[0].1.lastSeen > ttl.value then map[]
    else clients[0].1.counts
  }

  function Others(clients: seq<(string, Client)>, client: string): seq<(string, Client)> {
    if clients == [] then [] else (if clients[0].0 == client then [] else [clients[0]]) + Others(clients[1..], client)
  }

  lemma {:induction false} NoOther(clients: seq<(string, Client)>, client: string)
    requires forall i :: 0 <= i < |clients| ==> clients[i].0 != client
    ensures Others(clients, client) == clients
  {
    if clients != [] { NoOther(clients[1..], client); }
  }

  lemma {:induction false} OthersAt(clients: seq<(string, Client)>, client: string, at: nat)
    requires at <= |clients| && (at < |clients| ==> clients[at].0 == client)
    requires forall i :: 0 <= i < |clients| && i != at ==> clients[i].0 != client
    ensures Others(clients, client) == if at == |clients| then clients else clients[..at] + clients[at + 1..]
  {
    if at == |clients| { NoOther(clients, client); }
    else if at == 0 { NoOther(clients[1..], client); }
    else {
      OthersAt(clients[1..], client, at - 1);
      if at < |clients| { assert clients[..at] == [clients[0]] + clients[1..][..at - 1]; }
    }
  }

  lemma {:induction false} CountsAt(clients: seq<(string, Client)>, client: string, now: Time, ttl: Option<Time>,
      at: nat)
    requires at <= |clients| && (forall i :: 0 <= i < at ==> clients[i].0 != client) &&
      (at < |clients| ==> clients[at].0 == client)
    ensures CountsKept(clients, client, now, ttl) ==
      if at == |clients| || (ttl.Some? && now - clients[at].1.lastSeen > ttl.value) then map[] else clients[at].1.counts
  {
    if at > 0 { CountsAt(clients[1..], client, now, ttl, at - 1); }
  }

  function CountIn(counts: map<string, nat>, tool: string): nat {
    if tool in counts then counts[tool] else 0
  }

  /** _reserve. */
  function Reserved(counts: map<string, nat>, tool: string, limit: nat): (map<string, nat>, Reservation) {
    if CountIn(counts, tool) >= limit then (counts, AtLimit) else (counts[tool := CountIn(counts, tool) + 1], Ok)
  }

  /** _release. */
  function Unreserved(counts: map<string, nat>, tool: string): map<string, nat> {
    if CountIn(counts, tool) > 0 then counts[tool := CountIn(counts, tool) - 1] else counts
  }
}
