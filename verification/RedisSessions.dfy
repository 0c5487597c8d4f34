/**
 * Sessions shared through Redis (the SESSION_* scripts of easy_mcp/store/redis_store.py).
 *
 * Every script is one atomic step over a record per session, an index of when each session lapses, and a memory of
 * removals.  Time passes and records or index entries are lost between steps.  A ref is always used with one kind, so
 * this is one kind's index, its memory, and the records of its sessions.  A key expires at its deadline.
 */
module RedisSessions {
  import opened Wrappers

  type Ref = string
  type Time = int
  type Ttl = t: int | t > 0 witness 1

  /** REMOVED_MEMORY_SECONDS, in milliseconds. */
  const KEEP: int := 600_000
  /** How many lapsed sessions one SESSION_CREATE takes out of the index. */
  const PRUNED_PER_CALL: nat := 64

  /** Whose session it is, and which worker has it. */
  datatype Who = Who(client: string, fingerprint: string, owner: string, principal: string)

  /** A session's hash.  Without a deadline it never expires. */
  datatype Record = Record(who: Who, version: string, start: Time, baselines: string, calls: map<string, nat>,
      deadline: Option<Time>)

  /** The memory of removals is scored by when each lapses, and its key expires as a whole. */
  datatype Db = Db(now: Time, records: map<Ref, Record>, index: map<Ref, Time>, gone: map<Ref, Time>,
      goneDeadline: Option<Time>)

  datatype Event =
    | Create(ref: Ref, who: Who, ttl: Ttl, cap: nat, pruned: set<Ref>)
    | Touch(ref: Ref, extend: Option<Ttl>, version: string, binding: Option<(string, string)>)
    | RefreshMany(refs: seq<Ref>, ttl: Ttl)
    | Delete(ref: Ref)
    | SaveBaselines(ref: Ref, text: string)
    | Reserve(ref: Ref, tool: string, limit: nat)
    | Unreserve(ref: Ref, tool: string)
    | Advance(ms: nat)
    | LoseRecord(ref: Ref)
    | LoseIndexEntry(ref: Ref)

  // ---------------------------------------------------------------- one step

  /** The refs whose index score has passed. */
  function Lapsed(db: Db): (r: set<Ref>)
    ensures forall ref :: ref in r <==> ref in db.index && db.index[ref] <= db.now
  {
    set ref | ref in db.index && db.index[ref] <= db.now
  }

  /** ZCOUNT of the index above now. */
  function Counted(db: Db): (r: set<Ref>)
    ensures forall ref :: ref in r <==> ref in db.index && db.index[ref] > db.now
  {
    set ref | ref in db.index && db.index[ref] > db.now
  }

  /** ZRANGEBYSCORE with its limit: the sessions that lapsed first, all of them if they are few enough. */
  predicate FirstLapsed(db: Db, pruned: set<Ref>) {
    && pruned <= Lapsed(db) && |pruned| <= PRUNED_PER_CALL
    && (|pruned| < PRUNED_PER_CALL ==> pruned == Lapsed(db))
    && (forall first, later :: first in pruned && later in Lapsed(db) - pruned ==> db.index[first] <= db.index[later])
  }

  /** Memories that lapsed go; a sorted set without members is no key. */
  function Swept(db: Db): Db {
    var gone := map ref | ref in db.gone && db.gone[ref] > db.now :: db.gone[ref];
    db.(gone := gone, goneDeadline := if gone == map[] then None else db.goneDeadline)
  }

  /** The refs are remembered as removed from now on. */
  function Remembered(db: Db, refs: set<Ref>): Db {
    db.(gone := map ref | ref in db.gone.Keys + refs :: if ref in refs then db.now + KEEP else db.gone[ref],
        goneDeadline := Some(db.now + KEEP))
  }

  function Pruned(db: Db, pruned: set<Ref>): Db {
    if pruned == {} then db else Remembered(Swept(db.(index := db.index - pruned)), pruned)
  }

  /** Alive until its time is up. */
  function Extended(db: Db, ref: Ref, ttl: Ttl): Db
    requires ref in db.records
  {
    db.(records := db.records[ref := db.records[ref].(deadline := Some(db.now + ttl))], index :=
        db.index[ref := db.now + ttl])
  }

  function NewRecord(who: Who, now: Time): Record {
    Record(who, "", now, "", map[], None)
  }

  function Created(db: Db, ref: Ref, who: Who, ttl: Ttl, cap: nat, pruned: set<Ref>): (Db, int) {
    var after := Pruned(db, pruned);
    if |Counted(after)| >= cap then (after, 0)
    else if ref in after.records then (after, -1)
    else (Extended(after.(records := after.records[ref := NewRecord(who, db.now)]), ref, ttl), 1)
  }

  function Touched(db: Db, ref: Ref, ttl: Option<Ttl>, version: string, binding: Option<(string, string)>): (Db, bool) {
    if ref !in db.records then (db, false)
    else
      var record := db.records[ref];
      var bound := binding.None? || binding.value == (record.who.fingerprint, record.who.principal);
      var after := if ttl.Some? && bound then Extended(db, ref, ttl.value) else db;
      (if version == "" then after
          else after.(records := after.records[ref := after.records[ref].(version := version)]), true)
  }

  /** 1 alive, 0 removed by another call, -1 expired, -2 lost. */
  function RefreshedOne(db: Db, ref: Ref, ttl: Ttl): (Db, int) {
    if ref in db.records then (Extended(db, ref, ttl), 1)
    else if ref in db.index then (Remembered(db.(index := db.index - {ref}), {ref}), -1)
    else if ref in db.gone then (db, 0)
    else (Remembered(db, {ref}), -2)
  }

  function RefreshedAll(db: Db, refs: seq<Ref>, ttl: Ttl): (r: (Db, seq<int>))
    ensures |r.1| == |refs|
    decreases |refs|
  {
    if refs == [] then (db, [])
    else
      var before := RefreshedAll(db, refs[..|refs| - 1], ttl);
      var last := RefreshedOne(before.0, refs[|refs| - 1], ttl);
      (last.0, before.1 + [last.1])
  }

  function Deleted(db: Db, ref: Ref): (Db, int) {
    var after := Swept(db.(records := db.records - {ref}));
    if ref in after.index then (Remembered(after.(index := after.index - {ref}), {ref}), 1)
    else if ref in after.gone then (after, 0)
    else (Remembered(after, {ref}), 1)
  }

  function Calls(record: Record, tool: string): nat {
    if tool in record.calls then record.calls[tool] else 0
  }

  /** The new count, -1 at the limit, -2 for a session that is gone. */
  function Reserved(db: Db, ref: Ref, tool: string, limit: nat): (Db, int) {
    if ref !in db.records then (db, -2)
    else
      var record := db.records[ref];
      var calls := Calls(record, tool);
      if calls >= limit then (db, -1)
      else (db.(records := db.records[ref := record.(calls := record.calls[tool := calls + 1])]), calls + 1)
  }

  function Unreserved(db: Db, ref: Ref, tool: string): Db {
    if ref !in db.records || Calls(db.records[ref], tool) == 0 then db
    else
      var record := db.records[ref];
      db.(records := db.records[ref := record.(calls := record.calls[tool := Calls(record, tool) - 1])])
  }

  /** Keys whose deadline has come are no longer there. */
  function Later(db: Db, now: Time): Db {
    var lapsed := db.goneDeadline.Some? && db.goneDeadline.value <= now;
    Db(now, map ref | ref in db.records &&
        !(db.records[ref].deadline.Some? && db.records[ref].deadline.value <= now) :: db.records[ref],
       db.index, if lapsed then map[] else db.gone, if lapsed then None else db.goneDeadline)
  }

  predicate Happens(db: Db, e: Event) {
    e.Create? ==> FirstLapsed(db, e.pruned)
  }

  function Step(db: Db, e: Event): Db {
    match e
    case Create(ref, who, ttl, cap, pruned) => Created(db, ref, who, ttl, cap, pruned).0
    case Touch(ref, ttl, version, binding) => Touched(db, ref, ttl, version, binding).0
    case RefreshMany(refs, ttl) => RefreshedAll(Swept(db), refs, ttl).0
    case Delete(ref) => Deleted(db, ref).0
    case SaveBaselines(ref, text) =>
      if ref in db.records then db.(records := db.records[ref := db.records[ref].(baselines := text)]) else db
    case Reserve(ref, tool, limit) => Reserved(db, ref, tool, limit).0
    case Unreserve(ref, tool) => Unreserved(db, ref, tool)
    case Advance(ms) => Later(db, db.now + ms)
    case LoseRecord(ref) => db.(records := db.records - {ref})
    case LoseIndexEntry(ref) => db.(index := db.index - {ref})
  }

  /** How refresh_sessions reads a reply. */
  function Reported(refs: seq<Ref>, alive: seq<int>): set<Ref>
    requires |refs| == |alive|
  {
    set i | 0 <= i < |refs| && alive[i] < 0 :: refs[i]
  }

  /** The refs one call reports as removed: the caller audits the close of each. */
  function Claims(db: Db, e: Event): (r: set<Ref>)
  {
    match e
    case Create(_, _, _, _, pruned) => pruned
    case RefreshMany(refs, ttl) => Reported(refs, RefreshedAll(Swept(db), refs, ttl).1)
    case Delete(ref) => if Deleted(db, ref).1 == 1 then {ref} else {}
    case _ => {}
  }

  predicate Creates(db: Db, e: Event, ref: Ref) {
    e.Create? && e.ref == ref && Created(db, e.ref, e.who, e.ttl, e.cap, e.pruned).1 == 1
  }

  const EMPTY := Db(0, map[], map[], map[], None)

  ghost predicate Leads(db: Db, run: seq<Event>, after: Db)
    decreases |run|
  {
    if run == [] then after == db else Happens(db, run[0]) && Leads(Step(db, run[0]), run[1..], after)
  }

  // -------------------------------------------------------------- invariants

  /** A record has a deadline, and it is its index score. */
  predicate RecordsOk(now: Time, records: map<Ref, Record>, index: map<Ref, Time>) {
    && (forall ref :: ref in records ==> records[ref].deadline.Some? && records[ref].deadline.value > now)
    && (forall ref :: ref in records && ref in index ==> records[ref].deadline == Some(index[ref]))
  }

  /** The memory of removals has a deadline, and it comes no sooner than any member lapses. */
  predicate GoneOk(now: Time, gone: map<Ref, Time>, deadline: Option<Time>) {
    && (gone != map[] <==> deadline.Some?)
    && (forall ref :: ref in gone ==> gone[ref] <= deadline.value)
    && (deadline.Some? ==> now < deadline.value <= now + KEEP)
  }

  /** Every key but the index has a deadline still to come. */
  predicate Valid(db: Db) {
    RecordsOk(db.now, db.records, db.index) && GoneOk(db.now, db.gone, db.goneDeadline)
  }

  lemma RememberedOk(db: Db, refs: set<Ref>)
    requires GoneOk(db.now, db.gone, db.goneDeadline) && refs != {}
    ensures var after := Remembered(db, refs); GoneOk(after.now, after.gone, after.goneDeadline)
  {
    var ref :| ref in refs;
    assert ref in Remembered(db, refs).gone;
  }

  lemma SweptOk(db: Db)
    requires GoneOk(db.now, db.gone, db.goneDeadline)
    ensures var after := Swept(db); GoneOk(after.now, after.gone, after.goneDeadline)
  {
    if db.gone == map[] { assert Swept(db).gone == map[]; }
  }

  lemma RefreshedOneValid(db: Db, ref: Ref, ttl: Ttl)
    requires Valid(db)
    ensures Valid(RefreshedOne(db, ref, ttl).0)
  {
    if ref !in db.records {
      RememberedOk(db.(index := db.index - {ref}), {ref});
      RememberedOk(db, {ref});
    }
    hide Remembered;
  }

  lemma {:induction false} RefreshedValid(db: Db, refs: seq<Ref>, ttl: Ttl)
    requires Valid(db)
    ensures Valid(RefreshedAll(db, refs, ttl).0)
    decreases |refs|
  {
    hide Valid, RefreshedOne;
    if refs != [] {
      RefreshedValid(db, refs[..|refs| - 1], ttl);
      RefreshedOneValid(RefreshedAll(db, refs[..|refs| - 1], ttl).0, refs[|refs| - 1], ttl);
    }
  }

  lemma PrunedValid(db: Db, pruned: set<Ref>)
    requires Valid(db)
    ensures Valid(Pruned(db, pruned))
  {
    if pruned != {} {
      SweptOk(db.(index := db.index - pruned));
      RememberedOk(Swept(db.(index := db.index - pruned)), pruned);
    }
  }

  lemma DeletedValid(db: Db, ref: Ref)
    requires Valid(db)
    ensures Valid(Deleted(db, ref).0)
  {
    var after := Swept(db.(records := db.records - {ref}));
    SweptOk(db.(records := db.records - {ref}));
    RememberedOk(after.(index := after.index - {ref}), {ref});
    RememberedOk(after, {ref});
    hide GoneOk;
  }

  lemma LaterValid(db: Db, ms: nat)
    requires Valid(db)
    ensures Valid(Later(db, db.now + ms))
  {
  }

  lemma RecordValid(db: Db, ref: Ref, record: Record)
    requires Valid(db) && ref in db.records && record.deadline == db.records[ref].deadline
    ensures Valid(db.(records := db.records[ref := record]))
  {
  }

  lemma TouchedValid(db: Db, ref: Ref, ttl: Option<Ttl>, version: string, binding: Option<(string, string)>)
    requires Valid(db)
    ensures Valid(Touched(db, ref, ttl, version, binding).0)
  {
    hide GoneOk;
  }

  /** Whatever happens, every key but the index keeps a deadline, and a session's two deadlines agree. */
  lemma StepValid(db: Db, e: Event)
    requires Valid(db) && Happens(db, e)
    ensures Valid(Step(db, e))
  {
    hide Valid, Pruned, RefreshedAll, Deleted, Later, Touched, Reserved, Unreserved, Created;
    match e
    case Create(ref, who, ttl, cap, pruned) => CreatedValid(db, ref, who, ttl, cap, pruned);
    case Touch(ref, ttl, version, binding) => TouchedValid(db, ref, ttl, version, binding);
    case RefreshMany(refs, ttl) => SweptValid(db); RefreshedValid(Swept(db), refs, ttl);
    case Delete(ref) => DeletedValid(db, ref);
    case SaveBaselines(ref, text) => if ref in db.records { RecordValid(db, ref, db.records[ref].(baselines := text)); }
    case Reserve(ref, tool, limit) => CallsValid(db, ref, tool, limit);
    case Unreserve(ref, tool) => CallsValid(db, ref, tool, 0);
    case Advance(ms) => LaterValid(db, ms);
    case LoseRecord(ref) => LossValid(db, ref);
    case LoseIndexEntry(ref) => LossValid(db, ref);
  }

  lemma CreatedValid(db: Db, ref: Ref, who: Who, ttl: Ttl, cap: nat, pruned: set<Ref>)
    requires Valid(db)
    ensures Valid(Created(db, ref, who, ttl, cap, pruned).0)
  {
    hide Pruned, Valid, Extended, Counted;
    PrunedValid(db, pruned);
    InsertedValid(Pruned(db, pruned), ref, NewRecord(who, db.now), ttl);
  }

  lemma InsertedValid(db: Db, ref: Ref, record: Record, ttl: Ttl)
    requires Valid(db)
    ensures Valid(Extended(db.(records := db.records[ref := record]), ref, ttl))
  {
    hide GoneOk;
  }

  lemma SweptValid(db: Db)
    requires Valid(db)
    ensures Valid(Swept(db))
  {
    SweptOk(db);
  }

  lemma LossValid(db: Db, ref: Ref)
    requires Valid(db)
    ensures Valid(db.(records := db.records - {ref})) && Valid(db.(index := db.index - {ref}))
  {
  }

  lemma CallsValid(db: Db, ref: Ref, tool: string, limit: nat)
    requires Valid(db)
    ensures Valid(Reserved(db, ref, tool, limit).0) && Valid(Unreserved(db, ref, tool))
  {
    hide Valid;
    if ref in db.records {
      var record := db.records[ref];
      RecordValid(db, ref, record.(calls := record.calls[tool := Calls(record, tool) + 1]));
      if Calls(record, tool) > 0 { RecordValid(db, ref,
          record.(calls := record.calls[tool := Calls(record, tool) - 1])); }
    }
  }

  // ------------------------------------------------------ a close is claimed once

  /** Somebody claimed the session's close at the time, and it was not created since. */
  predicate ClaimedAt(db: Db, ref: Ref, time: Time) {
    && time <= db.now && ref !in db.records && ref !in db.index
    && (db.now < time + KEEP ==> ref in db.gone && db.gone[ref] >= time + KEEP)
  }

  /** The memory still holds what it must, whether or not the ref is remembered again. */
  lemma ClaimedRefresh(db: Db, refs: seq<Ref>, ttl: Ttl, ref: Ref, time: Time)
    requires ClaimedAt(db, ref, time)
    ensures ClaimedAt(RefreshedAll(db, refs, ttl).0, ref, time)
    ensures RefreshedAll(db, refs, ttl).0.now == db.now
    ensures forall i :: 0 <= i < |refs| && refs[i] == ref && RefreshedAll(db, refs, ttl).1[i] < 0 ==>
      db.now >= time + KEEP
    decreases |refs|
  {
    if refs != [] { ClaimedRefresh(db, refs[..|refs| - 1], ttl, ref, time); }
  }

  lemma ClaimedSwept(db: Db, ref: Ref, time: Time)
    requires ClaimedAt(db, ref, time)
    ensures ClaimedAt(Swept(db), ref, time)
  {
  }

  lemma ClaimedPruned(db: Db, pruned: set<Ref>, ref: Ref, time: Time)
    requires ClaimedAt(db, ref, time) && pruned <= db.index.Keys
    ensures ClaimedAt(Pruned(db, pruned), ref, time)
  {
  }

  lemma ClaimedCreated(db: Db, e: Event, ref: Ref, time: Time)
    requires e.Create? && e.pruned <= db.index.Keys && ClaimedAt(db, ref, time) && !Creates(db, e, ref)
    ensures ClaimedAt(Step(db, e), ref, time)
  {
    hide Pruned, Counted;
    ClaimedPruned(db, e.pruned, ref, time);
  }

  lemma ClaimedDeleted(db: Db, of: Ref, ref: Ref, time: Time)
    requires ClaimedAt(db, ref, time)
    ensures ClaimedAt(Deleted(db, of).0, ref, time) && (of == ref && Deleted(db, of).1 == 1 ==> db.now >= time + KEEP)
  {
  }

  lemma ClaimedLater(db: Db, ms: nat, ref: Ref, time: Time)
    requires Valid(db) && ClaimedAt(db, ref, time)
    ensures ClaimedAt(Later(db, db.now + ms), ref, time)
  {
  }

  lemma ClaimedRecord(db: Db, e: Event, ref: Ref, time: Time)
    requires (e.Touch? || e.SaveBaselines? || e.Reserve? || e.Unreserve? || e.LoseRecord? || e.LoseIndexEntry?) &&
      ClaimedAt(db, ref, time)
    ensures ClaimedAt(Step(db, e), ref, time)
  {
  }

  /** Claimed, and claimed again only once the memory lapsed. */
  lemma ClaimedStep(db: Db, e: Event, ref: Ref, time: Time)
    requires Valid(db) && Happens(db, e) && ClaimedAt(db, ref, time) && !Creates(db, e, ref)
    ensures ClaimedAt(Step(db, e), ref, time)
    ensures ref in Claims(db, e) ==> db.now >= time + KEEP
  {
    hide Valid, RefreshedAll, Swept, Deleted, Later, Touched, Reserved, Unreserved, Created;
    match e
    case Create(_, _, _, _, _) => ClaimedCreated(db, e, ref, time);
    case RefreshMany(refs, ttl) => ClaimedSwept(db, ref, time); SweptNow(db);
        ClaimedRefresh(Swept(db), refs, ttl, ref, time);
    case Delete(of) => ClaimedDeleted(db, of, ref, time);
    case Advance(ms) => ClaimedLater(db, ms, ref, time);
    case _ => ClaimedRecord(db, e, ref, time);
  }

  lemma SweptNow(db: Db)
    ensures Swept(db).now == db.now
  {
  }

  lemma RefreshNow(db: Db, refs: seq<Ref>, ttl: Ttl)
    ensures RefreshedAll(db, refs, ttl).0.now == db.now
    decreases |refs|
  {
  }

  lemma RefreshClaims(db: Db, refs: seq<Ref>, ttl: Ttl, i: nat)
    requires i < |refs| && RefreshedAll(db, refs, ttl).1[i] < 0
    ensures ClaimedAt(RefreshedAll(db, refs, ttl).0, refs[i], db.now)
    decreases |refs|
  {
    RefreshNow(db, refs[..|refs| - 1], ttl);
    if i < |refs| - 1 { RefreshClaims(db, refs[..|refs| - 1], ttl, i); }
  }

  lemma PrunedClaims(db: Db, e: Event, ref: Ref)
    requires Valid(db) && e.Create? && Happens(db, e) && ref in e.pruned && !Creates(db, e, ref)
    ensures ClaimedAt(Step(db, e), ref, db.now)
  {
    hide Counted, GoneOk, Swept, Remembered;
    assert ref in db.index && db.index[ref] <= db.now;
    PrunedAt(db, e.pruned, ref);
  }

  lemma PrunedAt(db: Db, pruned: set<Ref>, ref: Ref)
    requires ref in pruned && ref !in db.records
    ensures ClaimedAt(Pruned(db, pruned), ref, db.now)
  {
  }

  /** What a call reports as removed is gone from the records and the index, and remembered. */
  lemma ClaimIsRemembered(db: Db, e: Event, ref: Ref)
    requires Valid(db) && Happens(db, e) && ref in Claims(db, e) && !Creates(db, e, ref)
    ensures ClaimedAt(Step(db, e), ref, db.now)
  {
    hide Valid, RefreshedAll, Swept, Created, Creates;
    match e
    case Create(_, _, _, _, _) => PrunedClaims(db, e, ref);
    case RefreshMany(refs, ttl) =>
      var i :| 0 <= i < |refs| && RefreshedAll(Swept(db), refs, ttl).1[i] < 0 && refs[i] == ref;
      SweptNow(db);
      RefreshClaims(Swept(db), refs, ttl, i);
    case Delete(_) => DeleteClaims(db, ref);
  }

  lemma DeleteClaims(db: Db, ref: Ref)
    requires Deleted(db, ref).1 == 1
    ensures ClaimedAt(Deleted(db, ref).0, ref, db.now)
  {
  }

  /** One call, or one thing that happened, as whoever watches the whole store sees it. */
  datatype Entry = Entry(db: Db, event: Event, reported: set<Ref>, created: Option<Ref>)

  ghost predicate Recorded(entry: Entry, after: Db) {
    && Happens(entry.db, entry.event) && after == Step(entry.db, entry.event) &&
        entry.reported == Claims(entry.db, entry.event)
    && entry.created ==
        if entry.event.Create? && Creates(entry.db, entry.event, entry.event.ref) then Some(entry.event.ref) else None
  }

  /** Everything that happened since the store was empty, and the database it left. */
  ghost predicate History(log: seq<Entry>, end: Db)
    decreases |log|
  {
    if log == [] then end == EMPTY else History(log[..|log| - 1], log[|log| - 1].db) && Recorded(log[|log| - 1], end)
  }

  lemma {:induction false} HistoryAt(log: seq<Entry>, end: Db, k: nat)
    requires History(log, end) && k < |log|
    ensures Valid(log[k].db) && Recorded(log[k], if k + 1 < |log| then log[k + 1].db else end)
    decreases |log|
  {
    hide Recorded, Valid;
    var before := log[..|log| - 1];
    if k < |before| { HistoryAt(before, log[|log| - 1].db, k); }
    else if k == 0 { EmptyIsValid(); }
    else {
      HistoryAt(before, log[k].db, k - 1);
      RecordedValid(log[k - 1], log[k].db);
    }
  }

  lemma EmptyIsValid()
    ensures Valid(EMPTY)
  {
  }

  lemma RecordedValid(entry: Entry, after: Db)
    requires Valid(entry.db) && Recorded(entry, after)
    ensures Valid(after)
  {
    StepValid(entry.db, entry.event);
  }

  lemma ClaimedEntry(entry: Entry, after: Db, ref: Ref, time: Time)
    requires Valid(entry.db) && Recorded(entry, after) && entry.created != Some(ref)
    requires ClaimedAt(entry.db, ref, time) || (ref in entry.reported && time == entry.db.now)
    ensures ClaimedAt(after, ref, time)
  {
    hide Valid, ClaimedAt, Claims, Step, Happens, Created;
    if ClaimedAt(entry.db, ref, time) { ClaimedStep(entry.db, entry.event, ref, time); }
    else { ClaimIsRemembered(entry.db, entry.event, ref); }
  }

  lemma {:induction false} ClaimedSince(log: seq<Entry>, end: Db, i: nat, j: nat, ref: Ref)
    requires History(log, end) && i < j < |log| && ref in log[i].reported && forall k :: i <= k < j ==>
      log[k].created != Some(ref)
    ensures ClaimedAt(log[j].db, ref, log[i].db.now)
    decreases j
  {
    hide Recorded, Valid, ClaimedAt;
    HistoryAt(log, end, j - 1);
    if i < j - 1 { ClaimedSince(log, end, i, j - 1, ref); }
    ClaimedEntry(log[j - 1], log[j].db, ref, log[i].db.now);
  }

  /**
   * Whatever happened, two calls that reported the same session as removed are as far apart as removals are
   * remembered, unless it was created again in between.
   */
  lemma ClosesAreClaimedOnce(log: seq<Entry>, end: Db, i: nat, j: nat, ref: Ref)
    requires History(log, end) && i < j < |log| && ref in log[i].reported && ref in log[j].reported
    requires forall k :: i <= k < j ==> log[k].created != Some(ref)
    ensures log[j].db.now - log[i].db.now >= KEEP
  {
    hide Valid, ClaimedAt, Claims, Step, Happens, Created;
    ClaimedSince(log, end, i, j, ref);
    HistoryAt(log, end, j);
    SecondClaim(log[j].db, log[j].event, ref, log[i].db.now);
  }

  /** The call that claims may also be the one that creates: its claim comes first. */
  lemma SecondClaim(db: Db, e: Event, ref: Ref, time: Time)
    requires Valid(db) && Happens(db, e) && ClaimedAt(db, ref, time) && ref in Claims(db, e)
    ensures db.now >= time + KEEP
  {
    hide Created, RefreshedAll, Deleted;
    if !e.Create? { assert !Creates(db, e, ref); ClaimedStep(db, e, ref, time); }
  }

  /** A session created again may be claimed again at once: the bound holds of one life of a ref only. */
  lemma AClaimPerLife(who: Who)
    ensures var one, two := Create("a", who, 1, 1, {}), Delete("a");
      var alive := Step(EMPTY, one); var dead := Step(alive, two); var again := Step(dead, one);
      && Valid(EMPTY) && Happens(EMPTY, one) && Happens(dead, one)
      && "a" in Claims(alive, two) && "a" in Claims(again, two) && again.now == alive.now
  {
    var one, two := Create("a", who, 1, 1, {}), Delete("a");
    var alive := Step(EMPTY, one);
    assert Lapsed(EMPTY) == {} && Counted(EMPTY) == {};
    assert alive.index == map["a" := 1];
    var dead := Step(alive, two);
    assert dead.index == map[];
    assert Lapsed(dead) == {} && Counted(dead) == {};
    assert "a" !in dead.records;
    assert Step(dead, one).index == map["a" := 1];
  }

  // ------------------------------------------------------ and it is claimed

  /** Every memory of a removal is of one that somebody reported, as long ago as removals are remembered. */
  predicate Logged(db: Db, log: set<(Ref, Time)>) {
    forall ref :: ref in db.gone ==> (ref, db.gone[ref] - KEEP) in log
  }

  function Log(db: Db, e: Event, log: set<(Ref, Time)>): set<(Ref, Time)> {
    log + set ref | ref in Claims(db, e) :: (ref, db.now)
  }

  lemma ReportedMore(refs: seq<Ref>, alive: seq<int>, ref: Ref, state: int)
    requires |refs| == |alive|
    ensures Reported(refs + [ref], alive + [state]) == Reported(refs, alive) + if state < 0 then {ref} else {}
  {
    forall r | r in Reported(refs, alive) ensures r in Reported(refs + [ref], alive + [state]) {
      var i :| 0 <= i < |refs| && alive[i] < 0 && refs[i] == r;
      assert (refs + [ref])[i] == r && (alive + [state])[i] < 0;
    }
    assert (refs + [ref])[|refs|] == ref && (alive + [state])[|refs|] == state;
  }

  lemma RefreshLogged(db: Db, refs: seq<Ref>, ttl: Ttl, log: set<(Ref, Time)>)
    requires Logged(db, log)
    ensures var (after, alive) := RefreshedAll(db, refs, ttl);
      after.now == db.now && Logged(after, log + set ref | ref in Reported(refs, alive) :: (ref, db.now))
    decreases |refs|
  {
    if refs != [] {
      var before, last := refs[..|refs| - 1], refs[|refs| - 1];
      RefreshLogged(db, before, ttl, log);
      var (d, states) := RefreshedAll(db, before, ttl);
      ReportedMore(before, states, last, RefreshedOne(d, last, ttl).1);
      assert refs == before + [last];
      RefreshOneLogged(d, last, ttl, log + set ref | ref in Reported(before, states) :: (ref, db.now),
                       log + set ref | ref in Reported(refs, RefreshedAll(db, refs, ttl).1) :: (ref, db.now));
    }
  }

  lemma RefreshOneLogged(db: Db, ref: Ref, ttl: Ttl, log: set<(Ref, Time)>, more: set<(Ref, Time)>)
    requires Logged(db, log) && log <= more && (RefreshedOne(db, ref, ttl).1 < 0 ==> (ref, db.now) in more)
    ensures Logged(RefreshedOne(db, ref, ttl).0, more) && RefreshedOne(db, ref, ttl).0.now == db.now
  {
  }

  lemma LoggedStep(db: Db, e: Event, log: set<(Ref, Time)>)
    requires Logged(db, log) && Happens(db, e)
    ensures Logged(Step(db, e), Log(db, e, log))
  {
    hide RefreshedAll, Counted, Lapsed, Reported, Pruned, Deleted, Touched, Later, Reserved, Unreserved;
    match e
    case RefreshMany(refs, ttl) =>
      RefreshLogged(Swept(db), refs, ttl, log);
      assert (set ref | ref in Reported(refs, RefreshedAll(Swept(db), refs, ttl).1) :: (ref, Swept(db).now))
          == (set ref | ref in Claims(db, e) :: (ref, db.now));
    case Create(_, _, _, _, pruned) => PrunedLogged(db, pruned, log);
    case _ => OthersLogged(db, e, log);
  }

  lemma OthersLogged(db: Db, e: Event, log: set<(Ref, Time)>)
    requires Logged(db, log) && !e.RefreshMany? && !e.Create?
    ensures Logged(Step(db, e), Log(db, e, log))
  {
    if e.Delete? { assert Logged(Swept(db.(records := db.records - {e.ref})), log); }
  }

  lemma PrunedLogged(db: Db, pruned: set<Ref>, log: set<(Ref, Time)>)
    requires Logged(db, log)
    ensures Logged(Pruned(db, pruned), log + set ref | ref in pruned :: (ref, db.now))
  {
  }

  /** All that was reported on the way. */
  ghost function LogOf(db: Db, run: seq<Event>, log: set<(Ref, Time)>): set<(Ref, Time)>
    decreases |run|
  {
    if run == [] then log else LogOf(Step(db, run[0]), run[1..], Log(db, run[0], log))
  }

  lemma {:induction false} LoggedRun(db: Db, run: seq<Event>, after: Db, log: set<(Ref, Time)>)
    requires Valid(db) && Leads(db, run, after) && Logged(db, log)
    ensures Valid(after) && Logged(after, LogOf(db, run, log))
    decreases |run|
  {
    if run != [] {
      hide Logged, Log, Valid;
      StepValid(db, run[0]);
      LoggedStep(db, run[0], log);
      LoggedRun(Step(db, run[0]), run[1..], after, Log(db, run[0], log));
    }
  }

  /**
   * A session that is neither recorded nor indexed is only ever answered for as removed by another call if some call
   * did report it, less than the memory's length ago: no close goes unclaimed.
   */
  lemma NoCloseGoesUnclaimed(run: seq<Event>, db: Db, ref: Ref)
    requires Leads(EMPTY, run, db) && ref !in db.records
    ensures ref !in Claims(db, Delete(ref)) ==> exists time ::
      (ref, time) in LogOf(EMPTY, run, {}) && time <= db.now < time + KEEP
    ensures forall ttl: Ttl :: RefreshedOne(Swept(db), ref, ttl).1 == 0 ==>
      exists time :: (ref, time) in LogOf(EMPTY, run, {}) && time <= db.now < time + KEEP
  {
    LoggedRun(EMPTY, run, db, {});
    if ref in Swept(db).gone {
      assert (ref, db.gone[ref] - KEEP) in LogOf(EMPTY, run, {});
    }
  }

  // ------------------------------------------------ the record and the index

  /** Nothing was lost yet: a record is alive exactly while its ref's score lies in the future. */
  ghost predicate Paired(db: Db) {
    forall ref :: ref in db.records <==> ref in db.index && db.index[ref] > db.now
  }

  predicate Loses(e: Event) {
    e.LoseRecord? || e.LoseIndexEntry?
  }

  lemma PairedRefresh(db: Db, refs: seq<Ref>, ttl: Ttl)
    requires Paired(db)
    ensures Paired(RefreshedAll(db, refs, ttl).0) && RefreshedAll(db, refs, ttl).0.now == db.now
    decreases |refs|
  {
    if refs != [] { PairedRefresh(db, refs[..|refs| - 1], ttl); }
  }

  lemma PairedCreated(db: Db, e: Event)
    requires Paired(db) && e.Create? && Happens(db, e)
    ensures Paired(Step(db, e))
  {
    hide Counted;
  }

  lemma PairedTouched(db: Db, e: Event)
    requires Paired(db) && (e.Touch? || e.SaveBaselines? || e.Reserve? || e.Unreserve?)
    ensures Paired(Step(db, e))
  {
  }

  lemma PairedDeleted(db: Db, ref: Ref)
    requires Paired(db)
    ensures Paired(Deleted(db, ref).0)
  {
  }

  lemma PairedLater(db: Db, ms: nat)
    requires RecordsOk(db.now, db.records, db.index) && Paired(db)
    ensures Paired(Later(db, db.now + ms))
  {
  }

  lemma PairedStep(db: Db, e: Event)
    requires Valid(db) && Paired(db) && Happens(db, e) && !Loses(e)
    ensures Paired(Step(db, e))
  {
    hide RefreshedAll, GoneOk, Created, Deleted, Later, Touched, Reserved, Unreserved, Happens;
    match e
    case Create(_, _, _, _, _) => PairedCreated(db, e);
    case RefreshMany(refs, ttl) => PairedRefresh(Swept(db), refs, ttl);
    case Delete(ref) => PairedDeleted(db, ref);
    case Advance(ms) => PairedLater(db, ms);
    case _ => PairedTouched(db, e);
  }

  predicate LosesNothing(run: seq<Event>) {
    forall i :: 0 <= i < |run| ==> !Loses(run[i])
  }

  lemma {:induction false} PairedRun(db: Db, run: seq<Event>, after: Db)
    requires Valid(db) && Paired(db) && Leads(db, run, after) && LosesNothing(run)
    ensures Valid(after) && Paired(after)
    decreases |run|
  {
    if run != [] {
      StepValid(db, run[0]);
      PairedStep(db, run[0]);
      PairedRun(Step(db, run[0]), run[1..], after);
    }
  }

  /**
   * Without losses, a session's record is alive exactly when its index score lies in the future, and the two
   * deadlines are one.
   */
  lemma AliveIsIndexed(run: seq<Event>, db: Db, ref: Ref)
    requires Leads(EMPTY, run, db) && LosesNothing(run)
    ensures ref in db.records <==> ref in db.index && db.index[ref] > db.now
    ensures ref in db.records ==> db.records[ref].deadline == Some(db.index[ref])
  {
    PairedRun(EMPTY, run, db);
  }

  /** Only SESSION_CREATE brings a record into being. */
  lemma OnlyCreateCreates(db: Db, e: Event, ref: Ref)
    requires ref !in db.records
    ensures ref in Step(db, e).records <==> Creates(db, e, ref)
  {
    hide Counted;
    if e.RefreshMany? { RefreshCreatesNone(Swept(db), e.refs, e.ttl, ref); }
  }

  lemma RefreshCreatesNone(db: Db, refs: seq<Ref>, ttl: Ttl, ref: Ref)
    requires ref !in db.records
    ensures ref !in RefreshedAll(db, refs, ttl).0.records
    decreases |refs|
  {
  }
}
