/**
 * What the scripts do to one session, field by field: who may extend it, what ends it, what each call answers.  The
 * steps of RedisSessions are measured against what the callers of the store count on.
 */
module RedisRecords {
  import opened Wrappers
  import opened RedisSessions
  import opened RedisCap

  // ------------------------------------------------------- one request's touch

  /** The credential a request came with is the session's own, or the caller does not say. */
  predicate IsOwn(who: Who, binding: Option<(string, string)>) {
    binding == None || (binding.value.0 == who.fingerprint && binding.value.1 == who.principal)
  }

  /**
   * A touch of a session that is there moves its two deadlines exactly when it is to extend and the credential is the
   * session's own, and its version exactly when it brings one; nothing else changes, and of another session nothing.
   */
  ghost predicate TouchLeaves(db: Db, ref: Ref, extend: Option<Ttl>, version: string,
      binding: Option<(string, string)>, after: Db)
  {
    if ref !in db.records then after == db
    else
      var record, moves := db.records[ref], extend.Some? && IsOwn(db.records[ref].who, binding);
      && after.now == db.now && after.gone == db.gone && after.goneDeadline == db.goneDeadline
      && after.records.Keys == db.records.Keys
      && (forall other :: other in db.records && other != ref ==> after.records[other] == db.records[other])
      && after.records[ref] == Record(record.who, if version == "" then record.version else version, record.start,
           record.baselines, record.calls, if moves then Some(db.now + extend.value) else record.deadline)
      && after.index == if moves then db.index[ref := db.now + extend.value] else db.index
  }

  lemma WhatATouchDoes(db: Db, ref: Ref, extend: Option<Ttl>, version: string, binding: Option<(string, string)>)
    ensures TouchLeaves(db, ref, extend, version, binding, Step(db, Touch(ref, extend, version, binding)))
    ensures Touched(db, ref, extend, version, binding).1 <==> ref in db.records
  {
  }

  // ------------------------------------------------------------- any step

  /** The step extends the session: a heartbeat that names it, or a touch that may. */
  predicate Extends(e: Event, ref: Ref, who: Who) {
    || (e.RefreshMany? && ref in e.refs)
    || (e.Touch? && e.ref == ref && e.extend.Some? && IsOwn(who, e.binding))
  }

  function TtlOf(e: Event, ref: Ref, who: Who): Ttl
    requires Extends(e, ref, who)
  {
    if e.RefreshMany? then e.ttl else e.extend.value
  }

  /** What the step makes of the record of a session that is there before it and after. */
  function RecordAfter(db: Db, e: Event, ref: Ref): Record
    requires ref in db.records
  {
    var record := db.records[ref];
    Record(
      record.who,
      if e.Touch? && e.ref == ref && e.version != "" then e.version else record.version,
      record.start,
      if e.SaveBaselines? && e.ref == ref then e.text else record.baselines,
      if e.Reserve? && e.ref == ref && Calls(record, e.tool) < e.limit
        then record.calls[e.tool := Calls(record, e.tool) + 1]
        else if e.Unreserve? && e.ref == ref && Calls(record, e.tool) > 0
        then record.calls[e.tool := Calls(record, e.tool) - 1]
        else record.calls,
      if Extends(e, ref, record.who) then Some(db.now + TtlOf(e, ref, record.who)) else record.deadline)
  }

  /** The step ends the session: a delete, its time being up, or a loss. */
  predicate Ends(db: Db, e: Event, ref: Ref)
    requires ref in db.records
  {
    || (e.Delete? && e.ref == ref) || (e.LoseRecord? && e.ref == ref)
    || (e.Advance? && db.records[ref].deadline.Some? && db.records[ref].deadline.value <= db.now + e.ms)
  }

  /** The session's record and index entry, after it was extended or not. */
  ghost predicate Kept(db: Db, after: Db, ref: Ref, extended: bool, ttl: Ttl)
    requires ref in db.records
  {
    && after.now == db.now && ref in after.records
    && after.records[ref] == (if extended then db.records[ref].(deadline := Some(db.now + ttl)) else db.records[ref])
    && (if extended then ref in after.index && after.index[ref] == db.now + ttl
        else (ref in after.index <==> ref in db.index) && (ref in db.index ==> after.index[ref] == db.index[ref]))
  }

  lemma RefreshedOneKeeps(db: Db, of: Ref, ttl: Ttl, ref: Ref)
    requires ref in db.records
    ensures Kept(db, RefreshedOne(db, of, ttl).0, ref, of == ref, ttl)
  {
  }

  lemma {:induction false} RefreshedRecord(db: Db, refs: seq<Ref>, ttl: Ttl, ref: Ref)
    requires ref in db.records
    ensures Kept(db, RefreshedAll(db, refs, ttl).0, ref, ref in refs, ttl)
    decreases |refs|
  {
    hide RefreshedOne;
    if refs != [] {
      var before, last := refs[..|refs| - 1], refs[|refs| - 1];
      RefreshedRecord(db, before, ttl, ref);
      RefreshedOneKeeps(RefreshedAll(db, before, ttl).0, last, ttl, ref);
      assert refs == before + [last];
    }
  }

  /** Lapsed sessions taken out of the index have no record, so a session that is there keeps its entry. */
  lemma PrunedKeeps(db: Db, pruned: set<Ref>, ref: Ref)
    requires Valid(db) && pruned <= Lapsed(db) && ref in db.records
    ensures ref !in pruned && Pruned(db, pruned).records == db.records
    ensures var after := Pruned(db, pruned).index;
      (ref in after <==> ref in db.index) && (ref in db.index ==> after[ref] == db.index[ref])
  {
    hide GoneOk;
  }

  lemma CreatedRecord(db: Db, e: Event, ref: Ref)
    requires Valid(db) && e.Create? && Happens(db, e) && ref in db.records
    ensures var after := Step(db, e);
      && ref in after.records && after.records[ref] == db.records[ref]
      && (ref in after.index <==> ref in db.index) && (ref in db.index ==> after.index[ref] == db.index[ref])
  {
    hide Pruned, Counted, Valid, GoneOk;
    PrunedKeeps(db, e.pruned, ref);
  }

  /** Its index entry moves with its deadline, and goes only with the session or by a loss. */
  ghost predicate EntryAsSaid(db: Db, e: Event, ref: Ref)
    requires ref in db.records
  {
    var after, who := Step(db, e), db.records[ref].who;
    if Extends(e, ref, who) then ref in after.index && after.index[ref] == db.now + TtlOf(e, ref, who)
    else
      && (ref in after.index <==> ref in db.index && !(e.LoseIndexEntry? && e.ref == ref))
      && (ref in after.index ==> after.index[ref] == db.index[ref])
  }

  /**
   * What every script, and time, makes of a session: it stays exactly unless it is deleted, lapses or is lost, who it
   * belongs to and when it began never change, and its deadline moves by a heartbeat that names it or a touch with
   * its own credential, by nothing else.
   */
  lemma WhatAStepDoes(db: Db, e: Event, ref: Ref)
    requires Valid(db) && Happens(db, e) && ref in db.records
    ensures var after := Step(db, e);
      && (ref in after.records <==> !Ends(db, e, ref))
      && (!Ends(db, e, ref) ==> after.records[ref] == RecordAfter(db, e, ref) && EntryAsSaid(db, e, ref))
  {
    hide Step, Valid, Happens, RecordAfter, Ends, EntryAsSaid, RefreshedAll;
    if e.Create? || e.RefreshMany? { ByCreateOrHeartbeat(db, e, ref); }
    else if e.Touch? { ByTouch(db, e, ref); }
    else if e.Delete? || e.Advance? { ByDeleteOrTime(db, e, ref); }
    else { ByTheRest(db, e, ref); }
  }

  /** The two together. */
  ghost predicate AsSaid(db: Db, e: Event, ref: Ref)
    requires ref in db.records
  {
    && (ref in Step(db, e).records <==> !Ends(db, e, ref))
    && (!Ends(db, e, ref) ==> Step(db, e).records[ref] == RecordAfter(db, e, ref) && EntryAsSaid(db, e, ref))
  }

  lemma ByCreateOrHeartbeat(db: Db, e: Event, ref: Ref)
    requires Valid(db) && Happens(db, e) && ref in db.records && (e.Create? || e.RefreshMany?)
    ensures AsSaid(db, e, ref)
  {
    hide Pruned, Counted, GoneOk, Created, RefreshedAll, Happens;
    if e.Create? { CreatedRecord(db, e, ref); } else { RefreshedRecord(Swept(db), e.refs, e.ttl, ref); }
  }

  lemma ByTouch(db: Db, e: Event, ref: Ref)
    requires ref in db.records && e.Touch?
    ensures AsSaid(db, e, ref)
  {
  }

  lemma ByDeleteOrTime(db: Db, e: Event, ref: Ref)
    requires ref in db.records && (e.Delete? || e.Advance?)
    ensures AsSaid(db, e, ref)
  {
  }

  lemma ByTheRest(db: Db, e: Event, ref: Ref)
    requires ref in db.records
    requires e.SaveBaselines? || e.Reserve? || e.Unreserve? || e.LoseRecord? || e.LoseIndexEntry?
    ensures AsSaid(db, e, ref)
  {
  }

  // --------------------------------------------------- only its owner extends it

  /** Nobody who may extends the session, and nobody makes it anew. */
  ghost predicate LeftAlone(db: Db, run: seq<Event>, ref: Ref, who: Who)
    decreases |run|
  {
    run != [] ==>
      !Extends(run[0], ref, who) && !Creates(db, run[0], ref) && LeftAlone(Step(db, run[0]), run[1..], ref, who)
  }

  lemma {:induction false} StaysGone(db: Db, run: seq<Event>, after: Db, ref: Ref, who: Who)
    requires ref !in db.records && Leads(db, run, after) && LeftAlone(db, run, ref, who)
    ensures ref !in after.records
    decreases |run|
  {
    if run != [] {
      hide Extends, Creates;
      OnlyCreateCreates(db, run[0], ref);
      StaysGone(Step(db, run[0]), run[1..], after, ref, who);
    }
  }

  /**
   * Whatever others send for a session, with whatever credential: without a heartbeat for it, or a touch with its
   * own, it is over by the deadline it had.
   */
  lemma {:induction false} StrangersDoNotExtend(db: Db, run: seq<Event>, after: Db, ref: Ref)
    requires Valid(db) && ref in db.records && Leads(db, run, after)
    requires LeftAlone(db, run, ref, db.records[ref].who)
    ensures ref in after.records ==>
      after.records[ref].deadline == db.records[ref].deadline && after.now < db.records[ref].deadline.value
    decreases |run|
  {
    hide GoneOk;
    if run != [] {
      hide Extends, Creates;
      var next := Step(db, run[0]);
      StepValid(db, run[0]);
      NotExtended(db, run[0], ref);
      if ref in next.records { StrangersDoNotExtend(next, run[1..], after, ref); }
      else { StaysGone(next, run[1..], after, ref, db.records[ref].who); }
    }
  }

  lemma NotExtended(db: Db, e: Event, ref: Ref)
    requires Valid(db) && Happens(db, e) && ref in db.records && !Extends(e, ref, db.records[ref].who)
    ensures var after := Step(db, e); ref in after.records ==>
      after.records[ref].who == db.records[ref].who && after.records[ref].deadline == db.records[ref].deadline
  {
    hide Extends, Step, Valid, Happens, Ends;
    WhatAStepDoes(db, e, ref);
  }

  // ------------------------------------------------------------ what calls answer

  /**
   * A create answers 1 exactly where there is room and no record of the ref, and then the session is the caller's,
   * begins now and lasts for the ttl; else no record is made or changed.
   */
  lemma WhatACreateAnswers(db: Db, e: Event)
    requires Valid(db) && e.Create? && Happens(db, e)
    ensures var after, answer := Step(db, e), Created(db, e.ref, e.who, e.ttl, e.cap, e.pruned).1;
      && answer == (if |Counted(db)| >= e.cap then 0 else if e.ref in db.records then -1 else 1)
      && after.records == (if answer == 1
           then db.records[e.ref := Record(e.who, "", db.now, "", map[], Some(db.now + e.ttl))] else db.records)
      && after.index == (if answer == 1
           then (db.index - e.pruned)[e.ref := db.now + e.ttl] else db.index - e.pruned)
  {
    hide GoneOk, Counted, Valid, Pruned, Extended;
    PrunedLeaves(db, e.pruned);
    CountedPruned(db, e.pruned);
    ExtendedNew(Pruned(db, e.pruned), e.ref, NewRecord(e.who, db.now), e.ttl);
  }

  lemma ExtendedNew(db: Db, ref: Ref, record: Record, ttl: Ttl)
    ensures var after := Extended(db.(records := db.records[ref := record]), ref, ttl);
      && after.records == db.records[ref := record.(deadline := Some(db.now + ttl))]
      && after.index == db.index[ref := db.now + ttl]
  {
  }

  lemma PrunedLeaves(db: Db, pruned: set<Ref>)
    ensures var after := Pruned(db, pruned);
      after.now == db.now && after.records == db.records && after.index == db.index - pruned
  {
  }

  /** What a heartbeat has made of the first refs of its list, for one that has no record. */
  lemma {:induction false} RefreshedGone(db: Db, refs: seq<Ref>, ttl: Ttl, ref: Ref)
    requires ref !in db.records
    ensures Away(db, RefreshedAll(db, refs, ttl).0, ref, ref in refs)
    decreases |refs|
  {
    hide RefreshedOne;
    if refs != [] {
      var before, last := refs[..|refs| - 1], refs[|refs| - 1];
      RefreshedGone(db, before, ttl, ref);
      RefreshedOneAway(RefreshedAll(db, before, ttl).0, last, ttl, ref);
      assert refs == before + [last];
    }
  }

  /** It has no record, and is out of the index and remembered if it was named. */
  ghost predicate Away(db: Db, after: Db, ref: Ref, named: bool) {
    && ref !in after.records && (ref in after.index <==> ref in db.index && !named)
    && (ref in after.gone <==> ref in db.gone || named)
  }

  lemma RefreshedOneAway(db: Db, of: Ref, ttl: Ttl, ref: Ref)
    requires ref !in db.records
    ensures Away(db, RefreshedOne(db, of, ttl).0, ref, of == ref)
  {
  }

  /**
   * A heartbeat answers for each session: 1 if it is there, -1 if the index alone still names it, -2 if nothing does,
   * 0 if a removal of it is remembered; named again, one that is not there is remembered by then.
   */
  lemma {:induction false} WhatAHeartbeatAnswers(db: Db, refs: seq<Ref>, ttl: Ttl, i: nat)
    requires i < |refs|
    ensures RefreshedAll(db, refs, ttl).1[i] ==
      if refs[i] in db.records then 1
      else if refs[i] in refs[..i] then 0
      else if refs[i] in db.index then -1
      else if refs[i] in db.gone then 0
      else -2
    decreases |refs|
  {
    var before := refs[..|refs| - 1];
    if i < |refs| - 1 {
      WhatAHeartbeatAnswers(db, before, ttl, i);
      assert before[..i] == refs[..i];
    } else {
      assert RefreshedAll(db, refs, ttl).1[i] == RefreshedOne(RefreshedAll(db, before, ttl).0, refs[i], ttl).1;
      hide RefreshedAll, Remembered;
      if refs[i] in db.records { RefreshedRecord(db, before, ttl, refs[i]); }
      else { RefreshedGone(db, before, ttl, refs[i]); }
    }
  }

  /**
   * A delete takes the session from the records and the index and leaves it remembered; it answers 1 exactly where
   * the index named it or no removal of it is remembered, and no other session's record or entry changes.
   */
  lemma WhatADeleteAnswers(db: Db, ref: Ref)
    ensures var after, answer := Deleted(db, ref).0, Deleted(db, ref).1;
      && after.records == db.records - {ref} && after.index == db.index - {ref} && ref in after.gone
      && answer == (if ref in db.index || !(ref in db.gone && db.gone[ref] > db.now) then 1 else 0)
      && (answer == 1 ==> after.gone[ref] == db.now + KEEP)
  {
    if ref !in db.index { assert db.index - {ref} == db.index; }
  }
}
