/** How many sessions of a kind are alive: never more than the cap and the index entries lost. */
module RedisCap {
  import opened Wrappers
  import opened RedisSessions

  /** Records whose index entry was lost: they are alive and uncounted. */
  function Strays(db: Db): set<Ref> {
    db.records.Keys - db.index.Keys
  }

  predicate Within(db: Db, cap: nat, lost: nat) {
    |db.records| <= cap + lost && |Strays(db)| <= lost
  }

  function Lost(db: Db, e: Event): nat {
    if e.LoseIndexEntry? && e.ref in db.records then 1 else 0
  }

  lemma StraysRefresh(db: Db, refs: seq<Ref>, ttl: Ttl)
    ensures Strays(RefreshedAll(db, refs, ttl).0) <= Strays(db)
    decreases |refs|
  {
    if refs != [] { StraysRefresh(db, refs[..|refs| - 1], ttl); }
  }

  /** What lapsed has no record. */
  lemma StraysPruned(db: Db, pruned: set<Ref>)
    requires Valid(db) && pruned <= Lapsed(db)
    ensures Pruned(db, pruned).records == db.records && Strays(Pruned(db, pruned)) <= Strays(db)
  {
    hide GoneOk;
    assert forall ref :: ref in pruned ==> ref !in db.records;
  }

  lemma StraysCreated(db: Db, e: Event)
    requires Valid(db) && e.Create? && Happens(db, e)
    ensures Strays(Step(db, e)) <= Strays(db)
  {
    hide Counted, Valid, Pruned;
    StraysPruned(db, e.pruned);
  }

  lemma StraysStep(db: Db, e: Event)
    requires Valid(db) && Happens(db, e)
    ensures Strays(Step(db, e)) <= Strays(db) + if Lost(db, e) == 1 then {e.ref} else {}
  {
    hide Valid, RefreshedAll, Created;
    match e
    case Create(_, _, _, _, _) => StraysCreated(db, e);
    case RefreshMany(refs, ttl) => StraysRefresh(Swept(db), refs, ttl);
    case _ =>
  }

  /** Every record is counted or a stray. */
  lemma RecordsAreCounted(db: Db)
    requires Valid(db)
    ensures |db.records| <= |Counted(db)| + |Strays(db)|
  {
    assert db.records.Keys <= Counted(db) + Strays(db);
    AtMost(db.records.Keys, Counted(db) + Strays(db));
    assert |Counted(db) + Strays(db)| <= |Counted(db)| + |Strays(db)|;
    assert |db.records| == |db.records.Keys|;
  }

  lemma CreatedAdds(db: Db, e: Event)
    requires Valid(db) && e.Create? && Happens(db, e) && Creates(db, e, e.ref)
    ensures |Counted(Pruned(db, e.pruned))| < e.cap && Step(db, e).records.Keys == db.records.Keys + {e.ref}
    ensures Pruned(db, e.pruned).records == db.records && Strays(Pruned(db, e.pruned)) <= Strays(db)
  {
    hide Counted, Valid, Pruned;
    StraysPruned(db, e.pruned);
  }

  lemma CreatedWithin(db: Db, e: Event, cap: nat, lost: nat)
    requires Valid(db) && e.Create? && Happens(db, e) && Creates(db, e, e.ref) && e.cap <= cap && Within(db, cap, lost)
    ensures |Step(db, e).records| <= cap + lost
  {
    hide Valid, Created, Happens, Creates, Step, Pruned;
    var after := Pruned(db, e.pruned);
    PrunedValid(db, e.pruned);
    CreatedAdds(db, e);
    RecordsAreCounted(after);
    AtMost(Strays(after), Strays(db));
    AtMost(Step(db, e).records.Keys, after.records.Keys + {e.ref});
    assert |Step(db, e).records| == |Step(db, e).records.Keys|;
  }

  lemma NoneMore(db: Db, e: Event)
    requires e.Create? ==> !Creates(db, e, e.ref)
    ensures Step(db, e).records.Keys <= db.records.Keys
  {
    forall ref | ref in Step(db, e).records ensures ref in db.records {
      if ref !in db.records { OnlyCreateCreates(db, e, ref); }
    }
  }

  lemma WithinStep(db: Db, e: Event, cap: nat, lost: nat)
    requires Valid(db) && Happens(db, e) && Within(db, cap, lost) && (e.Create? ==> e.cap <= cap)
    ensures Within(Step(db, e), cap, lost + Lost(db, e))
  {
    hide Valid, Created, Creates, Step, Happens;
    StraysStep(db, e);
    AtMost(Strays(Step(db, e)), Strays(db) + if Lost(db, e) == 1 then {e.ref} else {});
    if e.Create? && Creates(db, e, e.ref) {
      CreatedWithin(db, e, cap, lost);
    } else {
      NoneMore(db, e);
      AtMost(Step(db, e).records.Keys, db.records.Keys);
      assert |Step(db, e).records| == |Step(db, e).records.Keys| && |db.records| == |db.records.Keys|;
    }
  }

  function LostIn(db: Db, run: seq<Event>): nat
    decreases |run|
  {
    if run == [] then 0 else Lost(db, run[0]) + LostIn(Step(db, run[0]), run[1..])
  }

  predicate CapsAtMost(run: seq<Event>, cap: nat) {
    forall i :: 0 <= i < |run| && run[i].Create? ==> run[i].cap <= cap
  }

  lemma {:induction false} WithinRun(db: Db, run: seq<Event>, after: Db, cap: nat, lost: nat)
    requires Valid(db) && Within(db, cap, lost) && Leads(db, run, after) && CapsAtMost(run, cap)
    ensures Within(after, cap, lost + LostIn(db, run))
    decreases |run|
  {
    if run != [] {
      StepValid(db, run[0]);
      WithinStep(db, run[0], cap, lost);
      WithinRun(Step(db, run[0]), run[1..], after, cap, lost + Lost(db, run[0]));
    }
  }

  /**
   * Live sessions exceed the cap by no more than the index entries of live sessions that were lost, so without such
   * losses never; that one call takes at most 64 lapsed sessions out of the index does not matter.
   */
  lemma SessionsAreCapped(run: seq<Event>, db: Db, cap: nat)
    requires Leads(EMPTY, run, db) && CapsAtMost(run, cap)
    ensures |db.records| <= cap + LostIn(EMPTY, run)
  {
    WithinRun(EMPTY, run, db, cap, 0);
  }

  /** A create refused at the cap is refused for as many index entries, all of them still to lapse. */
  lemma RefusedAtCap(db: Db, e: Event)
    requires Valid(db) && e.Create? && Happens(db, e)
    ensures Created(db, e.ref, e.who, e.ttl, e.cap, e.pruned).1 == 0 <==> |Counted(db)| >= e.cap
  {
    hide Valid, Pruned, Extended;
    CountedPruned(db, e.pruned);
  }

  lemma CountedPruned(db: Db, pruned: set<Ref>)
    requires pruned <= Lapsed(db)
    ensures Counted(Pruned(db, pruned)) == Counted(db)
  {
  }
}
