/**
 * The session scripts as the commands they are made of.  The commands are Redis's: HSET on a missing key makes one
 * without a deadline, a sorted set whose last member goes is gone, and so is its deadline.  Each script leaves what
 * its step of RedisSessions leaves, and replies as it does.
 */
module RedisScripts {
  import opened Wrappers
  import opened RedisSessions
  import opened RedisRecords

  class Redis {
    var now: Time
    var records: map<Ref, Record>
    var index: map<Ref, Time>
    var gone: map<Ref, Time>
    var goneDeadline: Option<Time>

    constructor ()
      ensures Contents() == EMPTY
    {
      now, records, index, gone, goneDeadline := 0, map[], map[], map[], None;
    }

    function Contents(): Db
      reads this
    {
      Db(now, records, index, gone, goneDeadline)
    }

    // ------------------------------------------------------------ commands

    /** HSET of the fields a new record has: the deadline stays as it was, none for a new key. */
    method HsetNew(ref: Ref, who: Who)
      modifies this`records
      ensures ref !in old(records) ==> records == old(records)[ref := NewRecord(who, now)]
    {
      var before := if ref in records then records[ref] else NewRecord(who, now);
      records := records[ref := before.(who := who, version := "", start := now)];
    }

    /** PEXPIRE of a record: nothing for a missing key. */
    method Pexpire(ref: Ref, ttl: Ttl)
      modifies this`records
      ensures records == if ref in old(records)
        then old(records)[ref := old(records)[ref].(deadline := Some(now + ttl))] else old(records)
    {
      if ref in records { records := records[ref := records[ref].(deadline := Some(now + ttl))]; }
    }

    /** ZADD to the memory of removals. */
    method ZaddGone(ref: Ref, score: Time)
      modifies this`gone
      ensures gone == old(gone)[ref := score]
    {
      gone := gone[ref := score];
    }

    method PexpireGone(ttl: int)
      modifies this`goneDeadline
      ensures goneDeadline == if gone != map[] then Some(now + ttl) else old(goneDeadline)
    {
      if gone != map[] { goneDeadline := Some(now + ttl); }
    }

    /** ZREMRANGEBYSCORE -inf now. */
    method SweepGone()
      modifies this`gone, this`goneDeadline
      ensures Contents() == Swept(old(Contents()))
    {
      gone := map ref | ref in gone && gone[ref] > now :: gone[ref];
      if gone == map[] { goneDeadline := None; }
    }

    /** ZRANGEBYSCORE -inf now LIMIT 0 64: the lowest scores first. */
    method RangeLapsed() returns (lapsed: seq<Ref>)
      ensures FirstLapsed(Contents(), Members(lapsed)) && |lapsed| == |Members(lapsed)|
    {
      lapsed := [];
      var left := Lapsed(Contents());
      while left != {} && |lapsed| < PRUNED_PER_CALL
        invariant LowestFirst(index, Lapsed(Contents()), lapsed, left) && |lapsed| <= PRUNED_PER_CALL
        decreases left
      {
        Lowest(index, left);
        var ref :| ref in left && forall later :: later in left ==> index[ref] <= index[later];
        NextLowest(index, Lapsed(Contents()), lapsed, left, ref);
        lapsed := lapsed + [ref];
        left := left - {ref};
      }
    }

    // ------------------------------------------------------------- scripts

    method SessionCreate(ref: Ref, who: Who, ttl: Ttl, cap: nat) returns (status: int, expired: seq<Ref>)
      modifies this
      ensures FirstLapsed(old(Contents()), Members(expired)) && |expired| == |Members(expired)|
      ensures (Contents(), status) == Created(old(Contents()), ref, who, ttl, cap, Members(expired))
    {
      hide FirstLapsed, Lapsed, Swept, Remembered;
      expired := RangeLapsed();
      if |expired| > 0 { PruneIndex(expired); }
      assert Contents() == Pruned(old(Contents()), Members(expired));
      if |Counted(Contents())| >= cap { return 0, expired; }
      if ref in records { return -1, expired; }
      ghost var before := Contents();
      HsetNew(ref, who);
      Pexpire(ref, ttl);
      index := index[ref := now + ttl];
      assert Contents() == Extended(before.(records := before.records[ref := NewRecord(who, now)]), ref, ttl);
      status := 1;
    }

    /** What SESSION_CREATE does with the expired: out of the index, into the memory. */
    method PruneIndex(expired: seq<Ref>)
      requires |expired| > 0
      modifies this
      ensures Contents() == Pruned(old(Contents()), Members(expired)) && now == old(now)
    {
      hide Swept;
      assert expired[0] in Members(expired);
      index := index - Members(expired);
      SweepGone();
      ghost var swept := Contents();
      var i := 0;
      assert Remembered(swept, Members(expired[..0])).gone == gone;
      while i < |expired|
        invariant 0 <= i <= |expired| && Contents() == swept.(gone := gone)
        invariant gone == Remembered(swept, Members(expired[..i])).gone
      {
        RememberedMore(swept, expired, i);
        ZaddGone(expired[i], now + KEEP);
        i := i + 1;
      }
      assert expired[..i] == expired && expired[0] in gone;
      PexpireGone(KEEP);
    }

    /** The record too, as it is then, where it is wanted. */
    method SessionTouch(ref: Ref, extend: Option<Ttl>, version: string, want: bool, binding: Option<(string, string)>)
        returns (found: bool, record: Option<Record>)
      modifies this`records, this`index
      ensures (Contents(), found) == Touched(old(Contents()), ref, extend, version, binding)
      ensures TouchLeaves(old(Contents()), ref, extend, version, binding, Contents()) && found == (ref in old(records))
      ensures record == if found && want then Some(Contents().records[ref]) else None
    {
      WhatATouchDoes(Contents(), ref, extend, version, binding);
      if ref !in records { return false, None; }
      var ttl := extend;
      if ttl.Some? && binding.Some? &&
          (records[ref].who.fingerprint != binding.value.0 || records[ref].who.principal != binding.value.1) { ttl :=
          None; }
      if ttl.Some? {
        Pexpire(ref, ttl.value);
        index := index[ref := now + ttl.value];
      }
      if version != "" { records := records[ref := records[ref].(version := version)]; }
      found, record := true, if want then Some(records[ref]) else None;
    }

    method SessionRefreshMany(refs: seq<Ref>, ttl: Ttl) returns (alive: seq<int>)
      modifies this
      ensures (Contents(), alive) == RefreshedAll(Swept(old(Contents())), refs, ttl)
    {
      hide Swept, RefreshedOne;
      SweepGone();
      ghost var swept := Contents();
      var removed := false;
      alive := [];
      var i := 0;
      while i < |refs|
        invariant 0 <= i <= |refs| && (removed ==> gone != map[])
        invariant (Due(removed), alive) == RefreshedAll(swept, refs[..i], ttl)
      {
        assert refs[..i + 1][..i] == refs[..i];
        var state := RefreshOne(refs[i], ttl, removed);
        if state < 0 { removed := true; }
        alive := alive + [state];
        i := i + 1;
      }
      assert refs[..i] == refs;
      if removed { PexpireGone(KEEP); }
    }

    /** What is left once the memory's deadline is set, if a removal was remembered. */
    function Due(removed: bool): Db
      reads this
    {
      Contents().(goneDeadline := if removed then Some(now + KEEP) else goneDeadline)
    }

    /** One session of the loop; the memory's deadline is set after it, if a removal was remembered. */
    method RefreshOne(ref: Ref, ttl: Ttl, ghost removed: bool) returns (state: int)
      requires removed ==> gone != map[]
      modifies this`records, this`index, this`gone
      ensures (Due(removed || state < 0), state) == RefreshedOne(old(Due(removed)), ref, ttl)
      ensures removed || state < 0 ==> gone != map[]
    {
      if ref in records {
        Pexpire(ref, ttl);
        index := index[ref := now + ttl];
        return 1;
      }
      if ref in index {
        index := index - {ref};
        RememberOne(ref);
        assert Due(true) == Remembered(old(Due(removed)).(index := index), {ref});
        return -1;
      }
      if ref in gone { return 0; }
      RememberOne(ref);
      state := -2;
    }

    method RememberOne(ref: Ref)
      modifies this`gone
      ensures Contents() == Remembered(old(Contents()), {ref}).(goneDeadline := goneDeadline) && ref in gone
    {
      ZaddGone(ref, now + KEEP);
      assert gone == Remembered(old(Contents()), {ref}).gone;
    }

    method SessionDelete(ref: Ref) returns (removed: int)
      modifies this
      ensures (Contents(), removed) == Deleted(old(Contents()), ref)
    {
      records := records - {ref};
      SweepGone();
      if ref in index {
        index := index - {ref};
        RememberOne(ref);
      } else {
        if ref in gone { return 0; }
        RememberOne(ref);
      }
      PexpireGone(KEEP);
      removed := 1;
    }

    method SessionBaselines(ref: Ref, text: string) returns (saved: bool)
      modifies this`records
      ensures Contents() == Step(old(Contents()), SaveBaselines(ref, text)) && saved == (ref in old(records))
    {
      if ref !in records { return false; }
      records := records[ref := records[ref].(baselines := text)];
      saved := true;
    }

    method SessionReserve(ref: Ref, tool: string, limit: nat) returns (reply: int)
      modifies this`records
      ensures (Contents(), reply) == Reserved(old(Contents()), ref, tool, limit)
    {
      if ref !in records { return -2; }
      var calls := Calls(records[ref], tool);
      if calls >= limit { return -1; }
      records := records[ref := records[ref].(calls := records[ref].calls[tool := calls + 1])];
      reply := calls + 1;
    }

    method SessionUnreserve(ref: Ref, tool: string) returns (reply: int)
      modifies this`records
      ensures Contents() == Unreserved(old(Contents()), ref, tool)
      ensures reply == if ref in records then Calls(records[ref], tool) else 0
    {
      if ref !in records { return 0; }
      var calls := Calls(records[ref], tool);
      if calls == 0 { return 0; }
      records := records[ref := records[ref].(calls := records[ref].calls[tool := calls - 1])];
      reply := calls - 1;
    }
  }

  function Members(refs: seq<Ref>): set<Ref> {
    set ref | ref in refs
  }

  lemma MembersMore(refs: seq<Ref>, ref: Ref)
    ensures Members(refs + [ref]) == Members(refs) + {ref}
  {
  }

  lemma RememberedMore(db: Db, refs: seq<Ref>, i: nat)
    requires i < |refs|
    ensures Remembered(db, Members(refs[..i + 1])).gone ==
      Remembered(db, Members(refs[..i])).gone[refs[i] := db.now + KEEP]
  {
    assert refs[..i + 1] == refs[..i] + [refs[i]];
    MembersMore(refs[..i], refs[i]);
  }

  /** Those taken so far come before those that are left. */
  ghost predicate LowestFirst(index: map<Ref, Time>, all: set<Ref>, taken: seq<Ref>, left: set<Ref>) {
    && all <= index.Keys && Members(taken) <= all && left == all - Members(taken) && |taken| == |Members(taken)|
    && (forall first, later :: first in Members(taken) && later in left ==> index[first] <= index[later])
  }

  lemma NextLowest(index: map<Ref, Time>, all: set<Ref>, taken: seq<Ref>, left: set<Ref>, ref: Ref)
    requires LowestFirst(index, all, taken, left) && ref in left
    requires forall later :: later in left ==> index[ref] <= index[later]
    ensures LowestFirst(index, all, taken + [ref], left - {ref})
  {
    MembersMore(taken, ref);
  }

  /** A set of members has one with the lowest score. */
  lemma Lowest(index: map<Ref, Time>, refs: set<Ref>)
    requires refs != {} && refs <= index.Keys
    ensures exists ref :: ref in refs && forall later :: later in refs ==> index[ref] <= index[later]
    decreases refs
  {
    var ref :| ref in refs;
    if refs != {ref} {
      Lowest(index, refs - {ref});
      var low :| low in refs - {ref} && forall later :: later in refs - {ref} ==> index[low] <= index[later];
      if index[ref] <= index[low] { assert forall later :: later in refs ==> index[ref] <= index[later]; }
      else { assert forall later :: later in refs ==> index[low] <= index[later]; }
    }
  }
}
