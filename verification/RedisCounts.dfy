/**
 * The scripts beside the session records: a stateless client's counts (CLIENT_RESERVE, CLIENT_UNRESERVE) and the
 * resources a session is subscribed to (SESSION_SUBSCRIPTIONS) of easy_mcp/store/redis_store.py.
 */
module RedisCounts {
  import opened Wrappers
  import opened CallCap

  type Time = int
  type Ttl = t: int | t > 0 witness 1

  /** A client's hash of counts; without a deadline it never expires. */
  datatype Counts = Counts(fields: map<string, nat>, deadline: Option<Time>)

  /** The key as it is now: gone once its deadline has come. */
  function At(key: Option<Counts>, now: Time): Option<Counts> {
    if key.Some? && key.value.deadline.Some? && key.value.deadline.value <= now then None else key
  }

  function CountIn(key: Option<Counts>, field: string): nat {
    if key.Some? && field in key.value.fields then key.value.fields[field] else 0
  }

  /** HINCRBY makes the key if it must, without a deadline. */
  function Incremented(key: Option<Counts>, field: string, step: int): Counts
    requires CountIn(key, field) + step >= 0
  {
    var before := if key.Some? then key.value else Counts(map[], None);
    before.(fields := before.fields[field := CountIn(key, field) + step])
  }

  function Expiring(key: Counts, deadline: Time): Counts {
    key.(deadline := Some(deadline))
  }

  /** CLIENT_RESERVE: what it leaves, and -1 at the limit or the new count. */
  function ClientReserved(key: Option<Counts>, field: string, limit: nat, ttl: Ttl, now: Time): (Option<Counts>, int) {
    if CountIn(key, field) >= limit then (if key.Some? then Some(Expiring(key.value, now + ttl)) else None, -1)
    else
      var after := Incremented(key, field, 1);
      var count: int := after.fields[field];
      (Some(Expiring(after, now + ttl)), count)
  }

  /** CLIENT_UNRESERVE. */
  function ClientUnreserved(key: Option<Counts>, field: string): Option<Counts> {
    if CountIn(key, field) > 0 then Some(Incremented(key, field, -1)) else key
  }

  /**
   * A client's units are reserved and given back as a session's are, no other field moves, no key is ever left
   * without a deadline, and giving one back makes none.
   */
  lemma ClientKeepsUnits(key: Option<Counts>, field: string, limit: nat, ttl: Ttl, now: Time, other: string)
    requires key.Some? ==> key.value.deadline.Some?
    ensures var (after, reply) := ClientReserved(key, field, limit, ttl, now);
      && (Some(CountIn(after, field)), ReservationOf(reply)) == ReserveUnit(Some(CountIn(key, field)), limit)
      && (after.Some? ==> after.value.deadline == Some(now + ttl)) &&
          (other != field ==> CountIn(after, other) == CountIn(key, other))
    ensures var after := ClientUnreserved(key, field);
      && Some(CountIn(after, field)) == ReleaseUnit(Some(CountIn(key, field)))
      && (after.Some? <==> key.Some?) && (after.Some? ==> after.value.deadline == key.value.deadline)
      && (other != field ==> CountIn(after, other) == CountIn(key, other))
    ensures limit > 0 ==> forall later :: later >= now + ttl ==>
      At(ClientReserved(key, field, limit, ttl, now).0, later) == None
  {
  }

  // -------------------------------------------------- a session's subscriptions

  /** What was there and is not removed, each once. */
  function Kept(decoded: seq<string>, removed: set<string>): (r: seq<string>)
    decreases |decoded|
  {
    if decoded == [] then []
    else
      var before, uri := Kept(decoded[..|decoded| - 1], removed), decoded[|decoded| - 1];
      if uri in removed || uri in before then before else before + [uri]
  }

  /** The additions there is room for. */
  function Filled(kept: seq<string>, add: seq<string>, cap: nat): seq<string>
    decreases |add|
  {
    if add == [] then kept
    else
      var before, uri := Filled(kept, add[..|add| - 1], cap), add[|add| - 1];
      if uri in before || |before| >= cap then before else before + [uri]
  }

  ghost predicate NoRepeats(uris: seq<string>) {
    forall i, j :: 0 <= i < j < |uris| ==> uris[i] != uris[j]
  }

  /** Where a URI is first found. */
  function FirstAt(uris: seq<string>, uri: string): (at: nat)
    requires uri in uris
    ensures at < |uris| && uris[at] == uri && uri !in uris[..at]
  {
    if uris[0] == uri then 0 else FirstAt(uris[1..], uri) + 1
  }

  lemma {:induction false} FirstStays(uris: seq<string>, more: string, uri: string)
    requires uri in uris
    ensures uri in uris + [more] && FirstAt(uris + [more], uri) == FirstAt(uris, uri)
    decreases |uris|
  {
    if uris[0] != uri {
      assert (uris + [more])[1..] == uris[1..] + [more];
      FirstStays(uris[1..], more, uri);
    }
  }

  /** Each that is not removed is kept once, in the order they were first there. */
  lemma {:induction false} KeptIs(decoded: seq<string>, removed: set<string>)
    ensures NoRepeats(Kept(decoded, removed)) && |Kept(decoded, removed)| <= |decoded|
    ensures forall uri :: uri in Kept(decoded, removed) <==> uri in decoded && uri !in removed
    ensures var r := Kept(decoded, removed); forall i, j :: 0 <= i < j < |r| && r[i] in decoded && r[j] in decoded ==>
      FirstAt(decoded, r[i]) < FirstAt(decoded, r[j])
    decreases |decoded|
  {
    if decoded != [] {
      var before, last := decoded[..|decoded| - 1], decoded[|decoded| - 1];
      KeptIs(before, removed);
      assert decoded == before + [last];
      var r := Kept(decoded, removed);
      forall i, j | 0 <= i < j < |r| && r[i] in decoded && r[j] in decoded
        ensures FirstAt(decoded, r[i]) < FirstAt(decoded, r[j])
      {
        FirstStays(before, last, r[i]);
        if r[j] in before { FirstStays(before, last, r[j]); }
      }
    }
  }

  /** The cap holds for additions only, each URI is there once, what is left out was left out for want of room. */
  lemma {:induction false} FilledIs(kept: seq<string>, add: seq<string>, cap: nat)
    requires NoRepeats(kept)
    ensures var r := Filled(kept, add, cap);
      && NoRepeats(r) && |kept| <= |r| && r[..|kept|] == kept && |r| <= (if |kept| > cap then |kept| else cap)
      && (forall uri :: uri in r ==> uri in kept || uri in add)
      && (|r| < cap ==> forall uri :: uri in add ==> uri in r)
    decreases |add|
  {
    if add != [] {
      FilledIs(kept, add[..|add| - 1], cap);
      assert add == add[..|add| - 1] + [add[|add| - 1]];
    }
  }

  /**
   * SESSION_SUBSCRIPTIONS: the URIs it stores and returns, or None (its false) where the session is gone or of
   * another kind.  The session is what its field's text decodes to, nothing where it does not.
   */
  method UpdateSubscriptions(session: Option<seq<string>>, add: seq<string>, remove: set<string>, cap: nat)
      returns (r: Option<seq<string>>)
    ensures r.Some? <==> session.Some?
    ensures r.Some? ==> r.value == Filled(Kept(session.value, remove), add, cap)
    ensures r.Some? ==> NoRepeats(r.value) && forall uri :: uri in session.value && uri !in remove ==> uri in r.value
    ensures r.Some? ==> forall uri :: uri in r.value ==> uri in add || (uri in session.value && uri !in remove)
  {
    if session.None? { return None; }
    var decoded := session.value;
    var kept: seq<string> := [];
    var seen: set<string> := {};
    var i := 0;
    while i < |decoded|
      invariant 0 <= i <= |decoded| && kept == Kept(decoded[..i], remove) && seen == set uri | uri in kept
    {
      assert decoded[..i + 1][..i] == decoded[..i];
      var uri := decoded[i];
      if uri !in seen && uri !in remove { seen, kept := seen + {uri}, kept + [uri]; }
      i := i + 1;
    }
    assert decoded[..i] == decoded;
    ghost var stayed := kept;
    i := 0;
    while i < |add|
      invariant 0 <= i <= |add| && kept == Filled(stayed, add[..i], cap) && seen == set uri | uri in kept
    {
      assert add[..i + 1][..i] == add[..i];
      var uri := add[i];
      if uri !in seen && |kept| < cap { seen, kept := seen + {uri}, kept + [uri]; }
      i := i + 1;
    }
    assert add[..i] == add;
    KeptIs(decoded, remove);
    FilledIs(stayed, add, cap);
    assert forall uri :: uri in stayed ==> uri in kept[..|stayed|];
    r := Some(kept);
  }
}
