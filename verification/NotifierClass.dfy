/**
 * The notifier and its sinks as the objects they are.  Each method is one lock section, and leaves exactly the books,
 * or the sink, that the step of the state machine of the same name leaves.
 */
module NotifierClass {
  import opened Wrappers
  import opened Notifier

  class ChangeNotifier {
    var sessions: map<Key, Sid>
    var channels: map<Channel, map<Key, Sid>>
    var perClient: map<Client, nat>
    var listens: nat
    var subscribed: map<Key, Subscriptions>

    constructor ()
      ensures Contents() == Books(map[], map[], map[], 0, map[])
    {
      sessions, channels, perClient, listens, subscribed := map[], map[], map[], 0, map[];
    }

    function Contents(): Books
      reads this
    {
      Books(sessions, channels, perClient, listens, subscribed)
    }

    /** _set_subscriptions: what is held for a URI no longer wanted goes. */
    method SetSubscriptions(key: Key, uris: set<Uri>, hold: bool)
      modifies this`subscribed
      ensures Contents() == SetTo(old(Contents()), key, uris, hold)
    {
      if uris == {} || (!hold && key !in sessions) {
        subscribed := subscribed - {key};
        return;
      }
      if key !in subscribed { subscribed := subscribed[key := Subscriptions({}, [], hold)]; }
      var kept := Keep(subscribed[key].held, uris);
      subscribed := subscribed[key := Subscriptions(uris, kept, hold)];
    }

    method AddSubscription(key: Key, uri: Uri, hold: bool)
      modifies this`subscribed
      ensures Contents() == Added(old(Contents()), key, uri, hold)
    {
      if !hold && key !in sessions { return; }
      if key !in subscribed { subscribed := subscribed[key := Subscriptions({}, [], hold)]; }
      subscribed := subscribed[key := subscribed[key].(hold := hold, uris := subscribed[key].uris + {uri})];
    }

    method Subscribe(key: Key, uri: Uri, cap: nat) returns (watched: bool)
      modifies this`subscribed
      ensures Contents() == SubscribedTo(old(Contents()), key, uri, cap)
      ensures watched <==> Watches(Contents(), key, uri)
      ensures !watched ==> |Contents().subscribed[key].uris| >= cap
    {
      if key !in subscribed { subscribed := subscribed[key := Subscriptions({}, [], true)]; }
      if uri in subscribed[key].uris { return true; }
      if |subscribed[key].uris| >= cap { return false; }
      subscribed := subscribed[key := subscribed[key].(uris := subscribed[key].uris + {uri})];
      return true;
    }

    method Unsubscribe(key: Key, uri: Uri)
      modifies this`subscribed
      ensures Contents() == UnsubscribedFrom(old(Contents()), key, uri)
    {
      if key !in subscribed { return; }
      var entry := subscribed[key];
      var kept := Keep(entry.held, entry.uris - {uri});
      if entry.uris - {uri} == {} { subscribed := subscribed - {key}; }
      else { subscribed := subscribed[key := entry.(uris := entry.uris - {uri}, held := kept)]; }
    }

    /**
     * publish_resource_updated's lock section: the session sinks and the listen streams the update is to be offered
     * to, and for how many sessions it is held.  uris is what each listen stream was acknowledged for.
     */
    method Publish(uri: Uri, uris: map<Sid, set<Uri>>) returns (picked: set<Sid>, streams: set<Sid>, count: nat)
      modifies this`subscribed
      ensures Contents() == HeldFor(old(Contents()), uri)
      ensures picked == PickedFor(old(Contents()), uri, old(subscribed).Keys)
      ensures streams == set sid | sid in Streams(old(Contents())) && sid in uris && uri in uris[sid]
      ensures count == |HoldersOf(old(Contents()), uri, old(subscribed).Keys)|
    {
      hide HeldFor, PickedFor, HoldersOf, Put, HeldForSome, Streams;
      streams := StreamsFor(uri, uris);
      picked, count := {}, 0;
      ghost var b := Contents();
      ghost var done: set<Key> := {};
      var keys := subscribed.Keys;
      PublishStarts(b, uri);
      while keys != {}
        invariant keys !! done && keys + done == b.subscribed.Keys
        invariant Contents() == HeldForSome(b, uri, done)
        invariant picked == PickedFor(b, uri, done) && count == |HoldersOf(b, uri, done)|
        decreases keys
      {
        var key :| key in keys;
        PublishOne(b, uri, done, key);
        keys, done := keys - {key}, done + {key};
        var entry := subscribed[key];
        if uri in entry.uris {
          if key in sessions { picked := picked + {sessions[key]}; }
          else if entry.hold {
            subscribed := subscribed[key := entry.(held := Put(entry.held, uri))];
            count := count + 1;
          }
        }
      }
      assert done == b.subscribed.Keys;
    }

    /** The listen streams that were acknowledged for the URI. */
    method StreamsFor(uri: Uri, uris: map<Sid, set<Uri>>) returns (streams: set<Sid>)
      ensures streams == set sid | sid in Streams(Contents()) && sid in uris && uri in uris[sid]
    {
      streams := {};
      var left, done: set<Channel> := channels.Keys, {};
      while left != {}
        invariant left !! done && left + done == channels.Keys
        invariant streams == StreamsIn(channels, done, uri, uris)
        decreases left
      {
        var channel :| channel in left;
        StreamsMore(channels, done, channel, uri, uris);
        streams := streams + set sid | sid in channels[channel].Values && sid in uris && uri in uris[sid];
        left, done := left - {channel}, done + {channel};
      }
      assert done == channels.Keys;
      StreamsAll(Contents(), uri, uris);
    }

    /** watch_session's lock section. */
    method WatchSession(sid: Sid, key: Key, given: Option<(set<Uri>, bool)>)
        returns (replaced: Option<Sid>, held: seq<Uri>)
      modifies this`sessions, this`subscribed
      ensures forall s: State, late: set<Kind>, sink: Sink ::
        s.books == old(Contents()) && sink.to.key == key && s.loop == Watching(sink, false, given, late) ==>
          DoRegisterSession(s, sid).books == Contents() &&
              DoRegisterSession(s, sid).loop == Replacing(sid, replaced, held, false)
    {
      replaced := if key in sessions then Some(sessions[key]) else None;
      sessions := sessions[key := sid];
      if given.Some? { SetSubscriptions(key, given.value.0, given.value.1); }
      held := if key in subscribed then subscribed[key].held else [];
      if key in subscribed { subscribed := subscribed[key := subscribed[key].(held := [])]; }
    }

    /** open's lock section. */
    method Open(sid: Sid, to: Recipient, maxTotal: nat) returns (open: bool)
      modifies this`channels, this`perClient, this`listens
      ensures open <==> !Refused(old(Contents()), to, maxTotal)
      ensures Contents() == if open then WithStream(old(Contents()), sid, to) else old(Contents())
    {
      var streams := if to.channel in channels then channels[to.channel] else map[];
      var mine := if to.client in perClient then perClient[to.client] else 0;
      if to.key in streams || mine >= MAX_SUBSCRIPTIONS_PER_CLIENT || listens >= maxTotal { return false; }
      channels := channels[to.channel := streams[to.key := sid]];
      perClient := perClient[to.client := mine + 1];
      listens := listens + 1;
      return true;
    }

    /** _unregister, with _sink_gone. */
    method Unregister(sid: Sid, to: Recipient) returns (removed: bool)
      modifies this
      ensures removed <==> Registered(old(Contents()), sid, to)
      ensures Contents() == if removed then Unregistered(old(Contents()), to) else old(Contents())
    {
      if !to.listen {
        if !(to.key in sessions && sessions[to.key] == sid) { return false; }
        sessions := sessions - {to.key};
        if to.key in subscribed && !subscribed[to.key].hold { subscribed := subscribed - {to.key}; }
        return true;
      }
      if !(to.channel in channels && to.key in channels[to.channel] &&
          channels[to.channel][to.key] == sid) { return false; }
      var streams := channels[to.channel] - {to.key};
      channels := if streams == map[] then channels - {to.channel} else channels[to.channel := streams];
      var mine := if to.client in perClient then perClient[to.client] else 0;
      perClient := if mine <= 1 then perClient - {to.client} else perClient[to.client := mine - 1];
      listens := if listens == 0 then 0 else listens - 1;
      return true;
    }
  }

  /** The comprehension that drops what is not wanted. */
  method Keep(held: seq<Uri>, uris: set<Uri>) returns (kept: seq<Uri>)
    ensures kept == Wanted(held, uris)
  {
    hide Wanted;
    kept := [];
    var i := 0;
    assert held[i..] == held;
    while i < |held|
      invariant 0 <= i <= |held| && kept + Wanted(held[i..], uris) == Wanted(held, uris)
    {
      WantedFrom(kept, held, i, uris);
      if held[i] in uris { kept := kept + [held[i]]; }
      i := i + 1;
    }
    NoneWanted(uris);
    assert held[i..] == [] && kept + [] == kept;
  }

  lemma NoneWanted(uris: set<Uri>)
    ensures Wanted([], uris) == []
  {
  }

  lemma WantedFrom(kept: seq<Uri>, held: seq<Uri>, i: nat, uris: set<Uri>)
    requires i < |held|
    ensures kept + Wanted(held[i..], uris)
         == (if held[i] in uris then kept + [held[i]] else kept) + Wanted(held[i + 1..], uris)
  {
    assert held[i..][1..] == held[i + 1..] && held[i..][0] == held[i];
    var rest := Wanted(held[i + 1..], uris);
    hide Wanted;
    assert kept + ([held[i]] + rest) == kept + [held[i]] + rest && [] + rest == rest;
  }

  function PickedFor(b: Books, uri: Uri, keys: set<Key>): set<Sid> {
    set key | key in keys && key in b.subscribed && uri in b.subscribed[key].uris && key in b.sessions ::
        b.sessions[key]
  }

  function HoldersOf(b: Books, uri: Uri, keys: set<Key>): set<Key> {
    set key | key in keys && key in b.subscribed && uri in b.subscribed[key].uris && key !in b.sessions &&
        b.subscribed[key].hold
  }

  /** The same for the channels looked at so far. */
  ghost function StreamsIn(channels: map<Channel, map<Key, Sid>>, done: set<Channel>, uri: Uri, uris: map<Sid,
      set<Uri>>): set<Sid> {
    set channel, key | channel in done && channel in channels && key in channels[channel] &&
        channels[channel][key] in uris
                       && uri in uris[channels[channel][key]] :: channels[channel][key]
  }

  lemma StreamsMore(channels: map<Channel, map<Key, Sid>>, done: set<Channel>, channel: Channel, uri: Uri,
      uris: map<Sid, set<Uri>>)
    requires channel in channels
    ensures StreamsIn(channels, done + {channel}, uri, uris) ==
      StreamsIn(channels, done, uri, uris) + set sid | sid in channels[channel].Values && sid in uris &&
          uri in uris[sid]
  {
  }

  lemma StreamsAll(b: Books, uri: Uri, uris: map<Sid, set<Uri>>)
    ensures StreamsIn(b.channels, b.channels.Keys, uri, uris) == set sid | sid in Streams(b) && sid in uris &&
      uri in uris[sid]
  {
  }

  /** HeldFor, for the sessions looked at so far. */
  ghost function HeldForSome(b: Books, uri: Uri, done: set<Key>): Books {
    b.(subscribed := map key | key in b.subscribed :: if key in done then HeldFor(b, uri).subscribed[key]
        else b.subscribed[key])
  }

  lemma PublishStarts(b: Books, uri: Uri)
    ensures HeldForSome(b, uri, {}) == b && HeldForSome(b, uri, b.subscribed.Keys) == HeldFor(b, uri)
    ensures PickedFor(b, uri, {}) == {} && HoldersOf(b, uri, {}) == {}
  {
    assert HeldForSome(b, uri, {}).subscribed == b.subscribed;
    assert HeldForSome(b, uri, b.subscribed.Keys).subscribed == HeldFor(b, uri).subscribed;
  }

  /** One turn of the loop. */
  lemma PublishOne(b: Books, uri: Uri, done: set<Key>, key: Key)
    requires key in b.subscribed && key !in done
    ensures var entry, before, after := b.subscribed[key], HeldForSome(b, uri, done), HeldForSome(b, uri, done + {key});
      && before.subscribed.Keys == b.subscribed.Keys && before.subscribed[key] == entry
      && after == before.(subscribed := before.subscribed[key :=
           if uri in entry.uris && key !in b.sessions && entry.hold then entry.(held := Put(entry.held, uri))
               else entry])
    ensures PickedFor(b, uri, done + {key}) ==
      PickedFor(b, uri, done) + if uri in b.subscribed[key].uris && key in b.sessions then {b.sessions[key]} else {}
    ensures |HoldersOf(b, uri, done + {key})| ==
      |HoldersOf(b, uri, done)| +
          if uri in b.subscribed[key].uris && key !in b.sessions && b.subscribed[key].hold then 1 else 0
  {
    PublishPicked(b, uri, done, key);
    PublishHolders(b, uri, done, key);
  }

  lemma PublishPicked(b: Books, uri: Uri, done: set<Key>, key: Key)
    requires key in b.subscribed && key !in done
    ensures PickedFor(b, uri, done + {key}) ==
      PickedFor(b, uri, done) + if uri in b.subscribed[key].uris && key in b.sessions then {b.sessions[key]} else {}
  {
    forall sid | sid in PickedFor(b, uri, done) ensures sid in PickedFor(b, uri, done + {key}) {
      var k :| k in done && k in b.subscribed && uri in b.subscribed[k].uris && k in b.sessions && b.sessions[k] == sid;
      assert k in done + {key};
    }
    if uri in b.subscribed[key].uris && key in b.sessions { assert key in done + {key}; }
  }

  lemma PublishHolders(b: Books, uri: Uri, done: set<Key>, key: Key)
    requires key in b.subscribed && key !in done
    ensures |HoldersOf(b, uri, done + {key})| ==
      |HoldersOf(b, uri, done)| +
          if uri in b.subscribed[key].uris && key !in b.sessions && b.subscribed[key].hold then 1 else 0
  {
    assert HoldersOf(b, uri, done + {key}) == HoldersOf(b, uri, done) + HoldersOf(b, uri, {key});
    assert HoldersOf(b, uri, {key}) ==
        if uri in b.subscribed[key].uris && key !in b.sessions && b.subscribed[key].hold then {key} else {};
  }

  /** What a sink's lock guards, and whether it has a callback on its way to the loop. */
  class SinkQueue {
    var closed: bool
    var pending: set<Kind>
    var scheduled: bool
    var updates: seq<Uri>
    var updatesScheduled: bool

    constructor ()
      ensures !closed && pending == {} && !scheduled && updates == [] && !updatesScheduled
    {
      closed, pending, scheduled, updates, updatesScheduled := false, {}, false, [], false;
    }

    ghost predicate Is(sink: Sink)
      reads this
    {
      closed == sink.closed && pending == sink.pending && scheduled == sink.scheduled && updates == sink.updates &&
          updatesScheduled == sink.updatesScheduled
    }

    /** request_flush: call means that _arm is to be queued on the loop. */
    method RequestFlush(kind: Kind) returns (call: bool)
      modifies this`pending, this`scheduled
      ensures forall s: State, sid: Sid :: sid in s.sinks && old(Is(s.sinks[sid])) ==>
        Is(Pended(s, sid, {kind}).sinks[sid]) && Pended(s, sid, {kind}).hands == s.hands +
            if call then multiset{AskArm(sid)} else multiset{}
    {
      if closed { return false; }
      pending := pending + {kind};
      if scheduled { return false; }
      scheduled := true;
      return true;
    }

    /** request_update: whether the update will be told, and whether _flush_updates is to be queued on the loop. */
    method RequestUpdate(uri: Uri) returns (taken: bool, call: bool)
      modifies this`updates, this`updatesScheduled
      ensures taken == !closed && (taken ==> uri in updates)
      ensures forall s: State, sid: Sid :: sid in s.sinks && old(Is(s.sinks[sid])) ==>
        Is(Queued(s, sid, uri).sinks[sid]) && Queued(s, sid, uri).hands == s.hands +
            if call then multiset{AskFlush(sid)} else multiset{}
    {
      if closed { return false, false; }
      if uri in updates { return true, false; }
      updates := updates + [uri];
      if updatesScheduled { return true, false; }
      updatesScheduled := true;
      return true, true;
    }

    /** _flush up to deliver. */
    method TakePending() returns (kinds: set<Kind>)
      modifies this`pending, this`scheduled
      ensures kinds == old(pending)
      ensures forall s: State, sid: Sid, order: seq<Kind> :: sid in s.sinks && old(Is(s.sinks[sid])) ==>
        Is(DoFire(s, sid, order).sinks[sid])
    {
      kinds := pending;
      pending, scheduled := {}, false;
    }

    /** _flush_updates up to its loop. */
    method TakeUpdates() returns (uris: seq<Uri>)
      modifies this`updates, this`updatesScheduled
      ensures forall s: State, sid: Sid :: sid in s.sinks && old(Is(s.sinks[sid])) ==>
        Is(DoStartFlush(s, sid).sinks[sid]) && DoStartFlush(s, sid).loop == Flushing(sid, uris, false)
    {
      uris := updates;
      updates, updatesScheduled := [], false;
    }

    /** _close: what was still waiting, taken in the same step. */
    method Close() returns (waiting: seq<Uri>)
      modifies this
      ensures waiting == old(updates)
      ensures forall s: State, sid: Sid :: sid in s.sinks && old(Is(s.sinks[sid])) ==> Is(Closed(s, sid).sinks[sid])
    {
      waiting := updates;
      closed, pending, updates := true, {}, [];
    }
  }
}
