/**
 * Change notification as a state machine (ChangeNotifier and _Sink of easy_mcp/subscriptions.py).
 *
 * Publishers, registrars and subscribers run on any thread and interleave at every lock section; sinks are opened,
 * replaced, dropped and flushed on one event loop, whose operations hold no await and so exclude each other.  One
 * action below is one lock section, one push or one callback.  What a loop operation has still to do is the state's
 * `loop`; what other threads have still to do, and what is queued on the loop, are the tokens of `hands`.  A token
 * may be taken at any time, in any order, which allows every interleaving the threads have.
 */
module Notifier {
  import opened Wrappers

  type Sid = nat
  type Key = nat
  type Channel = nat
  type Client = string
  type Kind = string
  type Uri = string
  type Digest = string
  type Identity = nat
  /** digest(kind, identity): None where it raises. */
  type Lists = (Kind, Identity) -> Option<Digest>

  const MAX_SUBSCRIPTIONS_PER_CLIENT: nat := 8

  datatype Frame = Ack(kinds: set<Kind>, uris: set<Uri>) | Notice(kind: Kind) | Update(uri: Uri) | Final | Cancelled

  /** What of a sink never changes.  A session's channel is its key; a listen stream's key is its subscription id. */
  datatype Recipient = Recipient(
    listen: bool, channel: Channel, key: Key, client: Client, kinds: set<Kind>, uris: set<Uri>, multiplexed: bool)

  datatype Sink = Sink(
    to: Recipient, identity: Identity, closed: bool, pending: set<Kind>, scheduled: bool, baselines: map<Kind, Digest>,
    updates: seq<Uri>, updatesScheduled: bool,
    frames: seq<Frame>)

  /** What one session is subscribed to, and the updates waiting for its sink. */
  datatype Subscriptions = Subscriptions(uris: set<Uri>, held: seq<Uri>, hold: bool)

  /** The notifier's own fields. */
  datatype Books = Books(
    sessions: map<Key, Sid>, channels: map<Channel, map<Key, Sid>>, perClient: map<Client, nat>, listens: nat,
    subscribed: map<Key, Subscriptions>)

  datatype Token =
    | Offer(sid: Sid, uri: Uri)      // about to call request_update
    | Look(key: Key, uri: Uri)       // about to take the lock in _redeliver
    | Announce(kind: Kind)           // a registrar, its change made, about to call changed
    | Tell(sid: Sid, kind: Kind)     // about to call request_flush
    | AskArm(sid: Sid)               // request_flush past its lock, about to call call_soon_threadsafe
    | ArmQueued(sid: Sid)            // _arm on the loop's queue
    | Timer(sid: Sid)                // the debounce window's timer
    | AskFlush(sid: Sid)             // request_update past its lock, about to call call_soon_threadsafe
    | FlushQueued(sid: Sid)          // _flush_updates on the loop's queue

  datatype Loop =
    | Idle
    | Watching(sink: Sink, given: bool, subscriptions: Option<(set<Uri>, bool)>, late: set<Kind>)  // baselines read
    | Replacing(sid: Sid, replaced: Option<Sid>, taken: seq<Uri>, given: bool)                         // registered
    | Requeueing(sid: Sid, rest: seq<Uri>, given: bool)                                           // old one closed
    | Flushing(sid: Sid, rest: seq<Uri>, sending: bool)
    | Delivering(sid: Sid, todo: seq<Kind>)
    | Pushing(sid: Sid, kind: Kind, digest: Digest, todo: seq<Kind>)
    | Opening(sink: Sink, late: set<Kind>)                                                        // baselines read
    | Acking(sid: Sid)                                                                            // registered
    | Closing(sid: Sid, unsent: seq<Uri>, graceful: bool)                                         // unregistered
    | Ending(sid: Sid, finalSent: bool)                                                           // closed

  /**
   * debts and missed are kept for the proofs and read by nothing: the updates published to a session that has not
   * been sent them, and the changed lists a sink was left untold of when it was registered.
   */
  datatype State = State(
    books: Books, sinks: map<Sid, Sink>, loop: Loop, hands: multiset<Token>, lists: Lists, view: Identity -> nat,
    maxTotal: nat,
    debts: set<(Key, Uri)>, missed: set<(Sid, Kind)>)

  datatype Action =
    // on the loop
    | ReadSession(sink: Sink, given: Option<map<Kind, Digest>>, subscriptions: Option<(set<Uri>, bool)>)
    | RegisterSession(sid: Sid)
    | CloseReplaced
    | Requeue(order: seq<Kind>)
    | EndSession(key: Key)
    | CloseUnregistered
    | SendEnd(ok: bool)
    | StartFlush(sid: Sid)
    | StepFlush
    | SendUpdate(ok: bool)
    | Arm(sid: Sid)
    | Fire(sid: Sid, order: seq<Kind>)
    | StepDeliver
    | SendNotice(ok: bool)
    | ReadListen(sink: Sink)
    | RegisterListen(sid: Sid)
    | SendAck(ok: bool)
    | EndListen(sid: Sid, graceful: bool)
    | RefreshIdentity(key: Key, identity: Identity)
    // on any thread
    | Subscribe(key: Key, uri: Uri, cap: nat)
    | Unsubscribe(key: Key, uri: Uri)
    | SetSubscriptions(key: Key, uris: set<Uri>, hold: bool)
    | AddSubscription(key: Key, uri: Uri, hold: bool)
    | ForgetSession(key: Key)
    | Publish(uri: Uri)
    | TakeOffer(sid: Sid, uri: Uri)
    | TakeLook(key: Key, uri: Uri)
    | ChangeList(kind: Kind, lists: Lists)
    | TakeAnnounce(kind: Kind)
    | TakeTell(sid: Sid, kind: Kind)
    | CallArm(sid: Sid)
    | CallFlush(sid: Sid)

  // ------------------------------------------------------------- the books

  ghost predicate Registered(b: Books, sid: Sid, to: Recipient) {
    if to.listen then to.channel in b.channels && to.key in b.channels[to.channel] &&
        b.channels[to.channel][to.key] == sid
    else to.key in b.sessions && b.sessions[to.key] == sid
  }

  predicate Watches(b: Books, key: Key, uri: Uri) {
    key in b.subscribed && uri in b.subscribed[key].uris
  }

  function Put(s: seq<Uri>, uri: Uri): (r: seq<Uri>)
    ensures forall u :: u in r <==> u in s || u == uri
  {
    if uri in s then s else s + [uri]
  }

  /** dict.fromkeys(a + b). */
  function Merged(a: seq<Uri>, b: seq<Uri>): (r: seq<Uri>)
    ensures forall u :: u in r <==> u in a || u in b
    decreases |b|
  {
    if b == [] then a else Merged(Put(a, b[0]), b[1..])
  }

  function Wanted(held: seq<Uri>, uris: set<Uri>): (r: seq<Uri>)
    ensures forall u :: u in r <==> u in held && u in uris
  {
    if held == [] then [] else (if held[0] in uris then [held[0]] else []) + Wanted(held[1..], uris)
  }

  /** _set_subscriptions. */
  function SetTo(b: Books, key: Key, uris: set<Uri>, hold: bool): Books {
    if uris == {} || (!hold && key !in b.sessions) then b.(subscribed := b.subscribed - {key})
    else
      var held := if key in b.subscribed then b.subscribed[key].held else [];
      b.(subscribed := b.subscribed[key := Subscriptions(uris, Wanted(held, uris), hold)])
  }

  function Added(b: Books, key: Key, uri: Uri, hold: bool): Books {
    if !hold && key !in b.sessions then b
    else
      var entry := if key in b.subscribed then b.subscribed[key] else Subscriptions({}, [], hold);
      b.(subscribed := b.subscribed[key := Subscriptions(entry.uris + {uri}, entry.held, hold)])
  }

  function SubscribedTo(b: Books, key: Key, uri: Uri, cap: nat): Books {
    var entry := if key in b.subscribed then b.subscribed[key] else Subscriptions({}, [], true);
    if uri in entry.uris || |entry.uris| >= cap then b.(subscribed := b.subscribed[key := entry])
    else b.(subscribed := b.subscribed[key := entry.(uris := entry.uris + {uri})])
  }

  function UnsubscribedFrom(b: Books, key: Key, uri: Uri): Books {
    if key !in b.subscribed then b
    else
      var entry := b.subscribed[key];
      if entry.uris - {uri} == {} then b.(subscribed := b.subscribed - {key})
      else b.(subscribed :=
          b.subscribed[key := entry.(uris := entry.uris - {uri}, held := Wanted(entry.held, entry.uris - {uri}))])
  }

  /** Every session that watches the URI and has no sink here keeps the update, if it keeps any. */
  function HeldFor(b: Books, uri: Uri): Books {
    b.(subscribed := map key | key in b.subscribed ::
      var entry := b.subscribed[key];
      if uri in entry.uris && key !in b.sessions && entry.hold then entry.(held := Put(entry.held, uri)) else entry)
  }

  /** A session sink leaves the books, and what is kept only while there is one with it. */
  function WithoutSession(b: Books, key: Key): Books {
    b.(sessions := b.sessions - {key},
       subscribed := if key in b.subscribed && !b.subscribed[key].hold then b.subscribed - {key} else b.subscribed)
  }

  function WithoutStream(b: Books, to: Recipient): Books {
    if to.channel !in b.channels then b
    else
      var streams := b.channels[to.channel] - {to.key};
      b.(channels := if streams == map[] then b.channels - {to.channel} else b.channels[to.channel := streams],
         perClient := if ClientCount(b, to.client) <= 1 then b.perClient - {to.client}
                      else b.perClient[to.client := ClientCount(b, to.client) - 1],
         listens := if b.listens == 0 then 0 else b.listens - 1)
  }

  function Unregistered(b: Books, to: Recipient): Books {
    if to.listen then WithoutStream(b, to) else WithoutSession(b, to.key)
  }

  function ClientCount(b: Books, client: Client): nat {
    if client in b.perClient then b.perClient[client] else 0
  }

  /** Why open refuses a stream, if it does. */
  predicate Refused(b: Books, to: Recipient, maxTotal: nat) {
    || (to.channel in b.channels && to.key in b.channels[to.channel])
    || ClientCount(b, to.client) >= MAX_SUBSCRIPTIONS_PER_CLIENT
    || b.listens >= maxTotal
  }

  function WithStream(b: Books, sid: Sid, to: Recipient): Books {
    var streams := if to.channel in b.channels then b.channels[to.channel] else map[];
    b.(channels := b.channels[to.channel := streams[to.key := sid]],
       perClient := b.perClient[to.client := ClientCount(b, to.client) + 1],
       listens := b.listens + 1)
  }

  function Streams(b: Books): set<Sid> {
    set channel, key | channel in b.channels && key in b.channels[channel] :: b.channels[channel][key]
  }

  // -------------------------------------------------------------- the sinks

  /** request_update; only a sink that is not closed takes the update. */
  ghost function Queued(s: State, sid: Sid, uri: Uri): State
    requires sid in s.sinks
  {
    var sink := s.sinks[sid];
    if sink.closed || uri in sink.updates then s
    else s.(sinks := s.sinks[sid := sink.(updates := sink.updates + [uri], updatesScheduled := true)],
            hands := if sink.updatesScheduled then s.hands else s.hands + multiset{AskFlush(sid)})
  }

  /** request_flush for several kinds. */
  ghost function Pended(s: State, sid: Sid, kinds: set<Kind>): State
    requires sid in s.sinks
  {
    var sink := s.sinks[sid];
    if sink.closed || kinds == {} then s
    else s.(sinks := s.sinks[sid := sink.(pending := sink.pending + kinds, scheduled := true)],
            hands := if sink.scheduled then s.hands else s.hands + multiset{AskArm(sid)},
            missed := set m | m in s.missed && !(m.0 == sid && m.1 in kinds))
  }

  /** _close: nothing runs for it from now on. */
  ghost function Closed(s: State, sid: Sid): State
    requires sid in s.sinks
  {
    s.(sinks := s.sinks[sid := s.sinks[sid].(closed := true, pending := {}, updates := [])],
       hands := s.hands[Timer(sid) := 0])
  }

  /** The books change, and what was owed to sessions that no longer watch a URI is owed no more. */
  ghost function Booked(s: State, b: Books): State {
    s.(books := b, debts := set d | d in s.debts && Watches(b, d.0, d.1))
  }

  /** drop and end: a sink still registered leaves the books; it is closed in the next step. */
  ghost function Dropped(s: State, sid: Sid, unsent: seq<Uri>, graceful: bool): State
    requires sid in s.sinks
  {
    if !Registered(s.books, sid, s.sinks[sid].to) then s.(loop := Idle)
    else Booked(s, Unregistered(s.books, s.sinks[sid].to)).(loop := Closing(sid, unsent, graceful))
  }

  ghost function Framed(s: State, sid: Sid, frame: Frame): State
    requires sid in s.sinks
  {
    s.(sinks := s.sinks[sid := s.sinks[sid].(frames := s.sinks[sid].frames + [frame])])
  }

  ghost predicate Unused(sink: Sink) {
    !sink.closed && sink.pending == {} && !sink.scheduled && sink.updates == [] && !sink.updatesScheduled &&
        sink.frames == []
  }

  /** The lists that can be computed, and what they are. */
  ghost function Computed(lists: Lists, kinds: set<Kind>, identity: Identity): (r: map<Kind, Digest>)
    ensures r.Keys <= kinds
  {
    map kind | kind in kinds && lists(kind, identity).Some? :: lists(kind, identity).value
  }

  ghost predicate Lists1(s: State, kind: Kind, lists: Lists) {
    && (forall k, i :: k != kind ==> lists(k, i) == s.lists(k, i))
    && RespectsView(lists, s.view)
  }

  /** Two identities with the same view see the same lists. */
  ghost predicate RespectsView(lists: Lists, view: Identity -> nat) {
    forall k, i, j :: view(i) == view(j) ==> lists(k, i) == lists(k, j)
  }

  ghost predicate Spells(order: seq<Kind>, kinds: set<Kind>) {
    forall k :: k in order <==> k in kinds
  }

  ghost predicate OnLoop(a: Action) {
    match a
    case ReadSession(_, _, _) | RegisterSession(_) | CloseReplaced | Requeue(_) | EndSession(_) | CloseUnregistered |
        SendEnd(_)
       | StartFlush(_) | StepFlush | SendUpdate(_) | Arm(_) | Fire(_, _) | StepDeliver | SendNotice(_) | ReadListen(_)
       | RegisterListen(_) | SendAck(_) | EndListen(_, _) | RefreshIdentity(_, _) => true
    case _ => false
  }

  // -------------------------------------------------------------- the actions

  ghost predicate Enabled(s: State, a: Action) {
    match a
    case ReadSession(sink, _, _) => s.loop.Idle? && Unused(sink) && !sink.to.listen &&
        sink.to.channel == sink.to.key && sink.to.uris == {}
    case RegisterSession(sid) => s.loop.Watching? && sid !in s.sinks
    case CloseReplaced => s.loop.Replacing?
    case Requeue(order) => s.loop.Requeueing? && (s.loop.sid in s.sinks ==> Spells(order, s.sinks[s.loop.sid].to.kinds))
    case EndSession(key) => s.loop.Idle? && key in s.books.sessions && s.books.sessions[key] in s.sinks
    case CloseUnregistered => s.loop.Closing? && s.loop.sid in s.sinks
    case SendEnd(_) => s.loop.Ending? && s.loop.sid in s.sinks
    case StartFlush(sid) => s.loop.Idle? && FlushQueued(sid) in s.hands && sid in s.sinks
    case StepFlush => s.loop.Flushing? && !s.loop.sending && s.loop.sid in s.sinks
    case SendUpdate(_) => s.loop.Flushing? && s.loop.sending && s.loop.rest != [] && s.loop.sid in s.sinks
    case Arm(sid) => s.loop.Idle? && ArmQueued(sid) in s.hands && sid in s.sinks
    case Fire(sid, order) => s.loop.Idle? && Timer(sid) in s.hands && sid in s.sinks &&
        Spells(order, s.sinks[sid].pending)
    case StepDeliver => s.loop.Delivering? && s.loop.sid in s.sinks
    case SendNotice(_) => s.loop.Pushing? && s.loop.sid in s.sinks
    case ReadListen(sink) => s.loop.Idle? && Unused(sink) && sink.to.listen
    case RegisterListen(sid) => s.loop.Opening? && sid !in s.sinks
    case SendAck(_) => s.loop.Acking? && s.loop.sid in s.sinks
    case EndListen(sid, _) => s.loop.Idle? && sid in s.sinks && s.sinks[sid].to.listen
    case RefreshIdentity(key, _) => s.loop.Idle? && key in s.books.sessions && s.books.sessions[key] in s.sinks
    case TakeOffer(sid, uri) => Offer(sid, uri) in s.hands && sid in s.sinks
    case TakeLook(key, uri) => Look(key, uri) in s.hands
    case ChangeList(kind, lists) => Lists1(s, kind, lists)
    case TakeAnnounce(kind) => Announce(kind) in s.hands
    case TakeTell(sid, kind) => Tell(sid, kind) in s.hands && sid in s.sinks
    case CallArm(sid) => AskArm(sid) in s.hands
    case CallFlush(sid) => AskFlush(sid) in s.hands
    case Subscribe(_, _, cap) => cap > 0
    case _ => true
  }

  ghost function Do(s: State, a: Action): State
    requires Enabled(s, a)
  {
    if OnLoop(a) then DoOnLoop(s, a) else DoAnywhere(s, a)
  }

  ghost function DoOnLoop(s: State, a: Action): State
    requires Enabled(s, a) && OnLoop(a)
  {
    match a
    case ReadSession(sink, given, subscriptions) => DoReadSession(s, sink, given, subscriptions)
    case RegisterSession(sid) => DoRegisterSession(s, sid)
    case CloseReplaced => DoCloseReplaced(s)
    case Requeue(order) => DoRequeue(s, order)
    case EndSession(key) => Dropped(s, s.books.sessions[key], [], false)
    case CloseUnregistered => DoCloseUnregistered(s)
    case SendEnd(ok) => DoSendEnd(s, ok)
    case StartFlush(sid) => DoStartFlush(s, sid)
    case StepFlush => DoStepFlush(s)
    case SendUpdate(ok) => DoSendUpdate(s, ok)
    case Arm(sid) => s.(hands := s.hands - multiset{ArmQueued(sid)} +
        if s.sinks[sid].closed then multiset{} else multiset{Timer(sid)})
    case Fire(sid, order) => DoFire(s, sid, order)
    case StepDeliver => DoStepDeliver(s)
    case SendNotice(ok) => DoSendNotice(s, ok)
    case ReadListen(sink) =>
      var baselines := Computed(s.lists, sink.to.kinds, sink.identity);
      s.(loop := Opening(sink.(to := sink.to.(kinds := baselines.Keys), baselines := baselines), {}))
    case RegisterListen(sid) => DoRegisterListen(s, sid)
    case SendAck(ok) =>
      var sink := s.sinks[s.loop.sid];
      if ok then Framed(s, s.loop.sid, Ack(sink.to.kinds, sink.to.uris)).(loop := Idle)
          else Dropped(s, s.loop.sid, [], false)
    case EndListen(sid, graceful) => Dropped(s, sid, [], graceful)
    case RefreshIdentity(key, identity) => DoRefreshIdentity(s, s.books.sessions[key], identity)
  }

  ghost function DoAnywhere(s: State, a: Action): State
    requires Enabled(s, a) && !OnLoop(a)
  {
    match a
    case Subscribe(key, uri, cap) => Booked(s, SubscribedTo(s.books, key, uri, cap))
    case Unsubscribe(key, uri) => Booked(s, UnsubscribedFrom(s.books, key, uri))
    case SetSubscriptions(key, uris, hold) => Booked(s, SetTo(s.books, key, uris, hold))
    case AddSubscription(key, uri, hold) => Booked(s, Added(s.books, key, uri, hold))
    case ForgetSession(key) => Booked(s, s.books.(subscribed := s.books.subscribed - {key}))
    case Publish(uri) => DoPublish(s, uri)
    case TakeOffer(sid, uri) => DoTakeOffer(s, sid, uri)
    case TakeLook(key, uri) => DoTakeLook(s, key, uri)
    case ChangeList(kind, lists) => s.(lists := lists, hands := s.hands + multiset{Announce(kind)})
    case TakeAnnounce(kind) => DoTakeAnnounce(s, kind)
    case TakeTell(sid, kind) => Pended(s.(hands := s.hands - multiset{Tell(sid, kind)}), sid, {kind})
    case CallArm(sid) => s.(hands := s.hands - multiset{AskArm(sid)} + multiset{ArmQueued(sid)})
    case CallFlush(sid) => s.(hands := s.hands - multiset{AskFlush(sid)} + multiset{FlushQueued(sid)})
  }

  /** _watch_session up to the notifier's lock: only lists that can be computed are watched. */
  ghost function DoReadSession(s: State, sink: Sink, given: Option<map<Kind, Digest>>,
      subscriptions: Option<(set<Uri>, bool)>): State {
    var asked := if given.Some? then sink.to.kinds * given.value.Keys else sink.to.kinds;
    var current := Computed(s.lists, asked, sink.identity);
    var baselines := if given.Some? then map kind | kind in current :: given.value[kind] else current;
    s.(loop := Watching(sink.(to := sink.to.(kinds := current.Keys), baselines := baselines), given.Some?,
        subscriptions, {}))
  }

  /** The list the sink's identity sees now is the one it was last told of. */
  ghost predicate UpToDate(sink: Sink, lists: Lists, kind: Kind) {
    kind in sink.baselines && lists(kind, sink.identity) == Some(sink.baselines[kind])
  }

  /** The changes of watched lists that were announced before the sink is there to hear of them. */
  ghost function Overlooked(s: State, sid: Sid, sink: Sink, late: set<Kind>): set<(Sid, Kind)> {
    set kind | kind in late && kind in sink.to.kinds && Announce(kind) !in s.hands && !UpToDate(sink, s.lists, kind) ::
        (sid, kind)
  }

  /** watch_session's lock section. */
  ghost function DoRegisterSession(s: State, sid: Sid): State
    requires s.loop.Watching?
  {
    var sink, key := s.loop.sink, s.loop.sink.to.key;
    var replaced := if key in s.books.sessions then Some(s.books.sessions[key]) else None;
    var b0 := s.books.(sessions := s.books.sessions[key := sid]);
    var b1 := match s.loop.subscriptions case None => b0 case Some(given) => SetTo(b0, key, given.0, given.1);
    var taken := if key in b1.subscribed then b1.subscribed[key].held else [];
    var b2 := if key in b1.subscribed then b1.(subscribed := b1.subscribed[key := b1.subscribed[key].(held := [])])
        else b1;
    Booked(s, b2).(
      sinks := s.sinks[sid := sink],
      missed := s.missed + if s.loop.given then {} else Overlooked(s, sid, sink, s.loop.late),
      loop := Replacing(sid, replaced, taken, s.loop.given))
  }

  /** The replaced sink closes, and what it had yet to send goes to the new one. */
  ghost function DoCloseReplaced(s: State): State
    requires s.loop.Replacing?
  {
    match s.loop.replaced
    case Some(replaced) =>
      if replaced !in s.sinks then s
      else Closed(s, replaced).(loop :=
          Requeueing(s.loop.sid, Merged(s.sinks[replaced].updates, s.loop.taken), s.loop.given))
    case None => s.(loop := Requeueing(s.loop.sid, s.loop.taken, s.loop.given))
  }

  ghost function DoRequeue(s: State, order: seq<Kind>): State
    requires s.loop.Requeueing?
  {
    var sid := s.loop.sid;
    if sid !in s.sinks then s
    else if s.loop.rest == [] then s.(loop := if s.loop.given then Delivering(sid, order) else Idle)
    else Queued(s, sid, s.loop.rest[0]).(loop := Requeueing(sid, s.loop.rest[1..], s.loop.given))
  }

  /** _close for a sink that has left the books; a session's unsent updates are redelivered. */
  ghost function DoCloseUnregistered(s: State): State
    requires s.loop.Closing? && s.loop.sid in s.sinks
  {
    var sid, sink := s.loop.sid, s.sinks[s.loop.sid];
    var after := Closed(s, sid);
    if sink.to.listen then after.(loop := if s.loop.graceful then Ending(sid, false) else Idle)
    else after.(loop := Idle,
                hands := after.hands +
                    multiset(set uri | uri in s.loop.unsent + sink.updates :: Look(sink.to.key, uri)))
  }

  ghost function DoSendEnd(s: State, ok: bool): State
    requires s.loop.Ending? && s.loop.sid in s.sinks
  {
    var sid := s.loop.sid;
    if !ok then s.(loop := Idle)
    else if s.loop.finalSent then Framed(s, sid, Cancelled).(loop := Idle)
    else Framed(s, sid, Final).(loop := if s.sinks[sid].to.multiplexed then Ending(sid, true) else Idle)
  }

  ghost function DoStartFlush(s: State, sid: Sid): State
    requires sid in s.sinks
  {
    s.(hands := s.hands - multiset{FlushQueued(sid)},
       sinks := s.sinks[sid := s.sinks[sid].(updates := [], updatesScheduled := false)],
       loop := Flushing(sid, s.sinks[sid].updates, false))
  }

  ghost function DoStepFlush(s: State): State
    requires s.loop.Flushing? && s.loop.sid in s.sinks
  {
    var sid, rest, sink := s.loop.sid, s.loop.rest, s.sinks[s.loop.sid];
    if rest == [] || sink.closed then s.(loop := Idle)
    else if (if sink.to.listen then rest[0] in sink.to.uris else Watches(s.books, sink.to.key, rest[0]))
    then s.(loop := Flushing(sid, rest, true))
    else s.(loop := Flushing(sid, rest[1..], false))
  }

  ghost function DoSendUpdate(s: State, ok: bool): State
    requires s.loop.Flushing? && s.loop.rest != [] && s.loop.sid in s.sinks
  {
    var sid, rest, sink := s.loop.sid, s.loop.rest, s.sinks[s.loop.sid];
    if !ok then Dropped(s, sid, rest, false)
    else Framed(s, sid, Update(rest[0])).(
      loop := Flushing(sid, rest[1..], false),
      debts := if sink.to.listen then s.debts else s.debts - {(sink.to.key, rest[0])})
  }

  /** The debounce window closes. */
  ghost function DoFire(s: State, sid: Sid, order: seq<Kind>): State
    requires sid in s.sinks
  {
    s.(hands := s.hands - multiset{Timer(sid)},
       sinks := s.sinks[sid := s.sinks[sid].(pending := {}, scheduled := false)],
       loop := Delivering(sid, order))
  }

  /** One turn of deliver's loop, up to the push. */
  ghost function DoStepDeliver(s: State): State
    requires s.loop.Delivering? && s.loop.sid in s.sinks
  {
    var sid, todo, sink := s.loop.sid, s.loop.todo, s.sinks[s.loop.sid];
    if todo == [] || sink.closed then s.(loop := Idle)
    else match s.lists(todo[0], sink.identity)
      case None => Dropped(s, sid, [], sink.to.listen)
      case Some(digest) =>
        if todo[0] in sink.baselines && sink.baselines[todo[0]] == digest then s.(loop := Delivering(sid, todo[1..]))
        else s.(loop := Pushing(sid, todo[0], digest, todo[1..]))
  }

  ghost function DoSendNotice(s: State, ok: bool): State
    requires s.loop.Pushing? && s.loop.sid in s.sinks
  {
    var sid, kind := s.loop.sid, s.loop.kind;
    if !ok then Dropped(s, sid, [], false)
    else
      var sink := s.sinks[sid];
      s.(sinks := s.sinks[sid :=
          sink.(frames := sink.frames + [Notice(kind)], baselines := sink.baselines[kind := s.loop.digest])],
         loop := Delivering(sid, s.loop.todo))
  }

  /** open's lock section: register the stream, or refuse it. */
  ghost function DoRegisterListen(s: State, sid: Sid): State
    requires s.loop.Opening?
  {
    var sink := s.loop.sink;
    if Refused(s.books, sink.to, s.maxTotal) then s.(loop := Idle)
    else s.(books := WithStream(s.books, sid, sink.to), sinks := s.sinks[sid := sink], loop := Acking(sid),
            missed := s.missed + Overlooked(s, sid, sink, s.loop.late))
  }

  ghost function DoRefreshIdentity(s: State, sid: Sid, identity: Identity): State
    requires sid in s.sinks
  {
    var sink := s.sinks[sid];
    var s1 := s.(sinks := s.sinks[sid := sink.(identity := identity)]);
    if s.view(sink.identity) == s.view(identity) then s1
    else Pended(s.(sinks := s.sinks[sid := sink.(identity := identity, baselines := map[])]), sid, sink.to.kinds)
  }

  /** publish_resource_updated's lock section. */
  ghost function DoPublish(s: State, uri: Uri): State {
    var b := s.books;
    var picked := set key | key in b.subscribed && uri in b.subscribed[key].uris && key in b.sessions ::
        Offer(b.sessions[key], uri);
    var streams := set sid | sid in Streams(b) && sid in s.sinks && uri in s.sinks[sid].to.uris :: Offer(sid, uri);
    s.(books := HeldFor(b, uri),
       hands := s.hands + multiset(picked) + multiset(streams),
       debts := s.debts + set key | key in b.subscribed && uri in b.subscribed[key].uris :: (key, uri))
  }

  /** request_update by a publisher: a session's sink that refuses it has the update looked after. */
  ghost function DoTakeOffer(s: State, sid: Sid, uri: Uri): State
    requires sid in s.sinks
  {
    var sink, s1 := s.sinks[sid], s.(hands := s.hands - multiset{Offer(sid, uri)});
    if !sink.closed then Queued(s1, sid, uri)
    else if sink.to.listen then s1
    else s1.(hands := s1.hands + multiset{Look(sink.to.key, uri)})
  }

  /** _redeliver's lock section. */
  ghost function DoTakeLook(s: State, key: Key, uri: Uri): State {
    var s1 := s.(hands := s.hands - multiset{Look(key, uri)});
    if !Watches(s.books, key, uri) then s1
    else if key in s.books.sessions then s1.(hands := s1.hands + multiset{Offer(s.books.sessions[key], uri)})
    else
      var entry := s.books.subscribed[key];
      if !entry.hold then s1
      else s1.(books := s.books.(subscribed := s.books.subscribed[key := entry.(held := Put(entry.held, uri))]))
  }

  /** changed's lock section: every recipient that may care. */
  ghost function DoTakeAnnounce(s: State, kind: Kind): State {
    var sids := s.books.sessions.Values + Streams(s.books);
    var s1 := s.(hands := s.hands - multiset{Announce(kind)} +
                          multiset(set sid | sid in sids && sid in s.sinks && kind in s.sinks[sid].to.kinds ::
                              Tell(sid, kind)));
    match s.loop
    case Watching(sink, given, subscriptions, late) => s1.(loop := Watching(sink, given, subscriptions, late + {kind}))
    case Opening(sink, late) => s1.(loop := Opening(sink, late + {kind}))
    case _ => s1
  }

  // ------------------------------------------------------------------- runs

  ghost predicate Initial(s: State) {
    && s.books == Books(map[], map[], map[], 0, map[])
    && s.sinks == map[] && s.loop == Idle && s.hands == multiset{} && s.debts == {} && s.missed == {}
    && RespectsView(s.lists, s.view)
  }

  /** Where a sequence of actions leads, if each is enabled when it comes. */
  ghost predicate Leads(s: State, run: seq<Action>, t: State)
    decreases |run|
  {
    if run == [] then t == s else Enabled(s, run[0]) && Leads(Do(s, run[0]), run[1..], t)
  }

  ghost predicate Reachable(t: State) {
    exists s, run :: Initial(s) && Leads(s, run, t)
  }
}
