/** What a session is subscribed to, which streams are refused, and how a stream the server ends is told so. */
module NotifierWatches {
  import opened Wrappers
  import opened Notifier
  import opened NotifierBooks
  import opened NotifierPushes
  import opened NotifierFrames

  // ------------------------------------------------------ what is watched

  /** How many URIs the session watches. */
  ghost function WatchedBy(b: Books, key: Key): nat {
    if key in b.subscribed then |b.subscribed[key].uris| else 0
  }

  /** The session's sink here leaves the books by the step, and its subscriptions are kept only while one is here. */
  ghost predicate EndsWithItsSink(s: State, t: State, key: Key) {
    key in s.books.sessions && key !in t.books.sessions && key in s.books.subscribed && !s.books.subscribed[key].hold
  }

  /** Whether the session watches the URI after the step. */
  ghost predicate WatchesThen(s: State, a: Action, key: Key, uri: Uri)
    requires Enabled(s, a)
  {
    match a
    case Subscribe(of, asked, cap) =>
      Watches(s.books, key, uri) || (of == key && asked == uri && WatchedBy(s.books, key) < cap)
    case Unsubscribe(of, asked) => Watches(s.books, key, uri) && !(of == key && asked == uri)
    case SetSubscriptions(of, uris, hold) =>
      if of == key then uri in uris && (hold || key in s.books.sessions) else Watches(s.books, key, uri)
    case AddSubscription(of, asked, hold) =>
      Watches(s.books, key, uri) || (of == key && asked == uri && (hold || key in s.books.sessions))
    case ForgetSession(of) => Watches(s.books, key, uri) && of != key
    case RegisterSession(_) =>
      if s.loop.sink.to.key == key && s.loop.subscriptions.Some? then uri in s.loop.subscriptions.value.0
      else Watches(s.books, key, uri)
    case _ => Watches(s.books, key, uri) && !EndsWithItsSink(s, Do(s, a), key)
  }

  lemma WatchesSet(b: Books, of: Key, uris: set<Uri>, hold: bool, key: Key, uri: Uri)
    ensures Watches(SetTo(b, of, uris, hold), key, uri) <==>
      if of == key then uri in uris && (hold || key in b.sessions) else Watches(b, key, uri)
  {
    hide Wanted;
  }

  lemma WatchesTaken(b: Books, of: Key, asked: Uri, key: Key, uri: Uri)
    ensures Watches(UnsubscribedFrom(b, of, asked), key, uri) <==>
      Watches(b, key, uri) && !(of == key && asked == uri)
  {
    hide Wanted;
    if of in b.subscribed && of == key {
      assert uri in b.subscribed[of].uris - {asked} <==> uri in b.subscribed[of].uris && uri != asked;
    }
  }

  lemma WatchesAsked(b: Books, of: Key, asked: Uri, cap: nat, key: Key, uri: Uri)
    ensures Watches(SubscribedTo(b, of, asked, cap), key, uri) <==>
      Watches(b, key, uri) || (of == key && asked == uri && WatchedBy(b, key) < cap)
  {
  }

  lemma WatchesAdded(b: Books, of: Key, asked: Uri, hold: bool, key: Key, uri: Uri)
    ensures Watches(Added(b, of, asked, hold), key, uri) <==>
      Watches(b, key, uri) || (of == key && asked == uri && (hold || key in b.sessions))
  {
  }

  lemma WatchesSubscribed(s: State, a: Action, key: Key, uri: Uri)
    requires Core(s) && Enabled(s, a) && Subscribes(a)
    ensures Watches(Do(s, a).books, key, uri) <==> WatchesThen(s, a, key, uri)
  {
    hide Core, Do, SetTo, UnsubscribedFrom, SubscribedTo, Added, WatchedBy;
    CoreSubscribes(s, a);
    match a
    case Subscribe(of, asked, cap) => WatchesAsked(s.books, of, asked, cap, key, uri);
    case Unsubscribe(of, asked) => WatchesTaken(s.books, of, asked, key, uri);
    case SetSubscriptions(of, uris, hold) => WatchesSet(s.books, of, uris, hold, key, uri);
    case AddSubscription(of, asked, hold) => WatchesAdded(s.books, of, asked, hold, key, uri);
    case ForgetSession(_) =>
  }

  lemma WatchesRegistered(s: State, sid: Sid, key: Key, uri: Uri)
    requires s.loop.Watching? && Enabled(s, RegisterSession(sid))
    ensures Watches(DoRegisterSession(s, sid).books, key, uri) <==> WatchesThen(s, RegisterSession(sid), key, uri)
  {
    hide SetTo, Overlooked;
    var of, b0 := s.loop.sink.to.key, s.books.(sessions := s.books.sessions[s.loop.sink.to.key := sid]);
    if s.loop.subscriptions.Some? {
      var given := s.loop.subscriptions.value;
      WatchesSet(b0, of, given.0, given.1, key, uri);
    }
  }

  lemma WatchesDropped(s: State, sid: Sid, unsent: seq<Uri>, graceful: bool, key: Key, uri: Uri)
    requires sid in s.sinks
    ensures var t := Dropped(s, sid, unsent, graceful);
      Watches(t.books, key, uri) <==> Watches(s.books, key, uri) && !EndsWithItsSink(s, t, key)
  {
    hide WithoutStream;
    if s.sinks[sid].to.listen { StreamsAside(s.books, s.sinks[sid].to); }
  }

  lemma StreamsAside(b: Books, to: Recipient)
    ensures WithoutStream(b, to).sessions == b.sessions && WithoutStream(b, to).subscribed == b.subscribed
  {
  }

  lemma WatchesDrops(s: State, a: Action, key: Key, uri: Uri)
    requires Enabled(s, a) && Drops(s, a)
    ensures Watches(Do(s, a).books, key, uri) <==> WatchesThen(s, a, key, uri)
  {
    hide Dropped, Registered, Watches, EndsWithItsSink;
    match a
    case EndSession(of) => WatchesDropped(s, s.books.sessions[of], [], false, key, uri);
    case EndListen(sid, graceful) => WatchesDropped(s, sid, [], graceful, key, uri);
    case SendUpdate(_) => WatchesDropped(s, s.loop.sid, s.loop.rest, false, key, uri);
    case StepDeliver => WatchesDropped(s, s.loop.sid, [], s.sinks[s.loop.sid].to.listen, key, uri);
    case SendNotice(_) => WatchesDropped(s, s.loop.sid, [], false, key, uri);
    case SendAck(_) => WatchesDropped(s, s.loop.sid, [], false, key, uri);
  }

  /** Nobody subscribes, and no sink of a session leaves or comes. */
  ghost predicate SameWatch(b: Books, after: Books, key: Key, uri: Uri) {
    (Watches(after, key, uri) <==> Watches(b, key, uri)) && after.sessions == b.sessions
  }

  lemma WatchesOnLoop(s: State, a: Action, key: Key, uri: Uri)
    requires Enabled(s, a) && !Drops(s, a) && OnLoop(a) && !a.RegisterSession?
    ensures SameWatch(s.books, Do(s, a).books, key, uri)
  {
    hide SameWatch;
    if a.RegisterListen? { hide Refused, Overlooked; BooksAside(s.books, Do(s, a).books, key, uri); }
    else {
      hide Registered, Computed, Merged, RespectsView, Spells, Unused, Watches;
      assert Do(s, a).books == s.books;
      BooksAside(s.books, s.books, key, uri);
    }
  }

  lemma BooksAside(b: Books, after: Books, key: Key, uri: Uri)
    requires after.subscribed == b.subscribed && after.sessions == b.sessions
    ensures SameWatch(b, after, key, uri)
  {
  }

  /** What is held may change. */
  lemma WatchesPublished(b: Books, published: Uri, key: Key, uri: Uri)
    ensures SameWatch(b, HeldFor(b, published), key, uri)
  {
    hide Put;
  }

  lemma WatchesHeld(b: Books, of: Key, held: seq<Uri>, key: Key, uri: Uri)
    requires of in b.subscribed
    ensures SameWatch(b, b.(subscribed := b.subscribed[of := b.subscribed[of].(held := held)]), key, uri)
  {
  }

  lemma WatchesLook(s: State, of: Key, looked: Uri, key: Key, uri: Uri)
    ensures SameWatch(s.books, DoTakeLook(s, of, looked).books, key, uri)
  {
    hide SameWatch, Put;
    if of in s.books.subscribed {
      WatchesHeld(s.books, of, Put(s.books.subscribed[of].held, looked), key, uri);
    }
    BooksAside(s.books, s.books, key, uri);
  }

  lemma WatchesElsewhere(s: State, a: Action, key: Key, uri: Uri)
    requires Enabled(s, a) && !OnLoop(a) && !Subscribes(a)
    ensures SameWatch(s.books, Do(s, a).books, key, uri)
  {
    hide SameWatch, Lists1, Streams, HeldFor, DoTakeLook;
    if a.Publish? { WatchesPublished(s.books, a.uri, key, uri); }
    else if a.TakeLook? { WatchesLook(s, a.key, a.uri, key, uri); }
    else {
      assert Do(s, a).books == s.books;
      BooksAside(s.books, s.books, key, uri);
    }
  }

  lemma WatchesOn(s: State, a: Action, key: Key, uri: Uri)
    requires Enabled(s, a) && !Drops(s, a) && !Subscribes(a) && !a.RegisterSession?
    ensures Watches(Do(s, a).books, key, uri) <==> Watches(s.books, key, uri)
    ensures Do(s, a).books.sessions == s.books.sessions
  {
    hide Do, Watches;
    if OnLoop(a) { WatchesOnLoop(s, a, key, uri); } else { WatchesElsewhere(s, a, key, uri); }
  }

  /**
   * What a session watches changes by being subscribed, up to the cap, or unsubscribed, by being given a whole set,
   * or by being forgotten; a sink that leaves takes it along only where it is kept elsewhere.
   */
  lemma WhatIsWatched(s: State, a: Action, key: Key, uri: Uri)
    requires Core(s) && Enabled(s, a)
    ensures Watches(Do(s, a).books, key, uri) <==> WatchesThen(s, a, key, uri)
  {
    hide Core, Do, Watches;
    if Subscribes(a) { WatchesSubscribed(s, a, key, uri); }
    else if Drops(s, a) { WatchesDrops(s, a, key, uri); }
    else if a.RegisterSession? { RegisterIs(s, a.sid); WatchesRegistered(s, a.sid, key, uri); }
    else { WatchesOn(s, a, key, uri); }
  }

  lemma RegisterIs(s: State, sid: Sid)
    requires Enabled(s, RegisterSession(sid))
    ensures Do(s, RegisterSession(sid)) == DoRegisterSession(s, sid)
  {
    hide DoRegisterSession;
  }

  // ------------------------------------------- whose updates wait for a sink

  /** Whether updates wait for the session's next sink, if it is subscribed to anything then. */
  ghost predicate HoldsThen(s: State, a: Action, key: Key)
    requires Enabled(s, a)
  {
    if a.SetSubscriptions? && a.key == key then a.hold
    else if a.AddSubscription? && a.key == key && (a.hold || key in s.books.sessions) then a.hold
    else if a.RegisterSession? && s.loop.sink.to.key == key && s.loop.subscriptions.Some?
      then s.loop.subscriptions.value.1
    else key in s.books.subscribed ==> s.books.subscribed[key].hold
  }

  ghost predicate HoldIs(b: Books, key: Key, hold: bool) {
    key in b.subscribed ==> b.subscribed[key].hold == hold
  }

  ghost predicate HoldOf(b: Books, key: Key) {
    key in b.subscribed ==> b.subscribed[key].hold
  }

  lemma HoldSet(b: Books, of: Key, uris: set<Uri>, hold: bool, key: Key)
    ensures HoldIs(SetTo(b, of, uris, hold), key, if of == key then hold else HoldOf(b, key))
  {
    hide Wanted;
  }

  lemma HoldAdded(b: Books, of: Key, asked: Uri, hold: bool, key: Key)
    ensures HoldIs(Added(b, of, asked, hold), key,
      if of == key && (hold || key in b.sessions) then hold else HoldOf(b, key))
  {
  }

  lemma HoldAsked(b: Books, of: Key, asked: Uri, cap: nat, key: Key)
    ensures HoldIs(SubscribedTo(b, of, asked, cap), key, HoldOf(b, key))
    ensures HoldIs(UnsubscribedFrom(b, of, asked), key, HoldOf(b, key))
  {
    hide Wanted;
  }

  lemma HoldSubscribed(s: State, a: Action, key: Key)
    requires Core(s) && Enabled(s, a) && Subscribes(a)
    ensures HoldIs(Do(s, a).books, key, HoldsThen(s, a, key))
  {
    hide Core, Do, SetTo, Added, SubscribedTo, UnsubscribedFrom;
    CoreSubscribes(s, a);
    match a
    case Subscribe(of, asked, cap) => HoldAsked(s.books, of, asked, cap, key);
    case Unsubscribe(of, asked) => HoldAsked(s.books, of, asked, 0, key);
    case SetSubscriptions(of, uris, hold) => HoldSet(s.books, of, uris, hold, key);
    case AddSubscription(of, asked, hold) => HoldAdded(s.books, of, asked, hold, key);
    case ForgetSession(_) =>
  }

  lemma HoldRegistered(s: State, sid: Sid, key: Key)
    requires s.loop.Watching? && Enabled(s, RegisterSession(sid))
    ensures HoldIs(DoRegisterSession(s, sid).books, key, HoldsThen(s, RegisterSession(sid), key))
  {
    hide Wanted, Overlooked;
  }

  lemma HoldDropped(s: State, sid: Sid, unsent: seq<Uri>, graceful: bool, key: Key)
    requires sid in s.sinks
    ensures HoldIs(Dropped(s, sid, unsent, graceful).books, key, HoldOf(s.books, key))
  {
    hide WithoutStream;
    if s.sinks[sid].to.listen { StreamsAside(s.books, s.sinks[sid].to); }
  }

  lemma HoldDrops(s: State, a: Action, key: Key)
    requires Enabled(s, a) && Drops(s, a)
    ensures HoldIs(Do(s, a).books, key, HoldOf(s.books, key))
  {
    hide Dropped, Registered, HoldIs, HoldOf;
    match a
    case EndSession(of) => HoldDropped(s, s.books.sessions[of], [], false, key);
    case EndListen(sid, graceful) => HoldDropped(s, sid, [], graceful, key);
    case SendUpdate(_) => HoldDropped(s, s.loop.sid, s.loop.rest, false, key);
    case StepDeliver => HoldDropped(s, s.loop.sid, [], s.sinks[s.loop.sid].to.listen, key);
    case SendNotice(_) => HoldDropped(s, s.loop.sid, [], false, key);
    case SendAck(_) => HoldDropped(s, s.loop.sid, [], false, key);
  }

  lemma HoldAside(b: Books, after: Books, key: Key)
    requires after.subscribed == b.subscribed
    ensures HoldIs(after, key, HoldOf(b, key))
  {
  }

  lemma HoldOnLoop(s: State, a: Action, key: Key)
    requires Enabled(s, a) && !Drops(s, a) && OnLoop(a) && !a.RegisterSession?
    ensures HoldIs(Do(s, a).books, key, HoldOf(s.books, key))
  {
    hide HoldIs, HoldOf;
    if a.RegisterListen? { hide Refused, Overlooked; HoldAside(s.books, Do(s, a).books, key); }
    else {
      hide Registered, Computed, Merged, RespectsView, Spells, Unused, Watches;
      assert Do(s, a).books == s.books;
      HoldAside(s.books, s.books, key);
    }
  }

  lemma HoldPublished(b: Books, published: Uri, key: Key)
    ensures HoldIs(HeldFor(b, published), key, HoldOf(b, key))
  {
    hide Put;
  }

  lemma HoldLook(s: State, of: Key, looked: Uri, key: Key)
    ensures HoldIs(DoTakeLook(s, of, looked).books, key, HoldOf(s.books, key))
  {
    hide Put;
  }

  lemma HoldElsewhere(s: State, a: Action, key: Key)
    requires Enabled(s, a) && !OnLoop(a) && !Subscribes(a)
    ensures HoldIs(Do(s, a).books, key, HoldOf(s.books, key))
  {
    hide HoldIs, HoldOf, Lists1, Streams, HeldFor, DoTakeLook;
    if a.Publish? { HoldPublished(s.books, a.uri, key); }
    else if a.TakeLook? { HoldLook(s, a.key, a.uri, key); }
    else { HoldAside(s.books, Do(s, a).books, key); }
  }

  /**
   * Whether updates wait for a session's next sink is what its subscriptions were last given or added to with, and
   * they do for one that subscribed here; nothing else that happens changes it.
   */
  lemma WhoseUpdatesWait(s: State, a: Action, key: Key)
    requires Core(s) && Enabled(s, a)
    ensures key in Do(s, a).books.subscribed ==> Do(s, a).books.subscribed[key].hold == HoldsThen(s, a, key)
  {
    hide Core, Do;
    assert !Subscribes(a) && !a.RegisterSession? ==> HoldsThen(s, a, key) == HoldOf(s.books, key);
    if Subscribes(a) { HoldSubscribed(s, a, key); }
    else if Drops(s, a) { HoldDrops(s, a, key); }
    else if a.RegisterSession? { RegisterIs(s, a.sid); HoldRegistered(s, a.sid, key); }
    else if OnLoop(a) { HoldOnLoop(s, a, key); }
    else { HoldElsewhere(s, a, key); }
  }

  // ---------------------------------------------------- which streams are refused

  /** The streams that are open. */
  ghost function OpenStreams(s: State): set<Sid> {
    set sid | sid in s.sinks && s.sinks[sid].to.listen && Registered(s.books, sid, s.sinks[sid].to)
  }

  lemma StreamsAreOpen(s: State)
    requires ChannelsOk(s.books, s.sinks)
    ensures Streams(s.books) == OpenStreams(s)
  {
    forall sid | sid in Streams(s.books) ensures sid in OpenStreams(s) {
      var channel, key :| channel in s.books.channels && key in s.books.channels[channel] &&
          s.books.channels[channel][key] == sid;
    }
    forall sid | sid in OpenStreams(s) ensures sid in Streams(s.books) {
      var to := s.sinks[sid].to;
      assert to.channel in s.books.channels && to.key in s.books.channels[to.channel];
    }
  }

  /**
   * In every reachable state a stream is refused exactly when one of its id is open on its channel, its client has
   * eight open, or the server as many as it may.
   */
  lemma WhenAStreamIsRefused(s: State, to: Recipient, maxTotal: nat)
    requires Reachable(s)
    ensures Refused(s.books, to, maxTotal) <==>
      || (exists sid :: sid in OpenStreams(s) && s.sinks[sid].to.channel == to.channel && s.sinks[sid].to.key == to.key)
      || |set sid | sid in OpenStreams(s) && s.sinks[sid].to.client == to.client| >= 8
      || |OpenStreams(s)| >= maxTotal
  {
    hide Inv, Reachable, Refused;
    InvHolds(s);
    InvParts(s);
    CountsAre(s);
    StreamsAreOpen(s);
    hide Core, Registered;
    assert ClientStreams(s.books, s.sinks, to.client)
        == set sid | sid in OpenStreams(s) && s.sinks[sid].to.client == to.client;
    RefusedIs(s, to, maxTotal);
  }

  lemma CountsAre(s: State)
    requires Core(s)
    ensures CountsOk(s.books, s.sinks, s.maxTotal) && ChannelsOk(s.books, s.sinks)
  {
  }

  lemma RefusedIs(s: State, to: Recipient, maxTotal: nat)
    requires CountsOk(s.books, s.sinks, s.maxTotal) && ChannelsOk(s.books, s.sinks)
    ensures Refused(s.books, to, maxTotal) <==>
      || (exists sid :: sid in OpenStreams(s) && s.sinks[sid].to.channel == to.channel && s.sinks[sid].to.key == to.key)
      || |ClientStreams(s.books, s.sinks, to.client)| >= 8
      || |Streams(s.books)| >= maxTotal
  {
    hide Streams, ClientStreams;
    if to.channel in s.books.channels && to.key in s.books.channels[to.channel] {
      assert s.books.channels[to.channel][to.key] in OpenStreams(s);
    }
  }

  // ------------------------------------------------ how a stream is ended

  /** What a stream is sent when the server ends it. */
  function EndFrames(to: Recipient): seq<Frame> {
    if to.multiplexed then [Final, Cancelled] else [Final]
  }

  /** Being ended, with these frames sent before: not yet closed, about to be completed, to be cancelled, or done. */
  ghost predicate BeingEnded(s: State, sid: Sid, frames: seq<Frame>) {
    && sid in s.sinks && s.sinks[sid].to.listen
    && if s.loop.Closing? && s.loop.sid == sid then s.loop.graceful && s.sinks[sid].frames == frames
       else if s.loop.Ending? && s.loop.sid == sid then
         if s.loop.finalSent then s.sinks[sid].to.multiplexed && s.sinks[sid].frames == frames + [Final]
         else s.sinks[sid].frames == frames
       else s.sinks[sid].closed && s.sinks[sid].frames == frames + EndFrames(s.sinks[sid].to)
  }

  /** Every frame of an end is taken. */
  predicate EndsAreTaken(run: seq<Action>) {
    forall i :: 0 <= i < |run| ==> run[i] != SendEnd(false)
  }

  lemma EndedElsewhere(s: State, a: Action, sid: Sid, frames: seq<Frame>)
    requires Core(s) && Enabled(s, a) && !OnLoop(a) && BeingEnded(s, sid, frames)
    ensures BeingEnded(Do(s, a), sid, frames)
  {
    hide Core, Do, Enabled;
    CoreAnywhere(s, a);
    LoopStays(s, a);
    FramesStay(s, a, sid);
  }

  lemma EndedByClosing(s: State, sid: Sid, frames: seq<Frame>)
    requires s.loop.Closing? && s.loop.sid in s.sinks && BeingEnded(s, sid, frames)
    ensures BeingEnded(DoCloseUnregistered(s), sid, frames)
  {
  }

  lemma EndedBySending(s: State, sid: Sid, frames: seq<Frame>)
    requires LoopOk(s) && s.loop.Ending? && s.loop.sid in s.sinks && BeingEnded(s, sid, frames)
    ensures BeingEnded(DoSendEnd(s, true), sid, frames)
  {
    hide Registered;
    assert frames + [Final] + [Cancelled] == frames + [Final, Cancelled];
  }

  lemma EndedOnLoop(s: State, a: Action, sid: Sid, frames: seq<Frame>)
    requires Inv(s) && Enabled(s, a) && OnLoop(a) && a != SendEnd(false) && BeingEnded(s, sid, frames)
    ensures BeingEnded(Do(s, a), sid, frames)
  {
    InvParts(s);
    hide Inv, Core, OpenOk, DoCloseUnregistered, DoSendEnd, BeingEnded;
    EndingOnly(s, a);
    if a.CloseUnregistered? { EndedByClosing(s, sid, frames); }
    else if a.SendEnd? { EndedBySending(s, sid, frames); }
    else { hide LoopOk, Do; EndedStays(s, a, sid, frames); }
  }

  /** While a stream is being closed or ended the loop does nothing else. */
  lemma EndingOnly(s: State, a: Action)
    requires Enabled(s, a) && OnLoop(a)
    ensures s.loop.Closing? <==> a.CloseUnregistered?
    ensures s.loop.Ending? <==> a.SendEnd?
  {
    hide Unused, Spells;
  }

  lemma EndedStays(s: State, a: Action, sid: Sid, frames: seq<Frame>)
    requires Inv(s) && Enabled(s, a) && OnLoop(a) && !s.loop.Closing? && !s.loop.Ending? && BeingEnded(s, sid, frames)
    ensures BeingEnded(Do(s, a), sid, frames)
  {
    assert Over(s, sid);
    InvParts(s);
    OverOnLoop(s, a, sid);
    WhatIsPushed(s, a, sid);
    hide Inv, Core, OpenOk, LoopOk, Do, Enabled, Pushed;
  }

  lemma {:induction false} EndedRun(s: State, run: seq<Action>, t: State, sid: Sid, frames: seq<Frame>)
    requires Inv(s) && Leads(s, run, t) && BeingEnded(s, sid, frames) && EndsAreTaken(run)
    ensures BeingEnded(t, sid, frames)
    decreases |run|
  {
    hide Inv, Do, Enabled, BeingEnded;
    if run != [] {
      InvParts(s);
      InvStep(s, run[0]);
      if OnLoop(run[0]) { EndedOnLoop(s, run[0], sid, frames); } else { EndedElsewhere(s, run[0], sid, frames); }
      EndedRun(Do(s, run[0]), run[1..], t, sid, frames);
    }
  }

  /** The server ends the stream: as it closes, or because a list it watches cannot be computed any more. */
  ghost predicate IsEndedBy(s: State, a: Action, sid: Sid)
    requires Enabled(s, a)
  {
    a == EndListen(sid, true) || (a.StepDeliver? && Drops(s, a) && s.loop.sid == sid)
  }

  lemma EndBegins(s: State, a: Action, sid: Sid)
    requires Enabled(s, a) && IsEndedBy(s, a, sid) && sid in OpenStreams(s)
    ensures BeingEnded(Do(s, a), sid, s.sinks[sid].frames)
  {
    hide Registered, Unregistered;
  }

  /**
   * A stream the server ends is sent its completion, and on a shared channel the cancellation, right after what it
   * was sent before, and never anything more, whatever else goes on; and that is so as soon as the loop is at rest.
   */
  lemma AnEndedStreamIsToldSo(s: State, a: Action, run: seq<Action>, t: State, sid: Sid)
    requires Reachable(s) && sid in OpenStreams(s) && Enabled(s, a) && IsEndedBy(s, a, sid)
    requires Leads(Do(s, a), run, t) && EndsAreTaken(run)
    ensures sid in t.sinks
    ensures t.loop.Idle? ==> t.sinks[sid].frames == s.sinks[sid].frames + EndFrames(t.sinks[sid].to)
  {
    hide Inv, Do, Enabled, Reachable, Leads;
    InvHolds(s);
    InvStep(s, a);
    EndBegins(s, a, sid);
    hide IsEndedBy;
    EndedRun(Do(s, a), run, t, sid, s.sinks[sid].frames);
  }
}
