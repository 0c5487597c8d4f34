/**
 * Resource updates to listen streams: a stream acknowledged for a URI is sent every update of it that is published,
 * or is about to be, and no update more often than it was published.
 */
module NotifierStreams {
  import opened Wrappers
  import opened Notifier
  import opened NotifierBooks
  import opened NotifierPushes

  /** The stream is there, and was acknowledged for the URI. */
  ghost predicate Follows(s: State, sid: Sid, uri: Uri) {
    sid in s.sinks && s.sinks[sid].to.listen && uri in s.sinks[sid].to.uris
  }

  ghost predicate IsOpen(s: State, sid: Sid) {
    sid in s.sinks && Registered(s.books, sid, s.sinks[sid].to)
  }

  /** How often the update is on its way to the stream: offered, waiting in it, or in the flush the loop is in. */
  ghost function Copies(s: State, sid: Sid, uri: Uri): nat {
    s.hands[Offer(sid, uri)]
    + (if sid in s.sinks then multiset(s.sinks[sid].updates)[uri] else 0)
    + InFlush(s.loop, sid, uri)
  }

  ghost function InFlush(loop: Loop, sid: Sid, uri: Uri): nat {
    if loop.Flushing? && loop.sid == sid then multiset(loop.rest)[uri] else 0
  }

  /**
   * A step that publishes so often and sends so often: no copy comes from nowhere, and while the stream is open the
   * last one goes only by being sent.
   */
  ghost predicate Accounted(s: State, t: State, sid: Sid, uri: Uri, published: nat, sent: nat) {
    && Copies(t, sid, uri) + sent <= Copies(s, sid, uri) + published
    && (IsOpen(s, sid) && IsOpen(t, sid) && sent == 0 && Copies(s, sid, uri) + published > 0 ==>
        Copies(t, sid, uri) > 0)
  }

  // ------------------------------------------------------------ one action each

  /** Nothing on its way to the stream is touched. */
  ghost predicate Untouched(s: State, t: State, sid: Sid, uri: Uri) {
    && t.hands[Offer(sid, uri)] == s.hands[Offer(sid, uri)] && InFlush(t.loop, sid, uri) == InFlush(s.loop, sid, uri)
    && sid in s.sinks && sid in t.sinks && t.sinks[sid].updates == s.sinks[sid].updates
  }

  lemma UntouchedIs(s: State, t: State, sid: Sid, uri: Uri)
    requires Untouched(s, t, sid, uri)
    ensures Accounted(s, t, sid, uri, 0, 0)
  {
  }

  lemma ByDropped(s: State, of: Sid, unsent: seq<Uri>, graceful: bool, sid: Sid, uri: Uri)
    requires of in s.sinks && Follows(s, sid, uri) && (InFlush(s.loop, sid, uri) > 0 ==> of == sid)
    ensures Accounted(s, Dropped(s, of, unsent, graceful), sid, uri, 0, 0)
  {
    hide Unregistered;
    var t := Dropped(s, of, unsent, graceful);
    assert t.hands == s.hands && t.sinks == s.sinks && InFlush(t.loop, sid, uri) == 0;
    if of == sid && IsOpen(s, sid) { NotOpenThen(s, sid, unsent, graceful); }
  }

  lemma NotOpenThen(s: State, sid: Sid, unsent: seq<Uri>, graceful: bool)
    requires sid in s.sinks && s.sinks[sid].to.listen && IsOpen(s, sid)
    ensures !IsOpen(Dropped(s, sid, unsent, graceful), sid)
  {
  }

  lemma ByDrops(s: State, a: Action, sid: Sid, uri: Uri)
    requires Enabled(s, a) && Drops(s, a) && Follows(s, sid, uri)
    ensures Accounted(s, Do(s, a), sid, uri, 0, 0)
  {
    hide Dropped, Accounted, Registered, Follows;
    assert sid in s.sinks by { FollowsIs(s, sid, uri); }
    match a
    case EndSession(of) => ByDropped(s, s.books.sessions[of], [], false, sid, uri);
    case EndListen(of, graceful) => ByDropped(s, of, [], graceful, sid, uri);
    case SendUpdate(_) => ByDropped(s, s.loop.sid, s.loop.rest, false, sid, uri);
    case StepDeliver => ByDropped(s, s.loop.sid, [], s.sinks[s.loop.sid].to.listen, sid, uri);
    case SendNotice(_) => ByDropped(s, s.loop.sid, [], false, sid, uri);
    case SendAck(_) => ByDropped(s, s.loop.sid, [], false, sid, uri);
  }

  lemma FollowsIs(s: State, sid: Sid, uri: Uri)
    requires Follows(s, sid, uri)
    ensures sid in s.sinks && s.sinks[sid].to.listen && uri in s.sinks[sid].to.uris
  {
  }

  lemma ByRegisters(s: State, a: Action, sid: Sid, uri: Uri)
    requires Enabled(s, a) && (a.RegisterSession? || a.RegisterListen?) && Follows(s, sid, uri)
    ensures Untouched(s, Do(s, a), sid, uri)
  {
    hide Refused, WithStream, SetTo, Overlooked;
  }

  /** A sink that is replaced is a session's. */
  lemma ByCloseReplaced(s: State, sid: Sid, uri: Uri)
    requires LoopOk(s) && s.loop.Replacing? && Follows(s, sid, uri)
    ensures Untouched(s, DoCloseReplaced(s), sid, uri)
  {
    hide Merged, Registered;
  }

  /** One that is closed otherwise is not open any more. */
  lemma ByCloseUnregistered(s: State, sid: Sid, uri: Uri)
    requires LoopOk(s) && s.loop.Closing? && s.loop.sid in s.sinks && Follows(s, sid, uri)
    ensures Accounted(s, DoCloseUnregistered(s), sid, uri, 0, 0)
  {
    var t := DoCloseUnregistered(s);
    assert t.hands[Offer(sid, uri)] == s.hands[Offer(sid, uri)] && t.books == s.books;
    hide Registered;
  }

  lemma ByClosing(s: State, a: Action, sid: Sid, uri: Uri)
    requires LoopOk(s) && Enabled(s, a) && (a.CloseReplaced? || a.CloseUnregistered?) && Follows(s, sid, uri)
    ensures Accounted(s, Do(s, a), sid, uri, 0, 0)
  {
    hide LoopOk, Accounted, Untouched, Follows, DoCloseReplaced, DoCloseUnregistered;
    if a.CloseReplaced? { ByCloseReplaced(s, sid, uri); UntouchedIs(s, Do(s, a), sid, uri); }
    else { ByCloseUnregistered(s, sid, uri); }
  }

  lemma ByRequeue(s: State, a: Action, sid: Sid, uri: Uri)
    requires LoopOk(s) && Enabled(s, a) && a.Requeue? && Follows(s, sid, uri)
    ensures Untouched(s, Do(s, a), sid, uri)
  {
    hide Spells, Registered;
  }

  lemma ByReads(s: State, a: Action, sid: Sid, uri: Uri)
    requires Enabled(s, a) && Reads(a) && !a.StepFlush? && !Drops(s, a) && Follows(s, sid, uri)
    ensures Untouched(s, Do(s, a), sid, uri)
  {
    hide Registered, Watches, Computed, RespectsView, Unused;
  }

  /** An update in the flush that is not sent is not for this stream. */
  lemma ByStepFlush(s: State, sid: Sid, uri: Uri)
    requires Enabled(s, StepFlush) && Follows(s, sid, uri) && (IsOpen(s, sid) ==> !s.sinks[sid].closed)
    ensures Accounted(s, DoStepFlush(s), sid, uri, 0, 0)
  {
    hide Registered, Watches;
    if s.loop.sid != sid { UntouchedIs(s, DoStepFlush(s), sid, uri); }
    else if s.loop.rest != [] { assert s.loop.rest == [s.loop.rest[0]] + s.loop.rest[1..]; }
  }

  lemma BySendUpdate(s: State, sid: Sid, uri: Uri)
    requires Enabled(s, SendUpdate(true)) && Follows(s, sid, uri)
    ensures Accounted(s, DoSendUpdate(s, true), sid, uri, 0,
      if s.loop.sid == sid && s.loop.rest[0] == uri then 1 else 0)
  {
    hide Registered, Dropped;
    var rest := s.loop.rest;
    assert rest == [rest[0]] + rest[1..];
  }

  lemma BySends(s: State, a: Action, sid: Sid, uri: Uri)
    requires Enabled(s, a) && Sends(a) && !a.SendUpdate? && !Drops(s, a) && Follows(s, sid, uri)
    ensures Untouched(s, Do(s, a), sid, uri)
  {
    hide Dropped, Registered;
  }

  /** What waited in the stream is in the flush. */
  lemma ByStartFlush(s: State, of: Sid, sid: Sid, uri: Uri)
    requires Enabled(s, StartFlush(of)) && Follows(s, sid, uri)
    ensures Accounted(s, DoStartFlush(s, of), sid, uri, 0, 0)
  {
    hide Registered;
    var t := DoStartFlush(s, of);
    assert t.hands[Offer(sid, uri)] == s.hands[Offer(sid, uri)];
    if of == sid { assert InFlush(t.loop, sid, uri) == multiset(s.sinks[sid].updates)[uri]; }
  }

  lemma ByWindow(s: State, a: Action, sid: Sid, uri: Uri)
    requires Enabled(s, a) && (a.Arm? || a.Fire?) && Follows(s, sid, uri)
    ensures Untouched(s, Do(s, a), sid, uri)
  {
    hide Spells;
  }

  lemma ByRefresh(s: State, of: Sid, identity: Identity, sid: Sid, uri: Uri)
    requires of in s.sinks && Follows(s, sid, uri)
    ensures Untouched(s, DoRefreshIdentity(s, of, identity), sid, uri)
  {
  }

  lemma ByTurns(s: State, a: Action, sid: Sid, uri: Uri)
    requires Enabled(s, a) && (a.StartFlush? || a.Arm? || a.Fire? || a.RefreshIdentity?) && Follows(s, sid, uri)
    ensures Accounted(s, Do(s, a), sid, uri, 0, 0)
  {
    hide Accounted, Untouched, Follows, Spells, DoStartFlush, DoFire, DoRefreshIdentity;
    match a
    case StartFlush(of) => ByStartFlush(s, of, sid, uri);
    case Arm(_) => ByWindow(s, a, sid, uri); UntouchedIs(s, Do(s, a), sid, uri);
    case Fire(_, _) => ByWindow(s, a, sid, uri); UntouchedIs(s, Do(s, a), sid, uri);
    case RefreshIdentity(key, identity) =>
      ByRefresh(s, s.books.sessions[key], identity, sid, uri);
      UntouchedIs(s, Do(s, a), sid, uri);
  }

  lemma BySubscribes(s: State, a: Action, sid: Sid, uri: Uri)
    requires Core(s) && Enabled(s, a) && Subscribes(a) && Follows(s, sid, uri)
    ensures Untouched(s, Do(s, a), sid, uri)
  {
    hide Core, Do, After;
    CoreSubscribes(s, a);
  }

  /** Only one offer a recipient is made, and none of a session's is to a stream. */
  lemma ByPublish(s: State, published: Uri, sid: Sid, uri: Uri)
    requires SessionsOk(s.books, s.sinks) && Follows(s, sid, uri)
    ensures Accounted(s, DoPublish(s, published), sid, uri,
      if published == uri && sid in Streams(s.books) then 1 else 0, 0)
  {
    hide HeldFor, Streams;
  }

  /** The stream takes the update unless it waits there already. */
  lemma ByOffer(s: State, of: Sid, taken: Uri, sid: Sid, uri: Uri)
    requires Enabled(s, TakeOffer(of, taken)) && Follows(s, sid, uri) && (IsOpen(s, sid) ==> !s.sinks[sid].closed)
    ensures Accounted(s, DoTakeOffer(s, of, taken), sid, uri, 0, 0)
  {
    hide Registered, Accounted, Follows;
    FollowsIs(s, sid, uri);
    if of != sid { OfferElsewhere(s, of, taken, sid, uri); UntouchedIs(s, DoTakeOffer(s, of, taken), sid, uri); }
    else { OfferHere(s, taken, sid, uri); }
  }

  lemma OfferElsewhere(s: State, of: Sid, taken: Uri, sid: Sid, uri: Uri)
    requires of in s.sinks && of != sid && sid in s.sinks
    ensures Untouched(s, DoTakeOffer(s, of, taken), sid, uri)
  {
  }

  lemma OfferHere(s: State, taken: Uri, sid: Sid, uri: Uri)
    requires Offer(sid, taken) in s.hands && sid in s.sinks && s.sinks[sid].to.listen
    requires IsOpen(s, sid) ==> !s.sinks[sid].closed
    ensures Accounted(s, DoTakeOffer(s, sid, taken), sid, uri, 0, 0)
  {
    hide Registered, InFlush;
    var t := DoTakeOffer(s, sid, taken);
    TakenHere(s, sid, taken);
    assert t.hands[Offer(sid, uri)] == s.hands[Offer(sid, uri)] - if taken == uri then 1 else 0;
    hide DoTakeOffer;
  }

  lemma TakenHere(s: State, sid: Sid, taken: Uri)
    requires sid in s.sinks && s.sinks[sid].to.listen
    ensures var t := DoTakeOffer(s, sid, taken);
      && t.loop == s.loop && t.books == s.books && sid in t.sinks && t.sinks[sid].to == s.sinks[sid].to
      && t.sinks[sid].updates == s.sinks[sid].updates +
           if s.sinks[sid].closed || taken in s.sinks[sid].updates then [] else [taken]
  {
  }

  lemma ByLook(s: State, key: Key, taken: Uri, sid: Sid, uri: Uri)
    requires SessionsOk(s.books, s.sinks) && Enabled(s, TakeLook(key, taken)) && Follows(s, sid, uri)
    ensures Untouched(s, DoTakeLook(s, key, taken), sid, uri)
  {
  }

  lemma ByAnnounce(s: State, kind: Kind, sid: Sid, uri: Uri)
    requires Follows(s, sid, uri)
    ensures Untouched(s, DoTakeAnnounce(s, kind), sid, uri)
  {
    hide Streams;
  }

  lemma ByTell(s: State, of: Sid, kind: Kind, sid: Sid, uri: Uri)
    requires of in s.sinks && Follows(s, sid, uri)
    ensures Untouched(s, Pended(s.(hands := s.hands - multiset{Tell(of, kind)}), of, {kind}), sid, uri)
  {
  }

  lemma HandsOnly(s: State, t: State, sid: Sid, uri: Uri)
    requires t == s.(lists := t.lists, hands := t.hands) && t.hands[Offer(sid, uri)] == s.hands[Offer(sid, uri)]
    requires sid in s.sinks
    ensures Untouched(s, t, sid, uri)
  {
  }

  lemma ByCallSoon(s: State, a: Action, sid: Sid, uri: Uri)
    requires Enabled(s, a) && Follows(s, sid, uri) && (a.ChangeList? || a.CallArm? || a.CallFlush?)
    ensures Untouched(s, Do(s, a), sid, uri)
  {
    hide Lists1, Untouched, Copies, InFlush;
    HandsOnly(s, Do(s, a), sid, uri);
  }

  lemma ByCalls(s: State, a: Action, sid: Sid, uri: Uri)
    requires Enabled(s, a) && Follows(s, sid, uri)
    requires a.ChangeList? || a.TakeAnnounce? || a.TakeTell? || a.CallArm? || a.CallFlush?
    ensures Untouched(s, Do(s, a), sid, uri)
  {
    hide Lists1, DoTakeAnnounce, Pended, Untouched, Follows;
    if a.TakeAnnounce? { ByAnnounce(s, a.kind, sid, uri); }
    else if a.TakeTell? { ByTell(s, a.sid, a.kind, sid, uri); }
    else { ByCallSoon(s, a, sid, uri); }
  }

  // ------------------------------------------------------------ every step

  ghost function PublishedBy(s: State, a: Action, sid: Sid, uri: Uri): nat {
    if a == Publish(uri) && sid in Streams(s.books) then 1 else 0
  }

  ghost function SentBy(s: State, a: Action, sid: Sid, uri: Uri): nat
    requires Enabled(s, a) && sid in s.sinks
  {
    if Pushed(s, a, sid) == [Update(uri)] then 1 else 0
  }

  lemma OnLoopAccounted(s: State, a: Action, sid: Sid, uri: Uri)
    requires LoopOk(s) && Enabled(s, a) && OnLoop(a) && Follows(s, sid, uri)
    requires IsOpen(s, sid) ==> !s.sinks[sid].closed
    ensures Accounted(s, Do(s, a), sid, uri, 0, SentBy(s, a, sid, uri))
  {
    FollowsIs(s, sid, uri);
    hide LoopOk, Accounted, Untouched, Follows, Do, IsOpen;
    if a.SendUpdate? && a.ok { SentIs(s, sid, uri); }
    else {
      NoneSent(s, a, sid, uri);
      if Drops(s, a) { ByDrops(s, a, sid, uri); }
      else if a.StepFlush? { StepIs(s); ByStepFlush(s, sid, uri); }
      else if a.CloseReplaced? || a.CloseUnregistered? { ByClosing(s, a, sid, uri); }
      else if Reads(a) || Sends(a) || Moves(a) { UntouchedOnLoop(s, a, sid, uri); UntouchedIs(s, Do(s, a), sid, uri); }
      else { ByTurns(s, a, sid, uri); }
    }
  }

  lemma StepIs(s: State)
    requires Enabled(s, StepFlush)
    ensures Do(s, StepFlush) == DoStepFlush(s)
  {
    hide DoStepFlush;
  }

  lemma SentIs(s: State, sid: Sid, uri: Uri)
    requires Enabled(s, SendUpdate(true)) && Follows(s, sid, uri)
    ensures Accounted(s, Do(s, SendUpdate(true)), sid, uri, 0, SentBy(s, SendUpdate(true), sid, uri))
  {
    hide DoSendUpdate, Accounted, Follows;
    FollowsIs(s, sid, uri);
    BySendUpdate(s, sid, uri);
    assert [Update(s.loop.rest[0])][0] == Update(s.loop.rest[0]);
  }

  lemma NoneSent(s: State, a: Action, sid: Sid, uri: Uri)
    requires Enabled(s, a) && sid in s.sinks && !(a.SendUpdate? && a.ok)
    ensures SentBy(s, a, sid, uri) == 0
  {
    hide Enabled;
    if Pushed(s, a, sid) != [] { assert !Pushed(s, a, sid)[0].Update?; }
  }

  lemma UntouchedOnLoop(s: State, a: Action, sid: Sid, uri: Uri)
    requires LoopOk(s) && Enabled(s, a) && Follows(s, sid, uri) && !Drops(s, a)
    requires a.RegisterSession? || a.RegisterListen? || a.Requeue? || (Reads(a) && !a.StepFlush?) ||
      (Sends(a) && !a.SendUpdate?)
    ensures Untouched(s, Do(s, a), sid, uri)
  {
    hide LoopOk, Untouched, Follows, Do;
    if a.RegisterSession? || a.RegisterListen? { ByRegisters(s, a, sid, uri); }
    else if a.Requeue? { ByRequeue(s, a, sid, uri); }
    else if Reads(a) { ByReads(s, a, sid, uri); }
    else { BySends(s, a, sid, uri); }
  }

  lemma ElsewhereAccounted(s: State, a: Action, sid: Sid, uri: Uri)
    requires Core(s) && Enabled(s, a) && !OnLoop(a) && Follows(s, sid, uri)
    requires IsOpen(s, sid) ==> !s.sinks[sid].closed
    ensures Accounted(s, Do(s, a), sid, uri, PublishedBy(s, a, sid, uri), 0)
  {
    hide Core, Accounted, Untouched, Follows, IsOpen, Streams, DoPublish, DoTakeOffer, DoTakeLook, After, SubscribedTo,
        UnsubscribedFrom, SetTo, Added, DoTakeAnnounce, Pended, Lists1, Booked;
    FollowsIs(s, sid, uri);
    CoreSessionsOk(s);
    if a.Publish? { ByPublish(s, a.uri, sid, uri); }
    else if a.TakeOffer? { ByOffer(s, a.sid, a.uri, sid, uri); }
    else {
      hide SessionsOk, Do;
      UntouchedElsewhere(s, a, sid, uri);
      UntouchedIs(s, Do(s, a), sid, uri);
    }
  }

  lemma UntouchedElsewhere(s: State, a: Action, sid: Sid, uri: Uri)
    requires Core(s) && Enabled(s, a) && !OnLoop(a) && !a.Publish? && !a.TakeOffer? && Follows(s, sid, uri)
    ensures Untouched(s, Do(s, a), sid, uri)
  {
    hide Core, Untouched, Follows, Streams, DoTakeLook, After, SubscribedTo, UnsubscribedFrom, SetTo, Added,
        DoTakeAnnounce, Pended, Lists1, Booked;
    CoreSessionsOk(s);
    if a.TakeLook? { ByLook(s, a.key, a.uri, sid, uri); }
    else if Subscribes(a) { BySubscribes(s, a, sid, uri); }
    else { ByCalls(s, a, sid, uri); }
  }

  lemma CoreSessionsOk(s: State)
    requires Core(s)
    ensures SessionsOk(s.books, s.sinks) && ChannelsOk(s.books, s.sinks)
  {
  }

  /** Every step accounts for every copy, and the stream goes on following the URI. */
  lemma AccountedStep(s: State, a: Action, sid: Sid, uri: Uri)
    requires Inv(s) && Enabled(s, a) && Follows(s, sid, uri)
    ensures Follows(Do(s, a), sid, uri)
    ensures Accounted(s, Do(s, a), sid, uri, PublishedBy(s, a, sid, uri), SentBy(s, a, sid, uri))
  {
    FollowsIs(s, sid, uri);
    InvParts(s);
    CoreSessionsOk(s);
    hide Inv, Core, OpenOk, LoopOk, Do, Accounted, PublishedBy, SentBy, Pushed;
    WhatIsPushed(s, a, sid);
    if IsOpen(s, sid) { RegisteredIsOpen(s, sid); }
    hide IsOpen;
    if OnLoop(a) { OnLoopAccounted(s, a, sid, uri); NotPublished(s, a, sid, uri); }
    else { ElsewhereAccounted(s, a, sid, uri); NoneSent(s, a, sid, uri); }
  }

  lemma NotPublished(s: State, a: Action, sid: Sid, uri: Uri)
    requires OnLoop(a)
    ensures PublishedBy(s, a, sid, uri) == 0
  {
    hide Streams;
  }

  // --------------------------------------------------------------- every run

  /** All along the run the stream is open, and no step sends it the update. */
  ghost predicate OpenUnsent(s: State, run: seq<Action>, sid: Sid, uri: Uri)
    decreases |run|
  {
    IsOpen(s, sid) &&
    (run != [] ==>
        Enabled(s, run[0]) && !IsSent(s, Do(s, run[0]), sid, uri) && OpenUnsent(Do(s, run[0]), run[1..], sid, uri))
  }

  lemma {:induction false} CopiesRun(s: State, run: seq<Action>, t: State, sid: Sid, uri: Uri)
    requires Inv(s) && Leads(s, run, t) && Follows(s, sid, uri) && OpenUnsent(s, run, sid, uri)
    requires Copies(s, sid, uri) > 0
    ensures Inv(t) && Follows(t, sid, uri) && IsOpen(t, sid) && Copies(t, sid, uri) > 0
    decreases |run|
  {
    hide Inv, Do, Enabled, Copies, IsOpen, IsSent, Pushed, PublishedBy;
    FollowsIs(s, sid, uri);
    if run != [] {
      InvParts(s);
      InvStep(s, run[0]);
      AccountedStep(s, run[0], sid, uri);
      ToldMore(s, run[0], sid, uri);
      assert OpenUnsent(Do(s, run[0]), run[1..], sid, uri);
      CopiesRun(Do(s, run[0]), run[1..], t, sid, uri);
    }
  }

  /** A publisher is about to offer it, it waits in the stream, or the loop is about to push it. */
  ghost predicate OnItsWay(s: State, sid: Sid, uri: Uri) {
    || Offer(sid, uri) in s.hands
    || (sid in s.sinks && uri in s.sinks[sid].updates)
    || (s.loop.Flushing? && s.loop.sid == sid && uri in s.loop.rest)
  }

  lemma CopiesAre(s: State, sid: Sid, uri: Uri)
    ensures Copies(s, sid, uri) > 0 <==> OnItsWay(s, sid, uri)
  {
  }

  lemma PublishOffers(s: State, sid: Sid, uri: Uri)
    requires Follows(s, sid, uri) && IsOpen(s, sid)
    ensures Offer(sid, uri) in DoPublish(s, uri).hands && DoPublish(s, uri).sinks == s.sinks
  {
    hide HeldFor;
    var to := s.sinks[sid].to;
    assert to.channel in s.books.channels && to.key in s.books.channels[to.channel];
    assert sid in Streams(s.books);
  }

  lemma PublishedIsOnItsWay(s: State, sid: Sid, uri: Uri)
    requires Inv(s) && Follows(s, sid, uri) && IsOpen(s, sid)
    ensures Inv(DoPublish(s, uri)) && Follows(DoPublish(s, uri), sid, uri) && Copies(DoPublish(s, uri), sid, uri) > 0
  {
    hide Inv, DoPublish, IsOpen, InFlush;
    InvStep(s, Publish(uri));
    PublishOffers(s, sid, uri);
  }

  /**
   * Whatever the interleaving: once an update is published, a stream open then that was acknowledged for the URI is
   * sent it, or it is on its way there, for as long as the stream stays open.
   */
  lemma NoStreamUpdateLost(s: State, run: seq<Action>, t: State, sid: Sid, uri: Uri)
    requires Reachable(s) && Follows(s, sid, uri) && IsOpen(s, sid)
    requires Leads(DoPublish(s, uri), run, t) && OpenUnsent(DoPublish(s, uri), run, sid, uri)
    ensures OnItsWay(t, sid, uri)
  {
    hide Inv, Reachable, DoPublish, Copies, OnItsWay, Follows, IsOpen, Leads, OpenUnsent;
    InvHolds(s);
    PublishedIsOnItsWay(s, sid, uri);
    CopiesRun(DoPublish(s, uri), run, t, sid, uri);
    CopiesAre(t, sid, uri);
  }

  /** Once the publisher and the loop come to rest it waits in the stream, and exactly one flush is on its way. */
  lemma WhereAStreamUpdateRests(s: State, run: seq<Action>, t: State, sid: Sid, uri: Uri)
    requires Reachable(s) && Follows(s, sid, uri) && IsOpen(s, sid)
    requires Leads(DoPublish(s, uri), run, t) && OpenUnsent(DoPublish(s, uri), run, sid, uri)
    requires t.loop.Idle? && Offer(sid, uri) !in t.hands
    ensures sid in t.sinks && !t.sinks[sid].closed && uri in t.sinks[sid].updates
    ensures t.hands[AskFlush(sid)] + t.hands[FlushQueued(sid)] == 1
  {
    hide Inv, Reachable, DoPublish, Copies, Follows, IsOpen, Leads, OpenUnsent;
    InvHolds(s);
    PublishedIsOnItsWay(s, sid, uri);
    CopiesRun(DoPublish(s, uri), run, t, sid, uri);
    CopiesAre(t, sid, uri);
    FollowsIs(t, sid, uri);
    WaitsForAFlush(t, sid);
  }

  lemma WaitsForAFlush(t: State, sid: Sid)
    requires Inv(t) && IsOpen(t, sid) && t.sinks[sid].updates != []
    ensures !t.sinks[sid].closed && t.hands[AskFlush(sid)] + t.hands[FlushQueued(sid)] == 1
  {
    InvParts(t);
    CoreSessionsOk(t);
    CoreSink(t, sid);
    hide Inv, Core, OpenOk, LoopOk;
    RegisteredIsOpen(t, sid);
  }

  // ----------------------------------------------- and never more than published

  /** How often the run publishes the update. */
  function Publishes(run: seq<Action>, uri: Uri): nat
    decreases |run|
  {
    if run == [] then 0 else (if run[0] == Publish(uri) then 1 else 0) + Publishes(run[1..], uri)
  }

  /** Nothing is on its way to a stream that is not there yet. */
  lemma AbsentHasNone(s: State, sid: Sid, uri: Uri)
    requires Inv(s) && sid !in s.sinks
    ensures Copies(s, sid, uri) == 0 && TimesTold(s, sid, uri) == 0 && Offer(sid, uri) !in s.hands
  {
    InvParts(s);
    hide Inv, OpenOk, Core;
    assert SidOf(Offer(sid, uri)) == Some(sid);
    if Offer(sid, uri) in s.hands { CoreToken(s, Offer(sid, uri)); }
  }

  /** Nor to one just registered. */
  lemma FreshHasNone(s: State, a: Action, sid: Sid, uri: Uri)
    requires Inv(s) && Enabled(s, a) && sid !in s.sinks && sid in Do(s, a).sinks
    ensures Copies(Do(s, a), sid, uri) == 0 && TimesTold(Do(s, a), sid, uri) == 0
  {
    InvParts(s);
    AbsentHasNone(s, sid, uri);
    FreshIsUntold(s, a, sid, uri);
    hide Inv, Core, OpenOk, TimesTold;
    if !OnLoop(a) { hide LoopOk, Do, Enabled; CoreAnywhere(s, a); }
    else if a.RegisterSession? || a.RegisterListen? { RegisteredHasNone(s, a, sid, uri); }
    else { hide LoopOk, Copies; NoSinkIsNew(s, a, sid); }
  }

  lemma RegisteredHasNone(s: State, a: Action, sid: Sid, uri: Uri)
    requires LoopOk(s) && Enabled(s, a) && (a.RegisterSession? || a.RegisterListen?) && sid !in s.sinks
    requires sid in Do(s, a).sinks && Offer(sid, uri) !in s.hands
    ensures Copies(Do(s, a), sid, uri) == 0
  {
    hide Registered, Refused, WithStream, SetTo, Overlooked;
  }

  /**
   * However publishers, flushes and drops interleave, a stream is sent an update at most as often as it was
   * published, counting what is still on its way.
   */
  lemma {:induction false} NoMoreThanPublished(s: State, run: seq<Action>, t: State, sid: Sid, uri: Uri)
    requires Inv(s) && Leads(s, run, t) && Follows(t, sid, uri)
    ensures TimesTold(t, sid, uri) + Copies(t, sid, uri)
         <= TimesTold(s, sid, uri) + Copies(s, sid, uri) + Publishes(run, uri)
    ensures sid in s.sinks ==> Follows(s, sid, uri)
    decreases |run|
  {
    hide Inv, Do, Enabled, Copies, TimesTold, Follows, IsOpen;
    if run != [] {
      var next := Do(s, run[0]);
      InvParts(s);
      InvStep(s, run[0]);
      NoMoreThanPublished(next, run[1..], t, sid, uri);
      if sid in s.sinks {
        FollowedBefore(s, run[0], sid, uri);
        AccountedStep(s, run[0], sid, uri);
        ToldMore(s, run[0], sid, uri);
        hide Pushed, Grows, Streams;
      } else {
        AbsentHasNone(s, sid, uri);
        if sid in next.sinks { FreshHasNone(s, run[0], sid, uri); } else { AbsentHasNone(next, sid, uri); }
      }
    }
  }

  lemma FollowedBefore(s: State, a: Action, sid: Sid, uri: Uri)
    requires Core(s) && Enabled(s, a) && sid in s.sinks && (sid in Do(s, a).sinks ==> Follows(Do(s, a), sid, uri))
    ensures Follows(s, sid, uri)
  {
    hide Core, Enabled, Do, Pushed;
    WhatIsPushed(s, a, sid);
  }
}
