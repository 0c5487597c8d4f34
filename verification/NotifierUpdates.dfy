/** No update is lost: whatever a watching session has not been sent yet is somewhere it will be sent from. */
module NotifierUpdates {
  import opened Wrappers
  import opened Notifier
  import opened NotifierBooks
  import opened NotifierPushes

  /** In the hands of the operation the loop is in. */
  ghost predicate OnTheLoop(s: State, key: Key, uri: Uri) {
    match s.loop
    case Replacing(sid, replaced, taken, _) =>
      SessionSink(s, sid, key) &&
          (uri in taken || (replaced.Some? && replaced.value in s.sinks && uri in s.sinks[replaced.value].updates))
    case Requeueing(sid, rest, _) => SessionSink(s, sid, key) && uri in rest
    case Flushing(sid, rest, _) => SessionSink(s, sid, key) && uri in rest
    case Closing(sid, unsent, _) => SessionSink(s, sid, key) && (uri in unsent || uri in s.sinks[sid].updates)
    case _ => false
  }

  ghost predicate Waiting(s: State, key: Key, uri: Uri) {
    || (key in s.books.subscribed && uri in s.books.subscribed[key].held)
    || (key in s.books.sessions && s.books.sessions[key] in s.sinks && uri in s.sinks[s.books.sessions[key]].updates)
  }

  /** In the hands of a publisher, or of whoever looks after an update a closed sink refused. */
  ghost predicate Carried(hands: multiset<Token>, sinks: map<Sid, Sink>, key: Key, uri: Uri) {
    Look(key, uri) in hands || exists sid ::
        Offer(sid, uri) in hands && sid in sinks && !sinks[sid].to.listen && sinks[sid].to.key == key
  }

  ghost predicate Located(s: State, key: Key, uri: Uri) {
    Waiting(s, key, uri) || Carried(s.hands, s.sinks, key, uri) || OnTheLoop(s, key, uri)
  }

  ghost predicate Safe(s: State, key: Key, uri: Uri) {
    (key, uri) in s.debts ==> Watches(s.books, key, uri) && Located(s, key, uri)
  }

  ghost predicate Carries(loop: Loop) {
    loop.Replacing? || loop.Requeueing? || loop.Flushing? || loop.Closing?
  }

  /** What updates wait, and who carries one, is untouched. */
  ghost predicate Aside(s: State, t: State) {
    && t.books.sessions == s.books.sessions && t.books.subscribed == s.books.subscribed && t.debts == s.debts
    && (forall sid :: sid in s.sinks ==>
        sid in t.sinks && t.sinks[sid].to == s.sinks[sid].to && t.sinks[sid].updates == s.sinks[sid].updates)
    && (forall k :: k in s.hands && (k.Offer? || k.Look?) ==> k in t.hands)
  }

  lemma AsideKeeps(s: State, t: State, key: Key, uri: Uri)
    requires Safe(s, key, uri) && Aside(s, t) && (Carries(s.loop) ==> t.loop == s.loop)
    ensures Safe(t, key, uri)
  {
  }

  lemma SafeRegisterSession(s: State, sid: Sid, key: Key, uri: Uri)
    requires Inv(s) && s.loop.Watching? && sid !in s.sinks && Safe(s, key, uri)
    ensures Safe(DoRegisterSession(s, sid), key, uri)
  {
    hide CountsOk, ChannelsOk, ClosedOk, ScheduledOk, RespectsView, OpenOk, TokensOk;
    SetToFrame(s.books, s.loop.sink.to.key, sid, s.loop.subscriptions);
  }

  /** The replaced sink closes, and what it had to send is in the loop's hands. */
  lemma ClosedGoesOn(s: State, key: Key, uri: Uri)
    requires LoopOk(s) && s.loop.Replacing? && OnTheLoop(s, key, uri)
    ensures OnTheLoop(DoCloseReplaced(s), key, uri)
  {
    hide Registered;
  }

  lemma ClosedElsewhere(s: State, key: Key, uri: Uri)
    requires SessionsOk(s.books, s.sinks) && LoopOk(s) && s.loop.Replacing? && Waiting(s, key, uri)
    ensures Waiting(DoCloseReplaced(s), key, uri)
  {
    hide Merged;
  }

  lemma ClosedCarries(s: State, key: Key, uri: Uri)
    requires s.loop.Replacing?
    ensures var t := DoCloseReplaced(s); Carried(s.hands, s.sinks, key, uri) ==> Carried(t.hands, t.sinks, key, uri)
    ensures DoCloseReplaced(s).debts == s.debts && DoCloseReplaced(s).books == s.books
  {
    hide Merged;
  }

  lemma SafeCloseReplaced(s: State, key: Key, uri: Uri)
    requires Inv(s) && s.loop.Replacing? && Safe(s, key, uri)
    ensures Safe(DoCloseReplaced(s), key, uri)
  {
    InvParts(s);
    SessionsAreOpen(s);
    hide Core, OpenOk, LoopOk, Waiting, Carried, OnTheLoop, DoCloseReplaced, SessionsOk;
    ClosedCarries(s, key, uri);
    if OnTheLoop(s, key, uri) { ClosedGoesOn(s, key, uri); }
    if Waiting(s, key, uri) { ClosedElsewhere(s, key, uri); }
  }

  lemma SessionsAreOpen(s: State)
    requires Core(s)
    ensures SessionsOk(s.books, s.sinks)
  {
  }

  lemma SafeRequeue(s: State, order: seq<Kind>, key: Key, uri: Uri)
    requires Inv(s) && s.loop.Requeueing? && Safe(s, key, uri)
    ensures Safe(DoRequeue(s, order), key, uri)
  {
    hide Core, OpenOk;
  }

  lemma SafeDropped(s: State, sid: Sid, unsent: seq<Uri>, graceful: bool, key: Key, uri: Uri)
    requires Inv(s) && sid in s.sinks && Safe(s, key, uri)
    requires Carries(s.loop) ==> s.loop.Flushing? && s.loop.sid == sid && OnOpen(s, sid) && s.loop.rest == unsent
    ensures Safe(Dropped(s, sid, unsent, graceful), key, uri)
  {
    InvParts(s);
    SessionsAreOpen(s);
    hide Inv, Core, OpenOk, LoopOk;
    if Registered(s.books, sid, s.sinks[sid].to) { DroppedKeeps(s, sid, unsent, graceful, key, uri); }
  }

  /** What waits in the sink, or is in the flush that failed, is in the hands of the operation that closes it. */
  lemma DroppedKeeps(s: State, sid: Sid, unsent: seq<Uri>, graceful: bool, key: Key, uri: Uri)
    requires SessionsOk(s.books, s.sinks) && sid in s.sinks && Safe(s, key, uri)
    requires Registered(s.books, sid, s.sinks[sid].to)
    requires Carries(s.loop) ==> s.loop.Flushing? && s.loop.sid == sid && s.loop.rest == unsent
    ensures Safe(Dropped(s, sid, unsent, graceful), key, uri)
  {
    if s.sinks[sid].to.listen { hide SessionsOk, Carried; }
    else { hide Carried; }
  }

  lemma SafeCloseUnregistered(s: State, key: Key, uri: Uri)
    requires Inv(s) && s.loop.Closing? && s.loop.sid in s.sinks && Safe(s, key, uri)
    ensures Safe(DoCloseUnregistered(s), key, uri)
  {
    hide CountsOk, ClosedOk, ScheduledOk, RespectsView, OpenOk, TokensOk;
  }

  lemma SafeStartFlush(s: State, sid: Sid, key: Key, uri: Uri)
    requires Inv(s) && s.loop.Idle? && sid in s.sinks && FlushQueued(sid) in s.hands && Safe(s, key, uri)
    ensures Safe(DoStartFlush(s, sid), key, uri)
  {
    hide CountsOk, ClosedOk, ScheduledOk, RespectsView, OpenOk, TokensOk;
  }

  lemma SafeStepFlush(s: State, key: Key, uri: Uri)
    requires Inv(s) && s.loop.Flushing? && s.loop.sid in s.sinks && Safe(s, key, uri)
    ensures Safe(DoStepFlush(s), key, uri)
  {
    hide Core, OpenOk, Carried;
  }

  lemma SafeSent(s: State, key: Key, uri: Uri)
    requires LoopOk(s) && Enabled(s, SendUpdate(true)) && Safe(s, key, uri)
    ensures Safe(DoSendUpdate(s, true), key, uri)
  {
    hide Registered, Unregistered, Dropped;
  }

  lemma SafeUnsent(s: State, key: Key, uri: Uri)
    requires Inv(s) && s.loop.Flushing? && s.loop.rest != [] && s.loop.sid in s.sinks && Safe(s, key, uri)
    ensures Safe(DoSendUpdate(s, false), key, uri)
  {
    assert OnOpen(s, s.loop.sid);
    hide Inv, Safe, OnOpen, Dropped;
    SafeDropped(s, s.loop.sid, s.loop.rest, false, key, uri);
  }

  ghost predicate Holds(b: Books, key: Key, uri: Uri) {
    key in b.subscribed && uri in b.subscribed[key].held
  }

  lemma SubscribedToHolds(b: Books, of: Key, taken: Uri, cap: nat, key: Key, uri: Uri)
    requires Holds(b, key, uri)
    ensures Holds(SubscribedTo(b, of, taken, cap), key, uri)
  {
  }

  lemma UnsubscribedHolds(b: Books, of: Key, taken: Uri, key: Key, uri: Uri)
    requires Holds(b, key, uri) && Watches(UnsubscribedFrom(b, of, taken), key, uri)
    ensures Holds(UnsubscribedFrom(b, of, taken), key, uri)
  {
  }

  lemma SetToHolds(b: Books, of: Key, uris: set<Uri>, hold: bool, key: Key, uri: Uri)
    requires Holds(b, key, uri) && Watches(SetTo(b, of, uris, hold), key, uri)
    ensures Holds(SetTo(b, of, uris, hold), key, uri)
  {
  }

  lemma AddedHolds(b: Books, of: Key, taken: Uri, hold: bool, key: Key, uri: Uri)
    requires Holds(b, key, uri)
    ensures Holds(Added(b, of, taken, hold), key, uri)
  {
  }

  /** What was held for a URI that is still watched is still held. */
  lemma SubscribesHeld(b: Books, a: Action, key: Key, uri: Uri)
    requires Subscribes(a) && Holds(b, key, uri) && Watches(After(b, a), key, uri)
    ensures Holds(After(b, a), key, uri)
  {
    hide SubscribedTo, UnsubscribedFrom, SetTo, Added;
    match a
    case Subscribe(of, taken, cap) => SubscribedToHolds(b, of, taken, cap, key, uri);
    case Unsubscribe(of, taken) => UnsubscribedHolds(b, of, taken, key, uri);
    case SetSubscriptions(of, uris, hold) => SetToHolds(b, of, uris, hold, key, uri);
    case AddSubscription(of, taken, hold) => AddedHolds(b, of, taken, hold, key, uri);
    case ForgetSession(_) =>
  }

  lemma SafeSubscribes(s: State, a: Action, key: Key, uri: Uri)
    requires Core(s) && Subscribes(a) && Enabled(s, a) && Safe(s, key, uri)
    ensures Safe(Do(s, a), key, uri)
  {
    hide Core, Do, After, OnTheLoop;
    CoreSubscribedOk(s);
    SubscribesOk(s.books, a);
    CoreSubscribes(s, a);
    var t := Booked(s, After(s.books, a));
    assert OnTheLoop(s, key, uri) ==> OnTheLoop(t, key, uri) by { LoopSame(s, t, key, uri); }
    if (key, uri) in t.debts && key in s.books.subscribed &&
        uri in s.books.subscribed[key].held { SubscribesHeld(s.books, a, key, uri); }
  }

  lemma LoopSame(s: State, t: State, key: Key, uri: Uri)
    requires t.loop == s.loop && t.sinks == s.sinks
    ensures OnTheLoop(s, key, uri) == OnTheLoop(t, key, uri)
  {
  }

  /** A session that watches the URI is offered the update, or keeps it. */
  lemma PublishedHere(s: State, key: Key, uri: Uri)
    requires SessionsOk(s.books, s.sinks) && SubscribedOk(s.books) && Watches(s.books, key, uri)
    ensures Located(DoPublish(s, uri), key, uri)
  {
    hide OnTheLoop, Streams;
    var t := DoPublish(s, uri);
    if key in s.books.sessions { assert Offer(s.books.sessions[key], uri) in t.hands; }
    else { assert t.books.subscribed[key].held == Put(s.books.subscribed[key].held, uri); }
  }

  /** What was located stays where it is. */
  lemma PublishKeeps(s: State, published: Uri, key: Key, uri: Uri)
    requires Located(s, key, uri)
    ensures Located(DoPublish(s, published), key, uri)
  {
    hide OnTheLoop, Streams;
    LoopSame(s, DoPublish(s, published), key, uri);
    assert forall k :: k in s.hands ==> k in DoPublish(s, published).hands;
  }

  lemma SafePublish(s: State, published: Uri, key: Key, uri: Uri)
    requires Inv(s) && Safe(s, key, uri)
    ensures Safe(DoPublish(s, published), key, uri)
  {
    InvParts(s);
    CoreSubscribedOk(s);
    SessionsAreOpen(s);
    hide Inv, Core, OpenOk, LoopOk, Located, SessionsOk, SubscribedOk, Streams;
    var t := DoPublish(s, published);
    assert Watches(t.books, key, uri) <==> Watches(s.books, key, uri);
    if (key, uri) in s.debts { PublishKeeps(s, published, key, uri); }
    else if (key, uri) in t.debts { PublishedHere(s, key, uri); }
  }

  /** A sink that takes an update has it, or is about to hand it on. */
  lemma QueuedLocated(s: State, sid: Sid, uri: Uri, key: Key)
    requires OpenOk(s) && LoopOk(s) && sid in s.sinks && !s.sinks[sid].closed && !s.sinks[sid].to.listen &&
      s.sinks[sid].to.key == key
    ensures Located(Queued(s, sid, uri), key, uri)
  {
    var t := Queued(s, sid, uri);
    assert uri in t.sinks[sid].updates;
  }

  /** The others keep what they have. */
  lemma QueuedKeeps(s: State, sid: Sid, taken: Uri, key: Key, uri: Uri)
    requires sid in s.sinks && Safe(s, key, uri)
    ensures Safe(Queued(s, sid, taken), key, uri)
  {
  }

  /** Only the token for this session and URI matters to it. */
  lemma TakenElsewhere(s: State, sid: Sid, taken: Uri, key: Key, uri: Uri)
    requires Safe(s, key, uri) && sid in s.sinks && Offer(sid, taken) in s.hands
    requires taken != uri || s.sinks[sid].to.listen || s.sinks[sid].to.key != key
    ensures Safe(s.(hands := s.hands - multiset{Offer(sid, taken)}), key, uri)
  {
    var t := s.(hands := s.hands - multiset{Offer(sid, taken)});
    forall k | k in s.hands && k != Offer(sid, taken) ensures k in t.hands {}
  }

  lemma SafeTakeOffer(s: State, sid: Sid, taken: Uri, key: Key, uri: Uri)
    requires Inv(s) && Enabled(s, TakeOffer(sid, taken)) && Safe(s, key, uri)
    ensures Safe(DoTakeOffer(s, sid, taken), key, uri)
  {
    hide Core, OnTheLoop, Waiting, Queued, LoopOk, OpenOk;
    var sink, s1 := s.sinks[sid], s.(hands := s.hands - multiset{Offer(sid, taken)});
    InvParts(s);
    if taken == uri && !sink.to.listen && sink.to.key == key {
      if sink.closed { assert Look(key, uri) in DoTakeOffer(s, sid, taken).hands; }
      else {
        OpenLoopHands(s, s1);
        QueuedLocated(s1, sid, uri, key);
        QueuedDebts(s1, sid, uri);
      }
    } else {
      TakenElsewhere(s, sid, taken, key, uri);
      if !sink.closed { QueuedKeeps(s1, sid, taken, key, uri); }
      else { AsideKeeps(s1, DoTakeOffer(s, sid, taken), key, uri); }
    }
  }

  lemma OpenLoopHands(s: State, t: State)
    requires OpenOk(s) && LoopOk(s) && t == s.(hands := t.hands)
    ensures OpenOk(t) && LoopOk(t)
  {
  }

  lemma QueuedDebts(s: State, sid: Sid, uri: Uri)
    requires sid in s.sinks
    ensures Queued(s, sid, uri).debts == s.debts && Queued(s, sid, uri).books == s.books
  {
  }

  /** Only the token for this session and URI matters to it. */
  lemma LookCarries(hands: multiset<Token>, after: multiset<Token>, taken: Token, sinks: map<Sid, Sink>, key: Key,
      uri: Uri)
    requires Carried(hands, sinks, key, uri) && taken != Look(key, uri) && !taken.Offer?
    requires forall k :: k in hands && k != taken ==> k in after
    ensures Carried(after, sinks, key, uri)
  {
  }

  lemma LookWaits(s: State, of: Key, taken: Uri, key: Key, uri: Uri)
    requires Waiting(s, key, uri)
    ensures Waiting(DoTakeLook(s, of, taken), key, uri)
  {
  }

  lemma LookKeeps(s: State, of: Key, taken: Uri, key: Key, uri: Uri)
    requires Look(of, taken) in s.hands
    ensures var t := DoTakeLook(s, of, taken);
      && t.debts == s.debts && t.sinks == s.sinks && t.loop == s.loop &&
          (Watches(t.books, key, uri) <==> Watches(s.books, key, uri))
      && forall k :: k in s.hands && k != Look(of, taken) ==> k in t.hands
  {
  }

  lemma LookElsewhere(s: State, of: Key, taken: Uri, key: Key, uri: Uri)
    requires Safe(s, key, uri) && (of != key || taken != uri) && Look(of, taken) in s.hands
    ensures Safe(DoTakeLook(s, of, taken), key, uri)
  {
    hide OnTheLoop, Waiting, Carried, Watches, DoTakeLook;
    var t := DoTakeLook(s, of, taken);
    LookKeeps(s, of, taken, key, uri);
    LoopSame(s, t, key, uri);
    if Waiting(s, key, uri) { LookWaits(s, of, taken, key, uri); }
    if Carried(s.hands, s.sinks, key, uri) { LookCarries(s.hands, t.hands, Look(of, taken), s.sinks, key, uri); }
  }

  lemma LookHere(s: State, key: Key, uri: Uri)
    requires Core(s) && Watches(s.books, key, uri)
    ensures Located(DoTakeLook(s, key, uri), key, uri) && Watches(DoTakeLook(s, key, uri).books, key, uri)
  {
    hide CountsOk, ClosedOk, ScheduledOk, RespectsView, TokensOk, ChannelsOk, OnTheLoop;
    if key in s.books.sessions { assert Offer(s.books.sessions[key], uri) in DoTakeLook(s, key, uri).hands; }
  }

  lemma SafeTakeLook(s: State, of: Key, taken: Uri, key: Key, uri: Uri)
    requires Inv(s) && Enabled(s, TakeLook(of, taken)) && Safe(s, key, uri)
    ensures Safe(DoTakeLook(s, of, taken), key, uri)
  {
    hide Core, LoopOk, OpenOk, Located;
    if of == key && taken == uri {
      if Watches(s.books, key, uri) { LookHere(s, key, uri); }
    } else {
      LookElsewhere(s, of, taken, key, uri);
    }
  }

  ghost predicate Touches(a: Action) {
    || a.RegisterSession? || a.CloseReplaced? || a.Requeue? || a.CloseUnregistered? || a.StartFlush? || a.StepFlush?
    || a.SendUpdate? || Subscribes(a) || a.Publish? || a.TakeOffer? || a.TakeLook?
  }

  lemma AsideHands(s: State, t: State)
    requires t == s.(hands := t.hands, loop := t.loop, lists := t.lists) && forall k ::
      k in s.hands && (k.Offer? || k.Look?) ==> k in t.hands
    ensures Aside(s, t)
  {
  }

  lemma AsideFire(s: State, sid: Sid, order: seq<Kind>)
    requires sid in s.sinks
    ensures Aside(s, DoFire(s, sid, order))
  {
  }

  lemma AsideRegisterListen(s: State, sid: Sid)
    requires s.loop.Opening? && sid !in s.sinks
    ensures Aside(s, DoRegisterListen(s, sid))
  {
    hide Refused;
  }

  lemma AsidePended(s: State, sid: Sid, kinds: set<Kind>)
    requires sid in s.sinks
    ensures Aside(s, Pended(s, sid, kinds))
  {
  }

  lemma AsideRefresh(s: State, sid: Sid, identity: Identity)
    requires sid in s.sinks
    ensures Aside(s, DoRefreshIdentity(s, sid, identity))
  {
    hide Pended;
    var sink := s.sinks[sid];
    AsidePended(s.(sinks := s.sinks[sid := sink.(identity := identity, baselines := map[])]), sid, sink.to.kinds);
  }

  lemma AsideTell(s: State, sid: Sid, kind: Kind)
    requires sid in s.sinks
    ensures var t := Pended(s.(hands := s.hands - multiset{Tell(sid, kind)}), sid, {kind});
      Aside(s, t) && t.loop == s.loop
  {
  }

  lemma AsideReads(s: State, a: Action)
    requires Enabled(s, a) && (a.ReadSession? || a.ReadListen? || a.StepDeliver?) && !Drops(s, a)
    ensures Aside(s, Do(s, a)) && !Carries(s.loop)
  {
    hide Registered, Computed, RespectsView;
  }

  lemma AsideSendEnd(s: State, ok: bool)
    requires s.loop.Ending? && s.loop.sid in s.sinks
    ensures Aside(s, DoSendEnd(s, ok))
  {
  }

  lemma AsideSendNotice(s: State)
    requires s.loop.Pushing? && s.loop.sid in s.sinks
    ensures Aside(s, DoSendNotice(s, true))
  {
    hide Dropped;
  }

  lemma AsideSends(s: State, a: Action)
    requires Enabled(s, a) && (a.SendEnd? || a.SendNotice? || a.SendAck?) && !Drops(s, a)
    ensures Aside(s, Do(s, a)) && !Carries(s.loop)
  {
    hide Dropped, DoSendEnd, DoSendNotice;
    match a
    case SendEnd(ok) => AsideSendEnd(s, ok);
    case SendNotice(_) => AsideSendNotice(s);
    case SendAck(_) =>
  }

  lemma AsideTurns(s: State, a: Action)
    requires Enabled(s, a) && (a.Arm? || a.Fire? || a.RegisterListen? || a.RefreshIdentity?)
    ensures Aside(s, Do(s, a)) && !Carries(s.loop)
  {
    hide Refused, ClientCount, RespectsView, Spells, Aside, Pended;
    match a
    case Arm(sid) => AsideHands(s, Do(s, a));
    case Fire(sid, _) => AsideFire(s, sid, a.order);
    case RegisterListen(sid) => AsideRegisterListen(s, sid);
    case RefreshIdentity(key, identity) => AsideRefresh(s, s.books.sessions[key], identity);
  }

  lemma AsideAnnounce(s: State, kind: Kind)
    ensures Aside(s, DoTakeAnnounce(s, kind)) && (Carries(s.loop) ==> DoTakeAnnounce(s, kind).loop == s.loop)
  {
    hide Streams, Aside;
    AsideHands(s, DoTakeAnnounce(s, kind));
  }

  lemma AsideLists(s: State, a: Action)
    requires Enabled(s, a) && (a.ChangeList? || a.TakeAnnounce?)
    ensures Aside(s, Do(s, a)) && (Carries(s.loop) ==> Do(s, a).loop == s.loop)
  {
    hide Lists1, Aside, Carries, DoTakeAnnounce;
    match a
    case ChangeList(kind, _) => AsideHands(s, Do(s, a));
    case TakeAnnounce(kind) => AsideAnnounce(s, kind);
  }

  lemma AsideCall(s: State, taken: Token, given: Token)
    requires !taken.Offer? && !taken.Look?
    ensures Aside(s, s.(hands := s.hands - multiset{taken} + multiset{given}))
  {
  }

  lemma AsideCalls(s: State, a: Action)
    requires Enabled(s, a) && (a.TakeTell? || a.CallArm? || a.CallFlush?)
    ensures Aside(s, Do(s, a)) && Do(s, a).loop == s.loop
  {
    hide Aside, Pended;
    match a
    case TakeTell(sid, kind) => AsideTell(s, sid, kind);
    case CallArm(sid) => AsideCall(s, AskArm(sid), ArmQueued(sid));
    case CallFlush(sid) => AsideCall(s, AskFlush(sid), FlushQueued(sid));
  }

  lemma AsideSteps(s: State, a: Action)
    requires Enabled(s, a) && !Touches(a) && !Drops(s, a)
    ensures Aside(s, Do(s, a)) && (Carries(s.loop) ==> Do(s, a).loop == s.loop)
  {
    hide Aside, Do, Carries;
    if a.ReadSession? || a.ReadListen? || a.StepDeliver? { AsideReads(s, a); }
    else if a.SendEnd? || a.SendNotice? || a.SendAck? { AsideSends(s, a); }
    else if a.Arm? || a.Fire? || a.RegisterListen? || a.RefreshIdentity? { AsideTurns(s, a); }
    else if a.ChangeList? || a.TakeAnnounce? { AsideLists(s, a); }
    else { AsideCalls(s, a); }
  }

  lemma SafeTouches(s: State, a: Action, key: Key, uri: Uri)
    requires Inv(s) && Enabled(s, a) && Touches(a) && Safe(s, key, uri)
    ensures Safe(Do(s, a), key, uri)
  {
    hide Inv, Safe;
    InvParts(s);
    if Subscribes(a) { SafeSubscribes(s, a, key, uri); }
    else {
      match a
      case RegisterSession(sid) => SafeRegisterSession(s, sid, key, uri);
      case CloseReplaced => SafeCloseReplaced(s, key, uri);
      case Requeue(order) => SafeRequeue(s, order, key, uri);
      case CloseUnregistered => SafeCloseUnregistered(s, key, uri);
      case StartFlush(sid) => SafeStartFlush(s, sid, key, uri);
      case StepFlush => SafeStepFlush(s, key, uri);
      case SendUpdate(ok) => if ok { SafeSent(s, key, uri); } else { SafeUnsent(s, key, uri); }
      case Publish(published) => SafePublish(s, published, key, uri);
      case TakeOffer(sid, taken) => SafeTakeOffer(s, sid, taken, key, uri);
      case TakeLook(of, taken) => SafeTakeLook(s, of, taken, key, uri);
    }
  }

  lemma SafeDrops(s: State, a: Action, key: Key, uri: Uri)
    requires Inv(s) && Enabled(s, a) && Drops(s, a) && !Touches(a) && Safe(s, key, uri)
    ensures Safe(Do(s, a), key, uri)
  {
    hide Inv, Safe;
    match a
    case EndSession(of) => SafeDropped(s, s.books.sessions[of], [], false, key, uri);
    case EndListen(sid, graceful) => SafeDropped(s, sid, [], graceful, key, uri);
    case StepDeliver => SafeDropped(s, s.loop.sid, [], s.sinks[s.loop.sid].to.listen, key, uri);
    case SendNotice(_) => SafeDropped(s, s.loop.sid, [], false, key, uri);
    case SendAck(_) => SafeDropped(s, s.loop.sid, [], false, key, uri);
  }

  /** No step loses an update. */
  lemma SafeStep(s: State, a: Action, key: Key, uri: Uri)
    requires Inv(s) && Enabled(s, a) && Safe(s, key, uri)
    ensures Safe(Do(s, a), key, uri)
  {
    hide Inv, Safe, Aside, Drops, Do;
    if Touches(a) { SafeTouches(s, a, key, uri); }
    else if Drops(s, a) { SafeDrops(s, a, key, uri); }
    else { AsideSteps(s, a); AsideKeeps(s, Do(s, a), key, uri); }
  }

  lemma {:induction false} SafeRun(s: State, run: seq<Action>, t: State, key: Key, uri: Uri)
    requires Inv(s) && Leads(s, run, t) && Safe(s, key, uri)
    ensures Safe(t, key, uri)
    decreases |run|
  {
    if run != [] {
      InvStep(s, run[0]);
      SafeStep(s, run[0], key, uri);
      SafeRun(Do(s, run[0]), run[1..], t, key, uri);
    }
  }

  /** The ledger: what it holds of a session is located. */
  lemma OwedIsLocated(t: State, key: Key, uri: Uri)
    requires Reachable(t) && (key, uri) in t.debts
    ensures Watches(t.books, key, uri) && Located(t, key, uri)
  {
    hide Inv, Located;
    var s, run :| Initial(s) && Leads(s, run, t);
    InitialInv(s);
    SafeRun(s, run, t, key, uri);
  }

  // --------------------------------------------------- without the ledger

  /** A sink of the session is sent the update by the step. */
  ghost predicate SessionIsSent(s: State, t: State, key: Key, uri: Uri) {
    exists sid :: SessionSink(s, sid, key) && IsSent(s, t, sid, uri)
  }

  /** The step is a push of it that is taken. */
  ghost predicate Pushes(s: State, a: Action, key: Key, uri: Uri) {
    a == SendUpdate(true) && s.loop.Flushing? && s.loop.rest != [] && s.loop.rest[0] == uri &&
        SessionSink(s, s.loop.sid, key)
  }

  lemma PushesAreSent(s: State, a: Action, key: Key, uri: Uri)
    requires Core(s) && Enabled(s, a) && Pushes(s, a, key, uri)
    ensures SessionIsSent(s, Do(s, a), key, uri)
  {
    hide Core, Do, IsSent;
    ToldMore(s, a, s.loop.sid, uri);
  }

  lemma PublishedIsOwed(s: State, key: Key, uri: Uri)
    ensures (key, uri) in DoPublish(s, uri).debts <==> (key, uri) in s.debts || Watches(s.books, key, uri)
    ensures Watches(DoPublish(s, uri).books, key, uri) <==> Watches(s.books, key, uri)
  {
  }

  lemma OwedDropped(s: State, sid: Sid, unsent: seq<Uri>, graceful: bool, key: Key, uri: Uri)
    requires sid in s.sinks && (key, uri) in s.debts && Watches(Dropped(s, sid, unsent, graceful).books, key, uri)
    ensures (key, uri) in Dropped(s, sid, unsent, graceful).debts
  {
    hide Registered, Unregistered;
  }

  lemma OwedDrops(s: State, a: Action, key: Key, uri: Uri)
    requires Enabled(s, a) && Drops(s, a) && (key, uri) in s.debts && Watches(Do(s, a).books, key, uri)
    ensures (key, uri) in Do(s, a).debts
  {
    hide Dropped, Registered, Watches;
    match a
    case EndSession(of) => OwedDropped(s, s.books.sessions[of], [], false, key, uri);
    case EndListen(sid, graceful) => OwedDropped(s, sid, [], graceful, key, uri);
    case SendUpdate(_) => OwedDropped(s, s.loop.sid, s.loop.rest, false, key, uri);
    case StepDeliver => OwedDropped(s, s.loop.sid, [], s.sinks[s.loop.sid].to.listen, key, uri);
    case SendNotice(_) => OwedDropped(s, s.loop.sid, [], false, key, uri);
    case SendAck(_) => OwedDropped(s, s.loop.sid, [], false, key, uri);
  }

  lemma OwedRegistered(s: State, sid: Sid, key: Key, uri: Uri)
    requires s.loop.Watching? && (key, uri) in s.debts && Watches(DoRegisterSession(s, sid).books, key, uri)
    ensures (key, uri) in DoRegisterSession(s, sid).debts
  {
    hide SetTo, Overlooked, Watches;
  }

  lemma OwedClosed(s: State, a: Action, key: Key, uri: Uri)
    requires Enabled(s, a) && (a.CloseReplaced? || a.CloseUnregistered? || a.Requeue?) && (key, uri) in s.debts
    ensures (key, uri) in Do(s, a).debts
  {
    hide Merged, Spells;
    match a
    case CloseReplaced =>
    case CloseUnregistered =>
    case Requeue(_) =>
  }

  lemma OwedFlushed(s: State, a: Action, key: Key, uri: Uri)
    requires Enabled(s, a) && (a.StartFlush? || a.StepFlush?) && (key, uri) in s.debts
    ensures (key, uri) in Do(s, a).debts
  {
    hide Watches;
    match a
    case StartFlush(_) =>
    case StepFlush =>
  }

  lemma OwedSent(s: State, key: Key, uri: Uri)
    requires s.loop.Flushing? && s.loop.rest != [] && s.loop.sid in s.sinks && (key, uri) in s.debts
    requires !(s.loop.rest[0] == uri && SessionSink(s, s.loop.sid, key))
    ensures (key, uri) in DoSendUpdate(s, true).debts
  {
    hide Dropped;
  }

  lemma OwedMoves(s: State, a: Action, key: Key, uri: Uri)
    requires Enabled(s, a) && Touches(a) && OnLoop(a) && !Drops(s, a) && !Pushes(s, a, key, uri)
    requires (key, uri) in s.debts && Watches(Do(s, a).books, key, uri)
    ensures (key, uri) in Do(s, a).debts
  {
    hide Watches, DoRegisterSession, DoSendUpdate, SessionSink, Spells;
    if a.RegisterSession? { OwedRegistered(s, a.sid, key, uri); }
    else if a.SendUpdate? { OwedSent(s, key, uri); }
    else { OwedMovesOn(s, a, key, uri); }
  }

  lemma OwedMovesOn(s: State, a: Action, key: Key, uri: Uri)
    requires Enabled(s, a) && Touches(a) && OnLoop(a) && !a.RegisterSession? && !a.SendUpdate? && (key, uri) in s.debts
    ensures (key, uri) in Do(s, a).debts
  {
    hide Enabled, Do;
    if a.StartFlush? || a.StepFlush? { OwedFlushed(s, a, key, uri); } else { OwedClosed(s, a, key, uri); }
  }

  lemma OwedErrands(s: State, a: Action, key: Key, uri: Uri)
    requires Enabled(s, a) && (a.Publish? || a.TakeOffer? || a.TakeLook?) && (key, uri) in s.debts
    ensures (key, uri) in Do(s, a).debts
  {
    hide HeldFor, Streams;
    match a
    case Publish(_) =>
    case TakeOffer(_, _) =>
    case TakeLook(_, _) =>
  }

  /** An update stays owed unless the session stops watching the URI or is sent it. */
  lemma OwedStays(s: State, a: Action, key: Key, uri: Uri)
    requires Core(s) && Enabled(s, a) && !Pushes(s, a, key, uri) && (key, uri) in s.debts &&
      Watches(Do(s, a).books, key, uri)
    ensures (key, uri) in Do(s, a).debts
  {
    hide Core, Do, Drops, Pushes, Watches;
    if Drops(s, a) { OwedDrops(s, a, key, uri); }
    else if Subscribes(a) { OwedSubscribes(s, a, key, uri); }
    else if a.Publish? || a.TakeOffer? || a.TakeLook? { OwedErrands(s, a, key, uri); }
    else if Touches(a) { OwedMoves(s, a, key, uri); }
    else { AsideSteps(s, a); }
  }

  lemma OwedSubscribes(s: State, a: Action, key: Key, uri: Uri)
    requires Core(s) && Enabled(s, a) && Subscribes(a) && (key, uri) in s.debts && Watches(Do(s, a).books, key, uri)
    ensures (key, uri) in Do(s, a).debts
  {
    hide Core, Do, After;
    CoreSubscribes(s, a);
  }

  /** All along the run the session watches the URI, and no step sends it the update. */
  ghost predicate WatchedUnsent(s: State, run: seq<Action>, key: Key, uri: Uri)
    decreases |run|
  {
    && Watches(s.books, key, uri)
    && (run != [] ==>
          && Enabled(s, run[0]) && !SessionIsSent(s, Do(s, run[0]), key, uri)
          && WatchedUnsent(Do(s, run[0]), run[1..], key, uri))
  }

  lemma {:induction false} OwedRun(s: State, run: seq<Action>, t: State, key: Key, uri: Uri)
    requires Inv(s) && Leads(s, run, t) && WatchedUnsent(s, run, key, uri) && (key, uri) in s.debts &&
      Located(s, key, uri)
    ensures Inv(t) && (key, uri) in t.debts && Located(t, key, uri) && Watches(t.books, key, uri)
    decreases |run|
  {
    if run != [] {
      hide Inv, Pushes, Located, SessionIsSent;
      InvParts(s);
      var next := Do(s, run[0]);
      if Pushes(s, run[0], key, uri) { PushesAreSent(s, run[0], key, uri); }
      InvStep(s, run[0]);
      assert Watches(next.books, key, uri);
      OwedStays(s, run[0], key, uri);
      SafeStep(s, run[0], key, uri);
      OwedRun(next, run[1..], t, key, uri);
    }
  }

  /**
   * Whatever the interleaving: once an update is published to a session that watches the URI, and for as long as the
   * session watches it and has not been sent it, the update is held, waits in the session's sink, or is in the hands
   * of an operation that will requeue it.
   */
  lemma NoUpdateLost(s: State, run: seq<Action>, t: State, key: Key, uri: Uri)
    requires Reachable(s) && Watches(s.books, key, uri)
    requires Leads(DoPublish(s, uri), run, t) && WatchedUnsent(DoPublish(s, uri), run, key, uri)
    ensures Located(t, key, uri)
  {
    hide Inv, Located, DoPublish, Do, Enabled, Leads, WatchedUnsent, Reachable;
    InvPublished(s, uri);
    PublishedIsOwed(s, key, uri);
    PublishedIsLocated(s, key, uri);
    OwedRun(DoPublish(s, uri), run, t, key, uri);
  }

  lemma InvPublished(s: State, uri: Uri)
    requires Reachable(s)
    ensures Inv(DoPublish(s, uri))
  {
    hide Inv, Reachable, DoPublish;
    InvHolds(s);
    InvStep(s, Publish(uri));
  }

  /** Published, it is held for a session without a sink, or about to be offered to the session's sink. */
  lemma PublishedIsLocated(s: State, key: Key, uri: Uri)
    requires Reachable(s) && Watches(s.books, key, uri)
    ensures Located(DoPublish(s, uri), key, uri)
  {
    hide Inv, Located, Safe;
    var first, run :| Initial(first) && Leads(first, run, s);
    InvHolds(s);
    InitialInv(first);
    SafeInitially(first, key, uri);
    SafeRun(first, run, s, key, uri);
    SafePublish(s, uri, key, uri);
    PublishedIsOwed(s, key, uri);
    SafeOwed(DoPublish(s, uri), key, uri);
  }

  lemma SafeInitially(s: State, key: Key, uri: Uri)
    requires Initial(s)
    ensures Safe(s, key, uri)
  {
  }

  lemma SafeOwed(s: State, key: Key, uri: Uri)
    requires Safe(s, key, uri) && (key, uri) in s.debts
    ensures Located(s, key, uri)
  {
  }

  /** Nothing is on its way to a sink or between two steps. */
  ghost predicate Settled(s: State) {
    s.loop.Idle? && forall k :: k in s.hands ==> !k.Offer? && !k.Look?
  }

  /**
   * Once publishers and the loop come to rest, such an update is held for a session without a sink that keeps
   * updates, or waits in its open sink, for which exactly one flush is on its way.
   */
  lemma WhereAnUpdateRests(s: State, run: seq<Action>, t: State, key: Key, uri: Uri)
    requires Reachable(s) && Watches(s.books, key, uri)
    requires Leads(DoPublish(s, uri), run, t) && WatchedUnsent(DoPublish(s, uri), run, key, uri) && Settled(t)
    ensures key in t.books.subscribed
    ensures key !in t.books.sessions ==> uri in t.books.subscribed[key].held && t.books.subscribed[key].hold
    ensures key in t.books.sessions ==>
      var sid := t.books.sessions[key];
      && sid in t.sinks && !t.sinks[sid].closed && uri in t.sinks[sid].updates
      && t.hands[AskFlush(sid)] + t.hands[FlushQueued(sid)] == 1
  {
    hide Inv, Located, Settled, DoPublish, Do, Enabled, Leads, WatchedUnsent, Reachable;
    InvPublished(s, uri);
    PublishedIsOwed(s, key, uri);
    PublishedIsLocated(s, key, uri);
    OwedRun(DoPublish(s, uri), run, t, key, uri);
    RestsAt(t, key, uri);
  }

  lemma RestsAt(t: State, key: Key, uri: Uri)
    requires Inv(t) && Settled(t) && Watches(t.books, key, uri) && Located(t, key, uri)
    ensures key !in t.books.sessions ==> uri in t.books.subscribed[key].held && t.books.subscribed[key].hold
    ensures key in t.books.sessions ==>
      var sid := t.books.sessions[key];
      && sid in t.sinks && !t.sinks[sid].closed && uri in t.sinks[sid].updates
      && t.hands[AskFlush(sid)] + t.hands[FlushQueued(sid)] == 1
  {
    hide CountsOk, ChannelsOk, OpenOk, LoopOk, RespectsView, TokensOk, ClosedOk;
  }
}
