/** What a client is told of a list, by the notices it is sent: also of what changed while no stream of it was open. */
module NotifierHandover {
  import opened Wrappers
  import opened Notifier
  import opened NotifierBooks
  import opened NotifierPushes
  import opened NotifierLists

  /** The step changes who the sink's session is. */
  ghost predicate Refreshes(s: State, a: Action, sid: Sid) {
    a.RefreshIdentity? && a.key in s.books.sessions && s.books.sessions[a.key] == sid
  }

  /** The sink is for whom it was, and remembers the list as it did. */
  ghost predicate Remembers(s: State, t: State, sid: Sid, kind: Kind)
    requires sid in s.sinks
  {
    && sid in t.sinks && t.sinks[sid].identity == s.sinks[sid].identity
    && (kind in s.sinks[sid].baselines ==>
          kind in t.sinks[sid].baselines && t.sinks[sid].baselines[kind] == s.sinks[sid].baselines[kind])
  }

  lemma SameRemembers(s: State, t: State, sid: Sid, kind: Kind)
    requires sid in s.sinks && sid in t.sinks
    requires t.sinks[sid].identity == s.sinks[sid].identity && t.sinks[sid].baselines == s.sinks[sid].baselines
    ensures Remembers(s, t, sid, kind)
  {
  }

  lemma DroppedRemembers(s: State, of: Sid, unsent: seq<Uri>, graceful: bool, sid: Sid, kind: Kind)
    requires of in s.sinks && sid in s.sinks
    ensures Remembers(s, Dropped(s, of, unsent, graceful), sid, kind)
  {
    hide Registered, Unregistered, Remembers;
    SameRemembers(s, Dropped(s, of, unsent, graceful), sid, kind);
  }

  lemma RemembersDrops(s: State, a: Action, sid: Sid, kind: Kind)
    requires Enabled(s, a) && Drops(s, a) && sid in s.sinks
    ensures Remembers(s, Do(s, a), sid, kind)
  {
    hide Dropped, Registered, Remembers;
    match a
    case EndSession(of) => DroppedRemembers(s, s.books.sessions[of], [], false, sid, kind);
    case EndListen(of, graceful) => DroppedRemembers(s, of, [], graceful, sid, kind);
    case SendUpdate(_) => DroppedRemembers(s, s.loop.sid, s.loop.rest, false, sid, kind);
    case StepDeliver => DroppedRemembers(s, s.loop.sid, [], s.sinks[s.loop.sid].to.listen, sid, kind);
    case SendNotice(_) => DroppedRemembers(s, s.loop.sid, [], false, sid, kind);
    case SendAck(_) => DroppedRemembers(s, s.loop.sid, [], false, sid, kind);
  }

  lemma RemembersRegisters(s: State, a: Action, sid: Sid, kind: Kind)
    requires Enabled(s, a) && (a.RegisterSession? || a.RegisterListen?) && sid in s.sinks
    ensures Remembers(s, Do(s, a), sid, kind)
  {
    hide Remembers, Refused, WithStream, SetTo, Overlooked, Booked;
    SameRemembers(s, Do(s, a), sid, kind);
  }

  lemma RemembersCloses(s: State, a: Action, sid: Sid, kind: Kind)
    requires Enabled(s, a) && (a.CloseReplaced? || a.CloseUnregistered?) && sid in s.sinks
    ensures Remembers(s, Do(s, a), sid, kind)
  {
    hide Remembers, Merged;
    SameRemembers(s, Do(s, a), sid, kind);
  }

  lemma RemembersRequeue(s: State, order: seq<Kind>, sid: Sid, kind: Kind)
    requires s.loop.Requeueing? && sid in s.sinks
    ensures Remembers(s, DoRequeue(s, order), sid, kind)
  {
    hide Remembers;
    SameRemembers(s, DoRequeue(s, order), sid, kind);
  }

  lemma RemembersMoves(s: State, a: Action, sid: Sid, kind: Kind)
    requires Enabled(s, a) && Moves(a) && sid in s.sinks
    ensures Remembers(s, Do(s, a), sid, kind)
  {
    hide Remembers, Spells, DoRequeue;
    if a.RegisterSession? || a.RegisterListen? { hide Do, Enabled; RemembersRegisters(s, a, sid, kind); }
    else if a.Requeue? { RemembersRequeue(s, a.order, sid, kind); }
    else { hide Do, Enabled; RemembersCloses(s, a, sid, kind); }
  }

  lemma RemembersReads(s: State, a: Action, sid: Sid, kind: Kind)
    requires Enabled(s, a) && Reads(a) && !Drops(s, a) && sid in s.sinks
    ensures Remembers(s, Do(s, a), sid, kind)
  {
    hide Remembers, Registered, Watches, Computed, RespectsView, Unused;
    SameRemembers(s, Do(s, a), sid, kind);
  }

  /** Only a notice changes it. */
  lemma RemembersSends(s: State, a: Action, sid: Sid, kind: Kind)
    requires Enabled(s, a) && Sends(a) && !Drops(s, a) && sid in s.sinks && Pushed(s, a, sid) != [Notice(kind)]
    ensures Remembers(s, Do(s, a), sid, kind)
  {
    hide Dropped, Registered;
    if !a.SendNotice? { hide Remembers; SameRemembers(s, Do(s, a), sid, kind); }
  }

  lemma RemembersTurns(s: State, a: Action, sid: Sid, kind: Kind)
    requires Enabled(s, a) && (a.StartFlush? || a.Arm? || a.Fire?) && sid in s.sinks
    ensures Remembers(s, Do(s, a), sid, kind)
  {
    hide Remembers, Spells;
    SameRemembers(s, Do(s, a), sid, kind);
  }

  lemma RemembersRefresh(s: State, of: Sid, identity: Identity, sid: Sid, kind: Kind)
    requires of in s.sinks && of != sid && sid in s.sinks
    ensures Remembers(s, DoRefreshIdentity(s, of, identity), sid, kind)
  {
    hide Remembers;
    SameRemembers(s, DoRefreshIdentity(s, of, identity), sid, kind);
  }

  lemma RemembersOffer(s: State, of: Sid, uri: Uri, sid: Sid, kind: Kind)
    requires of in s.sinks && sid in s.sinks
    ensures Remembers(s, DoTakeOffer(s, of, uri), sid, kind)
  {
    hide Remembers;
    SameRemembers(s, DoTakeOffer(s, of, uri), sid, kind);
  }

  lemma RemembersTell(s: State, of: Sid, kinds: set<Kind>, sid: Sid, kind: Kind)
    requires of in s.sinks && sid in s.sinks
    ensures Remembers(s, Pended(s, of, kinds), sid, kind)
  {
    hide Remembers;
    SameRemembers(s, Pended(s, of, kinds), sid, kind);
  }

  lemma ErrandsKeepSinks(s: State, a: Action)
    requires Enabled(s, a) && (a.Publish? || a.TakeLook? || a.TakeAnnounce?)
    ensures Do(s, a).sinks == s.sinks
  {
    hide Streams, HeldFor, Watches, Put;
    match a
    case Publish(_) =>
    case TakeLook(_, _) =>
    case TakeAnnounce(_) =>
  }

  lemma RemembersErrand(s: State, a: Action, sid: Sid, kind: Kind)
    requires Enabled(s, a) && (a.Publish? || a.TakeOffer? || a.TakeLook? || a.TakeAnnounce? || a.TakeTell?)
    requires sid in s.sinks
    ensures Remembers(s, Do(s, a), sid, kind)
  {
    hide Remembers, DoPublish, DoTakeOffer, DoTakeLook, DoTakeAnnounce, Pended;
    if a.TakeOffer? { RemembersOffer(s, a.sid, a.uri, sid, kind); }
    else if a.TakeTell? {
      RemembersTell(s.(hands := s.hands - multiset{Tell(a.sid, a.kind)}), a.sid, {a.kind}, sid, kind);
      RemembersSinks(s, Do(s, a), s.(hands := s.hands - multiset{Tell(a.sid, a.kind)}), sid, kind);
    } else { ErrandsKeepSinks(s, a); SameRemembers(s, Do(s, a), sid, kind); }
  }

  lemma RemembersSinks(s: State, t: State, u: State, sid: Sid, kind: Kind)
    requires sid in s.sinks && u.sinks == s.sinks && Remembers(u, t, sid, kind)
    ensures Remembers(s, t, sid, kind)
  {
  }

  lemma RemembersElsewhere(s: State, a: Action, sid: Sid, kind: Kind)
    requires Core(s) && Enabled(s, a) && !OnLoop(a) && sid in s.sinks
    ensures Remembers(s, Do(s, a), sid, kind)
  {
    hide Core, Remembers, SubscribedTo, UnsubscribedFrom, SetTo, Added, Lists1, After, DoPublish, DoTakeOffer,
        DoTakeLook, DoTakeAnnounce, Pended;
    if Subscribes(a) { CoreSubscribes(s, a); SameRemembers(s, Do(s, a), sid, kind); }
    else if a.ChangeList? || a.CallArm? || a.CallFlush? { SameRemembers(s, Do(s, a), sid, kind); }
    else { RemembersErrand(s, a, sid, kind); }
  }

  /** What a sink was last told of a list changes only by telling it, or with the identity it is for. */
  lemma RemembersStep(s: State, a: Action, sid: Sid, kind: Kind)
    requires Core(s) && Enabled(s, a) && sid in s.sinks && !Refreshes(s, a, sid) && Pushed(s, a, sid) != [Notice(kind)]
    ensures Remembers(s, Do(s, a), sid, kind)
  {
    hide Core, Do, Remembers, Pushed;
    if !OnLoop(a) { RemembersElsewhere(s, a, sid, kind); }
    else if Drops(s, a) { RemembersDrops(s, a, sid, kind); }
    else if Moves(a) { RemembersMoves(s, a, sid, kind); }
    else if Reads(a) { RemembersReads(s, a, sid, kind); }
    else if Sends(a) { RemembersSends(s, a, sid, kind); }
    else if a.RefreshIdentity? { RefreshIs(s, a); RemembersRefresh(s, s.books.sessions[a.key], a.identity, sid, kind); }
    else { RemembersTurns(s, a, sid, kind); }
  }

  lemma RefreshIs(s: State, a: Action)
    requires Enabled(s, a) && a.RefreshIdentity?
    ensures Do(s, a) == DoRefreshIdentity(s, s.books.sessions[a.key], a.identity)
  {
    hide DoRefreshIdentity;
  }

  /** All along the run the sink stays for whom it is. */
  ghost predicate SameIdentity(s: State, run: seq<Action>, sid: Sid)
    decreases |run|
  {
    run != [] ==> Enabled(s, run[0]) && !Refreshes(s, run[0], sid) && SameIdentity(Do(s, run[0]), run[1..], sid)
  }

  /** Without a notice of the list, the sink remembers it as it did; what it was sent before stays sent. */
  lemma {:induction false} RemembersRun(s: State, run: seq<Action>, t: State, sid: Sid, kind: Kind)
    requires Inv(s) && Leads(s, run, t) && sid in s.sinks && SameIdentity(s, run, sid)
    ensures sid in t.sinks && s.sinks[sid].frames <= t.sinks[sid].frames
    ensures Notice(kind) !in t.sinks[sid].frames[|s.sinks[sid].frames|..] ==> Remembers(s, t, sid, kind)
    decreases |run|
  {
    hide Inv, Enabled, Do, Pushed, Refreshes;
    if run != [] {
      InvParts(s);
      InvStep(s, run[0]);
      WhatIsPushed(s, run[0], sid);
      var next := Do(s, run[0]);
      RemembersRun(next, run[1..], t, sid, kind);
      var f, g, h := s.sinks[sid].frames, next.sinks[sid].frames, t.sinks[sid].frames;
      SentSince(f, Pushed(s, run[0], sid), h, Notice(kind));
      if Notice(kind) !in h[|f|..] { RemembersStep(s, run[0], sid, kind); }
    }
  }

  lemma SentSince(before: seq<Frame>, added: seq<Frame>, after: seq<Frame>, frame: Frame)
    requires before + added <= after
    ensures before <= after
    ensures frame !in after[|before|..] ==> added != [frame] && frame !in after[|before + added|..]
  {
    var more := after[|before|..];
    assert after[|before + added|..] == more[|added|..];
    assert more[..|added|] == added;
    if added == [frame] { assert more[0] == frame; }
  }

  /**
   * What a client is sent tells it of every change: where a list is not what its sink was told of it at some time,
   * and the sink is up to date, a notice of it was sent since.
   */
  lemma ChangesAreTold(s: State, run: seq<Action>, t: State, sid: Sid, kind: Kind)
    requires Inv(s) && Leads(s, run, t) && sid in s.sinks && SameIdentity(s, run, sid) && kind in s.sinks[sid].baselines
    requires sid in t.sinks && UpToDate(t.sinks[sid], t.lists, kind)
    requires t.lists(kind, s.sinks[sid].identity) != Some(s.sinks[sid].baselines[kind])
    ensures s.sinks[sid].frames <= t.sinks[sid].frames && Notice(kind) in t.sinks[sid].frames[|s.sinks[sid].frames|..]
  {
    hide Inv, Leads, SameIdentity;
    RemembersRun(s, run, t, sid, kind);
  }

  // ------------------------------------------------ while no stream was open

  /**
   * A session's new sink is measured from what it is given: of each list it is to watch that can be computed, the
   * digest its predecessor left, or, where none was left, the list as it is now.
   */
  lemma WhatIsHandedOver(s: State, sink: Sink, given: Option<map<Kind, Digest>>,
      subscriptions: Option<(set<Uri>, bool)>, kind: Kind)
    ensures var t := DoReadSession(s, sink, given, subscriptions);
      && t == s.(loop := t.loop) && t.loop.Watching? && t.loop.given == given.Some?
      && (kind in t.loop.sink.to.kinds <==>
          kind in sink.to.kinds && (given.Some? ==> kind in given.value) && s.lists(kind, sink.identity).Some?)
      && (kind in t.loop.sink.to.kinds ==> kind in t.loop.sink.baselines)
      && (kind in t.loop.sink.to.kinds ==>
          t.loop.sink.baselines[kind] == if given.Some? then given.value[kind] else s.lists(kind, sink.identity).value)
  {
  }

  /** A list is missed only for a sink that is registered by the step. */
  ghost predicate MissesOnlyNew(s: State, t: State, sid: Sid, kind: Kind) {
    (sid, kind) in t.missed && (sid, kind) !in s.missed ==> sid !in s.sinks && sid in t.sinks
  }

  lemma NoneMissed(s: State, t: State, sid: Sid, kind: Kind)
    requires t.missed <= s.missed
    ensures MissesOnlyNew(s, t, sid, kind)
  {
  }

  lemma MissesOnLoop(s: State, a: Action, sid: Sid, kind: Kind)
    requires Enabled(s, a) && OnLoop(a) && !Drops(s, a)
    ensures MissesOnlyNew(s, Do(s, a), sid, kind)
  {
    if a.RegisterSession? || a.RegisterListen? { hide Refused, WithStream, SetTo, RespectsView, UpToDate; }
    else {
      hide MissesOnlyNew, Registered, Watches, Computed, Merged, RespectsView, Spells, Unused, Dropped;
      NoneMissed(s, Do(s, a), sid, kind);
    }
  }

  lemma MissesDrops(s: State, a: Action, sid: Sid, kind: Kind)
    requires Enabled(s, a) && Drops(s, a)
    ensures MissesOnlyNew(s, Do(s, a), sid, kind)
  {
    hide MissesOnlyNew, Registered, Unregistered;
    NoneMissed(s, Do(s, a), sid, kind);
  }

  lemma MissesElsewhere(s: State, a: Action, sid: Sid, kind: Kind)
    requires Core(s) && Enabled(s, a) && !OnLoop(a)
    ensures MissesOnlyNew(s, Do(s, a), sid, kind)
  {
    hide Core, MissesOnlyNew, Streams, HeldFor, SubscribedTo, UnsubscribedFrom, SetTo, Added, Lists1, Watches, Put,
        After;
    if Subscribes(a) { CoreSubscribes(s, a); }
    NoneMissed(s, Do(s, a), sid, kind);
  }

  lemma MissesStep(s: State, a: Action, sid: Sid, kind: Kind)
    requires Core(s) && Enabled(s, a)
    ensures MissesOnlyNew(s, Do(s, a), sid, kind)
  {
    hide Core, Do, MissesOnlyNew;
    if !OnLoop(a) { MissesElsewhere(s, a, sid, kind); }
    else if Drops(s, a) { MissesDrops(s, a, sid, kind); }
    else { MissesOnLoop(s, a, sid, kind); }
  }

  /** Nothing is missed for a sink that is not there. */
  lemma {:induction false} MissedAreThere(s: State, run: seq<Action>, t: State, sid: Sid, kind: Kind)
    requires Inv(s) && Leads(s, run, t) && ((sid, kind) in s.missed ==> sid in s.sinks)
    ensures (sid, kind) in t.missed ==> sid in t.sinks
    decreases |run|
  {
    hide Inv, Enabled, Do, Pushed;
    if run != [] {
      InvParts(s);
      InvStep(s, run[0]);
      MissesStep(s, run[0], sid, kind);
      if sid in s.sinks { WhatIsPushed(s, run[0], sid); }
      MissedAreThere(Do(s, run[0]), run[1..], t, sid, kind);
    }
  }

  /** Nor later for one that is there. */
  lemma {:induction false} NoneMissedLater(s: State, run: seq<Action>, t: State, sid: Sid, kind: Kind)
    requires Inv(s) && Leads(s, run, t) && (sid, kind) !in s.missed && sid in s.sinks && Heard(s, sid, kind)
    ensures Inv(t) && (sid, kind) !in t.missed && Heard(t, sid, kind)
    decreases |run|
  {
    hide Inv, Enabled, Do, Pushed, Heard;
    if run != [] {
      InvParts(s);
      InvStep(s, run[0]);
      HeardStep(s, run[0], sid, kind);
      MissesStep(s, run[0], sid, kind);
      WhatIsPushed(s, run[0], sid);
      NoneMissedLater(Do(s, run[0]), run[1..], t, sid, kind);
    }
  }

  /** A session's sink that is given baselines is registered and misses nothing. */
  lemma RegisteredMissesNothing(s: State, sid: Sid, kind: Kind)
    requires Reachable(s) && s.loop.Watching? && s.loop.given && sid !in s.sinks
    ensures var u := DoRegisterSession(s, sid);
      Inv(u) && Heard(u, sid, kind) && sid in u.sinks && u.sinks[sid] == s.loop.sink && (sid, kind) !in u.missed
  {
    hide Inv, Heard, SetTo, Overlooked, Do;
    InvHolds(s);
    HeardHolds(s, sid, kind);
    IsEnabled(s, sid);
    InvStep(s, RegisterSession(sid));
    HeardStep(s, RegisterSession(sid), sid, kind);
    var first, run :| Initial(first) && Leads(first, run, s);
    InitialInv(first);
    MissedAreThere(first, run, s, sid, kind);
  }

  lemma IsEnabled(s: State, sid: Sid)
    requires s.loop.Watching? && sid !in s.sinks
    ensures Enabled(s, RegisterSession(sid)) && Do(s, RegisterSession(sid)) == DoRegisterSession(s, sid)
  {
    hide DoRegisterSession;
  }

  /** Everything about the list came to rest at the sink. */
  ghost predicate Rests(s: State, sid: Sid, kind: Kind) {
    && sid in s.sinks && Registered(s.books, sid, s.sinks[sid].to) && kind in s.sinks[sid].to.kinds
    && s.loop.Idle? && !OnItsWay(s.hands, sid, kind) && kind !in s.sinks[sid].pending
  }

  /**
   * A client that comes back is told what changed while no stream of its session was open: once everything came to
   * rest, a list that is not what its last stream was told of has been announced to the new one.
   */
  lemma WhatChangedMeanwhileIsTold(s: State, sid: Sid, run: seq<Action>, t: State, kind: Kind)
    requires Reachable(s) && s.loop.Watching? && s.loop.given && sid !in s.sinks && kind in s.loop.sink.baselines
    requires var u := DoRegisterSession(s, sid); Leads(u, run, t) && SameIdentity(u, run, sid)
    requires Rests(t, sid, kind) && t.lists(kind, s.loop.sink.identity) != Some(s.loop.sink.baselines[kind])
    ensures Notice(kind) in t.sinks[sid].frames
  {
    hide Inv, Reachable, DoRegisterSession, Leads, SameIdentity, Heard;
    RegisteredMissesNothing(s, sid, kind);
    var u := DoRegisterSession(s, sid);
    NoneMissedLater(u, run, t, sid, kind);
    RestsUpToDate(t, sid, kind);
    ChangesAreTold(u, run, t, sid, kind);
  }

  lemma RestsUpToDate(t: State, sid: Sid, kind: Kind)
    requires Inv(t) && Heard(t, sid, kind) && (sid, kind) !in t.missed && Rests(t, sid, kind)
    ensures UpToDate(t.sinks[sid], t.lists, kind)
  {
    hide Inv;
    RegisteredIsLive(t, sid);
  }
}
