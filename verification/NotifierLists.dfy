/** List changes converge: what a sink was last told of a list is the list now, or it is about to be told. */
module NotifierLists {
  import opened Wrappers
  import opened Notifier
  import opened NotifierBooks

  /** Open, and not about to be closed by the operation the loop is in. */
  ghost predicate Live(s: State, sid: Sid) {
    && sid in s.sinks && !s.sinks[sid].closed
    && !(s.loop.Replacing? && s.loop.replaced == Some(sid)) && !(s.loop.Closing? && s.loop.sid == sid)
  }

  /** The loop is about to compare the list, or to send the notice that makes the sink up to date. */
  ghost predicate LoopTells(s: State, sid: Sid, kind: Kind) {
    match s.loop
    case Replacing(of, _, _, given) => of == sid && given
    case Requeueing(of, _, given) => of == sid && given
    case Delivering(of, todo) => of == sid && kind in todo
    case Pushing(of, pushed, digest, todo) =>
      of == sid && sid in s.sinks &&
          (kind in todo || (kind == pushed && s.lists(kind, s.sinks[sid].identity) == Some(digest)))
    case _ => false
  }

  /** A registrar has yet to signal the change, or to signal it to this sink. */
  ghost predicate OnItsWay(hands: multiset<Token>, sid: Sid, kind: Kind) {
    Announce(kind) in hands || Tell(sid, kind) in hands
  }

  /** Being told of it right now; what it was last told is about to change. */
  ghost predicate Telling(loop: Loop, sid: Sid, kind: Kind) {
    loop.Pushing? && loop.sid == sid && loop.kind == kind
  }

  ghost predicate Covered(s: State, sid: Sid, kind: Kind) {
    && sid in s.sinks
    && ((UpToDate(s.sinks[sid], s.lists, kind) && !Telling(s.loop, sid, kind)) || kind in s.sinks[sid].pending ||
        OnItsWay(s.hands, sid, kind) || LoopTells(s, sid, kind))
  }

  ghost predicate Told(s: State, sid: Sid, kind: Kind) {
    Live(s, sid) && kind in s.sinks[sid].to.kinds ==> Covered(s, sid, kind) || (sid, kind) in s.missed
  }

  /** The same for a sink whose baselines wait to be registered. */
  ghost predicate Awaited(s: State, kind: Kind) {
    match s.loop
    case Watching(sink, given, _, late) =>
      kind in sink.to.kinds ==> given || kind in late || Announce(kind) in s.hands || UpToDate(sink, s.lists, kind)
    case Opening(sink, late) => kind in sink.to.kinds ==>
        kind in late || Announce(kind) in s.hands || UpToDate(sink, s.lists, kind)
    case _ => true
  }

  ghost predicate Heard(s: State, sid: Sid, kind: Kind) {
    Told(s, sid, kind) && Awaited(s, kind)
  }

  // ------------------------------------------------------------ one action each

  /** What a step may do that neither adds to nor takes from what one sink is told of one list. */
  ghost predicate Unheard(s: State, t: State, sid: Sid, kind: Kind) {
    && t.lists == s.lists && s.missed <= t.missed && (Live(t, sid) ==> Live(s, sid))
    && (Live(s, sid) ==>
        sid in t.sinks && t.sinks[sid].to == s.sinks[sid].to && t.sinks[sid].identity == s.sinks[sid].identity
                         && t.sinks[sid].baselines == s.sinks[sid].baselines &&
                             s.sinks[sid].pending <= t.sinks[sid].pending)
    && (OnItsWay(s.hands, sid, kind) ==> OnItsWay(t.hands, sid, kind)) &&
        (Announce(kind) in s.hands ==> Announce(kind) in t.hands)
    && (Live(t, sid) && LoopTells(s, sid, kind) ==> LoopTells(t, sid, kind))
    && (t.loop.Watching? || t.loop.Opening? ==> t.loop == s.loop) &&
        (Telling(t.loop, sid, kind) ==> Telling(s.loop, sid, kind))
  }

  lemma UnheardKeeps(s: State, t: State, sid: Sid, kind: Kind)
    requires Heard(s, sid, kind) && Unheard(s, t, sid, kind)
    ensures Heard(t, sid, kind)
  {
  }

  lemma HeardRegisterSession(s: State, of: Sid, sid: Sid, kind: Kind)
    requires s.loop.Watching? && of !in s.sinks && Heard(s, sid, kind)
    ensures Heard(DoRegisterSession(s, of), sid, kind)
  {
    hide SetTo;
  }

  lemma HeardRegisterListen(s: State, of: Sid, sid: Sid, kind: Kind)
    requires s.loop.Opening? && of !in s.sinks && Heard(s, sid, kind)
    ensures Heard(DoRegisterListen(s, of), sid, kind)
  {
    hide Refused;
  }

  lemma HeardRead(s: State, a: Action, sid: Sid, kind: Kind)
    requires Enabled(s, a) && (a.ReadSession? || a.ReadListen?) && Heard(s, sid, kind)
    ensures Heard(Do(s, a), sid, kind)
  {
    hide Unused, RespectsView;
  }

  lemma UnheardCloseReplaced(s: State, sid: Sid, kind: Kind)
    requires LoopOk(s) && s.loop.Replacing?
    ensures Unheard(s, DoCloseReplaced(s), sid, kind)
  {
    hide Merged, Registered;
  }

  lemma UnheardCloseUnregistered(s: State, sid: Sid, kind: Kind)
    requires s.loop.Closing? && s.loop.sid in s.sinks
    ensures Unheard(s, DoCloseUnregistered(s), sid, kind)
  {
  }

  lemma HeardRequeue(s: State, order: seq<Kind>, sid: Sid, kind: Kind)
    requires Enabled(s, Requeue(order)) && Heard(s, sid, kind)
    ensures Heard(DoRequeue(s, order), sid, kind)
  {
  }

  lemma UnheardDropped(s: State, of: Sid, unsent: seq<Uri>, graceful: bool, sid: Sid, kind: Kind)
    requires Inv(s) && of in s.sinks && Between(s.loop) &&
      (LoopTells(s, sid, kind) ==> of == sid && Registered(s.books, sid, s.sinks[sid].to))
    ensures !Dropped(s, of, unsent, graceful).loop.Watching? && Unheard(s, Dropped(s, of, unsent, graceful), sid, kind)
  {
    hide Core, OpenOk, Unregistered;
  }

  lemma HeardFire(s: State, of: Sid, order: seq<Kind>, sid: Sid, kind: Kind)
    requires Enabled(s, Fire(of, order)) && Heard(s, sid, kind)
    ensures Heard(DoFire(s, of, order), sid, kind)
  {
  }

  lemma HeardCompared(s: State, sid: Sid, kind: Kind)
    requires LoopOk(s) && Enabled(s, StepDeliver) && !Drops(s, StepDeliver) && Heard(s, sid, kind)
    ensures Heard(DoStepDeliver(s), sid, kind)
  {
  }

  lemma HeardNotice(s: State, sid: Sid, kind: Kind)
    requires Enabled(s, SendNotice(true)) && Heard(s, sid, kind)
    ensures Heard(DoSendNotice(s, true), sid, kind)
  {
  }

  lemma HeardRefresh(s: State, of: Sid, identity: Identity, sid: Sid, kind: Kind)
    requires of in s.sinks && s.loop.Idle? && RespectsView(s.lists, s.view) && Heard(s, sid, kind)
    ensures Heard(DoRefreshIdentity(s, of, identity), sid, kind)
  {
  }

  /**
   * A session's identity that changes without changing what it sees is told nothing; one that sees other lists has
   * every list it watches compared anew.
   */
  lemma WhatARefreshTells(s: State, sid: Sid, identity: Identity)
    requires sid in s.sinks
    ensures var t, sink := DoRefreshIdentity(s, sid, identity), s.sinks[sid];
      if s.view(sink.identity) == s.view(identity) then t == s.(sinks := s.sinks[sid := sink.(identity := identity)])
      else
        && sid in t.sinks && t.sinks[sid].identity == identity && t.sinks[sid].baselines == map[]
        && t.sinks[sid].frames == sink.frames
        && (!sink.closed ==> t.sinks[sid].pending == sink.pending + sink.to.kinds)
        && (forall other :: other in s.sinks && other != sid ==> t.sinks[other] == s.sinks[other])
  {
    var sink := s.sinks[sid];
    assert sink.pending + {} == sink.pending;
  }

  lemma HeardChangeList(s: State, changed: Kind, lists: Lists, sid: Sid, kind: Kind)
    requires Lists1(s, changed, lists) && Heard(s, sid, kind)
    ensures Heard(Do(s, ChangeList(changed, lists)), sid, kind)
  {
    hide RespectsView;
  }

  /**
   * Taking an announcement tells every sink in the books that watches the list, and those being registered are late
   * for it.
   */
  lemma AnnounceTells(s: State, announced: Kind, sid: Sid)
    requires Announce(announced) in s.hands
    ensures var t := DoTakeAnnounce(s, announced);
      && t == s.(hands := t.hands, loop := t.loop) && SamePlace(s.loop, t.loop)
      && (s.loop.Watching? || s.loop.Opening? ==> s.loop.late <= t.loop.late && announced in t.loop.late)
      && (sid in s.books.sessions.Values + Streams(s.books) && sid in s.sinks && announced in s.sinks[sid].to.kinds ==>
            Tell(sid, announced) in t.hands)
      && (forall k :: k in s.hands && k != Announce(announced) ==> k in t.hands)
  {
    hide Streams;
  }

  lemma HeardAnnounce(s: State, announced: Kind, sid: Sid, kind: Kind)
    requires Inv(s) && Enabled(s, TakeAnnounce(announced)) && Heard(s, sid, kind)
    ensures Heard(DoTakeAnnounce(s, announced), sid, kind)
  {
    hide Inv, Heard, Live, DoTakeAnnounce, Streams, SamePlace;
    var t := DoTakeAnnounce(s, announced);
    AnnounceTells(s, announced, sid);
    if kind == announced {
      if Live(s, sid) { LiveIsNamed(s, sid); }
      HeardAnnounced(s, t, sid, kind);
    } else {
      assert OnItsWay(s.hands, sid, kind) ==> OnItsWay(t.hands, sid, kind);
      HeardOther(s, t, sid, kind);
    }
  }

  /** Every live sink is in the books. */
  lemma LiveIsNamed(s: State, sid: Sid)
    requires Inv(s) && Live(s, sid)
    ensures sid in s.sinks && Registered(s.books, sid, s.sinks[sid].to)
    ensures sid in s.books.sessions.Values + Streams(s.books)
  {
    hide Core, LoopOk;
    var to := s.sinks[sid].to;
    if to.listen { InStreams(s.books, sid, to); } else { assert s.books.sessions[to.key] in s.books.sessions.Values; }
  }

  lemma HeardAnnounced(s: State, t: State, sid: Sid, kind: Kind)
    requires Heard(s, sid, kind) && t == s.(hands := t.hands, loop := t.loop) && SamePlace(s.loop, t.loop)
    requires Live(s, sid) && kind in s.sinks[sid].to.kinds ==> Tell(sid, kind) in t.hands
    requires s.loop.Watching? || s.loop.Opening? ==> kind in t.loop.late
    ensures Heard(t, sid, kind)
  {
  }

  lemma HeardOther(s: State, t: State, sid: Sid, kind: Kind)
    requires Heard(s, sid, kind) && t == s.(hands := t.hands, loop := t.loop) && SamePlace(s.loop, t.loop)
    requires (OnItsWay(s.hands, sid, kind) ==> OnItsWay(t.hands, sid, kind)) &&
      (Announce(kind) in s.hands ==> Announce(kind) in t.hands)
    requires s.loop.Watching? || s.loop.Opening? ==> s.loop.late <= t.loop.late
    ensures Heard(t, sid, kind)
  {
  }

  lemma HeardPended(s: State, of: Sid, told: Kind, sid: Sid, kind: Kind)
    requires of in s.sinks && Heard(s, sid, kind)
    ensures Heard(Pended(s.(hands := s.hands - multiset{Tell(of, told)}), of, {told}), sid, kind)
  {
  }

  lemma HeardTell(s: State, of: Sid, told: Kind, sid: Sid, kind: Kind)
    requires Enabled(s, TakeTell(of, told)) && Heard(s, sid, kind)
    ensures Heard(Do(s, TakeTell(of, told)), sid, kind)
  {
    hide Heard, Pended;
    HeardPended(s, of, told, sid, kind);
  }

  // ------------------------------------------------------------ every step

  ghost predicate Deaf(loop: Loop) {
    loop.Idle? || loop.Flushing? || loop.Acking? || loop.Ending?
  }

  /** Steps about updates, frames and subscriptions leave what a sink knows of its lists alone. */
  lemma UnheardFrame(s: State, t: State, sid: Sid, kind: Kind)
    requires t.lists == s.lists && t.missed == s.missed && (t.loop == s.loop || (Deaf(s.loop) && Deaf(t.loop)))
    requires forall k :: k in s.hands && (k.Tell? || k.Announce?) ==> k in t.hands
    requires t.sinks.Keys == s.sinks.Keys
    requires sid in s.sinks ==>
      t.sinks[sid] == s.sinks[sid].(updates := t.sinks[sid].updates, updatesScheduled :=
          t.sinks[sid].updatesScheduled, frames := t.sinks[sid].frames)
    ensures Unheard(s, t, sid, kind)
  {
  }

  lemma UnheardStartFlush(s: State, of: Sid, sid: Sid, kind: Kind)
    requires s.loop.Idle? && of in s.sinks
    ensures Unheard(s, DoStartFlush(s, of), sid, kind)
  {
    hide Unheard;
    UnheardFrame(s, DoStartFlush(s, of), sid, kind);
  }

  lemma UnheardStepFlush(s: State, sid: Sid, kind: Kind)
    requires s.loop.Flushing? && s.loop.sid in s.sinks
    ensures Unheard(s, DoStepFlush(s), sid, kind)
  {
    hide Watches, Unheard;
    UnheardFrame(s, DoStepFlush(s), sid, kind);
  }

  lemma UnheardFlush(s: State, a: Action, sid: Sid, kind: Kind)
    requires Enabled(s, a) && (a.StartFlush? || a.StepFlush? || a.Arm?)
    ensures Unheard(s, Do(s, a), sid, kind)
  {
    hide Watches, Unheard;
    match a
    case StartFlush(of) => UnheardStartFlush(s, of, sid, kind);
    case StepFlush => UnheardStepFlush(s, sid, kind);
    case Arm(_) => UnheardFrame(s, Do(s, a), sid, kind);
  }

  lemma UnheardSend(s: State, a: Action, sid: Sid, kind: Kind)
    requires Enabled(s, a) && (a.SendEnd? || a.SendUpdate? || a.SendAck?) && !Drops(s, a)
    ensures Unheard(s, Do(s, a), sid, kind)
  {
    hide Registered, Unregistered, Unheard;
    UnheardFrame(s, Do(s, a), sid, kind);
  }

  lemma UnheardSubscribes(s: State, a: Action, sid: Sid, kind: Kind)
    requires Core(s) && Subscribes(a) && Enabled(s, a)
    ensures Unheard(s, Do(s, a), sid, kind)
  {
    hide Core, Do, After, Unheard;
    CoreSubscribes(s, a);
    UnheardFrame(s, Do(s, a), sid, kind);
  }

  lemma UnheardPublish(s: State, uri: Uri, sid: Sid, kind: Kind)
    ensures Unheard(s, DoPublish(s, uri), sid, kind)
  {
    hide Unheard, Streams, HeldFor;
    UnheardFrame(s, DoPublish(s, uri), sid, kind);
  }

  lemma UnheardOffer(s: State, of: Sid, uri: Uri, sid: Sid, kind: Kind)
    requires of in s.sinks
    ensures Unheard(s, DoTakeOffer(s, of, uri), sid, kind)
  {
    hide Unheard;
    UnheardFrame(s, DoTakeOffer(s, of, uri), sid, kind);
  }

  lemma UnheardLook(s: State, key: Key, uri: Uri, sid: Sid, kind: Kind)
    ensures Unheard(s, DoTakeLook(s, key, uri), sid, kind)
  {
    hide Unheard;
    UnheardFrame(s, DoTakeLook(s, key, uri), sid, kind);
  }

  lemma UnheardCalls(s: State, a: Action, sid: Sid, kind: Kind)
    requires Enabled(s, a) && (a.CallArm? || a.CallFlush?)
    ensures Unheard(s, Do(s, a), sid, kind)
  {
    hide Unheard;
    UnheardFrame(s, Do(s, a), sid, kind);
  }

  lemma UnheardDrops(s: State, a: Action, sid: Sid, kind: Kind)
    requires Inv(s) && Enabled(s, a) && Drops(s, a)
    ensures Unheard(s, Do(s, a), sid, kind)
  {
    assert LoopTells(s, sid, kind) ==>
        sid in s.sinks && Registered(s.books, sid, s.sinks[sid].to) by { hide Core, OpenOk, Registered; }
    hide Inv, Unheard, Registered;
    match a
    case EndSession(of) => UnheardDropped(s, s.books.sessions[of], [], false, sid, kind);
    case EndListen(of, graceful) => UnheardDropped(s, of, [], graceful, sid, kind);
    case SendUpdate(_) => UnheardDropped(s, s.loop.sid, s.loop.rest, false, sid, kind);
    case StepDeliver => UnheardDropped(s, s.loop.sid, [], s.sinks[s.loop.sid].to.listen, sid, kind);
    case SendNotice(_) => UnheardDropped(s, s.loop.sid, [], false, sid, kind);
    case SendAck(_) => UnheardDropped(s, s.loop.sid, [], false, sid, kind);
  }

  ghost predicate AboutLists(a: Action) {
    || a.RegisterSession? || a.RegisterListen? || a.ReadSession? || a.ReadListen? || a.Requeue? || a.Fire? ||
        a.StepDeliver? || a.SendNotice?
    || a.RefreshIdentity? || a.ChangeList? || a.TakeAnnounce? || a.TakeTell?
  }

  lemma HeardRegisters(s: State, a: Action, sid: Sid, kind: Kind)
    requires Enabled(s, a) && (a.RegisterSession? || a.RegisterListen? || a.ReadSession? || a.ReadListen? || a.Requeue?)
    requires Heard(s, sid, kind)
    ensures Heard(Do(s, a), sid, kind)
  {
    hide Heard;
    match a
    case RegisterSession(of) => HeardRegisterSession(s, of, sid, kind);
    case RegisterListen(of) => HeardRegisterListen(s, of, sid, kind);
    case ReadSession(_, _, _) => HeardRead(s, a, sid, kind);
    case ReadListen(_) => HeardRead(s, a, sid, kind);
    case Requeue(order) => HeardRequeue(s, order, sid, kind);
  }

  lemma HeardTurns(s: State, a: Action, sid: Sid, kind: Kind)
    requires LoopOk(s) && RespectsView(s.lists, s.view) && Enabled(s, a) && !Drops(s, a) && Heard(s, sid, kind)
    requires a.Fire? || a.StepDeliver? || a.SendNotice? || a.RefreshIdentity?
    ensures Heard(Do(s, a), sid, kind)
  {
    hide LoopOk, Heard, RespectsView;
    match a
    case Fire(of, order) => HeardFire(s, of, order, sid, kind);
    case StepDeliver => HeardCompared(s, sid, kind);
    case SendNotice(_) => HeardNotice(s, sid, kind);
    case RefreshIdentity(key, identity) => HeardRefresh(s, s.books.sessions[key], identity, sid, kind);
  }

  lemma HeardChanges(s: State, a: Action, sid: Sid, kind: Kind)
    requires Inv(s) && Enabled(s, a) && (a.ChangeList? || a.TakeAnnounce? || a.TakeTell?) && Heard(s, sid, kind)
    ensures Heard(Do(s, a), sid, kind)
  {
    hide Inv, Heard;
    match a
    case ChangeList(changed, lists) => HeardChangeList(s, changed, lists, sid, kind);
    case TakeAnnounce(announced) => HeardAnnounce(s, announced, sid, kind);
    case TakeTell(of, told) => HeardTell(s, of, told, sid, kind);
  }

  lemma HeardLists(s: State, a: Action, sid: Sid, kind: Kind)
    requires Inv(s) && Enabled(s, a) && AboutLists(a) && !Drops(s, a) && Heard(s, sid, kind)
    ensures Heard(Do(s, a), sid, kind)
  {
    InvParts(s);
    ListsRespect(s);
    hide Inv, Core, OpenOk, LoopOk, Heard, RespectsView, Enabled, Do, Drops;
    if a.ChangeList? || a.TakeAnnounce? || a.TakeTell? { HeardChanges(s, a, sid, kind); }
    else if a.Fire? || a.StepDeliver? || a.SendNotice? || a.RefreshIdentity? { HeardTurns(s, a, sid, kind); }
    else { HeardRegisters(s, a, sid, kind); }
  }

  lemma ListsRespect(s: State)
    requires Core(s)
    ensures RespectsView(s.lists, s.view)
  {
  }

  lemma UnheardSteps(s: State, a: Action, sid: Sid, kind: Kind)
    requires Inv(s) && Enabled(s, a) && !AboutLists(a) && !Drops(s, a)
    ensures Unheard(s, Do(s, a), sid, kind)
  {
    hide Core, OpenOk, LoopOk, Unheard, Do;
    InvParts(s);
    if Subscribes(a) { UnheardSubscribes(s, a, sid, kind); }
    else if a.CloseReplaced? || a.CloseUnregistered? { UnheardCloses(s, a, sid, kind); }
    else if a.StartFlush? || a.StepFlush? || a.Arm? { UnheardFlush(s, a, sid, kind); }
    else if a.SendEnd? || a.SendUpdate? || a.SendAck? { UnheardSend(s, a, sid, kind); }
    else if a.CallArm? || a.CallFlush? { UnheardCalls(s, a, sid, kind); }
    else { UnheardErrands(s, a, sid, kind); }
  }

  lemma UnheardCloses(s: State, a: Action, sid: Sid, kind: Kind)
    requires LoopOk(s) && Enabled(s, a) && (a.CloseReplaced? || a.CloseUnregistered?)
    ensures Unheard(s, Do(s, a), sid, kind)
  {
    hide LoopOk, Unheard;
    match a
    case CloseReplaced => UnheardCloseReplaced(s, sid, kind);
    case CloseUnregistered => UnheardCloseUnregistered(s, sid, kind);
  }

  lemma UnheardErrands(s: State, a: Action, sid: Sid, kind: Kind)
    requires Enabled(s, a) && (a.Publish? || a.TakeOffer? || a.TakeLook?)
    ensures Unheard(s, Do(s, a), sid, kind)
  {
    hide Unheard;
    match a
    case Publish(uri) => UnheardPublish(s, uri, sid, kind);
    case TakeOffer(of, uri) => UnheardOffer(s, of, uri, sid, kind);
    case TakeLook(key, uri) => UnheardLook(s, key, uri, sid, kind);
  }

  lemma HeardStep(s: State, a: Action, sid: Sid, kind: Kind)
    requires Inv(s) && Enabled(s, a) && Heard(s, sid, kind)
    ensures Heard(Do(s, a), sid, kind)
  {
    hide Inv, Heard, Unheard, Drops, Do;
    if Drops(s, a) { UnheardDrops(s, a, sid, kind); UnheardKeeps(s, Do(s, a), sid, kind); }
    else if AboutLists(a) { HeardLists(s, a, sid, kind); }
    else { UnheardSteps(s, a, sid, kind); UnheardKeeps(s, Do(s, a), sid, kind); }
  }

  lemma {:induction false} HeardRun(s: State, run: seq<Action>, t: State, sid: Sid, kind: Kind)
    requires Inv(s) && Leads(s, run, t) && Heard(s, sid, kind)
    ensures Heard(t, sid, kind)
    decreases |run|
  {
    if run != [] {
      InvStep(s, run[0]);
      HeardStep(s, run[0], sid, kind);
      HeardRun(Do(s, run[0]), run[1..], t, sid, kind);
    }
  }

  /**
   * What a registered sink was last told of a list is what its identity sees now, or a window will compare it, or a
   * registrar has yet to signal the change, or the loop is comparing it, or it changed unseen between the sink's
   * baselines being read and the sink being registered.
   */
  lemma Converges(t: State, sid: Sid, kind: Kind)
    requires Reachable(t) && sid in t.sinks && Registered(t.books, sid, t.sinks[sid].to) &&
      kind in t.sinks[sid].to.kinds
    ensures Covered(t, sid, kind) || (sid, kind) in t.missed
  {
    var s, run :| Initial(s) && Leads(s, run, t);
    InitialInv(s);
    HeardRun(s, run, t, sid, kind);
    InvHolds(t);
    RegisteredIsLive(t, sid);
  }

  lemma RegisteredIsLive(s: State, sid: Sid)
    requires Inv(s) && sid in s.sinks && Registered(s.books, sid, s.sinks[sid].to)
    ensures Live(s, sid)
  {
    hide CountsOk, SubscribedOk, ClosedOk, TokensOk, ScheduledOk, RespectsView, OpenOk;
  }

  /**
   * Once everything else came to rest, the sink is up to date, or exactly one window is scheduled that will compare
   * the list.
   */
  lemma ConvergesAtRest(t: State, sid: Sid, kind: Kind)
    requires Reachable(t) && t.loop.Idle? && (forall k :: k in t.hands ==> !k.Announce? && !k.Tell?) &&
      (sid, kind) !in t.missed
    requires sid in t.sinks && Registered(t.books, sid, t.sinks[sid].to) && kind in t.sinks[sid].to.kinds
    ensures UpToDate(t.sinks[sid], t.lists, kind)
         || (kind in t.sinks[sid].pending && t.hands[AskArm(sid)] + t.hands[ArmQueued(sid)] + t.hands[Timer(sid)] == 1)
  {
    Converges(t, sid, kind);
    InvHolds(t);
    RegisteredIsLive(t, sid);
    InvParts(t);
    CoreSink(t, sid);
  }

  // ------------------------------------------------ only what changed is told

  /** A notice being pushed is for a list that differs from what the sink was last told of it. */
  ghost predicate Differs(s: State) {
    s.loop.Pushing? && s.loop.sid in s.sinks ==> var baselines := s.sinks[s.loop.sid].baselines;
      !(s.loop.kind in baselines && baselines[s.loop.kind] == s.loop.digest)
  }

  lemma BaselinesStay(s: State, a: Action, sid: Sid)
    requires Core(s) && Enabled(s, a) && !OnLoop(a) && sid in s.sinks && sid in Do(s, a).sinks
    ensures Do(s, a).sinks[sid].baselines == s.sinks[sid].baselines
  {
    hide Core, Do, Unheard;
    if Subscribes(a) { CoreSubscribes(s, a); }
    else if a.Publish? || a.TakeOffer? || a.TakeLook? { BaselinesErrands(s, a, sid); }
    else { BaselinesNews(s, a, sid); }
  }

  lemma BaselinesErrands(s: State, a: Action, sid: Sid)
    requires Enabled(s, a) && (a.Publish? || a.TakeOffer? || a.TakeLook?) && sid in s.sinks && sid in Do(s, a).sinks
    ensures Do(s, a).sinks[sid].baselines == s.sinks[sid].baselines
  {
    if a.TakeOffer? { BaselinesOffered(s, a.sid, a.uri, sid); }
    else { hide HeldFor, Streams, Watches, Put; }
  }

  lemma BaselinesOffered(s: State, of: Sid, uri: Uri, sid: Sid)
    requires of in s.sinks && sid in s.sinks
    ensures var t := DoTakeOffer(s, of, uri); sid in t.sinks && t.sinks[sid].baselines == s.sinks[sid].baselines
  {
  }

  lemma BaselinesNews(s: State, a: Action, sid: Sid)
    requires Enabled(s, a) && (a.ChangeList? || a.TakeAnnounce? || a.TakeTell? || a.CallArm? || a.CallFlush?) &&
      sid in s.sinks && sid in Do(s, a).sinks
    ensures Do(s, a).sinks[sid].baselines == s.sinks[sid].baselines
  {
    if a.TakeTell? { BaselinesTold(s, a.sid, a.kind, sid); }
    else { hide Streams, Lists1; }
  }

  lemma BaselinesTold(s: State, of: Sid, kind: Kind, sid: Sid)
    requires of in s.sinks && sid in s.sinks
    ensures var t := Pended(s.(hands := s.hands - multiset{Tell(of, kind)}), of, {kind});
      sid in t.sinks && t.sinks[sid].baselines == s.sinks[sid].baselines
  {
  }

  lemma DiffersAnywhere(s: State, a: Action)
    requires Core(s) && Enabled(s, a) && !OnLoop(a) && Differs(s)
    ensures Differs(Do(s, a))
  {
    hide Core, Do;
    LoopStays(s, a);
    SinksStay(s, a);
    if s.loop.Pushing? && s.loop.sid in s.sinks { BaselinesStay(s, a, s.loop.sid); }
  }

  lemma DiffersCompared(s: State)
    requires Enabled(s, StepDeliver)
    ensures Differs(DoStepDeliver(s))
  {
    hide Registered, Unregistered;
  }

  lemma DiffersStep(s: State, a: Action)
    requires Core(s) && Enabled(s, a) && Differs(s)
    ensures Differs(Do(s, a))
  {
    hide Core, Differs;
    if !OnLoop(a) { DiffersAnywhere(s, a); }
    else if a.StepDeliver? { DiffersCompared(s); }
    else { NoPush(s, a); NotPushingDiffers(Do(s, a)); }
  }

  lemma NotPushingDiffers(s: State)
    requires !s.loop.Pushing?
    ensures Differs(s)
  {
  }

  lemma SinksStay(s: State, a: Action)
    requires Core(s) && Enabled(s, a) && !OnLoop(a)
    ensures Do(s, a).sinks.Keys == s.sinks.Keys
  {
    hide Core, Do;
    CoreAnywhere(s, a);
  }

  /** Only the comparison in deliver leads to a notice. */
  lemma NoPush(s: State, a: Action)
    requires Enabled(s, a) && OnLoop(a) && !a.StepDeliver?
    ensures !Do(s, a).loop.Pushing?
  {
    hide Registered, Unregistered, Watches, Computed, Refused, WithStream, SetTo, Merged, RespectsView, Spells, Unused;
  }

  lemma {:induction false} DiffersRun(s: State, run: seq<Action>, t: State)
    requires Inv(s) && Leads(s, run, t) && Differs(s)
    ensures Differs(t)
    decreases |run|
  {
    if run != [] {
      InvStep(s, run[0]);
      DiffersStep(s, run[0]);
      DiffersRun(Do(s, run[0]), run[1..], t);
    }
  }

  /** A notice pushed changes what the sink was last told: the same list is never announced to it twice in a row. */
  lemma NoticesAreNews(t: State)
    requires Reachable(t) && Enabled(t, SendNotice(true))
    ensures var sink, after := t.sinks[t.loop.sid], Do(t, SendNotice(true)).sinks[t.loop.sid];
      && after.frames == sink.frames + [Notice(t.loop.kind)]
      && t.loop.kind in after.baselines && after.baselines[t.loop.kind] == t.loop.digest
      && !(t.loop.kind in sink.baselines && sink.baselines[t.loop.kind] == t.loop.digest)
  {
    var s, run :| Initial(s) && Leads(s, run, t);
    InitialInv(s);
    hide Inv;
    DiffersRun(s, run, t);
  }

  // ------------------------------------------------- when a change is missed

  /** The announcement is of a list the sink being registered watches, and its baselines are already read. */
  ghost predicate TearsApart(s: State, a: Action) {
    a.TakeAnnounce? &&
    match s.loop
    case Watching(sink, given, _, _) => !given && a.kind in sink.to.kinds
    case Opening(sink, _) => a.kind in sink.to.kinds
    case _ => false
  }

  /** No such announcement is taken between a sink's baselines being read and the sink being registered. */
  ghost predicate Apart(s: State, run: seq<Action>)
    decreases |run|
  {
    run == [] || (Enabled(s, run[0]) && !TearsApart(s, run[0]) && Apart(Do(s, run[0]), run[1..]))
  }

  ghost predicate NoneMissed(s: State) {
    s.missed == {} &&
    match s.loop
    case Watching(sink, given, _, late) => given || late !! sink.to.kinds
    case Opening(sink, late) => late !! sink.to.kinds
    case _ => true
  }

  lemma NoneMissedDrops(s: State, a: Action)
    requires Enabled(s, a) && NoneMissed(s) && Drops(s, a)
    ensures NoneMissed(Do(s, a))
  {
    hide Registered, Unregistered, RespectsView;
  }

  lemma NoneMissedMoves(s: State, a: Action)
    requires Enabled(s, a) && NoneMissed(s) && Moves(a)
    ensures NoneMissed(Do(s, a))
  {
    hide Registered, Refused, WithStream, SetTo, Merged, RespectsView, Spells;
  }

  lemma NoneMissedReads(s: State, a: Action)
    requires Enabled(s, a) && NoneMissed(s) && Reads(a) && !Drops(s, a)
    ensures NoneMissed(Do(s, a))
  {
    hide Registered, Watches, Computed, RespectsView, Unused;
  }

  lemma NoneMissedSends(s: State, a: Action)
    requires Enabled(s, a) && NoneMissed(s) && Sends(a) && !Drops(s, a)
    ensures NoneMissed(Do(s, a))
  {
    hide Registered, Unregistered;
  }

  lemma NoneMissedTurns(s: State, a: Action)
    requires Enabled(s, a) && NoneMissed(s) && (a.StartFlush? || a.Arm? || a.Fire? || a.RefreshIdentity?)
    ensures NoneMissed(Do(s, a))
  {
    hide Spells;
  }

  lemma NoneMissedAnywhere(s: State, a: Action)
    requires Core(s) && Enabled(s, a) && NoneMissed(s) && !OnLoop(a) && !TearsApart(s, a)
    ensures NoneMissed(Do(s, a))
  {
    hide Core, SubscribedTo, UnsubscribedFrom, SetTo, Added, HeldFor, Streams, Lists1, Watches;
    if Subscribes(a) { CoreSubscribes(s, a); }
  }

  lemma NoneMissedStep(s: State, a: Action)
    requires Core(s) && Enabled(s, a) && NoneMissed(s) && !TearsApart(s, a)
    ensures NoneMissed(Do(s, a))
  {
    hide Core, Do, NoneMissed;
    if !OnLoop(a) { NoneMissedAnywhere(s, a); }
    else if Drops(s, a) { NoneMissedDrops(s, a); }
    else if Moves(a) { NoneMissedMoves(s, a); }
    else if Reads(a) { NoneMissedReads(s, a); }
    else if Sends(a) { NoneMissedSends(s, a); }
    else { NoneMissedTurns(s, a); }
  }

  lemma {:induction false} NoneMissedRun(s: State, run: seq<Action>, t: State)
    requires Inv(s) && Leads(s, run, t) && Apart(s, run) && NoneMissed(s)
    ensures t.missed == {}
    decreases |run|
  {
    if run != [] {
      InvStep(s, run[0]);
      NoneMissedStep(s, run[0]);
      NoneMissedRun(Do(s, run[0]), run[1..], t);
    }
  }

  /**
   * Where no announcement of a watched list tears reading the baselines and registering the sink apart, lists
   * converge without exception.
   */
  lemma ConvergesWhenApart(s: State, run: seq<Action>, t: State, sid: Sid, kind: Kind)
    requires Initial(s) && Leads(s, run, t) && Apart(s, run)
    requires sid in t.sinks && Registered(t.books, sid, t.sinks[sid].to) && kind in t.sinks[sid].to.kinds
    ensures Covered(t, sid, kind)
  {
    hide Inv;
    InitialInv(s);
    NoneMissedRun(s, run, t);
    assert Reachable(t);
    Converges(t, sid, kind);
  }

  lemma HeardHolds(s: State, sid: Sid, kind: Kind)
    requires Reachable(s)
    ensures Heard(s, sid, kind)
  {
    hide Inv, Heard;
    var first, run :| Initial(first) && Leads(first, run, s);
    InitialInv(first);
    HeardInitially(first, sid, kind);
    HeardRun(first, run, s, sid, kind);
  }

  lemma HeardInitially(s: State, sid: Sid, kind: Kind)
    requires Initial(s)
    ensures Heard(s, sid, kind)
  {
  }

  /** Nothing is on its way to a sink that is not there yet. */
  lemma NotToldYet(s: State, sid: Sid, kind: Kind)
    requires Inv(s) && sid !in s.sinks
    ensures Tell(sid, kind) !in s.hands
  {
    hide OpenOk, LoopOk;
    assert SidOf(Tell(sid, kind)) == Some(sid);
  }

  lemma FreshSink(s: State)
    requires Inv(s) && (s.loop.Opening? || s.loop.Watching?)
    ensures Unused(s.loop.sink)
  {
    hide Core, OpenOk;
  }

  /**
   * A stream is left untold of a watched list exactly when a change of it was announced, and every announcement of it
   * taken, before the stream is registered, and the list is not what the stream was told by then.
   */
  lemma WhenAStreamIsUntold(s: State, sid: Sid, kind: Kind)
    requires Reachable(s) && s.loop.Opening? && sid !in s.sinks && !Refused(s.books, s.loop.sink.to, s.maxTotal)
    requires kind in s.loop.sink.to.kinds
    ensures var t := DoRegisterListen(s, sid);
      && (!Covered(t, sid, kind) <==>
          kind in s.loop.late && Announce(kind) !in s.hands && !UpToDate(s.loop.sink, s.lists, kind))
      && (!Covered(t, sid, kind) ==> (sid, kind) in t.missed) &&
          (Covered(t, sid, kind) && (sid, kind) !in s.missed ==> (sid, kind) !in t.missed)
  {
    hide Inv, Reachable, WithStream;
    InvHolds(s);
    HeardHolds(s, sid, kind);
    NotToldYet(s, sid, kind);
    FreshSink(s);
  }

  /**
   * So is a session's sink, unless it is given its predecessor's baselines: then every list is compared once it is
   * registered.
   */
  lemma WhenASessionIsUntold(s: State, sid: Sid, kind: Kind)
    requires Reachable(s) && s.loop.Watching? && sid !in s.sinks && kind in s.loop.sink.to.kinds
    ensures var t := DoRegisterSession(s, sid);
      && (!Covered(t, sid, kind) <==>
          !s.loop.given && kind in s.loop.late && Announce(kind) !in s.hands && !UpToDate(s.loop.sink, s.lists, kind))
      && (!Covered(t, sid, kind) ==> (sid, kind) in t.missed) &&
          (Covered(t, sid, kind) && (sid, kind) !in s.missed ==> (sid, kind) !in t.missed)
  {
    hide Inv, Reachable, SetTo;
    InvHolds(s);
    HeardHolds(s, sid, kind);
    NotToldYet(s, sid, kind);
    FreshSink(s);
  }

  /**
   * The streams a run with such an announcement is shown with: one kind of list, whose digest goes from one value to
   * another.
   */
  function OneStream(): Sink {
    Sink(Recipient(true, 0, 0, "client", {"tools"}, {}, false), 0, false, {}, false, map[], [], false, [])
  }

  ghost function Seen(digest: Digest): Lists {
    (kind: Kind, identity: Identity) => if kind == "tools" then Some(digest) else None
  }

  ghost function Start(): State {
    State(Books(map[], map[], map[], 0, map[]), map[], Idle, multiset{}, Seen("old"), (identity: Identity) =>
        0, 1, {}, {})
  }

  function Announced(): Sink {
    OneStream().(baselines := map["tools" := "old"])
  }

  ghost function Torn(): State {
    Start().(books := Books(map[], map[0 := map[0 := 0]], map["client" := 1], 1, map[]), lists :=
        Seen("new"), missed := {(0, "tools")},
             sinks := map[0 := Announced().(frames := [Ack({"tools"}, {})])])
  }

  lemma LeadsOne(s: State, a: Action, t: State, run: seq<Action>, u: State)
    requires Enabled(s, a) && Do(s, a) == t && Leads(t, run, u)
    ensures Leads(s, [a] + run, u)
  {
    assert ([a] + run)[1..] == run;
  }

  lemma TornRead()
    ensures Enabled(Start(), ReadListen(OneStream())) &&
      Do(Start(), ReadListen(OneStream())) == Start().(loop := Opening(Announced(), {}))
  {
    assert Computed(Start().lists, {"tools"}, 0) == map["tools" := "old"];
    assert map["tools" := "old"].Keys == {"tools"};
  }

  lemma AnnounceIs(s: State, kind: Kind)
    requires Announce(kind) in s.hands
    ensures Enabled(s, TakeAnnounce(kind)) && Do(s, TakeAnnounce(kind)) == DoTakeAnnounce(s, kind)
  {
    hide DoTakeAnnounce;
  }

  lemma TornAnnounce(s: State)
    requires s == Start().(loop := Opening(Announced(), {}), lists := Seen("new"), hands := multiset{Announce("tools")})
    ensures Enabled(s, TakeAnnounce("tools"))
    ensures Do(s, TakeAnnounce("tools")) == Start().(loop := Opening(Announced(), {"tools"}), lists := Seen("new"))
  {
    hide Do, Enabled, DoTakeAnnounce, Announced, Seen;
    assert Streams(s.books) == {};
    AnnounceIs(s, "tools");
    NobodyIsTold(s, "tools");
  }

  /** Without recipients an announcement only adds to what the opening stream is late for. */
  lemma NobodyIsTold(s: State, kind: Kind)
    requires s.books.sessions == map[] && Streams(s.books) == {} && s.loop.Opening? && s.loop.late == {} &&
      s.hands == multiset{Announce(kind)}
    ensures DoTakeAnnounce(s, kind) == s.(hands := multiset{}, loop := Opening(s.loop.sink, {kind}))
  {
    var t := DoTakeAnnounce(s, kind);
    assert t.hands == multiset{};
    assert {} + {kind} == {kind};
  }

  lemma TornRegister(s: State)
    requires s == Start().(loop := Opening(Announced(), {"tools"}), lists := Seen("new"))
    ensures Enabled(s, RegisterListen(0)) && Enabled(Do(s, RegisterListen(0)), SendAck(true))
    ensures Do(Do(s, RegisterListen(0)), SendAck(true)) == Torn()
  {
    var u := Do(s, RegisterListen(0));
    assert u.books == WithStream(s.books, 0, Announced().to) == Torn().books;
    assert u.missed == {(0, "tools")};
    assert u == Torn().(sinks := map[0 := Announced()], loop := Acking(0));
    var t := Do(u, SendAck(true));
    assert t == Framed(u, 0, Ack({"tools"}, {})).(loop := Idle);
    assert [] + [Ack({"tools"}, {})] == [Ack({"tools"}, {})];
    assert t.sinks == Torn().sinks;
  }

  /**
   * The baselines are read, the list changes and is announced, and only then is the stream registered and
   * acknowledged: it was told of the old list, and nothing is left that would tell it of the new one.
   */
  lemma AnAnnouncementIsMissed()
    ensures Initial(Start()) && Reachable(Torn())
    ensures Registered(Torn().books, 0, Torn().sinks[0].to) && "tools" in Torn().sinks[0].to.kinds &&
      !Covered(Torn(), 0, "tools")
  {
    hide Enabled, Do, Torn;
    var s0 := Start();
    var s1 := s0.(loop := Opening(Announced(), {}));
    var s2 := s1.(lists := Seen("new"), hands := multiset{Announce("tools")});
    var s3 := s2.(hands := multiset{}, loop := Opening(Announced(), {"tools"}));
    TornRead();
    TornChange(s1);
    TornAnnounce(s2);
    TornRegister(s3);
    var s4 := Do(s3, RegisterListen(0));
    LeadsOne(s4, SendAck(true), Torn(), [], Torn());
    LeadsOne(s3, RegisterListen(0), s4, [SendAck(true)] + [], Torn());
    LeadsOne(s2, TakeAnnounce("tools"), s3, [RegisterListen(0)] + ([SendAck(true)] + []), Torn());
    LeadsOne(s1, ChangeList("tools", Seen("new")), s2,
        [TakeAnnounce("tools")] + ([RegisterListen(0)] + ([SendAck(true)] + [])), Torn());
    LeadsOne(s0, ReadListen(OneStream()), s1,
             [ChangeList("tools", Seen("new"))] +
                 ([TakeAnnounce("tools")] + ([RegisterListen(0)] + ([SendAck(true)] + []))), Torn());
    TornIsStale();
  }

  lemma TornIsStale()
    ensures Initial(Start())
    ensures Registered(Torn().books, 0, Torn().sinks[0].to) && "tools" in Torn().sinks[0].to.kinds &&
      !Covered(Torn(), 0, "tools")
  {
    assert "old" != "new";
  }

  lemma TornChange(s: State)
    requires s == Start().(loop := Opening(Announced(), {}))
    ensures Enabled(s, ChangeList("tools", Seen("new")))
    ensures Do(s, ChangeList("tools", Seen("new"))) == s.(lists := Seen("new"), hands := multiset{Announce("tools")})
  {
    assert multiset{} + multiset{Announce("tools")} == multiset{Announce("tools")};
  }
}