/** What a listen stream is sent: an acknowledgment, notices of what it asked for, and at most one end. */
module NotifierFrames {
  import opened Wrappers
  import opened Notifier
  import opened NotifierBooks

  /** A notice the recipient asked for. */
  ghost predicate Asked(frame: Frame, to: Recipient) {
    match frame
    case Notice(kind) => kind in to.kinds
    case Update(uri) => to.listen ==> uri in to.uris
    case _ => false
  }

  /** The acknowledgment, then nothing but notices that were asked for. */
  ghost predicate Body(frames: seq<Frame>, to: Recipient) {
    frames != [] && frames[0] == Ack(to.kinds, to.uris) && forall i :: 1 <= i < |frames| ==> Asked(frames[i], to)
  }

  /** A stream that was never acknowledged, was cut, or was completed; cancelled only where it shares its channel. */
  ghost predicate Finished(frames: seq<Frame>, to: Recipient) {
    || frames == [] || Body(frames, to)
    || (frames != [] && frames[|frames| - 1] == Final && Body(frames[..|frames| - 1], to))
    || (to.multiplexed && |frames| > 1 && frames[|frames| - 2..] == [Final, Cancelled] &&
        Body(frames[..|frames| - 2], to))
  }

  ghost predicate StreamOk(s: State, sid: Sid)
    requires sid in s.sinks
  {
    var frames, to := s.sinks[sid].frames, s.sinks[sid].to;
    if !s.sinks[sid].closed then
      if s.loop.Acking? && s.loop.sid == sid then frames == []
      else if s.loop.Closing? && s.loop.sid == sid && !s.loop.graceful then frames == [] || Body(frames, to)
      else Body(frames, to)
    else if s.loop.Ending? && s.loop.sid == sid then
      if s.loop.finalSent
          then to.multiplexed && frames != [] && frames[|frames| - 1] == Final && Body(frames[..|frames| - 1], to)
      else Body(frames, to)
    else Finished(frames, to)
  }

  ghost predicate Within(todo: seq<Kind>, kinds: set<Kind>) {
    forall kind :: kind in todo ==> kind in kinds
  }

  /** What waits for a sink, and what the loop is about to send it, was asked for. */
  ghost predicate LoopAsked(loop: Loop, sid: Sid, to: Recipient) {
    match loop
    case Delivering(of, todo) => of == sid ==> Within(todo, to.kinds)
    case Pushing(of, kind, _, todo) => of == sid ==> kind in to.kinds && Within(todo, to.kinds)
    case Flushing(of, rest, sending) => of == sid && sending && to.listen ==> rest != [] && rest[0] in to.uris
    case _ => true
  }

  ghost predicate AskedFor(s: State, sid: Sid)
    requires sid in s.sinks
  {
    && s.sinks[sid].pending <= s.sinks[sid].to.kinds
    && (forall kind :: Tell(sid, kind) in s.hands ==> kind in s.sinks[sid].to.kinds)
    && LoopAsked(s.loop, sid, s.sinks[sid].to)
  }

  ghost predicate Streaming(s: State, sid: Sid) {
    sid in s.sinks ==> AskedFor(s, sid) && (s.sinks[sid].to.listen ==> StreamOk(s, sid))
  }

  // ------------------------------------------------------------ one action each

  /** Neither the sink's frames nor where the loop is with it change. */
  ghost predicate Unsent(s: State, t: State, sid: Sid) {
    && (sid in t.sinks ==>
        sid in s.sinks && t.sinks[sid].to == s.sinks[sid].to && t.sinks[sid].frames == s.sinks[sid].frames
                           && t.sinks[sid].closed == s.sinks[sid].closed &&
                               t.sinks[sid].pending <= s.sinks[sid].pending)
    && (forall kind :: Tell(sid, kind) in t.hands ==> Tell(sid, kind) in s.hands)
    && (t.loop == s.loop || (Apart(s.loop, sid) && Apart(t.loop, sid)))
  }

  ghost predicate Apart(loop: Loop, sid: Sid) {
    match loop
    case Delivering(of, todo) => of == sid ==> todo == []
    case Pushing(of, _, _, _) => of != sid
    case Flushing(of, _, sending) => of == sid ==> !sending
    case Closing(of, _, _) => of != sid
    case Acking(of) => of != sid
    case Ending(of, _) => of != sid
    case _ => true
  }

  lemma UnsentKeeps(s: State, t: State, sid: Sid)
    requires Streaming(s, sid) && Unsent(s, t, sid)
    ensures Streaming(t, sid)
  {
  }

  lemma StreamRead(s: State, a: Action, sid: Sid)
    requires Enabled(s, a) && (a.ReadSession? || a.ReadListen?) && Streaming(s, sid)
    ensures Streaming(Do(s, a), sid)
  {
    hide Body, Finished, Computed, Unused, RespectsView;
  }

  lemma StreamRegisterSession(s: State, of: Sid, sid: Sid)
    requires LoopOk(s) && TokensOk(s) && s.loop.Watching? && of !in s.sinks && Streaming(s, sid)
    ensures Streaming(DoRegisterSession(s, of), sid)
  {
    hide Body, Finished, SetTo;
    forall kind ensures Tell(of, kind) !in s.hands { assert SidOf(Tell(of, kind)) == Some(of); }
  }

  lemma StreamRegisterListen(s: State, of: Sid, sid: Sid)
    requires LoopOk(s) && TokensOk(s) && s.loop.Opening? && of !in s.sinks && Streaming(s, sid)
    ensures Streaming(DoRegisterListen(s, of), sid)
  {
    hide Body, Finished, Refused, WithStream;
    forall kind ensures Tell(of, kind) !in s.hands { assert SidOf(Tell(of, kind)) == Some(of); }
  }

  lemma StreamCloseReplaced(s: State, sid: Sid)
    requires LoopOk(s) && s.loop.Replacing? && Streaming(s, sid)
    ensures Streaming(DoCloseReplaced(s), sid)
  {
    hide Body, Registered, Merged;
  }

  lemma StreamRequeue(s: State, order: seq<Kind>, sid: Sid)
    requires Enabled(s, Requeue(order)) && Streaming(s, sid)
    ensures Streaming(DoRequeue(s, order), sid)
  {
    hide Body, Finished;
  }

  lemma StreamDropped(s: State, of: Sid, unsent: seq<Uri>, graceful: bool, sid: Sid)
    requires of in s.sinks && Between(s.loop) && Streaming(s, sid) && OpenOk(s)
    requires (s.loop.Acking? ==> s.loop.sid == of && !graceful && OnOpen(s, of)) && !s.loop.Ending?
    ensures Streaming(Dropped(s, of, unsent, graceful), sid)
  {
    hide Body, Unregistered;
  }

  lemma StreamCloseUnregistered(s: State, sid: Sid)
    requires LoopOk(s) && s.loop.Closing? && s.loop.sid in s.sinks && Streaming(s, sid)
    ensures Streaming(DoCloseUnregistered(s), sid)
  {
    hide Body, Registered;
  }

  lemma StreamSendEnd(s: State, ok: bool, sid: Sid)
    requires LoopOk(s) && Enabled(s, SendEnd(ok)) && Streaming(s, sid)
    ensures Streaming(DoSendEnd(s, ok), sid)
  {
    hide Registered;
  }

  lemma StreamSendUpdate(s: State, sid: Sid)
    requires LoopOk(s) && Enabled(s, SendUpdate(true)) && Streaming(s, sid)
    ensures Streaming(DoSendUpdate(s, true), sid)
  {
    hide Registered, Dropped;
  }

  lemma StreamStartFlush(s: State, of: Sid, sid: Sid)
    requires of in s.sinks && s.loop.Idle? && Streaming(s, sid)
    ensures Streaming(DoStartFlush(s, of), sid)
  {
    hide Body, Finished;
  }

  lemma StreamStepFlush(s: State, sid: Sid)
    requires s.loop.Flushing? && !s.loop.sending && s.loop.sid in s.sinks && Streaming(s, sid)
    ensures Streaming(DoStepFlush(s), sid)
  {
    hide Body, Finished;
  }

  lemma StreamFire(s: State, a: Action, sid: Sid)
    requires Enabled(s, a) && (a.Fire? || a.Arm?) && Streaming(s, sid)
    ensures Streaming(Do(s, a), sid)
  {
    hide Body, Finished;
  }

  lemma StreamCompare(s: State, sid: Sid)
    requires Enabled(s, StepDeliver) && !Drops(s, StepDeliver) && Streaming(s, sid)
    ensures Streaming(DoStepDeliver(s), sid)
  {
    hide Body, Finished;
  }

  lemma StreamNotice(s: State, sid: Sid)
    requires LoopOk(s) && Enabled(s, SendNotice(true)) && Streaming(s, sid)
    ensures Streaming(DoSendNotice(s, true), sid)
  {
    hide Registered, Dropped;
  }

  lemma StreamAck(s: State, sid: Sid)
    requires LoopOk(s) && Enabled(s, SendAck(true)) && Streaming(s, sid)
    ensures Streaming(Do(s, SendAck(true)), sid)
  {
    hide Registered, Dropped;
  }

  lemma StreamRefresh(s: State, of: Sid, identity: Identity, sid: Sid)
    requires of in s.sinks && s.loop.Idle? && Streaming(s, sid)
    ensures Streaming(DoRefreshIdentity(s, of, identity), sid)
  {
    hide Body, Finished;
  }

  lemma StreamAnnounce(s: State, kind: Kind, sid: Sid)
    requires Enabled(s, TakeAnnounce(kind)) && Streaming(s, sid)
    ensures Streaming(DoTakeAnnounce(s, kind), sid)
  {
    hide Body, Finished, Streams;
  }

  lemma StreamTell(s: State, of: Sid, kind: Kind, sid: Sid)
    requires Enabled(s, TakeTell(of, kind)) && Streaming(s, sid)
    ensures Streaming(Do(s, TakeTell(of, kind)), sid)
  {
    hide Body, Finished;
  }

  // ------------------------------------------------------------ every step

  lemma UnsentFrame(s: State, t: State, sid: Sid)
    requires t.loop == s.loop && (forall kind :: Tell(sid, kind) in t.hands ==> Tell(sid, kind) in s.hands)
    requires t.sinks.Keys == s.sinks.Keys
    requires sid in s.sinks ==>
      t.sinks[sid] == s.sinks[sid].(updates := t.sinks[sid].updates, updatesScheduled := t.sinks[sid].updatesScheduled)
    ensures Unsent(s, t, sid)
  {
  }

  lemma UnsentPublish(s: State, uri: Uri, sid: Sid)
    ensures Unsent(s, DoPublish(s, uri), sid)
  {
    hide Unsent, Streams, HeldFor;
    UnsentFrame(s, DoPublish(s, uri), sid);
  }

  lemma UnsentOffer(s: State, of: Sid, uri: Uri, sid: Sid)
    requires of in s.sinks
    ensures Unsent(s, DoTakeOffer(s, of, uri), sid)
  {
    hide Unsent;
    UnsentFrame(s, DoTakeOffer(s, of, uri), sid);
  }

  lemma UnsentLook(s: State, key: Key, uri: Uri, sid: Sid)
    ensures Unsent(s, DoTakeLook(s, key, uri), sid)
  {
    hide Unsent;
    UnsentFrame(s, DoTakeLook(s, key, uri), sid);
  }

  lemma UnsentErrands(s: State, a: Action, sid: Sid)
    requires Enabled(s, a) && (a.Publish? || a.TakeOffer? || a.TakeLook?)
    ensures Unsent(s, Do(s, a), sid)
  {
    hide Unsent;
    match a
    case Publish(uri) => UnsentPublish(s, uri, sid);
    case TakeOffer(of, uri) => UnsentOffer(s, of, uri, sid);
    case TakeLook(key, uri) => UnsentLook(s, key, uri, sid);
  }

  lemma UnsentCalls(s: State, a: Action, sid: Sid)
    requires Enabled(s, a) && (a.ChangeList? || a.CallArm? || a.CallFlush?)
    ensures Unsent(s, Do(s, a), sid)
  {
    hide Unsent, Lists1;
    UnsentFrame(s, Do(s, a), sid);
  }

  lemma UnsentSubscribes(s: State, a: Action, sid: Sid)
    requires Core(s) && Subscribes(a) && Enabled(s, a)
    ensures Unsent(s, Do(s, a), sid)
  {
    hide Core, Do, After, Unsent;
    CoreSubscribes(s, a);
    UnsentFrame(s, Do(s, a), sid);
  }

  lemma StreamDrops(s: State, a: Action, sid: Sid)
    requires Inv(s) && Enabled(s, a) && Drops(s, a) && Streaming(s, sid)
    ensures Streaming(Do(s, a), sid)
  {
    InvParts(s);
    hide Core, OpenOk, Streaming, Registered;
    match a
    case EndSession(of) => StreamDropped(s, s.books.sessions[of], [], false, sid);
    case EndListen(of, graceful) => StreamDropped(s, of, [], graceful, sid);
    case SendUpdate(_) => StreamDropped(s, s.loop.sid, s.loop.rest, false, sid);
    case StepDeliver => StreamDropped(s, s.loop.sid, [], s.sinks[s.loop.sid].to.listen, sid);
    case SendNotice(_) => StreamDropped(s, s.loop.sid, [], false, sid);
    case SendAck(_) => StreamDropped(s, s.loop.sid, [], false, sid);
  }

  lemma StreamRegisters(s: State, a: Action, sid: Sid)
    requires LoopOk(s) && TokensOk(s) && Enabled(s, a) && (a.RegisterSession? || a.RegisterListen?) && Streaming(s, sid)
    ensures Streaming(Do(s, a), sid)
  {
    hide LoopOk, TokensOk, Streaming;
    match a
    case RegisterSession(of) => StreamRegisterSession(s, of, sid);
    case RegisterListen(of) => StreamRegisterListen(s, of, sid);
  }

  lemma StreamMoves(s: State, a: Action, sid: Sid)
    requires LoopOk(s) && Enabled(s, a) && (a.CloseReplaced? || a.Requeue? || a.CloseUnregistered?) && Streaming(s, sid)
    ensures Streaming(Do(s, a), sid)
  {
    hide LoopOk, Streaming;
    match a
    case CloseReplaced => StreamCloseReplaced(s, sid);
    case Requeue(order) => StreamRequeue(s, order, sid);
    case CloseUnregistered => StreamCloseUnregistered(s, sid);
  }

  lemma CoreTokensOk(s: State)
    requires Core(s)
    ensures TokensOk(s)
  {
  }

  lemma StreamOnLoop(s: State, a: Action, sid: Sid)
    requires Inv(s) && Enabled(s, a) && OnLoop(a) && !Moves(a) && !Drops(s, a) && Streaming(s, sid)
    ensures Streaming(Do(s, a), sid)
  {
    hide Core, OpenOk, LoopOk, Streaming;
    match a
    case ReadSession(_, _, _) => StreamRead(s, a, sid);
    case ReadListen(_) => StreamRead(s, a, sid);
    case SendEnd(ok) => StreamSendEnd(s, ok, sid);
    case StartFlush(of) => StreamStartFlush(s, of, sid);
    case StepFlush => StreamStepFlush(s, sid);
    case SendUpdate(_) => StreamSendUpdate(s, sid);
    case Arm(_) => StreamFire(s, a, sid);
    case Fire(_, _) => StreamFire(s, a, sid);
    case StepDeliver => StreamCompare(s, sid);
    case SendNotice(_) => StreamNotice(s, sid);
    case SendAck(_) => StreamAck(s, sid);
    case RefreshIdentity(key, identity) => StreamRefresh(s, s.books.sessions[key], identity, sid);
  }

  lemma StreamAnywhere(s: State, a: Action, sid: Sid)
    requires Core(s) && Enabled(s, a) && !OnLoop(a) && Streaming(s, sid)
    ensures Streaming(Do(s, a), sid)
  {
    hide Core, Streaming, Do, Unsent;
    if a.TakeAnnounce? || a.TakeTell? { StreamNews(s, a, sid); }
    else {
      if Subscribes(a) { UnsentSubscribes(s, a, sid); }
      else if a.Publish? || a.TakeOffer? || a.TakeLook? { UnsentErrands(s, a, sid); }
      else { UnsentCalls(s, a, sid); }
      UnsentKeeps(s, Do(s, a), sid);
    }
  }

  lemma StreamNews(s: State, a: Action, sid: Sid)
    requires Enabled(s, a) && (a.TakeAnnounce? || a.TakeTell?) && Streaming(s, sid)
    ensures Streaming(Do(s, a), sid)
  {
    hide Streaming;
    match a
    case TakeAnnounce(kind) => StreamAnnounce(s, kind, sid);
    case TakeTell(of, kind) => StreamTell(s, of, kind, sid);
  }

  lemma StreamStep(s: State, a: Action, sid: Sid)
    requires Inv(s) && Enabled(s, a) && Streaming(s, sid)
    ensures Streaming(Do(s, a), sid)
  {
    InvParts(s);
    CoreTokensOk(s);
    hide Core, OpenOk, LoopOk, Streaming, Do, Drops, TokensOk;
    if !OnLoop(a) { StreamAnywhere(s, a, sid); }
    else if a.RegisterSession? || a.RegisterListen? { StreamRegisters(s, a, sid); }
    else if Moves(a) { StreamMoves(s, a, sid); }
    else if Drops(s, a) { StreamDrops(s, a, sid); }
    else { StreamOnLoop(s, a, sid); }
  }

  lemma {:induction false} StreamRun(s: State, run: seq<Action>, t: State, sid: Sid)
    requires Inv(s) && Leads(s, run, t) && Streaming(s, sid)
    ensures Streaming(t, sid)
    decreases |run|
  {
    if run != [] {
      InvStep(s, run[0]);
      StreamStep(s, run[0], sid);
      StreamRun(Do(s, run[0]), run[1..], t, sid);
    }
  }

  lemma StreamHolds(t: State, sid: Sid)
    requires Reachable(t)
    ensures Streaming(t, sid)
  {
    hide Inv;
    var s, run :| Initial(s) && Leads(s, run, t);
    InitialInv(s);
    StreamRun(s, run, t, sid);
  }

  /** All a listen stream is ever sent, in the order it is sent. */
  lemma FramesOfAStream(t: State, sid: Sid)
    requires Reachable(t) && sid in t.sinks && t.sinks[sid].to.listen
    ensures Finished(t.sinks[sid].frames, t.sinks[sid].to)
    ensures Registered(t.books, sid, t.sinks[sid].to) && t.loop.Idle? ==> Body(t.sinks[sid].frames, t.sinks[sid].to)
  {
    StreamHolds(t, sid);
    InvHolds(t);
    InvParts(t);
    assert SessionsOk(t.books, t.sinks) && ChannelsOk(t.books, t.sinks) by { hide OpenOk, LoopOk; }
    hide Core, OpenOk, LoopOk;
    if Registered(t.books, sid, t.sinks[sid].to) { RegisteredIsOpen(t, sid); }
  }

  /**
   * A completion on a shared channel is followed by the cancellation, with nothing the loop could do in between; on a
   * channel of its own it is the last thing sent.
   */
  lemma CompletionIsFollowed(s: State, a: Action)
    requires Reachable(s) && s.loop.Ending? && !s.loop.finalSent && s.loop.sid in s.sinks
    ensures var t, sid := DoSendEnd(s, true), s.loop.sid;
      && Body(s.sinks[sid].frames, s.sinks[sid].to) && t.sinks[sid].frames == s.sinks[sid].frames + [Final]
      && (if s.sinks[sid].to.multiplexed then t.loop == Ending(sid, true) && (OnLoop(a) && Enabled(t, a) ==> a.SendEnd?)
                                              && DoSendEnd(t, true).sinks[sid].frames ==
                                                  s.sinks[sid].frames + [Final] + [Cancelled]
          else t.loop.Idle?)
  {
    hide Inv, Streaming, Body, Enabled;
    StreamHolds(s, s.loop.sid);
    InvHolds(s);
    EndingHas(s);
    OnlyTheEnd(DoSendEnd(s, true), a);
  }

  lemma OnlyTheEnd(s: State, a: Action)
    ensures s.loop.Ending? && OnLoop(a) && Enabled(s, a) ==> a.SendEnd?
  {
    hide Unused, Spells;
  }

  lemma EndingHas(s: State)
    requires Inv(s) && s.loop.Ending? && !s.loop.finalSent && s.loop.sid in s.sinks && Streaming(s, s.loop.sid)
    ensures Body(s.sinks[s.loop.sid].frames, s.sinks[s.loop.sid].to)
  {
    hide Core, OpenOk, Body;
  }

  // --------------------------------------------------------- after the close

  /** Closed, and not in the middle of being sent its end. */
  ghost predicate Over(s: State, sid: Sid) {
    sid in s.sinks && s.sinks[sid].closed && !(s.loop.Ending? && s.loop.sid == sid) &&
        !(s.loop.Closing? && s.loop.sid == sid)
  }

  lemma OverRegisterSession(s: State, of: Sid, sid: Sid)
    requires s.loop.Watching? && of !in s.sinks && Over(s, sid)
    ensures Over(DoRegisterSession(s, of), sid) && DoRegisterSession(s, of).sinks[sid].frames == s.sinks[sid].frames
  {
    hide SetTo, Overlooked;
  }

  lemma OverRegisterListen(s: State, of: Sid, sid: Sid)
    requires s.loop.Opening? && of !in s.sinks && Over(s, sid)
    ensures Over(DoRegisterListen(s, of), sid) && DoRegisterListen(s, of).sinks[sid].frames == s.sinks[sid].frames
  {
    hide Refused, WithStream, Overlooked;
  }

  lemma OverCloseReplaced(s: State, sid: Sid)
    requires s.loop.Replacing? && Over(s, sid)
    ensures Over(DoCloseReplaced(s), sid) && DoCloseReplaced(s).sinks[sid].frames == s.sinks[sid].frames
  {
    hide Merged;
  }

  lemma OverRequeue(s: State, order: seq<Kind>, sid: Sid)
    requires s.loop.Requeueing? && Over(s, sid)
    ensures Over(DoRequeue(s, order), sid) && DoRequeue(s, order).sinks[sid].frames == s.sinks[sid].frames
  {
  }

  lemma OverCloseUnregistered(s: State, sid: Sid)
    requires s.loop.Closing? && s.loop.sid in s.sinks && Over(s, sid)
    ensures Over(DoCloseUnregistered(s), sid) && DoCloseUnregistered(s).sinks[sid].frames == s.sinks[sid].frames
  {
  }

  lemma OverMoves(s: State, a: Action, sid: Sid)
    requires Enabled(s, a) && Moves(a) && Over(s, sid)
    ensures Over(Do(s, a), sid) && Do(s, a).sinks[sid].frames == s.sinks[sid].frames
  {
    hide Over, DoRegisterSession, DoRegisterListen, DoCloseReplaced, DoRequeue, DoCloseUnregistered, Refused, Spells,
        Unused;
    OverIsThere(s, sid);
    match a
    case RegisterSession(of) => OverRegisterSession(s, of, sid);
    case RegisterListen(of) => OverRegisterListen(s, of, sid);
    case CloseReplaced => OverCloseReplaced(s, sid);
    case Requeue(order) => OverRequeue(s, order, sid);
    case CloseUnregistered => OverCloseUnregistered(s, sid);
  }

  lemma OverDropped(s: State, of: Sid, unsent: seq<Uri>, graceful: bool, sid: Sid)
    requires Core(s) && of in s.sinks && Over(s, sid)
    ensures Over(Dropped(s, of, unsent, graceful), sid) && Dropped(s, of, unsent, graceful).sinks == s.sinks
  {
    assert Registered(s.books, of, s.sinks[of].to) ==> !s.sinks[of].closed by {
      if Registered(s.books, of, s.sinks[of].to) { RegisteredIsOpen(s, of); }
    }
    hide Core, Registered, Unregistered;
  }

  lemma OverDrops(s: State, a: Action, sid: Sid)
    requires Core(s) && Enabled(s, a) && Drops(s, a) && Over(s, sid)
    ensures Over(Do(s, a), sid) && Do(s, a).sinks[sid].frames == s.sinks[sid].frames
  {
    hide Core, Over, Dropped;
    assert sid in s.sinks by { OverIsThere(s, sid); }
    match a
    case EndSession(of) => OverDropped(s, s.books.sessions[of], [], false, sid);
    case EndListen(of, graceful) => OverDropped(s, of, [], graceful, sid);
    case SendUpdate(_) => OverDropped(s, s.loop.sid, s.loop.rest, false, sid);
    case StepDeliver => OverDropped(s, s.loop.sid, [], s.sinks[s.loop.sid].to.listen, sid);
    case SendNotice(_) => OverDropped(s, s.loop.sid, [], false, sid);
    case SendAck(_) => OverDropped(s, s.loop.sid, [], false, sid);
  }

  lemma OverIsThere(s: State, sid: Sid)
    requires Over(s, sid)
    ensures sid in s.sinks
  {
  }

  lemma OverSendEnd(s: State, ok: bool, sid: Sid)
    requires s.loop.Ending? && s.loop.sid in s.sinks && Over(s, sid)
    ensures Over(DoSendEnd(s, ok), sid) && DoSendEnd(s, ok).sinks[sid].frames == s.sinks[sid].frames
  {
  }

  lemma OverSendUpdate(s: State, sid: Sid)
    requires LoopOk(s) && s.loop.Flushing? && s.loop.rest != [] && s.loop.sid in s.sinks && Over(s, sid)
    ensures Over(DoSendUpdate(s, true), sid) && DoSendUpdate(s, true).sinks[sid].frames == s.sinks[sid].frames
  {
    hide Dropped, Registered;
  }

  lemma OverSendNotice(s: State, sid: Sid)
    requires LoopOk(s) && s.loop.Pushing? && s.loop.sid in s.sinks && Over(s, sid)
    ensures Over(DoSendNotice(s, true), sid) && DoSendNotice(s, true).sinks[sid].frames == s.sinks[sid].frames
  {
    hide Dropped, Registered;
  }

  lemma OverSendAck(s: State, sid: Sid)
    requires LoopOk(s) && Enabled(s, SendAck(true)) && Over(s, sid)
    ensures var t := Do(s, SendAck(true)); Over(t, sid) && t.sinks[sid].frames == s.sinks[sid].frames
  {
    hide Dropped, Registered;
  }

  lemma OverSends(s: State, a: Action, sid: Sid)
    requires LoopOk(s) && Enabled(s, a) && Sends(a) && !Drops(s, a) && Over(s, sid)
    ensures Over(Do(s, a), sid) && Do(s, a).sinks[sid].frames == s.sinks[sid].frames
  {
    hide Over, LoopOk, DoSendEnd, DoSendUpdate, DoSendNotice, Dropped;
    OverIsThere(s, sid);
    match a
    case SendEnd(ok) => OverSendEnd(s, ok, sid);
    case SendUpdate(_) => OverSendUpdate(s, sid);
    case SendNotice(_) => OverSendNotice(s, sid);
    case SendAck(_) => OverSendAck(s, sid);
  }

  lemma OverReads(s: State, a: Action, sid: Sid)
    requires Enabled(s, a) && Reads(a) && !Drops(s, a) && Over(s, sid)
    ensures Over(Do(s, a), sid) && Do(s, a).sinks[sid].frames == s.sinks[sid].frames
  {
    hide Registered, Watches, Computed, RespectsView, Unused;
  }

  lemma OverTurns(s: State, a: Action, sid: Sid)
    requires Enabled(s, a) && (a.StartFlush? || a.Arm? || a.Fire? || a.RefreshIdentity?) && Over(s, sid)
    ensures Over(Do(s, a), sid) && Do(s, a).sinks[sid].frames == s.sinks[sid].frames
  {
    hide Registered, RespectsView, Spells;
    match a
    case StartFlush(_) =>
    case Arm(_) =>
    case Fire(_, _) =>
    case RefreshIdentity(key, identity) => OverRefresh(s, s.books.sessions[key], identity, sid);
  }

  lemma OverRefresh(s: State, of: Sid, identity: Identity, sid: Sid)
    requires of in s.sinks && s.loop.Idle? && Over(s, sid)
    ensures Over(DoRefreshIdentity(s, of, identity), sid) &&
      DoRefreshIdentity(s, of, identity).sinks[sid].frames == s.sinks[sid].frames
  {
  }

  lemma OverOnLoop(s: State, a: Action, sid: Sid)
    requires Inv(s) && Enabled(s, a) && OnLoop(a) && Over(s, sid)
    ensures Over(Do(s, a), sid) && Do(s, a).sinks[sid].frames == s.sinks[sid].frames
  {
    InvParts(s);
    OverIsThere(s, sid);
    hide Core, OpenOk, LoopOk, Do, Drops, Over;
    if Moves(a) { OverMoves(s, a, sid); }
    else if Drops(s, a) { OverDrops(s, a, sid); }
    else if Sends(a) { OverSends(s, a, sid); }
    else if Reads(a) { OverReads(s, a, sid); }
    else { OverTurns(s, a, sid); }
  }

  lemma FramesStay(s: State, a: Action, sid: Sid)
    requires Core(s) && Enabled(s, a) && !OnLoop(a) && sid in s.sinks && sid in Do(s, a).sinks
    ensures Do(s, a).sinks[sid].frames == s.sinks[sid].frames
  {
    hide Core, Do;
    if Subscribes(a) { UnsentSubscribes(s, a, sid); }
    else if a.Publish? || a.TakeOffer? || a.TakeLook? { UnsentErrands(s, a, sid); }
    else if a.ChangeList? || a.CallArm? || a.CallFlush? { UnsentCalls(s, a, sid); }
    else { FramesStayNews(s, a, sid); }
  }

  lemma FramesStayNews(s: State, a: Action, sid: Sid)
    requires Enabled(s, a) && (a.TakeAnnounce? || a.TakeTell?) && sid in s.sinks && sid in Do(s, a).sinks
    ensures Do(s, a).sinks[sid].frames == s.sinks[sid].frames
  {
    hide Streams;
  }

  lemma OverAnywhere(s: State, a: Action, sid: Sid)
    requires Core(s) && Enabled(s, a) && !OnLoop(a) && Over(s, sid)
    ensures Over(Do(s, a), sid) && Do(s, a).sinks[sid].frames == s.sinks[sid].frames
  {
    hide Core, Do;
    CoreAnywhere(s, a);
    LoopStays(s, a);
    FramesStay(s, a, sid);
  }

  lemma {:induction false} OverRun(s: State, run: seq<Action>, t: State, sid: Sid)
    requires Inv(s) && Leads(s, run, t) && Over(s, sid)
    ensures Over(t, sid) && t.sinks[sid].frames == s.sinks[sid].frames
    decreases |run|
  {
    if run != [] {
      InvStep(s, run[0]);
      if OnLoop(run[0]) { OverOnLoop(s, run[0], sid); } else { OverAnywhere(s, run[0], sid); }
      OverRun(Do(s, run[0]), run[1..], t, sid);
    }
  }

  /** Nothing is pushed to a stream after it was dropped, cancelled or ended. */
  lemma NothingAfterTheEnd(s: State, run: seq<Action>, t: State, sid: Sid)
    requires Reachable(s) && Over(s, sid) && Leads(s, run, t)
    ensures Over(t, sid) && t.sinks[sid].frames == s.sinks[sid].frames
  {
    InvHolds(s);
    OverRun(s, run, t, sid);
  }
}
