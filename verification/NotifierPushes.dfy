/** What each action pushes to a sink, and when a session's sink is told of a resource. */
module NotifierPushes {
  import opened Wrappers
  import opened Notifier
  import opened NotifierBooks

  /** The frames the action pushes to the sink: one, if it is a push that is taken and the loop is at this sink. */
  ghost function Pushed(s: State, a: Action, sid: Sid): seq<Frame>
    requires Enabled(s, a) && sid in s.sinks
  {
    match a
    case SendAck(ok) => if ok && s.loop.sid == sid then [Ack(s.sinks[sid].to.kinds, s.sinks[sid].to.uris)] else []
    case SendNotice(ok) => if ok && s.loop.sid == sid then [Notice(s.loop.kind)] else []
    case SendUpdate(ok) => if ok && s.loop.sid == sid then [Update(s.loop.rest[0])] else []
    case SendEnd(ok) => if ok && s.loop.sid == sid then [if s.loop.finalSent then Cancelled else Final] else []
    case _ => []
  }

  /** The sink stays who it is for, and its frames grow by what is pushed. */
  ghost predicate Grows(s: State, t: State, sid: Sid, frames: seq<Frame>)
    requires sid in s.sinks
  {
    sid in t.sinks && t.sinks[sid].to == s.sinks[sid].to && t.sinks[sid].frames == s.sinks[sid].frames + frames
  }

  lemma SameGrows(s: State, t: State, sid: Sid)
    requires sid in s.sinks && sid in t.sinks
    requires t.sinks[sid].to == s.sinks[sid].to && t.sinks[sid].frames == s.sinks[sid].frames
    ensures Grows(s, t, sid, [])
  {
    assert s.sinks[sid].frames + [] == s.sinks[sid].frames;
  }

  lemma DroppedGrows(s: State, of: Sid, unsent: seq<Uri>, graceful: bool, sid: Sid)
    requires of in s.sinks && sid in s.sinks
    ensures Grows(s, Dropped(s, of, unsent, graceful), sid, [])
  {
    hide Registered, Unregistered, Grows;
    SameGrows(s, Dropped(s, of, unsent, graceful), sid);
  }

  lemma DropsGrow(s: State, a: Action, sid: Sid)
    requires Enabled(s, a) && Drops(s, a) && sid in s.sinks
    ensures Grows(s, Do(s, a), sid, Pushed(s, a, sid))
  {
    hide Dropped, Grows, Registered;
    match a
    case EndSession(of) => DroppedGrows(s, s.books.sessions[of], [], false, sid);
    case EndListen(of, graceful) => DroppedGrows(s, of, [], graceful, sid);
    case SendUpdate(_) => DroppedGrows(s, s.loop.sid, s.loop.rest, false, sid);
    case StepDeliver => DroppedGrows(s, s.loop.sid, [], s.sinks[s.loop.sid].to.listen, sid);
    case SendNotice(_) => DroppedGrows(s, s.loop.sid, [], false, sid);
    case SendAck(_) => DroppedGrows(s, s.loop.sid, [], false, sid);
  }

  lemma SendsGrow(s: State, a: Action, sid: Sid)
    requires Enabled(s, a) && Sends(a) && !Drops(s, a) && sid in s.sinks
    ensures Grows(s, Do(s, a), sid, Pushed(s, a, sid))
  {
    hide Dropped;
    if Pushed(s, a, sid) == [] { SameGrows(s, Do(s, a), sid); }
  }

  lemma MovesGrow(s: State, a: Action, sid: Sid)
    requires Enabled(s, a) && Moves(a) && sid in s.sinks
    ensures Grows(s, Do(s, a), sid, Pushed(s, a, sid))
  {
    hide Grows, Refused, WithStream, SetTo, Merged, Overlooked, RespectsView, Spells, Unused, Booked;
    SameGrows(s, Do(s, a), sid);
  }

  lemma ReadsGrow(s: State, a: Action, sid: Sid)
    requires Enabled(s, a) && Reads(a) && !Drops(s, a) && sid in s.sinks
    ensures Grows(s, Do(s, a), sid, Pushed(s, a, sid))
  {
    hide Grows, Registered, Watches, Computed, RespectsView, Unused;
    SameGrows(s, Do(s, a), sid);
  }

  lemma TurnsGrow(s: State, a: Action, sid: Sid)
    requires Enabled(s, a) && (a.StartFlush? || a.Arm? || a.Fire? || a.RefreshIdentity?) && sid in s.sinks
    ensures Grows(s, Do(s, a), sid, Pushed(s, a, sid))
  {
    hide Grows, Registered, RespectsView, Spells;
    SameGrows(s, Do(s, a), sid);
  }

  lemma ElsewhereGrows(s: State, a: Action, sid: Sid)
    requires Core(s) && Enabled(s, a) && !OnLoop(a) && sid in s.sinks
    ensures Grows(s, Do(s, a), sid, Pushed(s, a, sid))
  {
    hide Core, Grows, Streams, HeldFor, SubscribedTo, UnsubscribedFrom, SetTo, Added, Lists1, Watches, Put, After;
    if Subscribes(a) { CoreSubscribes(s, a); }
    SameGrows(s, Do(s, a), sid);
  }

  /**
   * Every action pushes to a sink exactly what it is said to: nothing but a push that was taken, to the sink the loop
   * is at, adds to what a client is sent, and it adds one frame.
   */
  lemma WhatIsPushed(s: State, a: Action, sid: Sid)
    requires Core(s) && Enabled(s, a) && sid in s.sinks
    ensures Grows(s, Do(s, a), sid, Pushed(s, a, sid))
  {
    hide Core, Do, Grows, Pushed;
    if !OnLoop(a) { ElsewhereGrows(s, a, sid); }
    else if Drops(s, a) { DropsGrow(s, a, sid); }
    else if Moves(a) { MovesGrow(s, a, sid); }
    else if Sends(a) { SendsGrow(s, a, sid); }
    else if Reads(a) { ReadsGrow(s, a, sid); }
    else { TurnsGrow(s, a, sid); }
  }

  // ------------------------------------------ once a session has unsubscribed

  ghost predicate SessionSink(s: State, sid: Sid, key: Key) {
    sid in s.sinks && !s.sinks[sid].to.listen && s.sinks[sid].to.key == key
  }

  /** The sink is sent the update by the step. */
  ghost predicate IsSent(s: State, t: State, sid: Sid, uri: Uri) {
    sid in s.sinks && sid in t.sinks && t.sinks[sid].frames == s.sinks[sid].frames + [Update(uri)]
  }

  /** How often a sink was sent an update of the URI. */
  ghost function TimesTold(s: State, sid: Sid, uri: Uri): nat {
    if sid in s.sinks then multiset(s.sinks[sid].frames)[Update(uri)] else 0
  }

  lemma OneMoreFrame(before: seq<Frame>, added: seq<Frame>, uri: Uri)
    requires |added| <= 1
    ensures multiset(before + added)[Update(uri)] ==
      multiset(before)[Update(uri)] + if added == [Update(uri)] then 1 else 0
    ensures before + added == before + [Update(uri)] <==> added == [Update(uri)]
  {
    assert (before + added)[|before|..] == added;
    assert (before + [Update(uri)])[|before|..] == [Update(uri)];
  }

  lemma OneAtMost(s: State, a: Action, sid: Sid)
    requires Enabled(s, a) && sid in s.sinks
    ensures |Pushed(s, a, sid)| <= 1
  {
    hide Enabled;
  }

  /** What a step adds to it. */
  lemma ToldMore(s: State, a: Action, sid: Sid, uri: Uri)
    requires Core(s) && Enabled(s, a) && sid in s.sinks
    ensures TimesTold(Do(s, a), sid, uri) == TimesTold(s, sid, uri) +
      if Pushed(s, a, sid) == [Update(uri)] then 1 else 0
    ensures Pushed(s, a, sid) == [Update(uri)] <==> IsSent(s, Do(s, a), sid, uri)
  {
    hide Core, Enabled, Do, Pushed;
    WhatIsPushed(s, a, sid);
    OneAtMost(s, a, sid);
    OneMoreFrame(s.sinks[sid].frames, Pushed(s, a, sid), uri);
  }

  /** The loop looked whether the session watches the URI, and is about to push the update. */
  ghost predicate AboutToTell(s: State, key: Key, uri: Uri) {
    s.loop.Flushing? && s.loop.sending && s.loop.rest != [] && s.loop.rest[0] == uri && SessionSink(s, s.loop.sid, key)
  }

  lemma NotToldElsewhere(s: State, a: Action, key: Key, uri: Uri)
    requires Core(s) && Enabled(s, a) && !OnLoop(a) && !AboutToTell(s, key, uri)
    ensures !AboutToTell(Do(s, a), key, uri)
  {
    hide Core, Do, Enabled;
    CoreAnywhere(s, a);
    LoopStays(s, a);
  }

  lemma NotToldOnLoop(s: State, a: Action, key: Key, uri: Uri)
    requires Enabled(s, a) && OnLoop(a) && !a.StepFlush?
    ensures !AboutToTell(Do(s, a), key, uri)
  {
    hide Registered, Unregistered, Watches, Computed, Refused, WithStream, SetTo, Merged, RespectsView, Spells, Unused,
        SessionSink, Overlooked, Booked;
  }

  lemma NotToldByLook(s: State, key: Key, uri: Uri)
    requires Enabled(s, StepFlush) && !Watches(s.books, key, uri)
    ensures !AboutToTell(Do(s, StepFlush), key, uri)
  {
  }

  /** All along the run the session does not watch the URI. */
  ghost predicate NeverWatches(s: State, run: seq<Action>, key: Key, uri: Uri)
    decreases |run|
  {
    !Watches(s.books, key, uri) &&
    (run != [] ==> Enabled(s, run[0]) && NeverWatches(Do(s, run[0]), run[1..], key, uri))
  }

  lemma NotToldSoon(s: State, a: Action, key: Key, uri: Uri)
    requires Core(s) && Enabled(s, a) && !Watches(s.books, key, uri) && !AboutToTell(s, key, uri)
    ensures !AboutToTell(Do(s, a), key, uri)
  {
    hide Core, Do, AboutToTell, Watches;
    if !OnLoop(a) { NotToldElsewhere(s, a, key, uri); }
    else if a.StepFlush? { NotToldByLook(s, key, uri); }
    else { NotToldOnLoop(s, a, key, uri); }
  }

  lemma NotToldStep(s: State, a: Action, key: Key, uri: Uri, sid: Sid)
    requires Inv(s) && Enabled(s, a) && !AboutToTell(s, key, uri) && SessionSink(Do(s, a), sid, key)
    ensures TimesTold(Do(s, a), sid, uri) == TimesTold(s, sid, uri) && (sid in s.sinks ==> SessionSink(s, sid, key))
  {
    InvParts(s);
    hide Inv, Core, OpenOk, LoopOk, Do, AboutToTell;
    if sid in s.sinks { NoneIsPushed(s, a, sid, key, uri); } else { FreshIsUntold(s, a, sid, uri); }
  }

  lemma NotThatOne(s: State, a: Action, sid: Sid, key: Key, uri: Uri)
    requires Enabled(s, a) && !AboutToTell(s, key, uri) && SessionSink(s, sid, key)
    ensures Pushed(s, a, sid) != [Update(uri)]
  {
    var pushed := Pushed(s, a, sid);
    assert [Update(uri)][0] == Update(uri);
    if a.SendUpdate? && s.loop.sid == sid { assert s.loop.rest[0] != uri; }
    assert pushed == [] || pushed[0] != Update(uri);
  }

  lemma NoneIsPushed(s: State, a: Action, sid: Sid, key: Key, uri: Uri)
    requires Core(s) && Enabled(s, a) && !AboutToTell(s, key, uri) && sid in s.sinks && SessionSink(Do(s, a), sid, key)
    ensures SessionSink(s, sid, key) && TimesTold(Do(s, a), sid, uri) == TimesTold(s, sid, uri)
  {
    hide Core, Do, Enabled, Grows, TimesTold, Pushed, AboutToTell, SessionSink;
    WhatIsPushed(s, a, sid);
    ToldMore(s, a, sid, uri);
    ToIsKept(s, a, sid, key);
    NotThatOne(s, a, sid, key, uri);
  }

  lemma ToIsKept(s: State, a: Action, sid: Sid, key: Key)
    requires Enabled(s, a) && sid in s.sinks && Grows(s, Do(s, a), sid, Pushed(s, a, sid))
    requires SessionSink(Do(s, a), sid, key)
    ensures SessionSink(s, sid, key)
  {
    hide Do, Enabled;
  }

  /** A sink that is new was sent nothing. */
  lemma FreshIsUntold(s: State, a: Action, sid: Sid, uri: Uri)
    requires Core(s) && LoopOk(s) && Enabled(s, a) && sid !in s.sinks
    ensures TimesTold(Do(s, a), sid, uri) == 0 && (sid in Do(s, a).sinks ==> Do(s, a).sinks[sid].frames == [])
  {
    if !OnLoop(a) { hide Core, Do, LoopOk, Enabled; CoreAnywhere(s, a); }
    else if a.RegisterSession? || a.RegisterListen? {
      hide Core, Registered, Refused, WithStream, SetTo, Overlooked, Booked;
    } else {
      hide Core, LoopOk;
      NoSinkIsNew(s, a, sid);
    }
  }

  lemma NoSinkIsNew(s: State, a: Action, sid: Sid)
    requires Enabled(s, a) && OnLoop(a) && !a.RegisterSession? && !a.RegisterListen? && sid !in s.sinks
    ensures sid !in Do(s, a).sinks
  {
    hide Registered, Unregistered, Watches, Computed, Merged, RespectsView, Spells, Unused;
  }

  /**
   * From when a session no longer watches a URI, and for as long as it does not, none of its sinks is sent an update
   * of it, even one that was waiting; only a push whose look at the subscriptions came before may still go out.
   */
  lemma {:induction false} NotToldOnceUnsubscribed(s: State, run: seq<Action>, t: State, key: Key, uri: Uri, sid: Sid)
    requires Inv(s) && Leads(s, run, t) && NeverWatches(s, run, key, uri) && !AboutToTell(s, key, uri)
    requires SessionSink(t, sid, key)
    ensures TimesTold(t, sid, uri) == TimesTold(s, sid, uri) && (sid in s.sinks ==> SessionSink(s, sid, key))
    decreases |run|
  {
    hide Inv, Enabled, Do, NeverWatches, AboutToTell, TimesTold, SessionSink, Watches;
    if run != [] {
      var next := Do(s, run[0]);
      UnwatchedOn(s, run, key, uri);
      InvParts(s);
      InvStep(s, run[0]);
      NotToldSoon(s, run[0], key, uri);
      NotToldOnceUnsubscribed(next, run[1..], t, key, uri, sid);
      if sid in s.sinks { WhatIsPushed(s, run[0], sid); }
      if sid in next.sinks { NotToldStep(s, run[0], key, uri, sid); } else { NoneThere(s, next, sid, uri); }
    }
  }

  lemma UnwatchedOn(s: State, run: seq<Action>, key: Key, uri: Uri)
    requires NeverWatches(s, run, key, uri) && run != []
    ensures Enabled(s, run[0]) && !Watches(s.books, key, uri) && NeverWatches(Do(s, run[0]), run[1..], key, uri)
  {
    hide Enabled, Do, Watches;
  }

  lemma NoneThere(s: State, t: State, sid: Sid, uri: Uri)
    requires sid !in s.sinks && sid !in t.sinks
    ensures TimesTold(s, sid, uri) == TimesTold(t, sid, uri)
  {
  }
}
