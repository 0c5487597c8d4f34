/** What holds of the notifier's books, sinks and queues in every reachable state. */
module NotifierBooks {
  import opened Wrappers
  import opened Notifier

  ghost function ClientStreams(b: Books, sinks: map<Sid, Sink>, client: Client): set<Sid> {
    set sid | sid in Streams(b) && sid in sinks && sinks[sid].to.client == client
  }

  /** Every registered sink is there under its own key, and open. */
  ghost predicate SessionsOk(b: Books, sinks: map<Sid, Sink>) {
    forall key :: key in b.sessions ==>
      b.sessions[key] in sinks && var sink := sinks[b.sessions[key]];
          !sink.to.listen && sink.to.key == key && !sink.closed
  }

  ghost predicate ChannelsOk(b: Books, sinks: map<Sid, Sink>) {
    && (forall channel :: channel in b.channels ==> b.channels[channel] != map[])
    && (forall channel, key :: channel in b.channels && key in b.channels[channel] ==>
          b.channels[channel][key] in sinks &&
          var sink := sinks[b.channels[channel][key]];
              sink.to.listen && sink.to.channel == channel && sink.to.key == key && !sink.closed)
  }

  /** The counters are the numbers of registered streams, within their caps; no counter is zero. */
  ghost predicate CountsOk(b: Books, sinks: map<Sid, Sink>, maxTotal: nat) {
    && b.listens == |Streams(b)| <= maxTotal
    && (forall client :: ClientCount(b, client) == |ClientStreams(b, sinks, client)| <= MAX_SUBSCRIPTIONS_PER_CLIENT)
    && (forall client :: client in b.perClient ==> b.perClient[client] > 0)
  }

  /** Updates wait only for watched URIs of a session without a sink; without hold there is a sink. */
  ghost predicate SubscribedOk(b: Books) {
    forall key :: key in b.subscribed ==> EntryOk(b.subscribed[key], key in b.sessions)
  }

  ghost predicate EntryOk(entry: Subscriptions, sinkHere: bool) {
    && entry.uris != {} && (forall uri :: uri in entry.held ==> uri in entry.uris)
    && (sinkHere ==> entry.held == []) && (!entry.hold ==> sinkHere)
  }

  /** A closed sink has nothing to send, and no window open. */
  ghost predicate ClosedOk(sinks: map<Sid, Sink>, hands: multiset<Token>) {
    forall sid :: sid in sinks && sinks[sid].closed ==>
      sinks[sid].updates == [] && sinks[sid].pending == {} && Timer(sid) !in hands
  }

  /** An open sink is registered, unless the loop has just replaced or unregistered it and is about to close it. */
  ghost predicate OpenOk(s: State) {
    forall sid :: sid in s.sinks && !s.sinks[sid].closed ==>
      || Registered(s.books, sid, s.sinks[sid].to)
      || (s.loop.Replacing? && s.loop.replaced == Some(sid))
      || (s.loop.Closing? && s.loop.sid == sid)
  }

  ghost predicate OnOpen(s: State, sid: Sid) {
    sid in s.sinks && !s.sinks[sid].closed && Registered(s.books, sid, s.sinks[sid].to)
  }

  ghost predicate BeingReplaced(sink: Sink, next: Sink) {
    !sink.closed && !sink.to.listen && sink.to.key == next.to.key
  }

  /** What the loop holds between two steps of an operation. */
  ghost predicate LoopOk(s: State) {
    match s.loop
    case Idle => true
    case Watching(sink, _, _, _) => Unused(sink) && !sink.to.listen && sink.to.channel == sink.to.key &&
        sink.to.uris == {}
    case Replacing(sid, replaced, _, _) =>
      OnOpen(s, sid) && !s.sinks[sid].to.listen &&
      (replaced.Some? ==>
          replaced.value != sid && replaced.value in s.sinks && BeingReplaced(s.sinks[replaced.value], s.sinks[sid]))
    case Requeueing(sid, _, _) => OnOpen(s, sid) && !s.sinks[sid].to.listen
    case Flushing(sid, rest, sending) => sid in s.sinks && (rest != [] ==> OnOpen(s, sid)) && (sending ==> rest != [])
    case Delivering(sid, todo) => sid in s.sinks && (todo != [] ==> OnOpen(s, sid))
    case Pushing(sid, _, _, _) => OnOpen(s, sid)
    case Opening(sink, _) => Unused(sink) && sink.to.listen
    case Acking(sid) => OnOpen(s, sid) && s.sinks[sid].to.listen
    case Closing(sid, _, graceful) =>
      sid in s.sinks && !s.sinks[sid].closed && !Registered(s.books, sid, s.sinks[sid].to) &&
          (graceful ==> s.sinks[sid].to.listen)
    case Ending(sid, finalSent) =>
      && sid in s.sinks && s.sinks[sid].closed && s.sinks[sid].to.listen
      && (finalSent ==> s.sinks[sid].to.multiplexed)
  }

  ghost function SidOf(t: Token): Option<Sid> {
    match t
    case Look(_, _) => None
    case Announce(_) => None
    case _ => Some(t.sid)
  }

  ghost predicate TokensOk(s: State) {
    forall t :: t in s.hands && SidOf(t).Some? ==> SidOf(t).value in s.sinks
  }

  /**
   * Exactly one window is scheduled for an open sink with lists to check, and exactly one flush for one with updates.
   */
  ghost predicate ScheduledOk(sinks: map<Sid, Sink>, hands: multiset<Token>) {
    forall sid :: sid in sinks ==> ScheduledFor(sid, sinks[sid], hands)
  }

  ghost predicate ScheduledFor(sid: Sid, sink: Sink, hands: multiset<Token>) {
    && (!sink.closed ==>
          hands[AskArm(sid)] + hands[ArmQueued(sid)] + hands[Timer(sid)] == if sink.scheduled then 1 else 0)
    && (sink.pending != {} ==> sink.scheduled)
    && (hands[AskFlush(sid)] + hands[FlushQueued(sid)] == if sink.updatesScheduled then 1 else 0)
    && (sink.updates != [] ==> sink.updatesScheduled)
  }

  /** All that does not depend on where the loop is. */
  ghost predicate Core(s: State) {
    && SessionsOk(s.books, s.sinks) && ChannelsOk(s.books, s.sinks) && CountsOk(s.books, s.sinks, s.maxTotal) &&
        SubscribedOk(s.books)
    && ClosedOk(s.sinks, s.hands) && TokensOk(s) && ScheduledOk(s.sinks, s.hands) && RespectsView(s.lists, s.view)
  }

  ghost predicate Inv(s: State) {
    Core(s) && OpenOk(s) && LoopOk(s)
  }

  // ------------------------------------------- what keeps the loop-free part

  /** The sinks are who they were, and the books of who is registered as they were. */
  ghost predicate Quiet(s: State, t: State) {
    && t.books.sessions == s.books.sessions && t.books.channels == s.books.channels
    && t.books.perClient == s.books.perClient && t.books.listens == s.books.listens && t.maxTotal == s.maxTotal
    && t.sinks.Keys == s.sinks.Keys
    && forall sid :: sid in s.sinks ==> t.sinks[sid].to == s.sinks[sid].to && t.sinks[sid].closed == s.sinks[sid].closed
  }

  lemma QuietKeeps(s: State, t: State)
    requires SessionsOk(s.books, s.sinks) && ChannelsOk(s.books, s.sinks) && CountsOk(s.books, s.sinks, s.maxTotal) &&
      Quiet(s, t)
    ensures SessionsOk(t.books, t.sinks) && ChannelsOk(t.books, t.sinks) && CountsOk(t.books, t.sinks, t.maxTotal)
  {
    assert Streams(t.books) == Streams(s.books);
    forall client ensures ClientStreams(t.books, t.sinks, client) == ClientStreams(s.books, s.sinks, client) {
    }
  }

  /** One sink changes, and what is on its way to the loop for it, if anything. */
  lemma CoreOne(s: State, t: State, taken: multiset<Token>, given: multiset<Token>, sid: Sid)
    requires Core(s) && sid in s.sinks && sid in t.sinks && forall k :: k in taken || k in given ==>
      SidOf(k) == Some(sid) && !Errand(k)
    requires t == s.(hands := s.hands - taken + given, sinks := s.sinks[sid := t.sinks[sid]], loop := t.loop, debts :=
      t.debts, missed := t.missed)
    requires t.sinks[sid].to == s.sinks[sid].to && t.sinks[sid].closed == s.sinks[sid].closed &&
      ScheduledFor(sid, t.sinks[sid], t.hands)
    requires s.sinks[sid].closed ==> Timer(sid) !in given && t.sinks[sid].pending == {} && t.sinks[sid].updates == []
    ensures Core(t) && Quiet(s, t)
  {
    hide SessionsOk, ChannelsOk, CountsOk, SubscribedOk, RespectsView, ScheduledOk;
    QuietKeeps(s, t);
    ScheduledOne(s, t, taken, given, sid);
  }

  lemma ScheduledOne(s: State, t: State, taken: multiset<Token>, given: multiset<Token>, sid: Sid)
    requires ScheduledOk(s.sinks, s.hands) && sid in s.sinks && sid in t.sinks && forall k ::
      k in taken || k in given ==> SidOf(k) == Some(sid)
    requires t.hands == s.hands - taken + given && t.sinks == s.sinks[sid := t.sinks[sid]] &&
      ScheduledFor(sid, t.sinks[sid], t.hands)
    ensures ScheduledOk(t.sinks, t.hands)
  {
    hide ScheduledFor;
    forall x | x in s.sinks && x != sid ensures ScheduledFor(x, t.sinks[x], t.hands) {
      ScheduledSame(x, s.sinks[x], s.hands, t.hands);
    }
  }

  lemma ScheduledSame(sid: Sid, sink: Sink, hands: multiset<Token>, after: multiset<Token>)
    requires ScheduledFor(sid, sink, hands)
    requires after[AskArm(sid)] == hands[AskArm(sid)] && after[ArmQueued(sid)] == hands[ArmQueued(sid)] &&
      after[Timer(sid)] == hands[Timer(sid)]
    requires after[AskFlush(sid)] == hands[AskFlush(sid)] && after[FlushQueued(sid)] == hands[FlushQueued(sid)]
    ensures ScheduledFor(sid, sink, after)
  {
  }

  lemma CoreSink(s: State, sid: Sid)
    requires Core(s) && sid in s.sinks
    ensures ScheduledFor(sid, s.sinks[sid], s.hands)
    ensures s.sinks[sid].closed ==> s.sinks[sid].pending == {} && s.sinks[sid].updates == [] && Timer(sid) !in s.hands
  {
  }

  lemma CoreQueued(s: State, sid: Sid, uri: Uri)
    requires Core(s) && sid in s.sinks
    ensures Core(Queued(s, sid, uri)) && Quiet(s, Queued(s, sid, uri))
  {
    hide Core, Quiet;
    CoreSink(s, sid);
    var t, given := Queued(s, sid, uri), if s.sinks[sid].updatesScheduled then multiset{} else multiset{AskFlush(sid)};
    if t == s { assert s.sinks == s.sinks[sid := s.sinks[sid]] && s.hands - multiset{} + multiset{} == s.hands;
        CoreOne(s, s, multiset{}, multiset{}, sid); }
    else { assert s.hands - multiset{} + given == t.hands; CoreOne(s, t, multiset{}, given, sid); }
  }

  lemma CorePended(s: State, sid: Sid, kinds: set<Kind>)
    requires Core(s) && sid in s.sinks
    ensures Core(Pended(s, sid, kinds)) && Quiet(s, Pended(s, sid, kinds))
  {
    hide Core, Quiet;
    CoreSink(s, sid);
    var t, given := Pended(s, sid, kinds), if s.sinks[sid].scheduled then multiset{} else multiset{AskArm(sid)};
    if t == s { assert s.sinks == s.sinks[sid := s.sinks[sid]] && s.hands - multiset{} + multiset{} == s.hands;
        CoreOne(s, s, multiset{}, multiset{}, sid); }
    else { assert s.hands - multiset{} + given == t.hands; CoreOne(s, t, multiset{}, given, sid); }
  }

  /** What a sink has been sent, what it remembers of its lists, and who it is for, matter to nothing here. */
  lemma CoreRemembers(s: State, sid: Sid, sink: Sink)
    requires Core(s) && sid in s.sinks
    requires sink == s.sinks[sid].(identity := sink.identity, baselines := sink.baselines, frames := sink.frames)
    ensures Core(s.(sinks := s.sinks[sid := sink])) && Quiet(s, s.(sinks := s.sinks[sid := sink]))
  {
    hide Core, Quiet;
    CoreSink(s, sid);
    assert s.hands - multiset{} + multiset{} == s.hands;
    CoreOne(s, s.(sinks := s.sinks[sid := sink]), multiset{}, multiset{}, sid);
  }

  lemma CoreFramed(s: State, sid: Sid, frame: Frame)
    requires Core(s) && sid in s.sinks
    ensures Core(Framed(s, sid, frame)) && Quiet(s, Framed(s, sid, frame))
  {
    CoreRemembers(s, sid, s.sinks[sid].(frames := s.sinks[sid].frames + [frame]));
  }

  /** Only what sessions are subscribed to changes. */
  lemma CoreBooked(s: State, b: Books)
    requires Core(s) && SubscribedOk(b) && b == s.books.(subscribed := b.subscribed)
    ensures Core(Booked(s, b)) && Quiet(s, Booked(s, b))
  {
    hide SessionsOk, ChannelsOk, CountsOk, SubscribedOk, ClosedOk, ScheduledOk, RespectsView;
    QuietKeeps(s, Booked(s, b));
  }

  ghost predicate Errand(t: Token) {
    t.Offer? || t.Look? || t.Tell? || t.Announce?
  }

  /** Errands of the threads come and go without a trace in the rest. */
  lemma CoreHands(s: State, t: State, taken: multiset<Token>, given: multiset<Token>)
    requires Core(s) &&
      t == s.(books := t.books, hands := s.hands - taken + given, loop := t.loop, debts := t.debts, missed := t.missed)
    requires t.books == s.books.(subscribed := t.books.subscribed) && SubscribedOk(t.books)
    requires forall k :: k in taken || k in given ==> Errand(k)
    requires forall k :: k in given && SidOf(k).Some? ==> SidOf(k).value in s.sinks
    ensures Core(t) && Quiet(s, t)
  {
    hide SessionsOk, ChannelsOk, CountsOk, SubscribedOk, RespectsView, ScheduledOk;
    QuietKeeps(s, t);
    ScheduledHands(s.sinks, s.hands, t.hands, taken, given);
  }

  lemma ScheduledHands(sinks: map<Sid, Sink>, hands: multiset<Token>, after: multiset<Token>, taken: multiset<Token>,
      given: multiset<Token>)
    requires ScheduledOk(sinks, hands) && after == hands - taken + given && forall k :: k in taken || k in given ==>
      Errand(k)
    ensures ScheduledOk(sinks, after)
  {
    hide ScheduledFor;
    forall sid | sid in sinks ensures ScheduledFor(sid, sinks[sid], after) {
      ScheduledSame(sid, sinks[sid], hands, after);
    }
  }

  /** A sink that is not registered closes. */
  lemma CoreClosed(s: State, sid: Sid)
    requires Core(s) && sid in s.sinks && !Registered(s.books, sid, s.sinks[sid].to)
    ensures Core(Closed(s, sid))
  {
    hide CountsOk, SubscribedOk, RespectsView, ScheduledOk, SessionsOk, ChannelsOk;
    var t := Closed(s, sid);
    CountsFrame(s.books, s.sinks, t.sinks, s.maxTotal);
    ScheduledClosed(s, sid);
    RegisteredOthers(s, sid, t.sinks);
  }

  lemma ScheduledClosed(s: State, sid: Sid)
    requires ScheduledOk(s.sinks, s.hands) && sid in s.sinks
    ensures ScheduledOk(Closed(s, sid).sinks, Closed(s, sid).hands)
  {
  }

  lemma RegisteredOthers(s: State, sid: Sid, sinks: map<Sid, Sink>)
    requires SessionsOk(s.books, s.sinks) && ChannelsOk(s.books, s.sinks) && sid in s.sinks &&
      !Registered(s.books, sid, s.sinks[sid].to)
    requires sinks.Keys == s.sinks.Keys && forall x :: x in s.sinks && x != sid ==> sinks[x] == s.sinks[x]
    ensures SessionsOk(s.books, sinks) && ChannelsOk(s.books, sinks)
  {
  }

  lemma CountsFrame(b: Books, sinks: map<Sid, Sink>, after: map<Sid, Sink>, maxTotal: nat)
    requires CountsOk(b, sinks, maxTotal) && sinks.Keys == after.Keys
    requires forall sid :: sid in sinks ==> after[sid].to == sinks[sid].to
    ensures CountsOk(b, after, maxTotal)
  {
    forall client ensures ClientStreams(b, after, client) == ClientStreams(b, sinks, client) {
    }
  }

  lemma StreamLeft(b: Books, to: Recipient, channel: Channel, key: Key)
    requires channel in b.channels && key in b.channels[channel] && (channel, key) != (to.channel, to.key)
    ensures var after := WithoutStream(b, to);
      channel in after.channels && key in after.channels[channel] &&
          after.channels[channel][key] == b.channels[channel][key]
  {
    if channel == to.channel { assert key in b.channels[channel] - {to.key}; }
  }

  lemma StreamWas(b: Books, to: Recipient, channel: Channel, key: Key)
    requires var after := WithoutStream(b, to); channel in after.channels && key in after.channels[channel]
    requires to.channel in b.channels
    ensures channel in b.channels && key in b.channels[channel] && (channel, key) != (to.channel, to.key)
    ensures WithoutStream(b, to).channels[channel][key] == b.channels[channel][key]
  {
  }

  lemma StreamsLess(b: Books, sinks: map<Sid, Sink>, sid: Sid)
    requires ChannelsOk(b, sinks) && sid in sinks && sinks[sid].to.listen && Registered(b, sid, sinks[sid].to)
    ensures Streams(WithoutStream(b, sinks[sid].to)) == Streams(b) - {sid}
  {
    hide WithoutStream;
    var to := sinks[sid].to;
    var after := WithoutStream(b, to);
    forall x | x in Streams(b) && x != sid ensures x in Streams(after) {
      var c, k :| c in b.channels && k in b.channels[c] && b.channels[c][k] == x;
      StreamLeft(b, to, c, k);
      assert after.channels[c][k] == x;
    }
    forall x | x in Streams(after) ensures x in Streams(b) && x != sid {
      var c, k :| c in after.channels && k in after.channels[c] && after.channels[c][k] == x;
      StreamWas(b, to, c, k);
      assert b.channels[c][k] == x;
    }
  }

  lemma StreamsMore(b: Books, sid: Sid, to: Recipient)
    requires !(to.channel in b.channels && to.key in b.channels[to.channel])
    ensures Streams(WithStream(b, sid, to)) == Streams(b) + {sid}
  {
    var after := WithStream(b, sid, to);
    assert after.channels[to.channel][to.key] == sid;
    forall x | x in Streams(b) ensures x in Streams(after) {
      var c, k :| c in b.channels && k in b.channels[c] && b.channels[c][k] == x;
      assert after.channels[c][k] == x;
    }
    forall x | x in Streams(after) ensures x in Streams(b) || x == sid {
      var c, k :| c in after.channels && k in after.channels[c] && after.channels[c][k] == x;
      assert !(c == to.channel && k == to.key) ==> b.channels[c][k] == x;
    }
  }

  /** A registered sink leaves the books. */
  lemma CoreUnregistered(s: State, sid: Sid)
    requires Core(s) && sid in s.sinks && Registered(s.books, sid, s.sinks[sid].to)
    ensures Core(Booked(s, Unregistered(s.books, s.sinks[sid].to)))
  {
    hide ClosedOk, ScheduledOk, RespectsView, CountsOk, Streams, SubscribedOk, ChannelsOk;
    var to := s.sinks[sid].to;
    var b := Unregistered(s.books, to);
    SubscribedUnregistered(s.books, to);
    ChannelsLess(s.books, s.sinks, sid);
    if to.listen {
      StreamsLess(s.books, s.sinks, sid);
      InStreams(s.books, sid, to);
      CountsLess(s.books, s.sinks, s.maxTotal, sid);
    } else {
      CountsSame(s.books, b, s.sinks, s.maxTotal);
    }
  }

  lemma ChannelsLess(b: Books, sinks: map<Sid, Sink>, sid: Sid)
    requires ChannelsOk(b, sinks) && sid in sinks
    ensures ChannelsOk(Unregistered(b, sinks[sid].to), sinks)
  {
    if sinks[sid].to.listen { StreamLess(b, sinks, sinks[sid].to); }
  }

  lemma StreamLess(b: Books, sinks: map<Sid, Sink>, to: Recipient)
    requires ChannelsOk(b, sinks)
    ensures ChannelsOk(WithoutStream(b, to), sinks)
  {
    var after := WithoutStream(b, to);
    forall channel, key | channel in after.channels && key in after.channels[channel]
      ensures channel in b.channels && key in b.channels[channel]
      ensures after.channels[channel][key] == b.channels[channel][key]
    {
    }
  }

  /** It is registered no more, and every other one as before. */
  lemma OthersStayRegistered(b: Books, sid: Sid, to: Recipient, other: Sid, toOther: Recipient)
    requires Registered(b, sid, to)
    ensures !Registered(Unregistered(b, to), sid, to)
    ensures other != sid && Registered(b, other, toOther) ==> Registered(Unregistered(b, to), other, toOther)
  {
    if other != sid && Registered(b, other, toOther) && to.listen && toOther.listen && to.channel == toOther.channel {
      assert toOther.key in b.channels[to.channel] - {to.key};
    }
  }

  lemma SubscribedUnregistered(b: Books, to: Recipient)
    requires SubscribedOk(b)
    ensures SubscribedOk(Unregistered(b, to))
  {
  }

  lemma InStreams(b: Books, sid: Sid, to: Recipient)
    requires to.listen && Registered(b, sid, to)
    ensures sid in Streams(b)
  {
  }

  lemma CountsSame(b: Books, after: Books, sinks: map<Sid, Sink>, maxTotal: nat)
    requires CountsOk(b, sinks, maxTotal)
    requires after.channels == b.channels && after.perClient == b.perClient && after.listens == b.listens
    ensures CountsOk(after, sinks, maxTotal)
  {
    assert Streams(after) == Streams(b);
    forall client ensures ClientStreams(after, sinks, client) == ClientStreams(b, sinks, client) {
    }
  }

  lemma ClientStreamsLess(b: Books, after: Books, sinks: map<Sid, Sink>, sid: Sid, client: Client)
    requires sid in sinks && Streams(after) == Streams(b) - {sid}
    ensures ClientStreams(after, sinks, client) ==
      ClientStreams(b, sinks, client) - if client == sinks[sid].to.client then {sid} else {}
  {
    hide Streams;
  }

  lemma CountsLess(b: Books, sinks: map<Sid, Sink>, maxTotal: nat, sid: Sid)
    requires CountsOk(b, sinks, maxTotal) && sid in sinks && sid in Streams(b) && sinks[sid].to.channel in b.channels
    requires Streams(WithoutStream(b, sinks[sid].to)) == Streams(b) - {sid}
    ensures CountsOk(WithoutStream(b, sinks[sid].to), sinks, maxTotal)
  {
    hide Streams;
    var to := sinks[sid].to;
    var after := WithoutStream(b, to);
    assert sid in ClientStreams(b, sinks, to.client);
    forall client
      ensures ClientCount(after, client) == |ClientStreams(after, sinks, client)| <= MAX_SUBSCRIPTIONS_PER_CLIENT
    {
      ClientStreamsLess(b, after, sinks, sid, client);
      hide ClientStreams;
    }
  }

  lemma CountsMore(b: Books, sinks: map<Sid, Sink>, maxTotal: nat, sid: Sid, sink: Sink)
    requires CountsOk(b, sinks, maxTotal) && sid !in sinks && sid !in Streams(b) && !Refused(b, sink.to, maxTotal)
    requires Streams(WithStream(b, sid, sink.to)) == Streams(b) + {sid}
    requires forall other :: other in Streams(b) ==> other in sinks
    ensures CountsOk(WithStream(b, sid, sink.to), sinks[sid := sink], maxTotal)
  {
    hide Streams;
    var after, later := WithStream(b, sid, sink.to), sinks[sid := sink];
    forall client
      ensures ClientStreams(after, later, client) == ClientStreams(b, sinks, client) +
        if client == sink.to.client then {sid} else {}
    {
      ClientStreamsMore(b, sinks, sid, sink, client);
    }
    AllCounts(b, sinks, after, later, sid, sink.to.client);
  }

  lemma AllCounts(b: Books, sinks: map<Sid, Sink>, after: Books, later: map<Sid, Sink>, sid: Sid, of: Client)
    requires forall client ::
      ClientCount(b, client) == |ClientStreams(b, sinks, client)| <= MAX_SUBSCRIPTIONS_PER_CLIENT
    requires ClientCount(b, of) < MAX_SUBSCRIPTIONS_PER_CLIENT &&
      after.perClient == b.perClient[of := ClientCount(b, of) + 1]
    requires forall client ::
      ClientStreams(after, later, client) == ClientStreams(b, sinks, client) + if client == of then {sid} else {}
    requires forall client :: sid !in ClientStreams(b, sinks, client)
    ensures forall client ::
      ClientCount(after, client) == |ClientStreams(after, later, client)| <= MAX_SUBSCRIPTIONS_PER_CLIENT
  {
    hide ClientStreams;
    forall client ensures ClientCount(after, client) ==
        |ClientStreams(after, later, client)| <= MAX_SUBSCRIPTIONS_PER_CLIENT {
      assert ClientCount(b, client) == |ClientStreams(b, sinks, client)|;
    }
  }

  lemma ClientStreamsMore(b: Books, sinks: map<Sid, Sink>, sid: Sid, sink: Sink, client: Client)
    requires sid !in sinks && sid !in Streams(b) && Streams(WithStream(b, sid, sink.to)) == Streams(b) + {sid}
    requires forall other :: other in Streams(b) ==> other in sinks
    ensures ClientStreams(WithStream(b, sid, sink.to), sinks[sid := sink], client)
         == ClientStreams(b, sinks, client) + if client == sink.to.client then {sid} else {}
  {
    hide Streams, WithStream;
  }

  lemma StreamsAreSinks(b: Books, sinks: map<Sid, Sink>)
    requires ChannelsOk(b, sinks)
    ensures forall sid :: sid in Streams(b) ==> sid in sinks
  {
  }

  lemma NoTokensOf(s: State, sid: Sid)
    requires TokensOk(s) && sid !in s.sinks
    ensures s.hands[AskArm(sid)] == s.hands[ArmQueued(sid)] == s.hands[Timer(sid)] == s.hands[AskFlush(sid)] ==
      s.hands[FlushQueued(sid)] == 0
  {
    assert SidOf(AskArm(sid)) == SidOf(ArmQueued(sid)) == SidOf(Timer(sid)) == SidOf(AskFlush(sid)) ==
        SidOf(FlushQueued(sid)) == Some(sid);
  }

  lemma CoreRegisterListen(s: State, sid: Sid)
    requires Core(s) && LoopOk(s) && s.loop.Opening? && sid !in s.sinks
    ensures Core(DoRegisterListen(s, sid))
  {
    hide CountsOk, RespectsView, SubscribedOk, Streams, ScheduledOk, ChannelsOk;
    var sink := s.loop.sink;
    if !Refused(s.books, sink.to, s.maxTotal) {
      StreamsAreSinks(s.books, s.sinks);
      StreamsMore(s.books, sid, sink.to);
      CountsMore(s.books, s.sinks, s.maxTotal, sid, sink);
      StreamSubscriptions(s.books, sid, sink.to);
      ChannelsMore(s.books, s.sinks, sid, sink);
      ScheduledNew(s, sid, sink);
    }
  }

  lemma ScheduledNew(s: State, sid: Sid, sink: Sink)
    requires ScheduledOk(s.sinks, s.hands) && TokensOk(s) && sid !in s.sinks && Unused(sink)
    ensures ScheduledOk(s.sinks[sid := sink], s.hands)
  {
    NoTokensOf(s, sid);
  }

  ghost predicate ChannelOk(channel: Channel, streams: map<Key, Sid>, sinks: map<Sid, Sink>) {
    && streams != map[]
    && (forall key :: key in streams ==> StreamOf(channel, key, streams[key], sinks))
  }

  ghost predicate StreamOf(channel: Channel, key: Key, sid: Sid, sinks: map<Sid, Sink>) {
    sid in sinks && var sink := sinks[sid];
        sink.to.listen && sink.to.channel == channel && sink.to.key == key && !sink.closed
  }

  lemma ChannelsEach(b: Books, sinks: map<Sid, Sink>)
    ensures ChannelsOk(b, sinks) <==>
      forall channel :: channel in b.channels ==> ChannelOk(channel, b.channels[channel], sinks)
  {
  }

  lemma ChannelsMore(b: Books, sinks: map<Sid, Sink>, sid: Sid, sink: Sink)
    requires ChannelsOk(b, sinks) && sid !in sinks && sink.to.listen && !sink.closed
    ensures ChannelsOk(WithStream(b, sid, sink.to), sinks[sid := sink])
  {
    hide ChannelsOk, ChannelOk;
    var to, after, later := sink.to, WithStream(b, sid, sink.to), sinks[sid := sink];
    ChannelsEach(b, sinks);
    ChannelsEach(after, later);
    forall channel | channel in after.channels ensures ChannelOk(channel, after.channels[channel], later) {
      if channel != to.channel { ChannelStays(channel, b.channels[channel], sinks, sid, sink); }
      else { ChannelMore(if channel in b.channels then b.channels[channel] else map[], sinks, sid, sink); }
    }
  }

  lemma ChannelStays(channel: Channel, streams: map<Key, Sid>, sinks: map<Sid, Sink>, sid: Sid, sink: Sink)
    requires ChannelOk(channel, streams, sinks) && sid !in sinks
    ensures ChannelOk(channel, streams, sinks[sid := sink])
  {
    assert forall key :: key in streams ==> StreamOf(channel, key, streams[key], sinks);
  }

  lemma ChannelMore(streams: map<Key, Sid>, sinks: map<Sid, Sink>, sid: Sid, sink: Sink)
    requires streams == map[] || ChannelOk(sink.to.channel, streams, sinks)
    requires sid !in sinks && sink.to.listen && !sink.closed
    ensures ChannelOk(sink.to.channel, streams[sink.to.key := sid], sinks[sid := sink])
  {
    assert sink.to.key in streams[sink.to.key := sid];
    assert forall key :: key in streams ==> StreamOf(sink.to.channel, key, streams[key], sinks);
  }

  lemma StreamSubscriptions(b: Books, sid: Sid, to: Recipient)
    requires SubscribedOk(b)
    ensures SubscribedOk(WithStream(b, sid, to))
  {
  }

  lemma CoreRegisterSession(s: State, sid: Sid)
    requires Core(s) && LoopOk(s) && s.loop.Watching? && sid !in s.sinks
    ensures Core(DoRegisterSession(s, sid))
  {
    hide CountsOk, RespectsView, Streams, ScheduledOk, SubscribedOk, SessionsOk, ChannelsOk, DoRegisterSession;
    var t := DoRegisterSession(s, sid);
    SessionRegistered(s, sid);
    StreamsAreSinks(s.books, s.sinks);
    CountsNewSession(s.books, t.books, s.sinks, t.sinks, s.maxTotal);
    SubscribedRegistered(s, sid);
    ScheduledNew(s, sid, s.loop.sink);
    SessionsMore(s.books, t.books, s.sinks, sid, s.loop.sink);
  }

  lemma SessionsMore(b: Books, after: Books, sinks: map<Sid, Sink>, sid: Sid, sink: Sink)
    requires SessionsOk(b, sinks) && ChannelsOk(b, sinks) && sid !in sinks && !sink.closed && !sink.to.listen
    requires after.sessions == b.sessions[sink.to.key := sid] && after.channels == b.channels
    ensures SessionsOk(after, sinks[sid := sink]) && ChannelsOk(after, sinks[sid := sink])
  {
  }

  lemma SetToFrame(b: Books, key: Key, sid: Sid, given: Option<(set<Uri>, bool)>)
    ensures given.Some? ==> var b0 := b.(sessions := b.sessions[key := sid]);
              SetTo(b0, key, given.value.0, given.value.1) ==
                  b0.(subscribed := SetTo(b0, key, given.value.0, given.value.1).subscribed)
  {
  }

  lemma SubscribedRegistered(s: State, sid: Sid)
    requires SubscribedOk(s.books) && s.loop.Watching?
    ensures SubscribedOk(DoRegisterSession(s, sid).books)
  {
  }

  lemma CountsNewSession(b: Books, after: Books, sinks: map<Sid, Sink>, later: map<Sid, Sink>, maxTotal: nat)
    requires CountsOk(b, sinks, maxTotal) && (forall sid :: sid in Streams(b) ==> sid in sinks)
    requires after.channels == b.channels && after.perClient == b.perClient && after.listens == b.listens
    requires forall sid :: sid in sinks ==> sid in later && later[sid].to == sinks[sid].to
    ensures CountsOk(after, later, maxTotal)
  {
    assert Streams(after) == Streams(b);
    forall client ensures ClientStreams(after, later, client) == ClientStreams(b, sinks, client) {
    }
  }

  /** A flush starts, a window closes, a timer is set, or a callback is queued. */
  lemma CoreStartFlush(s: State, sid: Sid)
    requires Core(s) && sid in s.sinks && FlushQueued(sid) in s.hands
    ensures Core(DoStartFlush(s, sid)) && Quiet(s, DoStartFlush(s, sid))
  {
    hide Core, Quiet;
    CoreSink(s, sid);
    CoreOne(s, DoStartFlush(s, sid), multiset{FlushQueued(sid)}, multiset{}, sid);
  }

  lemma CoreFire(s: State, sid: Sid, order: seq<Kind>)
    requires Core(s) && sid in s.sinks && Timer(sid) in s.hands
    ensures Core(DoFire(s, sid, order)) && Quiet(s, DoFire(s, sid, order))
  {
    hide Core, Quiet;
    CoreSink(s, sid);
    CoreOne(s, DoFire(s, sid, order), multiset{Timer(sid)}, multiset{}, sid);
  }

  lemma CoreHandOn(s: State, from: Token, to: multiset<Token>, sid: Sid)
    requires Core(s) && sid in s.sinks && from in s.hands
    requires (from == AskArm(sid) && to == multiset{ArmQueued(sid)}) ||
      (from == AskFlush(sid) && to == multiset{FlushQueued(sid)})
          || (from == ArmQueued(sid) && to == if s.sinks[sid].closed then multiset{} else multiset{Timer(sid)})
    ensures var t := s.(hands := s.hands - multiset{from} + to); Core(t) && Quiet(s, t)
  {
    hide Core, Quiet;
    CoreSink(s, sid);
    CoreOne(s, s.(hands := s.hands - multiset{from} + to), multiset{from}, to, sid);
  }

  lemma CoreChangeList(s: State, kind: Kind, lists: Lists)
    requires Core(s) && Enabled(s, ChangeList(kind, lists))
    ensures Core(Do(s, ChangeList(kind, lists))) && Quiet(s, Do(s, ChangeList(kind, lists)))
  {
    hide SessionsOk, ChannelsOk, CountsOk, SubscribedOk, RespectsView, ClosedOk, ScheduledOk;
    var mid := s.(hands := s.hands - multiset{} + multiset{Announce(kind)});
    CoreHands(s, mid, multiset{}, multiset{Announce(kind)});
    assert s.hands + multiset{Announce(kind)} == mid.hands;
  }

  lemma CoreLoop(s: State, loop: Loop, debts: set<(Key, Uri)>)
    requires Core(s)
    ensures Core(s.(loop := loop, debts := debts))
  {
    hide SessionsOk, ChannelsOk, CountsOk, SubscribedOk, RespectsView, ClosedOk, ScheduledOk;
  }

  lemma CoreDropped(s: State, sid: Sid, unsent: seq<Uri>, graceful: bool)
    requires Core(s) && sid in s.sinks
    ensures Core(Dropped(s, sid, unsent, graceful))
  {
    hide SessionsOk, ChannelsOk, CountsOk, SubscribedOk, RespectsView, ClosedOk, ScheduledOk, TokensOk, Unregistered;
    if Registered(s.books, sid, s.sinks[sid].to) {
      CoreUnregistered(s, sid);
      var t := Booked(s, Unregistered(s.books, s.sinks[sid].to));
      CoreLoop(t, Closing(sid, unsent, graceful), t.debts);
    } else {
      CoreLoop(s, Idle, s.debts);
    }
  }

  lemma CoreMoves(s: State, a: Action)
    requires Inv(s) && Enabled(s, a) && Moves(a)
    ensures Core(Do(s, a))
  {
    hide Core, OpenOk;
    match a
    case RegisterSession(sid) => CoreRegisterSession(s, sid);
    case CloseReplaced =>
      match s.loop.replaced {
        case Some(sid) => CoreClosed(s, sid); CoreLoop(Closed(s, sid), Do(s, a).loop, s.debts);
        case None => CoreLoop(s, Do(s, a).loop, s.debts);
      }
    case Requeue(order) =>
      if s.loop.rest == [] { CoreLoop(s, Do(s, a).loop, s.debts); } else {
        var t := Queued(s, s.loop.sid, s.loop.rest[0]);
        CoreQueued(s, s.loop.sid, s.loop.rest[0]);
        CoreLoop(t, Do(s, a).loop, t.debts);
      }
    case CloseUnregistered =>
      var t := Closed(s, s.loop.sid);
      CoreClosed(s, s.loop.sid);
      CoreLoop(t, Do(s, a).loop, t.debts);
      if !s.sinks[s.loop.sid].to.listen {
        var looks := multiset(set uri | uri in s.loop.unsent + s.sinks[s.loop.sid].updates ::
            Look(s.sinks[s.loop.sid].to.key, uri));
        assert t.hands + looks == t.hands - multiset{} + looks;
        CoreSubscribedOk(t);
        CoreHands(t, Do(s, a), multiset{}, looks);
      }
    case RegisterListen(sid) => CoreRegisterListen(s, sid);
  }

  lemma CoreSends(s: State, a: Action)
    requires Core(s) && Enabled(s, a) && Sends(a)
    ensures Core(Do(s, a))
  {
    hide Core;
    match a
    case SendEnd(ok) =>
      if ok {
        var t := Framed(s, s.loop.sid, if s.loop.finalSent then Cancelled else Final);
        CoreFramed(s, s.loop.sid, if s.loop.finalSent then Cancelled else Final);
        CoreLoop(t, Do(s, a).loop, t.debts);
      } else { CoreLoop(s, Idle, s.debts); }
    case SendUpdate(ok) =>
      if ok {
        var t := Framed(s, s.loop.sid, Update(s.loop.rest[0]));
        CoreFramed(s, s.loop.sid, Update(s.loop.rest[0]));
        CoreLoop(t, Do(s, a).loop, Do(s, a).debts);
      } else { CoreDropped(s, s.loop.sid, s.loop.rest, false); }
    case SendNotice(ok) =>
      if ok {
        var t := Do(s, a);
        CoreRemembers(s, s.loop.sid, t.sinks[s.loop.sid]);
        CoreLoop(s.(sinks := t.sinks), t.loop, t.debts);
      } else { CoreDropped(s, s.loop.sid, [], false); }
    case SendAck(ok) =>
      var to := s.sinks[s.loop.sid].to;
      if ok {
        var t := Framed(s, s.loop.sid, Ack(to.kinds, to.uris));
        CoreFramed(s, s.loop.sid, Ack(to.kinds, to.uris));
        CoreLoop(t, Idle, t.debts);
      } else { CoreDropped(s, s.loop.sid, [], false); }
  }

  lemma CoreTurns(s: State, a: Action)
    requires Core(s) && Enabled(s, a) && OnLoop(a) && !Moves(a) && !Sends(a)
    ensures Core(Do(s, a))
  {
    hide Core;
    match a
    case ReadSession(sink, given, subscriptions) => CoreLoop(s, Do(s, a).loop, s.debts);
    case EndSession(key) => CoreDropped(s, s.books.sessions[key], [], false);
    case StartFlush(sid) => CoreStartFlush(s, sid);
    case StepFlush => CoreLoop(s, Do(s, a).loop, s.debts);
    case Arm(sid) => CoreHandOn(s, ArmQueued(sid), if s.sinks[sid].closed then multiset{}
        else multiset{Timer(sid)}, sid);
    case Fire(sid, order) => CoreFire(s, sid, order);
    case StepDeliver =>
      if s.loop.todo != [] && !s.sinks[s.loop.sid].closed &&
          s.lists(s.loop.todo[0], s.sinks[s.loop.sid].identity).None? {
        CoreDropped(s, s.loop.sid, [], s.sinks[s.loop.sid].to.listen);
      } else { CoreLoop(s, Do(s, a).loop, s.debts); }
    case ReadListen(sink) => CoreLoop(s, Do(s, a).loop, s.debts);
    case EndListen(sid, graceful) => CoreDropped(s, sid, [], graceful);
    case RefreshIdentity(key, identity) =>
      var sid := s.books.sessions[key];
      var sink := s.sinks[sid];
      if s.view(sink.identity) == s.view(identity) {
        CoreRemembers(s, sid, sink.(identity := identity));
      } else {
        CoreRemembers(s, sid, sink.(identity := identity, baselines := map[]));
        CorePended(s.(sinks := s.sinks[sid := sink.(identity := identity, baselines := map[])]), sid, sink.to.kinds);
      }
  }

  lemma CoreStays(s: State, a: Action)
    requires Core(s) && Enabled(s, a) && OnLoop(a) && !Moves(a)
    ensures Core(Do(s, a))
  {
    hide Core, Do, Enabled;
    if Sends(a) { CoreSends(s, a); } else { CoreTurns(s, a); }
  }

  lemma CoreOnLoop(s: State, a: Action)
    requires Inv(s) && Enabled(s, a) && OnLoop(a)
    ensures Core(Do(s, a))
  {
    hide Core, OpenOk, LoopOk, Do;
    if Moves(a) { CoreMoves(s, a); } else { CoreStays(s, a); }
  }

  lemma CoreSubscribedOk(s: State)
    requires Core(s)
    ensures SubscribedOk(s.books)
  {
  }

  lemma CoreToken(s: State, t: Token)
    requires Core(s) && t in s.hands && SidOf(t).Some?
    ensures SidOf(t).value in s.sinks
  {
  }

  predicate Subscribes(a: Action) {
    a.Subscribe? || a.Unsubscribe? || a.SetSubscriptions? || a.AddSubscription? || a.ForgetSession?
  }

  function After(b: Books, a: Action): Books
    requires Subscribes(a)
  {
    match a
    case Subscribe(key, uri, cap) => SubscribedTo(b, key, uri, cap)
    case Unsubscribe(key, uri) => UnsubscribedFrom(b, key, uri)
    case SetSubscriptions(key, uris, hold) => SetTo(b, key, uris, hold)
    case AddSubscription(key, uri, hold) => Added(b, key, uri, hold)
    case ForgetSession(key) => b.(subscribed := b.subscribed - {key})
  }

  lemma SubscribedToOk(b: Books, key: Key, uri: Uri, cap: nat)
    requires SubscribedOk(b) && cap > 0
    ensures SubscribedOk(SubscribedTo(b, key, uri, cap))
  {
    var entry := if key in b.subscribed then b.subscribed[key] else Subscriptions({}, [], true);
    EntryMore(b, key, uri, entry);
    hide EntryOk;
  }

  lemma EntryMore(b: Books, key: Key, uri: Uri, entry: Subscriptions)
    requires SubscribedOk(b) &&
      (if key in b.subscribed then entry == b.subscribed[key] else entry == Subscriptions({}, [], true))
    ensures EntryOk(entry.(uris := entry.uris + {uri}), key in b.sessions)
    ensures key in b.subscribed || entry.uris == {}
  {
    assert uri in entry.uris + {uri};
  }

  lemma UnsubscribedOk(b: Books, key: Key, uri: Uri)
    requires SubscribedOk(b)
    ensures SubscribedOk(UnsubscribedFrom(b, key, uri))
  {
  }

  lemma SetToOk(b: Books, key: Key, uris: set<Uri>, hold: bool)
    requires SubscribedOk(b)
    ensures SubscribedOk(SetTo(b, key, uris, hold))
  {
  }

  lemma AddedOk(b: Books, key: Key, uri: Uri, hold: bool)
    requires SubscribedOk(b)
    ensures SubscribedOk(Added(b, key, uri, hold))
  {
  }

  lemma ForgottenOk(b: Books, key: Key)
    requires SubscribedOk(b)
    ensures SubscribedOk(b.(subscribed := b.subscribed - {key}))
  {
  }

  lemma SubscribesOk(b: Books, a: Action)
    requires SubscribedOk(b) && Subscribes(a) && (a.Subscribe? ==> a.cap > 0)
    ensures SubscribedOk(After(b, a)) && After(b, a) == b.(subscribed := After(b, a).subscribed)
  {
    hide SubscribedOk;
    if a.ForgetSession? { ForgottenOk(b, a.key); }
    match a
    case Subscribe(key, uri, cap) => SubscribedToOk(b, key, uri, cap);
    case Unsubscribe(key, uri) => UnsubscribedOk(b, key, uri);
    case SetSubscriptions(key, uris, hold) => SetToOk(b, key, uris, hold);
    case AddSubscription(key, uri, hold) => AddedOk(b, key, uri, hold);
    case ForgetSession(key) =>
  }

  lemma CoreSubscribes(s: State, a: Action)
    requires Core(s) && Subscribes(a) && Enabled(s, a)
    ensures Core(Do(s, a)) && Quiet(s, Do(s, a)) && Do(s, a) == Booked(s, After(s.books, a))
  {
    hide Core, Quiet, SubscribedOk, SubscribedTo, UnsubscribedFrom, SetTo, Added, Booked;
    CoreSubscribedOk(s);
    SubscribesOk(s.books, a);
    CoreBooked(s, After(s.books, a));
  }

  lemma CoreAnywhere(s: State, a: Action)
    requires Core(s) && Enabled(s, a) && !OnLoop(a)
    ensures Core(Do(s, a)) && Quiet(s, Do(s, a))
  {
    hide Core, Quiet, SubscribedTo, UnsubscribedFrom, SetTo, Added, Booked;
    match a
    case Subscribe(_, _, _) => CoreSubscribes(s, a);
    case Unsubscribe(_, _) => CoreSubscribes(s, a);
    case SetSubscriptions(_, _, _) => CoreSubscribes(s, a);
    case AddSubscription(_, _, _) => CoreSubscribes(s, a);
    case ForgetSession(_) => CoreSubscribes(s, a);
    case Publish(uri) => CorePublish(s, uri);
    case TakeOffer(sid, uri) => CoreTakeOffer(s, sid, uri);
    case TakeLook(key, uri) => CoreTakeLook(s, key, uri);
    case ChangeList(kind, lists) => CoreChangeList(s, kind, lists);
    case TakeAnnounce(kind) => CoreTakeAnnounce(s, kind);
    case TakeTell(sid, kind) => CoreTakeTell(s, sid, kind);
    case CallArm(sid) => CoreToken(s, AskArm(sid)); CoreHandOn(s, AskArm(sid), multiset{ArmQueued(sid)}, sid);
    case CallFlush(sid) => CoreToken(s, AskFlush(sid)); CoreHandOn(s, AskFlush(sid), multiset{FlushQueued(sid)}, sid);
  }

  lemma QuietTwice(s: State, t: State, u: State)
    requires Quiet(s, t) && Quiet(t, u)
    ensures Quiet(s, u)
  {
  }

  lemma CoreTakeOffer(s: State, sid: Sid, uri: Uri)
    requires Core(s) && Enabled(s, TakeOffer(sid, uri))
    ensures Core(DoTakeOffer(s, sid, uri)) && Quiet(s, DoTakeOffer(s, sid, uri))
  {
    hide Core, Quiet, Queued, SubscribedOk;
    var u := DoTakeOffer(s, sid, uri);
    CoreSubscribedOk(s);
    var taken := multiset{Offer(sid, uri)};
    if s.sinks[sid].closed && !s.sinks[sid].to.listen {
      CoreHands(s, u, taken, multiset{Look(s.sinks[sid].to.key, uri)});
    } else {
      var t := s.(hands := s.hands - taken);
      assert s.hands - taken + multiset{} == t.hands;
      CoreHands(s, t, taken, multiset{});
      if !s.sinks[sid].closed { CoreQueued(t, sid, uri); QuietTwice(s, t, u); }
    }
  }

  lemma CoreTakeTell(s: State, sid: Sid, kind: Kind)
    requires Core(s) && Enabled(s, TakeTell(sid, kind))
    ensures Core(Do(s, TakeTell(sid, kind))) && Quiet(s, Do(s, TakeTell(sid, kind)))
  {
    hide Core, Quiet, Pended, SubscribedOk;
    var u := Do(s, TakeTell(sid, kind));
    CoreSubscribedOk(s);
    var t := s.(hands := s.hands - multiset{Tell(sid, kind)});
    assert s.hands - multiset{Tell(sid, kind)} + multiset{} == t.hands;
    CoreHands(s, t, multiset{Tell(sid, kind)}, multiset{});
    CorePended(t, sid, {kind});
    QuietTwice(s, t, u);
  }

  lemma CorePublish(s: State, uri: Uri)
    requires Core(s)
    ensures Core(DoPublish(s, uri)) && Quiet(s, DoPublish(s, uri))
  {
    hide CountsOk, ClosedOk, ScheduledOk, RespectsView, TokensOk;
    var b, t := s.books, DoPublish(s, uri);
    var picked := set key | key in b.subscribed && uri in b.subscribed[key].uris && key in b.sessions ::
        Offer(b.sessions[key], uri);
    var streams := set sid | sid in Streams(b) && sid in s.sinks && uri in s.sinks[sid].to.uris :: Offer(sid, uri);
    var given := multiset(picked) + multiset(streams);
    assert t.hands == s.hands - multiset{} + given;
    CoreHands(s, t, multiset{}, given);
  }

  lemma CoreTakeLook(s: State, key: Key, uri: Uri)
    requires Core(s) && Enabled(s, TakeLook(key, uri))
    ensures Core(DoTakeLook(s, key, uri)) && Quiet(s, DoTakeLook(s, key, uri))
  {
    hide CountsOk, ClosedOk, ScheduledOk, RespectsView, TokensOk, ChannelsOk;
    var t, taken := DoTakeLook(s, key, uri), multiset{Look(key, uri)};
    var given := if Watches(s.books, key, uri) && key in s.books.sessions
        then multiset{Offer(s.books.sessions[key], uri)} else multiset{};
    assert t.hands == s.hands - taken + given;
    CoreHands(s, t, taken, given);
  }

  lemma CoreTakeAnnounce(s: State, kind: Kind)
    requires Core(s) && Enabled(s, TakeAnnounce(kind))
    ensures Core(DoTakeAnnounce(s, kind)) && Quiet(s, DoTakeAnnounce(s, kind))
  {
    hide CountsOk, ClosedOk, ScheduledOk, RespectsView, TokensOk, ChannelsOk, SessionsOk;
    var sids := s.books.sessions.Values + Streams(s.books);
    var given := multiset(set sid | sid in sids && sid in s.sinks && kind in s.sinks[sid].to.kinds :: Tell(sid, kind));
    CoreHands(s, DoTakeAnnounce(s, kind), multiset{Announce(kind)}, given);
  }

  // ------------------------------------------------ where the loop is

  /** The loop is elsewhere in its operation, or nowhere new. */
  ghost predicate Between(loop: Loop) {
    !loop.Replacing? && !loop.Closing?
  }

  lemma OpenDropped(s: State, sid: Sid, unsent: seq<Uri>, graceful: bool)
    requires Inv(s) && sid in s.sinks && Between(s.loop) && (graceful ==> s.sinks[sid].to.listen)
    ensures OpenOk(Dropped(s, sid, unsent, graceful)) && LoopOk(Dropped(s, sid, unsent, graceful))
  {
    hide CountsOk, SubscribedOk, ClosedOk, TokensOk, ScheduledOk, RespectsView, Unregistered, LoopOk;
    var to := s.sinks[sid].to;
    var t := Dropped(s, sid, unsent, graceful);
    if Registered(s.books, sid, to) {
      forall x | x in s.sinks && !s.sinks[x].closed && x != sid ensures Registered(t.books, x, s.sinks[x].to) {
        OthersStayRegistered(s.books, sid, to, x, s.sinks[x].to);
      }
      OthersStayRegistered(s.books, sid, to, sid, to);
      RegisteredIsOpen(s, sid);
    }
    DroppedLoop(s, sid, unsent, graceful);
  }

  lemma RegisteredIsOpen(s: State, sid: Sid)
    requires SessionsOk(s.books, s.sinks) && ChannelsOk(s.books, s.sinks) && sid in s.sinks &&
      Registered(s.books, sid, s.sinks[sid].to)
    ensures !s.sinks[sid].closed
  {
  }

  lemma DroppedLoop(s: State, sid: Sid, unsent: seq<Uri>, graceful: bool)
    requires SessionsOk(s.books, s.sinks) && ChannelsOk(s.books, s.sinks) && sid in s.sinks &&
      (graceful ==> s.sinks[sid].to.listen)
    ensures LoopOk(Dropped(s, sid, unsent, graceful))
  {
    hide Unregistered, SessionsOk, ChannelsOk;
    if Registered(s.books, sid, s.sinks[sid].to) {
      RegisteredIsOpen(s, sid);
      OthersStayRegistered(s.books, sid, s.sinks[sid].to, sid, s.sinks[sid].to);
    }
  }

  ghost predicate SamePlace(before: Loop, after: Loop) {
    match (before, after)
    case (Watching(sink, given, subscriptions, _), Watching(sink', given', subscriptions', _)) =>
      sink == sink' && given == given' && subscriptions == subscriptions'
    case (Opening(sink, _), Opening(sink', _)) => sink == sink'
    case _ => before == after
  }

  /** Other threads cannot disturb what the loop holds. */
  lemma QuietLoop(s: State, t: State)
    requires OpenOk(s) && LoopOk(s) && Quiet(s, t)
    requires SamePlace(s.loop, t.loop)
    ensures OpenOk(t) && LoopOk(t)
  {
  }

  /** What is open stays registered. */
  lemma QuietOpen(s: State, t: State)
    requires OpenOk(s) && Between(s.loop) && Quiet(s, t)
    ensures OpenOk(t)
  {
  }

  /** What of the books registering a session's sink leaves, and where it puts the loop. */
  lemma SessionRegistered(s: State, sid: Sid)
    requires s.loop.Watching? && sid !in s.sinks
    ensures var t, key := DoRegisterSession(s, sid), s.loop.sink.to.key;
      && t.books.sessions == s.books.sessions[key := sid] && t.books.channels == s.books.channels &&
          t.sinks == s.sinks[sid := s.loop.sink]
      && t.loop.Replacing? && t.loop.sid == sid
      && t.loop.replaced == (if key in s.books.sessions then Some(s.books.sessions[key]) else None)
      && t.hands == s.hands && t.lists == s.lists && t.view == s.view && t.maxTotal == s.maxTotal
      && t.books.perClient == s.books.perClient && t.books.listens == s.books.listens
  {
    hide SetTo, Overlooked;
    SetToFrame(s.books, s.loop.sink.to.key, sid, s.loop.subscriptions);
  }

  lemma WhereRegisterSession(s: State, sid: Sid)
    requires Inv(s) && s.loop.Watching? && sid !in s.sinks
    ensures OpenOk(DoRegisterSession(s, sid)) && LoopOk(DoRegisterSession(s, sid))
  {
    hide CountsOk, SubscribedOk, ClosedOk, TokensOk, ScheduledOk, RespectsView, ChannelsOk, DoRegisterSession;
    SessionRegistered(s, sid);
  }

  lemma WhereCloseReplaced(s: State)
    requires Inv(s) && s.loop.Replacing?
    ensures OpenOk(DoCloseReplaced(s)) && LoopOk(DoCloseReplaced(s))
  {
    hide CountsOk, SubscribedOk, ClosedOk, TokensOk, ScheduledOk, RespectsView, Streams, Merged, SessionsOk, ChannelsOk;
  }

  lemma WhereRequeue(s: State, order: seq<Kind>)
    requires Inv(s) && s.loop.Requeueing?
    ensures OpenOk(DoRequeue(s, order)) && LoopOk(DoRequeue(s, order))
  {
    hide CountsOk, SubscribedOk, ClosedOk, TokensOk, ScheduledOk, RespectsView, Streams, SessionsOk, ChannelsOk;
  }

  lemma WhereCloseUnregistered(s: State)
    requires Inv(s) && s.loop.Closing? && s.loop.sid in s.sinks
    ensures OpenOk(DoCloseUnregistered(s)) && LoopOk(DoCloseUnregistered(s))
  {
    hide CountsOk, SubscribedOk, ClosedOk, TokensOk, ScheduledOk, RespectsView, Streams, SessionsOk, ChannelsOk;
  }

  lemma WhereRegisterListen(s: State, sid: Sid)
    requires Inv(s) && s.loop.Opening? && sid !in s.sinks
    ensures OpenOk(DoRegisterListen(s, sid)) && LoopOk(DoRegisterListen(s, sid))
  {
    hide Core, Refused;
    forall x | x in s.sinks && Registered(s.books, x, s.sinks[x].to) && !Refused(s.books, s.loop.sink.to, s.maxTotal)
      ensures Registered(DoRegisterListen(s, sid).books, x, s.sinks[x].to)
    {
      StaysRegistered(s.books, sid, s.loop.sink.to, x, s.sinks[x].to, s.maxTotal);
    }
  }

  lemma StaysRegistered(b: Books, sid: Sid, to: Recipient, other: Sid, toOther: Recipient, maxTotal: nat)
    requires Registered(b, other, toOther) && !Refused(b, to, maxTotal)
    ensures Registered(WithStream(b, sid, to), other, toOther)
  {
  }

  /** The sink a flush or a window is for is registered as long as it is open. */
  lemma OpenIsOnOpen(s: State, sid: Sid)
    requires OpenOk(s) && Between(s.loop) && sid in s.sinks && !s.sinks[sid].closed
    ensures OnOpen(s, sid)
  {
  }

  ghost predicate Drops(s: State, a: Action)
    requires Enabled(s, a)
  {
    match a
    case EndSession(_) | EndListen(_, _) => true
    case SendUpdate(ok) => !ok
    case SendNotice(ok) => !ok
    case SendAck(ok) => !ok
    case StepDeliver => s.loop.todo != [] && !s.sinks[s.loop.sid].closed &&
        s.lists(s.loop.todo[0], s.sinks[s.loop.sid].identity).None?
    case _ => false
  }

  ghost predicate Moves(a: Action) {
    a.RegisterSession? || a.CloseReplaced? || a.CloseUnregistered? || a.RegisterListen? || a.Requeue?
  }

  /** The remaining steps of the loop change neither who is registered nor who is open. */
  ghost predicate Reads(a: Action) {
    a.ReadSession? || a.ReadListen? || a.StepFlush? || a.StepDeliver?
  }

  ghost predicate Sends(a: Action) {
    a.SendEnd? || a.SendUpdate? || a.SendNotice? || a.SendAck?
  }

  lemma QuietReads(s: State, a: Action)
    requires Enabled(s, a) && Reads(a) && !Drops(s, a)
    ensures Between(s.loop) && Quiet(s, Do(s, a))
  {
    hide Watches, Computed, RespectsView, Unused, Quiet;
    var t := Do(s, a);
    assert t == s.(loop := t.loop);
    QuietOne(s, t);
  }

  lemma QuietOne(s: State, t: State)
    requires t == s.(loop := t.loop)
    ensures Quiet(s, t)
  {
  }

  lemma QuietSends(s: State, a: Action)
    requires Enabled(s, a) && Sends(a) && !Drops(s, a)
    ensures Between(s.loop) && Quiet(s, Do(s, a))
  {
    hide Registered, Unregistered, Quiet;
    var t, sid := Do(s, a), s.loop.sid;
    assert t == s.(loop := t.loop, sinks := t.sinks, debts := t.debts);
    QuietSent(s, t, sid);
  }

  lemma QuietSent(s: State, t: State, sid: Sid)
    requires t == s.(loop := t.loop, sinks := t.sinks, debts := t.debts) && sid in s.sinks
    requires t.sinks == s.sinks || exists frames, baselines ::
      t.sinks == s.sinks[sid := s.sinks[sid].(frames := frames, baselines := baselines)]
    ensures Quiet(s, t)
  {
  }

  lemma QuietRefresh(s: State, sid: Sid, identity: Identity)
    requires sid in s.sinks
    ensures Quiet(s, DoRefreshIdentity(s, sid, identity))
  {
  }

  lemma QuietTurns(s: State, a: Action)
    requires Core(s) && Enabled(s, a) && (a.StartFlush? || a.Arm? || a.Fire? || a.RefreshIdentity?)
    ensures Between(s.loop) && Quiet(s, Do(s, a))
  {
    hide Core, Quiet, Spells;
    match a
    case StartFlush(sid) => CoreStartFlush(s, sid);
    case Arm(sid) => CoreHandOn(s, ArmQueued(sid), if s.sinks[sid].closed then multiset{}
        else multiset{Timer(sid)}, sid);
    case Fire(sid, order) => CoreFire(s, sid, order);
    case RefreshIdentity(key, identity) => QuietRefresh(s, s.books.sessions[key], identity);
  }

  lemma QuietSteps(s: State, a: Action)
    requires Core(s) && Enabled(s, a) && OnLoop(a) && !Moves(a) && !Drops(s, a)
    ensures Between(s.loop) && Quiet(s, Do(s, a))
  {
    hide Do, Quiet, Between, Core;
    if Reads(a) { QuietReads(s, a); }
    else if Sends(a) { QuietSends(s, a); }
    else { QuietTurns(s, a); }
  }

  lemma InvParts(s: State)
    requires Inv(s)
    ensures Core(s) && OpenOk(s) && LoopOk(s)
  {
  }

  lemma LoopReads(s: State, a: Action)
    requires LoopOk(s) && Enabled(s, a) && Reads(a) && !Drops(s, a)
    ensures LoopOk(Do(s, a))
  {
    hide Registered, Watches, Computed, RespectsView;
    match a
    case ReadSession(_, _, _) =>
    case ReadListen(_) =>
    case StepFlush => LoopStepFlush(s);
    case StepDeliver => LoopStepDeliver(s);
  }

  lemma LoopStepFlush(s: State)
    requires LoopOk(s) && s.loop.Flushing? && s.loop.sid in s.sinks
    ensures LoopOk(DoStepFlush(s))
  {
    hide Watches, Registered;
  }

  lemma LoopStepDeliver(s: State)
    requires LoopOk(s) && Enabled(s, StepDeliver) && !Drops(s, StepDeliver)
    ensures LoopOk(DoStepDeliver(s))
  {
    hide Registered, Dropped;
  }

  lemma LoopSends(s: State, a: Action)
    requires LoopOk(s) && Enabled(s, a) && Sends(a) && !Drops(s, a)
    ensures LoopOk(Do(s, a))
  {
    hide Registered, Watches, Computed, RespectsView;
  }

  lemma OnOpenQuiet(s: State, t: State, sid: Sid)
    requires OnOpen(s, sid) && t.books == s.books && sid in t.sinks && t.sinks[sid].to == s.sinks[sid].to &&
      t.sinks[sid].closed == s.sinks[sid].closed
    ensures OnOpen(t, sid)
  {
  }

  lemma LoopStartFlush(s: State, sid: Sid)
    requires Core(s) && OpenOk(s) && s.loop.Idle? && sid in s.sinks
    ensures LoopOk(DoStartFlush(s, sid))
  {
    hide Core, OpenOk, OnOpen, ScheduledFor;
    CoreSink(s, sid);
    if !s.sinks[sid].closed { OpenIsOnOpen(s, sid); OnOpenQuiet(s, DoStartFlush(s, sid), sid); }
  }

  lemma LoopFire(s: State, sid: Sid, order: seq<Kind>)
    requires Core(s) && OpenOk(s) && s.loop.Idle? && sid in s.sinks && Timer(sid) in s.hands
    ensures LoopOk(DoFire(s, sid, order))
  {
    hide Core, OpenOk, OnOpen, ScheduledFor;
    CoreSink(s, sid);
    OpenIsOnOpen(s, sid);
    OnOpenQuiet(s, DoFire(s, sid, order), sid);
  }

  lemma LoopRefresh(s: State, sid: Sid, identity: Identity)
    requires s.loop.Idle? && sid in s.sinks
    ensures LoopOk(DoRefreshIdentity(s, sid, identity))
  {
  }

  lemma LoopTurns(s: State, a: Action)
    requires Core(s) && OpenOk(s) && Enabled(s, a) && (a.StartFlush? || a.Arm? || a.Fire? || a.RefreshIdentity?)
    ensures LoopOk(Do(s, a))
  {
    hide Core, OpenOk, OnOpen, DoStartFlush, DoFire, DoRefreshIdentity, Spells;
    match a
    case StartFlush(sid) => LoopStartFlush(s, sid);
    case Arm(sid) =>
    case Fire(sid, order) => LoopFire(s, sid, order);
    case RefreshIdentity(key, identity) => LoopRefresh(s, s.books.sessions[key], identity);
  }

  lemma WhereQuiet(s: State, a: Action)
    requires Inv(s) && Enabled(s, a) && OnLoop(a) && !Moves(a) && !Drops(s, a)
    ensures OpenOk(Do(s, a)) && LoopOk(Do(s, a))
  {
    hide Inv, Quiet, OpenOk, LoopOk, Do;
    InvParts(s);
    QuietSteps(s, a);
    QuietOpen(s, Do(s, a));
    if Reads(a) { LoopReads(s, a); }
    else if Sends(a) { LoopSends(s, a); }
    else { LoopTurns(s, a); }
  }

  lemma WhereMoves(s: State, a: Action)
    requires Inv(s) && Enabled(s, a) && Moves(a)
    ensures OpenOk(Do(s, a)) && LoopOk(Do(s, a))
  {
    hide Core, OpenOk, LoopOk;
    match a
    case RegisterSession(sid) => WhereRegisterSession(s, sid);
    case CloseReplaced => WhereCloseReplaced(s);
    case Requeue(order) => WhereRequeue(s, order);
    case CloseUnregistered => WhereCloseUnregistered(s);
    case RegisterListen(sid) => WhereRegisterListen(s, sid);
  }

  lemma WhereDrops(s: State, a: Action)
    requires Inv(s) && Enabled(s, a) && Drops(s, a)
    ensures OpenOk(Do(s, a)) && LoopOk(Do(s, a))
  {
    hide Core, OpenOk, LoopOk;
    match a
    case EndSession(key) => OpenDropped(s, s.books.sessions[key], [], false);
    case EndListen(sid, graceful) => OpenDropped(s, sid, [], graceful);
    case SendUpdate(_) => OpenDropped(s, s.loop.sid, s.loop.rest, false);
    case StepDeliver => OpenDropped(s, s.loop.sid, [], s.sinks[s.loop.sid].to.listen);
    case SendNotice(_) => OpenDropped(s, s.loop.sid, [], false);
    case SendAck(_) => OpenDropped(s, s.loop.sid, [], false);
  }

  lemma WhereOnLoop(s: State, a: Action)
    requires Inv(s) && Enabled(s, a) && OnLoop(a)
    ensures OpenOk(Do(s, a)) && LoopOk(Do(s, a))
  {
    hide Core, OpenOk, LoopOk;
    if Moves(a) { WhereMoves(s, a); }
    else if Drops(s, a) { WhereDrops(s, a); }
    else { WhereQuiet(s, a); }
  }

  lemma InvStep(s: State, a: Action)
    requires Inv(s) && Enabled(s, a)
    ensures Inv(Do(s, a))
  {
    hide Core, OpenOk, LoopOk, Quiet;
    if OnLoop(a) {
      CoreOnLoop(s, a);
      WhereOnLoop(s, a);
    } else {
      CoreAnywhere(s, a);
      LoopStays(s, a);
      QuietLoop(s, Do(s, a));
    }
  }

  lemma LoopStays(s: State, a: Action)
    requires Core(s) && Enabled(s, a) && !OnLoop(a)
    ensures SamePlace(s.loop, Do(s, a).loop)
  {
    hide Streams, HeldFor, SubscribedTo, UnsubscribedFrom, SetTo, Added, Lists1, Watches, Put, Core;
    if Subscribes(a) { CoreSubscribes(s, a); }
    else if a.TakeOffer? || a.TakeTell? || a.TakeLook? { LoopStaysTaking(s, a); }
  }

  lemma LoopStaysTaking(s: State, a: Action)
    requires Enabled(s, a) && (a.TakeOffer? || a.TakeTell? || a.TakeLook?)
    ensures Do(s, a).loop == s.loop
  {
  }

  lemma {:induction false} InvRun(s: State, run: seq<Action>, t: State)
    requires Inv(s) && Leads(s, run, t)
    ensures Inv(t)
    decreases |run|
  {
    if run != [] {
      InvStep(s, run[0]);
      InvRun(Do(s, run[0]), run[1..], t);
    }
  }

  lemma InitialInv(s: State)
    requires Initial(s)
    ensures Inv(s)
  {
    assert Streams(s.books) == {};
    forall client ensures ClientStreams(s.books, s.sinks, client) == {} {}
  }

  /** In every reachable state, whatever the interleaving. */
  lemma InvHolds(t: State)
    requires Reachable(t)
    ensures Inv(t)
  {
    hide Inv;
    var s, run :| Initial(s) && Leads(s, run, t);
    InitialInv(s);
    InvRun(s, run, t);
  }

  /** The same, outright: what the counters, the maps and the sinks say of each other, whatever the interleaving. */
  lemma Bookkeeping(t: State)
    requires Reachable(t)
    ensures t.books.listens == |Streams(t.books)| <= t.maxTotal
    ensures forall client ::
      ClientCount(t.books, client) == |ClientStreams(t.books, t.sinks, client)| <= MAX_SUBSCRIPTIONS_PER_CLIENT
    ensures forall channel :: channel in t.books.channels ==> t.books.channels[channel] != map[]
    ensures forall sid :: sid in t.sinks && Registered(t.books, sid, t.sinks[sid].to) ==> !t.sinks[sid].closed
    ensures t.loop.Idle? ==> forall sid :: sid in t.sinks && !t.sinks[sid].closed ==>
      Registered(t.books, sid, t.sinks[sid].to)
    ensures forall key :: key in t.books.subscribed ==> var entry := t.books.subscribed[key];
      && (forall uri :: uri in entry.held ==> uri in entry.uris)
      && (key in t.books.sessions ==> entry.held == []) && (!entry.hold ==> key in t.books.sessions)
  {
    InvHolds(t);
    forall sid | sid in t.sinks &&
        Registered(t.books, sid, t.sinks[sid].to) ensures !t.sinks[sid].closed { RegisteredIsOpen(t, sid); }
    hide Streams, Registered, TokensOk, ScheduledOk, ClosedOk, RespectsView, LoopOk;
  }
}
