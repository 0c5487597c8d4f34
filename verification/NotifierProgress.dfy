/** Every operation of the loop comes to an end: none of its steps can be stuck, and each leaves less to do. */
module NotifierProgress {
  import opened Wrappers
  import opened Notifier
  import opened NotifierBooks

  /** How far the operation has got: each phase leads to lower ones only. */
  function PhaseOf(loop: Loop): nat {
    match loop
    case Watching(_, _, _, _) | Opening(_, _) => 6
    case Replacing(_, _, _, _) => 5
    case Requeueing(_, _, _) => 4
    case Flushing(_, _, _) | Delivering(_, _) | Pushing(_, _, _, _) | Acking(_) => 3
    case Closing(_, _, _) => 2
    case Ending(_, _) => 1
    case Idle => 0
  }

  /** How much the phase has still to do. */
  function LeftToDo(loop: Loop): nat {
    match loop
    case Requeueing(_, rest, _) => |rest|
    case Flushing(_, rest, sending) => 2 * |rest| + if sending then 0 else 1
    case Delivering(_, todo) => 2 * |todo| + 1
    case Pushing(_, _, _, todo) => 2 * |todo| + 2
    case Ending(_, finalSent) => if finalSent then 0 else 1
    case _ => 0
  }

  predicate Less(after: Loop, before: Loop) {
    PhaseOf(after) < PhaseOf(before) || (PhaseOf(after) == PhaseOf(before) && LeftToDo(after) < LeftToDo(before))
  }

  lemma LessByMoves(s: State, a: Action)
    requires LoopOk(s) && Enabled(s, a) && Moves(a)
    ensures Less(Do(s, a).loop, s.loop)
  {
    hide Registered, Refused, WithStream, SetTo, Merged, RespectsView, Spells, Overlooked, Unused;
  }

  lemma LessByDrops(s: State, a: Action)
    requires Enabled(s, a) && Drops(s, a) && !s.loop.Idle?
    ensures Less(Do(s, a).loop, s.loop)
  {
    hide Registered, Unregistered;
  }

  lemma LessByReads(s: State, a: Action)
    requires Enabled(s, a) && Reads(a) && !Drops(s, a) && !s.loop.Idle?
    ensures Less(Do(s, a).loop, s.loop)
  {
    hide Registered, Watches, Computed, RespectsView, Unused;
  }

  lemma LessBySendEnd(s: State, ok: bool)
    requires s.loop.Ending? && s.loop.sid in s.sinks
    ensures Less(DoSendEnd(s, ok).loop, s.loop)
  {
  }

  lemma LessBySendUpdate(s: State)
    requires s.loop.Flushing? && s.loop.sending && s.loop.rest != [] && s.loop.sid in s.sinks
    ensures Less(DoSendUpdate(s, true).loop, s.loop)
  {
    hide Dropped;
  }

  lemma LessBySendNotice(s: State)
    requires s.loop.Pushing? && s.loop.sid in s.sinks
    ensures Less(DoSendNotice(s, true).loop, s.loop)
  {
    hide Dropped;
  }

  lemma LessBySends(s: State, a: Action)
    requires LoopOk(s) && Enabled(s, a) && Sends(a) && !Drops(s, a)
    ensures Less(Do(s, a).loop, s.loop)
  {
    hide LoopOk, Dropped, DoSendEnd, DoSendUpdate, DoSendNotice;
    match a
    case SendEnd(ok) => LessBySendEnd(s, ok);
    case SendUpdate(_) => LessBySendUpdate(s);
    case SendNotice(_) => LessBySendNotice(s);
    case SendAck(_) =>
  }

  /** Each step of an operation leaves less to do, and what other threads do meanwhile adds nothing to it. */
  lemma OperationsEnd(s: State, a: Action)
    requires Inv(s) && Enabled(s, a) && !s.loop.Idle?
    ensures OnLoop(a) ==> Less(Do(s, a).loop, s.loop)
    ensures !OnLoop(a) ==> PhaseOf(Do(s, a).loop) == PhaseOf(s.loop) && LeftToDo(Do(s, a).loop) == LeftToDo(s.loop)
  {
    InvParts(s);
    hide Inv, Core, OpenOk, LoopOk, Do;
    if !OnLoop(a) { LoopStays(s, a); }
    else if Drops(s, a) { LessByDrops(s, a); }
    else if Moves(a) { LessByMoves(s, a); }
    else if Reads(a) { LessByReads(s, a); }
    else if Sends(a) { LessBySends(s, a); }
  }

  /** There is a sink that is not there yet. */
  lemma AnotherSink(sinks: set<Sid>) returns (sid: Sid)
    ensures sid !in sinks
  {
    sid := 0;
    var left := sinks;
    while left != {}
      invariant forall x :: x in sinks && x !in left ==> x < sid
      decreases left
    {
      var x :| x in left;
      sid := if x < sid then sid else x + 1;
      left := left - {x};
    }
  }

  lemma InSomeOrder(kinds: set<Kind>) returns (order: seq<Kind>)
    ensures Spells(order, kinds)
    decreases kinds
  {
    if kinds == {} { return []; }
    var kind :| kind in kinds;
    var rest := InSomeOrder(kinds - {kind});
    order := rest + [kind];
  }

  /** In no reachable state is an operation stuck: some step of the loop can be taken. */
  lemma NoneIsStuck(s: State) returns (a: Action)
    requires Inv(s) && !s.loop.Idle?
    ensures OnLoop(a) && Enabled(s, a)
  {
    hide Core, OpenOk, Registered, Unused, BeingReplaced;
    var sid := AnotherSink(s.sinks.Keys);
    match s.loop
    case Watching(_, _, _, _) => a := RegisterSession(sid);
    case Replacing(_, _, _, _) => a := CloseReplaced;
    case Requeueing(of, _, _) =>
      var order := InSomeOrder(s.sinks[of].to.kinds);
      a := Requeue(order);
    case Flushing(_, _, sending) => a := if sending then SendUpdate(true) else StepFlush;
    case Delivering(_, _) => a := StepDeliver;
    case Pushing(_, _, _, _) => a := SendNotice(true);
    case Opening(_, _) => a := RegisterListen(sid);
    case Acking(_) => a := SendAck(true);
    case Closing(_, _, _) => a := CloseUnregistered;
    case Ending(_, _) => a := SendEnd(true);
  }
}
