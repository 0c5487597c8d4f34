/**
 * Middleware chains (run_chain, _Chain and the policies of easy_mcp/middleware.py): layers that await call_next in
 * place, and no cancellation.  The terminal may answer differently each time it runs, so that what it answered and
 * how often it ran can be told apart.
 */
module Middleware {
  import opened Wrappers

  const INTERNAL_ERROR := -32603
  const FORBIDDEN := -32002
  const AUTHENTICATION_REQUIRED := -32001

  /** What a middleware raises. */
  datatype Error = ProtocolError(code: int) | ToolError | Unexpected

  /** What a middleware does once it has, or has not, what call_next gave it. */
  datatype End = Returns(value: Value) | Raises(error: Error)
  datatype Value = Nothing | Object(outcome: Outcome) | Something

  datatype Layer =
    | NeverCalls(end: End)
    | NeverAwaits(end: End)            // it calls call_next and drops what that returns
    | Awaits(after: Outcome -> End)

  /** How the answer a policy makes looks to the client. */
  datatype Answer = Coded(code: int) | ToolErrorResult

  /** An outcome's identity: which run of the terminal made it, or which layer's policy, showing which tool outcome. */
  datatype Outcome = Terminal(run: nat, ranTool: bool) | Made(layer: nat, answer: Answer, tool: Option<Outcome>)

  /** How a layer left the path: it raised, or it returned anything but what call_next gave it. */
  datatype Deviation = Breached | Raised(error: Error)

  /** runsTool: the terminal's answer carries a tool's outcome, as only that of tools/call may. */
  datatype Policy =
    | RequestPolicy(toolsCall: bool, runsTool: bool, stateless: bool)
    | ToolPolicy(stateless: bool)
    | ObservePolicy

  /** What one run of a chain has reached, and how often its terminal ran. */
  datatype State = State(reached: Option<Outcome>, runs: nat)

  const FRESH := State(None, 0)

  // ------------------------------------------------------------- the policies

  /** Codes MCP reserves without defining are not for a middleware to use. */
  predicate ReservedCode(code: int) {
    -32099 <= code < -32022
  }

  /** _refusal: the client may see it as it is. */
  predicate Refusal(error: Error) {
    error.ToolError? || (error.ProtocolError? && !ReservedCode(error.code))
  }

  function EraCode(code: int, stateless: bool): int {
    if stateless && code == FORBIDDEN then AUTHENTICATION_REQUIRED else code
  }

  /** What tool-level processing answered, as an outcome shows it to the middleware further out. */
  function ToolOf(o: Outcome): Option<Outcome> {
    if o.Terminal? then if o.ranTool then Some(o) else None else o.tool
  }

  function ShownBy(inner: Option<Outcome>): Option<Outcome> {
    if inner.Some? then ToolOf(inner.value) else None
  }

  /** refused and breached: None has the chain run its terminal and answer with that. */
  function Replacement(policy: Policy, layer: nat, deviation: Deviation, inner: Option<Outcome>): Option<Outcome> {
    match policy
    case ObservePolicy => inner
    case RequestPolicy(toolsCall, _, stateless) =>
      if deviation.Breached? || !Refusal(deviation.error) then Some(Made(layer, Coded(INTERNAL_ERROR), ShownBy(inner)))
      else if deviation.error.ProtocolError?
          then Some(Made(layer, Coded(EraCode(deviation.error.code, stateless)), ShownBy(inner)))
      else if toolsCall then Some(Made(layer, ToolErrorResult, Some(Made(layer, ToolErrorResult, None))))
      else Some(Made(layer, Coded(INTERNAL_ERROR), ShownBy(inner)))
    case ToolPolicy(stateless) =>
      if deviation.Breached? || !Refusal(deviation.error) then Some(Made(layer, Coded(INTERNAL_ERROR), None))
      else if deviation.error.ProtocolError?
          then Some(Made(layer, Coded(EraCode(deviation.error.code, stateless)), None))
      else Some(Made(layer, ToolErrorResult, None))
  }

  // ---------------------------------------------------------------- one chain

  /** What the terminal answers when it runs for the n-th time. */
  function Answers(policy: Policy, n: nat): Outcome {
    Terminal(n, policy.RequestPolicy? && policy.toolsCall && policy.runsTool)
  }

  /** _once. */
  function Once(policy: Policy, s: State): (State, Outcome) {
    if s.reached.Some? then (s, s.reached.value)
        else (State(Some(Answers(policy, s.runs)), s.runs + 1), Answers(policy, s.runs))
  }

  /** How a layer left the path, if it did: it is on it only if it returns the very outcome call_next gave it. */
  function DeviationOf(layer: Layer, inner: Option<Outcome>): Option<Deviation>
    requires layer.Awaits? <==> inner.Some?
  {
    var end := if layer.Awaits? then layer.after(inner.value) else layer.end;
    match end
    case Raises(error) => Some(Raised(error))
    case Returns(value) =>
      if layer.Awaits? && value == Object(inner.value) then None else Some(Breached)
  }

  function Answered(policy: Policy, layer: nat, s: State, deviation: Option<Deviation>,
      inner: Option<Outcome>): (State, Outcome)
    requires deviation.None? ==> inner.Some?
  {
    if deviation.None? then (s, inner.value)
    else match Replacement(policy, layer, deviation.value, inner)
      case Some(outcome) => (s, outcome)
      case None => Once(policy, s)
  }

  /** _Chain.layer. */
  function Run(layers: seq<Layer>, policy: Policy, i: nat, s: State): (State, Outcome)
    requires i <= |layers|
    decreases |layers| - i
  {
    if i == |layers| then Once(policy, s)
    else
      var (s1, inner) := if layers[i].Awaits? then var (s', o) := Run(layers, policy, i + 1, s);
          (s', Some(o)) else (s, None);
      Answered(policy, i, s1, DeviationOf(layers[i], inner), inner)
  }

  // -------------------------------------------------------------- main results

  /** What the layer was given by call_next, if it awaited it. */
  function Given(layers: seq<Layer>, policy: Policy, i: nat): Option<Outcome>
    requires i < |layers|
  {
    if layers[i].Awaits? then Some(Run(layers, policy, i + 1, FRESH).1) else None
  }

  /** How the layer ended. */
  function EndAt(layers: seq<Layer>, policy: Policy, i: nat): End
    requires i < |layers|
  {
    if layers[i].Awaits? then layers[i].after(Run(layers, policy, i + 1, FRESH).1) else layers[i].end
  }

  /** The layer awaited call_next and returned the very object that gave it. */
  predicate PassesOn(layers: seq<Layer>, policy: Policy, i: nat)
    requires i < |layers|
  {
    layers[i].Awaits? && EndAt(layers, policy, i) == Returns(Object(Run(layers, policy, i + 1, FRESH).1))
  }

  predicate AllAwait(layers: seq<Layer>, i: nat) {
    forall k :: i <= k < |layers| ==> layers[k].Awaits?
  }

  /** A chain that can refuse runs its terminal once if every layer calls on, and not at all otherwise. */
  lemma {:induction false} RunsIfAllCallOn(layers: seq<Layer>, policy: Policy, i: nat)
    requires i <= |layers| && !policy.ObservePolicy?
    ensures Run(layers, policy, i, FRESH).0 == if AllAwait(layers, i) then State(Some(Answers(policy, 0)), 1) else FRESH
    decreases |layers| - i
  {
    if i < |layers| {
      RunsIfAllCallOn(layers, policy, i + 1);
    }
  }

  /** Every layer from the first to the last passes on what it was given. */
  predicate OnPath(layers: seq<Layer>, policy: Policy, i: nat, j: nat)
    requires j <= |layers|
  {
    forall k :: i <= k < j ==> PassesOn(layers, policy, k)
  }

  lemma {:induction false} PassedOn(layers: seq<Layer>, policy: Policy, i: nat, j: nat)
    requires i <= j <= |layers| && OnPath(layers, policy, i, j)
    ensures Run(layers, policy, i, FRESH) == Run(layers, policy, j, FRESH)
    decreases j - i
  {
    if i < j {
      assert PassesOn(layers, policy, i);
      PassedOn(layers, policy, i + 1, j);
    }
  }

  /** Where every layer passes on what it was given, the result is the terminal's own object. */
  lemma TheTerminalsOwn(layers: seq<Layer>, policy: Policy)
    requires OnPath(layers, policy, 0, |layers|)
    ensures Run(layers, policy, 0, FRESH) == (State(Some(Answers(policy, 0)), 1), Answers(policy, 0))
  {
    PassedOn(layers, policy, 0, |layers|);
  }

  /** What a layer that left the path answers a message that can be refused with, by how the layer ended. */
  ghost predicate Withholds(policy: Policy, i: nat, end: End, given: Option<Outcome>, answer: Outcome)
    requires !policy.ObservePolicy?
  {
    && answer.Made? && answer.layer == i
    && answer.answer == (
         if end.Returns? || end.error.Unexpected? then Coded(-32603)
         else if end.error.ToolError? then
           if policy.ToolPolicy? || policy.toolsCall then ToolErrorResult else Coded(-32603)
         else if -32099 <= end.error.code <= -32023 then Coded(-32603)
         else if policy.stateless && end.error.code == -32002 then Coded(-32001)
         else Coded(end.error.code))
    // a request's answer goes on showing the tool's outcome, unless it is itself a tool error
    && answer.tool == (
         if policy.ToolPolicy? then None
         else if answer.answer.ToolErrorResult? then Some(Made(i, ToolErrorResult, None))
         else if given.None? then None
         else ToolOf(given.value))
  }

  /**
   * Otherwise the outermost layer that left the path has its answer given, whatever the layers around it and the
   * terminal answered: its error if it may be shown, -32603 if not.
   */
  lemma TheOutermostDeviation(layers: seq<Layer>, policy: Policy, i: nat)
    requires i < |layers| && !policy.ObservePolicy? && OnPath(layers, policy, 0, i) && !PassesOn(layers, policy, i)
    ensures Withholds(policy, i, EndAt(layers, policy, i), Given(layers, policy, i), Run(layers, policy, 0, FRESH).1)
  {
    PassedOn(layers, policy, 0, i);
  }

  /** An outcome made inside of layer i, or by the terminal. */
  predicate FromInside(o: Outcome, i: nat) {
    o.Made? ==> o.layer >= i
  }

  lemma {:induction false} MadeInside(layers: seq<Layer>, policy: Policy, i: nat)
    requires i <= |layers|
    ensures FromInside(Run(layers, policy, i, FRESH).1, i)
    decreases |layers| - i
  {
    if policy.ObservePolicy? { ObservedOnce(layers, i); }
    else if i < |layers| { MadeInside(layers, policy, i + 1); }
  }

  /**
   * On a message that can be refused a layer's result is what call_next gave it exactly when it awaited that and
   * returned the very object; and it is the terminal's exactly when every layer from it on does.
   */
  lemma {:induction false} PassedOnOnly(layers: seq<Layer>, policy: Policy, i: nat)
    requires i < |layers| && !policy.ObservePolicy?
    ensures Given(layers, policy, i) == Some(Run(layers, policy, i, FRESH).1) <==> PassesOn(layers, policy, i)
    ensures Run(layers, policy, i, FRESH).1.Terminal? <==> OnPath(layers, policy, i, |layers|)
    decreases |layers| - i
  {
    MadeInside(layers, policy, i + 1);
    if i + 1 < |layers| { PassedOnOnly(layers, policy, i + 1); }
    assert OnPath(layers, policy, i, |layers|) <==>
        PassesOn(layers, policy, i) && OnPath(layers, policy, i + 1, |layers|);
  }

  /** A message that cannot be refused: its terminal runs exactly once, and what it answers is the answer. */
  lemma {:induction false} ObservedOnce(layers: seq<Layer>, i: nat)
    requires i <= |layers|
    ensures Run(layers, ObservePolicy, i, FRESH) ==
      (State(Some(Answers(ObservePolicy, 0)), 1), Answers(ObservePolicy, 0))
    decreases |layers| - i
  {
    if i < |layers| { ObservedOnce(layers, i + 1); }
  }

  /** Whatever the policy, the terminal runs at most once. */
  lemma AtMostOnce(layers: seq<Layer>, policy: Policy)
    ensures Run(layers, policy, 0, FRESH).0.runs <= 1
  {
    if policy.ObservePolicy? { ObservedOnce(layers, 0); } else { RunsIfAllCallOn(layers, policy, 0); }
  }

  /** No layer turns the message into a tool error of its own. */
  predicate NoToolErrors(layers: seq<Layer>, policy: Policy, i: nat) {
    forall k :: i <= k < |layers| ==> EndAt(layers, policy, k) != Raises(ToolError)
  }

  /** Whatever replaces a request's answer, what the tool answered stays visible to the middleware further out. */
  lemma {:induction false} ToolStaysVisible(layers: seq<Layer>, policy: Policy, i: nat)
    requires i <= |layers| && policy.RequestPolicy? && NoToolErrors(layers, policy, i)
    ensures ToolOf(Run(layers, policy, i, FRESH).1) ==
      if AllAwait(layers, i) && policy.toolsCall && policy.runsTool then Some(Terminal(0, true)) else None
    decreases |layers| - i
  {
    if i < |layers| {
      assert EndAt(layers, policy, i) != Raises(ToolError);
      ToolStaysVisible(layers, policy, i + 1);
    }
  }

  /** An answer a policy made has a code it may have. */
  predicate Allowable(policy: Policy, o: Outcome) {
    o.Made? && o.answer.Coded? ==>
        !policy.ObservePolicy? && !ReservedCode(o.answer.code) && (policy.stateless ==> o.answer.code != FORBIDDEN)
  }

  /**
   * What a chain answers never carries a code a middleware may not use, nor FORBIDDEN in the stateless era, whatever
   * its layers raised.
   */
  lemma {:induction false} OnlyCodesOfTheEra(layers: seq<Layer>, policy: Policy, i: nat)
    requires i <= |layers|
    ensures Allowable(policy, Run(layers, policy, i, FRESH).1)
    decreases |layers| - i
  {
    if policy.ObservePolicy? { ObservedOnce(layers, i); }
    else if i < |layers| { OnlyCodesOfTheEra(layers, policy, i + 1); }
  }

  lemma WhatReachesTheClient(layers: seq<Layer>, policy: Policy)
    requires !policy.ObservePolicy?
    ensures var answer := Run(layers, policy, 0, FRESH).1;
      && (answer.Terminal? <==> OnPath(layers, policy, 0, |layers|))
      && forall i :: 0 <= i < |layers| && OnPath(layers, policy, 0, i) && !PassesOn(layers, policy, i) ==>
           Withholds(policy, i, EndAt(layers, policy, i), Given(layers, policy, i), answer)
  {
    hide PassesOn, Withholds;
    if layers != [] { PassedOnOnly(layers, policy, 0); }
    forall i | 0 <= i < |layers| && OnPath(layers, policy, 0, i) && !PassesOn(layers, policy, i)
      ensures Withholds(policy, i, EndAt(layers, policy, i), Given(layers, policy, i), Run(layers, policy, 0, FRESH).1)
    {
      TheOutermostDeviation(layers, policy, i);
    }
  }

  // ------------------------------------------------------------------ the object

  class Chain {
    const layers: seq<Layer>
    const policy: Policy
    var reached: Option<Outcome>
    var runs: nat

    constructor (layers: seq<Layer>, policy: Policy)
      ensures this.layers == layers && this.policy == policy && Contents() == FRESH
    {
      this.layers, this.policy := layers, policy;
      reached, runs := None, 0;
    }

    function Contents(): State
      reads this
    {
      State(reached, runs)
    }

    method RunOnce() returns (outcome: Outcome)
      modifies this
      ensures (Contents(), outcome) == Once(policy, old(Contents()))
    {
      if reached.None? {
        reached := Some(Answers(policy, runs));
        runs := runs + 1;
      }
      outcome := reached.value;
    }

    method RunLayer(index: nat) returns (outcome: Outcome)
      requires index <= |layers|
      modifies this
      ensures (Contents(), outcome) == Run(layers, policy, index, old(Contents()))
      // what reaches the client is the terminal's only if no layer left the path, and else the outermost such layer's
      ensures index == 0 && old(Contents()) == FRESH && !policy.ObservePolicy? ==>
        (outcome.Terminal? <==> OnPath(layers, policy, 0, |layers|)) &&
        forall i :: 0 <= i < |layers| && OnPath(layers, policy, 0, i) && !PassesOn(layers, policy, i) ==>
            Withholds(policy, i, EndAt(layers, policy, i), Given(layers, policy, i), outcome)
      decreases |layers| - index
    {
      if index == 0 && Contents() == FRESH && !policy.ObservePolicy? { WhatReachesTheClient(layers, policy); }
      if index == |layers| {
        outcome := RunOnce();
        return;
      }
      var middleware := layers[index];
      var produced: Option<Outcome> := None;
      if middleware.Awaits? {
        var inner := RunLayer(index + 1);
        produced := Some(inner);
      }
      var deviation := DeviationOf(middleware, produced);
      if deviation.None? { return produced.value; }
      var replacement := Replacement(policy, index, deviation.value, produced);
      if replacement.Some? { return replacement.value; }
      outcome := RunOnce();
    }
  }
}
