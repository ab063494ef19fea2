/**
 * The compiled two-node graph of `create_graph`: it enters at the planning
 * node; the planning node goes to the tool node or ends, as `route_to_tools`
 * says; the tool node always returns to the planning node. The executor runs
 * at most `recursion_limit` (15) node steps and fails with a recursion error
 * when a sixteenth would be needed.
 *
 * `Pages/graph/state.py` is not part of this model: as the graph's state
 * reducers, node outputs are appended to `messages`, `intermediate_outputs`
 * and `output_image_paths`, and replace `current_variables` and
 * `token_usage`.
 */
module Graph {
  import opened Wrappers
  import opened Text
  import opened Dicts
  import opened Schema
  import opened Sandbox
  import opened Nodes

  const RecursionLimit := 15

  /** The executor's error text, `f"Recursion limit of {recursion_limit} reached ..."`. */
  const RecursionLimitError :=
    "Recursion limit of " + NatToString(RecursionLimit)
    + " reached without hitting a stop condition. You can increase the limit by setting the `recursion_limit` config key."

  function Appended<T>(xs: seq<T>, more: Option<seq<T>>): seq<T> {
    if more.Some? then xs + more.value else xs
  }

  /** The state after a node's output is folded in. */
  function ApplyUpdate(s: GraphState, u: StateUpdate): (t: GraphState)
    ensures s.messages <= t.messages && s.intermediateOutputs <= t.intermediateOutputs
    ensures s.outputImagePaths <= t.outputImagePaths
    ensures t.inputData == s.inputData
    ensures u.messages.Some? ==> t.messages[|s.messages|..] == u.messages.value
    ensures u.messages.None? ==> t.messages == s.messages
  {
    s.(messages := Appended(s.messages, u.messages),
       intermediateOutputs := Appended(s.intermediateOutputs, u.intermediateOutputs),
       outputImagePaths := Appended(s.outputImagePaths, u.outputImagePaths),
       currentVariables := Override(s.currentVariables, u.currentVariables),
       tokenUsage := Override(s.tokenUsage, u.tokenUsage))
  }

  /** The model call always succeeds and asks for between 1 and 128 calls, every one of them a well-formed sandbox call. */
  ghost predicate AlwaysCallsTools(env: Env) {
    forall w: seq<Message> ::
      && env.llm(w).Ok?
      && 0 < |env.llm(w).value.toolCalls| <= MaxToolCalls
      && forall c :: c in env.llm(w).value.toolCalls ==> !IsBadCall(c)
  }

  /** The executor's error text is recognised as a recursion error by the session driver. */
  lemma RecursionErrorIsRecognised()
    ensures Contains(Lower(RecursionLimitError), "recursion")
  {
    var head := "Recursion limit of ";
    var l := Lower(RecursionLimitError);
    forall i | 0 <= i < 9 ensures l[i] == "recursion"[i] {
      assert RecursionLimitError[i] == head[i];
    }
    assert l[..9] == "recursion";
    ContainsPrefix(l, "recursion");
  }

  /** The model's answer to the planning node in `state`. */
  function ReplyTo(state: GraphState, env: Env): Result<LlmReply> {
    env.llm(PromptWindow(DataMessage(state), state.messages))
  }

  /** One step of the planning node, its output folded into the state. */
  method AgentStep(state: GraphState, env: Env) returns (r: Result<GraphState>)
    ensures r.Err? <==> ReplyTo(state, env).Err? || |ReplyTo(state, env).value.toolCalls| > MaxToolCalls
    ensures ReplyTo(state, env).Err? ==> r == Err(ReplyTo(state, env).error)
    ensures r.Ok? ==>
      && state.messages < r.value.messages
      && state.intermediateOutputs <= r.value.intermediateOutputs
      && state.outputImagePaths <= r.value.outputImagePaths
      && r.value.inputData == state.inputData
      && r.value.currentVariables == state.currentVariables
      && r.value.messages[|r.value.messages| - 1] == Ai(ReplyTo(state, env).value.content, ReplyTo(state, env).value.toolCalls)
  {
    var planned := CallModel(state, env);
    if planned.Err? {
      return Err(planned.error);
    }
    var next := ApplyUpdate(state, planned.value);
    assert next.messages[|state.messages|..] == [Ai(ReplyTo(state, env).value.content, ReplyTo(state, env).value.toolCalls)];
    r := Ok(next);
  }

  /** The state's variables, once set, are the sandbox's store itself: reading them later sees the store as it is then. */
  function SeeStore(s: GraphState, store: Dict<Value>): (t: GraphState)
    ensures t.currentVariables.Some? <==> s.currentVariables.Some?
    ensures t.currentVariables.Some? ==> t.currentVariables.value == store
    ensures t.(currentVariables := s.currentVariables) == s
  {
    if s.currentVariables.Some? then s.(currentVariables := Some(store)) else s
  }

  /** One step of the tool node, its output folded into the state. */
  method ToolStep(sandbox: PythonSandbox, state: GraphState, env: Env) returns (r: Result<GraphState>)
    modifies sandbox
    // the step fails exactly when the history does not end in a model message or one of its calls is bad
    ensures r.Err? <==>
      !AsksForTools(state.messages) || exists c :: c in state.messages[|state.messages| - 1].toolCalls && IsBadCall(c)
    ensures r.Ok? ==>
      var calls := state.messages[|state.messages| - 1].toolCalls;
      && state.messages <= r.value.messages
      && |r.value.messages| == |state.messages| + |calls|
      && (forall i :: 0 <= i < |calls| ==>
            var m := r.value.messages[|state.messages| + i];
            m.Tool? && m.toolCallId == calls[i].id && m.name == calls[i].name)
      && state.intermediateOutputs <= r.value.intermediateOutputs
      && state.outputImagePaths <= r.value.outputImagePaths
      && r.value.inputData == state.inputData
      && (r.value.currentVariables.Some? ==> r.value.currentVariables == Some(sandbox.persistentVars))
  {
    var outcome, responses, stores, listings := CallTools(sandbox, state, env);
    if outcome.Err? {
      return Err(outcome.error);
    }
    var calls := state.messages[|state.messages| - 1].toolCalls;
    var next := ApplyUpdate(state, outcome.value);
    assert next.messages[|state.messages|..] == outcome.value.messages.value;
    r := Ok(SeeStore(next, sandbox.persistentVars));
  }

  /** `graph.invoke(state, {"recursion_limit": 15})`, with `steps` the number of node steps run. */
  method RunGraph(sandbox: PythonSandbox, input: GraphState, env: Env) returns (r: Result<GraphState>, steps: nat)
    modifies sandbox
    ensures steps <= RecursionLimit
    ensures r.Ok? ==>
      && input.messages < r.value.messages
      && input.intermediateOutputs <= r.value.intermediateOutputs
      && input.outputImagePaths <= r.value.outputImagePaths
      && r.value.inputData == input.inputData
    // the run ends only after a model message that asks for no tool
    ensures r.Ok? ==> RouteToTools(r.value.messages) == Ok(ToEnd) && steps % 2 == 1
    // a model that always calls tools exhausts the step budget
    ensures AlwaysCallsTools(env) ==> r == Err(RecursionLimitError) && steps == RecursionLimit
  {
    var state := input;
    steps := 0;
    while true
      invariant steps % 2 == 0 && steps < RecursionLimit
      invariant input.messages <= state.messages && input.intermediateOutputs <= state.intermediateOutputs
      invariant input.outputImagePaths <= state.outputImagePaths && state.inputData == input.inputData
      decreases RecursionLimit - steps
    {
      ghost var reply := ReplyTo(state, env);
      var planned := AgentStep(state, env);
      steps := steps + 1;
      if planned.Err? {
        return Err(planned.error), steps;
      }
      state := planned.value;
      var route := RouteToTools(state.messages);
      if route != Ok(ToTools) {
        return Ok(state), steps;
      }
      if steps == RecursionLimit {
        return Err(RecursionLimitError), steps;
      }
      var outcome := ToolStep(sandbox, state, env);
      steps := steps + 1;
      if outcome.Err? {
        return Err(outcome.error), steps;
      }
      state := outcome.value;
    }
  }
}
