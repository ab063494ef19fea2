/**
 * The two graph nodes and the routing predicate: `call_model` (data summary,
 * prompt window, tool-call cap, token report), `route_to_tools`, and
 * `call_tools` (dispatch of every tool call to the sandbox, one tool message
 * per call, and the `dict.update` merge of the tools' state updates).
 */
module Nodes {
  import opened Wrappers
  import opened Text
  import opened Dicts
  import opened Schema
  import opened TokenUsage
  import opened Sandbox

  // ---------------------------------------------------------------- data summary

  /** The text for one manifest entry. */
  function InputEntry(d: InputData): string {
    "\n\nVariable: " + d.variableName + "\n" + "Description: " + d.dataDescription
  }

  /** The text for one variable that is not a manifest entry. */
  function VariableEntry(v: string): string {
    "\n\nVariable: " + v
  }

  function InputEntries(inputData: seq<InputData>): (es: seq<string>)
    ensures |es| == |inputData|
    ensures forall i :: 0 <= i < |inputData| ==> es[i] == InputEntry(inputData[i])
  {
    seq(|inputData|, i requires 0 <= i < |inputData| => InputEntry(inputData[i]))
  }

  function VariableEntries(vs: seq<string>): (es: seq<string>)
    ensures |es| == |vs|
    ensures forall i :: 0 <= i < |vs| ==> es[i] == VariableEntry(vs[i])
  {
    seq(|vs|, i requires 0 <= i < |vs| => VariableEntry(vs[i]))
  }

  function VariableNames(inputData: seq<InputData>): (names: seq<string>)
    ensures |names| == |inputData|
    ensures forall i :: 0 <= i < |inputData| ==> names[i] == inputData[i].variableName
  {
    seq(|inputData|, i requires 0 <= i < |inputData| => inputData[i].variableName)
  }

  /** `[v for v in keys if v not in names]`. */
  function Remaining(keys: seq<string>, names: seq<string>): (r: seq<string>)
    ensures forall v :: v in r <==> v in keys && v !in names
    ensures |r| <= |keys|
  {
    if keys == [] then []
    else
      var rest := Remaining(keys[1..], names);
      assert forall v :: v in keys <==> v == keys[0] || v in keys[1..];
      if keys[0] in names then rest else [keys[0]] + rest
  }

  /** The variables listed after the manifest entries: the state's variables that are not manifest names. */
  function ExtraVariables(state: GraphState): seq<string> {
    if state.currentVariables.Some? then Remaining(Keys(state.currentVariables.value), VariableNames(state.inputData))
    else []
  }

  /** The data summary: one entry per manifest entry, then one per extra variable. */
  function DataSummary(state: GraphState): string {
    Concat(InputEntries(state.inputData)) + Concat(VariableEntries(ExtraVariables(state)))
  }

  /** Every manifest entry is described, and every variable of the state is named, in the summary. */
  lemma SummaryListsEverything(state: GraphState)
    ensures forall k :: 0 <= k < |state.inputData| ==> Contains(DataSummary(state), InputEntry(state.inputData[k]))
    ensures state.currentVariables.Some? ==>
      forall v :: v in Keys(state.currentVariables.value) ==> Contains(DataSummary(state), VariableEntry(v))
  {
    var inputs := InputEntries(state.inputData);
    var extras := VariableEntries(ExtraVariables(state));
    forall k | 0 <= k < |state.inputData| ensures Contains(DataSummary(state), InputEntry(state.inputData[k])) {
      ConcatContainsParts(inputs, k);
      ContainsInLeft(Concat(inputs), Concat(extras), inputs[k]);
    }
    if state.currentVariables.Some? {
      var names := VariableNames(state.inputData);
      forall v | v in Keys(state.currentVariables.value) ensures Contains(DataSummary(state), VariableEntry(v)) {
        if v in names {
          var k :| 0 <= k < |names| && names[k] == v;
          ConcatContainsParts(inputs, k);
          ContainsPrefix(InputEntry(state.inputData[k]), VariableEntry(v));
          ContainsTransitive(Concat(inputs), InputEntry(state.inputData[k]), VariableEntry(v));
          ContainsInLeft(Concat(inputs), Concat(extras), VariableEntry(v));
        } else {
          var extra := ExtraVariables(state);
          var j :| 0 <= j < |extra| && extra[j] == v;
          ConcatContainsParts(extras, j);
          ContainsInConcat(Concat(inputs), Concat(extras), VariableEntry(v));
        }
      }
    }
  }

  lemma ConcatSnoc(parts: seq<string>, x: string)
    ensures Concat(parts + [x]) == Concat(parts) + x
  {
    assert (parts + [x])[..|parts|] == parts;
  }

  lemma DescribeInputsStep(inputData: seq<InputData>, i: nat)
    requires i < |inputData|
    ensures Concat(InputEntries(inputData[..i + 1])) == Concat(InputEntries(inputData[..i])) + InputEntry(inputData[i])
    ensures VariableNames(inputData[..i + 1]) == VariableNames(inputData[..i]) + [inputData[i].variableName]
  {
    assert InputEntries(inputData[..i + 1]) == InputEntries(inputData[..i]) + [InputEntry(inputData[i])];
    ConcatSnoc(InputEntries(inputData[..i]), InputEntry(inputData[i]));
  }

  lemma AppendTwice(s: string, a: string, b: string)
    ensures s + a + b == s + (a + b)
  {
  }

  /** The manifest loop of `create_data_summary`: one entry per manifest entry, and the list of their names. */
  method DescribeInputs(inputData: seq<InputData>) returns (summary: string, variables: seq<string>)
    ensures summary == Concat(InputEntries(inputData))
    ensures variables == VariableNames(inputData)
  {
    summary, variables := "", [];
    for i := 0 to |inputData|
      invariant variables == VariableNames(inputData[..i])
      invariant summary == Concat(InputEntries(inputData[..i]))
    {
      var d := inputData[i];
      DescribeInputsStep(inputData, i);
      variables := variables + [d.variableName];
      var line := "\n\nVariable: " + d.variableName + "\n";
      var description := "Description: " + d.dataDescription;
      AppendTwice(summary, line, description);
      summary := summary + line;
      summary := summary + description;
    }
    assert inputData[..|inputData|] == inputData;
  }

  /** The loop over the remaining variables of `create_data_summary`. */
  method DescribeVariables(remaining: seq<string>) returns (text: string)
    ensures text == Concat(VariableEntries(remaining))
  {
    text := "";
    for j := 0 to |remaining|
      invariant text == Concat(VariableEntries(remaining[..j]))
    {
      ConcatSnoc(VariableEntries(remaining[..j]), VariableEntry(remaining[j]));
      assert VariableEntries(remaining[..j + 1]) == VariableEntries(remaining[..j]) + [VariableEntry(remaining[j])];
      text := text + "\n\nVariable: " + remaining[j];
    }
    assert remaining[..|remaining|] == remaining;
  }

  /** `create_data_summary(state)`. */
  method CreateDataSummary(state: GraphState) returns (summary: string)
    ensures summary == DataSummary(state)
  {
    var variables;
    summary, variables := DescribeInputs(state.inputData);
    if state.currentVariables.Some? {
      var remaining := Remaining(Keys(state.currentVariables.value), variables);
      var text := DescribeVariables(remaining);
      summary := summary + text;
    } else {
      assert VariableEntries([]) == [];
    }
  }

  // ---------------------------------------------------------------- routing

  datatype Route = ToTools | ToEnd

  const NoMessagesError := "No messages found in input state to tool_edge"

  /** `route_to_tools(state)`: to the tools exactly when the last message is a model message with a tool call. */
  function RouteToTools(messages: seq<Message>): (r: Result<Route>)
    ensures r.Err? <==> messages == []
    ensures r == Ok(ToTools) <==>
      |messages| > 0 && messages[|messages| - 1].Ai? && |messages[|messages| - 1].toolCalls| > 0
  {
    if messages == [] then Err(NoMessagesError)
    else
      var last := messages[|messages| - 1];
      if last.Ai? && |last.toolCalls| > 0 then Ok(ToTools) else Ok(ToEnd)
  }

  // ---------------------------------------------------------------- planning node

  const MaxToolCalls := 128
  const PromptLimit := 10

  /** The first message of every prompt: the data summary. */
  function DataMessage(state: GraphState): Message {
    Human("The following data is available:\n" + DataSummary(state))
  }

  /** The messages sent to the model: the data message and the history, cut to their first 10. */
  function PromptWindow(first: Message, messages: seq<Message>): (w: seq<Message>)
    ensures |w| == if 1 + |messages| <= PromptLimit then 1 + |messages| else PromptLimit
    ensures w[0] == first
    ensures w <= [first] + messages
  {
    var all := [first] + messages;
    if |all| > PromptLimit then all[..PromptLimit] else all
  }

  /** The cut keeps the oldest messages: once the history holds 9, a newer message is not shown to the model. */
  lemma PromptWindowDropsNewest(first: Message, messages: seq<Message>, newer: Message)
    requires |messages| >= PromptLimit - 1
    ensures PromptWindow(first, messages + [newer]) == PromptWindow(first, messages)
    ensures newer !in messages ==> newer !in PromptWindow(first, messages + [newer])[1..]
  {
    assert ([first] + messages + [newer])[..PromptLimit] == ([first] + messages)[..PromptLimit];
    assert ([first] + messages)[..PromptLimit][1..] == messages[..PromptLimit - 1];
  }

  /** A history of at most 9 messages is shown whole. */
  lemma PromptWindowKeepsShortHistory(first: Message, messages: seq<Message>)
    requires |messages| < PromptLimit
    ensures PromptWindow(first, messages) == [first] + messages
  {
  }

  function TooManyToolCallsError(n: nat): string {
    "Too many tool calls generated (" + NatToString(n) + "). Maximum allowed is " + NatToString(MaxToolCalls) + "."
  }

  /** `call_model(state)`: a model call over the prompt window with a fresh token callback; a failing model call propagates. */
  method CallModel(state: GraphState, env: Env) returns (r: Result<StateUpdate>)
    ensures var reply := env.llm(PromptWindow(DataMessage(state), state.messages));
      && (r.Err? <==> reply.Err? || |reply.value.toolCalls| > MaxToolCalls)
      && (reply.Err? ==> r.error == reply.error)
      && (reply.Ok? && r.Err? ==> r.error == TooManyToolCallsError(|reply.value.toolCalls|))
      && (r.Ok? ==> r.value == StateUpdate(
            Some([Ai(reply.value.content, reply.value.toolCalls)]),
            Some([PromptSummary(DataMessage(state).content)]),
            None, None,
            Some(ReportedUsage(reply.value.tokenUsage, env.modelName))))
  {
    var summary := CreateDataSummary(state);
    var dataMessage := Human("The following data is available:\n" + summary);
    var messages := [dataMessage] + state.messages;
    if |messages| > PromptLimit {
      messages := messages[..PromptLimit];
    }
    var callback := new TokenUsageCallback();
    var outcome := env.llm(messages);
    if outcome.Err? {
      return Err(outcome.error);
    }
    var reply := outcome.value;
    callback.OnLlmEnd(reply.tokenUsage, env.modelName);
    if |reply.toolCalls| > MaxToolCalls {
      return Err(TooManyToolCallsError(|reply.toolCalls|));
    }
    var info := TokenInfo(callback.totalTokens, callback.promptTokens, callback.completionTokens, callback.cost, env.modelName);
    r := Ok(StateUpdate(Some([Ai(reply.content, reply.toolCalls)]), Some([PromptSummary(dataMessage.content)]), None, None, Some(info)));
  }

  // ---------------------------------------------------------------- tool node

  const ToolName := "complete_python_task"

  /** The answer of the tool executor for one call: the tool's `(message, updates)` pair, or an exception. */
  type ToolResponse = Result<(string, StateUpdate)>

  /** `a` overridden by `b` where `b` has a value. */
  function Override<T>(a: Option<T>, b: Option<T>): Option<T> {
    if b.Some? then b else a
  }

  /** `acc.update(u)`: every key `u` holds replaces the one in `acc`. */
  function MergeUpdate(acc: StateUpdate, u: StateUpdate): StateUpdate {
    StateUpdate(
      Override(acc.messages, u.messages),
      Override(acc.intermediateOutputs, u.intermediateOutputs),
      Override(acc.currentVariables, u.currentVariables),
      Override(acc.outputImagePaths, u.outputImagePaths),
      Override(acc.tokenUsage, u.tokenUsage))
  }

  /** The updates merged in order into an empty dict. */
  function MergeAll(us: seq<StateUpdate>): StateUpdate {
    if us == [] then NoUpdate else MergeUpdate(MergeAll(us[..|us| - 1]), us[|us| - 1])
  }

  /** The position of the last of `xs` that holds a value, if any. */
  function LastIndex<T>(xs: seq<Option<T>>): (r: Option<nat>)
    ensures r.None? <==> forall i :: 0 <= i < |xs| ==> xs[i].None?
    ensures r.Some? ==> r.value < |xs| && xs[r.value].Some? && forall j :: r.value < j < |xs| ==> xs[j].None?
  {
    if xs == [] then None
    else if xs[|xs| - 1].Some? then Some(|xs| - 1)
    else LastIndex(xs[..|xs| - 1])
  }

  /** The value the last of `xs` that has one holds, or nothing. */
  function LastSome<T>(xs: seq<Option<T>>): (r: Option<T>)
    ensures r.None? <==> forall i :: 0 <= i < |xs| ==> xs[i].None?
    ensures r.Some? ==> exists i :: 0 <= i < |xs| && xs[i] == r && forall j :: i < j < |xs| ==> xs[j].None?
  {
    match LastIndex(xs)
    case None => None
    case Some(i) => xs[i]
  }

  /** Under `dict.update` each key of the merge is the last value any update gave it: a later call's log and image list replace an earlier call's. */
  lemma {:induction false} MergeAllLastWins(us: seq<StateUpdate>)
    ensures MergeAll(us).intermediateOutputs == LastSome(seq(|us|, i requires 0 <= i < |us| => us[i].intermediateOutputs))
    ensures MergeAll(us).outputImagePaths == LastSome(seq(|us|, i requires 0 <= i < |us| => us[i].outputImagePaths))
    ensures MergeAll(us).currentVariables == LastSome(seq(|us|, i requires 0 <= i < |us| => us[i].currentVariables))
  {
    if us != [] {
      var n := |us| - 1;
      MergeAllLastWins(us[..n]);
      assert seq(|us|, i requires 0 <= i < |us| => us[i].intermediateOutputs)[..n]
          == seq(n, i requires 0 <= i < n => us[..n][i].intermediateOutputs);
      assert seq(|us|, i requires 0 <= i < |us| => us[i].outputImagePaths)[..n]
          == seq(n, i requires 0 <= i < n => us[..n][i].outputImagePaths);
      assert seq(|us|, i requires 0 <= i < |us| => us[i].currentVariables)[..n]
          == seq(n, i requires 0 <= i < n => us[..n][i].currentVariables);
    }
  }

  /** Two code runs that both log: only the second one's log survives the merge. */
  lemma SecondRunLogWins(u1: StateUpdate, u2: StateUpdate)
    requires u1.intermediateOutputs.Some? && u2.intermediateOutputs.Some?
    ensures MergeAll([u1, u2]).intermediateOutputs == u2.intermediateOutputs
  {
    assert [u1, u2][..1] == [u1];
  }

  /** The tool message answering call `c` with the tool's message text. */
  function ToolMessageFor(c: ToolCall, content: string): Message {
    Tool(content, c.name, c.id)
  }

  /** The index of the first exception among the first `n` responses, if any. */
  function FirstError(responses: seq<ToolResponse>, n: nat): (r: Option<nat>)
    requires n <= |responses|
    ensures r.None? <==> forall j :: 0 <= j < n ==> responses[j].Ok?
    ensures r.Some? ==> r.value < n && responses[r.value].Err? && forall j :: 0 <= j < r.value ==> responses[j].Ok?
  {
    if n == 0 then None
    else match FirstError(responses, n - 1)
      case Some(j) => Some(j)
      case None => if responses[n - 1].Err? then Some(n - 1) else None
  }

  /**
   * The loop of `call_tools` over `zip(calls, responses)` has result `r`: the
   * first exception is raised; otherwise one tool message per call, in
   * order, and the updates merged with `dict.update`, whose `messages` key is
   * then the tool messages.
   */
  predicate Collected(calls: seq<ToolCall>, responses: seq<ToolResponse>, r: Result<StateUpdate>) {
    var n := if |calls| <= |responses| then |calls| else |responses|;
    && (r.Err? <==> FirstError(responses, n).Some?)
    && (r.Err? ==> r.error == responses[FirstError(responses, n).value].error)
    && (r.Ok? ==>
          && r.value.messages.Some? && |r.value.messages.value| == n
          && (forall i :: 0 <= i < n ==> r.value.messages.value[i] == ToolMessageFor(calls[i], responses[i].value.0))
          && r.value == MergeAll(seq(n, i requires 0 <= i < n && responses[i].Ok? => responses[i].value.1))
                          .(messages := r.value.messages))
  }

  method CollectResponses(calls: seq<ToolCall>, responses: seq<ToolResponse>) returns (r: Result<StateUpdate>)
    ensures Collected(calls, responses, r)
  {
    var n := if |calls| <= |responses| then |calls| else |responses|;
    var toolMessages: seq<Message> := [];
    var updates := NoUpdate;
    for i := 0 to n
      invariant FirstError(responses, i).None?
      invariant |toolMessages| == i
      invariant forall j :: 0 <= j < i ==> toolMessages[j] == ToolMessageFor(calls[j], responses[j].value.0)
      invariant updates == MergeAll(seq(i, j requires 0 <= j < i && responses[j].Ok? => responses[j].value.1))
    {
      var response := responses[i];
      if response.Err? {
        assert FirstError(responses, i + 1) == Some(i);
        FirstErrorStays(responses, i + 1, n);
        return Err(response.error);
      }
      var (message, update) := response.value;
      toolMessages := toolMessages + [ToolMessageFor(calls[i], message)];
      ghost var prefix := seq(i + 1, j requires 0 <= j < i + 1 && responses[j].Ok? => responses[j].value.1);
      assert prefix[..i] == seq(i, j requires 0 <= j < i && responses[j].Ok? => responses[j].value.1);
      updates := MergeUpdate(updates, update);
    }
    r := Ok(updates.(messages := Some(toolMessages)));
  }

  lemma {:induction false} FirstErrorStays(responses: seq<ToolResponse>, m: nat, n: nat)
    requires m <= n <= |responses|
    requires FirstError(responses, m).Some?
    ensures FirstError(responses, n) == FirstError(responses, m)
    decreases n - m
  {
    if m < n {
      FirstErrorStays(responses, m, n - 1);
    }
  }

  const NotAToolCallingMessage := "object has no attribute 'tool_calls'"

  /** A call the tool executor cannot run: an unknown tool, or arguments that do not fit the tool's signature. */
  predicate IsBadCall(c: ToolCall) {
    c.name != ToolName || c.args.MalformedArgs?
  }

  /**
   * The exception a bad call ends in. For an unknown tool the executor
   * returns its "not a valid tool" text as the response, and unpacking that
   * string into `message, updates` raises; for unusable arguments the
   * argument validation raises, quoting the arguments.
   */
  function BadCallError(c: ToolCall): string
    requires IsBadCall(c)
  {
    if c.name != ToolName then "too many values to unpack (expected 2)"
    else "invalid arguments for " + ToolName + ": " + c.args.raw
  }

  /**
   * The executor's answer to call `c` with the node's `state`, the sandbox
   * going from store `p0` and listing `f0` to `p1` and `f1`: a bad call
   * raises and touches nothing; a valid one is `complete_python_task`.
   */
  predicate TaskOutcome(state: GraphState, c: ToolCall, env: Env, moduleGlobals: Dict<Value>,
                        p0: Dict<Value>, f0: seq<string>, p1: Dict<Value>, f1: seq<string>, response: ToolResponse)
  {
    if IsBadCall(c) then response == Err(BadCallError(c)) && p1 == p0 && f1 == f0
    else response.Ok? && TaskResult(state, c.args.thought, c.args.pythonCode, env, moduleGlobals,
                                     p0, f0, p1, f1, response.value.0, response.value.1)
  }

  /** The shape every answer of the executor has: an exception exactly for a bad call, else one log entry and no message or token report. */
  predicate ResponseFits(c: ToolCall, response: ToolResponse) {
    && (response.Err? <==> IsBadCall(c))
    && (response.Ok? ==>
          var u := response.value.1;
          u.messages.None? && u.tokenUsage.None? && u.intermediateOutputs.Some? && |u.intermediateOutputs.value| == 1)
  }

  lemma TaskOutcomeFits(state: GraphState, c: ToolCall, env: Env, moduleGlobals: Dict<Value>,
                        p0: Dict<Value>, f0: seq<string>, p1: Dict<Value>, f1: seq<string>, response: ToolResponse)
    requires TaskOutcome(state, c, env, moduleGlobals, p0, f0, p1, f1, response)
    ensures ResponseFits(c, response)
  {
    if !IsBadCall(c) && FirstLoadFailure(state.inputData, env.readCsv).None? {
      RunResultShape(PlannedCode(state, c.args.pythonCode, env), PlannedGlobals(state, env, moduleGlobals, p0),
                     c.args.thought, env, moduleGlobals, PlannedStore(state, env, p0), f0,
                     p1, f1, response.value.0, response.value.1);
    }
  }

  /** One call of the batch: a bad call raises, a valid one runs the sandbox with the node's state. */
  method RunCall(sandbox: PythonSandbox, state: GraphState, c: ToolCall, env: Env) returns (response: ToolResponse)
    modifies sandbox
    ensures TaskOutcome(state, c, env, sandbox.moduleGlobals, old(sandbox.persistentVars), old(sandbox.imageFiles),
                        sandbox.persistentVars, sandbox.imageFiles, response)
  {
    if IsBadCall(c) {
      return Err(BadCallError(c));
    }
    var summary, update := sandbox.CompletePythonTask(state, c.args.thought, c.args.pythonCode, env);
    response := Ok((summary, update));
  }

  /**
   * The batch ran call after call with the same `state`: call `i` took the
   * sandbox from `stores[i]`, `listings[i]` to `stores[i + 1]`,
   * `listings[i + 1]` and answered `responses[i]`.
   */
  predicate BatchOutcome(state: GraphState, calls: seq<ToolCall>, env: Env, moduleGlobals: Dict<Value>,
                         stores: seq<Dict<Value>>, listings: seq<seq<string>>, responses: seq<ToolResponse>)
  {
    && |responses| == |calls| && |stores| == |listings| == |calls| + 1
    && forall i :: 0 <= i < |calls| ==>
         TaskOutcome(state, calls[i], env, moduleGlobals, stores[i], listings[i], stores[i + 1], listings[i + 1], responses[i])
  }

  /** The tool executor's batch, one call after the other. */
  method Dispatch(sandbox: PythonSandbox, state: GraphState, calls: seq<ToolCall>, env: Env)
    returns (responses: seq<ToolResponse>, ghost stores: seq<Dict<Value>>, ghost listings: seq<seq<string>>)
    modifies sandbox
    ensures BatchOutcome(state, calls, env, sandbox.moduleGlobals, stores, listings, responses)
    ensures stores[0] == old(sandbox.persistentVars) && listings[0] == old(sandbox.imageFiles)
    ensures stores[|calls|] == sandbox.persistentVars && listings[|calls|] == sandbox.imageFiles
  {
    responses := [];
    stores, listings := [sandbox.persistentVars], [sandbox.imageFiles];
    for i := 0 to |calls|
      invariant |responses| == i && |stores| == |listings| == i + 1
      invariant stores[0] == old(sandbox.persistentVars) && listings[0] == old(sandbox.imageFiles)
      invariant stores[i] == sandbox.persistentVars && listings[i] == sandbox.imageFiles
      invariant forall j :: 0 <= j < i ==>
        TaskOutcome(state, calls[j], env, sandbox.moduleGlobals, stores[j], listings[j], stores[j + 1], listings[j + 1], responses[j])
    {
      var response := RunCall(sandbox, state, calls[i], env);
      responses := responses + [response];
      stores, listings := stores + [sandbox.persistentVars], listings + [sandbox.imageFiles];
    }
  }

  /** The history ends in a model message, whose tool calls the tool node runs. */
  predicate AsksForTools(messages: seq<Message>) {
    |messages| > 0 && messages[|messages| - 1].Ai?
  }

  /**
   * `call_tools(state)`. The ghost results record the executor's answers and
   * the sandbox states between the calls.
   */
  method CallTools(sandbox: PythonSandbox, state: GraphState, env: Env)
    returns (r: Result<StateUpdate>, ghost responses: seq<ToolResponse>,
             ghost stores: seq<Dict<Value>>, ghost listings: seq<seq<string>>)
    modifies sandbox
    ensures !AsksForTools(state.messages) ==> r.Err? && unchanged(sandbox)
    ensures state.messages == [] ==> r == Err("list index out of range")
    ensures AsksForTools(state.messages) ==>
      var calls := state.messages[|state.messages| - 1].toolCalls;
      && BatchOutcome(state, calls, env, sandbox.moduleGlobals, stores, listings, responses)
      && stores[0] == old(sandbox.persistentVars) && listings[0] == old(sandbox.imageFiles)
      && stores[|calls|] == sandbox.persistentVars && listings[|calls|] == sandbox.imageFiles
      && Collected(calls, responses, r)
      // the node fails exactly when one of the calls is bad
      && (r.Err? <==> exists c :: c in calls && IsBadCall(c))
    ensures r.Ok? ==>
      var calls := state.messages[|state.messages| - 1].toolCalls;
      && r.value.tokenUsage.None?
      && (|calls| > 0 ==> r.value.intermediateOutputs.Some? && |r.value.intermediateOutputs.value| == 1)
  {
    if state.messages == [] {
      return Err("list index out of range"), [], [], [];
    }
    var last := state.messages[|state.messages| - 1];
    if !last.Ai? {
      var kind := if last.Human? then "HumanMessage" else "ToolMessage";
      return Err("'" + kind + "' " + NotAToolCallingMessage), [], [], [];
    }
    var calls := last.toolCalls;
    var answers;
    answers, stores, listings := Dispatch(sandbox, state, calls, env);
    r := CollectResponses(calls, answers);
    responses := answers;
    BatchResult(state, calls, env, sandbox.moduleGlobals, stores, listings, responses, r);
  }

  /** The node's result over a batch: an exception exactly when a call is bad; otherwise no token report and the last call's single log entry. */
  lemma BatchResult(state: GraphState, calls: seq<ToolCall>, env: Env, moduleGlobals: Dict<Value>,
                    stores: seq<Dict<Value>>, listings: seq<seq<string>>, responses: seq<ToolResponse>, r: Result<StateUpdate>)
    requires BatchOutcome(state, calls, env, moduleGlobals, stores, listings, responses)
    requires Collected(calls, responses, r)
    ensures r.Err? <==> exists c :: c in calls && IsBadCall(c)
    ensures r.Ok? ==> r.value.tokenUsage.None?
    ensures r.Ok? && |calls| > 0 ==> r.value.intermediateOutputs.Some? && |r.value.intermediateOutputs.value| == 1
  {
    forall j | 0 <= j < |calls| ensures ResponseFits(calls[j], responses[j]) {
      TaskOutcomeFits(state, calls[j], env, moduleGlobals, stores[j], listings[j], stores[j + 1], listings[j + 1], responses[j]);
    }
    if r.Err? {
      var k := FirstError(responses, |calls|).value;
      assert calls[k] in calls && IsBadCall(calls[k]);
    } else {
      forall c | c in calls ensures !IsBadCall(c) {
        var k :| 0 <= k < |calls| && calls[k] == c;
        assert responses[k].Ok?;
      }
      var us := seq(|calls|, i requires 0 <= i < |calls| && responses[i].Ok? => responses[i].value.1);
      MergeAllLastWins(us);
      MergeAllNoTokenUsage(us);
      if |calls| > 0 {
        assert us[|us| - 1].intermediateOutputs.Some?;
      }
    }
  }

  lemma {:induction false} MergeAllNoTokenUsage(us: seq<StateUpdate>)
    requires forall i :: 0 <= i < |us| ==> us[i].tokenUsage.None?
    ensures MergeAll(us).tokenUsage.None?
  {
    if us != [] {
      MergeAllNoTokenUsage(us[..|us| - 1]);
    }
  }
}
