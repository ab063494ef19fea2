/**
 * The values that flow between the planning node, the tool node, the code
 * sandbox and the chat session: messages, dataset references, variable
 * bindings, intermediate outputs, state updates and the graph state.
 *
 * The graph-state declaration (`Pages/graph/state.py`) is not part of this
 * model; `GraphState` lists the keys the nodes and the session driver read
 * and write.
 */
module Schema {
  import opened Wrappers
  import opened Dicts

  /** One entry of the dataset manifest (`InputData`). */
  datatype InputData = InputData(variableName: string, dataPath: string, dataDescription: string)

  /** The arguments of a `complete_python_task` call, or arguments that do not fit its signature. */
  datatype ToolArgs = CodeArgs(thought: string, pythonCode: string) | MalformedArgs(raw: string)

  datatype ToolCall = ToolCall(id: string, name: string, args: ToolArgs)

  datatype Message =
    | Human(content: string)
    | Ai(content: string, toolCalls: seq<ToolCall>)
    | Tool(content: string, name: string, toolCallId: string)

  /** A column of a loaded table, with the text of its pandas dtype (`str(dtype)`). */
  datatype Column = Column(name: string, dtype: string)

  /** What `pd.read_csv` produces, reduced to what the orchestration looks at. */
  datatype Table = Table(columns: seq<Column>, rows: nat)

  /** A Python object as the figure-saving code sees it. */
  datatype PyValue =
    | PPeriod(text: string)                       // pandas Period; `text` is `str(period)`
    | PStr(s: string)
    | PInt(i: int)
    | PList(items: seq<PyValue>)
    | PTuple(items: seq<PyValue>)
    | PDict(entries: seq<(string, PyValue)>)
    | PObject(kind: string, attrs: seq<(string, PyValue)>)   // any other object, e.g. a plotly Figure

  /** A dataset successfully loaded by the sandbox, with its generated name. */
  datatype LoadedDataset = LoadedDataset(name: string, table: Table)

  /** The `_metadata` binding: the loaded datasets and the qualified names of numeric and date-like columns. */
  datatype Metadata = Metadata(datasets: seq<LoadedDataset>, numericColumns: seq<string>, dateColumns: seq<string>)

  /** A value bound to a name in the code's globals. */
  datatype Value =
    | Frame(table: Table)
    | Meta(info: Metadata)
    | Figures(figures: seq<PyValue>)
    | Opaque(repr: string, truthy: bool)

  /** One entry of the intermediate-output log. */
  datatype IntermediateOutput =
    | PromptSummary(text: string)
    | CodeRun(thought: string, code: string, output: string)
    | CodeFailed(thought: string, code: string, output: string, errorDetails: string, suggestions: seq<string>)
    | LoadFailed(error: string, details: string, userFriendly: string)

  /** The `token_info` record produced by the planning node; `estimatedCost` is in millionths of a cent. */
  datatype TokenInfo = TokenInfo(totalTokens: int, promptTokens: int, completionTokens: int, estimatedCost: int, model: string)

  /** A node's or a tool's returned dict: each key is present (`Some`) or absent (`None`). */
  datatype StateUpdate = StateUpdate(
    messages: Option<seq<Message>>,
    intermediateOutputs: Option<seq<IntermediateOutput>>,
    currentVariables: Option<Dict<Value>>,
    outputImagePaths: Option<seq<string>>,
    tokenUsage: Option<TokenInfo>)

  const NoUpdate := StateUpdate(None, None, None, None, None)

  /** The graph state of one executor run. */
  datatype GraphState = GraphState(
    messages: seq<Message>,
    inputData: seq<InputData>,
    currentVariables: Option<Dict<Value>>,
    outputImagePaths: seq<string>,
    intermediateOutputs: seq<IntermediateOutput>,
    tokenUsage: Option<TokenInfo>,
    dataLoaded: bool,
    isLastChunk: bool)

  /** What `pd.read_csv` does with a path. */
  datatype LoadOutcome = Loaded(table: Table) | LoadError(error: string)

  /** What `exec` does with the code and the globals: the globals afterwards and the captured stdout, or the exception text and traceback. */
  datatype ExecOutcome = Ran(stdout: string, globals: Dict<Value>) | Raised(error: string, traceback: string)

  /** What the figure-saving code does: the file names it wrote, and the exception text if it stopped early. */
  datatype SaveOutcome = Saved(written: seq<string>) | SaveRaised(error: string, written: seq<string>)

  /** The language model's answer: an assistant message, and the `token_usage` dict of its usage report if there is one. */
  datatype LlmReply = LlmReply(content: string, toolCalls: seq<ToolCall>, tokenUsage: Option<Dict<int>>)

  /**
   * The collaborators the orchestration calls and cannot see: the language
   * model (whose call fails with the exception's text on a network,
   * authentication or quota error), `pd.read_csv`, `exec`, the figure-saving code and the
   * `OPENAI_MODEL` setting.
   */
  datatype Env = Env(
    llm: seq<Message> -> Result<LlmReply>,
    modelName: string,
    readCsv: string -> LoadOutcome,
    exec: (string, Dict<Value>) -> ExecOutcome,
    saveFigures: (Value, seq<string>) -> SaveOutcome)
}
