# AgenticDataAnalysis orchestration, modelled in Dafny

AgenticDataAnalysis is a Streamlit app in which a language model answers
questions about uploaded CSV files by writing Python code that a sandbox runs.
This project models the orchestration around the model and the sandbox:

- the two-node LangGraph agent: a planning node (`call_model`), a tool node
  (`call_tools`), the `route_to_tools` edge between them, and the executor's
  recursion limit of 15 node steps;
- the `complete_python_task` sandbox:
  - loading and naming the datasets (`dataset_0`, `dataset_1`, …);
  - the `_metadata` binding of numeric and date columns;
  - the "Available datasets" hint prepended to the code;
  - the process-wide `persistent_vars` store;
  - the directory diff that finds new figure files;
  - the friendly error text and the suggestions;
- `convert_periods`, the helper of the figure-saving code;
- `TokenUsageCallback` and its pricing tiers;
- the `PythonChatbot` session driver: chunking the manifest, turning
  recursion errors into partial results, and attributing images to answers;
- the helpers of the analysis page: smart suggestions, saving descriptions,
  the manifest built from the selected files, the error text shown to the
  user, and the query label.

## How the model is built

The language model, `pd.read_csv`, `exec` and the figure-saving code are
oracles: function-typed fields of `Schema.Env`. The language model's call may
fail (a network, authentication or quota error); its exception text then
propagates through the planning node, the executor and the session driver to
the page's error mapping. Everything the orchestration does around the
oracles is modelled.

Each source file has its own form in the model:

- **Objects updated in place become classes:**
  - `Sandbox.PythonSandbox` holds the module-level `persistent_vars` and the
    listing of the figure directory.
  - `TokenUsage.TokenUsageCallback` holds the token counters.
  - `Backend.PythonChatbot` holds the chat history, the output log and the
    image attribution.
  - `Ui.DataDictionaryStore` holds the page's data dictionary.
- **Loops become methods:**
  - Each loop method is proved equal to a specification function. Examples:
    `Nodes.CreateDataSummary` and `Nodes.DataSummary`, `Sandbox.GroupColumns`
    and `Sandbox.ColumnRefs`, `Ui.GenerateSmartSuggestions` and
    `Ui.Dedup`/`Ui.AllSuggestions`.
  - The properties are proved as lemmas about those functions.
- **If/elif chains over substrings** (`get_user_friendly_error` and the
  page's error mapping) are proved equal to the first-match reading of a rule
  table (`Classify.FirstMatch`).
- **A Python dict** is a distinct-keyed, insertion-ordered list of pairs
  (`Dicts.Dict`). `dict.update`, assignment and comprehension filters keep
  Python's order and overwrite rules.

### Where the model follows the code rather than its comments

- The prompt window keeps the first 10 messages, not the last 10
  (`Pages/graph/nodes.py:118-119`: the comment says "last", the slice is
  `[:10]`). `Nodes.PromptWindowDropsNewest` proves the consequence: once the
  history holds 9 messages, newer messages are never shown to the model.
- `gpt-4o-mini` is checked after `gpt-4o` (`Pages/graph/nodes.py:30-39`),
  so every mini model is charged gpt-4o rates.
  - `TokenUsage.MiniTierUnreachable` proves that the mini tier is never
    chosen.
  - `TokenUsage.MiniChargedAsGpt4o` proves the cost a mini model is charged.
- Every chunk of a large manifest starts from the same input state
  (`Pages/backend.py:88-93`). Only the last chunk's result is kept, and the
  `combined_result` value is computed but never used.
- `call_tools` merges the tools' updates with `dict.update`
  (`Pages/graph/nodes.py:181`). When several calls run in one step, each of
  the log, the images and the variables is the value of the last update that
  has that key (`Nodes.MergeAllLastWins`). A run that fails sets neither
  images nor variables, so an earlier run's survive it. Of two runs that both
  log, only the second one's log survives (`Nodes.SecondRunLogWins`).
- The state's `current_variables`, once a code run has set it, is the
  `persistent_vars` dict itself (`Pages/graph/tools.py:187`), not a copy.
  - The loading loop of a later call writes `dataset_k` and `_metadata` into
    that dict, so into the store (`Pages/graph/tools.py:95-103`, `136`).
  - A later call of the same batch sees the bindings of an earlier one.
  - The planning node's data summary lists the store as it is then.

  The model keeps this: `Sandbox.LoadBase` and `Sandbox.StoreAfterLoads` read
  and write the store when the state's variables are set, and
  `Graph.SeeStore` makes the state's variables the store after each tool
  step.
- The suggestions of the sandbox's failure path match `NameError`,
  `KeyError` and `ValueError` case-sensitively. The friendly message matches
  on the lower-cased text (`FriendlyErrors.SuggestionsAreCaseSensitive`).

### Assumptions about code this model cannot see

`Pages/graph/state.py` and the LangGraph runtime are not part of this model.

- **Reducers:** node outputs are appended to `messages`,
  `intermediate_outputs` and `output_image_paths`, and replace
  `current_variables` and `token_usage` (`Graph.ApplyUpdate`).
- **Executor:** it runs the planning node and then the tool node in turn.
  Each node run is one step. A sixteenth step fails with LangGraph's
  recursion error (`Graph.RecursionLimitError`).
- **Error texts:** for an unknown tool, the tool executor returns its
  "not a valid tool" text as the response. `call_tools` then fails unpacking
  that string into `message, updates` (`Pages/graph/nodes.py:175`), with
  Python's "too many values to unpack (expected 2)". For arguments that do
  not fit the tool's signature, the validator's exception is not visible;
  `Nodes.BadCallError` stands in for it and quotes the arguments, as the
  validator's message does.

## Model

| member | source | states |
|---|---|---|
| Periods.ConvertRemovesPeriods | Pages/graph/tools.py:23-30 | after conversion no pandas Period and no tuple is reachable through dicts, lists and tuples |
| Periods.ConvertIdentity | Pages/graph/tools.py:23-30 | a value with no reachable Period or tuple is returned unchanged |
| Periods.ConvertIdempotent | Pages/graph/tools.py:23-30 | converting twice is converting once |
| Periods.ConvertLeavesObjects | Pages/graph/tools.py:30 | any other object (e.g. a Figure) is returned as it is, its attributes not looked into |
| FriendlyErrors.FriendlyErrorIsFirstMatch | Pages/graph/tools.py:48-83 | the if/elif chain gives the message of the first category whose words the lower-cased error contains, in the chain's order, else the generic message |
| FriendlyErrors.NameErrorFirst | Pages/graph/tools.py:52-56 | a name error outranks every other category; "dataset" picks the dataset-not-found message |
| FriendlyErrors.FriendlyErrorIgnoresCase | Pages/graph/tools.py:50-80 | texts equal after lower-casing get the same categorised message |
| FriendlyErrors.FriendlyErrorOutcomes | Pages/graph/tools.py:48-83 | the answer is one of the ten category messages or the generic message |
| FriendlyErrors.GenericMessageShape | Pages/graph/tools.py:83 | the generic message keeps the first 100 characters and adds "..." exactly when the text is longer |
| FriendlyErrors.FriendlyErrorIgnoresCode | Pages/graph/tools.py:48 | the `code` argument never changes the message |
| FriendlyErrors.Suggestions | Pages/graph/tools.py:217-223 | at most one suggestion; one exactly for NameError, KeyError, or ValueError with "empty", with NameError first |
| FriendlyErrors.SuggestionsAreCaseSensitive | Pages/graph/tools.py:217-223 | an all-lower-case error text never gets a suggestion, while a "nameerror" in it still gets the name-error message |
| Sandbox.DatasetNamesDistinct | Pages/graph/tools.py:101 | `dataset_{i}` and `dataset_{j}` differ for different positions |
| Sandbox.FirstLoadFailure | Pages/graph/tools.py:98-110 | the first manifest entry that fails to load, or none exactly when every entry loads |
| Sandbox.LoadedVarsBindsDatasets | Pages/graph/tools.py:98-102 | after loading, `dataset_k` holds the k-th table and every other name keeps its binding |
| Sandbox.LoadDatasets | Pages/graph/tools.py:97-119 | the loading loop stops at the first failure, with its path and error; else every entry is loaded and named by position |
| Sandbox.PickedColumnsMembership | Pages/graph/tools.py:129-133 | a name is recorded for a dataset exactly when it is `name.col` of a column whose dtype matches |
| Sandbox.ColumnRefsMembership | Pages/graph/tools.py:128-133 | a name is recorded exactly when it is `name.col` of a matching column of some dataset |
| Sandbox.GroupDatasetColumns | Pages/graph/tools.py:129-133 | the column loop of one dataset records the numeric and the date columns in column order |
| Sandbox.GroupColumns | Pages/graph/tools.py:128-133 | the grouping loop records the numeric and date columns of every dataset in order |
| Sandbox.CodeWithDatasetHint | Pages/graph/tools.py:172-174 | the code is changed exactly when it lacks "dataset_" and datasets exist; it is then `# Available datasets: ` with the names joined by ", ", a newline and the code, and names every dataset |
| Sandbox.ExecGlobalsVisible | Pages/graph/tools.py:166-169 | the code starts with an empty `plotly_figures`; state variables override persisted ones, which override module globals |
| Sandbox.NewFiles | Pages/graph/tools.py:195 | exactly the listed files that were not there before |
| Sandbox.FailureSummary | Pages/graph/tools.py:225-227 | the failure summary is the message, a newline and the suggestions joined by newlines |
| Sandbox.RunResultShape | Pages/graph/tools.py:176-235 | whatever the code does: one log entry; no message or token report; the listing only grows; images only for new files; variables returned exactly on success; none on failure |
| Sandbox.RunResultBindings | Pages/graph/tools.py:177 | after a run, every non-module name the code bound holds the code's value and every other name keeps its persisted value |
| Sandbox.PythonSandbox.constructor | Pages/graph/tools.py:15 | the persisted store starts empty |
| Sandbox.PythonSandbox.RunCode | Pages/graph/tools.py:160-235 | the run: exec, merge of non-module bindings, truth test of the figures, save and directory diff, figure reset, warning on save failure, failure path with friendly text |
| Sandbox.PythonSandbox.CompletePythonTask | Pages/graph/tools.py:86-235 | `TaskResult`: a load failure returns its message and log, with the listing unchanged and the store holding the datasets loaded before the failure when the state's variables are the store; otherwise the hinted code runs once with the planned globals from the store the loads left |
| TokenUsage.MiniTierUnreachable | Pages/graph/nodes.py:30-39 | the gpt-4o-mini tier is never chosen; a mini name gets the gpt-4o rates |
| TokenUsage.PricingTierDefined | Pages/graph/nodes.py:30-49 | a name is priced exactly when it contains "gpt-4o", "gpt-4-turbo" or "gpt-3.5-turbo" |
| TokenUsage.AfterReport | Pages/graph/nodes.py:20-49 | a non-empty usage report overwrites the three counters (missing keys read 0); the cost is unchanged for an unpriced model |
| TokenUsage.ReportOverwrites | Pages/graph/nodes.py:24-26 | a report does not accumulate: the counters afterwards do not depend on the counters before |
| TokenUsage.MiniChargedAsGpt4o | Pages/graph/nodes.py:30-34 | a mini model is charged 500 and 1500 cents per million prompt and completion tokens |
| TokenUsage.TokenUsageCallback.constructor | Pages/graph/nodes.py:14-18 | all counters start at zero |
| TokenUsage.TokenUsageCallback.OnLlmEnd | Pages/graph/nodes.py:20-49 | the callback's new counters are the report applied to the old ones |
| TokenUsage.ReportedUsage | Pages/graph/nodes.py:143-149 | the record from a fresh callback: zeros without a report, the tier's cost of the reported counts, the model name |
| Nodes.Remaining | Pages/graph/nodes.py:87 | exactly the state's variables that are not manifest names |
| Nodes.SummaryListsEverything | Pages/graph/nodes.py:78-90 | the summary describes every manifest entry and names every variable of the state |
| Nodes.DescribeInputs | Pages/graph/nodes.py:81-84 | the manifest loop writes one entry per manifest entry and collects their names |
| Nodes.DescribeVariables | Pages/graph/nodes.py:88-89 | the variable loop writes one entry per remaining variable |
| Nodes.CreateDataSummary | Pages/graph/nodes.py:78-90 | the summary is the manifest entries followed by the remaining variables |
| Nodes.RouteToTools | Pages/graph/nodes.py:92-107 | no messages is an error; to the tools exactly when the last message is a model message with a tool call |
| Nodes.PromptWindow | Pages/graph/nodes.py:117-119 | the data message followed by the history, cut to at most 10 from the front |
| Nodes.PromptWindowDropsNewest | Pages/graph/nodes.py:118-119 | once the history holds 9 messages, a newer message is not in the prompt |
| Nodes.PromptWindowKeepsShortHistory | Pages/graph/nodes.py:117-119 | a history of at most 9 messages is sent whole |
| Nodes.CallModel | Pages/graph/nodes.py:111-155 | fails exactly when the model call fails (with its error) or the reply has more than 128 tool calls; otherwise the reply, the data message as log and the fresh callback's token record |
| Nodes.MergeAllLastWins | Pages/graph/nodes.py:181 | under `dict.update` each merged key holds the value of the last update that has it |
| Nodes.SecondRunLogWins | Pages/graph/nodes.py:181 | of two code runs in one step only the second one's log survives |
| Nodes.CollectResponses | Pages/graph/nodes.py:169-187 | `Collected`: the first exception is raised; else one tool message per call with the tool's text (paired by id) and the merged updates with the tool messages as `messages` |
| Nodes.TaskOutcomeFits | Pages/graph/nodes.py:168-181 | an answer is an exception exactly for a bad call; a tool's answer has one log entry and no message or token report |
| Nodes.RunCall | Pages/graph/nodes.py:160-168 | `TaskOutcome`: a bad call raises `BadCallError` and leaves the sandbox as it was; a valid call is `complete_python_task` with the node's state, from the sandbox's old store and listing to its new ones |
| Nodes.Dispatch | Pages/graph/nodes.py:160-168 | the batch answers every call in order; call i takes the sandbox from the i-th to the next recorded store and listing, starting from the old sandbox and ending in the new one |
| Nodes.CallTools | Pages/graph/nodes.py:157-187 | an empty history or a non-model last message fails with the sandbox untouched; otherwise the batch's answers and sandbox states, the result collected from them, and failure exactly when some call is bad |
| Nodes.BatchResult | Pages/graph/nodes.py:168-187 | over a batch the node fails exactly when a call is bad; otherwise no token report and one log entry |
| Nodes.MergeAllNoTokenUsage | Pages/graph/nodes.py:181 | merging tool updates never produces a token report |
| Graph.ApplyUpdate | Pages/backend.py:29 | folding a node's output into the state only appends to the message list, the log and the image list, and keeps the manifest |
| Graph.RecursionErrorIsRecognised | Pages/backend.py:127-128 | the executor's recursion error contains "recursion" after lower-casing |
| Graph.AgentStep | Pages/backend.py:30 | a planning step appends the model's reply and keeps the variables; it fails exactly when the model call fails (with its error) or the reply has more than 128 calls |
| Graph.SeeStore | Pages/graph/tools.py:187 | the state's variables, once set, read as the given store; nothing else changes |
| Graph.ToolStep | Pages/backend.py:31-35 | a tool step fails exactly when the history does not end in a model message or a call is bad; otherwise it appends one tool message per call, in order, only extends the state, and its variables are the sandbox's store |
| Graph.RunGraph | Pages/backend.py:28-39 | at most 15 steps; a success ends after a model message without tool calls and extends the history; a model that always calls tools ends in the recursion error after 15 steps |
| Backend.ChunksPartition | Pages/backend.py:82-85 | the chunks, concatenated, are the manifest |
| Backend.ChunksBounded | Pages/backend.py:81-85 | every chunk is non-empty and at most the chunk size; all but the last are full; there is one unless the manifest is empty |
| Backend.SmallManifestIsOneChunk | Pages/backend.py:81-85 | a manifest of at most 1000 entries is one chunk |
| Backend.AttributionKeepsDisjoint | Pages/backend.py:153-155 | attributing only images outside the baseline keeps every image attributed to one answer at most |
| Backend.ListOfSet | Pages/backend.py:65 | `list(set)`: each element of the set once |
| Backend.Combine | Pages/backend.py:140-144 | the combined image set is the union of the chunks' images; its messages are empty exactly when every chunk's are |
| Backend.PythonChatbot.constructor | Pages/backend.py:22-26 | a new session has no history, no log and no image attribution |
| Backend.PythonChatbot.ResetChat | Pages/backend.py:168-172 | the history, the log and the attribution are emptied |
| Backend.PythonChatbot.UserSentMessage | Pages/backend.py:49-166 | an empty manifest gets the no-data reply with nothing changed; a recursion error becomes the partial reply; errors leave the session as it was; a completed query keeps the last chunk's history, extends the log, and attributes exactly the new images to the last message; chunk j's result ran on chunk j from the same history; a model that always calls tools gets the partial reply; images stay uniquely attributed |
| Backend.PythonChatbot.RunChunks | Pages/backend.py:87-144 | each chunk runs from the input state with its own chunk; a recursion error gives the partial reply, another error propagates, else every chunk's result is kept in order |
| Backend.PythonChatbot.RecordResult | Pages/backend.py:153-158 | the history becomes the result's messages, the log is extended by the result's log, and the new last key holds exactly the result's images outside the baseline; other keys are kept |
| Ui.FileCategory | Pages/python_visualisation_agent.py:193-212 | a file is a transaction, customer or sales file by the first matching words of its lower-cased name |
| Ui.Dedup | Pages/python_visualisation_agent.py:214-220 | no duplicates, and exactly the elements of the input |
| Ui.DedupPrefix | Pages/python_visualisation_agent.py:214-220 | duplicate removal keeps first-occurrence order |
| Ui.DedupDistinct | Pages/python_visualisation_agent.py:214-220 | a list without duplicates is kept as it is |
| Ui.SuggestionsShape | Pages/python_visualisation_agent.py:181-222 | the suggestions start with the three basic ones, have no duplicates, come from the list and are at most six |
| Ui.GenerateSmartSuggestions | Pages/python_visualisation_agent.py:181-222 | the two loops compute the first six distinct suggestions of the basic and per-file lists |
| Ui.SavedDictionary | Pages/python_visualisation_agent.py:102-107 | the saved dictionary has an entry for every old file and every file with a non-empty description |
| Ui.SavedDictionaryChangesOnlyDescriptions | Pages/python_visualisation_agent.py:103-107 | only the `description` field of files with a non-empty description changes; other fields and files are kept |
| Ui.SavedDictionaryIdempotent | Pages/python_visualisation_agent.py:102-107 | saving the same descriptions twice is saving them once |
| Ui.DataDictionaryStore.constructor | Pages/python_visualisation_agent.py:18-19 | the store holds the loaded dictionary |
| Ui.DataDictionaryStore.SaveDescriptions | Pages/python_visualisation_agent.py:102-107 | the save loop leaves the dictionary described above, whatever the iteration order |
| Ui.VariableName | Pages/python_visualisation_agent.py:126 | the file name up to its first '.', a prefix without '.' |
| Ui.BuildInputData | Pages/python_visualisation_agent.py:124-131 | one manifest entry per selected file, in order, with the path under the uploads directory and the saved description or "" |
| Ui.UiErrorIsFirstMatch | Pages/python_visualisation_agent.py:164-174 | the page's error text is the first matching category of the lower-cased error, else the generic text |
| Ui.ProcessUserQuery | Pages/python_visualisation_agent.py:118-179 | no selection shows the select-files error without calling the session; otherwise an error is shown exactly when the session raised one, as that error's category text, with the error itself as technical details; the "too complex" text is never shown |
| Ui.NoRecursionNoTooComplex | Pages/python_visualisation_agent.py:165-166 | an error without "recursion" never gets the "too complex" text |
| Ui.QueryLabel | Pages/python_visualisation_agent.py:366 | a query of at most 50 characters is its own label; a longer one is its first 50 characters and "..." |

## Left out

- TokenUsage.AfterReport: costs are exact integers in millionths of a cent (cents per million tokens times tokens), not float dollars. `round(cost, 6)` (`Pages/graph/nodes.py:147`) is not modelled.
- TokenUsage.TokenUsageCallback.OnLlmEnd: the report is assumed to hold integers. The model name is one setting (`Env.modelName`); `OPENAI_MODEL` is read twice in the source, so the two reads are assumed to agree.
- Nodes.BadCallError: the validator's exception text for unusable arguments is not visible, so a stand-in text that quotes the arguments is used. The unpacking error for an unknown tool is Python's wording without the value count that recent Python versions append.
- Nodes.Dispatch: `tool_executor.batch` may run the calls concurrently. The model runs them one after another, in order, each call seeing the store the previous one left.
- Nodes.CallModel: the system prompt (`prompts/main_prompt.md`) and the prompt template are part of the language-model oracle. `limited_state`'s `input_data` and `current_variables` are not used by the template, so they are left out.
- Sandbox.PythonSandbox.RunCode:
  - `exec`, stdout capture and the figure-saving code (JSON first, pickle fallback, uuid file names) are oracles.
  - `error_details` on the truth-test failure path is the error text, not a formatted traceback.
  - The dict returned as `current_variables` is the sandbox's own `persistent_vars` object. The update carries its value at that moment; the graph state reads the store itself after each tool step (`Graph.SeeStore`). No other object identity is modelled.
- Sandbox.LoadDatasets: `size`, `types` and `sample` of each dataset record are reduced to the table's columns and row count.
- Sandbox.PythonSandbox.CompletePythonTask: the `except` around the relationship metadata (`Pages/graph/tools.py:144-152`) cannot be reached in the model, because grouping columns cannot fail. Creating the image directory (`Pages/graph/tools.py:154-155`) is file-system I/O.
- Backend.PythonChatbot.UserSentMessage:
  - The `data_loaded` check (`Pages/backend.py:73-78`) cannot fail once the manifest is non-empty.
  - No exception is assumed to carry a `partial_result` attribute (`Pages/backend.py:148`).
  - Logging and timing are left out.
- Backend.PythonChatbot: `response_cache` and the compiled graph's `config` dict (`Pages/backend.py:26`, `Pages/backend.py:40-46`) are never read. The `invoke` options other than `recursion_limit` have no modelled effect.
- Ui.QueryLabel: `PythonChatbot` has no `token_usage_history` attribute, so the usage-history table (`Pages/python_visualisation_agent.py:361-372`) never renders in the source. Only the label rule is modelled.
- Ui.BuildInputData: `os.path.abspath(os.path.join("uploads", file))` is the uploads directory, given as an absolute path parameter, joined with the file name. The working directory is not modelled.
- Ui.DataDictionaryStore: reading and writing `data_dictionary.json` is I/O and is left out.
- Ui.DataDictionary: each file's entry is reduced to a map from field names to strings. Non-string JSON values in `data_dictionary.json` are not modelled; only `description` is read and written.
- Text.Lower: only ASCII letters are lower-cased; Python's `str.lower()` also folds other scripts.
- All Streamlit rendering is left out: tabs, uploads, progress bars, chat display, the debug and usage tabs, and the technical-details expander.
