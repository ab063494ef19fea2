/**
 * The logic of the analysis page that is not rendering: the smart query
 * suggestions, the "Save Descriptions" update of the data dictionary, the
 * manifest built from the selected files, the error text shown when a query
 * fails, and the label of a query in the usage history.
 */
module Ui {
  import opened Wrappers
  import opened Text
  import opened Schema
  import opened Classify
  import opened Backend

  // ---------------------------------------------------------------- suggestions

  const BasicSuggestions := [
    "📊 Show me a summary of my data",
    "🔍 What are the main patterns in this dataset?",
    "📈 Create visualizations to explore the data"
  ]

  const TransactionSuggestions := [
    "💳 Analyze transaction patterns and trends",
    "🚨 Detect any fraudulent or unusual transactions",
    "💰 Show spending patterns by category"
  ]

  const CustomerSuggestions := [
    "👥 Segment customers based on behavior",
    "📊 Show customer demographics breakdown",
    "🎯 Identify high-value customers"
  ]

  const SalesSuggestions := [
    "📈 Show sales trends over time",
    "🏆 Identify top performing products",
    "📊 Analyze seasonal patterns"
  ]

  const SuggestionLimit := 6

  datatype Category = Transactions | Customers | Sales | Uncategorised

  /** The first category whose words the lower-cased file name contains. */
  function FileCategory(filename: string): (c: Category)
    ensures var f := Lower(filename);
      && (c == Transactions <==> Contains(f, "transaction") || Contains(f, "payment"))
      && (c == Customers <==> !Contains(f, "transaction") && !Contains(f, "payment")
                              && (Contains(f, "customer") || Contains(f, "user")))
      && (c == Sales <==> !Contains(f, "transaction") && !Contains(f, "payment")
                          && !Contains(f, "customer") && !Contains(f, "user") && Contains(f, "sales"))
  {
    var f := Lower(filename);
    if Contains(f, "transaction") || Contains(f, "payment") then Transactions
    else if Contains(f, "customer") || Contains(f, "user") then Customers
    else if Contains(f, "sales") then Sales
    else Uncategorised
  }

  function CategorySuggestions(c: Category): seq<string> {
    match c
    case Transactions => TransactionSuggestions
    case Customers => CustomerSuggestions
    case Sales => SalesSuggestions
    case Uncategorised => []
  }

  /** The list before duplicates are removed: the basic three, then each file's category's three, in file order. */
  function AllSuggestions(files: seq<string>): seq<string> {
    if files == [] then BasicSuggestions
    else AllSuggestions(files[..|files| - 1]) + CategorySuggestions(FileCategory(files[|files| - 1]))
  }

  predicate NoDuplicates(xs: seq<string>) {
    forall i, j :: 0 <= i < j < |xs| ==> xs[i] != xs[j]
  }

  /** The first occurrence of each element, in order. */
  function Dedup(xs: seq<string>): (r: seq<string>)
    ensures NoDuplicates(r)
    ensures forall x :: x in r <==> x in xs
  {
    if xs == [] then []
    else
      var d := Dedup(xs[..|xs| - 1]);
      assert forall x :: x in xs <==> x in xs[..|xs| - 1] || x == xs[|xs| - 1];
      if xs[|xs| - 1] in d then d else d + [xs[|xs| - 1]]
  }

  /** Removing duplicates keeps first-occurrence order: the result for a prefix is a prefix of the result. */
  lemma {:induction false} DedupPrefix(a: seq<string>, b: seq<string>)
    ensures Dedup(a) <= Dedup(a + b)
    decreases |b|
  {
    if b != [] {
      var n := |b| - 1;
      DedupPrefix(a, b[..n]);
      assert (a + b)[..|a + b| - 1] == a + b[..n];
    } else {
      assert a + b == a;
    }
  }

  /** A list without duplicates is left as it is. */
  lemma {:induction false} DedupDistinct(xs: seq<string>)
    requires NoDuplicates(xs)
    ensures Dedup(xs) == xs
  {
    if xs != [] {
      var front := xs[..|xs| - 1];
      DedupDistinct(front);
      assert xs[|xs| - 1] !in front;
      assert front + [xs[|xs| - 1]] == xs;
    }
  }

  function Limit(xs: seq<string>, n: nat): (r: seq<string>)
    ensures r <= xs && |r| == if |xs| <= n then |xs| else n
  {
    if |xs| <= n then xs else xs[..n]
  }

  /** The suggestions start with the basic three, have no duplicates, come from the list, and are at most six. */
  lemma SuggestionsShape(files: seq<string>)
    ensures var r := Limit(Dedup(AllSuggestions(files)), SuggestionLimit);
      && |r| <= SuggestionLimit
      && NoDuplicates(r)
      && (forall x :: x in r ==> x in AllSuggestions(files))
      && |r| >= 3 && r[..3] == BasicSuggestions
  {
    var all := AllSuggestions(files);
    BasicFirst(files);
    DedupPrefix(BasicSuggestions, all[3..]);
    assert BasicSuggestions + all[3..] == all;
    DedupDistinct(BasicSuggestions);
    var r := Limit(Dedup(all), SuggestionLimit);
    assert forall i :: 0 <= i < |r| ==> r[i] == Dedup(all)[i];
  }

  lemma {:induction false} BasicFirst(files: seq<string>)
    ensures |AllSuggestions(files)| >= 3 && AllSuggestions(files)[..3] == BasicSuggestions
  {
    if files != [] {
      BasicFirst(files[..|files| - 1]);
    }
  }

  /** `generate_smart_suggestions(selected_files)`. */
  method GenerateSmartSuggestions(selectedFiles: seq<string>) returns (r: seq<string>)
    ensures r == Limit(Dedup(AllSuggestions(selectedFiles)), SuggestionLimit)
  {
    var suggestions := BasicSuggestions;
    for i := 0 to |selectedFiles|
      invariant suggestions == AllSuggestions(selectedFiles[..i])
    {
      assert selectedFiles[..i + 1][..i] == selectedFiles[..i];
      var fileLower := Lower(selectedFiles[i]);
      if Contains(fileLower, "transaction") || Contains(fileLower, "payment") {
        suggestions := suggestions + TransactionSuggestions;
      } else if Contains(fileLower, "customer") || Contains(fileLower, "user") {
        suggestions := suggestions + CustomerSuggestions;
      } else if Contains(fileLower, "sales") {
        suggestions := suggestions + SalesSuggestions;
      }
    }
    assert selectedFiles[..|selectedFiles|] == selectedFiles;
    var seen: set<string> := {};
    var unique: seq<string> := [];
    for j := 0 to |suggestions|
      invariant unique == Dedup(suggestions[..j])
      invariant forall x :: x in seen <==> x in unique
    {
      assert suggestions[..j + 1][..j] == suggestions[..j];
      var suggestion := suggestions[j];
      if suggestion !in seen {
        seen := seen + {suggestion};
        unique := unique + [suggestion];
      }
    }
    assert suggestions[..|suggestions|] == suggestions;
    r := if |unique| <= SuggestionLimit then unique else unique[..SuggestionLimit];
  }

  // ---------------------------------------------------------------- data dictionary

  /** The data dictionary: for each file name, its JSON object of text fields. */
  type DataDictionary = map<string, map<string, string>>

  /** The dictionary after saving: every non-empty description is written, creating the entry if needed. */
  function SavedDictionary(entries: DataDictionary, descriptions: map<string, string>): (r: DataDictionary)
    ensures r.Keys == entries.Keys + set f | f in descriptions && descriptions[f] != ""
  {
    map f | f in entries.Keys + (set f | f in descriptions && descriptions[f] != "") ::
      if f in descriptions && descriptions[f] != "" then
        (if f in entries then entries[f] else map[])["description" := descriptions[f]]
      else entries[f]
  }

  /** Saving changes only the `description` field of the files with a non-empty description. */
  lemma SavedDictionaryChangesOnlyDescriptions(entries: DataDictionary, descriptions: map<string, string>, f: string, field: string)
    ensures f in entries && (f !in descriptions || descriptions[f] == "") ==> SavedDictionary(entries, descriptions)[f] == entries[f]
    ensures f in descriptions && descriptions[f] != "" ==> SavedDictionary(entries, descriptions)[f]["description"] == descriptions[f]
    ensures f in entries && field != "description" ==>
      (field in SavedDictionary(entries, descriptions)[f] <==> field in entries[f])
      && (field in entries[f] ==> SavedDictionary(entries, descriptions)[f][field] == entries[f][field])
    ensures f !in entries ==> (f in SavedDictionary(entries, descriptions) <==> f in descriptions && descriptions[f] != "")
  {
  }

  /** Saving the same descriptions twice is saving them once. */
  lemma SavedDictionaryIdempotent(entries: DataDictionary, descriptions: map<string, string>)
    ensures SavedDictionary(SavedDictionary(entries, descriptions), descriptions) == SavedDictionary(entries, descriptions)
  {
    var once := SavedDictionary(entries, descriptions);
    var twice := SavedDictionary(once, descriptions);
    assert twice.Keys == once.Keys;
    forall f | f in once ensures twice[f] == once[f] {
      if f in descriptions && descriptions[f] != "" {
        assert once[f]["description" := descriptions[f]] == once[f];
      }
    }
  }

  /** One description written into the dictionary, as the save loop does it. */
  function WriteDescription(entries: DataDictionary, f: string, description: string): DataDictionary {
    if description == "" then entries
    else entries[f := (if f in entries then entries[f] else map[])["description" := description]]
  }

  function Restrict(descriptions: map<string, string>, files: set<string>): map<string, string> {
    map f | f in descriptions && f in files :: descriptions[f]
  }

  /** Saving one more file's description is one more write. */
  lemma SavedDictionaryStep(entries: DataDictionary, descriptions: map<string, string>, done: set<string>, f: string)
    requires f in descriptions && f !in done
    ensures SavedDictionary(entries, Restrict(descriptions, done + {f}))
         == WriteDescription(SavedDictionary(entries, Restrict(descriptions, done)), f, descriptions[f])
  {
    var before := Restrict(descriptions, done);
    assert Restrict(descriptions, done + {f}) == before[f := descriptions[f]];
  }

  lemma RestrictAll(descriptions: map<string, string>, files: set<string>)
    requires descriptions.Keys <= files
    ensures Restrict(descriptions, files) == descriptions
  {
  }

  /** The data dictionary of the page, updated in place by the save button. */
  class DataDictionaryStore {
    var entries: DataDictionary

    constructor (entries: DataDictionary)
      ensures this.entries == entries
    {
      this.entries := entries;
    }

    /** The "Save Descriptions" loop over the edited descriptions. */
    method SaveDescriptions(descriptions: map<string, string>)
      modifies this
      ensures entries == SavedDictionary(old(entries), descriptions)
    {
      var pending := descriptions.Keys;
      ghost var done: set<string> := {};
      while pending != {}
        invariant pending + done == descriptions.Keys && pending !! done
        invariant entries == SavedDictionary(old(entries), Restrict(descriptions, done))
        decreases |pending|
      {
        var filename :| filename in pending;
        var description := descriptions[filename];
        SavedDictionaryStep(old(entries), descriptions, done, filename);
        if description != "" {
          var entry := if filename in entries then entries[filename] else map[];
          entries := entries[filename := entry["description" := description]];
        }
        assert entries == WriteDescription(SavedDictionary(old(entries), Restrict(descriptions, done)), filename, description);
        pending := pending - {filename};
        done := done + {filename};
      }
      RestrictAll(descriptions, done);
    }
  }

  // ---------------------------------------------------------------- manifest

  /** `file.split('.')[0]`: the text before the first '.', or all of it. */
  function VariableName(file: string): (r: string)
    ensures r <= file
    ensures '.' !in r
    ensures |r| < |file| ==> file[|r|] == '.'
  {
    if file == [] || file[0] == '.' then ""
    else [file[0]] + VariableName(file[1..])
  }

  /** The manifest entry of a selected file, stored under `uploadsDir`. */
  function InputFor(file: string, uploadsDir: string, dictionary: DataDictionary): InputData {
    var description := if file in dictionary && "description" in dictionary[file] then dictionary[file]["description"] else "";
    InputData(VariableName(file), uploadsDir + "/" + file, description)
  }

  /** The manifest of `process_user_query`: one entry per selected file, in order. */
  function BuildInputData(files: seq<string>, uploadsDir: string, dictionary: DataDictionary): (r: seq<InputData>)
    ensures |r| == |files|
    ensures forall i :: 0 <= i < |files| ==> r[i] == InputFor(files[i], uploadsDir, dictionary)
  {
    seq(|files|, i requires 0 <= i < |files| => InputFor(files[i], uploadsDir, dictionary))
  }

  // ---------------------------------------------------------------- errors

  const TooComplexMessage := "🔄 The analysis became too complex. Try asking a simpler question or breaking it into smaller parts."
  const ServiceMessage := "🔑 There's an issue with the AI service. Please check your API key configuration."
  const TooLargeMessage := "💾 Your dataset might be too large. Try analyzing a smaller subset of your data."
  const FormatMessage := "📊 There's an issue with your data format. Please check that your CSV files are properly formatted."
  const GenericUiMessage := "❌ Something went wrong with the analysis. Please try rephrasing your question."
  const SelectFilesMessage := "Please select files to analyze in the Data Management tab first."

  const UiErrorRules: seq<Rule> := [
    Rule(["recursion"], [], TooComplexMessage),
    Rule(["openai", "api"], [], ServiceMessage),
    Rule(["memory", "size"], [], TooLargeMessage),
    Rule(["pandas", "dataframe"], [], FormatMessage)
  ]

  /** The error text shown when a query raises. */
  function UiErrorMessage(error: string): string {
    var e := Lower(error);
    if Contains(e, "recursion") then TooComplexMessage
    else if Contains(e, "openai") || Contains(e, "api") then ServiceMessage
    else if Contains(e, "memory") || Contains(e, "size") then TooLargeMessage
    else if Contains(e, "pandas") || Contains(e, "dataframe") then FormatMessage
    else GenericUiMessage
  }

  /** The chain is the first-match reading of the rule table over the lower-cased text. */
  lemma UiErrorIsFirstMatch(error: string)
    ensures UiErrorMessage(error) == FirstMatch(UiErrorRules, Lower(error), GenericUiMessage)
  {
    var e := Lower(error);
    var rs := UiErrorRules;
    FiresOne("recursion", TooComplexMessage, e);
    FiresEither("openai", "api", ServiceMessage, e);
    FiresEither("memory", "size", TooLargeMessage, e);
    FiresEither("pandas", "dataframe", FormatMessage, e);
    if Contains(e, "recursion") {
      FirstMatchAt(rs, e, GenericUiMessage, 0);
    } else if Contains(e, "openai") || Contains(e, "api") {
      FirstMatchAt(rs, e, GenericUiMessage, 1);
    } else if Contains(e, "memory") || Contains(e, "size") {
      FirstMatchAt(rs, e, GenericUiMessage, 2);
    } else if Contains(e, "pandas") || Contains(e, "dataframe") {
      FirstMatchAt(rs, e, GenericUiMessage, 3);
    } else {
      FirstMatchNone(rs, e, GenericUiMessage);
    }
  }

  /**
   * `process_user_query(user_query)`: the error shown, if any, and the
   * session's exception text, which the page shows as technical details.
   */
  method ProcessUserQuery(selectedFiles: Option<seq<string>>, userQuery: string, uploadsDir: string,
                          dictionary: DataDictionary, chatbot: PythonChatbot, env: Env)
    returns (shown: Option<string>, raised: Option<string>)
    requires chatbot.Valid()
    modifies chatbot, chatbot.sandbox
    ensures chatbot.Valid()
    // no selection: an error, and the chatbot is not called
    ensures selectedFiles.None? || selectedFiles.value == [] ==>
      shown == Some(SelectFilesMessage) && raised.None? && unchanged(chatbot) && unchanged(chatbot.sandbox)
    // otherwise an error is shown exactly when the session raised one, in the category of that error
    ensures selectedFiles.Some? && selectedFiles.value != [] ==>
      && (shown.Some? <==> raised.Some?)
      && (raised.Some? ==> shown == Some(UiErrorMessage(raised.value)) && !Contains(Lower(raised.value), "recursion"))
    // the recursion message is never shown: the session driver turns recursion errors into a partial result
    ensures shown != Some(TooComplexMessage)
  {
    if selectedFiles.None? || selectedFiles.value == [] {
      return Some(SelectFilesMessage), None;
    }
    var inputData := BuildInputData(selectedFiles.value, uploadsDir, dictionary);
    var outcome := chatbot.UserSentMessage(userQuery, inputData, env);
    if outcome.Err? {
      var message := UiErrorMessage(outcome.error);
      NoRecursionNoTooComplex(outcome.error);
      return Some(message), Some(outcome.error);
    }
    shown, raised := None, None;
  }

  lemma NoRecursionNoTooComplex(error: string)
    requires !Contains(Lower(error), "recursion")
    ensures UiErrorMessage(error) != TooComplexMessage
    ensures UiErrorMessage(error) != SelectFilesMessage
  {
  }

  // ---------------------------------------------------------------- usage history

  /** The label of a query in the usage history: the query, or its first 50 characters and "...". */
  function QueryLabel(query: string): (r: string)
    ensures |query| <= 50 ==> r == query
    ensures |query| > 50 ==> r == query[..50] + "..."
    ensures |r| <= 53 && Take(query, 50) <= r
  {
    if |query| > 50 then query[..50] + "..." else query
  }
}
