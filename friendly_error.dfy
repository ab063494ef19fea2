/**
 * `get_user_friendly_error` and the suggestion chooser of the sandbox's
 * failure path: both turn the text of an exception into user-facing text.
 */
module FriendlyErrors {
  import opened Text
  import opened Classify

  const DatasetNotFound := "❌ Dataset not found. Make sure you've uploaded and selected your data files."
  const VariableNotFound := "❌ Variable not found. This might happen if you're referencing something that wasn't created yet."
  const ColumnNotFound := "❌ Column not found in the dataset. Please check the column names in your data."
  const IndexOutOfRange := "❌ Index out of range. This usually means trying to access data that doesn't exist."
  const NoDataToAnalyze := "❌ No data to analyze. Please check that your dataset contains data."
  const InvalidDataValues := "❌ Invalid data values. Please check your data format and try again."
  const TypeMismatch := "❌ Data type mismatch. This often happens when trying to perform operations on incompatible data types."
  const DatasetTooLarge := "💾 Dataset too large for analysis. Try working with a smaller subset of your data."
  const CodeSyntaxError := "🔧 Code syntax error. The AI generated invalid Python code - please try rephrasing your question."
  const MissingLibrary := "📦 Missing required library. Some advanced features may not be available."
  const AnalysisErrorPrefix := "❌ Analysis error: "

  /** The number of characters of the raw text the generic message keeps. */
  const FallbackWidth := 100

  /** The categories, in the order the chain tests them, as rules over the lower-cased text. */
  const ErrorRules: seq<Rule> := [
    Rule(["nameerror"], ["dataset"], DatasetNotFound),
    Rule(["nameerror"], [], VariableNotFound),
    Rule(["keyerror"], [], ColumnNotFound),
    Rule(["indexerror"], [], IndexOutOfRange),
    Rule(["valueerror"], ["empty"], NoDataToAnalyze),
    Rule(["valueerror"], [], InvalidDataValues),
    Rule(["typeerror"], [], TypeMismatch),
    Rule(["memoryerror"], [], DatasetTooLarge),
    Rule(["syntaxerror"], [], CodeSyntaxError),
    Rule(["importerror", "modulenotfounderror"], [], MissingLibrary)
  ]

  /** The generic message: the prefix, at most 100 characters of the raw text, and "..." when more were cut. */
  function GenericMessage(errorStr: string): string {
    AnalysisErrorPrefix + Take(errorStr, FallbackWidth) + (if |errorStr| > FallbackWidth then "..." else "")
  }

  /** `get_user_friendly_error(error_str, code)`. */
  function FriendlyError(errorStr: string, code: string): string
  {
    var e := Lower(errorStr);
    if Contains(e, "nameerror") then
      if Contains(e, "dataset") then DatasetNotFound else VariableNotFound
    else if Contains(e, "keyerror") then ColumnNotFound
    else if Contains(e, "indexerror") then IndexOutOfRange
    else if Contains(e, "valueerror") then
      if Contains(e, "empty") then NoDataToAnalyze else InvalidDataValues
    else if Contains(e, "typeerror") then TypeMismatch
    else if Contains(e, "memoryerror") then DatasetTooLarge
    else if Contains(e, "syntaxerror") then CodeSyntaxError
    else if Contains(e, "importerror") || Contains(e, "modulenotfounderror") then MissingLibrary
    else GenericMessage(errorStr)
  }

  /** The chain is the first-match reading of the rule table over the lower-cased text. */
  lemma FriendlyErrorIsFirstMatch(errorStr: string, code: string)
    ensures FriendlyError(errorStr, code) == FirstMatch(ErrorRules, Lower(errorStr), GenericMessage(errorStr))
  {
    var e := Lower(errorStr);
    if Contains(e, "nameerror") || Contains(e, "keyerror") || Contains(e, "indexerror") {
      EarlyRules(errorStr, code);
    } else {
      var rs, g := ErrorRules, GenericMessage(errorStr);
      FiresOneWith("nameerror", "dataset", DatasetNotFound, e);
      FiresOne("nameerror", VariableNotFound, e);
      FiresOne("keyerror", ColumnNotFound, e);
      FiresOne("indexerror", IndexOutOfRange, e);
      FirstMatchSkip(rs, e, g, 4);
      LateRules(errorStr, code);
    }
  }

  lemma EarlyRules(errorStr: string, code: string)
    requires var e := Lower(errorStr); Contains(e, "nameerror") || Contains(e, "keyerror") || Contains(e, "indexerror")
    ensures FriendlyError(errorStr, code) == FirstMatch(ErrorRules, Lower(errorStr), GenericMessage(errorStr))
  {
    var e := Lower(errorStr);
    var rs, g := ErrorRules, GenericMessage(errorStr);
    FiresOneWith("nameerror", "dataset", DatasetNotFound, e);
    FiresOne("nameerror", VariableNotFound, e);
    FiresOne("keyerror", ColumnNotFound, e);
    FiresOne("indexerror", IndexOutOfRange, e);
    if Contains(e, "nameerror") {
      if Contains(e, "dataset") { FirstMatchAt(rs, e, g, 0); } else { FirstMatchAt(rs, e, g, 1); }
    } else if Contains(e, "keyerror") {
      FirstMatchAt(rs, e, g, 2);
    } else {
      FirstMatchAt(rs, e, g, 3);
    }
  }

  lemma LateRules(errorStr: string, code: string)
    requires var e := Lower(errorStr); !Contains(e, "nameerror") && !Contains(e, "keyerror") && !Contains(e, "indexerror")
    ensures FriendlyError(errorStr, code) == FirstMatch(ErrorRules[4..], Lower(errorStr), GenericMessage(errorStr))
  {
    var e := Lower(errorStr);
    var rs, g := ErrorRules[4..], GenericMessage(errorStr);
    FiresOneWith("valueerror", "empty", NoDataToAnalyze, e);
    FiresOne("valueerror", InvalidDataValues, e);
    FiresOne("typeerror", TypeMismatch, e);
    FiresOne("memoryerror", DatasetTooLarge, e);
    if Contains(e, "valueerror") {
      if Contains(e, "empty") { FirstMatchAt(rs, e, g, 0); } else { FirstMatchAt(rs, e, g, 1); }
    } else if Contains(e, "typeerror") {
      FirstMatchAt(rs, e, g, 2);
    } else if Contains(e, "memoryerror") {
      FirstMatchAt(rs, e, g, 3);
    } else {
      FirstMatchSkip(rs, e, g, 4);
      assert rs[4..] == ErrorRules[8..];
      LastRules(errorStr, code);
    }
  }

  lemma LastRules(errorStr: string, code: string)
    requires var e := Lower(errorStr);
      && !Contains(e, "nameerror") && !Contains(e, "keyerror") && !Contains(e, "indexerror")
      && !Contains(e, "valueerror") && !Contains(e, "typeerror") && !Contains(e, "memoryerror")
    ensures FriendlyError(errorStr, code) == FirstMatch(ErrorRules[8..], Lower(errorStr), GenericMessage(errorStr))
  {
    var e := Lower(errorStr);
    var rs, g := ErrorRules[8..], GenericMessage(errorStr);
    FiresOne("syntaxerror", CodeSyntaxError, e);
    FiresEither("importerror", "modulenotfounderror", MissingLibrary, e);
    if Contains(e, "syntaxerror") {
      FirstMatchAt(rs, e, g, 0);
    } else if Contains(e, "importerror") || Contains(e, "modulenotfounderror") {
      FirstMatchAt(rs, e, g, 1);
    } else {
      FirstMatchNone(rs, e, g);
    }
  }

  /** Only the lower-cased text picks the category: when a category applies, texts that differ only in case get the same message. */
  lemma FriendlyErrorIgnoresCase(e1: string, e2: string, code1: string, code2: string, k: nat)
    requires Lower(e1) == Lower(e2)
    requires k < |ErrorRules| && Fires(ErrorRules[k], Lower(e1))
    ensures FriendlyError(e2, code2) == FriendlyError(e1, code1)
  {
    FriendlyErrorIsFirstMatch(e1, code1);
    FriendlyErrorIsFirstMatch(e2, code2);
    FirstMatchIgnoresFallback(ErrorRules, Lower(e1), GenericMessage(e1), GenericMessage(e2), k);
  }

  /** The answer is one of the table's messages or the generic message. */
  lemma FriendlyErrorOutcomes(errorStr: string, code: string)
    ensures var r := FriendlyError(errorStr, code);
            r == GenericMessage(errorStr) || exists i :: 0 <= i < |ErrorRules| && r == ErrorRules[i].message
  {
    FriendlyErrorIsFirstMatch(errorStr, code);
  }

  /** The generic message keeps the first 100 characters, adds "..." exactly when the text is longer, and is never longer than 121 characters. */
  lemma GenericMessageShape(errorStr: string)
    ensures AnalysisErrorPrefix + Take(errorStr, FallbackWidth) <= GenericMessage(errorStr)
    ensures |errorStr| <= FallbackWidth ==> GenericMessage(errorStr) == AnalysisErrorPrefix + errorStr
    ensures |errorStr| > FallbackWidth ==> |GenericMessage(errorStr)| == |AnalysisErrorPrefix| + FallbackWidth + 3
    ensures |GenericMessage(errorStr)| <= |AnalysisErrorPrefix| + FallbackWidth + 3
  {
  }

  /** The `code` argument never changes the answer. */
  lemma FriendlyErrorIgnoresCode(errorStr: string, code1: string, code2: string)
    ensures FriendlyError(errorStr, code1) == FriendlyError(errorStr, code2)
  {
  }

  /** A name error outranks every other category, whatever else the text mentions. */
  lemma NameErrorFirst(errorStr: string, code: string)
    requires Contains(Lower(errorStr), "nameerror")
    ensures FriendlyError(errorStr, code) == (if Contains(Lower(errorStr), "dataset") then DatasetNotFound else VariableNotFound)
  {
  }

  const SuggestDescribe := "💡 Try describing your data first with: 'Show me a summary of my data'"
  const SuggestColumns := "💡 Check available columns with: 'What columns are in my dataset?'"
  const SuggestUpload := "💡 Your dataset might be empty. Try uploading data first."

  /**
   * The suggestion list of the sandbox's failure path. Unlike the friendly
   * message, the class names are matched case-sensitively; only "empty" is
   * matched on the lower-cased text.
   */
  function Suggestions(errorStr: string): (r: seq<string>)
    ensures |r| <= 1
    ensures |r| == 1 <==> Contains(errorStr, "NameError") || Contains(errorStr, "KeyError")
                          || (Contains(errorStr, "ValueError") && Contains(Lower(errorStr), "empty"))
    ensures |r| == 1 ==> r[0] in {SuggestDescribe, SuggestColumns, SuggestUpload}
    ensures Contains(errorStr, "NameError") ==> r == [SuggestDescribe]
    ensures !Contains(errorStr, "NameError") && Contains(errorStr, "KeyError") ==> r == [SuggestColumns]
  {
    if Contains(errorStr, "NameError") then [SuggestDescribe]
    else if Contains(errorStr, "KeyError") then [SuggestColumns]
    else if Contains(errorStr, "ValueError") && Contains(Lower(errorStr), "empty") then [SuggestUpload]
    else []
  }

  /**
   * The suggestion tests are case-sensitive while the categories are not: an
   * all-lower-case text gets its category's message but never a suggestion.
   */
  lemma {:induction false} SuggestionsAreCaseSensitive(errorStr: string, code: string)
    requires Lower(errorStr) == errorStr
    ensures Suggestions(errorStr) == []
    ensures Contains(errorStr, "nameerror") ==>
      FriendlyError(errorStr, code) == (if Contains(errorStr, "dataset") then DatasetNotFound else VariableNotFound)
  {
    LowerContainsNoUpper(errorStr, "NameError");
    LowerContainsNoUpper(errorStr, "KeyError");
    LowerContainsNoUpper(errorStr, "ValueError");
  }
}
