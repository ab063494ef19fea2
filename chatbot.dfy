/**
 * `PythonChatbot`, the session driver: it keeps the chat history, the log of
 * intermediate outputs and the images attributed to each answer, splits the
 * manifest into chunks, runs the graph once per chunk and records the last
 * chunk's result.
 */
module Backend {
  import opened Wrappers
  import opened Text
  import opened Schema
  import opened Sandbox
  import opened Graph

  // ---------------------------------------------------------------- chunks

  /** `[xs[i:i + size] for i in range(0, len(xs), size)]`. */
  function Chunks<T>(xs: seq<T>, size: nat): seq<seq<T>>
    requires size > 0
    decreases |xs|
  {
    if xs == [] then []
    else if |xs| <= size then [xs]
    else [xs[..size]] + Chunks(xs[size..], size)
  }

  function Flatten<T>(chunks: seq<seq<T>>): seq<T> {
    if chunks == [] then [] else chunks[0] + Flatten(chunks[1..])
  }

  /** The chunks, written one after another, are the input. */
  lemma {:induction false} ChunksPartition<T>(xs: seq<T>, size: nat)
    requires size > 0
    ensures Flatten(Chunks(xs, size)) == xs
    decreases |xs|
  {
    var cs := Chunks(xs, size);
    if |xs| > size {
      ChunksPartition(xs[size..], size);
      assert cs[0] == xs[..size] && cs[1..] == Chunks(xs[size..], size);
      assert Flatten(cs) == xs[..size] + Flatten(Chunks(xs[size..], size));
      assert xs == xs[..size] + xs[size..];
    } else if xs != [] {
      assert cs == [xs] && cs[1..] == [];
      assert Flatten(cs) == xs + Flatten([]);
    }
  }

  /** Every chunk is non-empty and at most `size` long; there is one unless the input is empty. */
  lemma {:induction false} ChunksBounded<T>(xs: seq<T>, size: nat)
    requires size > 0
    ensures forall c :: c in Chunks(xs, size) ==> 0 < |c| <= size
    ensures forall i :: 0 <= i < |Chunks(xs, size)| - 1 ==> |Chunks(xs, size)[i]| == size
    ensures |Chunks(xs, size)| > 0 <==> |xs| > 0
    decreases |xs|
  {
    if |xs| > size {
      ChunksBounded(xs[size..], size);
    }
  }

  /** The chunk size of the session driver. */
  function ChunkSize(n: nat): nat {
    if n < 1000 then n else 1000
  }

  /** A manifest of at most 1000 entries is one chunk. */
  lemma SmallManifestIsOneChunk<T>(xs: seq<T>)
    requires 0 < |xs| <= 1000
    ensures Chunks(xs, ChunkSize(|xs|)) == [xs]
  {
  }

  // ---------------------------------------------------------------- images

  /** `set(sum(paths.values(), []))`: every image path attributed to some answer. */
  function Baseline(paths: map<int, seq<string>>): set<string> {
    set k, p | k in paths && p in paths[k] :: p
  }

  /** No image is attributed to two answers. */
  predicate ImagesDisjoint(paths: map<int, seq<string>>) {
    forall k1, k2, p :: k1 in paths && k2 in paths && k1 != k2 && p in paths[k1] ==> p !in paths[k2]
  }

  /** Attributing only images outside the baseline keeps the attribution disjoint, whichever key is replaced. */
  lemma AttributionKeepsDisjoint(paths: map<int, seq<string>>, key: int, added: seq<string>)
    requires ImagesDisjoint(paths)
    requires forall p :: p in added ==> p !in Baseline(paths)
    ensures ImagesDisjoint(paths[key := added])
  {
  }

  /** The set of a list's elements. */
  function SetOf(xs: seq<string>): (s: set<string>)
    ensures forall x :: x in s <==> x in xs
  {
    set x | x in xs
  }

  /** `list(s)`: the elements of a set, once each, in some order. */
  method ListOfSet(s: set<string>) returns (xs: seq<string>)
    ensures forall x :: x in xs <==> x in s
    ensures forall i, j :: 0 <= i < j < |xs| ==> xs[i] != xs[j]
  {
    xs := [];
    var rest := s;
    while rest != {}
      invariant rest <= s
      invariant forall x :: x in s <==> x in xs || x in rest
      invariant forall x :: x in xs ==> x !in rest
      invariant forall i, j :: 0 <= i < j < |xs| ==> xs[i] != xs[j]
      decreases |rest|
    {
      var x :| x in rest;
      xs := xs + [x];
      rest := rest - {x};
    }
  }

  // ---------------------------------------------------------------- session

  /** The dict `user_sent_message` returns on its early exits. */
  datatype Reply = Reply(messages: seq<Message>, outputImagePaths: seq<string>,
                         intermediateOutputs: seq<IntermediateOutput>, partialResult: bool)

  const NoDataReply := Reply([Human("No data available. Please load data first.")], [], [], false)

  /** `combined_result`: computed from every chunk's result and never used. */
  datatype Combined = Combined(messages: seq<Message>, outputImagePaths: set<string>,
                               intermediateOutputs: seq<IntermediateOutput>)

  function Combine(results: seq<GraphState>): (c: Combined)
    ensures forall p :: p in c.outputImagePaths <==> exists i :: 0 <= i < |results| && p in results[i].outputImagePaths
    ensures |c.messages| == 0 <==> forall i :: 0 <= i < |results| ==> results[i].messages == []
  {
    if results == [] then Combined([], {}, [])
    else
      var rest := Combine(results[1..]);
      assert forall i :: 1 <= i < |results| ==> results[i] == results[1..][i - 1];
      Combined(results[0].messages + rest.messages,
               SetOf(results[0].outputImagePaths) + rest.outputImagePaths,
               results[0].intermediateOutputs + rest.intermediateOutputs)
  }

  class PythonChatbot {
    var chatHistory: seq<Message>
    var intermediateOutputs: seq<IntermediateOutput>
    var outputImagePaths: map<int, seq<string>>
    /** The graph results of the chunks of the last completed query. */
    ghost var chunkResults: seq<GraphState>
    /** The sandbox the tool node runs code in, shared by every query. */
    const sandbox: PythonSandbox

    ghost predicate Valid()
      reads this
    {
      ImagesDisjoint(outputImagePaths)
    }

    constructor (sandbox: PythonSandbox)
      ensures Valid()
      ensures chatHistory == [] && intermediateOutputs == [] && outputImagePaths == map[]
      ensures this.sandbox == sandbox
    {
      this.sandbox := sandbox;
      chatHistory, intermediateOutputs, outputImagePaths := [], [], map[];
      chunkResults := [];
    }

    /** `reset_chat()`. */
    method ResetChat()
      modifies this
      ensures Valid()
      ensures chatHistory == [] && intermediateOutputs == [] && outputImagePaths == map[]
      ensures chunkResults == old(chunkResults)
    {
      chatHistory, intermediateOutputs, outputImagePaths := [], [], map[];
    }

    /**
     * `user_sent_message(user_query, input_data)`: `Ok(Some(reply))` for the
     * early returns, `Ok(None)` when the session was updated, `Err` for an
     * exception that propagates.
     */
    method UserSentMessage(userQuery: string, inputData: seq<InputData>, env: Env)
      returns (r: Result<Option<Reply>>)
      requires Valid()
      modifies this, sandbox
      ensures Valid()
      ensures |inputData| == 0 ==> r == Ok(Some(NoDataReply)) && unchanged(this) && unchanged(sandbox)
      // early exits and errors leave the session as it was
      ensures r != Ok(None) ==>
        chatHistory == old(chatHistory) && intermediateOutputs == old(intermediateOutputs)
        && outputImagePaths == old(outputImagePaths)
      // a recursion error is never raised: it becomes the partial result
      ensures r.Err? ==> !Contains(Lower(r.error), "recursion")
      ensures r.Ok? && r.value.Some? && r.value.value.partialResult ==>
        r.value.value == Reply(old(chatHistory) + [Human(userQuery)], [], [], true)
      // a completed query: the last chunk's result is what is kept
      ensures r == Ok(None) ==>
        && |inputData| > 0
        && |chunkResults| == |Chunks(inputData, ChunkSize(|inputData|))| > 0
        && var result := chunkResults[|chunkResults| - 1];
        var key := |chatHistory| - 1;
        && chatHistory == result.messages
        && old(chatHistory) + [Human(userQuery)] < chatHistory
        && intermediateOutputs == old(intermediateOutputs) + result.intermediateOutputs
        && outputImagePaths.Keys == old(outputImagePaths).Keys + {key}
        && (forall k :: k in old(outputImagePaths) && k != key ==> outputImagePaths[k] == old(outputImagePaths)[k])
        && (forall p :: p in outputImagePaths[key] <==>
              p in result.outputImagePaths && p !in Baseline(old(outputImagePaths)))
    // every chunk's run started from the same history and ran on its own chunk
    ensures r == Ok(None) ==>
      forall j :: 0 <= j < |chunkResults| ==>
        && chunkResults[j].inputData == Chunks(inputData, ChunkSize(|inputData|))[j]
        && old(chatHistory) + [Human(userQuery)] < chunkResults[j].messages
    // a model that always calls tools exhausts the first chunk's step budget: the partial reply
    ensures AlwaysCallsTools(env) && |inputData| > 0 ==>
      r == Ok(Some(Reply(old(chatHistory) + [Human(userQuery)], [], [], true)))
    {
      if |inputData| == 0 {
        return Ok(Some(NoDataReply));
      }
      var baseline := Baseline(outputImagePaths);
      var baselineList := ListOfSet(baseline);
      var inputState := GraphState(chatHistory + [Human(userQuery)], inputData, None, baselineList, [], None, true, false);
      var chunks := Chunks(inputData, ChunkSize(|inputData|));
      ChunksBounded(inputData, ChunkSize(|inputData|));
      var outcome, results := RunChunks(inputState, chunks, env);
      if outcome != Ok(None) {
        return outcome;
      }
      var last := results[|results| - 1];
      assert inputState.messages < last.messages;
      chunkResults := results;
      RecordResult(last, baseline);
      assert chunkResults[|chunkResults| - 1] == last && chatHistory == last.messages;
      r := Ok(None);
    }

    /**
     * The loop over the chunks: each runs the graph from `inputState` with its
     * own chunk; a recursion error ends the query with the partial reply, any
     * other error propagates, and otherwise every chunk's result is kept (and
     * combined into a value nothing reads).
     */
    method RunChunks(inputState: GraphState, chunks: seq<seq<InputData>>, env: Env)
      returns (r: Result<Option<Reply>>, results: seq<GraphState>)
      requires |chunks| > 0
      modifies sandbox
      ensures r.Err? ==> !Contains(Lower(r.error), "recursion")
      ensures r.Ok? && r.value.Some? ==> r.value.value == Reply(inputState.messages, [], [], true)
      ensures r == Ok(None) ==>
        && |results| == |chunks|
        && forall j :: 0 <= j < |chunks| ==> results[j].inputData == chunks[j] && inputState.messages < results[j].messages
      ensures AlwaysCallsTools(env) ==> r == Ok(Some(Reply(inputState.messages, [], [], true)))
    {
      results := [];
      for i := 0 to |chunks|
        invariant |results| == i
        invariant forall j :: 0 <= j < i ==> results[j].inputData == chunks[j] && inputState.messages < results[j].messages
        invariant AlwaysCallsTools(env) ==> i == 0
      {
        var chunkState := inputState.(inputData := chunks[i], isLastChunk := chunks[i] == chunks[|chunks| - 1]);
        var outcome, _ := RunGraph(sandbox, chunkState, env);
        if AlwaysCallsTools(env) {
          RecursionErrorIsRecognised();
        }
        if outcome.Err? {
          if Contains(Lower(outcome.error), "recursion") {
            return Ok(Some(Reply(chunkState.messages, [], [], true))), results;
          }
          return Err(outcome.error), results;
        }
        results := results + [outcome.value];
      }
      var combined := Combine(results);
      r := Ok(None);
    }

    /** The session update after the last chunk: its messages become the history, its new images are attributed to its answer. */
    method RecordResult(result: GraphState, baseline: set<string>)
      requires Valid() && baseline == Baseline(outputImagePaths) && |result.messages| > 0
      modifies this
      ensures Valid()
      ensures chatHistory == result.messages
      ensures intermediateOutputs == old(intermediateOutputs) + result.intermediateOutputs
      ensures outputImagePaths.Keys == old(outputImagePaths).Keys + {|chatHistory| - 1}
      ensures forall k :: k in old(outputImagePaths) && k != |chatHistory| - 1 ==> outputImagePaths[k] == old(outputImagePaths)[k]
      ensures forall p :: p in outputImagePaths[|chatHistory| - 1] <==> p in result.outputImagePaths && p !in baseline
      ensures chunkResults == old(chunkResults)
    {
      chatHistory := result.messages;
      var newImages := ListOfSet(SetOf(result.outputImagePaths) - baseline);
      AttributionKeepsDisjoint(outputImagePaths, |chatHistory| - 1, newImages);
      outputImagePaths := outputImagePaths[|chatHistory| - 1 := newImages];
      intermediateOutputs := intermediateOutputs + result.intermediateOutputs;
    }
  }
}
