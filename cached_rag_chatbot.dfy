/** The cached retrieval chatbot: a question is answered from the semantic cache
    when the cache holds a close enough question, and otherwise by a run of the
    retrieval workflow (`RagGraph`), whose recursion fault is turned into a fixed
    degraded answer. `query` returns the answer; `query_stream` reports the same
    run as a sequence of events.

    The cache's nearest-neighbour search is not visible code: what
    `cache.check(question, num_results=1)` answers is a parameter (`Some` best
    match on a hit, `None` on a miss), and so is the document store's answer to
    `load_existing()`. */
module CachedRagChatbot {
  import opened Wrappers
  import opened Text
  import opened RagGraph

  /** The best match of a cache hit: the cached question and response and how
      close the cached question is. */
  datatype CacheMatch = CacheMatch(prompt: string, response: string, vectorDistance: real, cosineSimilarity: real)

  /** `cache_info` of a cache hit. */
  datatype CacheInfo = CacheInfo(matchedQuestion: string, distance: real, similarity: real)

  /** The dictionary `query` returns. */
  datatype QueryResult = QueryResult(answer: string, cacheHit: bool, cacheInfo: Option<CacheInfo>)

  /** The exceptions `query` and `query_stream` raise: `ValueError` when the graph
      is missing on a cache miss, and any exception of the run whose message
      does not mention recursion, re-raised. */
  datatype QueryError = GraphNotInitialized | Propagated(message: string)

  /** An event `query_stream` yields. A node update carries the messages that
      node returned. */
  datatype Event =
    | CacheHitEvent(answer: string, cacheInfo: CacheInfo)
    | CacheMissEvent
    | NodeUpdate(node: Node, messages: seq<Message>)
    | Complete(answer: string)
    | ErrorEvent(answer: string)

  /** What `query_stream` produces: the events it yields, then the exception it
      raises, if any. */
  datatype StreamOutcome = StreamOutcome(events: seq<Event>, raised: Option<QueryError>)

  /** `{"recursion_limit": 50}`. */
  const RecursionLimit: nat := 50

  /** The message of the `ValueError` raised on a cache miss without a graph. */
  const GraphNotInitializedMessage: string := "Graph not initialized. Load vectorstore first."

  /** `str(e)` for an exception `query` or `query_stream` raises. */
  function QueryErrorMessage(e: QueryError): (r: string)
  {
    match e
    case GraphNotInitialized => GraphNotInitializedMessage
    case Propagated(message) => message
  }

  /** The answer `query` gives when the run fails on recursion. */
  const DegradedAnswer: string :=
    "I encountered an error while searching for an answer. The question might be too complex or outside our "
    + "documentation scope. Please try:\n\U{2022} Rephrasing your question\n\U{2022} Asking about specific "
    + "TaskFlow features\n\U{2022} Breaking down complex questions"

  /** The answer of the `error` event `query_stream` yields when the run fails on
      recursion. */
  const StreamDegradedAnswer: string :=
    "I encountered an error while searching. Please try rephrasing your question or asking about specific TaskFlow features."

  /** `"recursion" in str(e).lower()`. */
  predicate IsRecursionError(message: string)
  {
    Contains(Lower(message), "recursion")
  }

  /** The runtime's recursion fault is recognised as one. */
  lemma RecursionFaultRecognised()
    ensures IsRecursionError(ErrorMessage(RecursionLimitReached))
  {
    var msg := ErrorMessage(RecursionLimitReached);
    assert msg[0] == 'R' && forall i :: 1 <= i < 9 ==> msg[i] == "Recursion"[i];
    assert Lower(msg)[0] == 'r';
    assert forall i :: 1 <= i < 9 ==> Lower(msg)[i] == msg[i];
    assert Lower(msg)[..9] == "recursion";
  }

  function InfoOf(best: CacheMatch): (r: CacheInfo)
  {
    CacheInfo(best.prompt, best.vectorDistance, best.cosineSimilarity)
  }

  /** `result["messages"][-1].content` for the last update `result` of a run. */
  function FinalAnswer(updates: seq<Update>): (r: string)
    requires updates != [] && Last(updates).messages != []
  {
    Last(Last(updates).messages).content
  }

  /** A run whose last update, if it finished, added a message: the answer
      `query` and `query_stream` read is there. */
  predicate Answerable(run: RunResult)
  {
    run.Finished? ==> run.updates != [] && Last(run.updates).messages != []
  }

  /** What `query` returns or raises once the graph has run on a cache miss. */
  function RunAnswer(run: RunResult): (r: Result<QueryResult, QueryError>)
    requires Answerable(run)
  {
    match run
    case Finished(updates, _, _) => Success(QueryResult(FinalAnswer(updates), false, None))
    case Raised(_, e) =>
      if IsRecursionError(ErrorMessage(e)) then Success(QueryResult(DegradedAnswer, false, None))
      else Failure(Propagated(ErrorMessage(e)))
  }

  /** What `query` returns or raises. */
  function QueryOutcome(lookup: Option<CacheMatch>, hasGraph: bool, maxRetries: int, m: Models, question: string):
    (r: Result<QueryResult, QueryError>)
  {
    if lookup.Some? then Success(QueryResult(lookup.value.response, true, Some(InfoOf(lookup.value))))
    else if !hasGraph then Failure(GraphNotInitialized)
    else
      RunSpec(m, maxRetries, RecursionLimit, question);
      RunAnswer(Run(m, maxRetries, RecursionLimit, question))
  }

  /** One `node_update` event per executed node, in order. */
  function NodeUpdates(updates: seq<Update>): (r: seq<Event>)
    ensures |r| == |updates|
    ensures forall i :: 0 <= i < |updates| ==> r[i] == NodeUpdate(updates[i].node, updates[i].messages)
  {
    seq(|updates|, i requires 0 <= i < |updates| => NodeUpdate(updates[i].node, updates[i].messages))
  }

  /** One more update adds its `node_update` event at the end. */
  lemma NodeUpdatesSnoc(updates: seq<Update>, u: Update)
    ensures NodeUpdates(updates + [u]) == NodeUpdates(updates) + [NodeUpdate(u.node, u.messages)]
  {
    assert forall i :: 0 <= i < |updates| + 1 ==>
      NodeUpdates(updates + [u])[i] == (NodeUpdates(updates) + [NodeUpdate(u.node, u.messages)])[i];
  }

  /** What `query_stream` yields and raises once the graph has run on a cache miss. */
  function RunEvents(run: RunResult): (r: StreamOutcome)
    requires Answerable(run)
  {
    match run
    case Finished(updates, _, _) =>
      StreamOutcome([CacheMissEvent] + NodeUpdates(updates) + [Complete(FinalAnswer(updates))], None)
    case Raised(updates, e) =>
      if IsRecursionError(ErrorMessage(e)) then
        StreamOutcome([CacheMissEvent] + NodeUpdates(updates) + [ErrorEvent(StreamDegradedAnswer)], None)
      else
        StreamOutcome([CacheMissEvent] + NodeUpdates(updates), Some(Propagated(ErrorMessage(e))))
  }

  /** What `query_stream` yields and raises. */
  function StreamOf(lookup: Option<CacheMatch>, hasGraph: bool, maxRetries: int, m: Models, question: string): (r: StreamOutcome)
  {
    if lookup.Some? then StreamOutcome([CacheHitEvent(lookup.value.response, InfoOf(lookup.value))], None)
    else if !hasGraph then StreamOutcome([CacheMissEvent], Some(GraphNotInitialized))
    else
      RunSpec(m, maxRetries, RecursionLimit, question);
      RunEvents(Run(m, maxRetries, RecursionLimit, question))
  }

  /** For a run on a cache miss, the stream agrees with `query`: it raises exactly
      when `query` raises, with the same exception, and yields `cache_miss`, one
      `node_update` per executed node, and then `complete` with the answer of
      `query` when the run reached END, or the `error` event when the run raised
      and `query` gives the degraded answer, or nothing more when both raise. */
  lemma RunEventsAgree(run: RunResult)
    requires Answerable(run)
    ensures var r, st := RunAnswer(run), RunEvents(run);
      && (r.Failure? <==> st.raised.Some?)
      && (r.Failure? ==> st.raised == Some(r.error))
      && st.events != [] && st.events[0] == CacheMissEvent
      && (run.Finished? ==> r.Success? && Last(st.events) == Complete(r.value.answer))
      && (run.Raised? && r.Success? ==> Last(st.events) == ErrorEvent(StreamDegradedAnswer) && r.value.answer == DegradedAnswer)
      && (r.Success? ==> (Last(st.events).ErrorEvent? <==> run.Raised?))
      && |st.events| == |run.updates| + (if r.Success? then 2 else 1)
      && st.events[1..1 + |run.updates|] == NodeUpdates(run.updates)
  {
    var ups := run.updates;
    assert ([CacheMissEvent] + NodeUpdates(ups))[1..1 + |ups|] == NodeUpdates(ups);
    assert ([CacheMissEvent] + NodeUpdates(ups) + [ErrorEvent(StreamDegradedAnswer)])[1..1 + |ups|] == NodeUpdates(ups);
    if run.Finished? {
      assert ([CacheMissEvent] + NodeUpdates(ups) + [Complete(FinalAnswer(ups))])[1..1 + |ups|] == NodeUpdates(ups);
    }
  }

  /** A cache hit answers with the cached response whatever the graph and the
      models, so it succeeds even without a graph; a miss without a graph raises. */
  lemma QueryCacheHit(best: CacheMatch, hasGraph: bool, maxRetries: int, m: Models, question: string)
    ensures QueryOutcome(Some(best), hasGraph, maxRetries, m, question)
      == QueryOutcome(Some(best), true, 0, m, question)
      == Success(QueryResult(best.response, true, Some(CacheInfo(best.prompt, best.vectorDistance, best.cosineSimilarity))))
    ensures QueryOutcome(None, false, maxRetries, m, question) == Failure(GraphNotInitialized)
    ensures QueryErrorMessage(QueryOutcome(None, false, maxRetries, m, question).error) == GraphNotInitializedMessage
  {
  }

  /** On a cache miss with a graph, `query` answers with no cache information: the
      content of the message of the last node, which is the model's direct
      answer, the generated answer or the fallback, when the run reaches END,
      and the degraded answer when the run raises an exception whose message
      mentions recursion: the runtime's recursion fault, or a node's exception
      with such a message. Any other exception is re-raised with its message,
      which therefore never mentions recursion. */
  lemma QueryCacheMiss(maxRetries: int, m: Models, question: string)
    ensures RunWell(question, maxRetries, RecursionLimit, Run(m, maxRetries, RecursionLimit, question))
    ensures var r := QueryOutcome(None, true, maxRetries, m, question);
      var run := Run(m, maxRetries, RecursionLimit, question);
      && (r.Success? ==> !r.value.cacheHit && r.value.cacheInfo == None)
      && (run.Finished? ==>
           (Last(run.updates).node in {GenerateQueryOrRespond, GenerateAnswer, GenerateFallback}
            && r == Success(QueryResult(Last(run.updates).messages[0].content, false, None))))
      && (run.Raised? && IsRecursionError(ErrorMessage(run.error)) ==> r == Success(QueryResult(DegradedAnswer, false, None)))
      && (run.Raised? && run.error == RecursionLimitReached ==> r == Success(QueryResult(DegradedAnswer, false, None)))
      && (run.Raised? && !IsRecursionError(ErrorMessage(run.error)) ==> r == Failure(Propagated(ErrorMessage(run.error))))
      && (r.Failure? ==> r.error.Propagated? && !IsRecursionError(QueryErrorMessage(r.error)))
  {
    RunSpec(m, maxRetries, RecursionLimit, question);
    RecursionFaultRecognised();
  }

  /** `query_stream` agrees with `query`: it raises exactly when `query` raises, with
      the same exception; on a hit it yields the one `cache_hit` event with the
      same answer; on a miss it yields `cache_miss`, one `node_update` per executed
      node, and then `complete` with the answer of `query` when the run reaches
      END, or the `error` event when the run raises and `query` gives the
      degraded answer, or nothing more when both raise. Without a graph both
      raise the "Graph not initialized" error after `cache_miss`. */
  lemma QueryStreamAgrees(lookup: Option<CacheMatch>, hasGraph: bool, maxRetries: int, m: Models, question: string)
    ensures var r := QueryOutcome(lookup, hasGraph, maxRetries, m, question);
      var st := StreamOf(lookup, hasGraph, maxRetries, m, question);
      && (r.Failure? <==> st.raised.Some?)
      && (r.Failure? ==> st.raised == Some(r.error))
      && (lookup.Some? ==> r.Success? && st.events == [CacheHitEvent(r.value.answer, r.value.cacheInfo.value)])
      && (lookup.None? ==> st.events != [] && st.events[0] == CacheMissEvent)
      && (lookup.None? && !hasGraph ==>
           st.events == [CacheMissEvent] && QueryErrorMessage(st.raised.value) == GraphNotInitializedMessage)
      && (lookup.None? && hasGraph && Run(m, maxRetries, RecursionLimit, question).Finished? ==>
           r.Success? && Last(st.events) == Complete(r.value.answer))
      && (lookup.None? && hasGraph && Run(m, maxRetries, RecursionLimit, question).Raised? && r.Success? ==>
           Last(st.events) == ErrorEvent(StreamDegradedAnswer) && r.value.answer == DegradedAnswer)
      && (lookup.None? && hasGraph && r.Success? ==>
           (Last(st.events).ErrorEvent? <==> Run(m, maxRetries, RecursionLimit, question).Raised?))
      && (lookup.None? && hasGraph ==>
           |st.events| == |Run(m, maxRetries, RecursionLimit, question).updates| + if r.Success? then 2 else 1)
      && (lookup.None? && hasGraph ==>
           st.events[1..1 + |Run(m, maxRetries, RecursionLimit, question).updates|]
             == NodeUpdates(Run(m, maxRetries, RecursionLimit, question).updates))
  {
    if lookup.None? && hasGraph {
      RunSpec(m, maxRetries, RecursionLimit, question);
      RunEventsAgree(Run(m, maxRetries, RecursionLimit, question));
    }
  }

  /** When the model always asks for retrieval and the grading model never says "yes",
      the recursion limit of 50 lets the run reach the fallback after
      `max_retries` rewrites exactly when `max_retries` is at most 15; from 16 on,
      `query` gives the degraded answer instead. */
  lemma StubbornQuery(maxRetries: int, m: Models, question: string)
    requires Stubborn(m)
    ensures RunWell(question, maxRetries, RecursionLimit, Run(m, maxRetries, RecursionLimit, question))
    ensures Bound(maxRetries) <= 15 ==>
      (Run(m, maxRetries, RecursionLimit, question).Finished?
       && CountNode(Run(m, maxRetries, RecursionLimit, question).updates, RewriteQuestion) == Bound(maxRetries)
       && Last(Run(m, maxRetries, RecursionLimit, question).updates).node == GenerateFallback
       && QueryOutcome(None, true, maxRetries, m, question)
          == Success(QueryResult(FinalAnswer(Run(m, maxRetries, RecursionLimit, question).updates), false, None)))
    ensures Bound(maxRetries) >= 16 ==>
      QueryOutcome(None, true, maxRetries, m, question) == Success(QueryResult(DegradedAnswer, false, None))
  {
    StubbornRun(m, maxRetries, RecursionLimit, question);
    RunSpec(m, maxRetries, RecursionLimit, question);
    RecursionFaultRecognised();
  }

  /** The chatbot: the retry budget, whether the graph has been set up, and the
      question/answer pairs added to the cache. */
  class CachedRAGChatbot {
    var maxRetries: int
    var hasGraph: bool
    var cachePairs: seq<(string, string)>

    /** The graph is not set up until the document store is loaded. */
    constructor (maxRetries: int)
      ensures this.maxRetries == maxRetries && !hasGraph && cachePairs == []
    {
      this.maxRetries := maxRetries;
      hasGraph := false;
      cachePairs := [];
    }

    /** `load_existing_vectorstore()`, given what the document store's
        `load_existing()` answered: the graph is set up exactly when it succeeded. */
    method LoadExistingVectorstore(loaded: bool) returns (success: bool)
      modifies this
      ensures success == loaded
      ensures hasGraph == (old(hasGraph) || loaded)
      ensures maxRetries == old(maxRetries) && cachePairs == old(cachePairs)
    {
      success := loaded;
      if success {
        hasGraph := true;
      }
    }

    /** `add_to_cache(question, answer)`. */
    method AddToCache(question: string, answer: string)
      modifies this
      ensures cachePairs == old(cachePairs) + [(question, answer)]
      ensures maxRetries == old(maxRetries) && hasGraph == old(hasGraph)
    {
      cachePairs := cachePairs + [(question, answer)];
    }

    /** `self.graph.stream(...)` with the recursion limit of 50: runs one node at a
        time, appending its messages and adding its retry increment, until END,
        an exception, or the recursion fault. */
    method RunGraph(m: Models, question: string) returns (r: RunResult)
      ensures r == Run(m, maxRetries, RecursionLimit, question)
    {
      var node := GenerateQueryOrRespond;
      var state := Initial(question);
      var updates: seq<Update> := [];
      var graderCalls: nat := 0;
      while true
        invariant state.messages != [] && |updates| <= RecursionLimit
        invariant Exec(m, maxRetries, RecursionLimit, node, state, updates, graderCalls)
          == Run(m, maxRetries, RecursionLimit, question)
        decreases RecursionLimit - |updates|
      {
        if |updates| >= RecursionLimit {
          return Raised(updates, RecursionLimitReached);
        }
        var step := Step(m, maxRetries, node, state, |updates|);
        if step.Failure? {
          return Raised(updates, NodeError(step.error));
        }
        var st := step.value;
        state := Apply(state, st.update);
        updates := updates + [st.update];
        if st.graded {
          graderCalls := graderCalls + 1;
        }
        if st.next.None? {
          return Finished(updates, state, graderCalls);
        }
        node := st.next.value;
      }
    }

    /** `query(question)`, given what the cache answered. */
    method Query(lookup: Option<CacheMatch>, m: Models, question: string) returns (r: Result<QueryResult, QueryError>)
      ensures r == QueryOutcome(lookup, hasGraph, maxRetries, m, question)
    {
      if lookup.Some? {
        var best := lookup.value;
        return Success(QueryResult(best.response, true, Some(InfoOf(best))));
      }
      if !hasGraph {
        return Failure(GraphNotInitialized);
      }
      var run := RunGraph(m, question);
      RunSpec(m, maxRetries, RecursionLimit, question);
      if run.Raised? {
        var message := ErrorMessage(run.error);
        if IsRecursionError(message) {
          return Success(QueryResult(DegradedAnswer, false, None));
        }
        return Failure(Propagated(message));
      }
      var result: Option<Update> := None;
      var i := 0;
      while i < |run.updates|
        invariant 0 <= i <= |run.updates|
        invariant result == if i == 0 then None else Some(run.updates[i - 1])
      {
        result := Some(run.updates[i]);
        i := i + 1;
      }
      var answer := Last(result.value.messages).content;
      return Success(QueryResult(answer, false, None));
    }

    /** `query_stream(question)`, given what the cache answered. */
    method QueryStream(lookup: Option<CacheMatch>, m: Models, question: string) returns (s: StreamOutcome)
      ensures s == StreamOf(lookup, hasGraph, maxRetries, m, question)
    {
      if lookup.Some? {
        var best := lookup.value;
        return StreamOutcome([CacheHitEvent(best.response, InfoOf(best))], None);
      }
      var events := [CacheMissEvent];
      if !hasGraph {
        return StreamOutcome(events, Some(GraphNotInitialized));
      }
      var run := RunGraph(m, question);
      RunSpec(m, maxRetries, RecursionLimit, question);
      var finalAnswer: Option<string> := None;
      var i := 0;
      while i < |run.updates|
        invariant 0 <= i <= |run.updates|
        invariant events == [CacheMissEvent] + NodeUpdates(run.updates[..i])
        invariant finalAnswer == if i == 0 then None else Some(Last(run.updates[i - 1].messages).content)
      {
        var update := run.updates[i];
        assert run.updates[..i + 1] == run.updates[..i] + [update];
        NodeUpdatesSnoc(run.updates[..i], update);
        events := events + [NodeUpdate(update.node, update.messages)];
        finalAnswer := Some(Last(update.messages).content);
        i := i + 1;
      }
      assert run.updates[..i] == run.updates;
      if run.Raised? {
        var message := ErrorMessage(run.error);
        if IsRecursionError(message) {
          return StreamOutcome(events + [ErrorEvent(StreamDegradedAnswer)], None);
        }
        return StreamOutcome(events, Some(Propagated(message)));
      }
      return StreamOutcome(events + [Complete(finalAnswer.value)], None);
    }
  }
}
