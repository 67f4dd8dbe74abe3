/** The retrieval workflow the chatbot runs on a cache miss: five nodes over a
    state made of the conversation's messages and a retry counter.

      generate_query_or_respond --tool call--> retrieve --grade--> generate_answer -> END
              |  ^                                  |       \-----> generate_fallback -> END
             END  \------- rewrite_question <-------/

    The model, the grading model and the retriever are not visible code: what they answer
    is given by a `Models` value, whose functions receive the step number (so that
    successive calls may answer differently) and exactly what the source passes to
    them. The LangGraph runtime is replaced by `Exec`, which runs one node per
    step and raises the recursion fault when a node is due after `limit` steps. */
module RagGraph {
  import opened Wrappers
  import opened Text

  /** A request from the model to run the retrieval tool on a query. */
  datatype ToolCall = ToolCall(query: string)

  /** A conversation message: the user's question or a rewritten question, a model
      response (which may request retrieval), or the retrieval tool's output. */
  datatype Message =
    | Human(content: string)
    | AI(content: string, toolCalls: seq<ToolCall>)
    | ToolResult(content: string)

  /** The five nodes of the workflow. */
  datatype Node = GenerateQueryOrRespond | Retrieve | RewriteQuestion | GenerateAnswer | GenerateFallback

  /** `ExtendedState`: the messages and `retry_count`. */
  datatype State = State(messages: seq<Message>, retryCount: int)

  /** What a node execution returns: the messages it adds and the amount it adds to
      `retry_count` (0 for the nodes that return no `retry_count`). */
  datatype Update = Update(node: Node, messages: seq<Message>, retryDelta: int)

  /** The external calls, answered per step: the response model bound to the
      retrieval tool (text and tool calls), the retriever (the page contents it
      finds for a query), the grading model (the binary score for a question and a
      context), and the response model on the rewrite, answer and fallback
      prompts. A `Failure` is an exception raised by the call, with its message. */
  datatype Models = Models(
    respond: (nat, seq<Message>) -> Result<(string, seq<ToolCall>), string>,
    retrieve: (nat, string) -> seq<string>,
    grade: (nat, string, string) -> Result<string, string>,
    rewrite: (nat, string) -> Result<string, string>,
    answer: (nat, string, string) -> Result<string, string>,
    fallback: (nat, string) -> Result<string, string>)

  function Last<T>(s: seq<T>): (r: T)
    requires s != []
  {
    s[|s| - 1]
  }

  /** The reducers of `ExtendedState`: the node's messages are appended, and its
      `retry_count` is added (`operator.add`). */
  function Apply(s: State, u: Update): (r: State)
  {
    State(s.messages + u.messages, s.retryCount + u.retryDelta)
  }

  /** The state a run starts from: the question as the one user message, and a
      retry counter of 0. */
  function Initial(question: string): (r: State)
  {
    State([Human(question)], 0)
  }

  /** The edges of the graph: `from` may be followed by `to` (`None` is END). */
  predicate Edge(from: Node, to: Option<Node>)
  {
    match from
    case GenerateQueryOrRespond => to == None || to == Some(Retrieve)
    case Retrieve => to == Some(GenerateAnswer) || to == Some(RewriteQuestion) || to == Some(GenerateFallback)
    case RewriteQuestion => to == Some(GenerateQueryOrRespond)
    case GenerateAnswer => to == None
    case GenerateFallback => to == None
  }

  /** `tools_condition`: to the retrieval node when the model's response requests a
      tool call, to END otherwise. */
  function ToolsCondition(msg: Message): (r: Option<Node>)
    ensures r == Some(Retrieve) <==> msg.AI? && msg.toolCalls != []
    ensures r == None <==> !(msg.AI? && msg.toolCalls != [])
  {
    if msg.AI? && msg.toolCalls != [] then Some(Retrieve) else None
  }

  /** The retrieval tool: the contents of the pages found, separated by blank lines. */
  function RetrieveDocuments(m: Models, k: nat, query: string): (r: string)
    ensures |r| == TotalLength(m.retrieve(k, query))
      + if m.retrieve(k, query) == [] then 0 else 2 * (|m.retrieve(k, query)| - 1)
    ensures |m.retrieve(k, query)| == 1 ==> r == m.retrieve(k, query)[0]
  {
    JoinLength("\n\n", m.retrieve(k, query));
    Join("\n\n", m.retrieve(k, query))
  }

  /** The retrieval node's tool messages: one per tool call, in order. */
  function RetrieveResults(m: Models, k: nat, calls: seq<ToolCall>): (r: seq<Message>)
    ensures |r| == |calls|
    ensures forall i :: 0 <= i < |calls| ==> r[i] == ToolResult(RetrieveDocuments(m, k, calls[i].query))
  {
    seq(|calls|, i requires 0 <= i < |calls| => ToolResult(RetrieveDocuments(m, k, calls[i].query)))
  }

  /** The message of the exception the retrieval node raises when the last message
      is not a model response. */
  const NoAIMessage: string := "No AIMessage found in input"

  /** `grade_documents`: the router after retrieval. At or above the retry budget
      it routes to the fallback and does not call the grading model; otherwise the grading model scores
      the context (the last message) against the question (the first message),
      and "yes" routes to the answer, any other score to the rewrite. */
  function GradeDocuments(m: Models, maxRetries: int, s: State, k: nat): (r: Result<Node, string>)
    requires s.messages != []
    ensures r == Success(GenerateFallback) <==> s.retryCount >= maxRetries
    ensures r == Success(GenerateAnswer) <==>
      s.retryCount < maxRetries && m.grade(k, s.messages[0].content, Last(s.messages).content) == Success("yes")
    ensures r == Success(RewriteQuestion) <==>
      (s.retryCount < maxRetries && m.grade(k, s.messages[0].content, Last(s.messages).content).Success?
       && m.grade(k, s.messages[0].content, Last(s.messages).content).value != "yes")
    ensures r.Failure? <==>
      s.retryCount < maxRetries && m.grade(k, s.messages[0].content, Last(s.messages).content).Failure?
    ensures r.Failure? ==> r.error == m.grade(k, s.messages[0].content, Last(s.messages).content).error
  {
    if s.retryCount >= maxRetries then Success(GenerateFallback)
    else
      match m.grade(k, s.messages[0].content, Last(s.messages).content)
      case Failure(e) => Failure(e)
      case Success(score) => if score == "yes" then Success(GenerateAnswer) else Success(RewriteQuestion)
  }

  /** At the retry budget the router's answer does not depend on the grading model. */
  lemma GradeSkipsGraderAtLimit(m1: Models, m2: Models, maxRetries: int, s: State, k: nat)
    requires s.messages != [] && s.retryCount >= maxRetries
    ensures GradeDocuments(m1, maxRetries, s, k) == GradeDocuments(m2, maxRetries, s, k) == Success(GenerateFallback)
  {
  }

  /** The router reads only the retry counter, the first message and the last one. */
  lemma GradeReadsFirstAndLast(m: Models, maxRetries: int, s1: State, s2: State, k: nat)
    requires s1.messages != [] && s2.messages != []
    requires s1.retryCount == s2.retryCount
    requires s1.messages[0].content == s2.messages[0].content
    requires Last(s1.messages).content == Last(s2.messages).content
    ensures GradeDocuments(m, maxRetries, s1, k) == GradeDocuments(m, maxRetries, s2, k)
  {
  }

  /** What one node execution produces: its update, the next node chosen by the
      edges leaving it (`None` is END), and whether the grading model was called. */
  datatype StepResult = StepResult(update: Update, next: Option<Node>, graded: bool)

  /** What every completed execution of `node` from state `s` satisfies. The update
      is tagged with the node and only `rewrite_question` adds 1 to the counter;
      the successor is one the edges allow. Every node but `retrieve` returns one
      message and calls no grader: a model message from `generate_query_or_respond`,
      which leads to `retrieve` exactly when it made tool calls, and a user message
      from `rewrite_question`. `retrieve` answers each tool call of the last
      message, a model message, and is graded exactly when it does not fall back,
      which it does exactly at the retry budget. */
  predicate StepShape(maxRetries: int, node: Node, s: State, st: StepResult)
    requires s.messages != []
  {
    && st.update.node == node && Edge(node, st.next)
    && st.update.retryDelta == (if node == RewriteQuestion then 1 else 0)
    && (node != Retrieve ==> |st.update.messages| == 1 && !st.graded)
    && (node == GenerateQueryOrRespond ==>
         |st.update.messages| == 1 && st.update.messages[0].AI?
         && (st.next == Some(Retrieve) <==> st.update.messages[0].toolCalls != []))
    && (node == RewriteQuestion ==> |st.update.messages| == 1 && st.update.messages[0].Human?)
    && (node == Retrieve ==>
         Last(s.messages).AI? && |st.update.messages| == |Last(s.messages).toolCalls|
         && (st.graded <==> st.next != Some(GenerateFallback))
         && (st.next == Some(GenerateFallback) <==> s.retryCount >= maxRetries))
  }

  /** One node execution at step `k`, with the edge taken after it. The model
      answers the whole conversation; the rewrite and the fallback see only the
      first message; the answer sees the first and the last. */
  function Step(m: Models, maxRetries: int, node: Node, s: State, k: nat): (r: Result<StepResult, string>)
    requires s.messages != []
    ensures r.Success? ==> StepShape(maxRetries, node, s, r.value)
    ensures node == GenerateFallback ==> (r.Success? <==> m.fallback(k, s.messages[0].content).Success?)
  {
    match node
    case GenerateQueryOrRespond =>
      (match m.respond(k, s.messages)
       case Failure(e) => Failure(e)
       case Success(resp) =>
         var msg := AI(resp.0, resp.1);
         Success(StepResult(Update(node, [msg], 0), ToolsCondition(msg), false)))
    case Retrieve =>
      var last := Last(s.messages);
      if !last.AI? then Failure(NoAIMessage)
      else
        var u := Update(Retrieve, RetrieveResults(m, k, last.toolCalls), 0);
        (match GradeDocuments(m, maxRetries, Apply(s, u), k)
         case Failure(e) => Failure(e)
         case Success(next) => Success(StepResult(u, Some(next), next != GenerateFallback)))
    case RewriteQuestion =>
      (match m.rewrite(k, s.messages[0].content)
       case Failure(e) => Failure(e)
       case Success(text) => Success(StepResult(Update(node, [Human(text)], 1), Some(GenerateQueryOrRespond), false)))
    case GenerateAnswer =>
      (match m.answer(k, s.messages[0].content, Last(s.messages).content)
       case Failure(e) => Failure(e)
       case Success(text) => Success(StepResult(Update(node, [AI(text, [])], 0), None, false)))
    case GenerateFallback =>
      (match m.fallback(k, s.messages[0].content)
       case Failure(e) => Failure(e)
       case Success(text) => Success(StepResult(Update(node, [AI(text, [])], 0), None, false)))
  }

  /** What each node other than the retrieval node returns, and what its model
      call receives. `generate_query_or_respond` returns the model's response to
      the whole conversation, with its tool calls; `rewrite_question` returns the
      rewritten question as a user message, from the first message only;
      `generate_answer` returns the model's answer to the first message (the
      question) and the last one (the context); `generate_fallback` returns the
      model's answer to the first message only. A node fails exactly when its
      model call raises, and with that call's message. */
  lemma NodeReplies(m: Models, maxRetries: int, node: Node, s: State, k: nat)
    requires s.messages != []
    ensures var r := Step(m, maxRetries, node, s, k);
      var resp := m.respond(k, s.messages);
      && (node == GenerateQueryOrRespond ==>
           (r.Success? <==> resp.Success?)
           && (r.Success? ==> r.value.update.messages == [AI(resp.value.0, resp.value.1)])
           && (r.Failure? ==> r.error == resp.error))
    ensures var r := Step(m, maxRetries, node, s, k);
      var text := m.rewrite(k, s.messages[0].content);
      && (node == RewriteQuestion ==>
           (r.Success? <==> text.Success?)
           && (r.Success? ==> r.value.update.messages == [Human(text.value)])
           && (r.Failure? ==> r.error == text.error))
    ensures var r := Step(m, maxRetries, node, s, k);
      var text := m.answer(k, s.messages[0].content, Last(s.messages).content);
      && (node == GenerateAnswer ==>
           (r.Success? <==> text.Success?)
           && (r.Success? ==> r.value.update.messages == [AI(text.value, [])])
           && (r.Failure? ==> r.error == text.error))
    ensures var r := Step(m, maxRetries, node, s, k);
      var text := m.fallback(k, s.messages[0].content);
      && (node == GenerateFallback ==>
           (r.Success? <==> text.Success?)
           && (r.Success? ==> r.value.update.messages == [AI(text.value, [])])
           && (r.Failure? ==> r.error == text.error))
  {
  }

  /** The rewrite and the fallback read only the first message, and the answer
      only the first and the last: states that agree there give the same node
      execution, whatever the retry counter and the messages in between. */
  lemma NodeReadsFirstAndLast(m: Models, maxRetries: int, node: Node, s1: State, s2: State, k: nat)
    requires s1.messages != [] && s2.messages != []
    requires node == RewriteQuestion || node == GenerateAnswer || node == GenerateFallback
    requires s1.messages[0].content == s2.messages[0].content
    requires node == GenerateAnswer ==> Last(s1.messages).content == Last(s2.messages).content
    ensures Step(m, maxRetries, node, s1, k) == Step(m, maxRetries, node, s2, k)
  {
  }

  /** Why a run stopped with an exception: the recursion fault of the runtime, or
      an exception raised inside a node, with its message. */
  datatype RunError = RecursionLimitReached | NodeError(message: string)

  /** A run either reaches END, with the updates of the nodes it executed, the final
      state and the number of grader calls, or raises after the updates of the
      nodes that completed. */
  datatype RunResult =
    | Finished(updates: seq<Update>, final: State, graderCalls: nat)
    | Raised(updates: seq<Update>, error: RunError)

  /** The text of the recursion fault. */
  const RecursionLimitMessage: string := "Recursion" + " limit reached without hitting a stop condition"

  /** The message of the exception a run raises; the recursion fault's starts with
      "Recursion". */
  function ErrorMessage(e: RunError): (msg: string)
    ensures e.RecursionLimitReached? ==> |msg| >= 9 && msg[..9] == "Recursion"
    ensures e.NodeError? ==> msg == e.message
  {
    match e
    case RecursionLimitReached => RecursionLimitMessage
    case NodeError(msg) => msg
  }

  /** The runtime from node `node` on, after the nodes of `updates` have run: a
      node runs only while fewer than `limit` nodes have run. */
  function Exec(m: Models, maxRetries: int, limit: nat, node: Node, s: State, updates: seq<Update>, graderCalls: nat): (r: RunResult)
    requires s.messages != []
    decreases limit - |updates|
  {
    if |updates| >= limit then Raised(updates, RecursionLimitReached)
    else
      match Step(m, maxRetries, node, s, |updates|)
      case Failure(e) => Raised(updates, NodeError(e))
      case Success(st) =>
        var next := Apply(s, st.update);
        var ups := updates + [st.update];
        var calls := graderCalls + if st.graded then 1 else 0;
        match st.next
        case None => Finished(ups, next, calls)
        case Some(n) => Exec(m, maxRetries, limit, n, next, ups, calls)
  }

  /** `graph.stream({"messages": [question], "retry_count": 0})`. */
  function Run(m: Models, maxRetries: int, limit: nat, question: string): (r: RunResult)
  {
    Exec(m, maxRetries, limit, GenerateQueryOrRespond, Initial(question), [], 0)
  }

  /** Number of executions of node `n` among `updates`. */
  function CountNode(updates: seq<Update>, n: Node): (r: nat)
  {
    if updates == [] then 0
    else CountNode(updates[..|updates| - 1], n) + if Last(updates).node == n then 1 else 0
  }

  /** The messages the updates add, in order. */
  function AllMessages(updates: seq<Update>): (r: seq<Message>)
  {
    if updates == [] then [] else AllMessages(updates[..|updates| - 1]) + Last(updates).messages
  }

  /** The updates start at the entry node and each node is followed along an edge. */
  predicate FollowsEdges(updates: seq<Update>)
  {
    && (updates != [] ==> updates[0].node == GenerateQueryOrRespond)
    && forall i :: 0 <= i < |updates| - 1 ==> Edge(updates[i].node, Some(updates[i + 1].node))
  }

  /** The number of rewrites a run can make: `max_retries`, or none when it is negative. */
  function Bound(maxRetries: int): (r: nat)
  {
    if maxRetries > 0 then maxRetries else 0
  }

  /** The position of a node within a round generate -> retrieve -> rewrite/answer/fallback. */
  function Phase(n: Node): (r: nat)
  {
    match n
    case GenerateQueryOrRespond => 0
    case Retrieve => 1
    case _ => 2
  }

  /** Every node execution added at least one message. */
  predicate NonEmptyUpdates(updates: seq<Update>)
  {
    forall i :: 0 <= i < |updates| ==> updates[i].messages != []
  }

  /** What holds whenever node `node` is about to run in a run for `question`. */
  predicate Reachable(question: string, maxRetries: int, node: Node, s: State, updates: seq<Update>, graderCalls: nat)
  {
    && s.messages == [Human(question)] + AllMessages(updates)
    && s.retryCount == CountNode(updates, RewriteQuestion) <= Bound(maxRetries)
    && (node == RewriteQuestion ==> s.retryCount < maxRetries)
    && FollowsEdges(updates)
    && (if updates == [] then node == GenerateQueryOrRespond else Edge(Last(updates).node, Some(node)))
    && |updates| <= 3 * s.retryCount + Phase(node)
    && CountNode(updates, GenerateAnswer) == 0
    && NonEmptyUpdates(updates)
    && (node == Retrieve ==> Last(s.messages).AI? && Last(s.messages).toolCalls != [])
    && graderCalls == CountNode(updates, RewriteQuestion) + if node == RewriteQuestion || node == GenerateAnswer then 1 else 0
  }

  /** What holds of a run that reached END: the state's messages are the question
      followed by what the nodes added (so the question stays first), the retry
      counter is the number of rewrites and is within the budget, the nodes
      followed the edges, each added a message, the last one leads to END with
      one message, there
      are at most three nodes per rewrite plus three, and the grading model was called
      once per rewrite and once per answer. */
  predicate FinishedWell(question: string, maxRetries: int, updates: seq<Update>, final: State, graderCalls: nat)
  {
    && updates != []
    && final.messages == [Human(question)] + AllMessages(updates)
    && final.retryCount == CountNode(updates, RewriteQuestion) <= Bound(maxRetries)
    && FollowsEdges(updates) && Edge(Last(updates).node, None)
    && |Last(updates).messages| == 1 && NonEmptyUpdates(updates)
    && |updates| <= 3 * final.retryCount + 3
    && graderCalls == CountNode(updates, RewriteQuestion) + CountNode(updates, GenerateAnswer)
  }

  /** What holds of a run that raised: the nodes followed the edges within the
      retry budget, each added a message, and the recursion fault comes only after exactly `limit`
      nodes, which is possible only for a limit below `3 * budget + 3`. */
  predicate RaisedWell(maxRetries: int, limit: nat, updates: seq<Update>, error: RunError)
  {
    && FollowsEdges(updates)
    && CountNode(updates, RewriteQuestion) <= Bound(maxRetries)
    && |updates| <= limit && NonEmptyUpdates(updates)
    && (error == RecursionLimitReached ==> |updates| == limit <= 3 * Bound(maxRetries) + 2)
  }

  lemma Snoc<T>(s: seq<T>, x: T)
    ensures (s + [x])[..|s|] == s && Last(s + [x]) == x
  {
  }

  /** What appending one update does to the derived views of a run. */
  lemma AppendUpdate(updates: seq<Update>, u: Update)
    ensures Last(updates + [u]) == u
    ensures AllMessages(updates + [u]) == AllMessages(updates) + u.messages
    ensures forall n :: CountNode(updates + [u], n) == CountNode(updates, n) + if u.node == n then 1 else 0
    ensures FollowsEdges(updates) && (if updates == [] then u.node == GenerateQueryOrRespond
                                      else Edge(Last(updates).node, Some(u.node)))
      ==> FollowsEdges(updates + [u])
    ensures NonEmptyUpdates(updates) && u.messages != [] ==> NonEmptyUpdates(updates + [u])
  {
    var ups := updates + [u];
    Snoc(updates, u);
    assert forall i :: 0 <= i < |updates| ==> ups[i] == updates[i];
    if FollowsEdges(updates) && (if updates == [] then u.node == GenerateQueryOrRespond
                                 else Edge(Last(updates).node, Some(u.node))) {
      forall i | 0 <= i < |ups| - 1 ensures Edge(ups[i].node, Some(ups[i + 1].node)) {
        if i < |updates| - 1 {
          assert ups[i] == updates[i] && ups[i + 1] == updates[i + 1];
        }
      }
    }
  }

  /** A node execution with a successor keeps `Reachable`. */
  lemma StepKeeps(maxRetries: int, question: string, node: Node, s: State, updates: seq<Update>,
                  graderCalls: nat, st: StepResult)
    requires Reachable(question, maxRetries, node, s, updates, graderCalls)
    requires StepShape(maxRetries, node, s, st) && st.next.Some?
    ensures Reachable(question, maxRetries, st.next.value, Apply(s, st.update),
      updates + [st.update], graderCalls + if st.graded then 1 else 0)
  {
    StepKeepsProof(maxRetries, question, node, s, updates, graderCalls, st);
  }

  /** The proof of `StepKeeps`, given its two premises as single facts (written
      `P == true`, which the verifier keeps whole rather than splitting into
      conjuncts). */
  lemma StepKeepsProof(maxRetries: int, question: string, node: Node, s: State, updates: seq<Update>,
                       graderCalls: nat, st: StepResult)
    requires Reachable(question, maxRetries, node, s, updates, graderCalls) == true
    requires StepShape(maxRetries, node, s, st) == true && st.next.Some?
    ensures Reachable(question, maxRetries, st.next.value, Apply(s, st.update),
      updates + [st.update], graderCalls + if st.graded then 1 else 0)
  {
    var u, ups := st.update, updates + [st.update];
    AppendUpdate(updates, u);
    assert CountNode(ups, RewriteQuestion) == s.retryCount + u.retryDelta;
    assert CountNode(ups, GenerateAnswer) == 0;
    assert Apply(s, u).messages == [Human(question)] + AllMessages(ups);
    assert FollowsEdges(ups) && NonEmptyUpdates(ups);
    assert |ups| <= 3 * Apply(s, u).retryCount + Phase(st.next.value);
  }

  /** A node execution that leads to END ends the run with `FinishedWell`. */
  lemma StepEnds(maxRetries: int, question: string, node: Node, s: State, updates: seq<Update>,
                 graderCalls: nat, st: StepResult)
    requires Reachable(question, maxRetries, node, s, updates, graderCalls)
    requires StepShape(maxRetries, node, s, st) && st.next.None?
    ensures FinishedWell(question, maxRetries, updates + [st.update], Apply(s, st.update),
      graderCalls + if st.graded then 1 else 0)
  {
    AppendUpdate(updates, st.update);
  }

  /** A run result that is `FinishedWell` when it reached END and `RaisedWell` when
      it raised. */
  predicate RunWell(question: string, maxRetries: int, limit: nat, r: RunResult)
  {
    && (r.Finished? ==> FinishedWell(question, maxRetries, r.updates, r.final, r.graderCalls))
    && (r.Raised? ==> RaisedWell(maxRetries, limit, r.updates, r.error))
  }

  /** A run that raises at a reachable point raises well. */
  lemma ReachableRaises(question: string, maxRetries: int, limit: nat, node: Node, s: State, updates: seq<Update>,
                        graderCalls: nat, e: RunError)
    requires Reachable(question, maxRetries, node, s, updates, graderCalls) && |updates| <= limit
    requires e == RecursionLimitReached ==> |updates| == limit
    ensures RunWell(question, maxRetries, limit, Raised(updates, e))
  {
  }

  /** The runtime after a node with a successor is the runtime from that successor. */
  lemma ExecUnfoldNext(m: Models, maxRetries: int, limit: nat, node: Node, s: State, updates: seq<Update>,
                       graderCalls: nat, st: StepResult)
    requires s.messages != [] && |updates| < limit
    requires Step(m, maxRetries, node, s, |updates|) == Success(st) && st.next.Some?
    ensures Exec(m, maxRetries, limit, node, s, updates, graderCalls)
      == Exec(m, maxRetries, limit, st.next.value, Apply(s, st.update), updates + [st.update],
              graderCalls + if st.graded then 1 else 0)
  {
  }

  /** The runtime after a node that leads to END is finished. */
  lemma ExecUnfoldEnd(m: Models, maxRetries: int, limit: nat, node: Node, s: State, updates: seq<Update>,
                      graderCalls: nat, st: StepResult)
    requires s.messages != [] && |updates| < limit
    requires Step(m, maxRetries, node, s, |updates|) == Success(st) && st.next.None?
    ensures Exec(m, maxRetries, limit, node, s, updates, graderCalls)
      == Finished(updates + [st.update], Apply(s, st.update), graderCalls + if st.graded then 1 else 0)
  {
  }

  /** A node with a successor, run from a reachable point, moves the run on to a
      reachable point, one node later. */
  lemma ExecMovesOn(m: Models, maxRetries: int, limit: nat, question: string, node: Node, s: State,
                    updates: seq<Update>, graderCalls: nat, st: StepResult)
    requires Reachable(question, maxRetries, node, s, updates, graderCalls) && |updates| < limit
    requires Step(m, maxRetries, node, s, |updates|) == Success(st) && st.next.Some?
    ensures Reachable(question, maxRetries, st.next.value, Apply(s, st.update),
      updates + [st.update], graderCalls + if st.graded then 1 else 0)
    ensures Exec(m, maxRetries, limit, node, s, updates, graderCalls)
      == Exec(m, maxRetries, limit, st.next.value, Apply(s, st.update), updates + [st.update],
              graderCalls + if st.graded then 1 else 0)
  {
    StepKeeps(maxRetries, question, node, s, updates, graderCalls, st);
    ExecUnfoldNext(m, maxRetries, limit, node, s, updates, graderCalls, st);
  }

  /** A node that leads to END from a reachable point ends the run well. */
  lemma ExecFinishes(m: Models, maxRetries: int, limit: nat, question: string, node: Node, s: State,
                     updates: seq<Update>, graderCalls: nat, st: StepResult)
    requires Reachable(question, maxRetries, node, s, updates, graderCalls) && |updates| < limit
    requires Step(m, maxRetries, node, s, |updates|) == Success(st) && st.next.None?
    ensures RunWell(question, maxRetries, limit, Exec(m, maxRetries, limit, node, s, updates, graderCalls))
  {
    StepEnds(maxRetries, question, node, s, updates, graderCalls, st);
    ExecUnfoldEnd(m, maxRetries, limit, node, s, updates, graderCalls, st);
  }

  /** The runtime raises `RecursionLimitReached` once the limit is used up. */
  lemma ExecUnfoldLimit(m: Models, maxRetries: int, limit: nat, node: Node, s: State, updates: seq<Update>,
                        graderCalls: nat)
    requires s.messages != [] && |updates| >= limit
    ensures Exec(m, maxRetries, limit, node, s, updates, graderCalls) == Raised(updates, RecursionLimitReached)
  {
  }

  /** The runtime raises the error of a node that fails. */
  lemma ExecUnfoldFailure(m: Models, maxRetries: int, limit: nat, node: Node, s: State, updates: seq<Update>,
                          graderCalls: nat)
    requires s.messages != [] && |updates| < limit
    requires Step(m, maxRetries, node, s, |updates|).Failure?
    ensures Exec(m, maxRetries, limit, node, s, updates, graderCalls)
      == Raised(updates, NodeError(Step(m, maxRetries, node, s, |updates|).error))
  {
  }

  /** A run that stops at a reachable point, at the limit or on a failing node,
      raises well. */
  lemma ExecRaisesWell(m: Models, maxRetries: int, limit: nat, question: string, node: Node, s: State,
                       updates: seq<Update>, graderCalls: nat)
    requires Reachable(question, maxRetries, node, s, updates, graderCalls) && |updates| <= limit
    requires |updates| == limit || Step(m, maxRetries, node, s, |updates|).Failure?
    ensures RunWell(question, maxRetries, limit, Exec(m, maxRetries, limit, node, s, updates, graderCalls))
  {
    if |updates| == limit {
      ExecUnfoldLimit(m, maxRetries, limit, node, s, updates, graderCalls);
      ReachableRaises(question, maxRetries, limit, node, s, updates, graderCalls, RecursionLimitReached);
    } else {
      ExecUnfoldFailure(m, maxRetries, limit, node, s, updates, graderCalls);
      var e := NodeError(Step(m, maxRetries, node, s, |updates|).error);
      ReachableRaises(question, maxRetries, limit, node, s, updates, graderCalls, e);
    }
  }

  /** Every run from a reachable point ends in `FinishedWell` or `RaisedWell`. */
  lemma {:induction false} ExecSpec(m: Models, maxRetries: int, limit: nat, question: string, node: Node, s: State,
                                    updates: seq<Update>, graderCalls: nat)
    requires Reachable(question, maxRetries, node, s, updates, graderCalls) && |updates| <= limit
    ensures RunWell(question, maxRetries, limit, Exec(m, maxRetries, limit, node, s, updates, graderCalls))
    decreases limit - |updates|
  {
    if |updates| == limit || Step(m, maxRetries, node, s, |updates|).Failure? {
      ExecRaisesWell(m, maxRetries, limit, question, node, s, updates, graderCalls);
    } else {
      var st := Step(m, maxRetries, node, s, |updates|).value;
      if st.next.Some? {
        ExecMovesOn(m, maxRetries, limit, question, node, s, updates, graderCalls, st);
        ExecSpec(m, maxRetries, limit, question, st.next.value, Apply(s, st.update), updates + [st.update],
                 graderCalls + if st.graded then 1 else 0);
      } else {
        ExecFinishes(m, maxRetries, limit, question, node, s, updates, graderCalls, st);
      }
    }
  }

  /** A run for `question` keeps the question as its first message, makes at
      most `max_retries` rewrites, follows the edges, executes at most
      `3 * max_retries + 3` nodes, and hits the recursion fault only when the
      limit is below that. */
  lemma RunSpec(m: Models, maxRetries: int, limit: nat, question: string)
    ensures RunWell(question, maxRetries, limit, Run(m, maxRetries, limit, question))
  {
    assert Initial(question).messages == [Human(question)] + AllMessages([]);
    ExecSpec(m, maxRetries, limit, question, GenerateQueryOrRespond, Initial(question), [], 0);
  }

  /** A limit of at least `3 * max_retries + 3` never trips the recursion fault. */
  lemma RunWithinLimit(m: Models, maxRetries: int, limit: nat, question: string)
    requires limit >= 3 * Bound(maxRetries) + 3
    ensures Run(m, maxRetries, limit, question).Raised? ==> Run(m, maxRetries, limit, question).error.NodeError?
  {
    RunSpec(m, maxRetries, limit, question);
  }

  /** The model always asks for retrieval, the grading model never says "yes", and no call
      raises. */
  ghost predicate Stubborn(m: Models)
  {
    && (forall k, msgs :: m.respond(k, msgs).Success? && m.respond(k, msgs).value.1 != [])
    && (forall k, q, c :: m.grade(k, q, c).Success? && m.grade(k, q, c).value != "yes")
    && (forall k, q :: m.rewrite(k, q).Success?)
    && (forall k, q :: m.fallback(k, q).Success?)
  }

  /** The outcome of a stubborn run: with a limit of at least `3 * budget + 3`, the
      fallback after exactly `budget` rewrites and grader calls and `3 * budget + 3`
      nodes; with a smaller limit, the recursion fault after `limit` nodes. */
  predicate StubbornOutcome(maxRetries: int, limit: nat, res: RunResult)
  {
    && (limit >= 3 * Bound(maxRetries) + 3 ==>
         (res.Finished? && |res.updates| == 3 * Bound(maxRetries) + 3 && res.graderCalls == Bound(maxRetries)
          && CountNode(res.updates, RewriteQuestion) == Bound(maxRetries) && res.final.retryCount == Bound(maxRetries)
          && Last(res.updates).node == GenerateFallback))
    && (limit < 3 * Bound(maxRetries) + 3 ==>
         res.Raised? && res.error == RecursionLimitReached && |res.updates| == limit)
  }

  /** A stubborn run at the entry node after `r` rewrites. */
  lemma {:induction false} StubbornGenerate(m: Models, maxRetries: int, limit: nat, s: State, updates: seq<Update>, r: nat)
    requires Stubborn(m) && s.messages != []
    requires r <= Bound(maxRetries) && s.retryCount == r && |updates| == 3 * r <= limit
    requires CountNode(updates, RewriteQuestion) == r
    ensures StubbornOutcome(maxRetries, limit, Exec(m, maxRetries, limit, GenerateQueryOrRespond, s, updates, r))
    decreases Bound(maxRetries) - r, 2
  {
    if |updates| < limit {
      var st := Step(m, maxRetries, GenerateQueryOrRespond, s, |updates|).value;
      var next := Apply(s, st.update);
      Snoc(updates, st.update);
      assert Last(next.messages) == st.update.messages[0];
      assert Exec(m, maxRetries, limit, GenerateQueryOrRespond, s, updates, r)
        == Exec(m, maxRetries, limit, Retrieve, next, updates + [st.update], r);
      StubbornRetrieve(m, maxRetries, limit, next, updates + [st.update], r);
    }
  }

  /** At the retrieval node a stubborn model is graded "no": a rewrite while the
      budget lasts, the fallback once it is spent. */
  lemma StubbornGrades(m: Models, maxRetries: int, s: State, k: nat)
    requires Stubborn(m) && s.messages != [] && Last(s.messages).AI?
    ensures Step(m, maxRetries, Retrieve, s, k).Success?
    ensures s.retryCount < maxRetries ==>
      Step(m, maxRetries, Retrieve, s, k).value.next == Some(RewriteQuestion) && Step(m, maxRetries, Retrieve, s, k).value.graded
    ensures s.retryCount >= maxRetries ==>
      Step(m, maxRetries, Retrieve, s, k).value.next == Some(GenerateFallback) && !Step(m, maxRetries, Retrieve, s, k).value.graded
  {
  }

  /** A stubborn run at the retrieval node after `r` rewrites. */
  lemma {:induction false} StubbornRetrieve(m: Models, maxRetries: int, limit: nat, s: State, updates: seq<Update>, r: nat)
    requires Stubborn(m) && s.messages != [] && Last(s.messages).AI?
    requires r <= Bound(maxRetries) && s.retryCount == r && |updates| == 3 * r + 1 <= limit
    requires CountNode(updates, RewriteQuestion) == r
    ensures StubbornOutcome(maxRetries, limit, Exec(m, maxRetries, limit, Retrieve, s, updates, r))
    decreases Bound(maxRetries) - r, 1
  {
    if |updates| < limit {
      var st := Step(m, maxRetries, Retrieve, s, |updates|).value;
      var next := Apply(s, st.update);
      Snoc(updates, st.update);
      StubbornGrades(m, maxRetries, s, |updates|);
      if r < maxRetries {
        assert Exec(m, maxRetries, limit, Retrieve, s, updates, r)
          == Exec(m, maxRetries, limit, RewriteQuestion, next, updates + [st.update], r + 1);
        StubbornRewrite(m, maxRetries, limit, next, updates + [st.update], r);
      } else {
        assert Exec(m, maxRetries, limit, Retrieve, s, updates, r)
          == Exec(m, maxRetries, limit, GenerateFallback, next, updates + [st.update], r);
        StubbornFallback(m, maxRetries, limit, next, updates + [st.update], r);
      }
    }
  }

  /** A stubborn run at the rewrite node after `r` rewrites. */
  lemma {:induction false} StubbornRewrite(m: Models, maxRetries: int, limit: nat, s: State, updates: seq<Update>, r: nat)
    requires Stubborn(m) && s.messages != []
    requires r < maxRetries && s.retryCount == r && |updates| == 3 * r + 2 <= limit
    requires CountNode(updates, RewriteQuestion) == r
    ensures StubbornOutcome(maxRetries, limit, Exec(m, maxRetries, limit, RewriteQuestion, s, updates, r + 1))
    decreases Bound(maxRetries) - r, 0
  {
    if |updates| < limit {
      var st := Step(m, maxRetries, RewriteQuestion, s, |updates|).value;
      var next := Apply(s, st.update);
      Snoc(updates, st.update);
      assert Exec(m, maxRetries, limit, RewriteQuestion, s, updates, r + 1)
        == Exec(m, maxRetries, limit, GenerateQueryOrRespond, next, updates + [st.update], r + 1);
      StubbornGenerate(m, maxRetries, limit, next, updates + [st.update], r + 1);
    }
  }

  /** A stubborn run at the fallback node, the budget being spent. */
  lemma StubbornFallback(m: Models, maxRetries: int, limit: nat, s: State, updates: seq<Update>, r: nat)
    requires Stubborn(m) && s.messages != []
    requires r == Bound(maxRetries) && s.retryCount == r && |updates| == 3 * r + 2 <= limit
    requires CountNode(updates, RewriteQuestion) == r
    ensures StubbornOutcome(maxRetries, limit, Exec(m, maxRetries, limit, GenerateFallback, s, updates, r))
  {
    if |updates| < limit {
      var st := Step(m, maxRetries, GenerateFallback, s, |updates|).value;
      Snoc(updates, st.update);
      assert Exec(m, maxRetries, limit, GenerateFallback, s, updates, r)
        == Finished(updates + [st.update], Apply(s, st.update), r);
    }
  }

  /** When the model always asks for retrieval and the grading model never says "yes",
      a run with a limit of at least `3 * max_retries + 3` rewrites exactly
      `max_retries` times, calls the grading model exactly `max_retries` times and ends in
      the fallback after `3 * max_retries + 3` nodes; with a smaller limit it
      raises the recursion fault after `limit` nodes. */
  lemma StubbornRun(m: Models, maxRetries: int, limit: nat, question: string)
    requires Stubborn(m)
    ensures StubbornOutcome(maxRetries, limit, Run(m, maxRetries, limit, question))
  {
    StubbornGenerate(m, maxRetries, limit, Initial(question), [], 0);
  }

  /** When the model answers the question directly, the run is that one node. */
  lemma DirectAnswer(m: Models, maxRetries: int, limit: nat, question: string, text: string)
    requires limit >= 1 && m.respond(0, [Human(question)]) == Success((text, []))
    ensures Run(m, maxRetries, limit, question)
      == Finished([Update(GenerateQueryOrRespond, [AI(text, [])], 0)], State([Human(question), AI(text, [])], 0), 0)
  {
  }
}
