/** The tool-dispatch loop of `reply_to_user`, as functions: the step taken
    for one tool call, the loop over all of them in delivery order, and the
    whole reply (one or two model calls) with the history it leaves. */
module Dispatch {
  import opened Results
  import opened Messages
  import opened Coercion

  /** What a tool name dispatches to. */
  datatype ToolKind = QueryVectorDb | ContinueConversation | Unrecognised

  /** The `match` on a tool call's name: exactly the two names offered to the
      model are recognised, and only one of them retrieves. */
  function Resolve(name: string): (k: ToolKind)
    ensures k != Unrecognised <==> name in Manifest
    ensures k == QueryVectorDb <==> name == QueryTool
  {
    if name == QueryTool then QueryVectorDb
    else if name == ContinueTool then ContinueConversation
    else Unrecognised
  }

  /** `int(arguments["n_results"])`: KeyError when the key is missing,
      ValueError when the value does not coerce. */
  function CountOf(arguments: map<string, Arg>): (r: Result<int, Raised>)
    ensures "n_results" !in arguments <==> r == Failure(MissingKey("n_results"))
    ensures r.Failure? ==> r.error == MissingKey("n_results") || r.error.NotAnInteger?
    ensures "n_results" in arguments && arguments["n_results"].IntArg? ==> r == Success(arguments["n_results"].i)
    ensures "n_results" in arguments && arguments["n_results"].StrArg? ==>
      (r.Success? <==> IsDecimalText(arguments["n_results"].s))
  {
    if "n_results" !in arguments then Failure(MissingKey("n_results"))
    else CoerceInt(arguments["n_results"])
  }

  /** Binding `query_vector_db(**arguments)`: TypeError unless `query` is
      given and every key names a parameter; otherwise the query passed on. */
  function QueryOf(arguments: map<string, Arg>): (r: Result<Arg, Raised>)
    ensures r.Success? ==> "query" in arguments && r.value == arguments["query"]
    ensures r.Failure? ==> r.error == BadArguments
    ensures "query" !in arguments ==> r.Failure?
    ensures (exists k :: k in arguments && k !in QueryParameters) ==> r.Failure?
    ensures "query" in arguments && arguments.Keys <= {"query", "n_results"} ==> r.Success?
  {
    if "query" in arguments && arguments.Keys <= QueryParameters then Success(arguments["query"])
    else Failure(BadArguments)
  }

  /** The state of the loop over the tool calls: the response message as it
      now stands (coerced counts are written back into it), the tool-message
      texts appended so far, the searches made so far, and the exception
      that ended the loop, if one did. */
  datatype LoopState = LoopState(
    reply: ModelReply,
    contents: seq<string>,
    searches: seq<Call>,
    failure: Option<Raised>)

  /** The body of the loop for tool call `i`. A `query_vector_db` call looks
      up and coerces `n_results`, writes the integer back into its arguments,
      calls the store and adds one tool-message text; anything else is
      passed over. */
  function Step(st: LoopState, i: nat, o: Oracles): (r: LoopState)
    requires st.failure.None? && i < |st.reply.toolCalls|
    ensures r.reply.content == st.reply.content && |r.reply.toolCalls| == |st.reply.toolCalls|
    ensures forall j {:trigger r.reply.toolCalls[j]} :: 0 <= j < |st.reply.toolCalls| && j != i ==> r.reply.toolCalls[j] == st.reply.toolCalls[j]
    ensures r.reply.toolCalls[i].name == st.reply.toolCalls[i].name
    ensures Resolve(st.reply.toolCalls[i].name) != QueryVectorDb ==> r == st
    ensures r.failure.Some? ==> r.contents == st.contents
    ensures r.failure.None? && Resolve(st.reply.toolCalls[i].name) == QueryVectorDb ==>
      |r.contents| == |st.contents| + 1 && r.contents[..|st.contents|] == st.contents &&
      |r.searches| == |st.searches| + 1 && r.searches[..|st.searches|] == st.searches
    ensures st.contents <= r.contents
    ensures st.searches <= r.searches && forall k :: |st.searches| <= k < |r.searches| ==> r.searches[k].Search?
  {
    var call := st.reply.toolCalls[i];
    match Resolve(call.name)
    case ContinueConversation => st
    case Unrecognised => st
    case QueryVectorDb =>
      match CountOf(call.arguments)
      case Failure(e) => st.(failure := Some(e))
      case Success(n) =>
        var args := call.arguments["n_results" := IntArg(n)];
        var written := st.(reply := st.reply.WithArguments(i, args));
        match QueryOf(args)
        case Failure(e) => written.(failure := Some(e))
        case Success(q) =>
          var searched := written.(searches := st.searches + [Search(q, n)]);
          match o.retrieve(q, n)
          case None => searched.(failure := Some(ServiceFailed))
          case Some(docs) => searched.(contents := st.contents + [o.render(docs)])
  }

  /** The loop after its first `n` iterations; an exception ends it. */
  function Process(r: ModelReply, n: nat, o: Oracles): (st: LoopState)
    requires n <= |r.toolCalls|
    ensures st.reply.content == r.content && |st.reply.toolCalls| == |r.toolCalls|
    ensures forall j {:trigger st.reply.toolCalls[j]} :: 0 <= j < |r.toolCalls| ==> st.reply.toolCalls[j].name == r.toolCalls[j].name
    ensures forall j {:trigger st.reply.toolCalls[j]} :: n <= j < |r.toolCalls| ==> st.reply.toolCalls[j] == r.toolCalls[j]
    ensures forall k :: 0 <= k < |st.searches| ==> st.searches[k].Search?
  {
    if n == 0 then LoopState(r, [], [], None)
    else
      var before := Process(r, n - 1, o);
      if before.failure.Some? then before else Step(before, n - 1, o)
  }

  /** What the `extend` calls have added for the texts `contents`: the
      model's response message, then a tool message, per retrieval. The
      response message is one object appended again and again, so every
      copy shows it as it stands now. */
  function Pairs(reply: ModelReply, contents: seq<string>): (p: seq<Message>)
    ensures |p| == 2 * |contents|
    ensures forall k :: 0 <= k < |p| ==> p[k] == FromModel(reply) || (p[k].Tool? && p[k].name == QueryTool)
  {
    if contents == [] then []
    else Pairs(reply, contents[..|contents| - 1]) + [FromModel(reply), Tool(QueryTool, contents[|contents| - 1])]
  }

  /** What `reply_to_user` leaves behind: the history, the answer or the
      exception, and the external calls it made, in order. */
  datatype ReplyResult = ReplyResult(history: seq<Message>, answer: Result<string, Raised>, calls: seq<Call>)

  /** `reply_to_user` on the history `h`. It only appends, and only the
      model's response message and tool messages; the model is asked first
      with the tool list, then only the store, and at most once more, last,
      on the final history without tools, which an exception prevents. */
  function Reply(h: seq<Message>, o: Oracles): (r: ReplyResult)
    ensures h <= r.history
    ensures forall k :: |h| <= k < |r.history| ==> r.history[k].FromModel? || (r.history[k].Tool? && r.history[k].name == QueryTool)
    ensures |r.calls| >= 1 && r.calls[0] == Chat(h, Manifest)
    ensures forall j :: 0 < j < |r.calls| ==>
      r.calls[j].Search? || (r.answer.Success? && j == |r.calls| - 1 && r.calls[j] == Chat(r.history, []))
  {
    var first := o.chat(h, Manifest);
    if first.toolCalls == [] then
      ReplyResult(h, Success(first.content), [Chat(h, Manifest)])
    else
      var st := Process(first, |first.toolCalls|, o);
      var extended := h + Pairs(st.reply, st.contents);
      match st.failure
      case Some(e) => ReplyResult(extended, Failure(e), [Chat(h, Manifest)] + st.searches)
      case None =>
        ReplyResult(extended, Success(o.chat(extended, []).content),
                    [Chat(h, Manifest)] + st.searches + [Chat(extended, [])])
  }

  /** The `query_vector_db` calls among `calls`, in delivery order. */
  function QueryCalls(calls: seq<ToolCall>): seq<ToolCall>
  {
    if calls == [] then []
    else QueryCalls(calls[..|calls| - 1]) + (if calls[|calls| - 1].name == QueryTool then [calls[|calls| - 1]] else [])
  }

  /** The search a `query_vector_db` call asks for, or the exception raised
      before the store is reached. */
  function RequestOf(c: ToolCall): Result<Call, Raised>
  {
    match CountOf(c.arguments)
    case Failure(e) => Failure(e)
    case Success(n) =>
      match QueryOf(c.arguments["n_results" := IntArg(n)])
      case Failure(e) => Failure(e)
      case Success(q) => Success(Search(q, n))
  }

  /** The response message once the loop has passed every call without an
      exception. */
  function WrittenBackReply(r: ModelReply): ModelReply
  {
    r.(toolCalls := seq(|r.toolCalls|, k requires 0 <= k < |r.toolCalls| => WrittenBack(r.toolCalls[k])))
  }

  /** A tool call as it stands once the loop has passed it without an
      exception: a retrieval's count is replaced by its integer. */
  function WrittenBack(c: ToolCall): ToolCall
  {
    if c.name == QueryTool && CountOf(c.arguments).Success? then
      c.(arguments := c.arguments["n_results" := IntArg(CountOf(c.arguments).value)])
    else c
  }
}
