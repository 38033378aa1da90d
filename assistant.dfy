/** The conversation loop of the assistant: the chat history list, the
    `reply_to_user` step that extends it in place, and the turns of `main`,
    each proved against the functions of the Dispatch module. */
module Assistant {
  import opened Results
  import opened Messages
  import opened Dispatch
  import opened DispatchProperties

  /** The chat history list that `main` creates and `reply_to_user` extends. */
  class History {
    var messages: seq<Message>

    /** `chat_history = []` */
    constructor ()
      ensures messages == []
    {
      messages := [];
    }

    /** `list.append` */
    method Append(m: Message)
      modifies this
      ensures messages == old(messages) + [m]
    {
      messages := messages + [m];
    }

    /** `list.extend` */
    method Extend(ms: seq<Message>)
      modifies this
      ensures messages == old(messages) + ms
    {
      messages := messages + ms;
    }
  }

  /** Lines 62-64 for the `query_vector_db` call `i`, on the history
      `h + Pairs(st.reply, st.contents)`: look up and coerce the count, and
      write it back into the response message, which every copy in the
      history shares; then bind the arguments and query the store. */
  method RunQuery(history: History, h: seq<Message>, st: LoopState, i: nat, o: Oracles) returns (next: LoopState)
    requires st.failure.None? && i < |st.reply.toolCalls| && st.reply.toolCalls[i].name == QueryTool
    requires history.messages == h + Pairs(st.reply, st.contents)
    modifies history
    ensures next == Step(st, i, o)
    ensures history.messages == h + Pairs(next.reply, next.contents)
  {
    var call := st.reply.toolCalls[i];
    var count := CountOf(call.arguments);
    if count.Failure? {
      return st.(failure := Some(count.error));
    }
    var n := count.value;
    var args := call.arguments["n_results" := IntArg(n)];
    var written := st.(reply := st.reply.WithArguments(i, args));
    history.messages := h + Pairs(written.reply, written.contents);
    next := Fetch(history, h, written, n, args, o);
  }

  /** Line 63 and 64 once the count `n` is written back as `args`: bind the
      arguments, query the store, and extend the history with the response
      message and a tool message. */
  method Fetch(history: History, h: seq<Message>, written: LoopState, n: int, args: map<string, Arg>, o: Oracles)
    returns (next: LoopState)
    requires written.failure.None?
    requires history.messages == h + Pairs(written.reply, written.contents)
    modifies history
    ensures next == match QueryOf(args)
      case Failure(e) => written.(failure := Some(e))
      case Success(q) =>
        var searched := written.(searches := written.searches + [Search(q, n)]);
        match o.retrieve(q, n)
        case None => searched.(failure := Some(ServiceFailed))
        case Some(docs) => searched.(contents := written.contents + [o.render(docs)])
    ensures history.messages == h + Pairs(next.reply, next.contents)
  {
    var query := QueryOf(args);
    if query.Failure? {
      return written.(failure := Some(query.error));
    }
    next := written.(searches := written.searches + [Search(query.value, n)]);
    var found := o.retrieve(query.value, n);
    if found.None? {
      return next.(failure := Some(ServiceFailed));
    }
    var content := o.render(found.value);
    history.Extend([FromModel(written.reply), Tool(QueryTool, content)]);
    PairsSnoc(written.reply, written.contents, content);
    next := next.(contents := written.contents + [content]);
  }

  /** The body of `reply_to_user`'s loop for tool call `i`: the `match` on
      the name runs a retrieval, or does nothing for `continue_conversation`
      and any other name. */
  method DispatchCall(history: History, h: seq<Message>, st: LoopState, i: nat, o: Oracles) returns (next: LoopState)
    requires st.failure.None? && i < |st.reply.toolCalls|
    requires history.messages == h + Pairs(st.reply, st.contents)
    modifies history
    ensures next == Step(st, i, o)
    ensures history.messages == h + Pairs(next.reply, next.contents)
  {
    match Resolve(st.reply.toolCalls[i].name) {
      case QueryVectorDb =>
        next := RunQuery(history, h, st, i, o);
      case ContinueConversation =>
        next := st;
      case Unrecognised =>
        next := st;
    }
  }

  /** `reply_to_user(history)`: ask the model with the tool list; if it calls
      tools, run each in delivery order, extending the history, then ask the
      model again with no tool list. Returns the answer or the exception, and
      the external calls made, in order. */
  method ReplyToUser(history: History, o: Oracles) returns (answer: Result<string, Raised>, calls: seq<Call>)
    modifies history
    ensures ReplyResult(history.messages, answer, calls) == Reply(old(history.messages), o)
  {
    var h := history.messages;
    var response := o.chat(h, Manifest);
    calls := [Chat(h, Manifest)];
    if response.toolCalls == [] {
      return Success(response.content), calls;
    }
    var st := LoopState(response, [], [], None);
    var i := 0;
    while i < |response.toolCalls|
      invariant i <= |response.toolCalls|
      invariant st == Process(response, i, o) && st.failure.None?
      invariant history.messages == h + Pairs(st.reply, st.contents)
    {
      st := DispatchCall(history, h, st, i, o);
      i := i + 1;
      if st.failure.Some? {
        FailureIsFinal(response, i, |response.toolCalls|, o);
        return Failure(st.failure.value), calls + st.searches;
      }
    }
    var final := o.chat(history.messages, []);
    calls := calls + st.searches + [Chat(history.messages, [])];
    answer := Success(final.content);
  }

  /** One iteration of `main`'s loop on the history `h`: the user's question
      is appended, `reply_to_user` runs, and its answer is appended; an
      exception leaves the history as it stands and ends the session. */
  function Turn(h: seq<Message>, question: string, o: Oracles): (t: ReplyResult)
    ensures h + [User(question)] <= t.history
    ensures t.answer.Success? ==> t.history[|t.history| - 1] == Assistant(t.answer.value)
    ensures t.answer.Failure? ==> forall k :: |h| < k < |t.history| ==> !t.history[k].User? && !t.history[k].Assistant?
  {
    var res := Reply(h + [User(question)], o);
    match res.answer
    case Success(a) => res.(history := res.history + [Assistant(a)])
    case Failure(_) => res
  }

  /** One iteration of `main`'s loop, as a method on the shared history. */
  method ChatTurn(history: History, question: string, o: Oracles) returns (answer: Result<string, Raised>, calls: seq<Call>)
    modifies history
    ensures ReplyResult(history.messages, answer, calls) == Turn(old(history.messages), question, o)
  {
    history.Append(User(question));
    answer, calls := ReplyToUser(history, o);
    if answer.Success? {
      history.Append(Assistant(answer.value));
    }
  }

  /** What a run of `main` on a finite list of questions leaves: the
      history, the answers printed, and the exception that ended it, if any. */
  datatype SessionResult = SessionResult(history: seq<Message>, answers: seq<string>, failure: Option<Raised>)

  /** `main` from the history `h` on `questions`, one turn each, stopping at
      the first exception. It only appends, and it prints one answer per
      question when nothing raises, and fewer otherwise. */
  function Session(h: seq<Message>, questions: seq<string>, o: Oracles): (s: SessionResult)
    ensures h <= s.history
    ensures s.failure.None? ==> |s.answers| == |questions|
    ensures s.failure.Some? ==> |s.answers| < |questions|
    decreases |questions|
  {
    if questions == [] then SessionResult(h, [], None)
    else
      var t := Turn(h, questions[0], o);
      match t.answer
      case Failure(e) => SessionResult(t.history, [], Some(e))
      case Success(a) =>
        var rest := Session(t.history, questions[1..], o);
        SessionResult(rest.history, [a] + rest.answers, rest.failure)
  }

  /** The session on the questions from the `i`-th on runs that question's
      turn, then the session on the rest from the history it leaves; so the
      answers given so far followed by the answers of the remaining session
      are the answers given so far, this turn's answer, and those of the rest. */
  lemma SessionStep(h: seq<Message>, questions: seq<string>, i: nat, answers: seq<string>, o: Oracles)
    requires i < |questions|
    ensures var s := Session(h, questions[i..], o);
      var t := Turn(h, questions[i], o);
      var whole := SessionResult(s.history, answers + s.answers, s.failure);
      if t.answer.Failure? then whole == SessionResult(t.history, answers, Some(t.answer.error))
      else
        var rest := Session(t.history, questions[i + 1..], o);
        whole == SessionResult(rest.history, (answers + [t.answer.value]) + rest.answers, rest.failure)
  {
    assert questions[i..][0] == questions[i] && questions[i..][1..] == questions[i + 1..];
    var t := Turn(h, questions[i], o);
    if t.answer.Failure? {
      assert answers + [] == answers;
    } else {
      var rest := Session(t.history, questions[i + 1..], o);
      assert answers + ([t.answer.value] + rest.answers) == (answers + [t.answer.value]) + rest.answers;
    }
  }

  /** `main` on a finite list of questions, from an empty history. */
  method RunSession(questions: seq<string>, o: Oracles) returns (history: History, answers: seq<string>, failure: Option<Raised>)
    ensures fresh(history)
    ensures SessionResult(history.messages, answers, failure) == Session([], questions, o)
  {
    history := new History();
    answers := [];
    failure := None;
    ghost var whole := Session([], questions, o);
    var i := 0;
    while i < |questions|
      invariant i <= |questions|
      invariant var rest := Session(history.messages, questions[i..], o);
        whole == SessionResult(rest.history, answers + rest.answers, rest.failure)
    {
      ghost var before := history.messages;
      SessionStep(before, questions, i, answers, o);
      var answer, calls := ChatTurn(history, questions[i], o);
      assert Turn(before, questions[i], o) == ReplyResult(history.messages, answer, calls);
      if answer.Failure? {
        failure := Some(answer.error);
        return;
      }
      answers := answers + [answer.value];
      i := i + 1;
    }
    assert questions[i..] == [];
  }

  /** The shape of one turn: the old history, then the question, then for a
      completed turn two messages per retrieval and the answer last; a
      direct answer adds exactly two messages. */
  lemma TurnShape(h: seq<Message>, question: string, o: Oracles)
    ensures var t := Turn(h, question, o);
      var first := o.chat(h + [User(question)], Manifest);
      |t.history| > |h| && t.history[..|h|] == h && t.history[|h|] == User(question) &&
      (t.answer.Success? ==>
        |t.history| == |h| + 2 * |QueryCalls(first.toolCalls)| + 2 &&
        t.history[|t.history| - 1] == Assistant(t.answer.value)) &&
      (first.toolCalls == [] ==>
        t.history == h + [User(question), Assistant(first.content)])
  {
    var asked := h + [User(question)];
    var res := Reply(asked, o);
    assert res.history[..|asked|] == asked;
    assert res.history[..|h|] == asked[..|h|] == h;
    if res.answer.Success? {
      ReplyGrowth(asked, o);
    }
  }
}
