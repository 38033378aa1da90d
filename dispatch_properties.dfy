/** What the dispatch loop and `reply_to_user` promise: counts and order of
    the appended messages, the no-op tools, coercion of the count, what an
    exception leaves behind, and that the history only grows. */
module DispatchProperties {
  import opened Results
  import opened Messages
  import opened Coercion
  import opened Dispatch

  /** Once a call has raised, no later iteration changes anything. */
  lemma {:induction false} FailureIsFinal(r: ModelReply, m: nat, n: nat, o: Oracles)
    requires m <= n <= |r.toolCalls|
    requires Process(r, m, o).failure.Some?
    ensures Process(r, n, o) == Process(r, m, o)
  {
    if n > m {
      FailureIsFinal(r, m, n - 1, o);
    }
  }

  /** One more iteration only adds texts and searches after the earlier ones. */
  lemma ProcessStepExtends(r: ModelReply, n: nat, o: Oracles)
    requires 0 < n <= |r.toolCalls|
    ensures Process(r, n - 1, o).contents <= Process(r, n, o).contents
    ensures Process(r, n - 1, o).searches <= Process(r, n, o).searches
  {
  }

  /** The texts after `n` iterations. */
  function TextsAfter(r: ModelReply, n: nat, o: Oracles): seq<string>
    requires n <= |r.toolCalls|
  {
    Process(r, n, o).contents
  }

  /** The searches after `n` iterations. */
  function SearchesAfter(r: ModelReply, n: nat, o: Oracles): seq<Call>
    requires n <= |r.toolCalls|
  {
    Process(r, n, o).searches
  }

  /** One more iteration keeps the earlier texts. */
  lemma TextsStep(r: ModelReply, n: nat, o: Oracles)
    requires 0 < n <= |r.toolCalls|
    ensures TextsAfter(r, n - 1, o) <= TextsAfter(r, n, o)
  {
    ProcessStepExtends(r, n, o);
  }

  /** One more iteration keeps the earlier searches. */
  lemma SearchesStep(r: ModelReply, n: nat, o: Oracles)
    requires 0 < n <= |r.toolCalls|
    ensures SearchesAfter(r, n - 1, o) <= SearchesAfter(r, n, o)
  {
    ProcessStepExtends(r, n, o);
  }

  /** The texts after `m` iterations begin the texts after `n`. */
  lemma {:induction false} TextsExtend(r: ModelReply, m: nat, n: nat, o: Oracles)
    requires m <= n <= |r.toolCalls|
    ensures TextsAfter(r, m, o) <= TextsAfter(r, n, o)
  {
    if n > m {
      TextsExtend(r, m, n - 1, o);
      TextsStep(r, n, o);
    }
  }

  /** The searches after `m` iterations begin the searches after `n`. */
  lemma {:induction false} SearchesExtend(r: ModelReply, m: nat, n: nat, o: Oracles)
    requires m <= n <= |r.toolCalls|
    ensures SearchesAfter(r, m, o) <= SearchesAfter(r, n, o)
  {
    if n > m {
      SearchesExtend(r, m, n - 1, o);
      SearchesStep(r, n, o);
    }
  }

  /** Later iterations only add texts and searches after the earlier ones. */
  lemma {:induction false} ProcessExtends(r: ModelReply, m: nat, n: nat, o: Oracles)
    requires m <= n <= |r.toolCalls|
    ensures Process(r, m, o).contents <= Process(r, n, o).contents
    ensures Process(r, m, o).searches <= Process(r, n, o).searches
  {
    TextsExtend(r, m, n, o);
    SearchesExtend(r, m, n, o);
  }

  /** `continue_conversation` and unrecognised names do nothing: no text, no
      search, no exception, and the response message stays as delivered. */
  lemma {:induction false} NoOpCallsChangeNothing(r: ModelReply, n: nat, o: Oracles)
    requires n <= |r.toolCalls|
    requires forall j :: 0 <= j < n ==> r.toolCalls[j].name != QueryTool
    ensures Process(r, n, o) == LoopState(r, [], [], None)
  {
    if n > 0 {
      NoOpCallsChangeNothing(r, n - 1, o);
    }
  }

  /** The searches made and the tool-message texts, one per retrieval call,
      matched up with those calls in delivery order. */
  predicate Served(qs: seq<ToolCall>, searches: seq<Call>, contents: seq<string>, o: Oracles)
  {
    |searches| == |qs| && |contents| == |qs| &&
    forall j :: 0 <= j < |qs| ==>
      RequestOf(qs[j]) == Success(searches[j]) && searches[j].Search? &&
      o.retrieve(searches[j].query, searches[j].nResults).Some? &&
      contents[j] == o.render(o.retrieve(searches[j].query, searches[j].nResults).value)
  }

  lemma QueryCallsSnoc(calls: seq<ToolCall>, n: nat)
    requires 0 < n <= |calls|
    ensures QueryCalls(calls[..n]) ==
      QueryCalls(calls[..n - 1]) + (if calls[n - 1].name == QueryTool then [calls[n - 1]] else [])
  {
    assert calls[..n][..n - 1] == calls[..n - 1];
  }

  /** When no call raises, the loop made exactly one search per
      `query_vector_db` call, in delivery order, with the count coerced to
      an integer, and produced one text per search, rendered from its result. */
  lemma {:induction false} SearchesFollowDeliveryOrder(r: ModelReply, n: nat, o: Oracles)
    requires n <= |r.toolCalls|
    requires Process(r, n, o).failure.None?
    ensures Served(QueryCalls(r.toolCalls[..n]), Process(r, n, o).searches, Process(r, n, o).contents, o)
  {
    if n == 0 {
      assert r.toolCalls[..0] == [];
    } else {
      IterationServes(r, n, o);
      SearchesFollowDeliveryOrder(r, n - 1, o);
      QueryCallsSnoc(r.toolCalls, n);
      if r.toolCalls[n - 1].name == QueryTool {
        ServedSnoc(QueryCalls(r.toolCalls[..n - 1]), Process(r, n - 1, o).searches, Process(r, n - 1, o).contents, r.toolCalls[n - 1], o);
      }
    }
  }

  /** An iteration that does not raise: a `query_vector_db` call makes the
      search its arguments ask for, and adds the text rendered from its
      result; any other call adds neither. */
  lemma IterationServes(r: ModelReply, n: nat, o: Oracles)
    requires 0 < n <= |r.toolCalls|
    requires Process(r, n, o).failure.None?
    ensures Process(r, n - 1, o).failure.None?
    ensures var c := r.toolCalls[n - 1];
      var before := Process(r, n - 1, o);
      var after := Process(r, n, o);
      if c.name == QueryTool then
        RequestOf(c).Success? && RequestOf(c).value.Search? &&
        o.retrieve(RequestOf(c).value.query, RequestOf(c).value.nResults).Some? &&
        after.searches == before.searches + [RequestOf(c).value] &&
        after.contents == before.contents + [o.render(o.retrieve(RequestOf(c).value.query, RequestOf(c).value.nResults).value)]
      else after.searches == before.searches && after.contents == before.contents
  {
    var before := Process(r, n - 1, o);
    assert before.reply.toolCalls[n - 1] == r.toolCalls[n - 1];
  }

  /** One more served retrieval call keeps the searches and texts matched up. */
  lemma ServedSnoc(qs: seq<ToolCall>, searches: seq<Call>, contents: seq<string>, c: ToolCall, o: Oracles)
    requires Served(qs, searches, contents, o)
    requires RequestOf(c).Success? && RequestOf(c).value.Search?
    requires o.retrieve(RequestOf(c).value.query, RequestOf(c).value.nResults).Some?
    ensures var s := RequestOf(c).value;
      Served(qs + [c], searches + [s],
        contents + [o.render(o.retrieve(s.query, s.nResults).value)], o)
  {
  }


  /** The loop writes each coerced count back into the response message:
      when no call raises, each tool call stands as `WrittenBack` of the
      delivered one. */
  lemma {:induction false} CountsWrittenBack(r: ModelReply, n: nat, o: Oracles)
    requires n <= |r.toolCalls|
    requires Process(r, n, o).failure.None?
    ensures forall j :: 0 <= j < n ==> Process(r, n, o).reply.toolCalls[j] == WrittenBack(r.toolCalls[j])
  {
    if n > 0 {
      IterationWritesBack(r, n, o);
      CountsWrittenBack(r, n - 1, o);
    }
  }

  /** An iteration that does not raise rewrites only its own call, to
      `WrittenBack` of the delivered one. */
  lemma IterationWritesBack(r: ModelReply, n: nat, o: Oracles)
    requires 0 < n <= |r.toolCalls|
    requires Process(r, n, o).failure.None?
    ensures Process(r, n - 1, o).failure.None?
    ensures Process(r, n, o).reply.toolCalls[n - 1] == WrittenBack(r.toolCalls[n - 1])
    ensures forall j :: 0 <= j < n - 1 ==> Process(r, n, o).reply.toolCalls[j] == Process(r, n - 1, o).reply.toolCalls[j]
  {
    var before := Process(r, n - 1, o);
    assert before.reply.toolCalls[n - 1] == r.toolCalls[n - 1];
  }


  /** The exception a `query_vector_db` call raises: KeyError, ValueError or
      TypeError from its own arguments when it has one, and otherwise the
      store's error. */
  predicate RaisedBy(c: ToolCall, e: Raised)
  {
    match RequestOf(c)
    case Failure(err) => e == err
    case Success(_) => e == ServiceFailed
  }

  /** A step that raises handled a `query_vector_db` call, and raised that
      call's own exception. */
  lemma StepRaises(st: LoopState, i: nat, o: Oracles)
    requires st.failure.None? && i < |st.reply.toolCalls|
    requires Step(st, i, o).failure.Some?
    ensures st.reply.toolCalls[i].name == QueryTool
    ensures RaisedBy(st.reply.toolCalls[i], Step(st, i, o).failure.value)
  {
  }

  /** The call that raises adds no tool message: when the loop ends in an
      exception, some `query_vector_db` call `j` raised it, every call
      before it went through, and the texts are exactly those of the calls
      before it. */
  lemma {:induction false} FailingCallAppendsNothing(r: ModelReply, n: nat, o: Oracles)
    requires n <= |r.toolCalls|
    requires Process(r, n, o).failure.Some?
    ensures exists j :: (0 <= j < n && Process(r, j, o).failure.None? &&
      r.toolCalls[j].name == QueryTool &&
      RaisedBy(r.toolCalls[j], Process(r, n, o).failure.value) &&
      Process(r, n, o) == Process(r, j + 1, o) &&
      Process(r, n, o).contents == Process(r, j, o).contents)
  {
    var before := Process(r, n - 1, o);
    if before.failure.Some? {
      FailingCallAppendsNothing(r, n - 1, o);
      var j :| 0 <= j < n - 1 && Process(r, j, o).failure.None? &&
        r.toolCalls[j].name == QueryTool &&
        RaisedBy(r.toolCalls[j], Process(r, n - 1, o).failure.value) &&
        Process(r, n - 1, o) == Process(r, j + 1, o) &&
        Process(r, n - 1, o).contents == Process(r, j, o).contents;
      assert Process(r, n, o) == before;
    } else {
      FirstFailure(r, n, o);
      assert Process(r, n, o) == Process(r, (n - 1) + 1, o);
    }
  }

  /** The iteration that first raises handled a `query_vector_db` call,
      raised that call's own exception, and added no text. */
  lemma FirstFailure(r: ModelReply, n: nat, o: Oracles)
    requires 0 < n <= |r.toolCalls|
    requires Process(r, n - 1, o).failure.None? && Process(r, n, o).failure.Some?
    ensures r.toolCalls[n - 1].name == QueryTool
    ensures RaisedBy(r.toolCalls[n - 1], Process(r, n, o).failure.value)
    ensures Process(r, n, o).contents == Process(r, n - 1, o).contents
  {
    var before := Process(r, n - 1, o);
    assert before.reply.toolCalls[n - 1] == r.toolCalls[n - 1];
    assert Process(r, n, o) == Step(before, n - 1, o);
    StepRaises(before, n - 1, o);
  }


  /** A count sent as the text "3" behaves as the number 3: the step is the
      same, down to the integer written back into the response message. */
  lemma TextCountSameStep(st: LoopState, i: nat, args: map<string, Arg>, n: int, o: Oracles)
    requires st.failure.None? && i < |st.reply.toolCalls| && st.reply.toolCalls[i].name == QueryTool
    requires |NatDigits(Magnitude(n))| <= MaxStrDigits
    ensures Step(st.(reply := st.reply.WithArguments(i, args["n_results" := StrArg(Decimal(n))])), i, o)
         == Step(st.(reply := st.reply.WithArguments(i, args["n_results" := IntArg(n)])), i, o)
  {
    TextCountActsAsNumber(n);
    var asText := args["n_results" := StrArg(Decimal(n))];
    var asNumber := args["n_results" := IntArg(n)];
    assert asText["n_results" := IntArg(n)] == asNumber["n_results" := IntArg(n)];
    assert st.reply.WithArguments(i, asText).WithArguments(i, asNumber)
        == st.reply.WithArguments(i, asNumber).WithArguments(i, asNumber);
  }

  /** A further retrieval adds the response message and its tool message. */
  lemma PairsSnoc(reply: ModelReply, contents: seq<string>, content: string)
    ensures Pairs(reply, contents + [content]) == Pairs(reply, contents) + [FromModel(reply), Tool(QueryTool, content)]
  {
  }

  /** Each retrieval adds two messages: the response message at even
      offsets, the tool message with its text at the odd offset after it. */
  lemma {:induction false} PairsShape(reply: ModelReply, contents: seq<string>)
    ensures |Pairs(reply, contents)| == 2 * |contents|
    ensures forall j :: 0 <= j < |contents| ==>
      Pairs(reply, contents)[2 * j] == FromModel(reply) &&
      Pairs(reply, contents)[2 * j + 1] == Tool(QueryTool, contents[j])
  {
    if contents != [] {
      var front := contents[..|contents| - 1];
      PairsShape(reply, front);
      forall j | 0 <= j < |contents|
        ensures Pairs(reply, contents)[2 * j] == FromModel(reply)
        ensures Pairs(reply, contents)[2 * j + 1] == Tool(QueryTool, contents[j])
      {
        if j < |front| {
          assert contents[j] == front[j];
        }
      }
    }
  }

  /** No tool call: the history is left alone, the model is asked once with
      the tool list, and its text is the answer. */
  lemma DirectAnswer(h: seq<Message>, o: Oracles)
    requires o.chat(h, Manifest).toolCalls == []
    ensures Reply(h, o) == ReplyResult(h, Success(o.chat(h, Manifest).content), [Chat(h, Manifest)])
  {
  }

  /** Some tool call and no exception: the model is asked a second time, on
      the history as it now stands and with no tool list, and that answer is
      returned; every call in between is a search. */
  lemma SecondCallWithoutTools(h: seq<Message>, o: Oracles)
    requires o.chat(h, Manifest).toolCalls != []
    requires Reply(h, o).answer.Success?
    ensures var res := Reply(h, o);
      |res.calls| >= 2 && res.calls[0] == Chat(h, Manifest) &&
      res.calls[|res.calls| - 1] == Chat(res.history, []) &&
      res.answer == Success(o.chat(res.history, []).content) &&
      forall j :: 0 < j < |res.calls| - 1 ==> res.calls[j].Search?
  {
  }

  /** Tool calls that are all `continue_conversation` or unknown still lead
      to the second model call, on the unchanged history. */
  lemma OnlyNoOpCalls(h: seq<Message>, o: Oracles)
    requires o.chat(h, Manifest).toolCalls != []
    requires forall c :: c in o.chat(h, Manifest).toolCalls ==> c.name != QueryTool
    ensures Reply(h, o) == ReplyResult(h, Success(o.chat(h, []).content), [Chat(h, Manifest), Chat(h, [])])
  {
    var first := o.chat(h, Manifest);
    NoOpCallsChangeNothing(first, |first.toolCalls|, o);
    assert h + Pairs(first, []) == h;
  }

  /** A reply without exception grows the history by two messages per
      `query_vector_db` call and keeps what was there: the response message,
      with every count written back as an integer, and then the tool
      message, per retrieval in delivery order. */
  lemma ReplyGrowth(h: seq<Message>, o: Oracles)
    requires Reply(h, o).answer.Success?
    ensures var first := o.chat(h, Manifest);
      var res := Reply(h, o);
      var qs := QueryCalls(first.toolCalls);
      |res.history| == |h| + 2 * |qs| && res.history[..|h|] == h &&
      forall j :: 0 <= j < |qs| ==>
        res.history[|h| + 2 * j] == FromModel(WrittenBackReply(first)) &&
        res.history[|h| + 2 * j + 1].Tool? && res.history[|h| + 2 * j + 1].name == QueryTool &&
        RequestOf(qs[j]).Success? && RequestOf(qs[j]).value.Search? &&
        var search := RequestOf(qs[j]).value;
        o.retrieve(search.query, search.nResults).Some? &&
        res.history[|h| + 2 * j + 1].content == o.render(o.retrieve(search.query, search.nResults).value)
  {
    var first := o.chat(h, Manifest);
    var res := Reply(h, o);
    if first.toolCalls == [] {
      assert QueryCalls(first.toolCalls) == [];
    } else {
      var n := |first.toolCalls|;
      var st := Process(first, n, o);
      assert first.toolCalls[..n] == first.toolCalls;
      SearchesFollowDeliveryOrder(first, n, o);
      CountsWrittenBack(first, n, o);
      assert st.reply.toolCalls == WrittenBackReply(first).toolCalls;
      PairsShape(st.reply, st.contents);
      var qs := QueryCalls(first.toolCalls);
      forall j | 0 <= j < |qs|
        ensures res.history[|h| + 2 * j] == FromModel(st.reply)
        ensures res.history[|h| + 2 * j + 1] == Tool(QueryTool, st.contents[j])
      {
        assert res.history[|h| + 2 * j] == Pairs(st.reply, st.contents)[2 * j];
        assert res.history[|h| + 2 * j + 1] == Pairs(st.reply, st.contents)[2 * j + 1];
      }
    }
  }

  /** A reply that raises makes no second model call and keeps what was
      appended before the failing call: the history holds exactly the pairs
      of the retrievals before it, after the old history, and the exception
      is the failing call's own. */
  lemma FailedReplyKeepsEarlierPairs(h: seq<Message>, o: Oracles)
    requires Reply(h, o).answer.Failure?
    ensures var first := o.chat(h, Manifest);
      var res := Reply(h, o);
      first.toolCalls != [] && |res.calls| >= 1 && res.calls[0] == Chat(h, Manifest) &&
      (forall c :: c in res.calls[1..] ==> c.Search?) &&
      exists j :: (0 <= j < |first.toolCalls| && first.toolCalls[j].name == QueryTool &&
        Process(first, j, o).failure.None? &&
        RaisedBy(first.toolCalls[j], res.answer.error) &&
        res.history == h + Pairs(Process(first, j + 1, o).reply, Process(first, j, o).contents))
  {
    var first := o.chat(h, Manifest);
    var n := |first.toolCalls|;
    var st := Process(first, n, o);
    var res := Reply(h, o);
    assert first.toolCalls != [] && st.failure.Some?;
    assert res.calls == [Chat(h, Manifest)] + st.searches;
    assert res.calls[1..] == st.searches;
    assert res.history == h + Pairs(st.reply, st.contents);
    FailingCallAppendsNothing(first, n, o);
    var j :| 0 <= j < n && Process(first, j, o).failure.None? &&
      first.toolCalls[j].name == QueryTool &&
      RaisedBy(first.toolCalls[j], st.failure.value) &&
      st == Process(first, j + 1, o) && st.contents == Process(first, j, o).contents;
    assert res.answer.error == st.failure.value;
    assert res.history == h + Pairs(Process(first, j + 1, o).reply, Process(first, j, o).contents);
  }
}
