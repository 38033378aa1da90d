# Bird identification assistant: conversation step

This project models the conversation engine of the bird identification
assistant. A user's question is appended to the chat history. The language
model is then asked with a list of two tools:

- `query_vector_db` searches the store of bird-species articles;
- `continue_conversation` does nothing.

If the model's reply calls tools, `reply_to_user` handles each call in
delivery order. It extends the history in place, then asks the model a
second time without tools. Otherwise the first reply's text is the answer.
`main` appends the answer to the history.

The language model, the document store and the text that Python's `str()`
makes of a list of documents are passed in as functions (`Messages.Oracles`):

- `chat(history, tools)` gives the model's reply;
- `retrieve(query, n)` gives the first row of the store's ranked documents,
  or `None` when the store raises;
- `render(docs)` gives the tool message's text.

Each call to a service is recorded as a `Call`, so the contracts can say how
often the model is asked, and with what. They can also say which searches
are made, and in what order.

Files:

- `results.dfy`: Option and Result.
- `messages.dfy`: tool-call arguments (`IntArg | StrArg`), tool calls, model
  replies, history entries, exceptions, service calls, and the tool names.
- `coercion.dfy`: `int()` on an argument, for a decimal subset of texts.
- `dispatch.dfy`: the loop as functions. `Step` handles one tool call,
  `Process` runs the first `n` iterations, and `Reply` is the whole of
  `reply_to_user`.
- `dispatch_properties.dfy`: lemmas about these functions.
- `assistant.dfy`: the history as a class, `reply_to_user` and `main`'s
  turns as methods proved equal to the functions, and lemmas about turns
  and sessions.

Three details of the code shape the model:

- The model's response message is appended once per `query_vector_db` call,
  not once per turn (`src/bird_id_assistant/assistant.py:64`). A reply with
  k retrievals therefore adds the response message k times, each followed by
  its tool message, and none when there is no retrieval.
- That response message is a single object. Line 62 writes the coerced
  `n_results` back into its tool call's arguments. So every copy already in
  the history shows the rewritten arguments, even though the history's
  messages are otherwise never altered. `Dispatch.Pairs` gives every copy
  the reply as it currently stands.
- A missing `n_results` raises KeyError, although the tool schema requires
  only `query`. A count that `int()` rejects raises ValueError. Arguments
  that do not fit `query_vector_db` raise TypeError: `query` is missing, or a
  keyword is not a parameter. A store failure propagates. None of these is
  caught, so pairs appended by earlier calls stay. `main` has no handler
  either, so the first exception ends the session (`Assistant.Session`).

## Model

| member | source | states |
|---|---|---|
| Dispatch.Resolve | src/bird_id_assistant/assistant.py:59-68 | exactly the names in the tool list are recognised, and exactly `query_vector_db` retrieves; anything else is the no-op variant |
| Dispatch.CountOf | src/bird_id_assistant/assistant.py:62 | a missing `n_results` raises KeyError and nothing else does; otherwise the only exception is ValueError; a number is kept and a text succeeds exactly when it is in decimal form |
| Dispatch.QueryOf | src/bird_id_assistant/assistant.py:63 | binding the arguments raises TypeError when `query` is missing or some keyword is not a parameter of `query_vector_db`, succeeds when the keys are `query` and at most `n_results`, and passes on the given `query` |
| Dispatch.Step | src/bird_id_assistant/assistant.py:59-68 | one call: a non-retrieval name changes nothing; a raising call adds no text; a successful retrieval adds exactly one text and one search after the earlier ones; only call `i`'s arguments can change |
| Dispatch.Process | src/bird_id_assistant/assistant.py:58-68 | the loop keeps the reply's text, the number and names of the tool calls, leaves calls not yet reached as delivered, and calls only the store in between |
| Dispatch.Pairs | src/bird_id_assistant/assistant.py:64 | k retrievals append 2k messages, each either the response message as it now stands or a `query_vector_db` tool message |
| Dispatch.Reply | src/bird_id_assistant/assistant.py:15-78 | `reply_to_user` only appends to the history, and only response messages and `query_vector_db` tool messages; the model is asked first on the old history with the tool list, then only the store is called, except for one last model call on the final history without tools, made only when no exception was raised |
| Coercion.ParseInt | src/bird_id_assistant/assistant.py:62 | `int()` of a text succeeds exactly on an optional sign and 1 to 4300 ASCII digits; the result's magnitude is the digits' value, and it is negative exactly when the text starts with `-` and the digits are not all zero |
| Coercion.CoerceInt | src/bird_id_assistant/assistant.py:62 | an integer is kept; a text succeeds exactly in decimal form, with the value of its digits, and otherwise raises ValueError carrying the text |
| Coercion.DecimalRoundTrip | src/bird_id_assistant/assistant.py:62 | the decimal text of every integer of at most 4300 digits is parsed back to that integer |
| Coercion.TextCountActsAsNumber | src/bird_id_assistant/assistant.py:62 | `int()` of the decimal text of `n` and of the number `n` both give `n` |
| Coercion.LongTextRaises | src/bird_id_assistant/assistant.py:62 | a text of more than 4300 digits raises ValueError |
| Coercion.CoercionExamples | src/bird_id_assistant/assistant.py:62 | "3", "+07", "-12" coerce; "abc", "two", "" and "-" raise ValueError carrying the text |
| DispatchProperties.FailureIsFinal | src/bird_id_assistant/assistant.py:58-64 | once a call has raised, no later tool call is handled |
| DispatchProperties.ProcessExtends | src/bird_id_assistant/assistant.py:58-64 | later iterations only add texts and searches after the earlier ones |
| DispatchProperties.NoOpCallsChangeNothing | src/bird_id_assistant/assistant.py:65-68 | `continue_conversation` and unknown names add no message, make no search, raise nothing and leave the reply as delivered |
| DispatchProperties.SearchesFollowDeliveryOrder | src/bird_id_assistant/assistant.py:58-64 | without an exception, the j-th search is the j-th `query_vector_db` call's request, with its count coerced to an integer; the j-th text is the rendered result of that search |
| DispatchProperties.CountsWrittenBack | src/bird_id_assistant/assistant.py:62-64 | without an exception, each retrieval call in the response message carries its count as an integer; other calls are as delivered |
| DispatchProperties.StepRaises | src/bird_id_assistant/assistant.py:59-64 | only a `query_vector_db` call raises, and what it raises is its own KeyError, ValueError or TypeError, or else the store's error |
| DispatchProperties.FailingCallAppendsNothing | src/bird_id_assistant/assistant.py:62-64 | an exception comes from some `query_vector_db` call j and is that call's own; the calls before j went through, and the texts are exactly theirs |
| DispatchProperties.TextCountSameStep | src/bird_id_assistant/assistant.py:62-63 | a retrieval call with `n_results` as the text of `n` has the same effect as one with the number `n`, down to the integer written back |
| DispatchProperties.PairsShape | src/bird_id_assistant/assistant.py:64 | k retrievals append 2k messages: the response message at each even offset and the j-th tool message right after it |
| DispatchProperties.DirectAnswer | src/bird_id_assistant/assistant.py:50-78 | with no tool calls, the history is unchanged, the model is asked exactly once, with the tool list, and its text is returned |
| DispatchProperties.SecondCallWithoutTools | src/bird_id_assistant/assistant.py:57-75 | after tool calls without an exception, the last call asks the model on the final history with no tool list, and its text is the answer; only searches come in between |
| DispatchProperties.OnlyNoOpCalls | src/bird_id_assistant/assistant.py:57-75 | tool calls that are all no-ops still lead to the second model call, on the unchanged history |
| DispatchProperties.ReplyGrowth | src/bird_id_assistant/assistant.py:58-75 | a completed reply keeps the old history and grows it by exactly 2k for k `query_vector_db` calls: at each even offset the response message with every count written back as an integer, then the tool message with the rendered search result, in delivery order |
| DispatchProperties.FailedReplyKeepsEarlierPairs | src/bird_id_assistant/assistant.py:58-64 | a reply that raises makes no second model call; the exception is the failing `query_vector_db` call's own, and the history is the old one plus exactly the pairs of the retrievals before that call |
| Assistant.History.constructor | src/bird_id_assistant/assistant.py:82 | a session starts with an empty history |
| Assistant.History.Append | src/bird_id_assistant/assistant.py:85 | appending adds exactly one message at the end |
| Assistant.History.Extend | src/bird_id_assistant/assistant.py:64 | extending adds exactly the given messages at the end |
| Assistant.RunQuery | src/bird_id_assistant/assistant.py:60-64 | a `query_vector_db` call on the shared history has the effect of `Step`, and leaves the history as the old one plus the pairs so far, with the coerced count written back into every copy of the response message |
| Assistant.Fetch | src/bird_id_assistant/assistant.py:63-64 | once the count is written back: a binding error or a store failure leaves the texts as they were; otherwise one search is recorded and the response message and the rendered tool message are appended |
| Assistant.DispatchCall | src/bird_id_assistant/assistant.py:59-68 | the loop body on the shared history has the effect of `Step`, and leaves the history as the old one plus the pairs so far |
| Assistant.ReplyToUser | src/bird_id_assistant/assistant.py:15-78 | the new history, the answer or exception, and the calls made are those of `Reply` on the old history |
| Assistant.Turn | src/bird_id_assistant/assistant.py:84-88 | a turn keeps the old history with the question right after it; a completed turn ends with the answer; a turn that raises appends no user or assistant message after the question |
| Assistant.ChatTurn | src/bird_id_assistant/assistant.py:84-88 | the user message is appended before `reply_to_user` and the answer after it, as `Turn` states |
| Assistant.Session | src/bird_id_assistant/assistant.py:81-88 | a session only extends the history; it gives one answer per question when nothing raises, and fewer otherwise |
| Assistant.RunSession | src/bird_id_assistant/assistant.py:81-88 | from an empty history, the turns run in order until the first exception, as `Session` states |
| Assistant.TurnShape | src/bird_id_assistant/assistant.py:85-88 | a turn keeps the old history and puts the question right after it; a completed turn grows it by 2k+2 and ends with the answer; a direct answer grows it by exactly 2 |

## Left out

- The language-model calls (`AsyncClient.chat`) are the `chat` function. The model name is not modelled. The model is taken to give the same reply to the same history and tool list. A failure of the model service is not modelled.
- `async`/`await` is not modelled: the code awaits each call before the next, so nothing runs concurrently.
- Console input and output (`input`, `print`) are not modelled. The endless `while True` loop of `main` is modelled on a finite list of questions (`Assistant.RunSession`).
- The tool descriptors are kept only as the two tool names (`Messages.Manifest`); their descriptions and their parameter schema (`query` required, `n_results` optional) are left out, since the code never checks the arguments against the schema. `Messages.QueryParameters` is not part of a descriptor: it is the keyword signature of `query_vector_db` (`src/bird_id_assistant/db.py:24-30`), which decides the TypeError of `Dispatch.QueryOf`.
- `str(result)` is the abstract `render` function.
- `int()` on a text is modelled for an optional sign followed by one to 4300 ASCII digits; a longer digit string raises ValueError, as under CPython's default `sys.get_int_max_str_digits()` (`Coercion.MaxStrDigits`). Surrounding whitespace, underscores and non-ASCII digits, which Python also accepts, are left out.
- Coercion.DecimalRoundTrip: stated only for integers of at most 4300 digits, because `str()` raises ValueError beyond that limit as well.
- Coercion.TextCountActsAsNumber: stated only for integers of at most 4300 digits, for the same reason; `DispatchProperties.TextCountSameStep` carries the same bound.
- Argument values other than integers and texts (floats, booleans, null, lists) are not modelled.
- The `host`, `port` and `collection_name` keywords are accepted when binding the arguments, but the store function always stands for the default store, so their values are ignored.
- `src/bird_id_assistant/db.py` is reduced to the store function. That function includes the first-row selection of `get_documents`. That two identical searches return the same documents holds by construction, since the store is a function.
- Corpus collection and cleaning (`data_collection.py`, `data_cleaning.py`), the command line (`cli.py`), logging (`__init__.py`) and the path check (`util.py`) are network, file or console code and are not part of this model.
