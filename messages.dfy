/** The values that flow through one conversation of the bird identification
    assistant: tool-call arguments, the language model's replies, the entries
    of the chat history, the calls made to the two external services, and the
    services themselves, passed in as functions. */
module Messages {
  import opened Results

  /** Name of the retrieval tool offered to the model. */
  const QueryTool: string := "query_vector_db"

  /** Name of the do-nothing tool offered to the model so that it has
      something to call besides a database query. */
  const ContinueTool: string := "continue_conversation"

  /** The names in the tool list sent with the first model call, in the
      order they are listed there. */
  const Manifest: seq<string> := [ContinueTool, QueryTool]

  /** The keyword parameters of `query_vector_db`; any other keyword in a
      tool call's arguments makes the call raise a TypeError. */
  const QueryParameters: set<string> := {"query", "n_results", "host", "port", "collection_name"}

  /** A tool-call argument as the model delivers it: a number or a text. */
  datatype Arg = IntArg(i: int) | StrArg(s: string)

  /** One tool call of a model reply: the tool's name and its keyword arguments. */
  datatype ToolCall = ToolCall(name: string, arguments: map<string, Arg>)

  /** The message of a chat response: its text and the tool calls it asks for. */
  datatype ModelReply = ModelReply(content: string, toolCalls: seq<ToolCall>)
  {
    /** This reply with the arguments of tool call `i` replaced by `args`. */
    function WithArguments(i: nat, args: map<string, Arg>): ModelReply
      requires i < |toolCalls|
    {
      this.(toolCalls := toolCalls[i := toolCalls[i].(arguments := args)])
    }
  }

  /** An entry of the chat history. */
  datatype Message =
    | User(content: string)                // {"role": "user", "content": ...}
    | Assistant(content: string)           // {"role": "assistant", "content": ...}
    | FromModel(reply: ModelReply)         // the model's own response message
    | Tool(name: string, content: string)  // {"role": "tool", "name": ..., "content": ...}

  /** The exceptions a turn can raise while it dispatches tool calls. */
  datatype Raised =
    | MissingKey(key: string)    // KeyError: the arguments have no `n_results`
    | NotAnInteger(text: string) // ValueError: `int()` rejects the text
    | BadArguments               // TypeError: the arguments do not fit `query_vector_db`
    | ServiceFailed              // the document store raised

  /** A call to an external service, as it is made. */
  datatype Call =
    | Chat(messages: seq<Message>, tools: seq<string>)  // the model, on the history, offering `tools`
    | Search(query: Arg, nResults: int)                 // the document store

  /** The external services. `chat` answers a history and a tool list;
      `retrieve` returns the first row of the store's ranked documents for a
      query, or None when the store raises; `render` is the text that
      `str()` makes of a list of documents. */
  datatype Oracles = Oracles(
    chat: (seq<Message>, seq<string>) -> ModelReply,
    retrieve: (Arg, int) -> Option<seq<string>>,
    render: seq<string> -> string)
}
