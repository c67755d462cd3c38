/**
 * The state record threaded through the graph (`GraphState` in
 * server/utils/graph.py) and the rule by which a node's returned dict is
 * folded into it: every key the node returns overwrites that key, every other
 * key keeps its value.
 */
module GraphState {
  import opened Basics
  import opened ChatHistory

  /** A retrieved passage; only its text is looked at. */
  datatype Document = Document(pageContent: string)

  /**
   * An entry of `chat_history`: a record loaded from the history store, or a
   * message the chat node appended.
   */
  datatype Message = Stored(record: Record) | HumanMessage(content: string) | AIMessage(content: string)

  /** The two document collections of the vector store. */
  const InfuraDocs := "infura-docs"
  const SolidityDocs := "solidity-docs"

  datatype State = State(
    input: string,
    userId: string,
    convId: string,
    generation: string,
    documents: seq<Document>,
    chatHistory: seq<Message>,
    namespace: string)

  /**
   * The state of a new request: the caller supplies `input` only. The other
   * keys start empty; no node reads one of them before some node has written it.
   */
  function Initial(question: string): State {
    State(question, "", "", "", [], [], "")
  }

  /** The dict a node returns: `Some` for each key it contains. */
  datatype Update = Update(
    input: Option<string>,
    userId: Option<string>,
    convId: Option<string>,
    generation: Option<string>,
    documents: Option<seq<Document>>,
    chatHistory: Option<seq<Message>>,
    namespace: Option<string>)

  const NoUpdate := Update(None, None, None, None, None, None, None)

  /** The state after a node returned `u`. */
  function Merge(s: State, u: Update): (r: State)
    ensures u.input.Some? ==> r.input == u.input.value
    ensures u.input.None? ==> r.input == s.input
    ensures u.userId.Some? ==> r.userId == u.userId.value
    ensures u.userId.None? ==> r.userId == s.userId
    ensures u.convId.Some? ==> r.convId == u.convId.value
    ensures u.convId.None? ==> r.convId == s.convId
    ensures u.generation.Some? ==> r.generation == u.generation.value
    ensures u.generation.None? ==> r.generation == s.generation
    ensures u.documents.Some? ==> r.documents == u.documents.value
    ensures u.documents.None? ==> r.documents == s.documents
    ensures u.chatHistory.Some? ==> r.chatHistory == u.chatHistory.value
    ensures u.chatHistory.None? ==> r.chatHistory == s.chatHistory
    ensures u.namespace.Some? ==> r.namespace == u.namespace.value
    ensures u.namespace.None? ==> r.namespace == s.namespace
  {
    State(
      u.input.GetOr(s.input),
      u.userId.GetOr(s.userId),
      u.convId.GetOr(s.convId),
      u.generation.GetOr(s.generation),
      u.documents.GetOr(s.documents),
      u.chatHistory.GetOr(s.chatHistory),
      u.namespace.GetOr(s.namespace))
  }
}
