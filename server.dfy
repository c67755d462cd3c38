/**
 * The HTTP layer of server/app/server.py: the middleware that every request
 * passes (an OPTIONS request goes on untouched, any other needs a non-empty
 * `user_id` header, whose value and that of `conv_id` are handed to the
 * GraphNodes object), the chat route that runs the graph, and the two
 * history routes, which answer 404 when there is nothing to list.
 */
module Server {
  import opened Basics
  import opened ChatHistory
  import opened GraphState
  import opened Nodes
  import opened Workflow

  /** What the middleware looks at: the HTTP method and two headers, each possibly absent. */
  datatype Request = Request(verb: string, userIdHeader: Option<string>, convIdHeader: Option<string>)

  /** A header as it ends up in `f"{user_id}:{conversation_id}"`: an absent one prints as "None". */
  function HeaderText(header: Option<string>): (text: string)
    ensures header.Some? ==> text == header.value
  {
    match header
    case Some(v) => v
    case None => "None"
  }

  /** The middleware's verdict. */
  datatype Gate = PassedOn | Forbidden(status: nat, detail: string) | Identified(userId: string, convId: string)

  const MissingUserId := "User ID header missing"

  /** `extract_user_id_middleware`, up to the call of `saveChatInfo`. */
  function Middleware(req: Request): (g: Gate)
    ensures g.PassedOn? <==> req.verb == "OPTIONS"
    ensures g.Forbidden? <==> req.verb != "OPTIONS" && !Provided(req.userIdHeader)
    ensures g.Forbidden? ==> g.status == 403 && g.detail == MissingUserId
    ensures g.Identified? ==> g.userId == req.userIdHeader.value && g.convId == HeaderText(req.convIdHeader)
  {
    if req.verb == "OPTIONS" then PassedOn
    else if !Provided(req.userIdHeader) then Forbidden(403, MissingUserId)
    else Identified(req.userIdHeader.value, HeaderText(req.convIdHeader))
  }

  /** A request without a conversation header is filed under the conversation "None". */
  lemma MissingConversationIsNone(user: string)
    requires user != ""
    ensures Middleware(Request("POST", Some(user), None)) == Identified(user, "None")
  {
  }

  /** The middleware applied to the GraphNodes object: the ids of an identified request replace the old ones. */
  method Admit(nodes: GraphNodes, req: Request) returns (g: Gate)
    modifies nodes
    ensures g == Middleware(req)
    ensures nodes.CurrentWorld() ==
      if g.Identified? then old(nodes.CurrentWorld()).(userId := g.userId, convId := g.convId) else old(nodes.CurrentWorld())
  {
    g := Middleware(req);
    if g.Identified? {
      nodes.SaveChatInfo(g.userId, g.convId);
    }
  }

  datatype Response =
    | Status(code: nat, detail: string)
    | ConversationKeys(keys: set<string>)
    | ConversationMessages(messages: seq<Record>)
    | Answer(state: State)
    | Crashed(error: Exception)
    | Unfinished(at: Node)
    | Preflight

  const NoKeys := "No conversation keys found for the user."
  const NoMessages := "No messages found for this conversation."

  /**
   * `GET /conversations/{user_id}`: the user's keys, or 404 when there are
   * none (or Redis failed). As written the keys are those `KEYS user_id:*`
   * matches; corrected, those that start with `user_id:`.
   */
  method ConversationKeysRoute(manager: ChatHistoryManager, userId: string, reachable: bool, build: Build) returns (resp: Response)
    ensures var keys := if !reachable then {}
                        else if build.AsWritten? then set k | k in manager.store && GlobMatch(userId + ":*", k)
                        else set k | k in manager.store && HasPrefix(k, userId + ":");
      resp == if keys == {} then Status(404, NoKeys) else ConversationKeys(keys)
  {
    var keys;
    if build.AsWritten? {
      keys := manager.RetrieveConversationKeysAsWritten(userId, reachable);
    } else {
      keys := manager.RetrieveConversationKeys(userId, reachable);
    }
    if keys == {} {
      return Status(404, NoKeys);
    }
    resp := ConversationKeys(keys);
  }

  /** `GET /conversations/{user_id}/{conversation_id}`: the messages newest first, or 404 when there are none. */
  method MessagesRoute(manager: ChatHistoryManager, userId: string, conversationId: string, reachable: bool) returns (resp: Response)
    ensures var msgs := if reachable then Messages(manager.store, Key(userId, conversationId)) else [];
      resp == if msgs == [] then Status(404, NoMessages) else ConversationMessages(msgs)
  {
    var msgs := manager.GetAllMessages(userId, conversationId, reachable);
    if msgs == [] {
      return Status(404, NoMessages);
    }
    resp := ConversationMessages(msgs);
  }

  /** The reply to a chat request once the graph has run. */
  function Reply(r: RunResult): Response {
    match r
    case Finished(s, _) => Answer(s)
    case Failed(_, e, _) => Crashed(e)
    case OutOfFuel(n, _, _) => Unfinished(n)
  }

  /**
   * `POST /web3buddy_chat`: the middleware, then the graph from "evaluator"
   * on the question, under the ids the request carried. The store and the
   * retriever keep what the run did to them; with `cfg.build == AsWritten`
   * the run is that of the graph server.py builds.
   */
  method ChatRoute(nodes: GraphNodes, req: Request, question: string, oracles: seq<StepOracle>, cfg: Setup)
    returns (resp: Response)
    modifies nodes, nodes.history, nodes.retriever
    ensures var g := Middleware(req);
      match g
      case PassedOn => resp == Preflight && nodes.CurrentWorld() == old(nodes.CurrentWorld())
      case Forbidden(code, detail) => resp == Status(code, detail) && nodes.CurrentWorld() == old(nodes.CurrentWorld())
      case Identified(u, c) =>
        var r := Run(Entry, Initial(question), old(nodes.CurrentWorld()).(userId := u, convId := c), oracles, cfg).0;
        resp == Reply(r) && nodes.CurrentWorld() == r.world
  {
    var g := Admit(nodes, req);
    match g
    case PassedOn =>
      resp := Preflight;
    case Forbidden(code, detail) =>
      resp := Status(code, detail);
    case Identified(u, c) =>
      var w := nodes.CurrentWorld();
      var r := Run(Entry, Initial(question), w, oracles, cfg).0;
      RunKeepsIds(Entry, Initial(question), w, oracles, cfg);
      nodes.history.store := r.world.store;
      nodes.retriever.namespace := r.world.namespace;
      resp := Reply(r);
  }
}
