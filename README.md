# Web3Buddy conversation graph — a Dafny model

Web3Buddy is a question-answering server about Web3. Each chat request passes
an HTTP middleware, which reads the user and conversation ids from the
headers. The request then runs a LangGraph state machine:

1. "evaluator" saves the question, loads the stored history and rewrites the
   question.
2. An action evaluator picks Infura retrieval, Solidity retrieval or plain
   chat.
3. On the retrieval path, the documents are retrieved and graded, and an
   answer is generated. The answer is checked for hallucination and
   usefulness.
4. If the answer calls for it, a cURL command is extracted from it, run with
   the Infura key substituted in (up to three attempts), and its output is
   interpreted.
5. "ending" saves the final generation.

Histories live in a Redis store, one list per `user_id:conversation_id`.

The model is split into modules that follow the program:

- `Basics`: Option, Result, and the Python exceptions that can escape.
- `PyStrings`: `str.replace` and `str.strip` with Python's meaning.
- `ChatHistory`: the Redis store, its key scheme and glob matching, and the
  `ChatHistoryManager` class.
- `GraphState`: the state record and the rule that merges a node's returned
  dict into it. Returned keys overwrite, others stay.
- `Edges`: the edge functions of `EdgeGraph`.
- `Nodes`: the nodes of `GraphNodes`. The per-document grading loop and the
  retry loop are methods with loop invariants. The process-wide state (store,
  retriever namespace, ids of the last request) is a `World`. The `GraphNodes`
  and `Retriever` classes update it in place, and their methods are proved
  against the step functions.
- `Workflow`: the graph as `server.py` wires it, and a traversal run. Each
  step consumes one oracle record holding what the models, graders, vector
  store, subprocess, clock and Redis reachability give in that step. A run
  takes a `Setup`: the `INFURA_API_KEY` setting and a `Build`. With
  `AsWritten` the run is that of the code as written, the graph `server.py`
  builds, whose "retrieveInfura" is `RetrieveInfuraAsWrittenStep`. With
  `Corrected` that node is replaced by its repaired form (see Findings).
- `Server`: the middleware, the chat route and the two history routes.

Inputs rather than modelled behaviour:

- everything a language model or grader answers;
- the vector store's search results;
- the outcome of each subprocess attempt;
- `datetime.now()`;
- whether Redis answers in a step;
- the `INFURA_API_KEY` setting.

A run ends in one of three ways:

- it reaches END;
- a node or an edge raises;
- the oracles run out. This is the place of LangGraph's recursion limit.

Points where the model follows the code:

- `retrieveInfura` never switches the retriever back to the Infura collection
  (see Findings). The `AsWritten` build runs this node; `InfuraStepByBuild`
  states what a step through it does in each build.
- `retrieve_conversation_keys` builds its KEYS pattern from the unescaped user
  id (see Findings). `Server.ConversationKeysRoute` takes a `Build` too, and
  with `AsWritten` it returns the keys the glob matches.
- When all three attempts fail, the text `execution` returns quotes the
  command after the Infura key was substituted into it
  (server/utils/nodes.py:353, 389, 400). That text becomes the generation.
  `command_interpreter` puts the generation into its prompt
  (server/utils/nodes.py:472, 490), and "ending" saves the interpretation
  (server/utils/nodes.py:521). `KeyInExhaustedOutput` proves that the key
  occurs in that text. So the key reaches the model and, through whatever the
  model repeats of it, possibly the stored history.
- `action_first` writes `vector_store_namespace` into the state it is given.
  `RouteWriteRedundant` shows that the retrieval node that follows writes the
  same key, so the write changes nothing.
- The execution evaluator's prompt (server/utils/grader.py:151-194) asks for
  the single word "execute" or "no-execute". `decide_to_execute` parses the
  reply as JSON.
  - A bare word does not decode, so the confidence is 0 and the branch is
    "no-execute".
  - A quoted word decodes to a string, on which `.get` raises
    AttributeError.
  - `DecideToExecute` states both cases. The "execute" branch is taken only
    for a JSON object whose score is at least 0.6.
- An absent `conv_id` header is stored as None and later formatted into the
  Redis key as the text "None" (`HeaderText`).
- Scores compare with `>=`, so a score exactly at the threshold passes. A
  JSON `true` counts as the number 1, as a Python bool does.

## Model

| member | source | states |
|---|---|---|
| `PyStrings.ReplaceAll` | server/utils/nodes.py:324 | replacing a pattern by itself changes nothing; a replacement no longer than the pattern never lengthens the string |
| `PyStrings.Strip` | server/utils/nodes.py:324 | the result is never longer than the input (that it is stripped and a slice: `StripIsStripped`, `StripIsSlice`) |
| `PyStrings.LStrip` | server/utils/nodes.py:324 | the result is a suffix of the input and does not start with whitespace |
| `PyStrings.LStripRemovesSpace` | server/utils/nodes.py:324 | everything `lstrip` removes is whitespace |
| `PyStrings.RStrip` | server/utils/nodes.py:324 | the result is a prefix of the input and does not end with whitespace |
| `PyStrings.RStripRemovesSpace` | server/utils/nodes.py:324 | everything `rstrip` removes is whitespace |
| `PyStrings.StripIsStripped` | server/utils/nodes.py:324 | what `strip()` leaves has no whitespace at either end |
| `PyStrings.StripIsSlice` | server/utils/nodes.py:324 | what `strip()` leaves is the contiguous piece of the input that starts after its leading whitespace |
| `PyStrings.ReplaceAbsent` | server/utils/nodes.py:324 | replacing a pattern that does not occur leaves the string unchanged |
| `PyStrings.SliceKeepsAbsence` | server/utils/nodes.py:324 | a piece of a string without the pattern is also without it |
| `PyStrings.StripKeepsAbsence` | server/utils/nodes.py:324 | stripping a string without the pattern leaves it without the pattern |
| `PyStrings.ContainsPrefixOf` | server/utils/nodes.py:324 | a string containing "```bash" contains "```" |
| `PyStrings.StripStripped` | server/utils/nodes.py:324 | stripping a string with no whitespace at its ends changes nothing |
| `PyStrings.ReplaceSingle` | server/utils/nodes.py:353 | replacing the only occurrence of a placeholder, with no occurrence starting before it, puts the replacement exactly there and keeps the rest |
| `PyStrings.ContainsMiddle` | server/utils/nodes.py:389 | a string built around a piece contains that piece |
| `ChatHistory.Messages` | server/utils/chatHistoryManager.py:86 | LRANGE 0 -1 of a key never written is the empty list; of a stored key, its whole list |
| `ChatHistory.GlobMatch` | server/utils/chatHistoryManager.py:64 | a KEYS pattern without `*` or `?` matches exactly the key equal to it |
| `ChatHistory.Key` | server/utils/chatHistoryManager.py:42 | the Redis key starts with `user_id:` and continues with the conversation id |
| `ChatHistory.KeyInjective` | server/utils/chatHistoryManager.py:83 | for user ids without ':', two conversations share a key only if both ids are equal |
| `ChatHistory.KeysCollide` | server/utils/chatHistoryManager.py:42 | a ':' in a user id lets two different (user, conversation) pairs share one key |
| `ChatHistory.Pushed` | server/utils/chatHistoryManager.py:45 | LPUSH puts exactly one record in front of that key's list; every other key keeps its list; the key set gains only that key |
| `ChatHistory.NewestFirst` | server/utils/chatHistoryManager.py:45-86 | after a run of saves, LRANGE 0 -1 returns the saved records newest first, then the older history |
| `ChatHistory.StarMatchesAll` | server/utils/chatHistoryManager.py:64 | the glob `*` matches every key |
| `ChatHistory.PlainPatternIsPrefix` | server/utils/chatHistoryManager.py:64 | for a user id without `*` or `?`, `KEYS user_id:*` matches exactly the keys with prefix `user_id:` |
| `ChatHistory.WildcardUserSeesOthers` | server/utils/chatHistoryManager.py:64 | the pattern built for user id `*` lists another user's conversation key, which does not have the prefix `*:` |
| `ChatHistory.AsWrittenAgreesOnPlainIds` | server/utils/chatHistoryManager.py:52-68 | for user ids without wildcards, the as-written keys query and the prefix query return the same keys |
| `ChatHistory.ChatHistoryManager.constructor` | server/utils/chatHistoryManager.py:16 | a client starts on the store it connects to |
| `ChatHistory.ChatHistoryManager.Connect` | server/utils/chatHistoryManager.py:6-16 | ValueError with the documented message exactly when the URL or the token is missing or empty; otherwise a fresh manager on the store |
| `ChatHistory.ChatHistoryManager.SaveMessage` | server/utils/chatHistoryManager.py:18-50 | True exactly when Redis answers; the record is then pushed in front of the conversation's list, and the store is untouched otherwise |
| `ChatHistory.ChatHistoryManager.GetAllMessages` | server/utils/chatHistoryManager.py:70-91 | the conversation's whole list (empty for an unknown key), or [] when Redis fails; nothing changes |
| `ChatHistory.ChatHistoryManager.RetrieveConversationKeys` | server/utils/chatHistoryManager.py:52-68 | corrected: exactly the stored keys with prefix `user_id:`, or none when Redis fails |
| `ChatHistory.ChatHistoryManager.RetrieveConversationKeysAsWritten` | server/utils/chatHistoryManager.py:52-68 | as written: the stored keys matching the glob `user_id:*`, or none when Redis fails |
| `GraphState.Merge` | server/utils/graph.py:6-24 | every key the node's dict holds replaces that key of the state; every other key keeps its value |
| `Edges.DecideToGenerate` | server/utils/edges.py:13-31 | "transform_query" exactly when no document is left, "generate" exactly when some is |
| `Edges.GradeGeneration` | server/utils/edges.py:33-62 | "not supported" iff the groundedness score is below 0.5; "useful" or "not useful" by the usefulness score otherwise; KeyError or TypeError exactly when a consulted score is missing or not a number |
| `Edges.UngroundedIgnoresUsefulness` | server/utils/edges.py:49-62 | an ungrounded answer is "not supported" whatever the code evaluator says |
| `Edges.ActionFirst` | server/utils/edges.py:64-86 | "infura" iff the reply is exactly "infura", "solidity" iff it is exactly "solidity", "chat" otherwise; each retrieval route writes its collection into the state |
| `Edges.ExecutionAction` | server/utils/edges.py:88-106 | every call raises AttributeError |
| `Edges.ScoredBranch` | server/utils/edges.py:131-144 | the upper label iff the reply is an object whose score is a number at least 0.6; an exception exactly for a non-object or a non-number score; the lower label otherwise, including an undecodable reply |
| `Edges.DecideToExecute` | server/utils/edges.py:108-144 | "execute" iff the confidence is at least 0.6, "no-execute" for every other usable reply, raises for the unusable ones |
| `Edges.ParamsCheck` | server/utils/edges.py:166-202 | "params-needed" iff the confidence is at least 0.6, "no-params-needed" otherwise, raises for unusable replies |
| `Edges.ParamsProvided` | server/utils/edges.py:204-238 | "params-provided" iff the confidence is at least 0.6, "params-not-provided" otherwise, raises for unusable replies (the comparison's TypeError is not caught) |
| `Edges.ThresholdIsInclusive` | server/utils/edges.py:138-139 | a score of exactly 0.6 passes all three scored decisions |
| `Edges.ExecuteIsMonotone` | server/utils/edges.py:138-144 | raising the confidence never turns "execute" into "no-execute" |
| `Edges.ToolDirection` | server/utils/edges.py:146-163 | "infura" iff the state names "infura-docs", "solidity" for every other namespace |
| `Nodes.Carry` | server/utils/nodes.py:403-424 | merging the returned dict changes the generation and nothing else |
| `Nodes.Relevant` | server/utils/nodes.py:243-252 | grading never keeps more documents than it was given |
| `Nodes.RelevantIsFilter` | server/utils/nodes.py:243-252 | the kept documents are exactly the input documents graded "yes": each kept one was graded "yes", and none graded "yes" is lost |
| `Nodes.RelevantAppend` | server/utils/nodes.py:244-252 | grading a concatenation keeps the relevant documents of each part, in order |
| `Nodes.RelevantAllYes` | server/utils/nodes.py:244-252 | when every document is graded "yes", grading keeps the list unchanged |
| `Nodes.GradeDocumentsUpdate` | server/utils/nodes.py:226-254 | KeyError exactly when some grader reply lacks "score"; otherwise only the documents change, to the relevant ones |
| `Nodes.GradeDocuments` | server/utils/nodes.py:226-254 | the loop over the documents returns exactly what the grading specification gives |
| `Nodes.Chat` | server/utils/nodes.py:108-159 | the history gains the question and then the answer; the generation is the answer; the documents become empty |
| `Nodes.Generate` | server/utils/nodes.py:208-224 | only the generation changes, and the history is not returned |
| `Nodes.TransformQuery` | server/utils/nodes.py:256-272 | only the input changes, to the re-phrased question |
| `Nodes.CleanCommand` | server/utils/nodes.py:324 | the cleaned command has no "```" and no "```bash" anywhere, and no whitespace at its ends |
| `Nodes.StripKeepsFenceOut` | server/utils/nodes.py:324 | after every "```" is removed, stripping leaves neither "```" nor "```bash" |
| `Nodes.StripOfFenceFree` | server/utils/nodes.py:324 | stripping text without "```" leaves it without "```" and without "```bash" |
| `Nodes.FenceInBashFence` | server/utils/nodes.py:324 | text holding "```bash" holds "```" |
| `Nodes.NoFenceAfterRemoval` | server/utils/nodes.py:324 | removing every "```" in one left-to-right pass never leaves a "```" behind |
| `Nodes.NoRunAtHead` | server/utils/nodes.py:324 | for a pattern of three equal characters, removal from a string that does not start with it does not create one at the head |
| `Nodes.CleanKeepsClean` | server/utils/nodes.py:324 | a command already stripped and without "```" comes out of the cleanup unchanged |
| `Nodes.CleanIdempotent` | server/utils/nodes.py:324 | cleaning an already cleaned command changes nothing |
| `Nodes.TransformExecution` | server/utils/nodes.py:274-334 | only the generation changes, to the cleaned command |
| `Nodes.PathToExecution` | server/utils/nodes.py:426-443 | merging the returned dict leaves the state as it was |
| `Nodes.CommandInterpreter` | server/utils/nodes.py:445-499 | only the generation changes, to the interpretation |
| `Nodes.AttemptsMade` | server/utils/nodes.py:360-401 | at most three attempts; no earlier attempt succeeded; stopping before the last means the last attempt made succeeded |
| `Nodes.ExecutionOutput` | server/utils/nodes.py:363-401 | the stdout of the first of the three attempts that succeeds; when none does, the timeout message if the third attempt timed out and the plain unavailable message otherwise |
| `Nodes.FirstSuccessWins` | server/utils/nodes.py:363-380 | the first successful attempt ends the retries and its stdout is the result |
| `Nodes.ExhaustedIsReported` | server/utils/nodes.py:382-401 | after three failures the message says "due to a timeout" exactly when the third attempt timed out |
| `Nodes.StderrNotSurfaced` | server/utils/nodes.py:392-401 | outcomes that differ only in stderr text give the same result |
| `Nodes.KeySubstituted` | server/utils/nodes.py:353 | a command with one "{infuraKey}" placeholder gets the key there and is otherwise unchanged |
| `Nodes.KeyInExhaustedOutput` | server/utils/nodes.py:353-401 | after three failed attempts the returned text contains the Infura key |
| `Nodes.ExecutionNode` | server/utils/nodes.py:336-401 | TypeError exactly when the key is not set; otherwise only the generation changes, to the retry result for the command with the key substituted |
| `Nodes.Execution` | server/utils/nodes.py:336-401 | the retry loop returns what the execution specification gives and sleeps once fewer than it attempts |
| `Nodes.StoredAll` | server/utils/nodes.py:68 | every loaded record becomes one history entry, in order |
| `Nodes.RewriteQuestionStep` | server/utils/nodes.py:45-106 | the question is saved under the ids of the last request; the state gets those ids, the rewritten question as generation and no documents; an empty history is reloaded from the store and then starts with the question just saved |
| `Nodes.EndingStep` | server/utils/nodes.py:501-528 | the generation is saved as "assistant" under the state's ids; the state is unchanged |
| `Nodes.RetrieveInfuraStep` | server/utils/nodes.py:161-181 | corrected: the retriever is switched to "infura-docs", and the documents come from that collection |
| `Nodes.RetrieveInfuraAsWrittenStep` | server/utils/nodes.py:161-181 | as written: the retriever is left alone, the documents come from its current collection, and the state is told "infura-docs" |
| `Nodes.RetrieveSolidityStep` | server/utils/nodes.py:183-205 | the retriever is switched to "solidity-docs", and the documents come from it |
| `Nodes.StaleNamespaceAfterSolidity` | server/utils/nodes.py:177-181 | after a Solidity retrieval, the as-written Infura node searches the Solidity collection but reports "infura-docs" |
| `Nodes.InfuraSearchesInfura` | server/utils/nodes.py:177-181 | the corrected Infura node searches the Infura collection whatever came before |
| `Nodes.Retriever.constructor` | server/app/server.py:41-46 | the retriever starts on the collection it is given |
| `Nodes.Retriever.SetNamespace` | server/utils/pinecone_store.py:26-34 | later searches go to the new collection |
| `Nodes.GraphNodes.constructor` | server/utils/nodes.py:17-28 | both ids start empty |
| `Nodes.GraphNodes.SaveChatInfo` | server/utils/nodes.py:30-42 | the two ids are replaced; the store and the retriever are untouched |
| `Nodes.GraphNodes.RewriteQuestion` | server/utils/nodes.py:45-106 | the in-place store update and the returned dict are those of `RewriteQuestionStep` |
| `Nodes.GraphNodes.RetrieveInfura` | server/utils/nodes.py:161-181 | corrected: the in-place retriever update and the dict are those of `RetrieveInfuraStep` |
| `Nodes.GraphNodes.RetrieveInfuraAsWritten` | server/utils/nodes.py:161-181 | as written: nothing changes, and the dict is that of `RetrieveInfuraAsWrittenStep` |
| `Nodes.GraphNodes.RetrieveSolidity` | server/utils/nodes.py:183-205 | the retriever update and the dict are those of `RetrieveSolidityStep` |
| `Nodes.GraphNodes.Ending` | server/utils/nodes.py:501-528 | the store update and the dict are those of `EndingStep` |
| `Workflow.Wiring` | server/app/server.py:109-165 | exactly "evaluator", "grade_documents", "transform_query", "generate" and "path_to_execution" have conditional edges; exactly "ending" leads to END |
| `Workflow.RunNode` | server/app/server.py:96-107 | a node raises exactly when grading meets a reply without "score" or execution runs without the Infura key; no node changes the ids; only the retrieval nodes, "evaluator" and "ending" touch the world; "retrieveInfura" is the as-written or the repaired node by the build |
| `Workflow.Step` | server/app/server.py:109-165 | a step that does not raise merges its node's dict into the state and goes to a successor of the node; only "grade_documents", "execution", "generate" and "path_to_execution" can raise |
| `Workflow.Run` | server/app/server.py:109-165 | a run visits at most one node per oracle, starts at its first node, and runs out of fuel only after using every oracle; the `AsWritten` build is the graph server.py compiles, the `Corrected` one differs in "retrieveInfura" only |
| `Workflow.OnlyEndingStops` | server/app/server.py:121 | only "ending" leads to END, and every other node has an outgoing edge |
| `Workflow.BranchLeadsTo` | server/app/server.py:111-161 | each node a branch map names is a successor of its node |
| `Workflow.TowardEnding` | server/app/server.py:111-165 | every node except "ending" has a successor one edge nearer to "ending", which is at most five edges from any node |
| `Workflow.ParamsLabelsUnwired` | server/app/server.py:111-161 | no branch map routes "params-needed", "params-provided" or "params-not-provided" |
| `Workflow.LabelsAreRouted` | server/app/server.py:111-161 | every label an edge function returns is a key of its node's branch map |
| `Workflow.Route` | server/app/server.py:109-165 | an edge leads to a successor of its node, to END only from "ending", and raises only at "generate" or "path_to_execution", never for an unmapped label |
| `Workflow.TraceFollowsEdges` | server/app/server.py:109-165 | each node of a run's trace is a wired successor of the node before it |
| `Workflow.FinishedAtEnding` | server/app/server.py:121 | a run that reaches END visited "ending" last |
| `Workflow.GradingDecides` | server/app/server.py:127-134 | after grading, the run goes on to "generate" exactly when some document was graded "yes" |
| `Workflow.RetryKeepsCollection` | server/app/server.py:136-143 | a re-phrased question goes back to the retrieval node of the collection the state names |
| `Workflow.RouteWriteRedundant` | server/utils/edges.py:76-83 | in either build, the namespace `action_first` writes is overwritten by the next node with the same value |
| `Workflow.InfuraStepByBuild` | server/utils/nodes.py:161-181 | as written, a step through "retrieveInfura" searches the retriever's current collection and leaves the world alone; repaired, it searches "infura-docs" and leaves the retriever there; both go on to "grade_documents" |
| `Workflow.GenerateHasDocuments` | server/app/server.py:127-152 | a step into "generate" leaves documents in the state, from grading or from generate's own retry edge |
| `Workflow.HallucinationLoop` | server/app/server.py:144-152 | while groundedness stays below 0.5, the run loops on "generate" until it runs out of steps, leaving the world unchanged |
| `Workflow.ChatTurn` | server/app/server.py:109-122 | a chat question runs evaluator, chat, ending; the answer is the generation; the history is the stored conversation (question first), then question and answer; the store gains the question and then the answer |
| `Workflow.StepKeepsIds` | server/app/server.py:96-107 | no node changes the ids the GraphNodes object holds |
| `Workflow.RunKeepsIds` | server/app/server.py:109-165 | a whole run leaves those ids as they were |
| `Server.HeaderText` | server/app/server.py:236-237 | a present header keeps its value |
| `Server.Middleware` | server/app/server.py:229-251 | OPTIONS passes on; otherwise 403 "User ID header missing" exactly when `user_id` is absent or empty; otherwise the request is identified by its two headers |
| `Server.MissingConversationIsNone` | server/app/server.py:237-248 | a request without `conv_id` is filed under the conversation "None" |
| `Server.Admit` | server/app/server.py:229-251 | the ids of an identified request replace those on the GraphNodes object; other requests change nothing |
| `Server.ConversationKeysRoute` | server/app/server.py:253-268 | 404 exactly when the user has no keys (or Redis failed); the keys otherwise; as written these are the keys `KEYS user_id:*` matches, corrected those with prefix `user_id:` |
| `Server.MessagesRoute` | server/app/server.py:271-287 | 404 exactly when the conversation has no messages (or Redis failed); the messages, newest first, otherwise |
| `Server.ChatRoute` | server/app/server.py:290-295 | the middleware's verdict, then the run from "evaluator" under the request's ids; the store and the retriever keep what the run did; with the `AsWritten` build it is the run of the graph server.py compiles |

## Left out

- Prompts and model calls: every model, grader and evaluator answer is an input. Prompt texts and printing are not modelled.
- Subprocess and sleeping: each attempt's outcome (success with stdout, timeout, non-zero exit with stderr) is an input. The two-second sleeps are counted, not performed, and the ten-second timeout is part of the outcome.
- UTF-8 decoding: decoding of stdout and stderr is not modelled, so neither is a UnicodeDecodeError.
- JSON: the encoding of stored records and decoding of loaded ones is not modelled. A stored record is a value.
- Grader replies: a retrieval, hallucination or code grader reply that is not a JSON object is not modelled. The existing cases are a present score, a missing score and a non-numeric score.
- ChatHistory.GlobMatch: only `*`, `?` and literal characters are modelled. Redis `[...]` classes and `\` escapes are not.
- Redis failures: one reachability flag per step covers both the save and the load of `rewrite_question`. A failure is treated as the whole call failing.
- Concurrency: the ids on the shared GraphNodes object are overwritten by every request. Interleaved requests, which could save under another request's ids, are not modelled.
- EdgeGraph construction: server.py:94 passes four arguments where edges.py:4 takes six. That raises TypeError when the module loads. The model assumes the graph was built.
- Unused code: `check_authentication` (server.py:186-189) is never called, and the root redirect (server.py:225-227) is routing only. Neither is modelled.
- LangGraph internals: the recursion limit is the length of the oracle list. The copy semantics of the dict handed to a node are not modelled. The in-place writes at nodes.py:149-150, 327 and 373 touch keys that the returned dict sets anyway.
- FastAPI internals: what the framework does with an HTTPException raised inside the middleware, and the request and response validation of `add_routes`, are not modelled.
- Unmodelled files: the vector store itself, the document loader, tools.py, the generate chain and the web client are not part of this model.
- Nodes.Relevant: grades are a function of the document, so two equal documents always get the same grade; `grade_documents` (server/utils/nodes.py:244-252) asks the retrieval grader once per position and could get different answers for equal documents.

## Findings

| source | as written | input that shows it | evidently intended | confidence | as-written member | corrected member |
|---|---|---|---|---|---|---|
| server/utils/nodes.py:177-181 | `retrieveInfura` searches the retriever's current namespace and never sets it back to "infura-docs" | a Solidity question, then an Infura question later in the same process; the second is answered from "solidity-docs" while the state says "infura-docs" | switch the retriever to "infura-docs" before searching, as `retrieveSolidity` does for its own collection | not executed | `Nodes.GraphNodes.RetrieveInfuraAsWritten` (lemma `Nodes.StaleNamespaceAfterSolidity`) | `Nodes.GraphNodes.RetrieveInfura` (lemma `Nodes.InfuraSearchesInfura`) |
| server/utils/chatHistoryManager.py:64 | the KEYS pattern is `f"{user_id}:*"` with the user id unescaped | user id `*` gets the pattern `*:*`, which lists `bob:c1` | list only the keys that start with `user_id:` | not executed | `ChatHistory.ChatHistoryManager.RetrieveConversationKeysAsWritten` (lemma `ChatHistory.WildcardUserSeesOthers`) | `ChatHistory.ChatHistoryManager.RetrieveConversationKeys` (lemma `ChatHistory.AsWrittenAgreesOnPlainIds`) |
