/**
 * The graph server/app/server.py builds (lines 96-165): twelve nodes, the
 * entry point "evaluator", the direct edges and the conditional edges with
 * their label maps, and a traversal that runs one node and one edge per
 * step. What the models, graders, vector store and subprocess answer in a
 * step is a `StepOracle`; the run ends at END, when a node or an edge
 * raises, or when the oracles run out.
 */
module Workflow {
  import opened Basics
  import opened ChatHistory
  import opened GraphState
  import opened Edges
  import opened Nodes

  datatype Node =
    | Evaluator | RetrieveInfura | RetrieveSolidity | GradeDocuments | Generate | TransformQuery
    | Chat | TransformExecution | Execution | PathToExecution | CommandInterpreter | Ending

  /** Where an edge leads: a node, or END. */
  datatype Target = Goto(node: Node) | Stop

  datatype Edge = Direct(target: Target) | Branch(routes: map<string, Node>)

  const Entry := Evaluator

  /** The edges `workflow` is given, node by node. */
  function Wiring(n: Node): (e: Edge)
    ensures e.Branch? <==> n in {Evaluator, GradeDocuments, TransformQuery, Generate, PathToExecution}
    ensures e == Direct(Stop) <==> n == Ending
  {
    match n
    case Evaluator => Branch(map[InfuraBranch := RetrieveInfura, SolidityBranch := RetrieveSolidity, ChatBranch := Chat])
    case Ending => Direct(Stop)
    case Chat => Direct(Goto(Ending))
    case RetrieveInfura => Direct(Goto(GradeDocuments))
    case RetrieveSolidity => Direct(Goto(GradeDocuments))
    case GradeDocuments => Branch(map[TransformQueryBranch := TransformQuery, GenerateBranch := Generate])
    case TransformQuery => Branch(map[InfuraBranch := RetrieveInfura, SolidityBranch := RetrieveSolidity])
    case Generate => Branch(map[NotSupported := Generate, Useful := PathToExecution, NotUseful := TransformQuery])
    case PathToExecution => Branch(map[Execute := TransformExecution, NoExecute := Ending])
    case TransformExecution => Direct(Goto(Execution))
    case Execution => Direct(Goto(CommandInterpreter))
    case CommandInterpreter => Direct(Goto(Ending))
  }

  /** The nodes an edge of `n` can lead to. */
  function Successors(n: Node): set<Node> {
    match Wiring(n)
    case Direct(Goto(m)) => {m}
    case Direct(Stop) => {}
    case Branch(routes) => set branch | branch in routes :: routes[branch]
  }

  /** Only "ending" leads to END, and every other node has somewhere to go. */
  lemma OnlyEndingStops(n: Node)
    ensures Wiring(n) == Direct(Stop) <==> n == Ending
    ensures n != Ending ==> Successors(n) != {}
  {
    match n
    case Evaluator => BranchLeadsTo(n, ChatBranch);
    case GradeDocuments => BranchLeadsTo(n, GenerateBranch);
    case TransformQuery => BranchLeadsTo(n, InfuraBranch);
    case Generate => BranchLeadsTo(n, Useful);
    case PathToExecution => BranchLeadsTo(n, NoExecute);
    case _ =>
  }

  lemma BranchLeadsTo(n: Node, branch: string)
    requires Wiring(n).Branch? && branch in Wiring(n).routes
    ensures Wiring(n).routes[branch] in Successors(n)
  {
  }

  /** The number of edges on the shortest way from `n` to "ending". */
  function Distance(n: Node): nat {
    match n
    case Ending => 0
    case CommandInterpreter | Chat | PathToExecution => 1
    case Execution | Generate | Evaluator => 2
    case TransformExecution | GradeDocuments => 3
    case RetrieveInfura | RetrieveSolidity => 4
    case TransformQuery => 5
  }

  /**
   * A successor one edge closer to "ending": following it from any node
   * reaches "ending", and END, in at most five edges.
   */
  function TowardEnding(n: Node): (m: Node)
    requires n != Ending
    ensures m in Successors(n) && Distance(m) == Distance(n) - 1
  {
    match n
    case CommandInterpreter => Ending
    case Chat => Ending
    case PathToExecution => BranchLeadsTo(n, NoExecute); Ending
    case Execution => CommandInterpreter
    case Generate => BranchLeadsTo(n, Useful); PathToExecution
    case Evaluator => BranchLeadsTo(n, ChatBranch); Chat
    case TransformExecution => Execution
    case GradeDocuments => BranchLeadsTo(n, GenerateBranch); Generate
    case RetrieveInfura => GradeDocuments
    case RetrieveSolidity => GradeDocuments
    case TransformQuery => BranchLeadsTo(n, InfuraBranch); RetrieveInfura
  }

  /** The three labels edges.py can return but no branch map of the graph routes. */
  lemma ParamsLabelsUnwired(n: Node)
    ensures Wiring(n).Branch? ==>
      ParamsNeeded !in Wiring(n).routes && ParamsProvidedBranch !in Wiring(n).routes && ParamsNotProvided !in Wiring(n).routes
  {
  }

  /** What one step is told by the world outside the model. */
  datatype StepOracle = StepOracle(
    reply: string,           // the language model's text: rewritten question, answer, command, ...
    decision: string,        // the action evaluator's raw reply
    relevance: Grader,       // the retrieval grader, per document
    search: Search,          // the vector store
    groundedness: ScoreField,
    usefulness: ScoreField,
    executeReply: Reply,     // the execution evaluator's raw reply, decoded
    attempts: Attempts,      // how the subprocess attempts end
    reachable: bool,         // whether Redis answers
    timestamp: string)       // `datetime.now()`

  /**
   * What the process is started with: the INFURA_API_KEY setting (`None`
   * when it is not set) and whether `retrieveInfura` is the node as written,
   * which server.py adds to the graph, or the repaired one.
   */
  datatype Setup = Setup(infuraKey: Option<string>, build: Build)

  /** Runs the node `n`: the world after it and the dict it returns. */
  function RunNode(n: Node, s: State, w: World, o: StepOracle, cfg: Setup): (r: Result<(World, Update)>)
    ensures r.Raised? <==>
      || (n == GradeDocuments && !AllGraded(s.documents, o.relevance))
      || (n == Execution && cfg.infuraKey.None?)
    ensures r.Ok? ==> r.value.0.userId == w.userId && r.value.0.convId == w.convId
    ensures r.Ok? && n !in {Evaluator, RetrieveInfura, RetrieveSolidity, Ending} ==> r.value.0 == w
  {
    match n
    case Evaluator => Ok(RewriteQuestionStep(w, s, o.reply, o.timestamp, o.reachable))
    case RetrieveInfura =>
      if cfg.build.AsWritten? then Ok(RetrieveInfuraAsWrittenStep(w, s, o.search)) else Ok(RetrieveInfuraStep(w, s, o.search))
    case RetrieveSolidity => Ok(RetrieveSolidityStep(w, s, o.search))
    case GradeDocuments =>
      (match GradeDocumentsUpdate(s, o.relevance)
       case Raised(e) => Raised(e)
       case Ok(u) => Ok((w, u)))
    case Generate => Ok((w, Nodes.Generate(s, o.reply)))
    case TransformQuery => Ok((w, Nodes.TransformQuery(s, o.reply)))
    case Chat => Ok((w, Nodes.Chat(s, o.reply)))
    case TransformExecution => Ok((w, Nodes.TransformExecution(s, o.reply)))
    case Execution =>
      (match ExecutionNode(s, cfg.infuraKey, o.attempts)
       case Raised(e) => Raised(e)
       case Ok(u) => Ok((w, u)))
    case PathToExecution => Ok((w, Nodes.PathToExecution(s)))
    case CommandInterpreter => Ok((w, Nodes.CommandInterpreter(s, o.reply)))
    case Ending => Ok(EndingStep(w, s, o.timestamp, o.reachable))
  }

  /** The label the edge function of a branching node returns for the merged state. */
  function Label(n: Node, s: State, o: StepOracle): Result<string>
    requires Wiring(n).Branch?
  {
    match n
    case Evaluator => Ok(ActionFirst(s, o.decision).0)
    case GradeDocuments => Ok(DecideToGenerate(s))
    case TransformQuery => Ok(ToolDirection(s))
    case Generate => GradeGeneration(o.groundedness, o.usefulness)
    case PathToExecution => DecideToExecute(o.executeReply)
    case _ => Ok("")
  }

  /** Every label an edge function returns is a label of its branch map. */
  lemma LabelsAreRouted(n: Node, s: State, o: StepOracle)
    requires Wiring(n).Branch? && Label(n, s, o).Ok?
    ensures Label(n, s, o).value in Wiring(n).routes
  {
  }

  /** Where the graph goes after `n` left the state `s`. */
  function Route(n: Node, s: State, o: StepOracle): (r: Result<Target>)
    ensures r.Raised? ==> n in {Generate, PathToExecution} && !r.error.UnmappedBranch?
    ensures r.Ok? && r.value.Goto? ==> r.value.node in Successors(n)
    ensures r.Ok? && r.value.Stop? <==> n == Ending
  {
    match Wiring(n)
    case Direct(t) => Ok(t)
    case Branch(routes) =>
      match Label(n, s, o)
      case Raised(e) => Raised(e)
      case Ok(branch) =>
        LabelsAreRouted(n, s, o);
        if branch in routes then Ok(Goto(routes[branch])) else Raised(UnmappedBranch(branch))
  }

  /** One step: the node at `n`, its dict merged into the state, then its edge. */
  function Step(n: Node, s: State, w: World, o: StepOracle, cfg: Setup): (r: (World, Result<(State, Target)>))
    ensures r.1.Ok? ==> RunNode(n, s, w, o, cfg).Ok? && r.1.value.0 == Merge(s, RunNode(n, s, w, o, cfg).value.1)
    ensures r.1.Ok? && r.1.value.1.Goto? ==> r.1.value.1.node in Successors(n)
    ensures r.1.Raised? ==> n in {GradeDocuments, Execution, Generate, PathToExecution}
  {
    match RunNode(n, s, w, o, cfg)
    case Raised(e) => (w, Raised(e))
    case Ok((w', u)) =>
      var s' := Merge(s, u);
      match Route(n, s', o)
      case Raised(e) => (w', Raised(e))
      case Ok(t) => (w', Ok((s', t)))
  }

  datatype RunResult =
    | Finished(state: State, world: World)
    | OutOfFuel(at: Node, state: State, world: World)
    | Failed(at: Node, error: Exception, world: World)

  /** The run from `n`, one oracle per step, with the nodes it visited in order. */
  function Run(n: Node, s: State, w: World, oracles: seq<StepOracle>, cfg: Setup): (r: (RunResult, seq<Node>))
    ensures |r.1| <= |oracles|
    ensures r.0.OutOfFuel? ==> |r.1| == |oracles|
    ensures oracles != [] ==> r.1 != [] && r.1[0] == n
    decreases |oracles|
  {
    if oracles == [] then (OutOfFuel(n, s, w), [])
    else
      match Step(n, s, w, oracles[0], cfg)
      case (w', Raised(e)) => (Failed(n, e, w'), [n])
      case (w', Ok((s', Stop))) => (Finished(s', w'), [n])
      case (w', Ok((s', Goto(m)))) =>
        var (r, trace) := Run(m, s', w', oracles[1..], cfg);
        (r, [n] + trace)
  }

  /** Each node of a trace is followed by one of its successors. */
  lemma {:induction false} TraceFollowsEdges(n: Node, s: State, w: World, oracles: seq<StepOracle>, cfg: Setup)
    ensures var trace := Run(n, s, w, oracles, cfg).1;
      forall i :: 0 <= i < |trace| - 1 ==> trace[i + 1] in Successors(trace[i])
    decreases |oracles|
  {
    if oracles != [] {
      var (w', r) := Step(n, s, w, oracles[0], cfg);
      if r.Ok? && r.value.1.Goto? {
        var m := r.value.1.node;
        TraceFollowsEdges(m, r.value.0, w', oracles[1..], cfg);
        var rest := Run(m, r.value.0, w', oracles[1..], cfg).1;
        assert var tr := Run(m, r.value.0, w', oracles[1..], cfg).1;
          forall i :: 0 <= i < |tr| - 1 ==> tr[i + 1] in Successors(tr[i]);
        assert forall i :: 0 <= i < |rest| - 1 ==> rest[i + 1] in Successors(rest[i]);
        var full := Run(n, s, w, oracles, cfg).1;
        assert full == [n] + rest;
        forall i | 0 <= i < |full| - 1
          ensures full[i + 1] in Successors(full[i])
        {
          if i > 0 {
            assert full[i + 1] == rest[i] && full[i] == rest[i - 1];
            assert rest[(i - 1) + 1] in Successors(rest[i - 1]);
          } else {
            assert full[1] == rest[0] == m;
          }
        }
      }
    }
  }

  /** A run reaches END only through "ending". */
  lemma {:induction false} FinishedAtEnding(n: Node, s: State, w: World, oracles: seq<StepOracle>, cfg: Setup)
    requires Run(n, s, w, oracles, cfg).0.Finished?
    ensures var trace := Run(n, s, w, oracles, cfg).1; trace != [] && trace[|trace| - 1] == Ending
    decreases |oracles|
  {
    match Step(n, s, w, oracles[0], cfg)
    case (w', Ok((s', Stop))) =>
    case (w', Ok((s', Goto(m)))) =>
      FinishedAtEnding(m, s', w', oracles[1..], cfg);
  }

  /** The grading edge sends the run on to "generate" exactly when some document was graded relevant. */
  lemma GradingDecides(s: State, w: World, o: StepOracle, cfg: Setup)
    requires AllGraded(s.documents, o.relevance)
    ensures Step(GradeDocuments, s, w, o, cfg).1.Ok?
    ensures Step(GradeDocuments, s, w, o, cfg).1.value.1 == Goto(Generate)
        <==> exists d :: d in s.documents && o.relevance(d) == Some("yes")
  {
    var kept := Relevant(s.documents, o.relevance);
    RelevantIsFilter(s.documents, o.relevance);
    var s' := s.(documents := kept);
    assert Step(GradeDocuments, s, w, o, cfg) == (w, Ok((s', if kept == [] then Goto(TransformQuery) else Goto(Generate))));
    if exists d :: d in s.documents && o.relevance(d) == Some("yes") {
      var d :| d in s.documents && o.relevance(d) == Some("yes");
      assert d in kept;
    } else if kept != [] {
      assert kept[0] in kept;
    }
  }

  /** A re-phrased question goes back to the collection the state names. */
  lemma RetryKeepsCollection(s: State, w: World, o: StepOracle, cfg: Setup)
    ensures Step(TransformQuery, s, w, o, cfg).1 ==
      Ok((s.(input := o.reply), Goto(if s.namespace == InfuraDocs then RetrieveInfura else RetrieveSolidity)))
  {
  }

  /**
   * The namespace `action_first` writes into the state is overwritten by the
   * retrieval node the route leads to, in either build, so the run is the
   * same whether that write reaches the state or not.
   */
  lemma RouteWriteRedundant(s: State, w: World, o: StepOracle, cfg: Setup)
    requires o.decision == InfuraBranch || o.decision == SolidityBranch
    ensures var (branch, written) := ActionFirst(s, o.decision);
      var m := Wiring(Evaluator).routes[branch];
      Merge(written, RunNode(m, written, w, o, cfg).value.1) == Merge(s, RunNode(m, s, w, o, cfg).value.1)
  {
    var (branch, written) := ActionFirst(s, o.decision);
    var routes := map[InfuraBranch := RetrieveInfura, SolidityBranch := RetrieveSolidity, ChatBranch := Chat];
    assert Wiring(Evaluator).routes == routes;
    if branch == InfuraBranch {
      assert routes[branch] == RetrieveInfura;
    } else {
      assert routes[branch] == RetrieveSolidity;
    }
  }

  /**
   * In the graph as server.py builds it, "retrieveInfura" searches the
   * collection the retriever was left on and leaves it there, while the state
   * is told "infura-docs"; the repaired node always searches "infura-docs".
   */
  lemma InfuraStepByBuild(s: State, w: World, o: StepOracle, infuraKey: Option<string>)
    ensures var (w', r) := Step(RetrieveInfura, s, w, o, Setup(infuraKey, AsWritten));
      && r == Ok((s.(documents := o.search(w.namespace, s.input), namespace := InfuraDocs), Goto(GradeDocuments)))
      && w' == w
    ensures var (w', r) := Step(RetrieveInfura, s, w, o, Setup(infuraKey, Corrected));
      && r == Ok((s.(documents := o.search(InfuraDocs, s.input), namespace := InfuraDocs), Goto(GradeDocuments)))
      && w' == w.(namespace := InfuraDocs)
  {
  }

  /**
   * "generate" is entered with documents only: from "grade_documents" when
   * grading kept some, and from its own "not supported" edge, which leaves the
   * documents as they were.
   */
  lemma GenerateHasDocuments(n: Node, s: State, w: World, o: StepOracle, cfg: Setup)
    requires n == Generate ==> s.documents != []
    requires Step(n, s, w, o, cfg).1.Ok? && Step(n, s, w, o, cfg).1.value.1 == Goto(Generate)
    ensures Step(n, s, w, o, cfg).1.value.0.documents != []
  {
    assert n in {GradeDocuments, Generate};
  }

  /** While the hallucination grader scores below 0.5, the run loops on "generate" until the oracles run out. */
  lemma {:induction false} HallucinationLoop(s: State, w: World, oracles: seq<StepOracle>, cfg: Setup)
    requires forall i :: 0 <= i < |oracles| ==>
      oracles[i].groundedness.Number? && oracles[i].groundedness.value < GroundednessThreshold
    ensures var (r, trace) := Run(Generate, s, w, oracles, cfg);
      && r.OutOfFuel? && r.at == Generate && r.world == w
      && |trace| == |oracles| && forall i :: 0 <= i < |trace| ==> trace[i] == Generate
    decreases |oracles|
  {
    if oracles != [] {
      var s' := Merge(s, Nodes.Generate(s, oracles[0].reply));
      assert Step(Generate, s, w, oracles[0], cfg) == (w, Ok((s', Goto(Generate))));
      HallucinationLoop(s', w, oracles[1..], cfg);
    }
  }

  /**
   * A question the action evaluator does not send to a collection: three
   * steps through "evaluator", "chat" and "ending". The answer becomes the
   * generation, the history holds the stored conversation (the question just
   * saved first) and then the new exchange, and the store gains the question
   * and then the answer.
   */
  lemma ChatTurn(q: string, w: World, o1: StepOracle, o2: StepOracle, o3: StepOracle, cfg: Setup)
    requires o1.decision != InfuraBranch && o1.decision != SolidityBranch
    requires o1.reachable && o3.reachable
    ensures var k := Key(w.userId, w.convId);
      var (r, trace) := Run(Entry, Initial(q), w, [o1, o2, o3], cfg);
      && trace == [Evaluator, Chat, Ending]
      && r.Finished?
      && r.state.input == q && r.state.generation == o2.reply && r.state.documents == []
      && r.state.chatHistory ==
         [Stored(Record("user", q, o1.timestamp))] + StoredAll(Messages(w.store, k)) + [HumanMessage(q), AIMessage(o2.reply)]
      && Messages(r.world.store, k) ==
         [Record("assistant", o2.reply, o3.timestamp), Record("user", q, o1.timestamp)] + Messages(w.store, k)
  {
    var k := Key(w.userId, w.convId);
    var oracles := [o1, o2, o3];
    var (w1, u1) := RewriteQuestionStep(w, Initial(q), o1.reply, o1.timestamp, true);
    var s1 := Merge(Initial(q), u1);
    assert Step(Evaluator, Initial(q), w, o1, cfg) == (w1, Ok((s1, Goto(Chat))));
    var s2 := Merge(s1, Nodes.Chat(s1, o2.reply));
    assert Step(Chat, s1, w1, o2, cfg) == (w1, Ok((s2, Goto(Ending))));
    var (w3, u3) := EndingStep(w1, s2, o3.timestamp, true);
    assert Step(Ending, s2, w1, o3, cfg) == (w3, Ok((s2, Stop)));
    assert oracles[1..] == [o2, o3] && oracles[1..][1..] == [o3];
    assert Run(Ending, s2, w1, [o3], cfg) == (Finished(s2, w3), [Ending]);
    assert [o2, o3][1..] == [o3];
    assert Run(Chat, s1, w1, [o2, o3], cfg).0 == Finished(s2, w3);
    assert Run(Chat, s1, w1, [o2, o3], cfg).1 == [Chat] + [Ending];
    assert s2.userId == w.userId && s2.convId == w.convId;
  }

  /** No node changes the ids kept on the GraphNodes object; only the store and the collection change. */
  lemma StepKeepsIds(n: Node, s: State, w: World, o: StepOracle, cfg: Setup)
    ensures Step(n, s, w, o, cfg).0.userId == w.userId && Step(n, s, w, o, cfg).0.convId == w.convId
  {
  }

  /** A whole run leaves the user and conversation ids of the world as they were. */
  lemma {:induction false} RunKeepsIds(n: Node, s: State, w: World, oracles: seq<StepOracle>, cfg: Setup)
    ensures Run(n, s, w, oracles, cfg).0.world.userId == w.userId
    ensures Run(n, s, w, oracles, cfg).0.world.convId == w.convId
    decreases |oracles|
  {
    if oracles != [] {
      StepKeepsIds(n, s, w, oracles[0], cfg);
      match Step(n, s, w, oracles[0], cfg)
      case (w', Raised(e)) =>
      case (w', Ok((s', Stop))) =>
      case (w', Ok((s', Goto(m)))) =>
        RunKeepsIds(m, s', w', oracles[1..], cfg);
    }
  }
}
