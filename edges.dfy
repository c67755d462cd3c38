/**
 * The edge functions of server/utils/edges.py (class EdgeGraph): each one
 * looks at the state and at an evaluator's reply and returns the label of the
 * branch to take. Evaluator replies are inputs here; the thresholds are
 * 0.5 for groundedness and usefulness and 0.6 for the scored decisions, all
 * compared with `>=`.
 */
module Edges {
  import opened Basics
  import opened GraphState

  const GroundednessThreshold: real := 0.5
  const UsefulnessThreshold: real := 0.5
  const ConfidenceThreshold: real := 0.6

  const TransformQueryBranch := "transform_query"
  const GenerateBranch := "generate"
  const NotSupported := "not supported"
  const Useful := "useful"
  const NotUseful := "not useful"
  const InfuraBranch := "infura"
  const SolidityBranch := "solidity"
  const ChatBranch := "chat"
  const Execute := "execute"
  const NoExecute := "no-execute"
  const ParamsNeeded := "params-needed"
  const NoParamsNeeded := "no-params-needed"
  const ParamsProvidedBranch := "params-provided"
  const ParamsNotProvided := "params-not-provided"

  /** `decide_to_generate`: re-query when grading left no document, generate otherwise. */
  function DecideToGenerate(s: State): (branch: string)
    ensures branch == TransformQueryBranch <==> s.documents == []
    ensures branch == GenerateBranch <==> s.documents != []
  {
    if s.documents == [] then TransformQueryBranch else GenerateBranch
  }

  /**
   * `score["score"]` of a grader's parsed reply, ready to be compared with a
   * threshold: KeyError when the key is missing, TypeError at the comparison
   * when it is not a number.
   */
  function Grade(field: ScoreField): Result<real> {
    match field
    case NoScore => Raised(KeyError("score"))
    case Number(v) => Ok(v)
    case NotANumber => Raised(TypeError("'>=' not supported between the score and a float"))
  }

  /**
   * `grade_generation_v_documents_and_question`. `groundedness` and
   * `usefulness` are the "score" entries of the hallucination grader's and the
   * code evaluator's replies. The code evaluator is consulted only once the
   * answer counts as grounded.
   */
  function GradeGeneration(groundedness: ScoreField, usefulness: ScoreField): (r: Result<string>)
    ensures r == Ok(NotSupported) <==> groundedness.Number? && groundedness.value < GroundednessThreshold
    ensures r == Ok(Useful) <==>
      && groundedness.Number? && groundedness.value >= GroundednessThreshold
      && usefulness.Number? && usefulness.value >= UsefulnessThreshold
    ensures r == Ok(NotUseful) <==>
      && groundedness.Number? && groundedness.value >= GroundednessThreshold
      && usefulness.Number? && usefulness.value < UsefulnessThreshold
    ensures r.Raised? <==>
      || !groundedness.Number?
      || (groundedness.value >= GroundednessThreshold && !usefulness.Number?)
    ensures groundedness.NoScore? ==> r == Raised(KeyError("score"))
  {
    match Grade(groundedness)
    case Raised(e) => Raised(e)
    case Ok(grounded) =>
      if grounded >= GroundednessThreshold then
        match Grade(usefulness)
        case Raised(e) => Raised(e)
        case Ok(useful) => if useful >= UsefulnessThreshold then Ok(Useful) else Ok(NotUseful)
      else
        Ok(NotSupported)
  }

  /** An ungrounded answer is "not supported" whatever the code evaluator would have said. */
  lemma UngroundedIgnoresUsefulness(grounded: real, u1: ScoreField, u2: ScoreField)
    requires grounded < GroundednessThreshold
    ensures GradeGeneration(Number(grounded), u1) == GradeGeneration(Number(grounded), u2) == Ok(NotSupported)
  {
  }

  /**
   * `action_first`: the route for the action evaluator's raw reply, and the
   * state as the function leaves it (it writes `vector_store_namespace` into
   * the dict it was given for the two retrieval routes).
   */
  function ActionFirst(s: State, decision: string): (r: (string, State))
    ensures r.0 in {InfuraBranch, SolidityBranch, ChatBranch}
    ensures r.0 == InfuraBranch <==> decision == "infura"
    ensures r.0 == SolidityBranch <==> decision == "solidity"
    ensures r.1 == (if r.0 == InfuraBranch then s.(namespace := InfuraDocs)
                    else if r.0 == SolidityBranch then s.(namespace := SolidityDocs)
                    else s)
  {
    if decision == "infura" then (InfuraBranch, s.(namespace := InfuraDocs))
    else if decision == "solidity" then (SolidityBranch, s.(namespace := SolidityDocs))
    else (ChatBranch, s)
  }

  /**
   * `execution_action` reads `self.execution_evaluator`, an attribute the
   * constructor never sets (it sets `create_execution_evaluator`), so every
   * call raises AttributeError before a decision is made, whatever the state.
   * No edge of the graph uses it.
   */
  function ExecutionAction(s: State): (r: Result<string>)
    ensures r.Raised? && r.error.AttributeError?
  {
    Raised(AttributeError("execution_evaluator"))
  }

  /** The "score" entry of a decoded reply. */
  datatype ScoreField = NoScore | Number(value: real) | NotANumber

  /**
   * What `json.loads` makes of an evaluator's raw reply: not JSON at all, a
   * JSON value that is not an object, or an object.
   */
  datatype Reply = Undecodable | NotAnObject | Object(score: ScoreField)

  /** The reply carries a number at or above the confidence threshold. */
  predicate Confident(reply: Reply) {
    reply.Object? && reply.score.Number? && reply.score.value >= ConfidenceThreshold
  }

  /**
   * The replies on which the scored edges raise: `.get` on a non-object
   * (AttributeError), or `>=` between a non-number and 0.6 (TypeError). Only
   * JSONDecodeError is caught.
   */
  predicate Unusable(reply: Reply) {
    reply.NotAnObject? || (reply.Object? && reply.score.NotANumber?)
  }

  /**
   * The confidence the scored edges compute,
   * `json.loads(reply).get("score", 0)`, with 0 when decoding fails.
   */
  function ParsedScore(reply: Reply): Result<ScoreField> {
    match reply
    case Undecodable => Ok(Number(0.0))
    case NotAnObject => Raised(AttributeError("get"))
    case Object(NoScore) => Ok(Number(0.0))
    case Object(field) => Ok(field)
  }

  /** The branch shared by the three scored edges: `above` iff the confidence reaches 0.6. */
  function ScoredBranch(reply: Reply, above: string, below: string): (r: Result<string>)
    requires above != below
    ensures r == Ok(above) <==> Confident(reply)
    ensures r == Ok(below) <==> !Confident(reply) && !Unusable(reply)
    ensures r.Raised? <==> Unusable(reply)
  {
    match ParsedScore(reply)
    case Raised(e) => Raised(e)
    case Ok(Number(confidence)) => if confidence >= ConfidenceThreshold then Ok(above) else Ok(below)
    case Ok(_) => Raised(TypeError("'>=' not supported between the score and a float"))
  }

  /** `decide_to_execute`: "execute" iff the execution evaluator's confidence is at least 0.6. */
  function DecideToExecute(reply: Reply): (r: Result<string>)
    ensures r == Ok(Execute) <==> Confident(reply)
    ensures r == Ok(NoExecute) <==> !Confident(reply) && !Unusable(reply)
    ensures r.Raised? <==> Unusable(reply)
  {
    ScoredBranch(reply, Execute, NoExecute)
  }

  /** `paramsCheck`: "params-needed" iff the params evaluator's confidence is at least 0.6. */
  function ParamsCheck(reply: Reply): (r: Result<string>)
    ensures r == Ok(ParamsNeeded) <==> Confident(reply)
    ensures r == Ok(NoParamsNeeded) <==> !Confident(reply) && !Unusable(reply)
    ensures r.Raised? <==> Unusable(reply)
  {
    ScoredBranch(reply, ParamsNeeded, NoParamsNeeded)
  }

  /** `paramsProvided`: "params-provided" iff the presence evaluator's confidence is at least 0.6. */
  function ParamsProvided(reply: Reply): (r: Result<string>)
    ensures r == Ok(ParamsProvidedBranch) <==> Confident(reply)
    ensures r == Ok(ParamsNotProvided) <==> !Confident(reply) && !Unusable(reply)
    ensures r.Raised? <==> Unusable(reply)
  {
    ScoredBranch(reply, ParamsProvidedBranch, ParamsNotProvided)
  }

  /** A score of exactly 0.6 is enough for all three scored decisions. */
  lemma ThresholdIsInclusive()
    ensures DecideToExecute(Object(Number(0.6))) == Ok(Execute)
    ensures ParamsCheck(Object(Number(0.6))) == Ok(ParamsNeeded)
    ensures ParamsProvided(Object(Number(0.6))) == Ok(ParamsProvidedBranch)
  {
  }

  /** Raising the confidence never turns "execute" into "no-execute". */
  lemma ExecuteIsMonotone(low: real, high: real)
    requires low <= high && DecideToExecute(Object(Number(low))) == Ok(Execute)
    ensures DecideToExecute(Object(Number(high))) == Ok(Execute)
  {
  }

  /** `tool_direction`: back to the Infura collection iff the state names it. */
  function ToolDirection(s: State): (branch: string)
    ensures branch == InfuraBranch <==> s.namespace == InfuraDocs
    ensures branch == SolidityBranch <==> s.namespace != InfuraDocs
  {
    if s.namespace == InfuraDocs then InfuraBranch else SolidityBranch
  }
}
