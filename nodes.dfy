/**
 * The nodes of server/utils/nodes.py (class GraphNodes). Each node reads the
 * state and returns the dict of keys it sets (an `Update`). What a node gets
 * from a language model, a grader, the vector store or a subprocess is an
 * input; the process-wide things a node changes (the history store, the
 * retriever's namespace and the user and conversation ids kept on the
 * GraphNodes object) are a `World`, and the GraphNodes class below changes
 * them in place, proved against the step functions on `World`.
 */
module Nodes {
  import opened Basics
  import opened PyStrings
  import opened ChatHistory
  import opened GraphState

  /**
   * The dict returned by `_return_error` and by most nodes after the
   * retrieval phase: chat_history, input and documents as they are, and a
   * new generation. Merging it changes the generation and nothing else.
   */
  function Carry(s: State, generation: string): (u: Update)
    ensures Merge(s, u) == s.(generation := generation)
    ensures u.userId.None? && u.convId.None? && u.namespace.None?
  {
    Update(Some(s.input), None, None, Some(generation), Some(s.documents), Some(s.chatHistory), None)
  }

  // ---------------------------------------------------------------- grading

  /** The retrieval grader's "score" for each document: None when the reply has no such key. */
  type Grader = Document -> Option<string>

  /** The documents the retrieval grader calls relevant, in their original order. */
  function Relevant(docs: seq<Document>, grade: Grader): (kept: seq<Document>)
    ensures |kept| <= |docs|
    decreases |docs|
  {
    if docs == [] then []
    else Relevant(docs[..|docs| - 1], grade) + (if grade(docs[|docs| - 1]) == Some("yes") then [docs[|docs| - 1]] else [])
  }

  /** Grading keeps exactly the documents graded "yes": nothing else, and none of them is lost. */
  lemma {:induction false} RelevantIsFilter(docs: seq<Document>, grade: Grader)
    ensures forall d :: d in Relevant(docs, grade) ==> d in docs && grade(d) == Some("yes")
    ensures forall d :: d in docs && grade(d) == Some("yes") ==> d in Relevant(docs, grade)
    decreases |docs|
  {
    if docs != [] {
      var init := docs[..|docs| - 1];
      var last := docs[|docs| - 1];
      RelevantIsFilter(init, grade);
      assert docs == init + [last];
      assert forall d :: d in docs ==> d in init || d == last;
    }
  }

  /** Grading two runs of documents one after the other keeps the relevant ones of each, in order. */
  lemma {:induction false} RelevantAppend(a: seq<Document>, b: seq<Document>, grade: Grader)
    ensures Relevant(a + b, grade) == Relevant(a, grade) + Relevant(b, grade)
    decreases |b|
  {
    if b == [] {
      assert a + b == a;
    } else {
      var b' := b[..|b| - 1];
      var last := b[|b| - 1];
      assert (a + b)[..|a + b| - 1] == a + b';
      assert (a + b)[|a + b| - 1] == last;
      RelevantAppend(a, b', grade);
      var tail := if grade(last) == Some("yes") then [last] else [];
      calc {
        Relevant(a + b, grade);
        Relevant(a + b', grade) + tail;
        (Relevant(a, grade) + Relevant(b', grade)) + tail;
        Relevant(a, grade) + (Relevant(b', grade) + tail);
        Relevant(a, grade) + Relevant(b, grade);
      }
    }
  }

  /** When the retrieval grader accepts every document, grading keeps the list as it was. */
  lemma {:induction false} RelevantAllYes(docs: seq<Document>, grade: Grader)
    requires forall i :: 0 <= i < |docs| ==> grade(docs[i]) == Some("yes")
    ensures Relevant(docs, grade) == docs
    decreases |docs|
  {
    if docs != [] {
      var init := docs[..|docs| - 1];
      assert forall i :: 0 <= i < |init| ==> init[i] == docs[i];
      RelevantAllYes(init, grade);
      assert docs == init + [docs[|docs| - 1]];
    }
  }

  /** Every document carries a "score" entry; otherwise `score["score"]` raises. */
  predicate AllGraded(docs: seq<Document>, grade: Grader) {
    forall i :: 0 <= i < |docs| ==> grade(docs[i]).Some?
  }

  /** What `grade_documents` returns: the relevant documents and the unchanged question. */
  function GradeDocumentsUpdate(s: State, grade: Grader): (r: Result<Update>)
    ensures r.Raised? <==> !AllGraded(s.documents, grade)
    ensures r.Raised? ==> r.error == KeyError("score")
    ensures r.Ok? ==> Merge(s, r.value) == s.(documents := Relevant(s.documents, grade))
  {
    if AllGraded(s.documents, grade) then
      Ok(Update(Some(s.input), None, None, None, Some(Relevant(s.documents, grade)), None, None))
    else
      Raised(KeyError("score"))
  }

  /** `grade_documents`: asks the retrieval grader about each document in turn and keeps those graded "yes". */
  method GradeDocuments(s: State, grade: Grader) returns (r: Result<Update>)
    ensures r == GradeDocumentsUpdate(s, grade)
  {
    var docs := s.documents;
    var filtered: seq<Document> := [];
    var i := 0;
    while i < |docs|
      invariant 0 <= i <= |docs|
      invariant forall j :: 0 <= j < i ==> grade(docs[j]).Some?
      invariant filtered == Relevant(docs[..i], grade)
    {
      var score := grade(docs[i]);
      if score.None? {
        return Raised(KeyError("score"));
      }
      if score.value == "yes" {
        filtered := filtered + [docs[i]];
      }
      assert docs[..i + 1][..i] == docs[..i];
      i := i + 1;
    }
    assert docs[..i] == docs;
    r := Ok(Update(Some(s.input), None, None, None, Some(filtered), None, None));
  }

  // ------------------------------------------------------- nodes on the state

  /** `chat`: the question and the model's answer appended to the history; no documents. */
  function Chat(s: State, response: string): (u: Update)
    ensures Merge(s, u) == s.(generation := response, documents := [],
                              chatHistory := s.chatHistory + [HumanMessage(s.input), AIMessage(response)])
  {
    Update(Some(s.input), None, None, Some(response), Some([]), Some(s.chatHistory + [HumanMessage(s.input), AIMessage(response)]), None)
  }

  /** `generate`: the answer the generate chain wrote from the documents. */
  function Generate(s: State, generation: string): (u: Update)
    ensures Merge(s, u) == s.(generation := generation)
    ensures u.chatHistory.None?
  {
    Update(Some(s.input), None, None, Some(generation), Some(s.documents), None, None)
  }

  /** `transform_query`: the re-phrased question replaces the input; the documents stay. */
  function TransformQuery(s: State, betterQuestion: string): (u: Update)
    ensures Merge(s, u) == s.(input := betterQuestion)
  {
    Update(Some(betterQuestion), None, None, None, Some(s.documents), None, None)
  }

  const Fence := "```"
  const BashFence := "```bash"

  /** The cleanup of `transform_execution`: drop every "```bash", then every "```", then strip. */
  function CleanCommand(raw: string): (cmd: string)
    ensures IsStripped(cmd)
    ensures !Contains(cmd, Fence) && !Contains(cmd, BashFence)
  {
    var unfenced := ReplaceAll(ReplaceAll(raw, BashFence, ""), Fence, "");
    StripKeepsFenceOut(ReplaceAll(raw, BashFence, ""));
    StripIsStripped(unfenced);
    Strip(unfenced)
  }

  /** Stripping the fence-free text leaves it fence-free, "```bash" included. */
  lemma StripKeepsFenceOut(s: string)
    ensures var t := Strip(ReplaceAll(s, Fence, "")); !Contains(t, Fence) && !Contains(t, BashFence)
  {
    NoFenceAfterRemoval(s);
    StripOfFenceFree(ReplaceAll(s, Fence, ""));
  }

  /** A piece of text without "```" loses none of that absence by stripping. */
  lemma StripOfFenceFree(u: string)
    requires !Contains(u, Fence)
    ensures !Contains(Strip(u), Fence) && !Contains(Strip(u), BashFence)
  {
    StripKeepsAbsence(u, Fence);
    FenceInBashFence(Strip(u));
  }

  /** Text holding "```bash" holds "```". */
  lemma FenceInBashFence(t: string)
    ensures Contains(t, BashFence) ==> Contains(t, Fence)
  {
    assert BashFence == Fence + "bash";
    if Contains(t, BashFence) {
      ContainsPrefixOf(t, Fence, "bash");
    }
  }

  /** Removing every "```" leaves none: the scan never glues two pieces into a new fence. */
  lemma {:induction false} NoFenceAfterRemoval(s: string)
    ensures !Contains(ReplaceAll(s, Fence, ""), Fence)
    decreases |s|
  {
    var r := ReplaceAll(s, Fence, "");
    if |s| < |Fence| {
      assert r == s;
    } else if s[..|Fence|] == Fence {
      NoFenceAfterRemoval(s[|Fence|..]);
      assert r == ReplaceAll(s[|Fence|..], Fence, "");
    } else {
      var t := ReplaceAll(s[1..], Fence, "");
      NoFenceAfterRemoval(s[1..]);
      assert r == [s[0]] + t;
      NoRunAtHead(s, Fence);
      forall i | OccursAt(r, Fence, i) ensures false {
        if i >= 1 {
          assert r[i..i + 3] == t[i - 1..i - 1 + 3];
          assert OccursAt(t, Fence, i - 1);
        }
      }
    }
  }

  /**
   * When `s` does not start with the run of three equal characters `p` (as
   * "```" is), the removal of `p` does not produce one at its head: the
   * characters it keeps in front are those of `s`, and a run removed right
   * behind them would have made `s` start with `p`.
   */
  lemma NoRunAtHead(s: string, p: string)
    requires |p| == 3 && p[1] == p[0] && p[2] == p[0]
    requires |s| >= 3 && s[..3] != p
    ensures !OccursAt(ReplaceAll(s, p, ""), p, 0)
  {
    var r := ReplaceAll(s, p, "");
    var t := ReplaceAll(s[1..], p, "");
    assert r == [s[0]] + t;
    if |s| < 4 {
      assert t == s[1..];
      assert r == s;
    } else if s[1..4] == p {
      assert s[1..][..3] == p;
      assert s[0] != p[0] by { assert s[..3] == [s[0], p[0], p[0]]; }
    } else {
      assert s[1..][..3] != p;
      var t2 := ReplaceAll(s[2..], p, "");
      assert t == [s[1]] + t2;
      if |s| < 5 {
        assert t2 == s[2..];
        assert r == s;
      } else if s[2..5] == p {
        assert s[2..][..3] == p;
        assert s[0] != p[0] || s[1] != p[0] by { assert s[..3] == [s[0], s[1], p[0]]; }
        assert r[..2] == s[..2];
      } else {
        assert s[2..][..3] != p;
        assert t2 == [s[2]] + ReplaceAll(s[3..], p, "");
        assert r[..3] == s[..3];
      }
    }
  }

  /** A command that is already stripped and holds no "```" comes out of the cleanup as it went in. */
  lemma CleanKeepsClean(raw: string)
    requires IsStripped(raw) && !Contains(raw, Fence)
    ensures CleanCommand(raw) == raw
  {
    FenceInBashFence(raw);
    ReplaceAbsent(raw, BashFence, "");
    ReplaceAbsent(raw, Fence, "");
    StripStripped(raw);
  }

  /** Cleaning a cleaned command changes nothing. */
  lemma CleanIdempotent(raw: string)
    ensures CleanCommand(CleanCommand(raw)) == CleanCommand(raw)
  {
    CleanKeepsClean(CleanCommand(raw));
  }

  /** `transform_execution`: the extracted command, cleaned, becomes the generation. */
  function TransformExecution(s: State, extracted: string): (u: Update)
    ensures Merge(s, u) == s.(generation := CleanCommand(extracted))
  {
    Carry(s, CleanCommand(extracted))
  }

  /** `path_to_execution` returns the keys it was given: merging it changes nothing. */
  function PathToExecution(s: State): (u: Update)
    ensures Merge(s, u) == s
  {
    Carry(s, s.generation)
  }

  /** `execution_interpreter`: the model's reading of the command output becomes the generation. */
  function CommandInterpreter(s: State, interpretation: string): (u: Update)
    ensures Merge(s, u) == s.(generation := interpretation)
  {
    Carry(s, interpretation)
  }

  // -------------------------------------------------------------- execution

  const MaxRetries := 3
  /** Seconds slept between attempts; sleeping is not modelled, only counted. */
  const RetryDelay := 2
  const KeyPlaceholder := "{infuraKey}"

  /** How one `subprocess.run(..., check=True, timeout=10)` ends. */
  datatype Outcome = Success(stdout: string) | Timeout | NonZero(stderr: string)

  /** The outcomes the three attempts would have: an attempt that is not made is never looked at. */
  type Attempts = s: seq<Outcome> | |s| == MaxRetries witness [Timeout, Timeout, Timeout]

  function TimeoutMessage(cmd: string): string {
    "Service for this " + cmd + " is currently unavailable due to a timeout."
  }

  function UnavailableMessage(cmd: string): string {
    "Service for this " + cmd + " is currently unavailable."
  }

  /** The number of attempts made: up to and including the first success, all of them if none succeeds. */
  function AttemptsMade(outs: seq<Outcome>): (n: nat)
    ensures n <= |outs| && (outs != [] ==> 1 <= n)
    ensures forall j :: 0 <= j < n - 1 ==> !outs[j].Success?
    ensures n < |outs| ==> outs[n - 1].Success?
    decreases |outs|
  {
    if outs == [] then 0
    else if outs[0].Success? then 1
    else 1 + AttemptsMade(outs[1..])
  }

  /** The generation `execution` ends with for the command `cmd`. */
  function ExecutionOutput(cmd: string, outs: Attempts): (out: string)
    ensures out ==
      if outs[0].Success? then outs[0].stdout
      else if outs[1].Success? then outs[1].stdout
      else if outs[2].Success? then outs[2].stdout
      else if outs[2].Timeout? then TimeoutMessage(cmd)
      else UnavailableMessage(cmd)
  {
    assert outs[1..][1..] == outs[2..];
    var last := outs[AttemptsMade(outs) - 1];
    match last
    case Success(out) => out
    case Timeout => TimeoutMessage(cmd)
    case NonZero(_) => UnavailableMessage(cmd)
  }

  /** The first successful attempt decides the result; later attempts are never made. */
  lemma FirstSuccessWins(cmd: string, outs: Attempts, i: nat)
    requires i < MaxRetries && outs[i].Success?
    requires forall j :: 0 <= j < i ==> !outs[j].Success?
    ensures AttemptsMade(outs) == i + 1
    ensures ExecutionOutput(cmd, outs) == outs[i].stdout
  {
    if i > 0 {
      assert !outs[0].Success?;
      if i > 1 {
        assert !outs[1].Success?;
        assert outs[1..][1..] == outs[2..];
      }
    }
  }

  /** After three failures the error text names the way the last attempt failed. */
  lemma ExhaustedIsReported(cmd: string, outs: Attempts)
    requires forall j :: 0 <= j < MaxRetries ==> !outs[j].Success?
    ensures AttemptsMade(outs) == MaxRetries
    ensures ExecutionOutput(cmd, outs) == if outs[2].Timeout? then TimeoutMessage(cmd) else UnavailableMessage(cmd)
  {
    assert outs[1..][1..] == outs[2..];
  }

  /** What an attempt looks like on the outside, its stderr text blanked out. */
  function Shape(o: Outcome): Outcome {
    if o.NonZero? then NonZero("") else o
  }

  /** The stderr of a failed attempt never reaches the state: outcomes that differ only there give the same result. */
  lemma StderrNotSurfaced(cmd: string, a: Attempts, b: Attempts)
    requires forall j :: 0 <= j < MaxRetries ==> Shape(a[j]) == Shape(b[j])
    ensures ExecutionOutput(cmd, a) == ExecutionOutput(cmd, b)
  {
    assert a[1..][1..] == a[2..] && b[1..][1..] == b[2..];
    assert Shape(a[0]) == Shape(b[0]) && Shape(a[1]) == Shape(b[1]) && Shape(a[2]) == Shape(b[2]);
  }

  /** The command with the Infura key in place of "{infuraKey}". */
  function WithKey(generation: string, key: string): string {
    ReplaceAll(generation, KeyPlaceholder, key)
  }

  /**
   * A command holding the placeholder once has the key there and is
   * otherwise unchanged; no occurrence may start before it, nor follow it.
   */
  lemma KeySubstituted(prefix: string, suffix: string, key: string)
    requires !Contains(prefix + KeyPlaceholder[..|KeyPlaceholder| - 1], KeyPlaceholder)
    requires !Contains(suffix, KeyPlaceholder)
    ensures WithKey(prefix + KeyPlaceholder + suffix, key) == prefix + key + suffix
  {
    ReplaceSingle(prefix, KeyPlaceholder, suffix, key);
  }

  /**
   * When all three attempts fail, the message `execution` returns quotes the
   * command with the key already substituted, so the Infura key becomes the
   * generation the interpreter is then shown.
   */
  lemma KeyInExhaustedOutput(prefix: string, suffix: string, key: string, outs: Attempts)
    requires !Contains(prefix + KeyPlaceholder[..|KeyPlaceholder| - 1], KeyPlaceholder)
    requires !Contains(suffix, KeyPlaceholder)
    requires forall j :: 0 <= j < MaxRetries ==> !outs[j].Success?
    ensures Contains(ExecutionOutput(WithKey(prefix + KeyPlaceholder + suffix, key), outs), key)
  {
    KeySubstituted(prefix, suffix, key);
    var tail := if outs[2].Timeout? then " is currently unavailable due to a timeout." else " is currently unavailable.";
    assert ExecutionOutput(prefix + key + suffix, outs) == ("Service for this " + prefix) + key + (suffix + tail);
    ContainsMiddle("Service for this " + prefix, key, suffix + tail);
  }

  /**
   * What `execution` returns, given the INFURA_API_KEY setting (`None`: not
   * set, and `replace` raises TypeError) and the outcomes of the attempts.
   */
  function ExecutionNode(s: State, infuraKey: Option<string>, outs: Attempts): (r: Result<Update>)
    ensures r.Raised? <==> infuraKey.None?
    ensures r.Ok? ==> Merge(s, r.value) == s.(generation := ExecutionOutput(WithKey(s.generation, infuraKey.value), outs))
  {
    match infuraKey
    case None => Raised(TypeError("replace() argument 2 must be str, not None"))
    case Some(key) => Ok(Carry(s, ExecutionOutput(WithKey(s.generation, key), outs)))
  }

  /**
   * `execution`: runs the command up to three times, sleeping between
   * attempts; `sleeps` counts the pauses.
   */
  method Execution(s: State, infuraKey: Option<string>, outs: Attempts) returns (r: Result<Update>, sleeps: nat)
    ensures r == ExecutionNode(s, infuraKey, outs)
    ensures sleeps == if infuraKey.None? then 0 else AttemptsMade(outs) - 1
  {
    sleeps := 0;
    if infuraKey.None? {
      return Raised(TypeError("replace() argument 2 must be str, not None")), 0;
    }
    var cmd := WithKey(s.generation, infuraKey.value);
    assert outs[1..][1..] == outs[2..];
    var attempt := 0;
    var done := false;
    var output := "";
    while !done
      invariant 0 <= attempt < MaxRetries
      invariant !done ==> sleeps == attempt && forall j :: 0 <= j < attempt ==> !outs[j].Success?
      invariant done ==> output == ExecutionOutput(cmd, outs) && sleeps == AttemptsMade(outs) - 1
      decreases MaxRetries - attempt, if done then 0 else 1
    {
      match outs[attempt]
      case Success(out) =>
        output, done := out, true;
      case Timeout =>
        if attempt < MaxRetries - 1 {
          sleeps, attempt := sleeps + 1, attempt + 1;
        } else {
          output, done := TimeoutMessage(cmd), true;
        }
      case NonZero(_) =>
        if attempt < MaxRetries - 1 {
          sleeps, attempt := sleeps + 1, attempt + 1;
        } else {
          output, done := UnavailableMessage(cmd), true;
        }
    }
    r := Ok(Carry(s, output));
  }

  // ---------------------------------------------- nodes on the shared world

  /** The process-wide state the nodes share: history store, retriever namespace, ids from the last request. */
  datatype World = World(store: Store, namespace: string, userId: string, convId: string)

  /** The vector store: the documents a collection returns for a query. */
  type Search = (string, string) -> seq<Document>

  /** Each record of a loaded history, as a chat_history entry. */
  function StoredAll(recs: seq<Record>): (msgs: seq<Message>)
    ensures |msgs| == |recs|
    ensures forall i :: 0 <= i < |recs| ==> msgs[i] == Stored(recs[i])
  {
    seq(|recs|, i requires 0 <= i < |recs| => Stored(recs[i]))
  }

  /** The store after `save_message` (`reachable`: Redis answers). */
  function Saved(store: Store, userId: string, convId: string, content: string, messageType: string,
                 timestamp: string, reachable: bool): Store {
    if reachable then Pushed(store, Key(userId, convId), Record(messageType, content, timestamp)) else store
  }

  /** The history `rewrite_question` hands on: the state's own, or else the stored one. */
  function HistoryFor(s: State, store: Store, userId: string, convId: string, reachable: bool): seq<Message> {
    if s.chatHistory != [] then s.chatHistory
    else if reachable then StoredAll(Messages(store, Key(userId, convId)))
    else []
  }

  /**
   * `rewrite_question` (the "evaluator" node): saves the question under the
   * ids of the last request, loads the history when the state has none, and
   * returns the rewritten question as the generation.
   */
  function RewriteQuestionStep(w: World, s: State, rewritten: string, timestamp: string, reachable: bool): (r: (World, Update))
    ensures r.0 == w.(store := Saved(w.store, w.userId, w.convId, s.input, "user", timestamp, reachable))
    ensures Merge(s, r.1) == s.(userId := w.userId, convId := w.convId, generation := rewritten, documents := [],
                                chatHistory := HistoryFor(s, r.0.store, w.userId, w.convId, reachable))
    ensures s.chatHistory == [] && reachable ==>
      Merge(s, r.1).chatHistory == [Stored(Record("user", s.input, timestamp))] + StoredAll(Messages(w.store, Key(w.userId, w.convId)))
  {
    var store := Saved(w.store, w.userId, w.convId, s.input, "user", timestamp, reachable);
    var history := HistoryFor(s, store, w.userId, w.convId, reachable);
    (w.(store := store), Update(Some(s.input), Some(w.userId), Some(w.convId), Some(rewritten), Some([]), Some(history), None))
  }

  /** `ending`: saves the generation as the assistant's message under the state's ids; the state is unchanged. */
  function EndingStep(w: World, s: State, timestamp: string, reachable: bool): (r: (World, Update))
    ensures r.0 == w.(store := Saved(w.store, s.userId, s.convId, s.generation, "assistant", timestamp, reachable))
    ensures Merge(s, r.1) == s
  {
    (w.(store := Saved(w.store, s.userId, s.convId, s.generation, "assistant", timestamp, reachable)), Carry(s, s.generation))
  }

  /** `retrieveInfura` as intended: switch the retriever to the Infura collection, then search it. */
  function RetrieveInfuraStep(w: World, s: State, search: Search): (r: (World, Update))
    ensures r.0 == w.(namespace := InfuraDocs)
    ensures Merge(s, r.1) == s.(documents := search(InfuraDocs, s.input), namespace := InfuraDocs)
  {
    (w.(namespace := InfuraDocs), Update(Some(s.input), None, None, None, Some(search(InfuraDocs, s.input)), None, Some(InfuraDocs)))
  }

  /** `retrieveInfura` as written: searches whatever collection the retriever is set to. */
  function RetrieveInfuraAsWrittenStep(w: World, s: State, search: Search): (r: (World, Update))
    ensures r.0 == w
    ensures Merge(s, r.1) == s.(documents := search(w.namespace, s.input), namespace := InfuraDocs)
  {
    (w, Update(Some(s.input), None, None, None, Some(search(w.namespace, s.input)), None, Some(InfuraDocs)))
  }

  /** `retrieveSolidity`: switch the retriever to the Solidity collection, then search it. */
  function RetrieveSolidityStep(w: World, s: State, search: Search): (r: (World, Update))
    ensures r.0 == w.(namespace := SolidityDocs)
    ensures Merge(s, r.1) == s.(documents := search(SolidityDocs, s.input), namespace := SolidityDocs)
  {
    (w.(namespace := SolidityDocs), Update(Some(s.input), None, None, None, Some(search(SolidityDocs, s.input)), None, Some(SolidityDocs)))
  }

  /**
   * Once a Solidity question has been answered, the Infura node as written
   * searches the Solidity collection yet reports "infura-docs".
   */
  lemma StaleNamespaceAfterSolidity(w: World, s1: State, s2: State, search: Search)
    ensures var (w1, _) := RetrieveSolidityStep(w, s1, search);
            var (_, u) := RetrieveInfuraAsWrittenStep(w1, s2, search);
            Merge(s2, u).documents == search(SolidityDocs, s2.input) && Merge(s2, u).namespace == InfuraDocs
  {
  }

  /** The intended Infura node searches the Infura collection whatever came before. */
  lemma InfuraSearchesInfura(w: World, s: State, search: Search)
    ensures Merge(s, RetrieveInfuraStep(w, s, search).1).documents == search(InfuraDocs, s.input)
  {
  }

  /** The vector store retriever (`PineconeRetriever`): the collection it searches. */
  class Retriever {
    var namespace: string

    constructor (initial: string)
      ensures namespace == initial
    {
      namespace := initial;
    }

    /** `set_namespace`: later searches go to `name`. */
    method SetNamespace(name: string)
      modifies this
      ensures namespace == name
    {
      namespace := name;
    }
  }

  /** The GraphNodes object: the ids of the last request, the history manager and the retriever. */
  class GraphNodes {
    var userId: string
    var convId: string
    const history: ChatHistoryManager
    const retriever: Retriever

    /** `GraphNodes(...)`: both ids start empty. */
    constructor (history: ChatHistoryManager, retriever: Retriever)
      ensures this.history == history && this.retriever == retriever
      ensures userId == "" && convId == ""
    {
      this.history := history;
      this.retriever := retriever;
      userId, convId := "", "";
    }

    function CurrentWorld(): World
      reads this, history, retriever
    {
      World(history.store, retriever.namespace, userId, convId)
    }

    /** `saveChatInfo`: remembers the ids of the request being served. */
    method SaveChatInfo(user: string, conv: string)
      modifies this
      ensures CurrentWorld() == old(CurrentWorld()).(userId := user, convId := conv)
    {
      userId, convId := user, conv;
    }

    method RewriteQuestion(s: State, rewritten: string, timestamp: string, reachable: bool) returns (u: Update)
      modifies history
      ensures (CurrentWorld(), u) == RewriteQuestionStep(old(CurrentWorld()), s, rewritten, timestamp, reachable)
    {
      var _ := history.SaveMessage(userId, convId, s.input, "user", timestamp, reachable);
      var chatHistory := s.chatHistory;
      if chatHistory == [] {
        var records := history.GetAllMessages(userId, convId, reachable);
        chatHistory := StoredAll(records);
      }
      u := Update(Some(s.input), Some(userId), Some(convId), Some(rewritten), Some([]), Some(chatHistory), None);
    }

    /** `retrieveInfura` as intended. */
    method RetrieveInfura(s: State, search: Search) returns (u: Update)
      modifies retriever
      ensures (CurrentWorld(), u) == RetrieveInfuraStep(old(CurrentWorld()), s, search)
    {
      retriever.SetNamespace(InfuraDocs);
      var documents := search(retriever.namespace, s.input);
      u := Update(Some(s.input), None, None, None, Some(documents), None, Some(InfuraDocs));
    }

    /** `retrieveInfura` as written. */
    method RetrieveInfuraAsWritten(s: State, search: Search) returns (u: Update)
      ensures (CurrentWorld(), u) == RetrieveInfuraAsWrittenStep(CurrentWorld(), s, search)
    {
      var documents := search(retriever.namespace, s.input);
      u := Update(Some(s.input), None, None, None, Some(documents), None, Some(InfuraDocs));
    }

    method RetrieveSolidity(s: State, search: Search) returns (u: Update)
      modifies retriever
      ensures (CurrentWorld(), u) == RetrieveSolidityStep(old(CurrentWorld()), s, search)
    {
      retriever.SetNamespace(SolidityDocs);
      var documents := search(retriever.namespace, s.input);
      u := Update(Some(s.input), None, None, None, Some(documents), None, Some(SolidityDocs));
    }

    method Ending(s: State, timestamp: string, reachable: bool) returns (u: Update)
      modifies history
      ensures (CurrentWorld(), u) == EndingStep(old(CurrentWorld()), s, timestamp, reachable)
    {
      var _ := history.SaveMessage(s.userId, s.convId, s.generation, "assistant", timestamp, reachable);
      u := Carry(s, s.generation);
    }
  }
}
