/**
 * The scored exam flow (App.jsx): an intro screen, one scenario at a time,
 * an evaluation of each answer by a remote language model, and a results
 * screen with the total. Each evaluation is two steps: the start step raises
 * the `isEvaluating` flag and fixes the scenario being answered; the
 * completion step, given the outcome of the round trip and what `JSON.parse`
 * makes of the cleaned model text, stores the feedback, appends at most one
 * result and lowers the flag.
 */
module ExamFlow {
  import opened JsValues
  import opened JsStrings

  datatype Phase = Intro | Quiz | Results

  /** The fields of a scenario that the flow reads; the static scenario data is not part of this model. */
  datatype Scenario = Scenario(context: string, dialogue: string)

  /** The `{ score, feedback, pass }` object shown in the feedback dialog. */
  datatype Evaluation = Evaluation(score: Number, feedback: JsValue, pass: JsValue)

  /** One entry of `results`. */
  datatype ResultEntry = ResultEntry(question: string, userAnswer: string, score: Number, feedback: JsValue)

  const MaxPoints: int := 20
  const ParseFallbackScore: int := 10
  const ParseErrorFeedback: string := "Error parsing AI response. Please ensure your answer is clear."
  const ServiceErrorFeedback: string := "There was an error connecting to the evaluation service. Please try again."
  const HintFallback: string :=
    "Remember ALGEE: Assess for risk, Listen non-judgmentally, Give reassurance, Encourage professional help, Encourage self-help."

  /** The evaluation used when the model's text is not JSON. */
  const ParseFallback: Evaluation := Evaluation(Finite(ParseFallbackScore), Str(ParseErrorFeedback), Bool(false))
  /** The evaluation shown when the service call fails. */
  const ServiceFallback: Evaluation := Evaluation(Finite(0), Str(ServiceErrorFeedback), Bool(false))

  /** The outcome of one evaluation call to the generative-language endpoint. */
  datatype EvaluatorOutcome =
    | TransportFailure
    | HttpError                   // `response.ok` is false
    | BodyNotJson                 // `response.json()` rejects
    | Candidate(text: JsValue)    // `data.candidates?.[0]?.content?.parts?.[0]?.text`

  /** What `JSON.parse` made of the cleaned model text. */
  datatype ParsedEvaluation =
    | ParseError
    | NonObject   // null or a primitive: reading or assigning `score` throws
    | Object(score: Number, feedback: JsValue, pass: JsValue)

  /** The outcome of one hint call; the hint handler does not look at the status code. */
  datatype HintOutcome =
    | HintFailure               // the request fails or the body is not JSON
    | HintBody(text: JsValue)   // `data.candidates?.[0]?.content?.parts?.[0]?.text`

  // ---------------------------------------------------------------------------
  // The pure steps of `evaluateAnswer`

  /** A fence-free string has no fence after trimming. */
  lemma TrimKeepsNoFence(s: string)
    requires !Contains(s, Fence)
    ensures !Contains(Trim(s), Fence)
  {
    var k := |s| - |TrimStart(s)|;
    var r := Trim(s);
    NotContainsSuffix(s, Fence, k);
    assert r == s[k..][..|r|];
    NotContainsPrefix(s[k..], Fence, |r|);
  }

  /**
   * The model text with every "```json" and then every "```" deleted, then
   * trimmed: no code fence and no white space at either end remain.
   */
  function CleanEvaluatorText(text: string): (r: string)
    ensures !Contains(r, Fence)
    ensures r != [] ==> !IsWhiteSpace(r[0]) && !IsWhiteSpace(r[|r| - 1])
  {
    var unfenced := RemoveAll(RemoveAll(text, "```json"), Fence);
    NoFenceAfterRemoval(RemoveAll(text, "```json"));
    TrimKeepsNoFence(unfenced);
    Trim(unfenced)
  }

  /** Model text without any backtick passes through the cleaning only trimmed. */
  lemma CleanPlainText(t: string)
    requires forall i :: 0 <= i < |t| ==> t[i] != '`'
    ensures CleanEvaluatorText(t) == Trim(t)
  {
    NoStartNoMatch(t, "```json");
    RemoveAbsent(t, "```json");
    NoStartNoMatch(t, Fence);
    RemoveAbsent(t, Fence);
  }

  /** A reply wrapped in a "```json" ... "```" block comes out as the trimmed text inside the block. */
  lemma CleanFencedReply(t: string)
    requires forall i :: 0 <= i < |t| ==> t[i] != '`'
    ensures CleanEvaluatorText("```json" + t + Fence) == Trim(t)
  {
    var s := "```json" + t + Fence;
    assert s[..7] == "```json";
    assert s[7..] == t + Fence;
    assert forall i :: 0 <= i && i + 7 <= |t + Fence| ==> (t + Fence)[i] == t[i];
    NoStartNoMatch(t + Fence, "```json");
    RemoveAbsent(t + Fence, "```json");
    RemoveClosingFence(t);
  }

  /** `Math.max(0, Math.min(20, score))` */
  function ClampScore(score: Number): (r: Number)
    ensures r.NaN? <==> score.NaN?
    ensures r.Finite? ==> 0 <= r.n <= MaxPoints
    ensures score.Finite? && 0 <= score.n <= MaxPoints ==> r == score
    ensures score.Finite? && score.n < 0 ==> r == Finite(0)
    ensures score.Finite? && score.n > MaxPoints ==> r == Finite(MaxPoints)
  {
    MathMax(Finite(0), MathMin(Finite(MaxPoints), score))
  }

  /** The stored evaluation, or None when the handler throws and falls back to the service error. */
  function Evaluate(outcome: EvaluatorOutcome, parse: string -> ParsedEvaluation): Option<Evaluation> {
    match outcome
    case Candidate(Str(text)) =>
      (match parse(CleanEvaluatorText(text))
       case ParseError => Some(ParseFallback.(score := ClampScore(ParseFallback.score)))
       case NonObject => None
       case Object(score, feedback, pass) => Some(Evaluation(ClampScore(score), feedback, pass)))
    case _ => None
  }

  /** `handleGetHint`: the candidate text, or the fixed ALGEE reminder when the call throws. */
  function HintText(outcome: HintOutcome): JsValue {
    match outcome
    case HintFailure => Str(HintFallback)
    case HintBody(text) => text
  }

  // ---------------------------------------------------------------------------
  // Totals

  /** `results.reduce((acc, curr) => acc + curr.score, start)`, folding from the given start value. */
  function SumScores(acc: Number, results: seq<ResultEntry>): Number
    decreases |results|
  {
    if results == [] then acc else SumScores(Plus(acc, results[0].score), results[1..])
  }

  /** The `totalScore` prop: the fold started at 0. */
  function TotalScore(results: seq<ResultEntry>): Number {
    SumScores(Finite(0), results)
  }

  function MaxScore(scenarios: seq<Scenario>): int {
    |scenarios| * MaxPoints
  }

  /** A score as stored: NaN, or a number in 0..20. */
  predicate Clamped(score: Number) {
    score.Finite? ==> 0 <= score.n <= MaxPoints
  }

  /** Folding one more result adds its score. */
  lemma {:induction false} SumScoresAppend(acc: Number, results: seq<ResultEntry>, e: ResultEntry)
    ensures SumScores(acc, results + [e]) == Plus(SumScores(acc, results), e.score)
    decreases |results|
  {
    if results != [] {
      assert (results + [e])[1..] == results[1..] + [e];
      SumScoresAppend(Plus(acc, results[0].score), results[1..], e);
    }
  }

  lemma {:induction false} SumScoresBounds(acc: Number, results: seq<ResultEntry>)
    requires acc.Finite?
    requires forall i :: 0 <= i < |results| ==> results[i].score.Finite? && Clamped(results[i].score)
    ensures SumScores(acc, results).Finite?
    ensures acc.n <= SumScores(acc, results).n <= acc.n + MaxPoints * |results|
    decreases |results|
  {
    if results != [] {
      SumScoresBounds(Plus(acc, results[0].score), results[1..]);
    }
  }

  lemma {:induction false} SumScoresNaN(acc: Number, results: seq<ResultEntry>)
    ensures SumScores(acc, results).NaN? <==> acc.NaN? || exists i :: 0 <= i < |results| && results[i].score.NaN?
    decreases |results|
  {
    if results != [] {
      SumScoresNaN(Plus(acc, results[0].score), results[1..]);
      assert forall i :: 1 <= i < |results| ==> results[i] == results[1..][i - 1];
    }
  }

  /** With every stored score numeric, the total lies between 0 and 20 points per result. */
  lemma TotalScoreBounds(results: seq<ResultEntry>)
    requires forall i :: 0 <= i < |results| ==> results[i].score.Finite? && Clamped(results[i].score)
    ensures TotalScore(results).Finite? && 0 <= TotalScore(results).n <= MaxPoints * |results|
  {
    SumScoresBounds(Finite(0), results);
  }

  /** The total is NaN exactly when some stored score is NaN. */
  lemma TotalScoreNaN(results: seq<ResultEntry>)
    ensures TotalScore(results).NaN? <==> exists i :: 0 <= i < |results| && results[i].score.NaN?
  {
    SumScoresNaN(Finite(0), results);
  }

  // ---------------------------------------------------------------------------
  // The state machine

  /** The component's state; `scenarios` is only ever reset to the initial list. */
  datatype AppState = AppState(
    phase: Phase,
    scenarios: seq<Scenario>,
    index: nat,
    results: seq<ResultEntry>,
    isEvaluating: bool,
    feedback: Option<Evaluation>)

  function Initial(initial: seq<Scenario>): AppState {
    AppState(Intro, initial, 0, [], false, None)
  }

  /** The index addresses a scenario and every stored score is clamped. */
  predicate WellFormed(s: AppState) {
    && 0 < |s.scenarios|
    && s.index < |s.scenarios|
    && forall i :: 0 <= i < |s.results| ==> Clamped(s.results[i].score)
  }

  function Start(s: AppState): AppState {
    s.(phase := Quiz, index := 0, results := [])
  }

  function Restart(s: AppState, initial: seq<Scenario>): AppState {
    s.(phase := Intro, results := [], index := 0, scenarios := initial)
  }

  /** What `evaluateAnswer` keeps across its await: the scenario answered and the answer. */
  datatype PendingEvaluation = PendingEvaluation(scenario: Scenario, answer: string)

  /** The synchronous part of `evaluateAnswer(answer)`. */
  function BeginEvaluation(s: AppState): AppState {
    s.(isEvaluating := true)
  }

  function Pending(s: AppState, answer: string): PendingEvaluation
    requires s.index < |s.scenarios|
  {
    PendingEvaluation(s.scenarios[s.index], answer)
  }

  /** The part of `evaluateAnswer` after the await. */
  function FinishEvaluation(s: AppState, p: PendingEvaluation, outcome: EvaluatorOutcome, parse: string -> ParsedEvaluation): AppState {
    match Evaluate(outcome, parse)
    case Some(e) =>
      s.(feedback := Some(e),
         results := s.results + [ResultEntry(p.scenario.dialogue, p.answer, e.score, e.feedback)],
         isEvaluating := false)
    case None =>
      s.(feedback := Some(ServiceFallback), isEvaluating := false)
  }

  function NextQuestion(s: AppState): AppState {
    if s.index < |s.scenarios| - 1 then s.(feedback := None, index := s.index + 1)
    else s.(feedback := None, phase := Results)
  }

  // ---------------------------------------------------------------------------
  // Properties

  lemma StartAndRestartReset(s: AppState, initial: seq<Scenario>)
    ensures Start(s).phase == Quiz && Start(s).index == 0 && Start(s).results == []
    ensures Start(s).scenarios == s.scenarios
    ensures var r := Restart(s, initial); r.phase == Intro && r.index == 0 && r.results == [] && r.scenarios == initial
  {
  }

  /** An evaluation is stored with its score clamped; the score is NaN only when the model gave no number. */
  lemma StoredScoreClamped(outcome: EvaluatorOutcome, parse: string -> ParsedEvaluation)
    ensures Evaluate(outcome, parse).Some? ==> Clamped(Evaluate(outcome, parse).value.score)
    ensures outcome.Candidate? && outcome.text.Str? && parse(CleanEvaluatorText(outcome.text.s)).Object?
        ==> var sc := parse(CleanEvaluatorText(outcome.text.s)).score;
            Evaluate(outcome, parse).Some? && (Evaluate(outcome, parse).value.score.NaN? <==> sc.NaN?)
            && (sc.Finite? && 0 <= sc.n <= MaxPoints ==> Evaluate(outcome, parse).value.score == sc)
  {
  }

  /** Unparseable model text gives score 10 and pass false, and it is still recorded. */
  lemma ParseFailureStillRecorded(s: AppState, p: PendingEvaluation, text: string, parse: string -> ParsedEvaluation)
    requires parse(CleanEvaluatorText(text)) == ParseError
    ensures var s' := FinishEvaluation(s, p, Candidate(Str(text)), parse);
      && s'.feedback == Some(Evaluation(Finite(10), Str(ParseErrorFeedback), Bool(false)))
      && s'.results == s.results + [ResultEntry(p.scenario.dialogue, p.answer, Finite(10), Str(ParseErrorFeedback))]
      && !s'.isEvaluating
  {
  }

  /**
   * A failed service call (transport error, non-2xx status, body that is not
   * JSON, missing or non-string candidate text, parsed value that is not an
   * object) shows the score-0 fallback and leaves the results unchanged.
   */
  lemma ServiceFailureKeepsResults(s: AppState, p: PendingEvaluation, outcome: EvaluatorOutcome, parse: string -> ParsedEvaluation)
    requires || outcome.TransportFailure? || outcome.HttpError? || outcome.BodyNotJson?
             || (outcome.Candidate? && !outcome.text.Str?)
             || (outcome.Candidate? && outcome.text.Str? && parse(CleanEvaluatorText(outcome.text.s)).NonObject?)
    ensures var s' := FinishEvaluation(s, p, outcome, parse);
      && s'.results == s.results && s'.feedback == Some(ServiceFallback) && !s'.isEvaluating
      && s'.phase == s.phase && s'.index == s.index
  {
  }

  /** A completed evaluation appends at most one result, exactly one when an evaluation was stored, and always lowers the flag. */
  lemma {:induction false} CompletionAppendsAtMostOne(s: AppState, p: PendingEvaluation, outcome: EvaluatorOutcome, parse: string -> ParsedEvaluation)
    requires WellFormed(s)
    ensures var s' := FinishEvaluation(s, p, outcome, parse);
      && !s'.isEvaluating && s'.feedback.Some?
      && s'.results[..|s.results|] == s.results
      && |s'.results| == |s.results| + (if Evaluate(outcome, parse).Some? then 1 else 0)
      && WellFormed(s')
  {
    var s' := FinishEvaluation(s, p, outcome, parse);
    StoredScoreClamped(outcome, parse);
    assert s'.results[..|s.results|] == s.results;
  }

  /** Moving on clears the feedback and advances the index, or ends the quiz on the last scenario; the index stays in range. */
  lemma NextQuestionAdvances(s: AppState)
    requires WellFormed(s)
    ensures var s' := NextQuestion(s);
      && s'.feedback.None? && WellFormed(s')
      && (s.index + 1 < |s.scenarios| ==> s'.index == s.index + 1 && s'.phase == s.phase)
      && (s.index + 1 == |s.scenarios| ==> s'.index == s.index && s'.phase == Results)
  {
  }

  /** Every handler keeps the state well formed. */
  lemma TransitionsKeepWellFormed(s: AppState, initial: seq<Scenario>)
    requires WellFormed(s) && 0 < |initial|
    ensures WellFormed(Start(s)) && WellFormed(Restart(s, initial)) && WellFormed(BeginEvaluation(s))
    ensures WellFormed(Initial(initial))
  {
  }

  /** On the results screen, a total of numeric scores never exceeds 20 per recorded answer. */
  lemma TotalWithinMax(s: AppState)
    requires WellFormed(s)
    requires forall i :: 0 <= i < |s.results| ==> s.results[i].score.Finite?
    ensures TotalScore(s.results).Finite? && 0 <= TotalScore(s.results).n <= MaxPoints * |s.results|
    ensures MaxScore(s.scenarios) == MaxPoints * |s.scenarios| > 0
  {
    TotalScoreBounds(s.results);
  }

  /** A failed hint call still yields a truthy hint; otherwise the hint is the candidate text as is. */
  lemma HintFallbackIsTruthy(outcome: HintOutcome)
    ensures outcome.HintFailure? ==> Truthy(HintText(outcome))
    ensures outcome.HintBody? ==> HintText(outcome) == outcome.text
  {
  }

  // ---------------------------------------------------------------------------
  // The component

  class App {
    const initialScenarios: seq<Scenario>
    var phase: Phase
    var scenarios: seq<Scenario>
    var currentScenarioIndex: nat
    var results: seq<ResultEntry>
    var isEvaluating: bool
    var currentFeedback: Option<Evaluation>

    function Snapshot(): AppState
      reads this
    {
      AppState(phase, scenarios, currentScenarioIndex, results, isEvaluating, currentFeedback)
    }

    ghost predicate Valid()
      reads this
    {
      WellFormed(Snapshot()) && 0 < |initialScenarios|
    }

    constructor (initial: seq<Scenario>)
      requires 0 < |initial|
      ensures initialScenarios == initial && Snapshot() == Initial(initial) && Valid()
    {
      initialScenarios := initial;
      phase := Intro;
      scenarios := initial;
      currentScenarioIndex := 0;
      results := [];
      isEvaluating := false;
      currentFeedback := None;
    }

    method HandleStart()
      requires Valid()
      modifies this
      ensures Valid() && Snapshot() == Start(old(Snapshot()))
    {
      phase := Quiz;
      currentScenarioIndex := 0;
      results := [];
    }

    method HandleRestart()
      requires Valid()
      modifies this
      ensures Valid() && Snapshot() == Restart(old(Snapshot()), initialScenarios)
    {
      phase := Intro;
      results := [];
      currentScenarioIndex := 0;
      scenarios := initialScenarios;
    }

    /** `evaluateAnswer(answer)` up to its await. */
    method BeginEvaluateAnswer(answer: string) returns (p: PendingEvaluation)
      requires Valid()
      modifies this
      ensures Valid() && Snapshot() == BeginEvaluation(old(Snapshot()))
      ensures p == Pending(old(Snapshot()), answer)
    {
      isEvaluating := true;
      p := PendingEvaluation(scenarios[currentScenarioIndex], answer);
    }

    /** The rest of `evaluateAnswer`, once the round trip has produced `outcome`. */
    method FinishEvaluateAnswer(p: PendingEvaluation, outcome: EvaluatorOutcome, parse: string -> ParsedEvaluation)
      requires Valid()
      modifies this
      ensures Valid() && Snapshot() == FinishEvaluation(old(Snapshot()), p, outcome, parse)
    {
      CompletionAppendsAtMostOne(Snapshot(), p, outcome, parse);
      var evaluation := Evaluate(outcome, parse);
      match evaluation {
        case Some(e) =>
          currentFeedback := Some(e);
          results := results + [ResultEntry(p.scenario.dialogue, p.answer, e.score, e.feedback)];
        case None =>
          currentFeedback := Some(ServiceFallback);
      }
      isEvaluating := false;
    }

    method HandleNextQuestion()
      requires Valid()
      modifies this
      ensures Valid() && Snapshot() == NextQuestion(old(Snapshot()))
    {
      currentFeedback := None;
      if currentScenarioIndex < |scenarios| - 1 {
        currentScenarioIndex := currentScenarioIndex + 1;
      } else {
        phase := Results;
      }
    }
  }
}
