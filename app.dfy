/** The flow controller (src/App.tsx): the state held by the `App` component
    and the handlers that alone change it. Each handler runs to completion;
    the one `await` of `submitAssessment` is split into `BeginSubmit`, which
    runs up to the remote call and returns the request, and `CompleteSubmit`,
    which resumes with the call's outcome. */
module AppFlow {
  import opened Wrappers
  import opened Text
  import opened QuestionCatalog
  import opened SelfScanCatalog
  import opened Gemini
  import opened Scoring

  datatype Stage = Welcome | Assessment | SelfScan | Loading | Results

  /** The seven pieces of React state, as one value. */
  datatype FlowState = FlowState(
    stage: Stage,
    currentIndex: nat,
    answers: map<int, string>,
    selfScanScores: map<int, int>,
    feedback: seq<QuestionFeedback>,
    resultSummary: Option<ResultSummary>,
    error: Option<string>)

  /** The `useState` initial values, which restart returns to. */
  const InitialState: FlowState := FlowState(Welcome, 0, map[], map[], [], None, None)

  const AnswerAllQuestions: string := "Beantwoord alle vragen voordat je afrondt."
  const RateAllStatements: string := "Beantwoord alle stellingen om af te ronden."
  const AnswerThisQuestion: string := "Beantwoord deze vraag om verder te gaan."
  const PickAScore: string := "Kies een score om verder te gaan."
  const AnalysisFailed: string := "Er ging iets mis met de analyse. Probeer het opnieuw."

  /** `Boolean(answers[id]?.trim())`: present and not blank. */
  predicate Answered(answers: map<int, string>, id: int) {
    id in answers && NonBlank(answers[id])
  }

  /** `questions.every(...)`: every question is answered. */
  predicate AllAnswered(answers: map<int, string>) {
    forall i :: 0 <= i < |Catalog| ==> Answered(answers, Catalog[i].id)
  }

  /** The message kept from a failed submission: an `Error`'s own message,
      or a fixed fallback for any other thrown value. */
  function FailureMessage(t: Thrown): (m: string)
    ensures t.ErrorObject? ==> m == t.message
    ensures t.NonErrorValue? ==> m == AnalysisFailed
  {
    match t
    case ErrorObject(msg) => msg
    case NonErrorValue => AnalysisFailed
  }

  class Controller {
    var stage: Stage
    var currentIndex: nat
    var answers: map<int, string>
    var selfScanScores: map<int, int>
    var feedback: seq<QuestionFeedback>
    var resultSummary: Option<ResultSummary>
    var error: Option<string>
    /** The local `mcScores` of a submission waiting at its `await`, which
        the resumed submission still holds. */
    var suspended: Option<map<int, int>>

    function State(): FlowState
      reads this
    {
      FlowState(stage, currentIndex, answers, selfScanScores, feedback, resultSummary, error)
    }

    /** What every handler keeps: the index stays inside both catalogs,
        a summary carries the tier its total gives,
        feedback is empty or follows the catalog order, the results stage
        has a summary, and the loading stage has a suspended submission. */
    ghost predicate Valid()
      reads this
    {
      && currentIndex < |Catalog|
      && currentIndex < |Items|
      && (resultSummary.Some? ==> SummaryConsistent(resultSummary.value))
      && (feedback == [] || FollowsCatalogOrder(feedback))
      && (stage == Results ==> resultSummary.Some? && FollowsCatalogOrder(feedback))
      && (stage == Loading ==> suspended.Some?)
    }

    constructor ()
      ensures Valid()
      ensures State() == InitialState && suspended == None
    {
      stage, currentIndex, answers, selfScanScores := Welcome, 0, map[], map[];
      feedback, resultSummary, error, suspended := [], None, None, None;
      CatalogShape();
    }

    /** `handleStartAssessment`: a fresh assessment; the self-scan ratings
        are left as they were. */
    method StartAssessment()
      requires Valid()
      modifies this
      ensures Valid() && suspended == old(suspended)
      ensures State() == old(State()).(stage := Assessment, currentIndex := 0, answers := map[],
                                       feedback := [], resultSummary := None, error := None)
    {
      CatalogShape();
      stage := Assessment;
      currentIndex := 0;
      answers := map[];
      feedback := [];
      resultSummary := None;
      error := None;
    }

    /** `handleStartSelfScan`: a fresh self-scan; the assessment answers are
        left as they were. */
    method StartSelfScan()
      requires Valid()
      modifies this
      ensures Valid() && suspended == old(suspended)
      ensures State() == old(State()).(stage := SelfScan, currentIndex := 0, selfScanScores := map[],
                                       feedback := [], resultSummary := None, error := None)
    {
      CatalogShape();
      stage := SelfScan;
      currentIndex := 0;
      selfScanScores := map[];
      feedback := [];
      resultSummary := None;
      error := None;
    }

    /** `handleAnswer`: stores one answer; nothing else changes, the index
        included. */
    method Answer(questionId: int, value: string)
      requires Valid()
      modifies this
      ensures Valid() && suspended == old(suspended)
      ensures State() == old(State()).(answers := old(answers)[questionId := value])
    {
      answers := answers[questionId := value];
    }

    /** `handleSelfScanAnswer`: stores one rating; nothing else changes. */
    method SelfScanAnswer(id: int, value: int)
      requires Valid()
      modifies this
      ensures Valid() && suspended == old(suspended)
      ensures State() == old(State()).(selfScanScores := old(selfScanScores)[id := value])
    {
      selfScanScores := selfScanScores[id := value];
    }

    /** `computeMcScores`: exactly questions 1 and 5 are scored, each 1 when
        its stored answer is the correct option and 0 otherwise. */
    method ComputeMcScores() returns (scores: map<int, int>)
      ensures scores == McScores(answers)
      ensures scores.Keys == {1, 5}
      ensures scores[1] == 1 <==> 1 in answers && answers[1] == "B"
      ensures scores[5] == 1 <==> 5 in answers && answers[5] == "C"
      ensures scores[1] in {0, 1} && scores[5] in {0, 1}
    {
      scores := map[];
      for i := 0 to |Catalog|
        invariant scores == McScoresOver(Catalog[..i], answers)
      {
        var q := Catalog[i];
        if q.kind == Mc && q.correctAnswer.Some? && q.correctAnswer.value != "" {
          var answer := if q.id in answers then Some(answers[q.id]) else None;
          scores := scores[q.id := if answer == q.correctAnswer then 1 else 0];
        }
        assert Catalog[..i + 1][..i] == Catalog[..i];
      }
      assert Catalog[..|Catalog|] == Catalog;
      McScoresCatalog(answers);
    }

    /** `computeMcLabels`: a label for each multiple-choice question with a
        non-empty stored answer, the chosen option's label or else the raw
        answer. */
    method ComputeMcLabels() returns (labels: map<int, string>)
      ensures labels == McLabels(answers)
      ensures labels.Keys <= {1, 5}
      ensures forall id :: id == 1 || id == 5 ==> (id in labels <==> id in answers && answers[id] != "")
    {
      labels := map[];
      for i := 0 to |Catalog|
        invariant labels == McLabelsOver(Catalog[..i], answers)
      {
        var q := Catalog[i];
        if q.kind == Mc && q.id in answers && answers[q.id] != "" {
          var option := if q.options.Some? then FindOption(q.options.value, answers[q.id]) else None;
          labels := labels[q.id := if option.Some? then option.value.labelText else answers[q.id]];
        }
        assert Catalog[..i + 1][..i] == Catalog[..i];
      }
      assert Catalog[..|Catalog|] == Catalog;
      McLabelsCatalog(answers);
    }

    /** `submitAssessment` up to its `await`. With a question unanswered it
        sets the error, goes back to the assessment and makes no request.
        Otherwise it moves to loading, clears the error, and returns the
        request: all answers with the local scores and labels. */
    method BeginSubmit() returns (request: Option<ScorePayload>)
      requires Valid()
      modifies this
      ensures Valid()
      ensures request.Some? <==> AllAnswered(old(answers))
      ensures !AllAnswered(old(answers)) ==>
        && State() == old(State()).(stage := Assessment, error := Some(AnswerAllQuestions))
        && suspended == old(suspended)
      ensures AllAnswered(old(answers)) ==>
        && State() == old(State()).(stage := Loading, error := None)
        && request == Some(ScorePayload(answers, McScores(answers), McLabels(answers)))
        && suspended == Some(McScores(answers))
    {
      var allAnswered := AllAnswered(answers);
      if !allAnswered {
        error := Some(AnswerAllQuestions);
        stage := Assessment;
        return None;
      }
      stage := Loading;
      error := None;
      var mcScores := ComputeMcScores();
      var mcAnswerLabels := ComputeMcLabels();
      suspended := Some(mcScores);
      request := Some(ScorePayload(answers, mcScores, mcAnswerLabels));
    }

    /** `submitAssessment` after its `await`. On success: the merged
        feedback, a summary whose total is the reported total and whose tier
        follows the threshold on it, and the results stage. On failure: the
        failure's message and back to the assessment, answers untouched. */
    method CompleteSubmit(outcome: Result<GeminiResult, Thrown>)
      requires Valid()
      requires suspended.Some?
      modifies this
      ensures Valid() && suspended == None
      ensures outcome.Success? ==>
        State() == old(State()).(
          stage := Results,
          feedback := BuildFeedback(outcome.value, old(suspended.value)),
          resultSummary := Some(ResultSummary(outcome.value.totalScore, Recommend(outcome.value.totalScore), AssessmentMode)))
      ensures outcome.Failure? ==>
        State() == old(State()).(stage := Assessment, error := Some(FailureMessage(outcome.error)))
    {
      match outcome {
        case Success(g) =>
          ShowAssessmentResults(g, suspended.value);
        case Failure(err) =>
          error := Some(FailureMessage(err));
          stage := Assessment;
      }
      suspended := None;
    }

    /** The setters run after a successful remote call: the merged feedback,
        the summary with the tier the reported total gives, and the results
        stage; nothing else changes. */
    method ShowAssessmentResults(g: GeminiResult, mcScores: map<int, int>)
      requires Valid()
      modifies this
      ensures Valid() && suspended == old(suspended)
      ensures State() == old(State()).(
          stage := Results,
          feedback := BuildFeedback(g, mcScores),
          resultSummary := Some(ResultSummary(g.totalScore, Recommend(g.totalScore), AssessmentMode)))
    {
      var merged := BuildFeedback(g, mcScores);
      BuildFeedbackFollowsCatalog(g, mcScores);
      var recommendation := if g.totalScore >= 4.0 then Advanced else Webinar;
      var summary := ResultSummary(g.totalScore, recommendation, AssessmentMode);
      assert SummaryConsistent(summary);
      stage := Results;
      feedback := merged;
      resultSummary := Some(summary);
    }

    /** `submitSelfScan`. With an item unrated it sets the error and stays in
        the self-scan. Otherwise it clears the error and goes straight to the
        results (never through loading) with one record per item and a
        summary counting the items rated 3. */
    method SubmitSelfScan()
      requires Valid()
      modifies this
      ensures Valid() && suspended == old(suspended)
      ensures stage != Loading
      ensures !AllRated(old(selfScanScores)) ==>
        State() == old(State()).(stage := SelfScan, error := Some(RateAllStatements))
      ensures AllRated(old(selfScanScores)) ==>
        State() == old(State()).(
          stage := Results, error := None,
          feedback := SelfScanFeedback(old(selfScanScores)),
          resultSummary := Some(SelfScanSummary(old(selfScanScores))))
    {
      var allAnswered := forall i | 0 <= i < |Items| :: Items[i].id in selfScanScores;
      if !allAnswered {
        error := Some(RateAllStatements);
        stage := SelfScan;
        return;
      }
      error := None;
      SelfScanFeedbackFollowsCatalog(selfScanScores);
      feedback := SelfScanFeedback(selfScanScores);
      resultSummary := Some(SelfScanSummary(selfScanScores));
      stage := Results;
    }

    /** `handleProceedAssessment`. Outside the assessment it does nothing.
        An unanswered current question sets the error and changes nothing
        else. An answered question that is not the last clears the error and
        moves on by exactly one. An answered last question submits instead
        of moving on. */
    method ProceedAssessment() returns (request: Option<ScorePayload>)
      requires Valid()
      modifies this
      ensures Valid()
      ensures old(stage) != Assessment ==>
        request.None? && State() == old(State()) && suspended == old(suspended)
      ensures old(stage) == Assessment && !Answered(old(answers), Catalog[old(currentIndex)].id) ==>
        && request.None?
        && State() == old(State()).(error := Some(AnswerThisQuestion))
        && suspended == old(suspended)
      ensures old(stage) == Assessment && Answered(old(answers), Catalog[old(currentIndex)].id)
              && old(currentIndex) < |Catalog| - 1 ==>
        && request.None?
        && State() == old(State()).(currentIndex := old(currentIndex) + 1, error := None)
        && suspended == old(suspended)
      ensures old(stage) == Assessment && Answered(old(answers), Catalog[old(currentIndex)].id)
              && old(currentIndex) == |Catalog| - 1 && !AllAnswered(old(answers)) ==>
        && request.None?
        && State() == old(State()).(error := Some(AnswerAllQuestions))
        && suspended == old(suspended)
      ensures old(stage) == Assessment && Answered(old(answers), Catalog[old(currentIndex)].id)
              && old(currentIndex) == |Catalog| - 1 && AllAnswered(old(answers)) ==>
        && request == Some(ScorePayload(answers, McScores(answers), McLabels(answers)))
        && State() == old(State()).(stage := Loading, error := None)
        && suspended == Some(McScores(answers))
    {
      request := None;
      if stage != Assessment {
        return;
      }
      var current := Catalog[currentIndex];
      if !(current.id in answers) || !NonBlank(answers[current.id]) {
        error := Some(AnswerThisQuestion);
        return;
      }
      error := None;
      if currentIndex < |Catalog| - 1 {
        currentIndex := currentIndex + 1;
        return;
      }
      request := BeginSubmit();
    }

    /** `handleProceedSelfScan`: the same case split (outside the stage,
        unrated, advance, submit), with "has a rating" as the test and the
        self-scan submission at the end. */
    method ProceedSelfScan()
      requires Valid()
      modifies this
      ensures Valid() && suspended == old(suspended)
      ensures old(stage) != SelfScan ==> State() == old(State())
      ensures old(stage) == SelfScan && !Rated(old(selfScanScores), Items[old(currentIndex)].id) ==>
        State() == old(State()).(error := Some(PickAScore))
      ensures old(stage) == SelfScan && Rated(old(selfScanScores), Items[old(currentIndex)].id)
              && old(currentIndex) < |Items| - 1 ==>
        State() == old(State()).(currentIndex := old(currentIndex) + 1, error := None)
      ensures old(stage) == SelfScan && Rated(old(selfScanScores), Items[old(currentIndex)].id)
              && old(currentIndex) == |Items| - 1 && !AllRated(old(selfScanScores)) ==>
        State() == old(State()).(error := Some(RateAllStatements))
      ensures old(stage) == SelfScan && Rated(old(selfScanScores), Items[old(currentIndex)].id)
              && old(currentIndex) == |Items| - 1 && AllRated(old(selfScanScores)) ==>
        State() == old(State()).(
          stage := Results, error := None,
          feedback := SelfScanFeedback(old(selfScanScores)),
          resultSummary := Some(SelfScanSummary(old(selfScanScores))))
    {
      if stage != SelfScan {
        return;
      }
      var current := Items[currentIndex];
      if current.id !in selfScanScores {
        error := Some(PickAScore);
        return;
      }
      error := None;
      if currentIndex < |Items| - 1 {
        currentIndex := currentIndex + 1;
        return;
      }
      SubmitSelfScan();
    }

    /** `handleBack`: nothing at the first item; otherwise one step back and
        the error cleared. Answers and ratings are never touched. */
    method Back()
      requires Valid()
      modifies this
      ensures Valid() && suspended == old(suspended)
      ensures old(currentIndex) == 0 ==> State() == old(State())
      ensures old(currentIndex) > 0 ==>
        State() == old(State()).(currentIndex := old(currentIndex) - 1, error := None)
    {
      if currentIndex == 0 {
        return;
      }
      currentIndex := currentIndex - 1;
      error := None;
    }

    /** `handleRestart`: every field back to its initial value. */
    method Restart()
      requires Valid()
      modifies this
      ensures Valid() && suspended == old(suspended)
      ensures State() == InitialState
    {
      answers := map[];
      selfScanScores := map[];
      feedback := [];
      resultSummary := None;
      currentIndex := 0;
      error := None;
      stage := Welcome;
      CatalogShape();
    }
  }

  /** `questions.every(...)` read by id: every id from 1 to 7 is answered. */
  lemma AllAnsweredById(answers: map<int, string>)
    ensures AllAnswered(answers) <==> forall id :: 1 <= id <= 7 ==> Answered(answers, id)
  {
    CatalogShape();
    if forall id :: 1 <= id <= 7 ==> Answered(answers, id) {
      forall i | 0 <= i < |Catalog| ensures Answered(answers, Catalog[i].id) {
        assert Catalog[i].id == i + 1;
      }
    }
    if AllAnswered(answers) {
      forall id | 1 <= id <= 7 ensures Answered(answers, id) {
        assert Catalog[id - 1].id == id;
      }
    }
  }

  /** The answers of the walkthrough below: B (correct) for question 1, A
      (wrong) for question 5, and one free text for the open questions. */
  function WalkthroughAnswer(id: int): string {
    if id == 1 then "B" else if id == 5 then "A" else "Rol, doel en context"
  }

  /** Each walkthrough answer has a non-whitespace first character. */
  lemma WalkthroughAnswerNonBlank(id: int)
    ensures NonBlank(WalkthroughAnswer(id))
  {
    var text := WalkthroughAnswer(id);
    NonBlankIff(text);
    assert !IsJsWhitespace(text[0]);
  }

  /** A map holding the walkthrough answer for every id 1..7 answers the
      whole catalog. */
  lemma WalkthroughAllAnswered(answers: map<int, string>)
    requires forall id :: 1 <= id <= 7 ==> id in answers && answers[id] == WalkthroughAnswer(id)
    ensures AllAnswered(answers)
  {
    CatalogShape();
    forall i | 0 <= i < |Catalog| ensures Answered(answers, Catalog[i].id) {
      WalkthroughAnswerNonBlank(i + 1);
    }
  }

  /** Starts an assessment on `c` and answers all seven questions with
      `WalkthroughAnswer`. */
  method AnswerAll(c: Controller)
    requires c.Valid()
    modifies c
    ensures c.Valid() && c.stage == Assessment && AllAnswered(c.answers)
    ensures forall id :: 1 <= id <= 7 ==> id in c.answers && c.answers[id] == WalkthroughAnswer(id)
  {
    c.StartAssessment();
    for id := 1 to 8
      invariant c.Valid() && c.stage == Assessment
      invariant forall k :: 1 <= k < id ==> k in c.answers && c.answers[k] == WalkthroughAnswer(k)
    {
      c.Answer(id, WalkthroughAnswer(id));
    }
    WalkthroughAllAnswered(c.answers);
  }

  /** Proceeds through a fully answered assessment until the submission is
      waiting on the remote call. */
  method ProceedToSubmission(c: Controller)
    requires c.Valid() && c.stage == Assessment && AllAnswered(c.answers)
    modifies c
    ensures c.Valid() && c.stage == Loading && c.answers == old(c.answers)
    ensures c.suspended == Some(McScores(c.answers))
  {
    ghost var answers := c.answers;
    while c.stage == Assessment
      invariant c.Valid() && c.answers == answers
      invariant c.stage == Assessment || (c.stage == Loading && c.suspended == Some(McScores(answers)))
      decreases |Catalog| - c.currentIndex, if c.stage == Assessment then 1 else 0
    {
      assert Answered(answers, Catalog[c.currentIndex].id);
      var request := c.ProceedAssessment();
    }
  }

  /** A remote failure after a complete assessment returns to the assessment
      with every answer kept and the message shown. */
  method RemoteFailureWalkthrough() {
    var c := new Controller();
    AnswerAll(c);
    ProceedToSubmission(c);
    var answers := c.answers;
    c.CompleteSubmit(ScoreAssessment(Some("key"), CallFailed(ErrorObject("netwerkfout"))));
    assert c.stage == Assessment && c.answers == answers && c.error == Some("netwerkfout");
  }

  /** A successful remote call after a complete assessment reaches the
      results with seven records, the local scores for questions 1 and 5,
      and the reported total with its tier; a restart then restores the
      initial state exactly. */
  method RemoteSuccessWalkthrough() {
    var c := new Controller();
    AnswerAll(c);
    ProceedToSubmission(c);
    AssessmentScenario(c.answers);
    c.CompleteSubmit(ScoreAssessment(Some("key"), Replied(Some(ScenarioReply))));
    assert c.stage == Results && |c.feedback| == 7;
    assert c.feedback[0].score == 1.0 && c.feedback[4].score == 0.0;
    assert c.resultSummary == Some(ResultSummary(5.0, Advanced, AssessmentMode));
    c.Restart();
    assert c.State() == InitialState;
  }
}
