/** The pure helpers of the flow controller (src/App.tsx): the recommendation
    threshold, local scoring and labelling of the multiple-choice questions,
    the merge of local and remote scores into seven feedback records, and the
    self-scan reduction. */
module Scoring {
  import opened Wrappers
  import opened Text
  import opened QuestionCatalog
  import opened SelfScanCatalog
  import opened Gemini

  datatype Mode = AssessmentMode | SelfScanMode

  /** One point of the radar chart and one line of the summary listing. */
  datatype QuestionFeedback = QuestionFeedback(id: int, title: string, score: real, feedback: string)

  datatype ResultSummary = ResultSummary(totalScore: real, recommendation: Recommendation, mode: Mode)

  const AdvancedThreshold: real := 4.0

  /** `total >= 4 ? 'advanced' : 'webinar'`, the one rule both flows use. */
  function Recommend(total: real): (r: Recommendation)
    ensures r == Advanced <==> total >= AdvancedThreshold
  {
    if total >= AdvancedThreshold then Advanced else Webinar
  }

  /** The rule is monotone and exact at the cutoff: 4 is advanced, 3 is not. */
  lemma RecommendMonotone(a: real, b: real)
    requires a <= b
    ensures Recommend(a) == Advanced ==> Recommend(b) == Advanced
    ensures Recommend(4.0) == Advanced && Recommend(3.0) == Webinar
  {
  }

  /** A summary as the controller builds it: the tier is the one the
      threshold gives for the total. */
  predicate SummaryConsistent(s: ResultSummary) {
    s.recommendation == Recommend(s.totalScore)
  }

  // ---------------------------------------------------------------------
  // Local scoring of the multiple-choice questions

  /** `answers[q.id] === q.correctAnswer ? 1 : 0`; a missing answer is 0. */
  function McScore(q: Question, answers: map<int, string>): (s: int)
    ensures s == 1 <==> q.id in answers && q.correctAnswer == Some(answers[q.id])
    ensures s == 0 || s == 1
  {
    if q.id in answers && q.correctAnswer == Some(answers[q.id]) then 1 else 0
  }

  /** The scores map after `forEach` has visited the questions `qs` in order. */
  function McScoresOver(qs: seq<Question>, answers: map<int, string>): map<int, int> {
    if qs == [] then map[]
    else
      var m := McScoresOver(qs[..|qs| - 1], answers);
      var q := qs[|qs| - 1];
      if ScoredClosed(q) then m[q.id := McScore(q, answers)] else m
  }

  /** `computeMcScores()` over the catalog. */
  function McScores(answers: map<int, string>): map<int, int> {
    McScoresOver(Catalog, answers)
  }

  /** For questions with distinct ids, the scores map holds exactly the
      locally scored questions, each with its 0/1 score, and no other key. */
  lemma {:induction false} McScoresOverSpec(qs: seq<Question>, answers: map<int, string>)
    requires DistinctIds(qs)
    ensures forall i :: 0 <= i < |qs| ==> (qs[i].id in McScoresOver(qs, answers) <==> ScoredClosed(qs[i]))
    ensures forall i :: 0 <= i < |qs| && ScoredClosed(qs[i]) ==>
      McScoresOver(qs, answers)[qs[i].id] == McScore(qs[i], answers)
    ensures McScoresOver(qs, answers).Keys <= IdSet(qs)
  {
    if qs != [] {
      var p := qs[..|qs| - 1];
      assert DistinctIds(p);
      McScoresOverSpec(p, answers);
      var m := McScoresOver(p, answers);
      var q := qs[|qs| - 1];
      assert McScoresOver(qs, answers) == if ScoredClosed(q) then m[q.id := McScore(q, answers)] else m;
      assert IdSet(p) <= IdSet(qs) by {
        forall id | id in IdSet(p) ensures id in IdSet(qs) {
          var k :| 0 <= k < |p| && p[k].id == id;
          assert qs[k].id == id;
        }
      }
      forall i | 0 <= i < |qs|
        ensures qs[i].id in McScoresOver(qs, answers) <==> ScoredClosed(qs[i])
        ensures ScoredClosed(qs[i]) ==> McScoresOver(qs, answers)[qs[i].id] == McScore(qs[i], answers)
      {
        if i < |qs| - 1 {
          assert qs[i] == p[i] && qs[i].id != q.id;
        }
      }
    }
  }

  /** The catalog's scores map has keys exactly 1 and 5; question 1 scores 1
      iff its answer is B, question 5 iff its answer is C. */
  lemma McScoresCatalog(answers: map<int, string>)
    ensures McScores(answers).Keys == {1, 5}
    ensures McScores(answers)[1] == (if 1 in answers && answers[1] == "B" then 1 else 0)
    ensures McScores(answers)[5] == (if 5 in answers && answers[5] == "C" then 1 else 0)
  {
    CatalogShape();
    ClosedExactlyAtOneAndFive();
    McScoresOverSpec(Catalog, answers);
    var m := McScores(answers);
    forall id | id in m ensures id == 1 || id == 5 {
      assert id in IdSet(Catalog);
      assert ScoredClosed(Catalog[id - 1]);
    }
    assert ScoredClosed(Catalog[0]) && ScoredClosed(Catalog[4]);
  }

  /** The label shown for a chosen option: the option's own label when the
      stored id names one of the question's options, else the stored value. */
  function McLabel(q: Question, answers: map<int, string>): (l: string)
    requires q.id in answers
  {
    if q.options.Some? then
      match FindOption(q.options.value, answers[q.id])
      case Some(o) => o.labelText
      case None => answers[q.id]
    else answers[q.id]
  }

  /** `q.type === 'mc' && answers[q.id]`: a multiple-choice question whose
      stored answer is a non-empty string (not trimmed). */
  predicate Labelled(q: Question, answers: map<int, string>) {
    q.kind == Mc && q.id in answers && answers[q.id] != ""
  }

  /** The labels map after `forEach` has visited the questions `qs` in order. */
  function McLabelsOver(qs: seq<Question>, answers: map<int, string>): map<int, string> {
    if qs == [] then map[]
    else
      var m := McLabelsOver(qs[..|qs| - 1], answers);
      var q := qs[|qs| - 1];
      if Labelled(q, answers) then m[q.id := McLabel(q, answers)] else m
  }

  /** `computeMcLabels()` over the catalog. */
  function McLabels(answers: map<int, string>): map<int, string> {
    McLabelsOver(Catalog, answers)
  }

  /** For questions with distinct ids, the labels map holds exactly the
      answered multiple-choice questions, each with its display label. */
  lemma {:induction false} McLabelsOverSpec(qs: seq<Question>, answers: map<int, string>)
    requires DistinctIds(qs)
    ensures forall i :: 0 <= i < |qs| ==> (qs[i].id in McLabelsOver(qs, answers) <==> Labelled(qs[i], answers))
    ensures forall i :: 0 <= i < |qs| && Labelled(qs[i], answers) ==>
      McLabelsOver(qs, answers)[qs[i].id] == McLabel(qs[i], answers)
    ensures McLabelsOver(qs, answers).Keys <= IdSet(qs)
  {
    if qs != [] {
      var p := qs[..|qs| - 1];
      assert DistinctIds(p);
      McLabelsOverSpec(p, answers);
      var m := McLabelsOver(p, answers);
      var q := qs[|qs| - 1];
      assert McLabelsOver(qs, answers) == if Labelled(q, answers) then m[q.id := McLabel(q, answers)] else m;
      assert IdSet(p) <= IdSet(qs) by {
        forall id | id in IdSet(p) ensures id in IdSet(qs) {
          var k :| 0 <= k < |p| && p[k].id == id;
          assert qs[k].id == id;
        }
      }
      forall i | 0 <= i < |qs|
        ensures qs[i].id in McLabelsOver(qs, answers) <==> Labelled(qs[i], answers)
        ensures Labelled(qs[i], answers) ==> McLabelsOver(qs, answers)[qs[i].id] == McLabel(qs[i], answers)
      {
        if i < |qs| - 1 {
          assert qs[i] == p[i] && qs[i].id != q.id;
        }
      }
    }
  }

  /** The catalog's labels map has a key only for questions 1 and 5, and for
      each of them exactly when a non-empty answer is stored; choosing B on
      question 1 shows that option's full label. */
  lemma McLabelsCatalog(answers: map<int, string>)
    ensures McLabels(answers).Keys <= {1, 5}
    ensures forall id :: id == 1 || id == 5 ==>
      (id in McLabels(answers) <==> id in answers && answers[id] != "")
    ensures 1 in answers && answers[1] == "B" ==>
      McLabels(answers)[1] == Question1Options[1].labelText
  {
    CatalogShape();
    ClosedExactlyAtOneAndFive();
    McLabelsOverSpec(Catalog, answers);
    var m := McLabels(answers);
    forall id | id in m ensures id == 1 || id == 5 {
      assert id in IdSet(Catalog);
      assert Labelled(Catalog[id - 1], answers);
    }
    assert Catalog[0].id == 1 && Catalog[4].id == 5;
  }

  // ---------------------------------------------------------------------
  // Merging local and remote scores

  /** `mcScores[id] ?? 0`. */
  function McScoreOrZero(mcScores: map<int, int>, id: int): int {
    if id in mcScores then mcScores[id] else 0
  }

  /** The label of a question's correct option, or "N.v.t." when the
      question, its options or its correct answer is missing. */
  function CorrectLabel(question: Option<Question>): string {
    if question.Some? && question.value.options.Some? && question.value.correctAnswer.Some? then
      match FindOption(question.value.options.value, question.value.correctAnswer.value)
      case Some(o) => o.labelText
      case None => "N.v.t."
    else "N.v.t."
  }

  const WellAnswered: string := "Goed beantwoord"
  const CorrectAnswerPrefix: string := "Juiste antwoord: "

  /** `mcFeedback(id)`: the record of a locally scored question. */
  function McFeedback(id: nat, mcScores: map<int, int>): QuestionFeedback {
    var question := FindQuestion(id);
    var score := McScoreOrZero(mcScores, id);
    QuestionFeedback(
      id,
      "Vraag " + NatToString(id) + " - " + (if question.Some? then question.value.theme else ""),
      score as real,
      if score == 1 then WellAnswered else CorrectAnswerPrefix + CorrectLabel(question))
  }

  /** The remote score of an open question, by id. */
  function RemoteScore(g: GeminiResult, id: int): real {
    if id == 2 then g.q2Score else if id == 3 then g.q3Score else if id == 4 then g.q4Score
    else if id == 6 then g.q6Score else if id == 7 then g.q7Score else 0.0
  }

  /** The remote feedback of an open question, by id. */
  function RemoteFeedback(g: GeminiResult, id: int): string {
    if id == 2 then g.q2Feedback else if id == 3 then g.q3Feedback else if id == 4 then g.q4Feedback
    else if id == 6 then g.q6Feedback else if id == 7 then g.q7Feedback else ""
  }

  /** `buildFeedback`: one record per question, ids 1..7 in order. */
  function BuildFeedback(g: GeminiResult, mcScores: map<int, int>): (r: seq<QuestionFeedback>)
    ensures |r| == 7 && forall i :: 0 <= i < 7 ==> r[i].id == i + 1
  {
    [ McFeedback(1, mcScores),
      QuestionFeedback(2, "Vraag 2 - Prompting", g.q2Score, g.q2Feedback),
      QuestionFeedback(3, "Vraag 3 - Custom chatbots", g.q3Score, g.q3Feedback),
      QuestionFeedback(4, "Vraag 4 - Frontend/DB/chatbot", g.q4Score, g.q4Feedback),
      McFeedback(5, mcScores),
      QuestionFeedback(6, "Vraag 6 - AI-ready toets", g.q6Score, g.q6Feedback),
      QuestionFeedback(7, "Vraag 7 - Beperkingen", g.q7Score, g.q7Feedback) ]
  }

  /** Records follow the catalog: same length, same ids in the same order. */
  predicate FollowsCatalogOrder(fb: seq<QuestionFeedback>) {
    |fb| == |Catalog| && forall i :: 0 <= i < |fb| ==> fb[i].id == Catalog[i].id
  }

  /** The mismatch text never reads as the affirmation. */
  lemma MismatchNotAffirmation(correct: string)
    ensures CorrectAnswerPrefix + correct != WellAnswered
  {
    assert (CorrectAnswerPrefix + correct)[0] == 'J' != WellAnswered[0];
  }

  /** A multiple-choice record carries the local score (0 when absent) and
      says "Goed beantwoord" exactly when that score is 1; otherwise it names
      the label of the question's correct option. */
  lemma McFeedbackSpec(id: nat, mcScores: map<int, int>)
    ensures McFeedback(id, mcScores).id == id
    ensures McFeedback(id, mcScores).score == McScoreOrZero(mcScores, id) as real
    ensures McFeedback(id, mcScores).feedback == WellAnswered <==> McScoreOrZero(mcScores, id) == 1
    ensures McScoreOrZero(mcScores, id) != 1 ==>
      McFeedback(id, mcScores).feedback == CorrectAnswerPrefix + CorrectLabel(FindQuestion(id))
  {
    MismatchNotAffirmation(CorrectLabel(FindQuestion(id)));
  }

  /** The hard-coded merge follows the catalog: record i is question i's. */
  lemma BuildFeedbackFollowsCatalog(g: GeminiResult, mcScores: map<int, int>)
    ensures FollowsCatalogOrder(BuildFeedback(g, mcScores))
  {
    CatalogShape();
  }

  /** Each multiple-choice record of the merge carries the local score (0
      when absent) and says "Goed beantwoord" exactly when that score is 1. */
  lemma BuildFeedbackMcRecords(g: GeminiResult, mcScores: map<int, int>)
    ensures forall i :: 0 <= i < |Catalog| && Catalog[i].kind == Mc ==>
      && BuildFeedback(g, mcScores)[i].score == McScoreOrZero(mcScores, Catalog[i].id) as real
      && (BuildFeedback(g, mcScores)[i].feedback == WellAnswered <==> McScoreOrZero(mcScores, Catalog[i].id) == 1)
  {
    CatalogShape();
    ClosedExactlyAtOneAndFive();
    var r := BuildFeedback(g, mcScores);
    assert r[0] == McFeedback(1, mcScores) && r[4] == McFeedback(5, mcScores);
    McFeedbackSpec(1, mcScores);
    McFeedbackSpec(5, mcScores);
    forall i | 0 <= i < |Catalog| && Catalog[i].kind == Mc
      ensures r[i].score == McScoreOrZero(mcScores, Catalog[i].id) as real
      ensures r[i].feedback == WellAnswered <==> McScoreOrZero(mcScores, Catalog[i].id) == 1
    {
      assert i == 0 || i == 4;
    }
  }

  /** Each open record of the merge copies the remote score and feedback
      of its question unchanged. */
  lemma BuildFeedbackOpenRecords(g: GeminiResult, mcScores: map<int, int>)
    ensures forall i :: 0 <= i < |Catalog| && Catalog[i].kind == Open ==>
      && BuildFeedback(g, mcScores)[i].score == RemoteScore(g, Catalog[i].id)
      && BuildFeedback(g, mcScores)[i].feedback == RemoteFeedback(g, Catalog[i].id)
  {
    CatalogShape();
    ClosedExactlyAtOneAndFive();
    var r := BuildFeedback(g, mcScores);
    forall i | 0 <= i < |Catalog| && Catalog[i].kind == Open
      ensures r[i].score == RemoteScore(g, Catalog[i].id) && r[i].feedback == RemoteFeedback(g, Catalog[i].id)
    {
      assert i in {1, 2, 3, 5, 6};
    }
  }

  /** The correct-option labels the merge falls back on: option B of
      question 1 and option C of question 5. */
  lemma CorrectLabelsOfCatalog()
    ensures CorrectLabel(FindQuestion(1)) == Question1Options[1].labelText
    ensures CorrectLabel(FindQuestion(5)) == Question5Options[2].labelText
  {
    FindQuestionAt(0);
    FindQuestionAt(4);
    ClosedOptionsWellFormed();
  }

  /** A wrong or missing answer names the correct option in full. */
  lemma McFeedbackNamesCorrectOption(g: GeminiResult, mcScores: map<int, int>)
    ensures McScoreOrZero(mcScores, 1) != 1 ==>
      BuildFeedback(g, mcScores)[0].feedback == CorrectAnswerPrefix + Question1Options[1].labelText
    ensures McScoreOrZero(mcScores, 5) != 1 ==>
      BuildFeedback(g, mcScores)[4].feedback == CorrectAnswerPrefix + Question5Options[2].labelText
  {
    var r := BuildFeedback(g, mcScores);
    assert r[0] == McFeedback(1, mcScores) && r[4] == McFeedback(5, mcScores);
    CorrectLabelsOfCatalog();
    McFeedbackSpec(1, mcScores);
    McFeedbackSpec(5, mcScores);
  }

  // ---------------------------------------------------------------------
  // The self-scan reduction

  /** `typeof selfScanScores[id] === 'number'`. */
  predicate Rated(scores: map<int, int>, id: int) {
    id in scores
  }

  /** Every self-scan item has a rating. */
  predicate AllRated(scores: map<int, int>) {
    forall i :: 0 <= i < |Items| ==> Rated(scores, Items[i].id)
  }

  /** Ratings as the three buttons give them: 1, 2 or 3. */
  predicate RatingsInRange(scores: map<int, int>) {
    forall id :: id in scores ==> 1 <= scores[id] <= 3
  }

  function RatedThree(scores: map<int, int>, item: SelfScanItem): bool {
    item.id in scores && scores[item.id] == 3
  }

  /** The `reduce` that counts items rated 3; it never exceeds the item count. */
  function GoodCount(scores: map<int, int>, items: seq<SelfScanItem>): (n: nat)
    ensures n <= |items|
  {
    if items == [] then 0
    else (if RatedThree(scores, items[0]) then 1 else 0) + GoodCount(scores, items[1..])
  }

  /** The ids of the items rated 3. */
  function RatedThreeIds(scores: map<int, int>, items: seq<SelfScanItem>): set<int> {
    set i | 0 <= i < |items| && RatedThree(scores, items[i]) :: items[i].id
  }

  /** The rated-3 ids of a non-empty list split into its head's and its tail's. */
  lemma RatedThreeIdsSplit(scores: map<int, int>, items: seq<SelfScanItem>)
    requires items != []
    ensures RatedThreeIds(scores, items) ==
      (if RatedThree(scores, items[0]) then {items[0].id} else {}) + RatedThreeIds(scores, items[1..])
  {
    var s := RatedThreeIds(scores, items);
    var rest := items[1..];
    var t := RatedThreeIds(scores, rest);
    forall id | id in s
      ensures id in (if RatedThree(scores, items[0]) then {items[0].id} else {}) + t
    {
      var k :| 0 <= k < |items| && RatedThree(scores, items[k]) && items[k].id == id;
      if k > 0 { assert rest[k - 1] == items[k]; }
    }
    forall id | id in t ensures id in s {
      var k :| 0 <= k < |rest| && RatedThree(scores, rest[k]) && rest[k].id == id;
      assert items[k + 1] == rest[k];
    }
  }

  /** With distinct ids the count is the number of distinct themes rated 3. */
  lemma {:induction false} GoodCountIsRatedThreeIds(scores: map<int, int>, items: seq<SelfScanItem>)
    requires DistinctItemIds(items)
    ensures GoodCount(scores, items) == |RatedThreeIds(scores, items)|
  {
    if items != [] {
      var rest := items[1..];
      assert DistinctItemIds(rest);
      GoodCountIsRatedThreeIds(scores, rest);
      RatedThreeIdsSplit(scores, items);
      var t := RatedThreeIds(scores, rest);
      forall k | 0 <= k < |rest| ensures rest[k].id != items[0].id {
        assert rest[k] == items[k + 1];
      }
      assert items[0].id !in t;
    }
  }

  /** `Math.max(0, Math.min(1, x))`. */
  function Clamp01(x: real): (r: real)
    ensures 0.0 <= r <= 1.0
    ensures 0.0 <= x <= 1.0 ==> r == x
  {
    if x > 1.0 then 1.0 else if x < 0.0 then 0.0 else x
  }

  /** Sterk for 3, Redelijk for 2, Beginner for anything else. */
  function RatingLabel(rating: int): (l: string)
    ensures l == "Sterk" <==> rating == 3
    ensures l == "Redelijk" <==> rating == 2
    ensures l == "Beginner" <==> rating != 2 && rating != 3
  {
    if rating == 3 then "Sterk" else if rating == 2 then "Redelijk" else "Beginner"
  }

  /** The record of one rated theme. */
  function SelfScanRecord(item: SelfScanItem, rating: int): QuestionFeedback {
    QuestionFeedback(
      item.id,
      "Thema " + NatToString(item.id) + " - " + item.theme,
      Clamp01(rating as real / 3.0),
      RatingLabel(rating) + " (gekozen: " + IntToString(rating) + "/3)")
  }

  /** The self-scan `map`: one record per item, in item order, each scored
      `rating / 3` clamped to [0, 1] and labelled by its rating. With the
      ratings the buttons give (1 to 3) the clamp never bites and every
      score is positive. */
  function SelfScanFeedback(scores: map<int, int>): (r: seq<QuestionFeedback>)
    requires AllRated(scores)
    ensures |r| == |Items|
    ensures forall i :: 0 <= i < |r| ==> r[i].id == Items[i].id
    ensures forall i :: 0 <= i < |r| ==> r[i].score == Clamp01(scores[Items[i].id] as real / 3.0)
    ensures forall i :: 0 <= i < |r| ==> 0.0 <= r[i].score <= 1.0
    ensures forall i :: 0 <= i < |r| ==> (r[i].score == 1.0 <==> scores[Items[i].id] >= 3)
    ensures forall i :: 0 <= i < |r| ==>
      r[i].feedback == RatingLabel(scores[Items[i].id]) + " (gekozen: " + IntToString(scores[Items[i].id]) + "/3)"
    ensures RatingsInRange(scores) ==>
      forall i :: 0 <= i < |r| ==> r[i].score == scores[Items[i].id] as real / 3.0 && 0.0 < r[i].score
  {
    seq(|Items|, i requires 0 <= i < |Items| => SelfScanRecord(Items[i], scores[Items[i].id]))
  }

  /** The self-scan records sit where the assessment's would: record i has
      the id of question i, so both flows draw the same radar axes. */
  lemma SelfScanFeedbackFollowsCatalog(scores: map<int, int>)
    requires AllRated(scores)
    ensures FollowsCatalogOrder(SelfScanFeedback(scores))
  {
    CatalogShape();
    ItemsShape();
  }

  /** The self-scan summary: the total is the count of items rated 3 and the
      tier follows the threshold on it. */
  function SelfScanSummary(scores: map<int, int>): (s: ResultSummary)
    ensures s.mode == SelfScanMode
    ensures SummaryConsistent(s)
    ensures s.totalScore == |RatedThreeIds(scores, Items)| as real
    ensures 0.0 <= s.totalScore <= 7.0
    ensures s.recommendation == Advanced <==> |RatedThreeIds(scores, Items)| >= 4
  {
    ItemsShape();
    GoodCountIsRatedThreeIds(scores, Items);
    var n := GoodCount(scores, Items);
    ResultSummary(n as real, Recommend(n as real), SelfScanMode)
  }

  /** Four themes rated 3 out of seven give the advanced tier; three do not. */
  lemma SelfScanThresholdScenarios()
    ensures SelfScanSummary(map[1 := 3, 2 := 3, 3 := 3, 4 := 3, 5 := 1, 6 := 1, 7 := 1]).recommendation == Advanced
    ensures SelfScanSummary(map[1 := 3, 2 := 3, 3 := 3, 4 := 1, 5 := 1, 6 := 1, 7 := 1]).recommendation == Webinar
  {
    var four := map[1 := 3, 2 := 3, 3 := 3, 4 := 3, 5 := 1, 6 := 1, 7 := 1];
    var three := map[1 := 3, 2 := 3, 3 := 3, 4 := 1, 5 := 1, 6 := 1, 7 := 1];
    assert GoodCount(four, Items) == 4;
    assert GoodCount(three, Items) == 3;
  }

  /** The reply of the scenario below: full marks on questions 2, 3, 4 and
      6, none on 7, a total of 5. */
  const ScenarioReply: ParsedReply := ParsedReply(
    Finite(1.0), Some("ok"), Finite(1.0), Some("ok"), Finite(1.0), Some("ok"),
    Finite(1.0), Some("ok"), Finite(0.0), Some("zwak"), Finite(5.0), Some("advanced"))

  /** An assessment where question 1 is answered correctly (B) and question 5
      wrongly (A), whatever the open answers, and the service reports a total
      of 5: the call succeeds, and there are seven records, the local scores
      1 and 0 in places 1 and 5 (the second naming option C), the remote 0
      in place 7, and the advanced tier. */
  lemma AssessmentScenario(answers: map<int, string>)
    requires 1 in answers && answers[1] == "B" && 5 in answers && answers[5] == "A"
    ensures ScoreAssessment(Some("key"), Replied(Some(ScenarioReply))) == Success(Coerce(ScenarioReply))
    ensures
      var g := Coerce(ScenarioReply);
      var fb := BuildFeedback(g, McScores(answers));
      && |fb| == 7
      && fb[0].score == 1.0 && fb[0].feedback == WellAnswered
      && fb[4].score == 0.0 && fb[4].feedback == CorrectAnswerPrefix + Question5Options[2].labelText
      && fb[6].score == 0.0
      && g.totalScore == 5.0 && Recommend(g.totalScore) == Advanced
  {
    var mcScores := McScores(answers);
    McScoresCatalog(answers);
    assert mcScores[1] == 1 && mcScores[5] == 0;
    var fb := BuildFeedback(Coerce(ScenarioReply), mcScores);
    assert fb[0] == McFeedback(1, mcScores);
    McFeedbackSpec(1, mcScores);
    McFeedbackSpec(5, mcScores);
    McFeedbackNamesCorrectOption(Coerce(ScenarioReply), mcScores);
  }
}
