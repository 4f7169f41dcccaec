/** The assessment's question catalog (src/data/questions.ts): seven
    questions, two multiple-choice ("mc") with a correct option and five open
    ones. Only the fields the flow controller reads are kept: id, theme, type,
    options and correct answer. */
module QuestionCatalog {
  import opened Wrappers

  datatype QuestionType = Mc | Open

  datatype AnswerOption = AnswerOption(id: string, labelText: string)

  datatype Question = Question(
    id: nat,
    theme: string,
    kind: QuestionType,
    options: Option<seq<AnswerOption>>,
    correctAnswer: Option<string>)

  /** The four options of question 1; B is correct. */
  const Question1Options: seq<AnswerOption> := [
    AnswerOption("A", "A. Het redeneert als een mens en begrijpt context zoals wij dat doen"),
    AnswerOption("B", "B. Het voorspelt tokens op basis van patronen, zonder echte begrip of bron-check"),
    AnswerOption("C", "C. Het heeft altijd realtime internettoegang en checkt feiten automatisch"),
    AnswerOption("D", "D. Het genereert alleen wat letterlijk in de trainingsdata stond")
  ]

  /** The four options of question 5; C is correct. */
  const Question5Options: seq<AnswerOption> := [
    AnswerOption("A", "A. Prima, ChatGPT is veilig en geeft goede adviezen"),
    AnswerOption("B", "B. Kan wel, maar alleen met toestemming van leerlingen"),
    AnswerOption("C", "C. Niet doen - gebruik geanonimiseerde voorbeelden of een lokale, privacyvriendelijke oplossing"),
    AnswerOption("D", "D. Het mag, zolang je de school-licentie gebruikt")
  ]

  const Catalog: seq<Question> := [
    Question(1, "Hoe werkt generatieve AI?", Mc, Some(Question1Options), Some("B")),
    Question(2, "Prompting", Open, None, None),
    Question(3, "Custom chatbots", Open, None, None),
    Question(4, "Vibecoden", Open, None, None),
    Question(5, "Privacy, bias & hallucineren", Mc, Some(Question5Options), Some("C")),
    Question(6, "AI-ready toetsing", Open, None, None),
    Question(7, "Tools, beperkingen & toekomst", Open, None, None)
  ]

  /** A question the local scorer handles: `q.type === 'mc' && q.correctAnswer`
      (a correct answer that is present and not the empty string). */
  predicate ScoredClosed(q: Question) {
    q.kind == Mc && q.correctAnswer.Some? && q.correctAnswer.value != ""
  }

  predicate DistinctIds(qs: seq<Question>) {
    forall i, j :: 0 <= i < j < |qs| ==> qs[i].id != qs[j].id
  }

  function IdSet(qs: seq<Question>): set<int> {
    set i | 0 <= i < |qs| :: qs[i].id
  }

  /** `options.find((o) => o.id === id)`: the first option carrying `id`. */
  function FindOption(opts: seq<AnswerOption>, id: string): (r: Option<AnswerOption>)
    ensures r.None? <==> forall k :: 0 <= k < |opts| ==> opts[k].id != id
    ensures r.Some? ==> exists k :: 0 <= k < |opts| && opts[k] == r.value && r.value.id == id
                                    && forall m :: 0 <= m < k ==> opts[m].id != id
  {
    if opts == [] then None
    else if opts[0].id == id then Some(opts[0])
    else
      var r := FindOption(opts[1..], id);
      assert r.Some? ==> exists k :: 0 <= k < |opts[1..]| && opts[1..][k] == r.value && r.value.id == id
                                     && forall m :: 0 <= m < k ==> opts[1..][m].id != id;
      r
  }

  /** `qs.find((q) => q.id === id)`: the first question carrying `id`. */
  function FindQuestionIn(qs: seq<Question>, id: int): (r: Option<Question>)
    ensures r.None? <==> forall k :: 0 <= k < |qs| ==> qs[k].id != id
    ensures r.Some? ==> exists k :: 0 <= k < |qs| && qs[k] == r.value && r.value.id == id
                                    && forall m :: 0 <= m < k ==> qs[m].id != id
  {
    if qs == [] then None
    else if qs[0].id == id then Some(qs[0])
    else
      var r := FindQuestionIn(qs[1..], id);
      assert r.Some? ==> exists k :: 0 <= k < |qs[1..]| && qs[1..][k] == r.value && r.value.id == id
                                     && forall m :: 0 <= m < k ==> qs[1..][m].id != id;
      r
  }

  /** `questions.find((q) => q.id === id)`. */
  function FindQuestion(id: int): Option<Question> {
    FindQuestionIn(Catalog, id)
  }

  /** Seven questions, with ids 1..7 in array order (hence distinct). */
  lemma CatalogShape()
    ensures |Catalog| == 7
    ensures forall i :: 0 <= i < |Catalog| ==> Catalog[i].id == i + 1
    ensures DistinctIds(Catalog)
    ensures IdSet(Catalog) == {1, 2, 3, 4, 5, 6, 7}
  {
    assert forall i :: 0 <= i < |Catalog| ==> Catalog[i].id == i + 1;
    assert IdSet(Catalog) == {1, 2, 3, 4, 5, 6, 7} by {
      forall id | id in {1, 2, 3, 4, 5, 6, 7} ensures id in IdSet(Catalog) {
        assert Catalog[id - 1].id == id;
      }
    }
  }

  /** Exactly questions 1 and 5 are multiple choice, and exactly they are
      scored locally; all others are open and carry neither options nor a
      correct answer. */
  lemma ClosedExactlyAtOneAndFive()
    ensures forall i :: 0 <= i < |Catalog| ==>
      (Catalog[i].kind == Mc <==> Catalog[i].id == 1 || Catalog[i].id == 5)
    ensures forall i :: 0 <= i < |Catalog| ==> (ScoredClosed(Catalog[i]) <==> Catalog[i].kind == Mc)
    ensures forall i :: 0 <= i < |Catalog| && Catalog[i].kind == Open ==>
      Catalog[i].options.None? && Catalog[i].correctAnswer.None?
  {
  }

  /** Option ids A to D, in order (hence distinct). */
  predicate OptionIdsAToD(opts: seq<AnswerOption>) {
    |opts| == 4 && opts[0].id == "A" && opts[1].id == "B" && opts[2].id == "C" && opts[3].id == "D"
  }

  /** Each multiple-choice question has the four distinct option ids A to D,
      and its correct answer is one of its own options: option B (index 1)
      for question 1 and option C (index 2) for question 5. */
  lemma ClosedOptionsWellFormed()
    ensures Catalog[0].options == Some(Question1Options) && OptionIdsAToD(Question1Options)
    ensures Catalog[4].options == Some(Question5Options) && OptionIdsAToD(Question5Options)
    ensures Catalog[0].correctAnswer == Some("B")
    ensures FindOption(Question1Options, "B") == Some(Question1Options[1])
    ensures Catalog[4].correctAnswer == Some("C")
    ensures FindOption(Question5Options, "C") == Some(Question5Options[2])
  {
  }

  /** Looking a question up by id finds the catalog entry at index id - 1. */
  lemma FindQuestionAt(i: int)
    requires 0 <= i < |Catalog|
    ensures FindQuestion(i + 1) == Some(Catalog[i])
  {
    CatalogShape();
    var r := FindQuestion(i + 1);
    var k :| 0 <= k < |Catalog| && Catalog[k] == r.value;
  }
}
