/** The advice block of the results screen (src/components/ResultsScreen.tsx):
    whether the user is sent on to the advanced course, and the title,
    message and call to action that follow from it. The radar chart and the
    percentage labels are display only. */
module ResultsAdvice {
  import opened Gemini
  import opened Scoring

  datatype CallToAction = CallToAction(text: string, href: string)

  datatype Advice = Advice(advanced: bool, title: string, message: string, cta: CallToAction)

  const AdvancedTitle: string := "Op naar verdieping!"
  const BasicsTitle: string := "Aan de slag met de basis"

  const AssessmentAdvancedMessage: string :=
    "Mooi werk. Je AI-analyse laat 4 of meer sterke onderdelen zien. Kijk naar de gevorderde cursus of losse verdiepingsmodules."
  const AssessmentBasicsMessage: string :=
    "Je AI-analyse laat 0-3 sterke onderdelen zien. De webinar-serie helpt je snel op alle thema’s op niveau te komen."
  const SelfScanAdvancedMessage: string :=
    "Sterke zelfinschatting: 4 of meer thema’s scoor je hoog. Bekijk de gevorderde cursus of losse modules."
  const SelfScanBasicsMessage: string :=
    "Je zelfscan laat 0-3 sterke thema’s zien. De webinar-serie geeft je een stevig fundament."

  const AdvancedCta: CallToAction := CallToAction("Bekijk gevorderde cursus", "/advanced")
  const WebinarCta: CallToAction :=
    CallToAction("Volg de webinar-serie", "https://aivoordocenten.nl/webinarserie-ai-in-het-onderwijs/")

  /** The message for a flow and a tier. */
  function MessageFor(mode: Mode, advanced: bool): string {
    match mode
    case AssessmentMode => if advanced then AssessmentAdvancedMessage else AssessmentBasicsMessage
    case SelfScanMode => if advanced then SelfScanAdvancedMessage else SelfScanBasicsMessage
  }

  /** The advice for the props the screen receives. */
  function AdviceFor(totalScore: real, recommendation: Recommendation, mode: Mode): (a: Advice)
    ensures a.advanced <==> totalScore >= 4.0 || recommendation == Advanced
    ensures a.title == AdvancedTitle <==> a.advanced
    ensures a.cta.href == "/advanced" <==> a.advanced
    ensures a.advanced ==> a.title == AdvancedTitle && a.cta == AdvancedCta
    ensures !a.advanced ==> a.title == BasicsTitle && a.cta == WebinarCta
    ensures a.message == MessageFor(mode, a.advanced)
  {
    var advanced := totalScore >= 4.0 || recommendation == Advanced;
    Advice(
      advanced,
      if advanced then AdvancedTitle else BasicsTitle,
      MessageFor(mode, advanced),
      if advanced then AdvancedCta else WebinarCta)
  }

  /** The four messages are distinct, so the message shown tells both the
      flow and the tier: the selection is one-to-one. */
  lemma MessageForInjective(m1: Mode, a1: bool, m2: Mode, a2: bool)
    requires MessageFor(m1, a1) == MessageFor(m2, a2)
    ensures m1 == m2 && a1 == a2
  {
    // the four texts have four different lengths
    assert |AssessmentAdvancedMessage| == 123 && |AssessmentBasicsMessage| == 113;
    assert |SelfScanAdvancedMessage| == 102 && |SelfScanBasicsMessage| == 89;
  }

  /** For every summary the controller produces, the screen's test agrees
      with the stored tier: the `totalScore >= 4` half adds nothing. */
  lemma AdviceMatchesControllerSummary(s: ResultSummary)
    requires SummaryConsistent(s)
    ensures AdviceFor(s.totalScore, s.recommendation, s.mode).advanced <==> s.recommendation == Advanced
  {
  }

  /** The screen alone does not trust the tag: a total of 4 or more shows the
      advanced advice even when the tag says webinar. */
  lemma HighTotalOverridesTag(totalScore: real, mode: Mode)
    requires totalScore >= 4.0
    ensures AdviceFor(totalScore, Webinar, mode).advanced
    ensures AdviceFor(totalScore, Webinar, mode).cta == AdvancedCta
  {
  }
}
