/** The remote scoring client (src/api/gemini.ts), reduced to what the flow
    controller can observe: the API-key check made before any call, how a
    failed call or an unreadable reply surfaces, and how the fields of a
    parsed reply are coerced into a `GeminiResult`. The prompt text, the
    generative-model client and the JSON extraction are outside the model:
    the reply arrives as an already parsed, abstract record (or as the
    failure the client raised). */
module Gemini {
  import opened Wrappers

  datatype Recommendation = Webinar | Advanced

  /** What the controller sends: all answers, the local multiple-choice
      scores and the display labels of the chosen options. */
  datatype ScorePayload = ScorePayload(
    answers: map<int, string>,
    mcScores: map<int, int>,
    mcAnswerLabels: map<int, string>)

  /** Scores and feedback for the five open questions, the reported total and
      the recommendation tag. Scores are JavaScript numbers, hence `real`. */
  datatype GeminiResult = GeminiResult(
    q2Score: real, q2Feedback: string,
    q3Score: real, q3Feedback: string,
    q4Score: real, q4Feedback: string,
    q6Score: real, q6Feedback: string,
    q7Score: real, q7Feedback: string,
    totalScore: real,
    recommendation: Recommendation)

  /** The value of `Number(x)` for one reply field: a finite number, or NaN
      (what a missing or non-numeric field gives). */
  datatype JsNumber = Finite(value: real) | NaN

  /** A reply after JSON extraction: each score field as `Number` sees it,
      each feedback field present or not, and the raw recommendation string. */
  datatype ParsedReply = ParsedReply(
    q2Score: JsNumber, q2Feedback: Option<string>,
    q3Score: JsNumber, q3Feedback: Option<string>,
    q4Score: JsNumber, q4Feedback: Option<string>,
    q6Score: JsNumber, q6Feedback: Option<string>,
    q7Score: JsNumber, q7Feedback: Option<string>,
    totalScore: JsNumber,
    recommendation: Option<string>)

  /** A thrown value: an `Error` with its message, or anything else. */
  datatype Thrown = ErrorObject(message: string) | NonErrorValue

  /** How the model call ended: it threw (transport or service failure), or
      it answered with text that did (`Some`) or did not (`None`) yield a
      parsed object. */
  datatype ModelReply = CallFailed(thrown: Thrown) | Replied(parsed: Option<ParsedReply>)

  const MissingKeyMessage: string :=
    "Gemini API key ontbreekt. Plaats VITE_GEMINI_API_KEY in .env.local en herstart de dev server."
  const UnreadableReplyMessage: string :=
    "Kon het antwoord van Gemini niet lezen. Probeer het opnieuw."

  /** `Number(x) || 0`: NaN and zero are falsy and become 0; every other
      number passes through unchanged, with no clamping to {0, 1}. */
  function NumberOrZero(n: JsNumber): (r: real)
    ensures r == 0.0 <==> (n.NaN? || n.value == 0.0)
    ensures n.Finite? ==> r == n.value
  {
    match n
    case NaN => 0.0
    case Finite(v) => if v == 0.0 then 0.0 else v
  }

  /** `parsed.recommendation === 'advanced' ? 'advanced' : 'webinar'`. */
  function CoerceTag(tag: Option<string>): (r: Recommendation)
    ensures r == Advanced <==> tag == Some("advanced")
  {
    if tag == Some("advanced") then Advanced else Webinar
  }

  /** The object literal built from a parsed reply: every score through
      `Number(x) || 0`, every feedback through `?? ''`, the tag collapsed to
      the two known values. The total is taken as reported, not recomputed
      from the item scores. */
  function Coerce(p: ParsedReply): (g: GeminiResult)
    ensures g.q2Score == NumberOrZero(p.q2Score) && g.q2Feedback == p.q2Feedback.GetOr("")
    ensures g.q3Score == NumberOrZero(p.q3Score) && g.q3Feedback == p.q3Feedback.GetOr("")
    ensures g.q4Score == NumberOrZero(p.q4Score) && g.q4Feedback == p.q4Feedback.GetOr("")
    ensures g.q6Score == NumberOrZero(p.q6Score) && g.q6Feedback == p.q6Feedback.GetOr("")
    ensures g.q7Score == NumberOrZero(p.q7Score) && g.q7Feedback == p.q7Feedback.GetOr("")
    ensures g.totalScore == NumberOrZero(p.totalScore)
    ensures g.recommendation == Advanced <==> p.recommendation == Some("advanced")
  {
    GeminiResult(
      NumberOrZero(p.q2Score), p.q2Feedback.GetOr(""),
      NumberOrZero(p.q3Score), p.q3Feedback.GetOr(""),
      NumberOrZero(p.q4Score), p.q4Feedback.GetOr(""),
      NumberOrZero(p.q6Score), p.q6Feedback.GetOr(""),
      NumberOrZero(p.q7Score), p.q7Feedback.GetOr(""),
      NumberOrZero(p.totalScore),
      CoerceTag(p.recommendation))
  }

  /** `if (!apiKey)`: an absent key and the empty string both count as missing. */
  predicate HasApiKey(apiKey: Option<string>) {
    apiKey.Some? && apiKey.value != ""
  }

  /** `scoreAssessment`, given the configured key and the oracle outcome of
      the model call. A missing key fails with the configuration message
      whatever the model would have replied; a failed call passes its error
      on unchanged; a reply that cannot be parsed fails with one fixed
      message; otherwise the parsed reply is coerced. */
  function ScoreAssessment(apiKey: Option<string>, reply: ModelReply): (r: Result<GeminiResult, Thrown>)
    ensures !HasApiKey(apiKey) ==> r == Failure(ErrorObject(MissingKeyMessage))
    ensures HasApiKey(apiKey) && reply.CallFailed? ==> r == Failure(reply.thrown)
    ensures HasApiKey(apiKey) && reply == Replied(None) ==> r == Failure(ErrorObject(UnreadableReplyMessage))
    ensures r.Success? <==> HasApiKey(apiKey) && reply.Replied? && reply.parsed.Some?
    ensures r.Success? ==> r.value == Coerce(reply.parsed.value)
  {
    if !HasApiKey(apiKey) then Failure(ErrorObject(MissingKeyMessage))
    else match reply
      case CallFailed(t) => Failure(t)
      case Replied(None) => Failure(ErrorObject(UnreadableReplyMessage))
      case Replied(Some(p)) => Success(Coerce(p))
  }

  /** A `GeminiResult` written back as the reply that states it field by field. */
  function Embed(g: GeminiResult): ParsedReply {
    ParsedReply(
      Finite(g.q2Score), Some(g.q2Feedback),
      Finite(g.q3Score), Some(g.q3Feedback),
      Finite(g.q4Score), Some(g.q4Feedback),
      Finite(g.q6Score), Some(g.q6Feedback),
      Finite(g.q7Score), Some(g.q7Feedback),
      Finite(g.totalScore),
      Some(if g.recommendation == Advanced then "advanced" else "webinar"))
  }

  /** Coercion is lossless on a well-formed reply: a reply that states a
      result exactly is read back as that result. */
  lemma CoerceEmbedRoundTrip(g: GeminiResult)
    ensures Coerce(Embed(g)) == g
  {
  }

  /** Coercion is idempotent: coercing the embedding of a coerced reply
      changes nothing. */
  lemma CoerceIdempotent(p: ParsedReply)
    ensures Coerce(Embed(Coerce(p))) == Coerce(p)
  {
    CoerceEmbedRoundTrip(Coerce(p));
  }

  /** The key check comes before the call: without a key the outcome does not
      depend on anything the model would have done. */
  lemma MissingKeyPrecedesCall(apiKey: Option<string>, reply1: ModelReply, reply2: ModelReply)
    requires !HasApiKey(apiKey)
    ensures ScoreAssessment(apiKey, reply1) == ScoreAssessment(apiKey, reply2)
  {
  }

  /** The reported total is kept as is: it is not tied to the item scores,
      so changing only the total changes nothing else in the result. */
  lemma TotalIndependentOfItems(p: ParsedReply, t: JsNumber)
    ensures Coerce(p.(totalScore := t)) == Coerce(p).(totalScore := NumberOrZero(t))
  {
  }
}
