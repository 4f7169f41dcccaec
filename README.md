# AI literacy check: the questionnaire controller in Dafny

The application is a single-page questionnaire for teachers about AI literacy.
It has two flows over the same seven themes:

- **Assessment.** Two multiple-choice questions (1 and 5) are scored locally.
  Five open questions (2, 3, 4, 6, 7) are scored by a remote language model.
  The local and remote scores are merged into seven feedback records.
- **Self-scan.** The user rates seven statements from 1 to 3. The number of
  themes rated 3 is the total.

Both flows end in a results screen. A total of 4 or more sends the user to the
advanced course; otherwise to a webinar series.

The model has one module per source file, plus two small support modules:

| module | file | models |
|---|---|---|
| `Wrappers` | wrappers.dfy | `Option` and `Result` |
| `Text` | text.dfy | JavaScript `trim` (the "answered" test) and the decimal rendering of numbers in template literals |
| `QuestionCatalog` | questions.dfy | the `questions` constant of `src/data/questions.ts` (ids, type, option ids and labels, correct answer, theme) and its `find` lookups |
| `SelfScanCatalog` | selfscan.dfy | the `selfScanItems` constant of `src/data/selfScan.ts` (ids and themes) |
| `Gemini` | gemini.dfy | `scoreAssessment` in `src/api/gemini.ts`: the API-key check, the three ways a call can fail, and the coercion of a parsed reply into a `GeminiResult` |
| `Scoring` | scoring.dfy | the pure helpers of `src/App.tsx`: local scoring and labelling, `buildFeedback`, the self-scan `reduce`/`map`, the threshold |
| `ResultsAdvice` | results.dfy | the advice derivation of `src/components/ResultsScreen.tsx` |
| `AppFlow` | app.dfy | the `App` component as a class `Controller` whose fields are its seven state variables and whose methods are its handlers |

`Controller.Valid()` is the invariant every handler keeps:

- the index stays inside both catalogs;
- a summary carries the tier its total gives;
- feedback is empty or follows the catalog order;
- the results stage always has a summary;
- the loading stage always has a submission waiting.

Each handler states its whole new state as an update of `State()`, the record
of the seven state variables.

The one `await` in `submitAssessment` splits it in two:

- `BeginSubmit` validates, enters loading and returns the request.
- `CompleteSubmit(outcome)` resumes with the remote outcome.

The field `suspended` holds the local scores the suspended call captured.

The two loops that fill a dictionary inside `forEach` (`ComputeMcScores`,
`ComputeMcLabels`) are `for` loops. Each is proved against a prefix-fold
function (`McScoresOver`, `McLabelsOver`). Lemmas about those functions give
the properties the source promises.

The remote model call is an oracle: `ScoreAssessment` receives the configured
key and a `ModelReply` (the call threw, or its text did or did not yield a
parsed object). `Number(x)` of one reply field is given as a `JsNumber`, a
finite value or NaN.

Scores and totals are JavaScript numbers, modelled as `real`. Ratings are
integers.

Two points where the code is looser than its display suggests:

- Record scores are not normalised. The code copies remote scores as
  `Number(x) || 0` with no clamping, so a reply can put any number into a
  record. `NumberOrZero` states this.
- Only the 1..3 rating buttons restrict ratings. `handleSelfScanAnswer`
  stores any number, so `SelfScanAnswer` accepts any integer, and
  `SelfScanFeedback` states the clamp for every rating. The exact
  `rating / 3` is stated for ratings in 1..3 (`RatingsInRange`).

Two end-to-end scenarios in `AppFlow` chain the handlers on one controller.
They have no contract of their own; their proof is the assertions in their
bodies:

- `AppFlow.RemoteFailureWalkthrough`: a complete assessment whose remote
  call fails returns to the assessment with every answer kept and the
  error's message shown (src/App.tsx:107-135).
- `AppFlow.RemoteSuccessWalkthrough`: a complete assessment whose remote
  call succeeds reaches the results with seven records, the local scores 1
  and 0 for questions 1 and 5, the reported total 5 with the advanced tier;
  a restart then restores the initial state exactly (src/App.tsx:107-135,
  199-207).

Some lemmas are corollaries, kept because they state a property of the
source on its own:

- `Gemini.CoerceIdempotent` follows from `Gemini.CoerceEmbedRoundTrip`.
- `ResultsAdvice.HighTotalOverridesTag` follows from the contract of
  `ResultsAdvice.AdviceFor`.

## Model

| member | source | states |
|---|---|---|
| Text.TrimStartSpec | src/App.tsx:108 | trimming the front keeps a suffix that does not start with whitespace; every dropped character is whitespace |
| Text.TrimEndSpec | src/App.tsx:108 | trimming the back keeps a prefix that does not end with whitespace; every dropped character is whitespace |
| Text.NonBlankIff | src/App.tsx:166 | `Boolean(x.trim())` holds iff `x` has a character `trim` does not remove; the empty string is blank |
| Text.NatToString | src/App.tsx:90 | `${n}` is a non-empty string of decimal digits with no leading zero |
| Text.NatToStringRoundTrip | src/App.tsx:153 | the digits of `${n}` read back as `n` |
| Text.IntToString | src/App.tsx:155 | `${i}` puts a minus sign before the digits of a negative number |
| Text.IntToStringRoundTrip | src/App.tsx:155 | `${i}` starts with a minus iff `i < 0`, and the rest reads back as the magnitude of `i` |
| QuestionCatalog.FindOption | src/App.tsx:76 | `options.find`: none iff no option has the id; otherwise the first option with that id |
| QuestionCatalog.FindQuestionIn | src/App.tsx:85 | `questions.find`: none iff no question has the id; otherwise the first question with that id |
| QuestionCatalog.CatalogShape | src/data/questions.ts:21-96 | seven questions with ids 1..7 in array order, hence distinct |
| QuestionCatalog.ClosedExactlyAtOneAndFive | src/data/questions.ts:21-96 | exactly questions 1 and 5 are multiple choice, and exactly they are scored locally; open questions have neither options nor a correct answer |
| QuestionCatalog.ClosedOptionsWellFormed | src/data/questions.ts:28-76 | each multiple-choice question has option ids A to D in order; its correct answer is one of its own options (B at index 1 for question 1, C at index 2 for question 5) |
| QuestionCatalog.FindQuestionAt | src/App.tsx:85 | looking up id i + 1 finds the catalog entry at index i |
| SelfScanCatalog.ItemsShape | src/data/selfScan.ts:8-44 | seven items with ids 1..7 in order, hence distinct, and as many items as questions |
| Gemini.NumberOrZero | src/api/gemini.ts:90-100 | `Number(x)`, falling back to 0 when falsy, is 0 exactly for NaN and zero; every other finite value passes through unclamped |
| Gemini.CoerceTag | src/api/gemini.ts:101 | the tag is advanced iff the reply says exactly "advanced" |
| Gemini.Coerce | src/api/gemini.ts:89-102 | each score is `Number(x)` with 0 for a falsy value; each feedback defaults to the empty string; the total is taken as reported; the tag collapses to two values |
| Gemini.ScoreAssessment | src/api/gemini.ts:74-106 | a missing or empty key fails with the configuration message; a failed call passes its error on; an unparsable reply fails with the fixed message; it succeeds iff key and parsed reply are present, with the coerced reply |
| Gemini.CoerceEmbedRoundTrip | src/api/gemini.ts:89-102 | a reply that states a result field by field is read back as exactly that result |
| Gemini.CoerceIdempotent | src/api/gemini.ts:89-102 | coercing the embedding of a coerced reply changes nothing (a corollary of the round trip) |
| Gemini.MissingKeyPrecedesCall | src/api/gemini.ts:75-78 | without a key the outcome does not depend on the model's reply: the check comes before the call |
| Gemini.TotalIndependentOfItems | src/api/gemini.ts:100 | the total is not tied to the item scores: changing only the reported total changes only the result's total |
| Scoring.Recommend | src/App.tsx:123 | the tier is advanced iff the total is at least 4 |
| Scoring.RecommendMonotone | src/App.tsx:146 | the threshold is monotone; 4 is advanced and 3 is not |
| Scoring.McScore | src/App.tsx:64-66 | a question scores 1 iff an answer is stored and equals the correct answer; otherwise 0; a missing answer gives 0 |
| Scoring.McScoresOverSpec | src/App.tsx:61-70 | for distinct ids, the scores map has a key exactly for each locally scored question, with its 0/1 score, and no other key |
| Scoring.McScoresCatalog | src/App.tsx:61-70 | over the catalog, the keys are exactly 1 and 5; question 1 scores 1 iff answered B, question 5 iff answered C |
| Scoring.McLabelsOverSpec | src/App.tsx:72-81 | for distinct ids, the labels map has a key exactly for each multiple-choice question with a non-empty answer; the value is the chosen option's label, else the raw answer |
| Scoring.McLabelsCatalog | src/App.tsx:72-81 | over the catalog, labels exist only for 1 and 5, each iff a non-empty answer is stored; choosing B on question 1 shows option B's full label |
| Scoring.BuildFeedback | src/App.tsx:96-104 | always seven records, ids 1..7 in order |
| Scoring.MismatchNotAffirmation | src/App.tsx:92 | the "Juiste antwoord: ..." text never equals "Goed beantwoord" |
| Scoring.McFeedbackSpec | src/App.tsx:84-94 | a local record carries `mcScores[id] ?? 0`; it says "Goed beantwoord" iff that score is 1, otherwise "Juiste antwoord: " and the correct option's label |
| Scoring.BuildFeedbackFollowsCatalog | src/App.tsx:96-104 | the merge follows the catalog: record i has question i's id |
| Scoring.BuildFeedbackMcRecords | src/App.tsx:83-105 | at each multiple-choice position of the catalog the record has the local score (0 when absent) and the affirmation iff that score is 1 |
| Scoring.BuildFeedbackOpenRecords | src/App.tsx:96-104 | at each open position of the catalog the record copies the remote score and feedback of that question unchanged |
| Scoring.CorrectLabelsOfCatalog | src/App.tsx:86 | the fallback label is option B's label for question 1 and option C's for question 5 |
| Scoring.McFeedbackNamesCorrectOption | src/App.tsx:86-92 | a wrong or missing answer on question 1 or 5 names the correct option's full label |
| Scoring.GoodCount | src/App.tsx:145 | the count of items rated 3 never exceeds the number of items |
| Scoring.RatedThreeIdsSplit | src/App.tsx:145 | the ids rated 3 split into the head's and the tail's |
| Scoring.GoodCountIsRatedThreeIds | src/App.tsx:145 | with distinct ids, the `reduce` count is the number of distinct items rated 3 |
| Scoring.Clamp01 | src/App.tsx:149 | `Math.max(0, Math.min(1, x))` lies in [0, 1] and leaves a value in [0, 1] unchanged |
| Scoring.RatingLabel | src/App.tsx:150 | Sterk iff the rating is 3, Redelijk iff 2, Beginner for every other value |
| Scoring.SelfScanFeedback | src/App.tsx:147-157 | one record per item in item order; each score is rating/3 clamped, in [0, 1], and 1 iff the rating is at least 3; the feedback is the label with the chosen rating; with ratings 1..3 each score is exactly rating/3 and positive |
| Scoring.SelfScanFeedbackFollowsCatalog | src/App.tsx:147-157 | self-scan record i has question i's id, so both flows use the same seven axes |
| Scoring.SelfScanSummary | src/App.tsx:145-159 | the total is the number of items rated 3, between 0 and 7; the tier is advanced iff that count is at least 4 |
| Scoring.SelfScanThresholdScenarios | src/App.tsx:145-146 | four items rated 3 give the advanced tier; three give the webinar tier |
| Scoring.AssessmentScenario | src/App.tsx:120-129 | with question 1 answered B, question 5 answered A and a reported total of 5: the call succeeds; records 1 and 5 score 1 and 0 (record 5 naming option C); record 7 keeps the remote 0; the tier is advanced |
| ResultsAdvice.AdviceFor | src/components/ResultsScreen.tsx:73-85 | advanced iff total at least 4 or tag advanced; when advanced, the title "Op naar verdieping!" and the advanced-course call to action; otherwise the title "Aan de slag met de basis" and the webinar-series call to action; the message chosen by flow and tier |
| ResultsAdvice.MessageForInjective | src/components/ResultsScreen.tsx:75-82 | the four messages are distinct, so the message determines both flow and tier |
| ResultsAdvice.AdviceMatchesControllerSummary | src/components/ResultsScreen.tsx:73 | for every summary the controller builds, the screen's advanced flag equals "the stored tier is advanced" |
| ResultsAdvice.HighTotalOverridesTag | src/components/ResultsScreen.tsx:73 | a total of at least 4 shows the advanced advice and link even when the tag says webinar (a corollary of `AdviceFor`) |
| AppFlow.FailureMessage | src/App.tsx:131 | a thrown `Error` gives its own message; any other thrown value gives the fixed fallback |
| AppFlow.AllAnsweredById | src/App.tsx:108 | every catalog question is answered iff every id from 1 to 7 is |
| AppFlow.Controller.constructor | src/App.tsx:27-33 | the state starts as the `useState` initial values, with nothing suspended |
| AppFlow.Controller.StartAssessment | src/App.tsx:35-42 | assessment stage, index 0, no answers, feedback, summary or error; the self-scan ratings are kept |
| AppFlow.Controller.StartSelfScan | src/App.tsx:44-51 | self-scan stage, index 0, no ratings, feedback, summary or error; the answers are kept |
| AppFlow.Controller.Answer | src/App.tsx:53-55 | sets one answer; every other answer and every other field, the index included, is unchanged |
| AppFlow.Controller.SelfScanAnswer | src/App.tsx:57-59 | sets one rating; nothing else changes |
| AppFlow.Controller.ComputeMcScores | src/App.tsx:61-70 | the loop's map equals the catalog fold: keys exactly 1 and 5, each 1 iff the stored answer is the correct option, else 0 |
| AppFlow.Controller.ComputeMcLabels | src/App.tsx:72-81 | the loop's map equals the catalog fold: keys within 1 and 5, present iff a non-empty answer is stored |
| AppFlow.Controller.BeginSubmit | src/App.tsx:107-118 | with a question unanswered: error set, stage assessment, no request; otherwise loading, error cleared, and the request carries all answers with the local scores and labels |
| AppFlow.Controller.CompleteSubmit | src/App.tsx:120-134 | on success: results stage, the merged feedback, the reported total and its tier; on failure: the failure's message, back to the assessment, answers unchanged |
| AppFlow.Controller.ShowAssessmentResults | src/App.tsx:122-129 | the success setters: merged feedback, a summary with the reported total and the tier the threshold gives, results stage; nothing else changes |
| AppFlow.Controller.SubmitSelfScan | src/App.tsx:137-161 | with an item unrated: error set, stage self-scan; otherwise straight to results, never loading, with the item records and the count-of-3 summary |
| AppFlow.Controller.ProceedAssessment | src/App.tsx:163-176 | outside the assessment nothing changes; a blank current answer sets the error only; an answered non-last question clears the error and advances by exactly one; an answered last question submits |
| AppFlow.Controller.ProceedSelfScan | src/App.tsx:178-191 | the same four outcomes, with "has a rating" as the test and the self-scan submission at the end |
| AppFlow.Controller.Back | src/App.tsx:193-197 | nothing at index 0; otherwise one step back and the error cleared; answers and ratings untouched |
| AppFlow.Controller.Restart | src/App.tsx:199-207 | every state field back to its initial value |
| AppFlow.AnswerAll | src/App.tsx:53-55 | starting an assessment and answering each question stores every answer given, and the whole catalog counts as answered |
| AppFlow.ProceedToSubmission | src/App.tsx:163-176 | on a fully answered assessment, repeated proceeding reaches loading with the answers unchanged and the local scores suspended |

## Left out

- All rendering: the JSX, the motion animations, and the `Button`,
  `WelcomeScreen`, `LoadingScreen`, `Question`, `QuestionFlow`,
  `SelfScanFlow` and `ProgressBar` components. They only present state.
- The questions' title, prompt, helper text and placeholder, the options'
  descriptions, and the statements and hints of the self-scan. They are
  display text the controller never reads.
- The radar chart geometry and the `Math.round(score * 100)` percentage
  labels of the results screen. They are floating-point display values.
- `WelcomeScreen` declares only `onStart`, while `App` passes
  `onStartAssessment` and `onStartSelfScan`. This wiring mismatch is in the
  components, not in the controller's logic.
- `buildPrompt`, `extractJson` (regular expressions and `JSON.parse`), the
  generative-model client and `import.meta.env`. These are library and
  network calls. The key is a parameter, and the call's outcome is a
  `ModelReply` passed in.
- The `console.error` logging in the parse-error path. It has no effect on
  state.
- `Number(x)` string parsing, and the value Infinity it can give. A reply
  field is given as a `JsNumber`, finite or NaN.
- A feedback field that is present but not a string. A parsed feedback is
  `Option<string>`.
- JavaScript floating point. Scores, totals and `rating / 3` are exact
  reals. `${x}` is modelled only for integers, via `NatToString` and
  `IntToString`.
- React's batching and asynchronous scheduling. Each handler runs
  atomically, and the one `await` is split into `BeginSubmit` and
  `CompleteSubmit`. `CompleteSubmit` requires only a suspended submission,
  not the loading stage: a completion that arrives after a restart
  overwrites the state, as the resumed closure does. Any interleaving of
  other handlers between the two halves is allowed but left unexplored.
- `GeminiResult.recommendation`. The model computes it, but `App` ignores it
  and recomputes the tier from the total. `ResultsAdvice` receives only the
  summary's tier.
- Ratings are modelled as integers. A fractional rating, which no button
  produces, is outside the model.
- Scoring.SelfScanFeedback: the exact `rating / 3` and positive score are
  stated only under `RatingsInRange`. The source does not restrict ratings;
  only the 1..3 buttons do.
