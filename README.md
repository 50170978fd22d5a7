# Student report assessment — Dafny model

The system shows one student's language-assessment report in a browser
dashboard. A small HTTP service holds the single report record: the student,
an overall score, four skill scores (pronunciation, fluency, vocabulary,
grammar) and a feedback bundle (title, description, ordered suggestions). The
service answers a read with the record. It also accepts a partial update of
the scores, re-derives the feedback from the overall score, writes the record
back to its file and returns it. The dashboard renders the record into skill
cards, a radar chart, a feedback panel with a "Band N" badge, and three
sliders. The Update button sends the slider values to the service. When the
report cannot be fetched, the dashboard shows a built-in fallback record.

The model has six modules:

- `Wrappers` (wrappers.dfy): `Option`, used for absent request fields and for
  NaN.
- `ReportTypes` (report_types.dfy): the record as datatypes.
- `Server` (server.dfy): the feedback classifier `Classify`, the update as a
  function `Merge`, and the `Store` class. The class holds the in-memory
  `record` and a ghost `persisted` copy of the backing file. `Get` reads;
  `Update` overwrites the present fields one by one, recomputes the feedback,
  persists and replies. The invariant `Consistent` (feedback equals
  `Classify(overallScore)`) holds after every update, whatever the record was
  before.
- `Decimal` (decimal.dfy): the text an integer gets when it is put in an
  element (`IntToString`) and `parseInt` on such text (`ParseInt`). The
  dashboard builds its badge by reading the score display back with
  `parseInt`. The round-trip lemma `ParseIntOfIntToString` is what makes the
  badge show the score.
- `ClientView` (client_view.dfy): the pure view model. It has the skill level
  labels, the four skill cards, the chart vector, the `RenderPlan` of a record
  (`Plan`), the update `Payload` and the `Fallback` record.
- `Renderer` (client_dashboard.dfy): the page as a `Dashboard` class. The
  elements the model keeps are fields: student name and test type, score
  display, sliders and their labels, skill cards, feedback panel, badge,
  suggestion list and chart data. The test date, the footer date and the
  notification elements are not modelled. The script's `update…` functions are
  methods, and their loops rebuild the card container and the suggestion list
  item by item. `Render` proves that the page then equals `Plan(rec)`.
  `ConfirmUpdate` joins the dashboard to the `Store`. An update sent from the
  dashboard never changes vocabulary, grammar or the student.

The client's fallback record has overall score 7 and three suggestions.
The service's Good bundle has two, so the fallback record does not satisfy
the service's invariant (`FallbackNotConsistent`). Any update applied to it
by the service repairs that (`UpdateRepairsFallback`).

## Model

| member | source | states |
|---|---|---|
| `Server.Classify` | server/server.js:44-64 | exactly one of three fixed bundles: Excellent iff score >= 8, Good iff 6 <= score <= 7, Needs Improvement iff score < 6 (no clamping, negatives included); 3 suggestions below 6, else 2 |
| `Server.ClassifyMonotone` | server/server.js:45-57 | a higher overall score never gives a lower band (Needs Improvement < Good < Excellent) |
| `Server.TitlesDistinguishBands` | server/server.js:47-59 | two scores get the same title exactly when they get the same bundle |
| `Server.Merge` | server/server.js:24-33 | a present field overwrites its slot (overall to overallScore, the others to skills), an absent one leaves it; student untouched; feedback is Classify of the resulting overall score even when overall was absent |
| `Server.MergeIdempotent` | server/server.js:26-33 | applying the same request twice gives the same record as applying it once |
| `Server.SameOverallSameFeedback` | server/server.js:26-33 | two updates carrying the same overall score yield the same feedback on any records |
| `Server.PronunciationOnlyUpdate` | server/server.js:26-33 | updating pronunciation alone changes that slot only and re-derives feedback from the unchanged overall score |
| `Server.EmptyUpdateKeepsConsistentRecord` | server/server.js:26-33 | an empty request leaves a consistent record exactly as it was |
| `Server.RaiseSevenToEight` | server/server.js:26-50 | a record at 7 updated with overall 8 gets the "Excellent Performance" title |
| `Server.Store.constructor` | server/server.js:15 | at start-up the record and the persisted copy are the loaded file contents |
| `Server.Store.Get` | server/server.js:18-20 | the read returns the current record verbatim |
| `Server.Store.Update` | server/server.js:23-41 | the new record is Merge of the old one and the request; it is consistent, equals the persisted copy, and is the reply's data with the fixed confirmation message |
| `Server.PutThenGet` | server/server.js:18-40 | a read after an update returns exactly the record the update returned and persisted |
| `Decimal.NatToString` | client/script.js:57 | the decimal text of a natural number is non-empty, all digits, and starts with 0 only for 0 |
| `Decimal.IntToString` | client/script.js:57 | the text of an integer starts with a minus sign exactly when it is negative, followed by digits only |
| `Decimal.ParseInt` | client/script.js:142 | blank text reads as NaN; a non-empty run of digits reads as its decimal value |
| `Decimal.ParseIntOfIntToString` | client/script.js:142 | parseInt of the text of any integer gives back that integer |
| `ClientView.SkillLevel` | client/script.js:130-135 | Excellent iff score >= 8, Good iff 6..7, Fair iff 4..5, Needs Practice iff below 4 |
| `ClientView.SkillLevelMonotone` | client/script.js:130-135 | a higher skill score never shows a lower level (Needs Practice < Fair < Good < Excellent) |
| `ClientView.SkillCards` | client/script.js:67-99 | exactly four cards in the order Pronunciation, Fluency, Vocabulary, Grammar, each with its own skill score and the level of that score |
| `ClientView.ChartData` | client/script.js:169-174 | the chart vector has one value per label, and value i is the score of skill card i |
| `ClientView.ChartMatchesCards` | client/script.js:166-174 | label i of the chart is the name of card i, so label, value and card line up index by index |
| `ClientView.BadgeShowsScore` | client/script.js:142-143 | the badge built from the score display reads "Band " followed by the score just placed there |
| `ClientView.BadgeText` | client/script.js:143 | the badge starts with "Band "; the rest reads back with parseInt as the shown number, or is "NaN" when there is none |
| `ClientView.Plan` | client/script.js:23-27 | the screen for a record; proved: the score display, the badge's number and the three slider labels read back with parseInt as the overall, pronunciation and fluency scores (the other fields are its definition) |
| `ClientView.Payload` | client/script.js:254-258 | the request carries no vocabulary and no grammar field |
| `ClientView.PayloadUpdate` | client/script.js:254-258 | the service turns a dashboard request into: overall, pronunciation and fluency replaced, vocabulary, grammar and student kept, feedback for the new overall score |
| `ClientView.FallbackNotConsistent` | client/script.js:311-333 | for the fallback record `ClientView.Fallback` (Alex Johnson, overall 7, skills 7/6/8/6): its title matches score 7 but it has three suggestions where the classifier gives two, so it breaks the service invariant |
| `ClientView.UpdateRepairsFallback` | server/server.js:33 | any update the service applies to the fallback record makes it consistent |
| `ClientView.FallbackPlan` | client/script.js:335-339 | the fallback screen shows "Band 7", three suggestions and an Excellent vocabulary card |
| `Renderer.Dashboard.UpdateStudentInfo` | client/script.js:45-54 | the name and test type are shown; nothing else changes |
| `Renderer.Dashboard.UpdateOverallScore` | client/script.js:56-62 | the score display and the overall slider label show the score's text and the slider sits at the score; nothing else changes |
| `Renderer.Dashboard.AppendCard` | client/script.js:94-116 | one card is added at the end of the skills container; nothing else changes |
| `Renderer.Dashboard.ShowOnSlider` | client/script.js:118-126 | the Pronunciation and Fluency entries move their own slider and label; other entries change nothing |
| `Renderer.Dashboard.UpdateSkills` | client/script.js:64-128 | the container holds exactly SkillCards of the skills; pronunciation and fluency sliders and labels show those scores; nothing else changes |
| `Renderer.Dashboard.ListSuggestions` | client/script.js:145-151 | the list is emptied and then holds exactly the given suggestions, in order; nothing else changes |
| `Renderer.Dashboard.ShowBadge` | client/script.js:142-143 | the badge is rebuilt from parseInt of the current score display; nothing else changes |
| `Renderer.Dashboard.UpdateFeedback` | client/script.js:137-152 | title and description shown; badge built from parseInt of the current score display; the list holds the suggestions in the same order and number; nothing else changes |
| `Renderer.Dashboard.UpdateChart` | client/script.js:154-174 | the chart shows the four skill scores; nothing else changes |
| `Renderer.Dashboard.Slide` | client/script.js:228-239 | dragging a slider moves only that slider and its label to the new value |
| `Renderer.Dashboard.Render` | client/script.js:23-27 | after rendering a record the page is exactly Plan of that record |
| `Renderer.Dashboard.ShowUpdated` | client/script.js:263-267 | after an update reply the page is Plan of the returned record, with the student details left as they were |
| `Renderer.Dashboard.Load` | client/script.js:16-43 | the page shows the fetched record, or the fallback record plus the demo-data error notice when fetching failed |
| `Renderer.Dashboard.ConfirmUpdate` | client/script.js:242-276 | the slider values go to the store's Update; vocabulary, grammar and student never change; unless the request never arrived, the persisted copy equals the new record, otherwise it is unchanged; on a reply the page shows the new record with a success notice, otherwise the page is unchanged and an error notice appears |

## Left out

- Server.Classify: scores are integers. The handler stores whatever JSON value arrives. A non-integer such as 7.5 fails `score <= 7` and gets Needs Improvement, and strings or null are stored as they are. Neither case is modelled.
- Server.Store.Update: the request is an already parsed record of optional integers. Body parsing and the rejection of unparseable bodies belong to the web framework.
- Server.Store.Update: persistence is the ghost assignment `persisted := record`. The file write, its JSON formatting and a failing write (which leaves memory ahead of the file) are not modelled.
- Framework setup, CORS, static file serving and the listening port are plumbing with no behaviour of their own.
- Concurrent updates are not modelled: each call runs to completion, and the source has no guard against interleaving.
- Decimal.ParseInt: only decimal text with ASCII white space is read. The `0x` prefix that `parseInt` treats as hexadecimal and the wider set of JavaScript white space are not modelled. The text it reads always comes from `IntToString`.
- Renderer.Dashboard.UpdateStudentInfo: the test date is not shown in the model, because locale date formatting is left out. So is the footer's current date.
- The progress-bar width `score / 9 * 100` of each card is floating-point arithmetic and is not modelled. The "n / 9" score text is also left out; the card carries the score itself.
- Chart styling and the chart library are left out; only the labels and data vector are modelled. DOM templates, icons' rendering, and notice animations and timers are left out too; a notice is its message and kind.
- `fetch`, `async`/`await` and error-to-fallback control flow become parameters. `Load` takes the fetched record or `None`. `ConfirmUpdate` takes how far the request got (`Delivery`). A failure in the middle of rendering is not separated out, because the fallback rendering that follows rewrites every modelled widget.
- Renderer.Dashboard.Slide: slider values are integers. The range input's own bounds and the `parseInt` of its value string are not modelled.
- Renderer.Dashboard.UpdateOverallScore: the slider is said to sit at the score. A range input clamps an assigned value into its bounds, which come from markup outside this model and are [0, 100] when unset. So a record at -3 puts the overall slider at the bound, not at -3.
- Renderer.Dashboard.ShowOnSlider: the pronunciation and fluency sliders are said to sit at the skill scores; the same clamping to the input's bounds is not modelled.
- Renderer.Dashboard.UpdateSkills: inherits the unmodelled clamping of the pronunciation and fluency sliders.
- Renderer.Dashboard.ConfirmUpdate: sends the model's slider values. In the program a score outside the slider's bounds was clamped when rendered, so pressing Update without touching the sliders sends the clamped value (0 for a record at -3), not the stored score.
- Decimal.NatToString: always gives plain digits. JavaScript writes a number of magnitude 10^21 or more in exponent form ("1e+21"). The model does not cover that form.
- Decimal.IntToString: the same 10^21 limit, for negatives as well.
- Decimal.ParseIntOfIntToString: holds in the model for every integer. In the program it holds only below 10^21 in magnitude, because parseInt of "1e+21" is 1.
- ClientView.BadgeShowsScore: for an overall score of magnitude 10^21 or more the program's badge reads "Band 1" (or another leading digit), not the displayed score. The model does not show this.
- ClientView.Plan: its read-back clauses for the score display, badge and slider labels hold in the program only for magnitudes below 10^21.
- Renderer.Dashboard.Render: proved equal to Plan with the model's decimal text, so the exponent-form text of magnitudes of 10^21 or more is not covered.
- Installing the slider listeners and the button handler is left out. Their effects are `Slide` and `ConfirmUpdate`.
