/** What the dashboard shows for a report record, with the page itself taken
    away: skill levels, the four skill cards, the radar-chart values, the
    badge, the suggestion list, the update request it sends and the record it
    falls back on when the service cannot be reached. */
module ClientView {
  import opened Wrappers
  import opened ReportTypes
  import opened Decimal
  import Server

  // ---------------------------------------------------------------------
  // Skill levels
  // ---------------------------------------------------------------------

  datatype Level = NeedsPractice | Fair | Good | Excellent
  {
    /** The text shown on a skill card; each level has its own. */
    function Label(): string
    {
      match this
      case NeedsPractice => "Needs Practice"
      case Fair => "Fair"
      case Good => "Good"
      case Excellent => "Excellent"
    }

    /** Position in the order Needs Practice < Fair < Good < Excellent. */
    function Rank(): nat
    {
      match this
      case NeedsPractice => 0
      case Fair => 1
      case Good => 2
      case Excellent => 3
    }
  }

  /** The level shown for a skill score: four bands, no clamping. */
  function SkillLevel(score: int): (l: Level)
    ensures l == Excellent <==> score >= 8
    ensures l == Good <==> 6 <= score < 8
    ensures l == Fair <==> 4 <= score < 6
    ensures l == NeedsPractice <==> score < 4
  {
    if score >= 8 then Excellent
    else if score >= 6 then Good
    else if score >= 4 then Fair
    else NeedsPractice
  }

  /** A higher skill score never shows a lower level. */
  lemma SkillLevelMonotone(a: int, b: int)
    requires a <= b
    ensures SkillLevel(a).Rank() <= SkillLevel(b).Rank()
  {
  }

  // ---------------------------------------------------------------------
  // Skill cards and the radar chart
  // ---------------------------------------------------------------------

  /** One entry of the fixed list of skills the cards are built from. */
  datatype SkillEntry = SkillEntry(name: string, score: int, icon: string, description: string)

  /** What one skill card shows. */
  datatype SkillCard = SkillCard(name: string, icon: string, description: string, score: int, level: Level)

  const SkillNames: seq<string> := ["Pronunciation", "Fluency", "Vocabulary", "Grammar"]

  /** The fixed list of skills, each with its score taken from `skills`. */
  function SkillData(skills: Skills): seq<SkillEntry>
  {
    [ SkillEntry("Pronunciation", skills.pronunciation, "fas fa-volume-up",
                 "Clarity and accuracy of speech sounds"),
      SkillEntry("Fluency", skills.fluency, "fas fa-tachometer-alt",
                 "Smoothness and flow of speech"),
      SkillEntry("Vocabulary", skills.vocabulary, "fas fa-book",
                 "Range and appropriateness of word choice"),
      SkillEntry("Grammar", skills.grammar, "fas fa-code",
                 "Accuracy of sentence structures") ]
  }

  function CardOf(e: SkillEntry): SkillCard
  {
    SkillCard(e.name, e.icon, e.description, e.score, SkillLevel(e.score))
  }

  /** The skill cards in display order: Pronunciation, Fluency, Vocabulary,
      Grammar, each with its own score and the level of that score. */
  function SkillCards(skills: Skills): (cards: seq<SkillCard>)
    ensures |cards| == |SkillNames| == 4
    ensures forall i :: 0 <= i < |cards| ==>
      cards[i].name == SkillNames[i] && cards[i].level == SkillLevel(cards[i].score)
    ensures cards[0].score == skills.pronunciation && cards[1].score == skills.fluency
    ensures cards[2].score == skills.vocabulary && cards[3].score == skills.grammar
  {
    var data := SkillData(skills);
    seq(|data|, i requires 0 <= i < |data| => CardOf(data[i]))
  }

  const ChartLabels: seq<string> := ["Pronunciation", "Fluency", "Vocabulary", "Grammar"]

  /** The values plotted on the radar chart: one per label, and on each axis
      the score of the skill card in the same position. */
  function ChartData(skills: Skills): (d: seq<int>)
    ensures |d| == |ChartLabels| == |SkillCards(skills)|
    ensures forall i :: 0 <= i < |d| ==> d[i] == SkillCards(skills)[i].score
  {
    [skills.pronunciation, skills.fluency, skills.vocabulary, skills.grammar]
  }

  /** Each chart axis is labelled with the skill of the card in the same
      position, so label, value and card line up index by index. */
  lemma ChartMatchesCards(skills: Skills)
    ensures forall i :: 0 <= i < |ChartLabels| ==>
      ChartLabels[i] == SkillCards(skills)[i].name && ChartData(skills)[i] == SkillCards(skills)[i].score
  {
  }

  // ---------------------------------------------------------------------
  // The whole screen
  // ---------------------------------------------------------------------

  /** The badge text built from the number read back from the score display;
      `None` is NaN. */
  function BadgeText(shown: Option<int>): (r: string)
    ensures |r| > 5 && r[..5] == "Band "
    ensures shown.Some? ==> ParseInt(r[5..]) == shown
    ensures shown.None? ==> r[5..] == "NaN"
  {
    match shown
    case Some(n) =>
      ParseIntOfIntToString(n);
      var r := "Band " + IntToString(n);
      assert r[5..] == IntToString(n);
      r
    case None =>
      "Band NaN"
  }

  /** The badge reads "Band " followed by the score just placed in the score
      display. */
  lemma BadgeShowsScore(score: int)
    ensures BadgeText(ParseInt(IntToString(score))) == "Band " + IntToString(score)
  {
    ParseIntOfIntToString(score);
  }

  /** Every value the dashboard shows. */
  datatype RenderPlan = RenderPlan(
    studentName: string,
    testType: string,
    scoreText: string,
    overallControl: int,
    overallValueText: string,
    pronunciationControl: int,
    pronunciationValueText: string,
    fluencyControl: int,
    fluencyValueText: string,
    cards: seq<SkillCard>,
    feedbackTitle: string,
    feedbackDescription: string,
    badge: string,
    suggestions: seq<string>,
    chart: seq<int>)

  /** What a record looks like on screen once it is rendered. The score
      display, the badge's number and the three slider labels all read back,
      with `parseInt`, as the numbers they stand for. */
  function Plan(rec: Record): (p: RenderPlan)
    ensures ParseInt(p.scoreText) == Some(rec.overallScore)
    ensures |p.badge| > 5 && p.badge[..5] == "Band "
    ensures ParseInt(p.badge[5..]) == Some(rec.overallScore)
    ensures ParseInt(p.overallValueText) == Some(p.overallControl)
    ensures ParseInt(p.pronunciationValueText) == Some(p.pronunciationControl)
    ensures ParseInt(p.fluencyValueText) == Some(p.fluencyControl)
  {
    ParseIntOfIntToString(rec.overallScore);
    ParseIntOfIntToString(rec.skills.pronunciation);
    ParseIntOfIntToString(rec.skills.fluency);
    var badge := "Band " + IntToString(rec.overallScore);
    assert badge[5..] == IntToString(rec.overallScore);
    RenderPlan(
      rec.student.name,
      rec.student.testType,
      IntToString(rec.overallScore),
      rec.overallScore,
      IntToString(rec.overallScore),
      rec.skills.pronunciation,
      IntToString(rec.skills.pronunciation),
      rec.skills.fluency,
      IntToString(rec.skills.fluency),
      SkillCards(rec.skills),
      rec.feedback.title,
      rec.feedback.description,
      badge,
      rec.feedback.suggestions,
      ChartData(rec.skills))
  }

  // ---------------------------------------------------------------------
  // The update request
  // ---------------------------------------------------------------------

  /** The body of the request the Update button sends: the three slider
      values and nothing else. */
  function Payload(overall: int, pronunciation: int, fluency: int): (req: Server.UpdateRequest)
    ensures req.vocabulary == None && req.grammar == None
  {
    Server.UpdateRequest(Some(overall), Some(pronunciation), Some(fluency), None, None)
  }

  /** What the service makes of a request from the dashboard: the three
      values land in their slots, vocabulary, grammar and the student stay as
      they were, and the feedback follows the new overall score. */
  lemma PayloadUpdate(rec: Record, overall: int, pronunciation: int, fluency: int)
    ensures Server.Merge(rec, Payload(overall, pronunciation, fluency))
         == rec.(overallScore := overall,
                 skills := rec.skills.(pronunciation := pronunciation, fluency := fluency),
                 feedback := Server.Classify(overall))
  {
  }

  // ---------------------------------------------------------------------
  // The fallback record
  // ---------------------------------------------------------------------

  /** The record shown when the report cannot be fetched. */
  const Fallback := Record(
    Student("Alex Johnson", "2024-01-15", "Speaking Assessment"),
    7,
    Skills(7, 6, 8, 6),
    Feedback(
      "Good Performance",
      "Generally effective command of the language despite some inaccuracies. Can handle complex situations fairly well.",
      [ "Work on grammatical accuracy",
        "Practice speaking on unfamiliar topics",
        "Expand vocabulary in specific topic areas" ]))

  /** The fallback record has the Good title for its score 7, but a third
      suggestion the service's Good bundle does not have, so it does not
      satisfy the service's invariant. */
  lemma FallbackNotConsistent()
    ensures Fallback.feedback.title == Server.Classify(Fallback.overallScore).title
    ensures |Fallback.feedback.suggestions| == 3
    ensures |Server.Classify(Fallback.overallScore).suggestions| == 2
    ensures !Server.Consistent(Fallback)
  {
  }

  /** Any update the service applies to the fallback record makes it
      consistent again. */
  lemma UpdateRepairsFallback(req: Server.UpdateRequest)
    ensures Server.Consistent(Server.Merge(Fallback, req))
  {
  }

  /** The fallback screen shows "Band 7" and three suggestions. */
  lemma FallbackPlan()
    ensures Plan(Fallback).badge == "Band 7"
    ensures |Plan(Fallback).suggestions| == 3
    ensures Plan(Fallback).cards[2].level == Excellent
  {
  }
}
