/** The dashboard page: each element the script writes to is a field, and
    each function that writes to the page is a method. */
module Renderer {
  import opened Wrappers
  import opened ReportTypes
  import opened Decimal
  import opened ClientView
  import Server

  datatype NoticeKind = Success | Error

  /** The three sliders of the update panel. */
  datatype Slider = OverallSlider | PronunciationSlider | FluencySlider

  /** A transient message in the corner of the page. */
  datatype Notice = Notice(message: string, kind: NoticeKind)

  const DemoDataNotice := Notice("Using demo data. Backend may not be running.", Error)
  const UpdatedNotice := Notice("Scores updated successfully!", Success)
  const UpdateFailedNotice := Notice("Failed to update scores. Please try again.", Error)

  /** How far an update request got over the network. */
  datatype Delivery =
    | Unreachable   // the request never reached the service
    | NoResponse    // the service applied it, but no readable reply came back
    | Answered      // the service replied with the updated record

  /** Extending a prefix by one element. */
  lemma PrefixGrows<T>(s: seq<T>, i: nat)
    requires i < |s|
    ensures s[..i + 1] == s[..i] + [s[i]]
  {
  }

  class Dashboard {
    var studentName: string
    var testType: string
    var scoreText: string             // the overall score display
    var overallControl: int           // slider values and the labels beside them
    var overallValueText: string
    var pronunciationControl: int
    var pronunciationValueText: string
    var fluencyControl: int
    var fluencyValueText: string
    var cards: seq<SkillCard>         // the skills container
    var feedbackTitle: string
    var feedbackDescription: string
    var badge: string
    var suggestionItems: seq<string>  // the suggestions list
    var chart: seq<int>               // the radar chart's data set

    /** Everything the page currently shows. */
    function View(): RenderPlan
      reads this
    {
      RenderPlan(studentName, testType, scoreText,
                 overallControl, overallValueText,
                 pronunciationControl, pronunciationValueText,
                 fluencyControl, fluencyValueText,
                 cards, feedbackTitle, feedbackDescription, badge, suggestionItems, chart)
    }

    /** The page before any record has been rendered. */
    constructor ()
      ensures View() == RenderPlan("", "", "", 0, "", 0, "", 0, "", [], "", "", "", [], [])
    {
      studentName, testType, scoreText := "", "", "";
      overallControl, pronunciationControl, fluencyControl := 0, 0, 0;
      overallValueText, pronunciationValueText, fluencyValueText := "", "", "";
      cards := [];
      feedbackTitle, feedbackDescription, badge := "", "", "";
      suggestionItems, chart := [], [];
    }

    method UpdateStudentInfo(student: Student)
      modifies this
      ensures View() == old(View()).(studentName := student.name, testType := student.testType)
    {
      studentName := student.name;
      testType := student.testType;
    }

    /** Shows the overall score and moves its slider there. */
    method UpdateOverallScore(score: int)
      modifies this
      ensures View() == old(View()).(scoreText := IntToString(score), overallControl := score,
                                     overallValueText := IntToString(score))
    {
      scoreText := IntToString(score);
      overallControl := score;
      overallValueText := IntToString(score);
    }

    /** Adds one card at the end of the skills container. */
    method AppendCard(card: SkillCard)
      modifies this
      ensures View() == old(View()).(cards := old(cards) + [card])
    {
      cards := cards + [card];
    }

    /** Moves the slider that belongs to `skill`, if it has one, to its score. */
    method ShowOnSlider(skill: SkillEntry)
      modifies this
      ensures View() ==
        if skill.name == "Pronunciation" then
          old(View()).(pronunciationControl := skill.score, pronunciationValueText := IntToString(skill.score))
        else if skill.name == "Fluency" then
          old(View()).(fluencyControl := skill.score, fluencyValueText := IntToString(skill.score))
        else old(View())
    {
      if skill.name == "Pronunciation" {
        pronunciationControl := skill.score;
        pronunciationValueText := IntToString(skill.score);
      }
      if skill.name == "Fluency" {
        fluencyControl := skill.score;
        fluencyValueText := IntToString(skill.score);
      }
    }

    /** Rebuilds the skill cards one by one, moving the pronunciation and
        fluency sliders as their cards are added. */
    method UpdateSkills(skills: Skills)
      modifies this
      ensures View() == old(View()).(cards := SkillCards(skills),
                                     pronunciationControl := skills.pronunciation,
                                     pronunciationValueText := IntToString(skills.pronunciation),
                                     fluencyControl := skills.fluency,
                                     fluencyValueText := IntToString(skills.fluency))
    {
      cards := [];
      var data := SkillData(skills);
      ghost var all := SkillCards(skills);
      for i := 0 to |data|
        invariant View() == old(View()).(
          cards := all[..i],
          pronunciationControl := if i >= 1 then skills.pronunciation else old(pronunciationControl),
          pronunciationValueText := if i >= 1 then IntToString(skills.pronunciation) else old(pronunciationValueText),
          fluencyControl := if i >= 2 then skills.fluency else old(fluencyControl),
          fluencyValueText := if i >= 2 then IntToString(skills.fluency) else old(fluencyValueText))
      {
        var skill := data[i];
        assert all[i] == CardOf(skill);
        PrefixGrows(all, i);
        AppendCard(CardOf(skill));
        ShowOnSlider(skill);
      }
      assert all[..|data|] == all;
    }

    /** Empties the suggestions list and appends the suggestions one by one. */
    method ListSuggestions(suggestions: seq<string>)
      modifies this
      ensures View() == old(View()).(suggestions := suggestions)
    {
      suggestionItems := [];
      for i := 0 to |suggestions|
        modifies this`suggestionItems
        invariant suggestionItems == suggestions[..i]
      {
        suggestionItems := suggestionItems + [suggestions[i]];
      }
      assert suggestionItems == suggestions;
    }

    /** Writes the badge from the number read back from the overall score
        display. */
    method ShowBadge()
      modifies this
      ensures View() == old(View()).(badge := BadgeText(ParseInt(scoreText)))
    {
      var overallScore := ParseInt(scoreText);
      badge := BadgeText(overallScore);
    }

    /** Shows the feedback: the badge is built from the number read back from
        the overall score display, and the suggestions are listed in order. */
    method UpdateFeedback(feedback: Feedback)
      modifies this
      ensures View() == old(View()).(feedbackTitle := feedback.title,
                                     feedbackDescription := feedback.description,
                                     badge := BadgeText(ParseInt(old(scoreText))),
                                     suggestions := feedback.suggestions)
    {
      feedbackTitle := feedback.title;
      feedbackDescription := feedback.description;
      ShowBadge();
      ListSuggestions(feedback.suggestions);
    }

    method UpdateChart(skills: Skills)
      modifies this
      ensures View() == old(View()).(chart := ChartData(skills))
    {
      chart := ChartData(skills);
    }

    /** The user drags a slider to `value`: the label beside it follows. */
    method Slide(slider: Slider, value: int)
      modifies this
      ensures View() == match slider
        case OverallSlider =>
          old(View()).(overallControl := value, overallValueText := IntToString(value))
        case PronunciationSlider =>
          old(View()).(pronunciationControl := value, pronunciationValueText := IntToString(value))
        case FluencySlider =>
          old(View()).(fluencyControl := value, fluencyValueText := IntToString(value))
    {
      match slider
      case OverallSlider =>
        overallControl := value;
        overallValueText := IntToString(value);
      case PronunciationSlider =>
        pronunciationControl := value;
        pronunciationValueText := IntToString(value);
      case FluencySlider =>
        fluencyControl := value;
        fluencyValueText := IntToString(value);
    }

    /** The rendering done after the report is fetched: the page then shows
        exactly the record's plan. */
    method Render(rec: Record)
      modifies this
      ensures View() == Plan(rec)
    {
      UpdateStudentInfo(rec.student);
      UpdateOverallScore(rec.overallScore);
      UpdateSkills(rec.skills);
      UpdateFeedback(rec.feedback);
      UpdateChart(rec.skills);
      BadgeShowsScore(rec.overallScore);
    }

    /** The rendering done with the record an update returns: everything but
        the student's details follows the record's plan. */
    method ShowUpdated(data: Record)
      modifies this
      ensures View() == Plan(data).(studentName := old(studentName), testType := old(testType))
    {
      UpdateOverallScore(data.overallScore);
      UpdateSkills(data.skills);
      UpdateFeedback(data.feedback);
      UpdateChart(data.skills);
      BadgeShowsScore(data.overallScore);
    }

    /** Start-up: render the fetched record, or the fallback record with a
        notice when the fetch failed. */
    method Load(fetched: Option<Record>) returns (notice: Option<Notice>)
      modifies this
      ensures View() == Plan(if fetched.Some? then fetched.value else Fallback)
      ensures notice == if fetched.Some? then None else Some(DemoDataNotice)
    {
      match fetched
      case Some(rec) =>
        Render(rec);
        notice := None;
      case None =>
        Render(Fallback);
        notice := Some(DemoDataNotice);
    }

    /** The Update button: send the three slider values to the service and,
        when the updated record comes back, show it. Vocabulary and grammar
        are never changed by it. */
    method ConfirmUpdate(store: Server.Store, delivery: Delivery) returns (notice: Notice)
      modifies this, store
      ensures var req := Payload(old(overallControl), old(pronunciationControl), old(fluencyControl));
        store.record == if delivery == Unreachable then old(store.record) else Server.Merge(old(store.record), req)
      ensures store.record.skills.vocabulary == old(store.record.skills.vocabulary)
      ensures store.record.skills.grammar == old(store.record.skills.grammar)
      ensures store.record.student == old(store.record.student)
      ensures store.persisted == if delivery == Unreachable then old(store.persisted) else store.record
      ensures View() == if delivery == Answered
                        then Plan(store.record).(studentName := old(studentName), testType := old(testType))
                        else old(View())
      ensures notice == if delivery == Answered then UpdatedNotice else UpdateFailedNotice
    {
      var req := Payload(overallControl, pronunciationControl, fluencyControl);
      PayloadUpdate(store.record, overallControl, pronunciationControl, fluencyControl);
      if delivery == Unreachable {
        notice := UpdateFailedNotice;
      } else {
        var response := store.Update(req);
        if delivery == Answered {
          ShowUpdated(response.data);
          notice := UpdatedNotice;
        } else {
          notice := UpdateFailedNotice;
        }
      }
    }
  }
}
