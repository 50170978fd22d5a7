/** The report service: the feedback classifier and the one stored record
    with its read and partial-update operations. */
module Server {
  import opened Wrappers
  import opened ReportTypes

  // ---------------------------------------------------------------------
  // Feedback classifier
  // ---------------------------------------------------------------------

  const ExcellentFeedback := Feedback(
    "Excellent Performance",
    "Strong control of language features. Speaks fluently with only rare repetition or self-correction.",
    ["Continue practicing advanced vocabulary", "Focus on accent reduction for native-like speech"])

  const GoodFeedback := Feedback(
    "Good Performance",
    "Generally effective command of the language despite some inaccuracies. Can handle complex situations fairly well.",
    ["Work on grammatical accuracy", "Practice speaking on unfamiliar topics"])

  const NeedsImprovementFeedback := Feedback(
    "Needs Improvement",
    "Basic competence is limited. Frequent problems with understanding and making meaning clear.",
    ["Focus on basic sentence structures", "Build essential vocabulary", "Practice pronunciation daily"])

  /** The feedback for an overall score: exactly one of three fixed bundles,
      with no clamping of scores outside 0..9. */
  function Classify(score: int): (f: Feedback)
    ensures f == ExcellentFeedback <==> score >= 8
    ensures f == GoodFeedback <==> 6 <= score <= 7
    ensures f == NeedsImprovementFeedback <==> score < 6
    ensures |f.suggestions| == if score < 6 then 3 else 2
  {
    if score >= 8 then ExcellentFeedback
    else if score >= 6 && score <= 7 then GoodFeedback
    else NeedsImprovementFeedback
  }

  /** Position of a bundle in the order Needs Improvement < Good < Excellent. */
  function BandRank(f: Feedback): nat
  {
    if f == ExcellentFeedback then 2
    else if f == GoodFeedback then 1
    else 0
  }

  /** A higher overall score never yields a lower band. */
  lemma ClassifyMonotone(a: int, b: int)
    requires a <= b
    ensures BandRank(Classify(a)) <= BandRank(Classify(b))
  {
  }

  /** The three bands are told apart by their titles alone. */
  lemma TitlesDistinguishBands(a: int, b: int)
    ensures Classify(a).title == Classify(b).title <==> Classify(a) == Classify(b)
  {
  }

  // ---------------------------------------------------------------------
  // Partial update of the record
  // ---------------------------------------------------------------------

  /** The body of an update request: every field is optional. */
  datatype UpdateRequest = UpdateRequest(
    overall: Option<int>,
    pronunciation: Option<int>,
    fluency: Option<int>,
    vocabulary: Option<int>,
    grammar: Option<int>)

  /** The reply to an update: a confirmation and the whole stored record. */
  datatype Response = Response(message: string, data: Record)

  const UpdatedMessage := "Scores updated successfully"

  /** `now` is what a present `field` carries, or `before` when it is absent. */
  predicate Overwrote(now: int, before: int, field: Option<int>)
  {
    if field.Some? then now == field.value else now == before
  }

  /** The record an update request leaves behind: present fields overwrite
      their slots, absent ones leave them alone, the student is untouched and
      the feedback is recomputed from the stored overall score. */
  function Merge(rec: Record, req: UpdateRequest): (r: Record)
    ensures r.student == rec.student
    ensures Overwrote(r.overallScore, rec.overallScore, req.overall)
    ensures Overwrote(r.skills.pronunciation, rec.skills.pronunciation, req.pronunciation)
    ensures Overwrote(r.skills.fluency, rec.skills.fluency, req.fluency)
    ensures Overwrote(r.skills.vocabulary, rec.skills.vocabulary, req.vocabulary)
    ensures Overwrote(r.skills.grammar, rec.skills.grammar, req.grammar)
    ensures r.feedback == Classify(r.overallScore)
  {
    var overall := if req.overall.Some? then req.overall.value else rec.overallScore;
    var skills := Skills(
      if req.pronunciation.Some? then req.pronunciation.value else rec.skills.pronunciation,
      if req.fluency.Some? then req.fluency.value else rec.skills.fluency,
      if req.vocabulary.Some? then req.vocabulary.value else rec.skills.vocabulary,
      if req.grammar.Some? then req.grammar.value else rec.skills.grammar);
    Record(rec.student, overall, skills, Classify(overall))
  }

  /** The invariant every update establishes: the feedback is the classifier's
      verdict on the stored overall score. */
  predicate Consistent(rec: Record)
  {
    rec.feedback == Classify(rec.overallScore)
  }

  /** Applying the same request twice leaves the same record as applying it once. */
  lemma MergeIdempotent(rec: Record, req: UpdateRequest)
    ensures Merge(Merge(rec, req), req) == Merge(rec, req)
  {
  }

  /** Two requests carrying the same overall score produce the same feedback,
      whatever record they are applied to. */
  lemma SameOverallSameFeedback(r1: Record, r2: Record, req: UpdateRequest)
    requires req.overall.Some?
    ensures Merge(r1, req).feedback == Merge(r2, req).feedback
  {
  }

  /** An update of pronunciation alone changes that one slot and re-derives
      the feedback from the unchanged overall score. */
  lemma PronunciationOnlyUpdate(rec: Record, p: int)
    ensures Merge(rec, UpdateRequest(None, Some(p), None, None, None))
         == rec.(skills := rec.skills.(pronunciation := p), feedback := Classify(rec.overallScore))
  {
  }

  /** An empty request changes nothing in a record that already satisfies the
      invariant. */
  lemma EmptyUpdateKeepsConsistentRecord(rec: Record)
    requires Consistent(rec)
    ensures Merge(rec, UpdateRequest(None, None, None, None, None)) == rec
  {
  }

  /** Raising a Good record's overall score from 7 to 8 makes it Excellent. */
  lemma RaiseSevenToEight(rec: Record)
    requires rec.overallScore == 7
    ensures Merge(rec, UpdateRequest(Some(8), None, None, None, None)).feedback.title == "Excellent Performance"
  {
  }

  // ---------------------------------------------------------------------
  // The stored record
  // ---------------------------------------------------------------------

  /** The service's one in-memory record, with a ghost copy of what was last
      written to the backing file. */
  class Store {
    var record: Record
    ghost var persisted: Record

    /** Start-up: the record is whatever the backing file holds. */
    constructor (loaded: Record)
      ensures record == loaded && persisted == loaded
    {
      record := loaded;
      persisted := loaded;
    }

    /** Read: the current record, verbatim. */
    method Get() returns (r: Record)
      ensures r == record
    {
      r := record;
    }

    /** Update: overwrite the present fields one by one, recompute the
        feedback, write the whole record back and return it. */
    method Update(req: UpdateRequest) returns (response: Response)
      modifies this
      ensures record == Merge(old(record), req)
      ensures Consistent(record)
      ensures persisted == record
      ensures response == Response(UpdatedMessage, record)
    {
      if req.overall.Some? {
        record := record.(overallScore := req.overall.value);
      }
      if req.pronunciation.Some? {
        record := record.(skills := record.skills.(pronunciation := req.pronunciation.value));
      }
      if req.fluency.Some? {
        record := record.(skills := record.skills.(fluency := req.fluency.value));
      }
      if req.vocabulary.Some? {
        record := record.(skills := record.skills.(vocabulary := req.vocabulary.value));
      }
      if req.grammar.Some? {
        record := record.(skills := record.skills.(grammar := req.grammar.value));
      }
      record := record.(feedback := Classify(record.overallScore));
      persisted := record;
      response := Response(UpdatedMessage, record);
    }
  }

  /** A read that follows an update returns exactly the record the update
      returned, which is also what was written to the file. */
  method PutThenGet(store: Store, req: UpdateRequest) returns (put: Response, got: Record)
    modifies store
    ensures got == put.data == store.record == store.persisted
    ensures got == Merge(old(store.record), req)
  {
    put := store.Update(req);
    got := store.Get();
  }
}
