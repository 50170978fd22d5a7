/** The single student report record that the service stores and the
    dashboard renders. */
module ReportTypes {
  /** Who was assessed; the service never changes it. The test date is kept
      as the text it is stored as. */
  datatype Student = Student(name: string, testDate: string, testType: string)

  /** The four skill sub-scores, each expected in 0..9 but never checked. */
  datatype Skills = Skills(pronunciation: int, fluency: int, vocabulary: int, grammar: int)

  /** The feedback bundle shown under the scores. */
  datatype Feedback = Feedback(title: string, description: string, suggestions: seq<string>)

  datatype Record = Record(student: Student, overallScore: int, skills: Skills, feedback: Feedback)
}
