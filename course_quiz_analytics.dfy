/** The teacher/admin view of a course's quiz results: one row per quiz with
    its attempt count and highest score, or a fixed message when the course
    has no quizzes. */
module CourseQuizAnalytics {
  import opened Common
  import opened Decimal
  import AnalyticsPage

  datatype StudentRef = StudentRef(id: string, username: Option<string>)

  datatype Attempt = Attempt(score: nat, student: StudentRef)

  datatype Quiz = Quiz(
    id: string,
    title: string,
    totalPoints: nat,
    attemptCount: nat,
    topAttempt: Option<Attempt>,
    bottomAttempt: Option<Attempt>)

  /** The analytics payload; `quizzes` may be missing. */
  datatype Data = Data(courseId: string, courseTitle: string, quizzes: Option<seq<Quiz>>)

  const ExportPrefix := "quiz_analytics_"
  const NoQuizDataText := "No quiz data available for this course"

  /** The "Highest Score" cell. */
  function HighestScoreCell(top: Option<Attempt>): string
  {
    AnalyticsPage.ScoreCell(if top.Some? then Some(top.value.score) else None)
  }

  /** The cell reads "N/A" exactly when there is no top attempt, and
      otherwise shows the top attempt's score. */
  lemma HighestScoreCellMeaning(top: Option<Attempt>)
    ensures HighestScoreCell(top) == AnalyticsPage.NotAvailable <==> top.None?
    ensures top.Some? ==> AnalyticsPage.ParseScoreCell(HighestScoreCell(top)) == Some(Some(top.value.score))
  {
    AnalyticsPage.ScoreCellRoundTrip(if top.Some? then Some(top.value.score) else None);
  }

  /** `${quiz.attemptCount} attempts` */
  function AttemptsCell(n: nat): string
  {
    NatToString(n) + " attempts"
  }

  datatype Row = Row(title: string, attempts: string, highest: string)

  function RowOf(q: Quiz): Row
  {
    Row(q.title, AttemptsCell(q.attemptCount), HighestScoreCell(q.topAttempt))
  }

  datatype Table = NoQuizData(text: string) | QuizRows(rows: seq<Row>)

  /** The table area: the fixed message for a missing or empty quiz list,
      otherwise one row per quiz in the order received. */
  function QuizTable(quizzes: Option<seq<Quiz>>): (t: Table)
    ensures t == NoQuizData(NoQuizDataText) <==> quizzes.None? || |quizzes.value| == 0
    ensures t.QuizRows? ==> (|t.rows| == |quizzes.value| &&
      forall i :: 0 <= i < |t.rows| ==> t.rows[i] == RowOf(quizzes.value[i]))
  {
    if quizzes.None? || |quizzes.value| == 0 then NoQuizData(NoQuizDataText)
    else QuizRows(seq(|quizzes.value|, i requires 0 <= i < |quizzes.value| => RowOf(quizzes.value[i])))
  }

  /** What the backend promises: a quiz has a top attempt exactly when it
      has attempts. */
  predicate ConsistentAttempts(q: Quiz)
  {
    q.topAttempt.None? <==> q.attemptCount == 0
  }

  /** On a consistent quiz the highest score reads "N/A" exactly when no one
      attempted it. */
  lemma HighestScoreNAIffNoAttempts(q: Quiz)
    requires ConsistentAttempts(q)
    ensures RowOf(q).highest == AnalyticsPage.NotAvailable <==> q.attemptCount == 0
  {
    HighestScoreCellMeaning(q.topAttempt);
  }

  /** `Course: {data?.courseTitle || data?.courseId || courseId}`; an
      undefined course id renders as nothing. */
  function CourseHeading(data: Option<Data>, routeCourseId: Option<string>): (h: string)
    ensures data.Some? && data.value.courseTitle != "" ==> h == data.value.courseTitle
    ensures data.Some? && data.value.courseTitle == "" && data.value.courseId != "" ==> h == data.value.courseId
    ensures (data.None? || (data.value.courseTitle == "" && data.value.courseId == "")) ==>
      h == (if routeCourseId.Some? then routeCourseId.value else "")
  {
    if data.Some? && data.value.courseTitle != "" then data.value.courseTitle
    else if data.Some? && data.value.courseId != "" then data.value.courseId
    else if routeCourseId.Some? then routeCourseId.value
    else ""
  }

  /** The page's download is named `quiz_analytics_<courseId>_<millis>.pdf`,
      and the name gives back the course and the time stamp. */
  lemma ExportNameOfPage(courseId: string, millis: nat)
    ensures AnalyticsPage.ExportFileName(ExportPrefix, courseId, millis)
            == "quiz_analytics_" + courseId + "_" + NatToString(millis) + ".pdf"
    ensures AnalyticsPage.ParseExportFileName(ExportPrefix, AnalyticsPage.ExportFileName(ExportPrefix, courseId, millis))
            == Some((courseId, millis))
  {
    AnalyticsPage.ExportFileNameRoundTrip(ExportPrefix, courseId, millis);
  }

  /** A fresh page for the route's course id. */
  method NewPage(courseId: Option<string>) returns (p: AnalyticsPage.Page<Data>)
    ensures fresh(p) && p.courseId == courseId && p.filePrefix == ExportPrefix
    ensures !p.loading && !p.exporting && p.error.None? && p.data.None?
  {
    p := new AnalyticsPage.Page<Data>(courseId, ExportPrefix);
  }
}
