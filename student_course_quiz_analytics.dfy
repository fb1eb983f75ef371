/** The student's own view of a course's quizzes: per quiz the last score
    and the date of the last attempt, or a fixed message when there are no
    quizzes. */
module StudentCourseQuizAnalytics {
  import opened Common
  import opened Decimal
  import AnalyticsPage
  import CourseQuizAnalytics

  /** One attempt; `createdAt` is the timestamp text the backend sends. */
  datatype HistoryEntry = HistoryEntry(score: nat, createdAt: string)

  datatype Quiz = Quiz(id: string, title: string, totalPoints: nat, lastScore: Option<nat>, history: seq<HistoryEntry>)

  /** The analytics payload; `quizzes` may be missing. */
  datatype Data = Data(courseId: string, courseTitle: string, quizzes: Option<seq<Quiz>>)

  const ExportPrefix := "my_quiz_analytics_"
  const NoQuizzesText := "No quizzes found"
  const NoAttemptsText := "No attempts"

  /** The "Last Score" cell: `${lastScore}%`, or "N/A" for a null score. */
  function LastScoreCell(lastScore: Option<nat>): string
  {
    AnalyticsPage.ScoreCell(lastScore)
  }

  /** The "Last Attempt" cell: the date of the LAST history entry as
      delivered (the list is not re-sorted), or "No attempts". The locale
      date rendering is left abstract: the cell carries the timestamp. */
  datatype LastAttempt = NoAttempts | AttemptOn(createdAt: string)

  function LastAttemptCell(history: seq<HistoryEntry>): (c: LastAttempt)
    ensures c == NoAttempts <==> |history| == 0
    ensures c.AttemptOn? ==> c.createdAt == history[|history| - 1].createdAt
  {
    if |history| > 0 then AttemptOn(history[|history| - 1].createdAt) else NoAttempts
  }

  /** A newly recorded attempt is the one the cell shows, whatever came
      before it. */
  lemma {:induction false} LastAttemptShowsNewest(history: seq<HistoryEntry>, e: HistoryEntry)
    ensures LastAttemptCell(history + [e]) == AttemptOn(e.createdAt)
  {
  }

  /** What the backend promises: `lastScore` is the score of the last
      history entry, or null when there is no history. */
  predicate ConsistentHistory(q: Quiz)
  {
    q.lastScore == if |q.history| == 0 then None else Some(q.history[|q.history| - 1].score)
  }

  /** On a consistent quiz the two cells agree: the score reads "N/A"
      exactly when the attempt cell reads "No attempts", and otherwise the
      score shown is that of the attempt whose date is shown. */
  lemma ScoreAndAttemptCellsAgree(q: Quiz)
    requires ConsistentHistory(q)
    ensures LastScoreCell(q.lastScore) == AnalyticsPage.NotAvailable <==> LastAttemptCell(q.history) == NoAttempts
    ensures |q.history| > 0 ==>
      AnalyticsPage.ParseScoreCell(LastScoreCell(q.lastScore)) == Some(Some(q.history[|q.history| - 1].score))
  {
    AnalyticsPage.ScoreCellRoundTrip(q.lastScore);
  }

  datatype Row = Row(title: string, lastScore: string, totalPoints: nat, lastAttempt: LastAttempt)

  function RowOf(q: Quiz): Row
  {
    Row(q.title, LastScoreCell(q.lastScore), q.totalPoints, LastAttemptCell(q.history))
  }

  datatype Table = NoQuizzes(text: string) | QuizRows(rows: seq<Row>)

  /** The table area: the fixed message for a missing or empty quiz list,
      otherwise one row per quiz in the order received. */
  function QuizTable(quizzes: Option<seq<Quiz>>): (t: Table)
    ensures t == NoQuizzes(NoQuizzesText) <==> quizzes.None? || |quizzes.value| == 0
    ensures t.QuizRows? ==> (|t.rows| == |quizzes.value| &&
      forall i :: 0 <= i < |t.rows| ==> t.rows[i] == RowOf(quizzes.value[i]))
  {
    if quizzes.None? || |quizzes.value| == 0 then NoQuizzes(NoQuizzesText)
    else QuizRows(seq(|quizzes.value|, i requires 0 <= i < |quizzes.value| => RowOf(quizzes.value[i])))
  }

  /** `Course: {data?.courseTitle || courseId}`; an undefined course id
      renders as nothing. */
  function CourseHeading(data: Option<Data>, routeCourseId: Option<string>): (h: string)
    ensures data.Some? && data.value.courseTitle != "" ==> h == data.value.courseTitle
    ensures (data.None? || data.value.courseTitle == "") ==>
      h == (if routeCourseId.Some? then routeCourseId.value else "")
  {
    if data.Some? && data.value.courseTitle != "" then data.value.courseTitle
    else if routeCourseId.Some? then routeCourseId.value
    else ""
  }

  /** The two analytics pages head a course alike: before data arrives both
      show the route's course id, and once data for that course arrives both
      show its title, or the id when the title is empty. The student page
      has no `data.courseId` fallback, so this needs the course-wide payload
      to carry the route's id. */
  lemma HeadingsAgree(title: string, routeCourseId: string, quizzes: Option<seq<Quiz>>,
                      courseQuizzes: Option<seq<CourseQuizAnalytics.Quiz>>)
    ensures CourseHeading(None, Some(routeCourseId))
         == CourseQuizAnalytics.CourseHeading(None, Some(routeCourseId))
    ensures CourseHeading(Some(Data(routeCourseId, title, quizzes)), Some(routeCourseId))
         == CourseQuizAnalytics.CourseHeading(Some(CourseQuizAnalytics.Data(routeCourseId, title, courseQuizzes)), Some(routeCourseId))
  {
  }

  /** The page's download is named `my_quiz_analytics_<courseId>_<millis>.pdf`,
      the name gives back the course and the time stamp, and it never
      coincides with a download of the course-wide page. */
  lemma ExportNameOfPage(courseId: string, millis: nat, otherCourse: string, otherMillis: nat)
    ensures AnalyticsPage.ExportFileName(ExportPrefix, courseId, millis)
            == "my_quiz_analytics_" + courseId + "_" + NatToString(millis) + ".pdf"
    ensures AnalyticsPage.ParseExportFileName(ExportPrefix, AnalyticsPage.ExportFileName(ExportPrefix, courseId, millis))
            == Some((courseId, millis))
    ensures AnalyticsPage.ExportFileName(ExportPrefix, courseId, millis)
            != AnalyticsPage.ExportFileName(CourseQuizAnalytics.ExportPrefix, otherCourse, otherMillis)
  {
    AnalyticsPage.ExportFileNameRoundTrip(ExportPrefix, courseId, millis);
    AnalyticsPage.ExportFileNamesOfDistinctPrefixes(ExportPrefix, courseId, millis,
                                                    CourseQuizAnalytics.ExportPrefix, otherCourse, otherMillis);
  }

  /** A fresh page for the route's course id. */
  method NewPage(courseId: Option<string>) returns (p: AnalyticsPage.Page<Data>)
    ensures fresh(p) && p.courseId == courseId && p.filePrefix == ExportPrefix
    ensures !p.loading && !p.exporting && p.error.None? && p.data.None?
  {
    p := new AnalyticsPage.Page<Data>(courseId, ExportPrefix);
  }
}
