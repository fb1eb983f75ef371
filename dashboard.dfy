/** The role-aware dashboard page: the summaries the three role endpoints
    return, the load lifecycle that stores them, the screen rendered from the
    page state, and the derived values of the student, teacher and admin
    panels. */
module Dashboard {
  import opened Common
  import opened Decimal

  /** `users.byRole` and `optional` are open records of optional numbers; a
      key that is absent from the map is an undefined entry. */
  datatype AdminSummary = AdminSummary(
    usersTotal: nat,
    byRole: map<string, nat>,
    totalCourses: nat,
    totalEnrollments: nat,
    quizSubmittedCount: nat,
    assignmentGradedCount: nat,
    optional: Option<map<string, nat>>)

  datatype TeacherCourseItem = TeacherCourseItem(courseId: string, title: string, enrolled: nat)

  datatype TeacherSummary = TeacherSummary(myCourses: nat, courseSummary: seq<TeacherCourseItem>)

  datatype StudentCourseItem = StudentCourseItem(
    courseId: string,
    title: string,
    totalVideos: nat,
    videosCompleted: nat,
    allVideosWatched: bool)

  datatype StudentSummary = StudentSummary(myCourses: nat, courseSummary: seq<StudentCourseItem>)

  /** A response of one of the three summary endpoints. */
  datatype Summary =
    | AdminData(admin: AdminSummary)
    | TeacherData(teacher: TeacherSummary)
    | StudentData(student: StudentSummary)

  function SummaryRole(s: Summary): Role
  {
    match s
    case AdminData(_) => Admin
    case TeacherData(_) => Teacher
    case StudentData(_) => Student
  }

  const LoadErrorDefault := "Failed to load dashboard"

  // ---------------------------------------------------------------------
  // The rendered screen
  // ---------------------------------------------------------------------

  /** What the page shows: the "Loading user role..." placeholder while the
      role is absent, otherwise the role's page with the loading banner, the
      error banner and at most one role panel. */
  datatype Screen =
    | WaitingForRole
    | RoleScreen(role: Role, loadingBanner: bool, errorBanner: Option<string>, panel: Option<Summary>)

  /** The slot the page keeps for role `r`, as a summary. */
  function Slot(r: Role, adminData: Option<AdminSummary>, teacherData: Option<TeacherSummary>,
                studentData: Option<StudentSummary>): (s: Option<Summary>)
    ensures s.Some? ==> SummaryRole(s.value) == r
  {
    match r
    case Admin => if adminData.Some? then Some(AdminData(adminData.value)) else None
    case Teacher => if teacherData.Some? then Some(TeacherData(teacherData.value)) else None
    case Student => if studentData.Some? then Some(StudentData(studentData.value)) else None
  }

  /** The screen for a page state. A panel is shown only when nothing is
      loading, no error is shown, and the slot of the CURRENT role holds data;
      data held for any other role is never shown. */
  function Render(role: Option<Role>, loading: bool, error: Option<string>,
                  adminData: Option<AdminSummary>, teacherData: Option<TeacherSummary>,
                  studentData: Option<StudentSummary>): (v: Screen)
    ensures v.WaitingForRole? <==> role.None?
    ensures v.RoleScreen? ==> v.role == role.value && v.loadingBanner == loading
    ensures v.RoleScreen? ==> (v.errorBanner.Some? <==> Truthy(error))
    ensures v.RoleScreen? && v.errorBanner.Some? ==> v.errorBanner.value == error.value
    ensures v.RoleScreen? && v.panel.Some? ==>
      !loading && !Truthy(error) && SummaryRole(v.panel.value) == role.value
    ensures v.RoleScreen? && v.panel.Some? ==>
      match v.panel.value
      case AdminData(a) => adminData == Some(a)
      case TeacherData(t) => teacherData == Some(t)
      case StudentData(s) => studentData == Some(s)
    ensures (role.Some? && !loading && !Truthy(error) &&
             Slot(role.value, adminData, teacherData, studentData).Some?) ==> v.RoleScreen? && v.panel.Some?
  {
    if role.None? then WaitingForRole
    else
      RoleScreen(role.value, loading,
                 if Truthy(error) then error else None,
                 if loading || Truthy(error) then None
                 else Slot(role.value, adminData, teacherData, studentData))
  }

  // ---------------------------------------------------------------------
  // Student panel
  // ---------------------------------------------------------------------

  /** `Math.round(num / den)` on exact rationals: `p` is the integer nearest
      to num/den, a half rounded up (p - 1/2 <= num/den < p + 1/2). */
  ghost predicate RoundsTo(num: nat, den: nat, p: nat)
    requires den > 0
  {
    2 * den * p <= 2 * num + den < 2 * den * (p + 1)
  }

  /** At most one natural number is the rounding of a ratio. */
  lemma RoundsToUnique(num: nat, den: nat, p: nat, q: nat)
    requires den > 0 && RoundsTo(num, den, p) && RoundsTo(num, den, q)
    ensures p == q
  {
  }

  lemma MulMonotone(k: nat, a: nat, b: nat)
    requires a <= b
    ensures k * a <= k * b
  {
  }

  lemma DivBounds(n: nat, d: nat)
    requires d > 0
    ensures d * (n / d) <= n < d * (n / d + 1)
  {
  }

  /** The percentage shown on a course card: 0 for a course without videos
      (no division by zero), otherwise the rounded share of watched videos,
      never above 100 when no more videos are completed than exist. */
  function ProgressPercent(totalVideos: nat, videosCompleted: nat): (p: nat)
    ensures totalVideos == 0 ==> p == 0
    ensures totalVideos > 0 ==> RoundsTo(100 * videosCompleted, totalVideos, p)
    ensures videosCompleted <= totalVideos ==> p <= 100
  {
    if totalVideos == 0 then 0
    else
      var p := (200 * videosCompleted + totalVideos) / (2 * totalVideos);
      DivBounds(200 * videosCompleted + totalVideos, 2 * totalVideos);
      assert videosCompleted <= totalVideos ==> p <= 100 by {
        if videosCompleted <= totalVideos && p > 100 {
          MulMonotone(2 * totalVideos, 101, p);
        }
      }
      p
  }

  /** Four of ten videos watched show as 40%. */
  lemma ProgressPercentExample()
    ensures ProgressPercent(10, 4) == 40
  {
  }

  /** A fully watched course shows 100%, an unstarted one 0%. */
  lemma ProgressPercentEnds(totalVideos: nat)
    requires totalVideos > 0
    ensures ProgressPercent(totalVideos, totalVideos) == 100
    ensures ProgressPercent(totalVideos, 0) == 0
  {
    RoundsToUnique(100 * totalVideos, totalVideos, ProgressPercent(totalVideos, totalVideos), 100);
    RoundsToUnique(0, totalVideos, ProgressPercent(totalVideos, 0), 0);
  }

  const NoVideosText := "No videos in this course"

  /** The video progress line of a course card. */
  function VideoText(totalVideos: nat, videosCompleted: nat): (s: string)
    ensures totalVideos == 0 <==> s == NoVideosText
  {
    if totalVideos == 0 then NoVideosText
    else
      var s := NatToString(videosCompleted) + "/" + NatToString(totalVideos) + " videos watched";
      assert s[0] == NatToString(videosCompleted)[0];
      s
  }

  /** The progress line is unambiguous: a course without videos never reads
      like a course with videos, and two courses with videos read alike only
      when their watched and total counts agree. */
  lemma {:induction false} VideoTextDistinguishes(total: nat, completed: nat, total': nat, completed': nat)
    requires VideoText(total, completed) == VideoText(total', completed')
    ensures total == 0 <==> total' == 0
    ensures total > 0 ==> total == total' && completed == completed'
  {
    if total > 0 && total' > 0 {
      var rest := "/" + NatToString(total) + " videos watched";
      var rest' := "/" + NatToString(total') + " videos watched";
      assert VideoText(total, completed) == NatToString(completed) + rest;
      assert VideoText(total', completed') == NatToString(completed') + rest';
      NumberThenTextUnique(completed, rest, completed', rest');
      assert rest[1..] == NatToString(total) + " videos watched";
      assert rest'[1..] == NatToString(total') + " videos watched";
      NumberThenTextUnique(total, " videos watched", total', " videos watched");
    }
  }

  lemma VideoTextExample()
    ensures VideoText(10, 4) == "4/10 videos watched"
  {
  }

  /** `c.title || c.courseId` */
  function CourseCaption(title: string, courseId: string): (s: string)
    ensures title != "" ==> s == title
    ensures title == "" ==> s == courseId
  {
    if title != "" then title else courseId
  }

  /** One course card of the student panel. The percentage is displayed only
      for a course that has videos. */
  datatype StudentCard = StudentCard(caption: string, badge: bool, percent: Option<nat>, videoText: string)

  function StudentCardOf(c: StudentCourseItem): StudentCard
  {
    StudentCard(CourseCaption(c.title, c.courseId),
                c.allVideosWatched && c.totalVideos > 0,
                if c.totalVideos > 0 then Some(ProgressPercent(c.totalVideos, c.videosCompleted)) else None,
                VideoText(c.totalVideos, c.videosCompleted))
  }

  /** What the backend promises of a progress record: no more videos
      completed than exist, and the flag set exactly when every one of at
      least one video is watched. */
  predicate ConsistentProgress(c: StudentCourseItem)
  {
    c.videosCompleted <= c.totalVideos &&
    (c.allVideosWatched <==> c.totalVideos > 0 && c.videosCompleted == c.totalVideos)
  }

  /** On a consistent record the badge appears exactly when a course with
      videos is fully watched, and then the bar reads 100%; any displayed
      percentage lies in [0, 100]. */
  lemma StudentCardConsistent(c: StudentCourseItem)
    requires ConsistentProgress(c)
    ensures StudentCardOf(c).badge <==> c.totalVideos > 0 && c.videosCompleted == c.totalVideos
    ensures StudentCardOf(c).badge ==> StudentCardOf(c).percent == Some(100)
    ensures StudentCardOf(c).percent.Some? <==> c.totalVideos > 0
    ensures StudentCardOf(c).percent.Some? ==> StudentCardOf(c).percent.value <= 100
  {
    if c.totalVideos > 0 {
      ProgressPercentEnds(c.totalVideos);
    }
  }

  /** A course list rendered either as a fixed message or as rows. */
  datatype Listing<T> = EmptyMessage(text: string) | Rows(rows: seq<T>)

  const NotEnrolledText := "You are not enrolled in any courses yet."

  /** The course progress section: the cards in the order received. */
  function StudentCourseList(s: StudentSummary): (v: Listing<StudentCard>)
    ensures v == EmptyMessage(NotEnrolledText) <==> |s.courseSummary| == 0
    ensures v.Rows? ==> (|v.rows| == |s.courseSummary| &&
      forall i :: 0 <= i < |v.rows| ==> v.rows[i] == StudentCardOf(s.courseSummary[i]))
  {
    if |s.courseSummary| == 0 then EmptyMessage(NotEnrolledText)
    else Rows(seq(|s.courseSummary|, i requires 0 <= i < |s.courseSummary| => StudentCardOf(s.courseSummary[i])))
  }

  // ---------------------------------------------------------------------
  // Teacher panel
  // ---------------------------------------------------------------------

  /** `${n} course${n === 1 ? '' : 's'}` */
  function CourseCountLabel(n: nat): string
  {
    NatToString(n) + " course" + (if n == 1 then "" else "s")
  }

  /** The label is singular exactly for one course, and different counts
      give different labels. */
  lemma {:induction false} CourseCountLabelPlural(n: nat, m: nat)
    ensures EndsWith(CourseCountLabel(n), " courses") <==> n != 1
    ensures CourseCountLabel(n) == CourseCountLabel(m) ==> n == m
  {
    var text := CourseCountLabel(n);
    if n == 1 {
      assert text == "1 course";
    } else {
      assert text == NatToString(n) + " courses";
      assert text[|text| - 8..] == " courses";
    }
    if text == CourseCountLabel(m) {
      NumberThenTextUnique(n, text[|NatToString(n)|..], m, CourseCountLabel(m)[|NatToString(m)|..]);
    }
  }

  datatype TeacherRow = TeacherRow(caption: string, enrolled: nat, quizLink: string, assignmentLink: string)

  function TeacherRowOf(c: TeacherCourseItem): TeacherRow
  {
    TeacherRow(CourseCaption(c.title, c.courseId), c.enrolled,
               "/analytics/courses/" + c.courseId + "/quizzes",
               "/analytics/courses/" + c.courseId + "/assignments")
  }

  const NoCoursesText := "No courses yet."

  /** The course summary table: the message for an empty list, otherwise one
      row per course, in the order received. */
  function TeacherCourseList(t: TeacherSummary): (v: Listing<TeacherRow>)
    ensures v == EmptyMessage(NoCoursesText) <==> |t.courseSummary| == 0
    ensures v.Rows? ==> (|v.rows| == |t.courseSummary| &&
      forall i :: 0 <= i < |v.rows| ==> v.rows[i] == TeacherRowOf(t.courseSummary[i]))
  {
    if |t.courseSummary| == 0 then EmptyMessage(NoCoursesText)
    else Rows(seq(|t.courseSummary|, i requires 0 <= i < |t.courseSummary| => TeacherRowOf(t.courseSummary[i])))
  }

  // ---------------------------------------------------------------------
  // Admin panel
  // ---------------------------------------------------------------------

  /** `m[key] ?? 0` */
  function CountOrZero(m: map<string, nat>, key: string): (n: nat)
    ensures key in m ==> n == m[key]
    ensures key !in m ==> n == 0
  {
    if key in m then m[key] else 0
  }

  /** The helper line of the "Total users" card. */
  function UsersHelper(byRole: map<string, nat>): string
  {
    "Teachers " + NatToString(CountOrZero(byRole, "Teacher"))
      + " \U{B7} Students " + NatToString(CountOrZero(byRole, "Student"))
  }

  /** The helper line tells the teacher and student counts apart: two role
      maps give the same line only when both counts (missing ones read as 0)
      agree. */
  lemma {:induction false} UsersHelperDistinguishes(m: map<string, nat>, m': map<string, nat>)
    requires UsersHelper(m) == UsersHelper(m')
    ensures CountOrZero(m, "Teacher") == CountOrZero(m', "Teacher")
    ensures CountOrZero(m, "Student") == CountOrZero(m', "Student")
  {
    var t, s := CountOrZero(m, "Teacher"), CountOrZero(m, "Student");
    var t', s' := CountOrZero(m', "Teacher"), CountOrZero(m', "Student");
    var mid := " \U{B7} Students ";
    assert UsersHelper(m) == "Teachers " + (NatToString(t) + (mid + NatToString(s)));
    assert UsersHelper(m') == "Teachers " + (NatToString(t') + (mid + NatToString(s')));
    CancelPrefix("Teachers ", NatToString(t) + (mid + NatToString(s)), NatToString(t') + (mid + NatToString(s')));
    NumberThenTextUnique(t, mid + NatToString(s), t', mid + NatToString(s'));
    CancelPrefix(mid, NatToString(s), NatToString(s'));
    NatToStringInjective(s, s');
  }

  /** A role map without a Student entry reads as 0 students. */
  lemma UsersHelperExample()
    ensures UsersHelper(map["Teacher" := 10]) == "Teachers 10 \U{B7} Students 0"
  {
  }

  /** `adminData.optional?.newEnrollments7d ?? 0` */
  function NewEnrollments7d(optional: Option<map<string, nat>>): (n: nat)
    ensures optional.Some? && "newEnrollments7d" in optional.value ==> n == optional.value["newEnrollments7d"]
    ensures optional.None? || "newEnrollments7d" !in optional.value ==> n == 0
  {
    if optional.Some? then CountOrZero(optional.value, "newEnrollments7d") else 0
  }

  // ---------------------------------------------------------------------
  // The load lifecycle
  // ---------------------------------------------------------------------

  /** The page state. Each network completion is an atomic event; a
      completion is applied whatever role is current when it arrives. */
  class DashboardPage {
    var role: Option<Role>
    var loading: bool
    var error: Option<string>
    var adminData: Option<AdminSummary>
    var teacherData: Option<TeacherSummary>
    var studentData: Option<StudentSummary>

    /** At most one of the three summary slots holds data. */
    predicate AtMostOneSlot()
      reads this
    {
      && !(adminData.Some? && teacherData.Some?)
      && !(adminData.Some? && studentData.Some?)
      && !(teacherData.Some? && studentData.Some?)
    }

    function View(): Screen
      reads this
    {
      Render(role, loading, error, adminData, teacherData, studentData)
    }

    constructor (role: Option<Role>)
      ensures this.role == role && !loading && error.None?
      ensures adminData.None? && teacherData.None? && studentData.None?
      ensures AtMostOneSlot()
    {
      this.role := role;
      loading := false;
      error := None;
      adminData, teacherData, studentData := None, None, None;
    }

    /** The session store publishes a new role (sign-in, sign-out). */
    method SetRole(r: Option<Role>)
      modifies this`role
      ensures role == r
    {
      role := r;
    }

    /** The load effect, run when the page mounts and whenever the role
        changes. It returns the role whose endpoint is requested, or None
        when the role is absent: then nothing starts, nothing changes and
        the placeholder is shown. */
    method StartLoad() returns (requested: Option<Role>)
      modifies this`loading, this`error
      ensures requested == role
      ensures role.None? ==> loading == old(loading) && error == old(error)
      ensures role.None? ==> View() == WaitingForRole
      ensures role.Some? ==> loading && error.None?
      ensures role.Some? ==> View().RoleScreen? && View().loadingBanner && View().panel.None?
    {
      if role.None? {
        return None;
      }
      loading := true;
      error := None;
      requested := role;
    }

    /** A summary endpoint answered: the summary fills its role's slot and
        empties the other two, and loading ends. */
    method LoadSucceeded(s: Summary)
      modifies this`loading, this`adminData, this`teacherData, this`studentData
      ensures !loading && error == old(error) && role == old(role)
      ensures s.AdminData? ==> adminData == Some(s.admin) && teacherData.None? && studentData.None?
      ensures s.TeacherData? ==> teacherData == Some(s.teacher) && adminData.None? && studentData.None?
      ensures s.StudentData? ==> studentData == Some(s.student) && adminData.None? && teacherData.None?
      ensures AtMostOneSlot()
      ensures role == Some(SummaryRole(s)) && !Truthy(error) ==>
        View() == RoleScreen(SummaryRole(s), false, None, Some(s))
      ensures role.Some? && role.value != SummaryRole(s) ==> View().panel.None?
    {
      match s {
        case AdminData(a) =>
          adminData := Some(a);
          teacherData := None;
          studentData := None;
        case TeacherData(t) =>
          teacherData := Some(t);
          adminData := None;
          studentData := None;
        case StudentData(d) =>
          studentData := Some(d);
          adminData := None;
          teacherData := None;
      }
      loading := false;
    }

    /** A summary endpoint failed: the response's `error` field, or the
        default message, is shown; the slots keep what they held. */
    method LoadFailed(errorField: Option<string>)
      modifies this`loading, this`error
      ensures !loading && error == Some(OrElse(errorField, LoadErrorDefault))
      ensures role == old(role)
      ensures adminData == old(adminData) && teacherData == old(teacherData) && studentData == old(studentData)
      ensures role.Some? ==> View().RoleScreen? && View().errorBanner.Some? && View().panel.None?
    {
      error := Some(OrElse(errorField, LoadErrorDefault));
      loading := false;
    }
  }
}
