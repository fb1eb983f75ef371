# Learning-management client: page state and view models in Dafny

This project models the logic inside the browser client of a multi-tenant
learning-management product. The client's pages are React components. Each
page's state machine and derived display values are lifted out of its
component and written as Dafny classes and functions.

- **Dashboard** (`Dashboard` module, `dashboard.dfy`). The page holds an optional session role, a `loading`
  flag, an `error` message and three summary slots (admin, teacher, student).
  The load effect does nothing while the role is absent. Otherwise it
  requests the role's summary. A success fills the summary's slot and empties
  the other two. A failure only sets the error. The screen is a pure function
  of that state (`Render`). Around it sit the panels' derived values: the video
  progress percentage and line, the "all videos watched" badge, the course
  count label, and the admin helper line with missing counts read as 0.
- **Application shell** (`Navigation` module, `app_layout.dfy`). This covers the fixed navigation table,
  its role filter, the active-link prefix test and the mobile drawer.
- **Quiz analytics pages** (`AnalyticsPage`, `CourseQuizAnalytics` and
  `StudentCourseQuizAnalytics`). Both pages run the same lifecycle, modelled
  once as the generic class `AnalyticsPage.Page<D>`. A data load is keyed by the route's course id. A PDF export
  has its own `exporting` flag. The two share one `error` slot and one `data` slot.
  Each page supplies its payload type, its download-name prefix and its cell
  formatting. A "N/A" or `<score>%` score cell, the last attempt of a history,
  and a fixed message for a missing or empty quiz list are all covered.

Shared pieces: `Common` (`common.dfy`) holds optional values, the role set and
JavaScript truthiness (`null`, `undefined` and `""` are falsy, so
`x || fallback` also falls back on an empty string). `Decimal` (`decimal.dfy`)
renders naturals in decimal, with the parser that inverts it; for the counts,
scores and time stamps the screens print, this is the text `${n}` produces.
That parser is what makes the labels, cells and download names provably
unambiguous.

Each asynchronous step is one atomic event: `StartLoad`, `LoadSucceeded`,
`LoadFailed`, `StartExport`, `ExportSucceeded`, `ExportFailed`. Network
answers, the clock (`millis`) and the error payload's `error` field are
parameters of those events.

Behaviour of the code that the model keeps as written:

- A failed load keeps the summary or analytics data it held. Only the error
  is set, and the error hides the data.
- No completion is discarded as stale. A response is applied whatever role or
  course is current when it arrives, so no supersession guarantee is claimed.
  For the dashboard, `Render` still shows only the current role's slot.
- An export failure writes the same `error` slot as a load failure, so it
  hides the table until the next load clears it.
- The object URL is revoked only on the success path; a failure happens
  before any URL exists.

## Model

| member | source | states |
|---|---|---|
| `Decimal.NatToString` | frontend/src/pages/Dashboard.tsx:364 | `${n}` of a natural is a non-empty string of digits with no leading zero except for 0 itself |
| `Decimal.ParseNatToString` | frontend/src/pages/Dashboard.tsx:364 | reading a rendered natural back gives the number (round trip) |
| `Decimal.NatToStringInjective` | frontend/src/pages/Dashboard.tsx:364 | distinct numbers render as distinct strings |
| `Decimal.NumberThenTextUnique` | frontend/src/pages/Dashboard.tsx:269 | a rendered number followed by text starting with a non-digit splits uniquely: equal strings mean equal numbers and equal texts |
| `Dashboard.Render` | frontend/src/pages/Dashboard.tsx:185-197 | the waiting placeholder exactly when the role is absent (lines 122-133); the loading banner mirrors `loading`; an error banner exactly when the error is truthy; a panel only when not loading, no error and the CURRENT role's slot holds data (lines 197, 255, 344), and then always; the panel shows that slot's data |
| `Dashboard.DashboardPage.constructor` | frontend/src/pages/Dashboard.tsx:64-69 | a page starts with the store's role, not loading, no error, all three slots empty |
| `Dashboard.DashboardPage.SetRole` | frontend/src/pages/Dashboard.tsx:64 | the session store publishes a new role |
| `Dashboard.DashboardPage.StartLoad` | frontend/src/pages/Dashboard.tsx:89-94 | with no role nothing starts, nothing changes and the screen is the waiting state; with a role, that role's summary is requested, `loading` is set, `error` cleared, and no panel shows |
| `Dashboard.DashboardPage.LoadSucceeded` | frontend/src/pages/Dashboard.tsx:95-116 | the summary fills exactly its role's slot, the other two become empty (at most one slot is non-empty), `loading` ends, `error` untouched; for the current role with no error the screen shows exactly that summary; a summary of another role is never shown |
| `Dashboard.DashboardPage.LoadFailed` | frontend/src/pages/Dashboard.tsx:112-116 | error becomes the response's `error` field if truthy, else "Failed to load dashboard"; `loading` ends; the slots are untouched; an error banner shows and no panel |
| `Dashboard.RoundsToUnique` | frontend/src/pages/Dashboard.tsx:366 | the rounding relation used to specify `Math.round` determines at most one integer |
| `Dashboard.ProgressPercent` | frontend/src/pages/Dashboard.tsx:365-366 | 0 when a course has no videos (no division by zero); otherwise the integer nearest 100·completed/total with halves rounded up; at most 100 when completed ≤ total |
| `Dashboard.ProgressPercentExample` | frontend/src/pages/Dashboard.tsx:366 | 4 of 10 videos gives 40 |
| `Dashboard.ProgressPercentEnds` | frontend/src/pages/Dashboard.tsx:366 | a fully watched course gives 100, an unstarted one 0 |
| `Dashboard.VideoText` | frontend/src/pages/Dashboard.tsx:361-364 | the line is "No videos in this course" exactly when the course has no videos |
| `Dashboard.VideoTextDistinguishes` | frontend/src/pages/Dashboard.tsx:361-364 | a no-video line never equals a `<completed>/<total> videos watched` line, and two such lines are equal only for equal counts |
| `Dashboard.VideoTextExample` | frontend/src/pages/Dashboard.tsx:364 | 4 of 10 reads "4/10 videos watched" |
| `Dashboard.StudentCardConsistent` | frontend/src/pages/Dashboard.tsx:380-392 | for a record the backend keeps consistent, the badge shows exactly when a course with videos is fully watched, and then the percentage is 100; a percentage is displayed exactly when the course has videos, and it lies in [0,100] |
| `Dashboard.StudentCourseList` | frontend/src/pages/Dashboard.tsx:356-360 | "You are not enrolled in any courses yet." exactly for an empty list, otherwise one card per course in the order received |
| `Dashboard.CourseCountLabelPlural` | frontend/src/pages/Dashboard.tsx:269 | the label ends in " courses" exactly when the count is not 1; different counts give different labels |
| `Dashboard.TeacherCourseList` | frontend/src/pages/Dashboard.tsx:272-307 | "No courses yet." exactly for an empty list, otherwise one row per course in the order received (no re-sort) |
| `Dashboard.UsersHelperDistinguishes` | frontend/src/pages/Dashboard.tsx:142 | two role maps give the same "Teachers … · Students …" line only when both counts (missing read as 0) agree |
| `Dashboard.UsersHelperExample` | frontend/src/pages/Dashboard.tsx:142 | a role map with Teacher 10 and no Student entry reads "Teachers 10 · Students 0" |
| `Navigation.FilterNav` | frontend/src/components/layout/AppLayout.tsx:41-47 | every kept entry is visible: unrestricted, or restricted with the current role listed (so with no role no restricted entry survives) |
| `Navigation.FilterNavIsSubsequence` | frontend/src/components/layout/AppLayout.tsx:41-47 | the filtered list is the table with entries dropped and the order kept |
| `Navigation.FilterNavKeepsVisible` | frontend/src/components/layout/AppLayout.tsx:43-45 | every visible entry is kept, so an entry is kept if and only if it is visible |
| `Navigation.FilterNavAppend` | frontend/src/components/layout/AppLayout.tsx:41-47 | the filter exactly: an appended entry is appended to the result if visible and dropped otherwise, repeated entries included |
| `Navigation.FilterNavKeepsUnrestricted` | frontend/src/components/layout/AppLayout.tsx:43 | a run of entries without a `roles` list is kept whole, for every role and for none |
| `Navigation.ManageUsersOnlyForAdmin` | frontend/src/components/layout/AppLayout.tsx:27-34 | for the fixed table, the five unrestricted entries always appear, and "Manage users" appears exactly for an Admin |
| `Navigation.NavTargetsPrefixFree` | frontend/src/components/layout/AppLayout.tsx:27-34 | no target in the table is a prefix of another |
| `Navigation.AtMostOneActive` | frontend/src/components/layout/AppLayout.tsx:52-53 | for any path, at most one entry of the table is highlighted |
| `Navigation.MobileNav.constructor` | frontend/src/components/layout/AppLayout.tsx:39 | the drawer starts closed |
| `Navigation.MobileNav.Handle` | frontend/src/components/layout/AppLayout.tsx:58-132 | the drawer is open afterwards, and the backdrop rendered (lines 117-122), exactly when the event was the menu button (line 132); the close button (97), the backdrop (120) and any navigation link (58) close it |
| `AnalyticsPage.ExportFileName` | frontend/src/pages/CourseQuizAnalytics.tsx:56 | the download name starts with the page's prefix and ends in ".pdf" |
| `AnalyticsPage.ExportFileNameRoundTrip` | frontend/src/pages/CourseQuizAnalytics.tsx:56 | the name `<prefix><courseId>_<millis>.pdf` parses back to the course id and the time stamp, whatever the course id contains |
| `AnalyticsPage.ExportFileNameInjective` | frontend/src/pages/CourseQuizAnalytics.tsx:56 | two downloads share a name only for the same course at the same millisecond |
| `AnalyticsPage.ExportFileNamesOfDistinctPrefixes` | frontend/src/pages/StudentCourseQuizAnalytics.tsx:53 | names built with prefixes that start differently never coincide |
| `AnalyticsPage.ScoreCellRoundTrip` | frontend/src/pages/CourseQuizAnalytics.tsx:125 | a score cell is "N/A" exactly for a null score, and `<score>%` reads back as the score |
| `AnalyticsPage.Page.constructor` | frontend/src/pages/CourseQuizAnalytics.tsx:32-36 | a page starts idle: not loading, not exporting, no error, no data, no downloads |
| `AnalyticsPage.Page.StartLoad` | frontend/src/pages/CourseQuizAnalytics.tsx:38-41 | without a (truthy) course id nothing changes; otherwise `loading` is set, `error` cleared and the table area hidden (StudentCourseQuizAnalytics.tsx:35-38) |
| `AnalyticsPage.Page.LoadSucceeded` | frontend/src/pages/CourseQuizAnalytics.tsx:42-45 | the data is stored and `loading` ends; error and export flag untouched; with no error showing, the table area is rendered (line 99), and with no export running, the export button is enabled (line 86) |
| `AnalyticsPage.Page.LoadFailed` | frontend/src/pages/CourseQuizAnalytics.tsx:44-45 | error becomes the response's `error` field if truthy, else "Failed to load quiz analytics"; `loading` ends; data untouched and hidden |
| `AnalyticsPage.Page.StartExport` | frontend/src/pages/CourseQuizAnalytics.tsx:48-51 | without a course id nothing changes; otherwise `exporting` is set and the export button is disabled (line 86; StudentCourseQuizAnalytics.tsx:45-48, 83) |
| `AnalyticsPage.Page.ExportSucceeded` | frontend/src/pages/CourseQuizAnalytics.tsx:52-66 | the download is named `<prefix><courseId>_<millis>.pdf` and appended to the download log; the object URL created for it is revoked (no URL stays live); `exporting` ends; error, data and loading untouched; with data present the export button is enabled again |
| `AnalyticsPage.Page.ExportFailed` | frontend/src/pages/CourseQuizAnalytics.tsx:61-66 | error becomes "Failed to export PDF", `exporting` ends, data and loading untouched, the table is hidden, and with data present the export button is enabled again |
| `CourseQuizAnalytics.HighestScoreCellMeaning` | frontend/src/pages/CourseQuizAnalytics.tsx:125 | the highest-score cell is "N/A" exactly when there is no top attempt, otherwise it reads back as the top score |
| `CourseQuizAnalytics.HighestScoreNAIffNoAttempts` | frontend/src/pages/CourseQuizAnalytics.tsx:122-125 | when the backend keeps top attempt and attempt count consistent, "N/A" shows exactly for a quiz nobody attempted |
| `CourseQuizAnalytics.QuizTable` | frontend/src/pages/CourseQuizAnalytics.tsx:101-143 | "No quiz data available for this course" exactly for a missing or empty quiz list, otherwise one row per quiz in order |
| `CourseQuizAnalytics.CourseHeading` | frontend/src/pages/CourseQuizAnalytics.tsx:76 | `courseTitle \|\| courseId \|\| route courseId`: the title when non-empty; else the data's course id when non-empty; else the route's id |
| `CourseQuizAnalytics.ExportNameOfPage` | frontend/src/pages/CourseQuizAnalytics.tsx:56 | this page downloads `quiz_analytics_<courseId>_<millis>.pdf`, which parses back to course and time |
| `CourseQuizAnalytics.NewPage` | frontend/src/pages/CourseQuizAnalytics.tsx:31-36 | the page is the shared lifecycle with this page's prefix, starting idle |
| `StudentCourseQuizAnalytics.LastAttemptShowsNewest` | frontend/src/pages/StudentCourseQuizAnalytics.tsx:119-121 | an attempt appended to the history is the one shown |
| `StudentCourseQuizAnalytics.ScoreAndAttemptCellsAgree` | frontend/src/pages/StudentCourseQuizAnalytics.tsx:113-121 | when `lastScore` is the last history entry's score (or null for no history), the score cell is "N/A" exactly when the attempt cell is "No attempts", and otherwise shows that entry's score |
| `StudentCourseQuizAnalytics.QuizTable` | frontend/src/pages/StudentCourseQuizAnalytics.tsx:98-128 | "No quizzes found" exactly for a missing or empty quiz list, otherwise one row per quiz in order |
| `StudentCourseQuizAnalytics.HeadingsAgree` | frontend/src/pages/StudentCourseQuizAnalytics.tsx:73 | `courseTitle \|\| courseId` heads the page as the course-wide page's `courseTitle \|\| data.courseId \|\| courseId` does (CourseQuizAnalytics.tsx:76): the route's id before data arrives, and the same text once data for the route's course arrives |
| `StudentCourseQuizAnalytics.ExportNameOfPage` | frontend/src/pages/StudentCourseQuizAnalytics.tsx:53 | this page downloads `my_quiz_analytics_<courseId>_<millis>.pdf`, which parses back to course and time and never equals a download name of the course-wide page |
| `StudentCourseQuizAnalytics.NewPage` | frontend/src/pages/StudentCourseQuizAnalytics.tsx:28-33 | the page is the shared lifecycle with this page's prefix, starting idle |

## Left out

- Network calls (the dashboard summary endpoints, the analytics endpoints, the PDF export, login and signup) and the session store. Their modules are not part of this model. Their results are parameters of the completion events.
- Interleaving of asynchronous steps. Each step is one atomic event, and completions carry no request identity, because the code keeps none.
- Decimal.NatToString: numbers are exact naturals. A JavaScript number prints in exponent notation from 10^21 on and is exact only up to 2^53, so `${n}` agrees with this rendering below those bounds; no count, score or time stamp of the screens reaches them.
- ProgressPercent: rounds the exact ratio. The source computes `Math.round(c / t * 100)` in floating point, which can land just below a .5 tie. For 29 of 200 videos the float gives 14 where the exact rounding gives 15.
- Scores are natural numbers. Fractional scores and the `toFixed(1)` averages (quiz average, assignment average, grade) involve floating-point formatting and are not modelled.
- Locale formatting (`toLocaleString`, `toLocaleDateString`) and `new Date()`. The last-attempt cell carries the raw timestamp, and the clock is the `millis` parameter.
- StudentCourseQuizAnalytics.LastAttemptCell: yields the timestamp of the last entry, not its locale date text.
- Browser download mechanics (`createObjectURL`, the anchor element, `click`, `remove`). They are reduced to a ghost download log and a ghost count of live object URLs. An export failure is modelled as the fetch failing before any URL is created.
- A route change on a mounted analytics page. Each page instance has a fixed course id, so a changed id is modelled as a new instance.
- A role string outside Admin, Teacher and Student. The source's type admits only these three or none.
- Hero copy, the "Last refreshed" time, stat-card values and gradients, the teacher's recent-submissions list, links' markup, icons, and the "Exporting..." button text. These are presentation only.
- `console.error` and `console.log` calls.
- Login, Signup, SignupAdmin and AuthShell. They are form plumbing over validation code that is not part of this model.
- Navigation.MobileNav.Handle: requires the drawer to be open for a backdrop click, because the backdrop is rendered only while it is open.
