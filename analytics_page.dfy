/** The lifecycle both quiz-analytics pages share: a data load keyed by the
    route's course id, an independent PDF export with its own in-flight flag,
    one error slot and one data slot; plus the export's download name and the
    score cell format. */
module AnalyticsPage {
  import opened Common
  import opened Decimal

  const LoadErrorDefault := "Failed to load quiz analytics"
  const ExportErrorMessage := "Failed to export PDF"

  // ---------------------------------------------------------------------
  // Download name
  // ---------------------------------------------------------------------

  /** `${prefix}${courseId}_${new Date().getTime()}.pdf` */
  function ExportFileName(prefix: string, courseId: string, millis: nat): (name: string)
    ensures StartsWith(name, prefix) && EndsWith(name, ".pdf")
  {
    var name := prefix + courseId + "_" + NatToString(millis) + ".pdf";
    assert name[..|prefix|] == prefix;
    assert name[|name| - 4..] == ".pdf";
    name
  }

  /** The last position of `c` in `s`, if any. */
  function LastIndexOf(s: string, c: char): (k: Option<nat>)
    ensures k.Some? ==> k.value < |s| && s[k.value] == c && forall j :: k.value < j < |s| ==> s[j] != c
    ensures k.None? ==> forall j :: 0 <= j < |s| ==> s[j] != c
    decreases |s|
  {
    if s == [] then None
    else if s[|s| - 1] == c then Some(|s| - 1)
    else LastIndexOf(s[..|s| - 1], c)
  }

  /** The last underscore of `a + "_" + b` is the one between them when `b`
      holds none. */
  lemma {:induction false} LastUnderscore(a: string, b: string)
    requires forall j :: 0 <= j < |b| ==> b[j] != '_'
    ensures LastIndexOf(a + "_" + b, '_') == Some(|a|)
    decreases |b|
  {
    var s := a + "_" + b;
    if b != [] {
      assert s[|s| - 1] == b[|b| - 1];
      assert s[..|s| - 1] == a + "_" + b[..|b| - 1];
      LastUnderscore(a, b[..|b| - 1]);
    }
  }

  /** Recovers the course id and the time stamp from a download name: the
      time stamp is the run of digits after the last underscore. */
  function ParseExportFileName(prefix: string, name: string): Option<(string, nat)>
  {
    if !StartsWith(name, prefix) || |name| < |prefix| + 4 || name[|name| - 4..] != ".pdf" then None
    else
      var middle := name[|prefix|..|name| - 4];
      var k := LastIndexOf(middle, '_');
      if k.None? then None
      else
        var digits := middle[k.value + 1..];
        if digits == [] || !AllDigits(digits) then None
        else Some((middle[..k.value], ParseDigits(digits)))
  }

  /** The download name determines the course id and the time stamp it was
      built from, whatever characters the course id holds. */
  lemma ExportFileNameRoundTrip(prefix: string, courseId: string, millis: nat)
    ensures ParseExportFileName(prefix, ExportFileName(prefix, courseId, millis)) == Some((courseId, millis))
  {
    var digits := NatToString(millis);
    var name := ExportFileName(prefix, courseId, millis);
    var middle := courseId + "_" + digits;
    assert name == prefix + middle + ".pdf";
    assert name[|prefix|..|name| - 4] == middle;
    LastUnderscore(courseId, digits);
    assert middle[|courseId| + 1..] == digits;
    assert middle[..|courseId|] == courseId;
    ParseNatToString(millis);
  }

  /** Two exports get the same download name only for the same course at the
      same millisecond. */
  lemma ExportFileNameInjective(prefix: string, c1: string, t1: nat, c2: string, t2: nat)
    requires ExportFileName(prefix, c1, t1) == ExportFileName(prefix, c2, t2)
    ensures c1 == c2 && t1 == t2
  {
    ExportFileNameRoundTrip(prefix, c1, t1);
    ExportFileNameRoundTrip(prefix, c2, t2);
  }

  /** Names built with prefixes that differ in their first character never
      coincide. */
  lemma ExportFileNamesOfDistinctPrefixes(p1: string, c1: string, t1: nat, p2: string, c2: string, t2: nat)
    requires |p1| > 0 && |p2| > 0 && p1[0] != p2[0]
    ensures ExportFileName(p1, c1, t1) != ExportFileName(p2, c2, t2)
  {
  }

  // ---------------------------------------------------------------------
  // Score cells
  // ---------------------------------------------------------------------

  const NotAvailable := "N/A"

  /** A nullable score: `${score}%` when present, "N/A" otherwise. */
  function ScoreCell(score: Option<nat>): string
  {
    if score.Some? then NatToString(score.value) + "%" else NotAvailable
  }

  /** Reads a score cell back. */
  function ParseScoreCell(cell: string): Option<Option<nat>>
  {
    if cell == NotAvailable then Some(None)
    else if |cell| >= 2 && cell[|cell| - 1] == '%' && AllDigits(cell[..|cell| - 1])
    then Some(Some(ParseDigits(cell[..|cell| - 1])))
    else None
  }

  /** A score cell is unambiguous: "N/A" is never a rendered score, and the
      rendered score reads back as the score. */
  lemma ScoreCellRoundTrip(score: Option<nat>)
    ensures ParseScoreCell(ScoreCell(score)) == Some(score)
    ensures ScoreCell(score) == NotAvailable <==> score.None?
  {
    if score.Some? {
      var cell := ScoreCell(score);
      assert cell[0] == NatToString(score.value)[0];
      assert cell[..|cell| - 1] == NatToString(score.value);
      ParseNatToString(score.value);
    }
  }

  // ---------------------------------------------------------------------
  // The page lifecycle
  // ---------------------------------------------------------------------

  /** The state of one analytics page for the course id in its route.
      `filePrefix` is the page's download name prefix. Network completions
      are atomic events and are applied whenever they arrive. */
  class Page<D> {
    const courseId: Option<string>
    const filePrefix: string
    var loading: bool
    var exporting: bool
    var error: Option<string>
    var data: Option<D>
    /** The download names offered to the browser, oldest first. */
    ghost var downloads: seq<string>
    /** Object URLs created for downloads and not yet revoked. */
    ghost var liveObjectUrls: nat

    /** `if (!courseId) return;` lets a load or an export through. */
    predicate HasCourse()
      reads this
    {
      Truthy(courseId)
    }

    /** `disabled={exporting || !data}` */
    predicate ExportDisabled()
      reads this
    {
      exporting || data.None?
    }

    /** The table area is rendered only when nothing loads, no error is
        shown and data is present. */
    predicate ShowsData()
      reads this
    {
      !loading && !Truthy(error) && data.Some?
    }

    constructor (courseId: Option<string>, filePrefix: string)
      ensures this.courseId == courseId && this.filePrefix == filePrefix
      ensures !loading && !exporting && error.None? && data.None?
      ensures downloads == [] && liveObjectUrls == 0
    {
      this.courseId := courseId;
      this.filePrefix := filePrefix;
      loading, exporting := false, false;
      error, data := None, None;
      downloads, liveObjectUrls := [], 0;
    }

    /** The load effect: without a course id nothing happens; otherwise
        loading starts and the error is cleared. */
    method StartLoad() returns (started: bool)
      modifies this`loading, this`error
      ensures started == HasCourse()
      ensures started ==> loading && error.None?
      ensures !started ==> loading == old(loading) && error == old(error)
      ensures started ==> !ShowsData()
    {
      if !HasCourse() {
        return false;
      }
      loading := true;
      error := None;
      started := true;
    }

    /** The analytics endpoint answered. */
    method LoadSucceeded(d: D)
      modifies this`loading, this`data
      ensures data == Some(d) && !loading
      ensures error == old(error) && exporting == old(exporting)
      ensures !Truthy(old(error)) ==> ShowsData()
      ensures !exporting ==> !ExportDisabled()
    {
      data := Some(d);
      loading := false;
    }

    /** The analytics endpoint failed: its `error` field, or the default
        message, is shown; data keeps what it held. */
    method LoadFailed(errorField: Option<string>)
      modifies this`loading, this`error
      ensures error == Some(OrElse(errorField, LoadErrorDefault)) && !loading
      ensures data == old(data) && exporting == old(exporting)
      ensures !ShowsData()
    {
      error := Some(OrElse(errorField, LoadErrorDefault));
      loading := false;
    }

    /** The export handler: without a course id nothing happens; otherwise
        the export is in flight. */
    method StartExport() returns (started: bool)
      modifies this`exporting
      ensures started == HasCourse()
      ensures started ==> exporting && ExportDisabled()
      ensures !started ==> exporting == old(exporting)
    {
      if !HasCourse() {
        return false;
      }
      exporting := true;
      started := true;
    }

    /** The PDF arrived at `millis`: an object URL is created, offered as a
        download under the page's name, and revoked; the export ends. */
    method ExportSucceeded(millis: nat) returns (fileName: string)
      requires HasCourse()
      modifies this`exporting, this`downloads, this`liveObjectUrls
      ensures fileName == ExportFileName(filePrefix, courseId.value, millis)
      ensures downloads == old(downloads) + [fileName]
      ensures liveObjectUrls == old(liveObjectUrls)
      ensures !exporting && error == old(error) && data == old(data) && loading == old(loading)
      ensures data.Some? ==> !ExportDisabled()
    {
      liveObjectUrls := liveObjectUrls + 1;
      fileName := ExportFileName(filePrefix, courseId.value, millis);
      downloads := downloads + [fileName];
      liveObjectUrls := liveObjectUrls - 1;
      exporting := false;
    }

    /** The export failed: the export message takes the error slot, the data
        is kept (and hidden while the error shows), and the export ends. */
    method ExportFailed()
      modifies this`exporting, this`error
      ensures error == Some(ExportErrorMessage) && !exporting
      ensures data == old(data) && loading == old(loading)
      ensures !ShowsData() && (data.Some? ==> !ExportDisabled())
    {
      error := Some(ExportErrorMessage);
      exporting := false;
    }
  }
}
