/** The scanner page's state and its event handlers. React's `useState`
    slots become fields; each handler runs to completion, so a handler's
    batched `set…` calls become assignments in the order written. The
    browser's `localStorage` entry 'lastScanResults' is the field
    `lastScanResults`. The network is an input: `HandleScan` receives what
    the request it sends came back with. */
module ScannerPage {
  import opened ScanData
  import opened ScannerRules
  import Report
  import Text

  /** The request `handleScan` sends: the file to /api/classify, or the URL to /api/classify-url. */
  datatype Request = UploadFile(file: FileInfo) | SubmitUrl(url: string)

  /** What came back for that request. */
  datatype FetchOutcome =
    | NetworkFailure                              // `fetch` itself threw
    | HttpError(status: nat, errorField: string)  // not ok; `errorField` is the body's `error`, "" when absent
    | MalformedBody(message: string)              // ok, but `response.json()` threw this message
    | Received(result: ScanResult)                // ok, with this parsed body

  /** A report download: the file name and the text handed to `saveAs`. */
  datatype Download = Download(fileName: string, contents: string)

  const NOTHING_TO_SCAN := "Please select a file or enter a URL"
  const NETWORK_FAILED := "Network connection failed. Please check your internet connection."
  const SCAN_FAILED := "Failed to scan. Please try again."
  const ANALYZING := "Analyzing..."

  /** The message of the Error thrown for a failed scan: the network
      message, the server's `error` field or `Scan failed (<status>)…`, or
      the parser's message. */
  function ThrownMessage(outcome: FetchOutcome): (m: string)
    requires !outcome.Received?
    ensures outcome.NetworkFailure? ==> m == NETWORK_FAILED
    ensures outcome.HttpError? && outcome.errorField != "" ==> m == outcome.errorField
    ensures outcome.HttpError? && outcome.errorField == "" ==>
      m == "Scan failed (" + Text.Decimal(outcome.status) + "). Please try again."
    ensures outcome.MalformedBody? ==> m == outcome.message
  {
    match outcome
    case NetworkFailure => NETWORK_FAILED
    case HttpError(status, e) =>
      if e != "" then e else "Scan failed (" + Text.Decimal(status) + "). Please try again."
    case MalformedBody(message) => message
  }

  /** `error.message || 'Failed to scan. Please try again.'`: the page
      always shows a non-empty message after a failed scan. */
  function ScanErrorText(outcome: FetchOutcome): (m: string)
    requires !outcome.Received?
    ensures m != ""
    ensures ThrownMessage(outcome) != "" ==> m == ThrownMessage(outcome)
    ensures outcome.MalformedBody? && outcome.message == "" ==> m == SCAN_FAILED
  {
    var thrown := ThrownMessage(outcome);
    if thrown != "" then thrown else SCAN_FAILED
  }

  /** The report's file name: `malware-scan-report-<file name or 'url'>-<ISO time>.txt`. */
  function ReportFileName(file: Option<FileInfo>, isoNow: string): (name: string)
    ensures |name| >= 24 && name[..20] == "malware-scan-report-" && name[|name| - 4..] == ".txt"
    ensures file.None? ==> name == "malware-scan-report-url-" + isoNow + ".txt"
    ensures file.Some? ==> name == "malware-scan-report-" + file.value.name + "-" + isoNow + ".txt"
  {
    "malware-scan-report-" + (if file.Some? then file.value.name else "url") + "-" + isoNow + ".txt"
  }

  class Page {
    var file: Option<FileInfo>
    var url: string
    var loading: bool
    var error: string
    var progress: string
    var scanResults: Option<ScanResult>
    var lastScanResults: Option<ScanResult>

    /** The page never holds a file and a URL at once (an empty URL is no URL). */
    ghost predicate Valid()
      reads this
    {
      file.None? || url == ""
    }

    /** A freshly mounted page; the cache slot keeps what an earlier visit stored. */
    constructor(stored: Option<ScanResult>)
      ensures Valid()
      ensures file == None && url == "" && !loading && error == "" && progress == "" && scanResults == None
      ensures lastScanResults == stored
    {
      file := None;
      url := "";
      loading := false;
      error := "";
      progress := "";
      scanResults := None;
      lastScanResults := stored;
    }

    /** `handleFileUpload`: clears the error, the results and the URL; keeps
        the picked file if it passes `validateFile`, drops any file and shows
        the message if it does not, and keeps the old file when nothing was
        picked. */
    method HandleFileUpload(selected: Option<FileInfo>)
      modifies this
      ensures Valid()
      ensures url == "" && scanResults == None
      ensures selected.None? ==> file == old(file) && error == ""
      ensures selected.Some? && ValidateFile(selected) == Accepted ==> file == selected && error == ""
      ensures selected.Some? && ValidateFile(selected).Rejected? ==>
        file == None && error == ValidateFile(selected).message
      ensures loading == old(loading) && progress == old(progress) && lastScanResults == old(lastScanResults)
    {
      error := "";
      scanResults := None;
      url := "";
      if selected.Some? {
        var check := ValidateFile(selected);
        if check == Accepted {
          file := selected;
        } else {
          error := check.message;
          file := None;
        }
      }
    }

    /** `handleUrlChange`: takes the typed URL and drops any file, error and result. */
    method HandleUrlChange(value: string)
      modifies this
      ensures Valid()
      ensures url == value && file == None && error == "" && scanResults == None
      ensures loading == old(loading) && progress == old(progress) && lastScanResults == old(lastScanResults)
    {
      url := value;
      file := None;
      error := "";
      scanResults := None;
    }

    /** `handleScan`. With neither a file nor a URL only the error changes.
        Otherwise it sends the file if there is one and the URL if not, and
        on either outcome ends with `loading` false and `progress` empty; a
        received result is shown and cached, a failure shows its message. */
    method HandleScan(outcome: FetchOutcome) returns (sent: Option<Request>)
      requires Valid()
      modifies this
      ensures Valid()
      ensures file == old(file) && url == old(url)
      ensures old(file).None? && old(url) == "" ==>
        sent == None && error == NOTHING_TO_SCAN
        && loading == old(loading) && progress == old(progress)
        && scanResults == old(scanResults) && lastScanResults == old(lastScanResults)
      ensures old(file).Some? ==> sent == Some(UploadFile(old(file).value))
      ensures old(file).None? && old(url) != "" ==> sent == Some(SubmitUrl(old(url)))
      ensures sent.Some? ==> !loading && progress == ""
      ensures sent.Some? && outcome.Received? ==>
        scanResults == Some(outcome.result) && lastScanResults == Some(outcome.result) && error == ""
      ensures sent.Some? && !outcome.Received? ==>
        scanResults == None && lastScanResults == old(lastScanResults) && error == ScanErrorText(outcome)
    {
      if file.None? && url == "" {
        error := NOTHING_TO_SCAN;
        return None;
      }
      loading := true;
      error := "";
      progress := ANALYZING;
      scanResults := None;
      if file.Some? {
        sent := Some(UploadFile(file.value));
      } else {
        sent := Some(SubmitUrl(url));
      }
      if outcome.Received? {
        scanResults := Some(outcome.result);
        lastScanResults := Some(outcome.result);
      } else {
        error := ScanErrorText(outcome);
      }
      loading := false;
      progress := "";
    }

    /** `handleReset`: clears the file, the URL, the result, the error and
        the progress text; `loading` and the cache slot are left alone. */
    method HandleReset()
      modifies this
      ensures Valid()
      ensures file == None && url == "" && scanResults == None && error == "" && progress == ""
      ensures loading == old(loading) && lastScanResults == old(lastScanResults)
    {
      file := None;
      url := "";
      scanResults := None;
      error := "";
      progress := "";
    }

    /** `handleDownloadReport`: nothing unless the page holds a file or a URL
        and a result; then the report text under its generated file name.
        `generated` and `isoNow` are the local and ISO renderings of the
        current time, `percent` the one-decimal number format. */
    method HandleDownloadReport(generated: string, isoNow: string, percent: real -> string)
      returns (download: Option<Download>)
      ensures download.Some? <==> (file.Some? || url != "") && scanResults.Some?
      ensures download.Some? ==> download.value.fileName == ReportFileName(file, isoNow)
      ensures download.Some? ==> download.value.contents == Report.GenerateReport(
        file, url, if file.Some? then Report.FileSource(file.value) else Report.UrlSource(url),
        scanResults.value, generated, percent)
    {
      if (file.None? && url == "") || scanResults.None? {
        return None;
      }
      var source := if file.Some? then Report.FileSource(file.value) else Report.UrlSource(url);
      var text := Report.GenerateReport(file, url, source, scanResults.value, generated, percent);
      download := Some(Download(ReportFileName(file, isoNow), text));
    }
  }

  /** A session the page allows: a file is scanned; the Reset button, shown
      once there is a result, clears it; a URL is then typed (its input is
      disabled while a file is held) and scanned, and what came back
      replaces the cached result. */
  method ScanFileThenUrl(f: FileInfo, first: ScanResult, typed: string, second: ScanResult)
    requires f.size <= MAX_FILE_SIZE && typed != ""
  {
    var page := new Page(None);
    page.HandleFileUpload(Some(f));
    var sent := page.HandleScan(Received(first));
    assert sent == Some(UploadFile(f)) && page.scanResults == Some(first);
    page.HandleReset();
    assert page.file == None && page.url == "" && page.lastScanResults == Some(first);
    page.HandleUrlChange(typed);
    sent := page.HandleScan(Received(second));
    assert sent == Some(SubmitUrl(typed));
    assert page.scanResults == Some(second) && page.lastScanResults == Some(second) && !page.loading;
  }
}
