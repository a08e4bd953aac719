/** The plain-text report the scanner page offers for download
    (`generateReport`). The text has a fixed layout; the only parts that
    vary are the page's file or URL, the scan result, the local time the
    report was generated and the one-decimal percentage rendering of the
    confidence, both of which come from the JavaScript runtime and are
    parameters here. */
module Report {
  import opened ScanData
  import opened ScannerRules
  import Text

  const RULE := "----------------------------------------"
  const NO_BEHAVIORS := "No behavioral analysis data available"

  /** The argument the page passes as `source` (`file || url`). */
  datatype Source = FileSource(file: FileInfo) | UrlSource(url: string)

  /** `Math.round(size / 1024)`: the nearest whole number of KiB, a half
      rounding up. */
  function RoundKb(size: nat): (kb: nat)
    ensures 1024 * kb <= size + 512 < 1024 * kb + 1024
  {
    (size + 512) / 1024
  }

  /** How a template literal renders a count that may be missing. */
  function ShowCount(c: Option<nat>): (s: string)
    ensures c.None? ==> s == "undefined"
    ensures c.Some? ==> Text.IsDigits(s) && Text.ParseDecimal(s) == c.value
    ensures c.Some? ==> |s| > 0 && (|s| == 1 || s[0] != '0')
  {
    match c
    case None => "undefined"
    case Some(n) => Text.DecimalRoundTrip(n); Text.Decimal(n)
  }

  /** How a template literal renders a string that may be missing. */
  function ShowText(t: Option<string>): string
  {
    t.GetOr("undefined")
  }

  /** The source lines: file name and rounded size when the page holds a
      file, the URL otherwise. */
  function SourceLines(file: Option<FileInfo>, url: string): string
  {
    if file.Some? then "Filename: " + file.value.name + "\nSize: " + Text.Decimal(RoundKb(file.value.size)) + "KB"
    else "URL: " + url
  }

  /** `classification?.type || 'N/A'`: a missing classification or an empty type reads N/A. */
  function TypeText(c: Option<Classification>): (s: string)
    ensures s == "N/A" <==> c.None? || c.value.kind == "" || c.value.kind == "N/A"
    ensures s != "N/A" ==> s == c.value.kind
  {
    if c.Some? && c.value.kind != "" then c.value.kind else "N/A"
  }

  /** The confidence as a percentage with a '%' sign, or N/A without a classification. */
  function ConfidenceText(c: Option<Classification>, percent: real -> string): (s: string)
    ensures c.None? <==> s == "N/A"
    ensures c.Some? ==> s == percent(c.value.confidence * 100.0) + "%"
  {
    if c.Some? then
      var digits := percent(c.value.confidence * 100.0);
      var s := digits + "%";
      assert s[|s| - 1] == '%' && "N/A"[2] == 'A';
      s
    else "N/A"
  }

  /** The text block written for one behaviour. */
  function BehaviorBlock(b: Behavior): string
  {
    "\n  Type: " + b.kind + "\n  Severity: " + b.severity + "\n  Description: " + b.description + "\n  "
  }

  /** `behaviors.map(block).join('\n')`. */
  function JoinBlocks(bs: seq<Behavior>): (s: string)
    ensures bs == [] <==> s == ""
    ensures bs != [] ==> s[0] == '\n'
    ensures forall i :: 0 <= i < |bs| ==> Text.Contains(s, BehaviorBlock(bs[i]))
  {
    if bs == [] then ""
    else if |bs| == 1 then
      Text.ContainsMiddle("", BehaviorBlock(bs[0]), "");
      assert "" + BehaviorBlock(bs[0]) + "" == BehaviorBlock(bs[0]);
      BehaviorBlock(bs[0])
    else
      var head := BehaviorBlock(bs[0]);
      var tail := JoinBlocks(bs[1..]);
      var s := head + "\n" + tail;
      Text.ContainsMiddle("", head, "\n" + tail);
      assert "" + head + ("\n" + tail) == s;
      forall i | 1 <= i < |bs|
        ensures Text.Contains(s, BehaviorBlock(bs[i]))
      {
        assert bs[1..][i - 1] == bs[i];
        Text.ContainsAfterPrefix(head + "\n", tail, BehaviorBlock(bs[i]));
      }
      s
  }

  /** The behavioural-analysis body: the joined blocks, or the placeholder
      when the list is missing or empty (`… || 'No behavioral …'`). */
  function BehaviorSection(bs: Option<seq<Behavior>>): (s: string)
    ensures s == NO_BEHAVIORS <==> bs.None? || bs.value == []
    ensures bs.Some? ==> forall i :: 0 <= i < |bs.value| ==> Text.Contains(s, BehaviorBlock(bs.value[i]))
  {
    match bs
    case None => NO_BEHAVIORS
    case Some(xs) =>
      var joined := JoinBlocks(xs);
      if joined != "" then joined else NO_BEHAVIORS
  }

  /** Report lines before the source information. */
  function Header(generated: string): string
  {
    "\n  MALWARE SCAN REPORT\n  Generated: " + generated + "\n  " + RULE
    + "\n  \n  SOURCE INFORMATION\n  " + RULE + "\n  "
  }

  /** The digest and the threat level. */
  function DigestLines(results: ScanResult): string
  {
    "SHA-256: " + ShowText(results.sha256) + "\n  Threat Level: " + GetThreatLevel(Some(results)).Label()
  }

  /** The four raw counts. */
  function CountLines(results: ScanResult): string
  {
    "\n  \n  SCAN STATISTICS\n  " + RULE
    + "\n  Malicious Detections: " + ShowCount(results.malicious)
    + "\n  Suspicious Detections: " + ShowCount(results.suspicious)
    + "\n  Harmless Detections: " + ShowCount(results.harmless)
    + "\n  Undetected: " + ShowCount(results.undetected)
  }

  /** Digest, threat level and counts, after the source lines. */
  function Statistics(results: ScanResult): string
  {
    "\n  " + DigestLines(results) + CountLines(results)
  }

  const CLASSIFICATION_HEADING := "\n  \n  CLASSIFICATION\n  " + RULE + "\n  "
  const BEHAVIOR_HEADING := "\n  \n  BEHAVIORAL ANALYSIS\n  " + RULE + "\n  "

  /** The type and confidence lines. */
  function ClassificationBody(c: Option<Classification>, percent: real -> string): string
  {
    "Type: " + TypeText(c) + "\n  Confidence: " + ConfidenceText(c, percent)
  }

  /** The classification lines and the heading of the behaviour section. */
  function ClassificationLines(c: Option<Classification>, percent: real -> string): string
  {
    CLASSIFICATION_HEADING + ClassificationBody(c, percent) + BEHAVIOR_HEADING
  }

  const FOOTER := "\n  \n  " + RULE + "\n  Report End\n  "

  /** `generateReport(source, scanResults)`. The source information comes
      from the page's own `file` and `url`, not from `source`. */
  function GenerateReport(file: Option<FileInfo>, url: string, source: Source, results: ScanResult,
                          generated: string, percent: real -> string): (report: string)
    ensures |report| >= |Header(generated)| + |FOOTER|
    ensures report[..|Header(generated)|] == Header(generated)
    ensures report[|report| - |FOOTER|..] == FOOTER
  {
    var h, src, st, cl, bh := Header(generated), SourceLines(file, url), Statistics(results),
      ClassificationLines(results.classification, percent), BehaviorSection(results.behaviors);
    Text.FramedBy(h, src, st, cl, bh, FOOTER);
    h + src + st + cl + bh + FOOTER
  }

  /** Whatever `source` says, the report is the same. */
  lemma ReportIgnoresSource(file: Option<FileInfo>, url: string, s1: Source, s2: Source, results: ScanResult,
                            generated: string, percent: real -> string)
    ensures GenerateReport(file, url, s1, results, generated, percent)
         == GenerateReport(file, url, s2, results, generated, percent)
  {
  }

  /** Lifts an occurrence in one of the report's five middle parts to the whole report. */
  lemma ReportContainsPart(h: string, src: string, st: string, cl: string, bh: string, needle: string)
    requires Text.Contains(src, needle) || Text.Contains(st, needle)
          || Text.Contains(cl, needle) || Text.Contains(bh, needle)
    ensures Text.Contains(h + src + st + cl + bh + FOOTER, needle)
  {
    if Text.Contains(src, needle) {
      Text.ContainsAfterPrefix(h, src, needle);
      Text.ContainsBeforeSuffix(h + src, st, needle);
    } else if Text.Contains(st, needle) {
      Text.ContainsAfterPrefix(h + src, st, needle);
    }
    if Text.Contains(h + src + st, needle) {
      Text.ContainsBeforeSuffix(h + src + st, cl, needle);
    } else if Text.Contains(cl, needle) {
      Text.ContainsAfterPrefix(h + src + st, cl, needle);
    }
    if Text.Contains(h + src + st + cl, needle) {
      Text.ContainsBeforeSuffix(h + src + st + cl, bh, needle);
    } else {
      Text.ContainsAfterPrefix(h + src + st + cl, bh, needle);
    }
    Text.ContainsBeforeSuffix(h + src + st + cl + bh, FOOTER, needle);
  }

  /** With a file on the page the report names it and gives its size in
      rounded KiB; without one it gives the URL. */
  lemma {:induction false} ReportSourceInformation(file: Option<FileInfo>, url: string, source: Source, results: ScanResult,
                                 generated: string, percent: real -> string)
    ensures file.Some? ==> Text.Contains(GenerateReport(file, url, source, results, generated, percent),
                              "Filename: " + file.value.name + "\nSize: " + Text.Decimal((file.value.size + 512) / 1024) + "KB")
    ensures file.None? ==> Text.Contains(GenerateReport(file, url, source, results, generated, percent), "URL: " + url)
  {
    var src := SourceLines(file, url);
    Text.ContainsMiddle("", src, "");
    assert "" + src + "" == src;
    ReportContainsPart(Header(generated), src, Statistics(results),
      ClassificationLines(results.classification, percent), BehaviorSection(results.behaviors), src);
  }

  /** The digest with the computed threat level, and the four count lines,
      appear in the report. */
  lemma ReportStatistics(file: Option<FileInfo>, url: string, source: Source, results: ScanResult,
                         generated: string, percent: real -> string)
    ensures Text.Contains(GenerateReport(file, url, source, results, generated, percent),
      "SHA-256: " + ShowText(results.sha256) + "\n  Threat Level: " + GetThreatLevel(Some(results)).Label())
    ensures Text.Contains(GenerateReport(file, url, source, results, generated, percent), CountLines(results))
  {
    var h, src, st, cl, bh := Header(generated), SourceLines(file, url), Statistics(results),
      ClassificationLines(results.classification, percent), BehaviorSection(results.behaviors);
    Text.ContainsMiddle("\n  ", DigestLines(results), CountLines(results));
    ReportContainsPart(h, src, st, cl, bh, DigestLines(results));
    Text.ContainsMiddle("\n  " + DigestLines(results), CountLines(results), "");
    assert "\n  " + DigestLines(results) + CountLines(results) + "" == st;
    ReportContainsPart(h, src, st, cl, bh, CountLines(results));
  }

  /** A missing or empty behaviour list gives exactly the placeholder in the
      behaviour section, and the report shows it; otherwise every behaviour's
      block appears in the report and the placeholder section does not. */
  lemma {:induction false} ReportBehaviors(file: Option<FileInfo>, url: string, source: Source, results: ScanResult,
                         generated: string, percent: real -> string)
    ensures results.behaviors.None? || results.behaviors.value == [] ==>
      BehaviorSection(results.behaviors) == NO_BEHAVIORS
      && Text.Contains(GenerateReport(file, url, source, results, generated, percent), NO_BEHAVIORS)
    ensures results.behaviors.Some? && results.behaviors.value != [] ==>
      BehaviorSection(results.behaviors) != NO_BEHAVIORS
    ensures results.behaviors.Some? ==> forall i :: 0 <= i < |results.behaviors.value| ==>
      Text.Contains(GenerateReport(file, url, source, results, generated, percent), BehaviorBlock(results.behaviors.value[i]))
  {
    var h, src, st, cl, bh := Header(generated), SourceLines(file, url), Statistics(results),
      ClassificationLines(results.classification, percent), BehaviorSection(results.behaviors);
    if results.behaviors.None? || results.behaviors.value == [] {
      Text.ContainsMiddle("", bh, "");
      assert "" + bh + "" == bh;
      ReportContainsPart(h, src, st, cl, bh, NO_BEHAVIORS);
    } else {
      forall i | 0 <= i < |results.behaviors.value|
        ensures Text.Contains(GenerateReport(file, url, source, results, generated, percent), BehaviorBlock(results.behaviors.value[i]))
      {
        ReportContainsPart(h, src, st, cl, bh, BehaviorBlock(results.behaviors.value[i]));
      }
    }
  }

  /** The classification lines read N/A for the type when there is no
      classification or its type is empty, and N/A for the confidence when
      there is no classification. */
  lemma ClassificationBodyNA(c: Option<Classification>, percent: real -> string)
    ensures c.None? ==> ClassificationBody(c, percent) == "Type: N/A\n  Confidence: N/A"
    ensures c.Some? && c.value.kind == "" ==>
      ClassificationBody(c, percent) == "Type: N/A\n  Confidence: " + percent(c.value.confidence * 100.0) + "%"
  {
    if c.Some? {
      var p := percent(c.value.confidence * 100.0);
      assert "Type: " + "N/A" + "\n  Confidence: " + (p + "%") == "Type: N/A\n  Confidence: " + p + "%";
    }
  }

  /** The type and confidence lines appear in the report. */
  lemma ReportContainsClassification(file: Option<FileInfo>, url: string, source: Source, results: ScanResult,
                                     generated: string, percent: real -> string)
    ensures Text.Contains(GenerateReport(file, url, source, results, generated, percent),
                          ClassificationBody(results.classification, percent))
  {
    var needle := ClassificationBody(results.classification, percent);
    Text.ContainsMiddle(CLASSIFICATION_HEADING, needle, BEHAVIOR_HEADING);
    ReportContainsPart(Header(generated), SourceLines(file, url), Statistics(results),
      ClassificationLines(results.classification, percent), BehaviorSection(results.behaviors), needle);
  }

  /** Without a classification both the type and the confidence read N/A in
      the report; with an empty type only the type does. */
  lemma {:induction false} ReportClassification(file: Option<FileInfo>, url: string, source: Source, results: ScanResult,
                              generated: string, percent: real -> string)
    ensures results.classification.None? ==>
      Text.Contains(GenerateReport(file, url, source, results, generated, percent), "Type: N/A\n  Confidence: N/A")
    ensures results.classification.Some? && results.classification.value.kind == "" ==>
      Text.Contains(GenerateReport(file, url, source, results, generated, percent),
        "Type: N/A\n  Confidence: " + percent(results.classification.value.confidence * 100.0) + "%")
  {
    ReportContainsClassification(file, url, source, results, generated, percent);
    ClassificationBodyNA(results.classification, percent);
  }

  /** The source lines of the worked example below. */
  lemma SampleSourceLines()
    ensures SourceLines(Some(FileInfo("sample.exe", 2048, "application/x-msdownload")), "")
            == "Filename: sample.exe\nSize: 2KB"
  {
    assert RoundKb(2048) == 2;
    assert Text.Decimal(2) == "2";
    assert "Filename: " + "sample.exe" + "\nSize: " + "2" + "KB" == "Filename: sample.exe\nSize: 2KB";
  }

  /** The digest and threat level lines of the worked example below. */
  lemma SampleDigestLines()
    ensures DigestLines(ScanResult(Some(2), Some(0), Some(68), Some(0), Some(Classification("Trojan", 0.92)), Some([]), Some("abc123")))
            == "SHA-256: abc123\n  Threat Level: Critical"
  {
    var r := ScanResult(Some(2), Some(0), Some(68), Some(0), Some(Classification("Trojan", 0.92)), Some([]), Some("abc123"));
    assert GetThreatLevel(Some(r)) == Critical;
    assert "SHA-256: " + "abc123" + "\n  Threat Level: " + "Critical" == "SHA-256: abc123\n  Threat Level: Critical";
  }

  /** The classification lines of the worked example below. */
  lemma SampleClassificationBody(percent: real -> string)
    requires percent(92.0) == "92.0"
    ensures ClassificationBody(Some(Classification("Trojan", 0.92)), percent) == "Type: Trojan\n  Confidence: 92.0%"
  {
    assert 0.92 * 100.0 == 92.0;
    assert "Type: " + "Trojan" + "\n  Confidence: " + ("92.0" + "%") == "Type: Trojan\n  Confidence: 92.0%";
  }

  /** A 2048-byte sample.exe with two malicious detections, a Trojan
      classification at 0.92 and an empty behaviour list: the report gives
      its size as 2KB, rates it Critical, shows 92.0% and the placeholder. */
  lemma SampleReport(percent: real -> string, generated: string)
    requires percent(92.0) == "92.0"
    ensures var report := GenerateReport(
              Some(FileInfo("sample.exe", 2048, "application/x-msdownload")), "",
              FileSource(FileInfo("sample.exe", 2048, "application/x-msdownload")),
              ScanResult(Some(2), Some(0), Some(68), Some(0), Some(Classification("Trojan", 0.92)), Some([]), Some("abc123")),
              generated, percent);
            Text.Contains(report, "Filename: sample.exe\nSize: 2KB")
            && Text.Contains(report, "SHA-256: abc123\n  Threat Level: Critical")
            && Text.Contains(report, "Type: Trojan\n  Confidence: 92.0%")
            && Text.Contains(report, NO_BEHAVIORS)
  {
    var f := FileInfo("sample.exe", 2048, "application/x-msdownload");
    var r := ScanResult(Some(2), Some(0), Some(68), Some(0), Some(Classification("Trojan", 0.92)), Some([]), Some("abc123"));
    SampleSourceLines();
    SampleDigestLines();
    SampleClassificationBody(percent);
    ReportSourceInformation(Some(f), "", FileSource(f), r, generated, percent);
    ReportBehaviors(Some(f), "", FileSource(f), r, generated, percent);
    var h, src, st, cl, bh := Header(generated), SourceLines(Some(f), ""), Statistics(r),
      ClassificationLines(r.classification, percent), BehaviorSection(r.behaviors);
    Text.ContainsMiddle("\n  ", DigestLines(r), CountLines(r));
    ReportContainsPart(h, src, st, cl, bh, DigestLines(r));
    Text.ContainsMiddle(CLASSIFICATION_HEADING, ClassificationBody(r.classification, percent), BEHAVIOR_HEADING);
    ReportContainsPart(h, src, st, cl, bh, ClassificationBody(r.classification, percent));
  }
}
