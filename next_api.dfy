/** The client helper of the Next.js front end (frontend_next/utils/api.js):
    `scanFile` checks the file, posts it and fills in defaults for what the
    service left out; `calculateRiskLevel` guards the empty total;
    `calculateDetectionRatio` gives the detected share as a percentage.
    The helper is kept in the repository as a commented-out block. */
module NextApi {
  import opened ScanData
  import opened Risk
  import ScannerRules

  const ALLOWED_TYPES: seq<string> := ["application/x-msdownload", "application/pdf", "application/x-executable"]
  const TOO_LARGE := "File size must be less than 32MB"
  const BAD_TYPE := "Invalid file type. Only EXE, DLL, and PDF files are allowed."

  /** `calculateRiskLevel` with its zero guard: an empty total is Unknown, a
      missing count (NaN total) is Low, and otherwise the share tiers, which
      are the cross-multiplied thresholds. */
  function CalculateRiskLevel(r: ScanResult): (level: RiskLevel)
    ensures level == Unknown <==> Total(r) == Some(0)
    ensures Total(r).None? ==> level == Low
    ensures Total(r).Some? && Total(r).value > 0 ==>
      level == CountTier(r.malicious.value, r.suspicious.value, Total(r).value)
  {
    if Total(r) == Some(0) then Unknown
    else if Total(r).Some? then
      ShareTierMatchesCounts(r);
      ShareTier(r)
    else ShareTier(r)
  }

  /** The four tiers for a positive total, each stated on whole numbers. */
  lemma RiskLevelThresholds(r: ScanResult)
    requires Total(r).Some? && Total(r).value > 0
    ensures var m, s, t := r.malicious.value, r.suspicious.value, Total(r).value;
      && (CalculateRiskLevel(r) == Critical <==> 10 * m >= 3 * t)
      && (CalculateRiskLevel(r) == High <==> 10 * m < 3 * t && (10 * m >= t || 10 * s >= 3 * t))
      && (CalculateRiskLevel(r) == Medium <==> 10 * m < t && 10 * s < 3 * t && (m > 0 || 10 * s >= t))
      && (CalculateRiskLevel(r) == Low <==> m == 0 && 10 * s < t)
  {
  }

  /** A share of a positive total lies in [0, 1] and is 1 exactly for the whole. */
  lemma ShareAtMostOne(part: nat, total: nat)
    requires 0 < total && part <= total
    ensures 0.0 <= part as real / total as real <= 1.0
    ensures part as real / total as real == 1.0 <==> part == total
  {
    var q, p, t := part as real / total as real, part as real, total as real;
    assert q * t == p;
    assert (1.0 - q) * t == t - p;
    assert q >= 0.0 by { assert q * t >= 0.0; }
    assert q <= 1.0 by { assert (1.0 - q) * t >= 0.0; }
  }

  /** `calculateDetectionRatio`: malicious plus suspicious as a percentage
      of the total, 0 when the total is zero or NaN. */
  function CalculateDetectionRatio(r: ScanResult): (pct: real)
    ensures 0.0 <= pct <= 100.0
    ensures Total(r).None? || Total(r) == Some(0) ==> pct == 0.0
    ensures Total(r).Some? && Total(r).value > 0 ==>
      (pct == 100.0 <==> r.harmless.value + r.undetected.value == 0)
    ensures Total(r).Some? && Total(r).value > 0 ==>
      pct * (Total(r).value as real) == 100.0 * ((r.malicious.value + r.suspicious.value) as real)
  {
    var total := Total(r);
    if total.Some? && total.value > 0 then
      var detected := r.malicious.value + r.suspicious.value;
      var t := total.value as real;
      ShareAtMostOne(detected, total.value);
      (detected as real / t) * 100.0
    else 0.0
  }

  /** The record `scanFile` returns. */
  datatype ScanSummary = ScanSummary(
    filename: string, fileSize: string, fileType: string,
    malicious: nat, harmless: nat, suspicious: nat, undetected: nat,
    classification: Classification, behaviors: seq<Behavior>,
    riskLevel: RiskLevel, timestamp: string, sha256: string, detectionRatio: real)

  /** `scanFile`. The size is checked before the type; a rejected response
      reports the body's `error` or 'Scan failed'; on success every missing
      field gets its default, while the risk level and the ratio are taken
      from the result as received. `formatFileSize` and `now` stand for the
      size formatter and the clock. */
  function ScanFile(file: FileInfo, outcome: ApiOutcome, formatFileSize: nat -> string, now: string)
    : (r: Result<ScanSummary>)
    ensures file.size > MAX_FILE_SIZE ==> r == Err(TOO_LARGE)
    ensures file.size <= MAX_FILE_SIZE && file.mimeType !in ALLOWED_TYPES ==> r == Err(BAD_TYPE)
    ensures r.Ok? <==> file.size <= MAX_FILE_SIZE && file.mimeType in ALLOWED_TYPES && outcome.ApiAccepted?
    ensures file.size <= MAX_FILE_SIZE && file.mimeType in ALLOWED_TYPES && outcome.ApiThrew? ==>
      r == Err(outcome.message)
    ensures file.size <= MAX_FILE_SIZE && file.mimeType in ALLOWED_TYPES && outcome.ApiRejected? ==>
      r == Err(if outcome.errorField != "" then outcome.errorField else "Scan failed")
    ensures r.Ok? ==>
      var res := outcome.result;
      && r.value.filename == file.name && r.value.fileType == file.mimeType
      && r.value.malicious == res.malicious.GetOr(0) && r.value.harmless == res.harmless.GetOr(0)
      && r.value.suspicious == res.suspicious.GetOr(0) && r.value.undetected == res.undetected.GetOr(0)
      && r.value.classification == res.classification.GetOr(Classification("Unknown", 0.0))
      && r.value.behaviors == res.behaviors.GetOr([])
      && r.value.sha256 == res.sha256.GetOr("")
      && r.value.riskLevel == CalculateRiskLevel(res)
      && r.value.fileSize == formatFileSize(file.size) && r.value.timestamp == now
      && r.value.detectionRatio == CalculateDetectionRatio(res)
      && 0.0 <= r.value.detectionRatio <= 100.0
  {
    if file.size > MAX_FILE_SIZE then Err(TOO_LARGE)
    else if file.mimeType !in ALLOWED_TYPES then Err(BAD_TYPE)
    else
      match outcome
      case ApiThrew(message) => Err(message)
      case ApiRejected(e) => Err(if e != "" then e else "Scan failed")
      case ApiAccepted(res) =>
        Ok(ScanSummary(
          file.name, formatFileSize(file.size), file.mimeType,
          res.malicious.GetOr(0), res.harmless.GetOr(0), res.suspicious.GetOr(0), res.undetected.GetOr(0),
          res.classification.GetOr(Classification("Unknown", 0.0)), res.behaviors.GetOr([]),
          CalculateRiskLevel(res), now, res.sha256.GetOr(""), CalculateDetectionRatio(res)))
  }

  /** An empty answer comes back with every default filled in, yet its risk
      level is Low and not the Unknown that zero counts would give: the
      level is computed from the missing counts, whose sum is NaN. */
  lemma EmptyAnswerDefaults(file: FileInfo, formatFileSize: nat -> string, now: string)
    requires file.size <= MAX_FILE_SIZE && file.mimeType in ALLOWED_TYPES
    ensures var empty := ScanResult(None, None, None, None, None, None, None);
      var r := ScanFile(file, ApiAccepted(empty), formatFileSize, now);
      && r.Ok?
      && r.value.malicious == r.value.harmless == r.value.suspicious == r.value.undetected == 0
      && r.value.classification == Classification("Unknown", 0.0)
      && r.value.behaviors == [] && r.value.sha256 == ""
      && r.value.riskLevel == Low && r.value.detectionRatio == 0.0
      && CalculateRiskLevel(ScanResult(Some(0), Some(0), Some(0), Some(0), None, None, None)) == Unknown
  {
  }

  /** The two threat schemes of the front end disagree: one malicious
      detection in a thousand is Critical for the page's badge but only
      Medium here. A Critical tier here always means a Critical badge, and
      a Safe badge means no tier above Low. */
  lemma SchemesCompared(r: ScanResult)
    ensures CalculateRiskLevel(r) == Critical ==> ScannerRules.GetThreatLevel(Some(r)) == ScannerRules.Critical
    ensures ScannerRules.GetThreatLevel(Some(r)) == ScannerRules.Safe && Total(r).Some? ==>
      CalculateRiskLevel(r) in {Unknown, Low}
    ensures var one := ScanResult(Some(1), Some(0), Some(999), Some(0), None, None, None);
      ScannerRules.GetThreatLevel(Some(one)) == ScannerRules.Critical && CalculateRiskLevel(one) == Medium
  {
    var one := ScanResult(Some(1), Some(0), Some(999), Some(0), None, None, None);
    assert Total(one) == Some(1000);
  }
}
