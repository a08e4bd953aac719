/** The client helper of the first front end (Frontend/utils/api.js), kept
    as a commented-out block: `scanFile` posts the file without any check
    and returns the counts with defaults; `calculateRiskLevel` has no guard
    for an empty total. */
module LegacyApi {
  import opened ScanData
  import opened Risk
  import NextApi

  /** `calculateRiskLevel` without the zero guard: an empty total divides
      0 by 0, and the NaN shares fail every comparison, giving Low; in every
      other case it agrees with the guarded copy. */
  function CalculateRiskLevel(r: ScanResult): (level: RiskLevel)
    ensures level != Unknown
    ensures Total(r) == Some(0) ==> level == Low
    ensures Total(r) != Some(0) ==> level == NextApi.CalculateRiskLevel(r)
  {
    ShareTier(r)
  }

  /** The record `scanFile` returns. */
  datatype ScanSummary = ScanSummary(
    filename: string, malicious: nat, harmless: nat, suspicious: nat, undetected: nat,
    riskLevel: RiskLevel, timestamp: string)

  /** `scanFile`: whatever was thrown, the body's `error` or 'Scan failed'
      on a rejected response; on success the file's own name, each count
      or 0, and the risk level of the result as received. */
  function ScanFile(file: FileInfo, outcome: ApiOutcome, now: string): (r: Result<ScanSummary>)
    ensures r.Ok? <==> outcome.ApiAccepted?
    ensures outcome.ApiThrew? ==> r == Err(outcome.message)
    ensures outcome.ApiRejected? ==> r == Err(if outcome.errorField != "" then outcome.errorField else "Scan failed")
    ensures r.Ok? ==>
      var res := outcome.result;
      && r.value.filename == file.name && r.value.timestamp == now
      && r.value.malicious == res.malicious.GetOr(0) && r.value.harmless == res.harmless.GetOr(0)
      && r.value.suspicious == res.suspicious.GetOr(0) && r.value.undetected == res.undetected.GetOr(0)
      && r.value.riskLevel == CalculateRiskLevel(res)
  {
    match outcome
    case ApiThrew(message) => Err(message)
    case ApiRejected(e) => Err(if e != "" then e else "Scan failed")
    case ApiAccepted(res) =>
      Ok(ScanSummary(file.name, res.malicious.GetOr(0), res.harmless.GetOr(0), res.suspicious.GetOr(0),
                     res.undetected.GetOr(0), CalculateRiskLevel(res), now))
  }

  /** A result that lacks a count is reported with that count as 0 but
      rated from the raw result, whose NaN total makes it Low even when the
      counts that are there would rate it Critical. */
  lemma MissingCountRatesLow(file: FileInfo, now: string, m: nat)
    requires m > 0
    ensures var res := ScanResult(Some(m), None, Some(0), Some(0), None, None, None);
      var r := ScanFile(file, ApiAccepted(res), now);
      && r.Ok? && r.value.suspicious == 0 && r.value.malicious == m
      && r.value.riskLevel == Low
      && NextApi.CalculateRiskLevel(res.(suspicious := Some(0))) == Critical
  {
    var res := ScanResult(Some(m), None, Some(0), Some(0), None, None, None);
    assert Total(res.(suspicious := Some(0))) == Some(m);
  }
}
