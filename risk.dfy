/** The ratio-based risk tiers shared by both client helpers
    (`calculateRiskLevel` in frontend_next/utils/api.js and in
    Frontend/utils/api.js). Both compute the share of malicious and of
    suspicious detections in floating point and compare it with fixed
    bounds; the shares are exact rationals here, and a missing count makes
    the sum NaN, on which every comparison is false. */
module Risk {
  import opened ScanData

  datatype RiskLevel = Unknown | Low | Medium | High | Critical

  /** Order of the tiers that rate a result: Low up to Critical. */
  function Severity(level: RiskLevel): nat
  {
    match level
    case Unknown => 0
    case Low => 0
    case Medium => 1
    case High => 2
    case Critical => 3
  }

  /** A JavaScript number as these helpers can produce it. */
  datatype JsNumber = Finite(value: real) | NaN

  /** `x >= bound`; false for NaN. */
  predicate AtLeast(x: JsNumber, bound: real)
  {
    x.Finite? && x.value >= bound
  }

  /** `x > bound`; false for NaN. */
  predicate Exceeds(x: JsNumber, bound: real)
  {
    x.Finite? && x.value > bound
  }

  /** `malicious + harmless + suspicious + undetected`; `undefined + n` is
      NaN, so the sum exists only when all four counts do. */
  function Total(r: ScanResult): (t: Option<nat>)
    ensures t.Some? <==> r.malicious.Some? && r.harmless.Some? && r.suspicious.Some? && r.undetected.Some?
    ensures t.Some? ==> t.value == r.malicious.value + r.harmless.value + r.suspicious.value + r.undetected.value
    ensures t.Some? ==> t.value >= r.malicious.value && t.value >= r.suspicious.value
                        && t.value >= r.harmless.value && t.value >= r.undetected.value
    ensures t == Some(0) ==> r.malicious == Some(0) && r.suspicious == Some(0)
  {
    if r.malicious.Some? && r.harmless.Some? && r.suspicious.Some? && r.undetected.Some? then
      Some(r.malicious.value + r.harmless.value + r.suspicious.value + r.undetected.value)
    else None
  }

  /** `count / total` for one of the counts in the total: NaN when the total
      is NaN, and `0 / 0`, also NaN, when it is zero. */
  function Share(count: Option<nat>, total: Option<nat>): (x: JsNumber)
    ensures x.Finite? <==> count.Some? && total.Some? && total.value > 0
  {
    if count.Some? && total.Some? && total.value > 0 then Finite(count.value as real / total.value as real)
    else NaN
  }

  /** The thresholds both copies apply to the two shares. */
  function TierFromShares(maliciousShare: JsNumber, suspiciousShare: JsNumber): (level: RiskLevel)
    ensures level != Unknown
    ensures level == Critical <==> AtLeast(maliciousShare, 0.3)
    ensures maliciousShare.NaN? && suspiciousShare.NaN? ==> level == Low
  {
    if AtLeast(maliciousShare, 0.3) then Critical
    else if AtLeast(maliciousShare, 0.1) || AtLeast(suspiciousShare, 0.3) then High
    else if Exceeds(maliciousShare, 0.0) || AtLeast(suspiciousShare, 0.1) then Medium
    else Low
  }

  /** The tier the shares of a result give. */
  function ShareTier(r: ScanResult): (level: RiskLevel)
    ensures level != Unknown
    ensures Total(r).None? ==> level == Low
  {
    TierFromShares(Share(r.malicious, Total(r)), Share(r.suspicious, Total(r)))
  }

  /** The same thresholds on whole numbers, cross-multiplied: the reference
      the share-based tiers are checked against. */
  function CountTier(m: nat, s: nat, t: nat): (level: RiskLevel)
    requires t > 0
    ensures level != Unknown
    ensures m > 0 ==> level != Low
  {
    if 10 * m >= 3 * t then Critical
    else if 10 * m >= t || 10 * s >= 3 * t then High
    else if m > 0 || 10 * s >= t then Medium
    else Low
  }

  /** For a positive total, `count / total >= k / 10` exactly when `10 * count >= k * total`. */
  lemma ShareAtLeast(count: nat, total: nat, k: nat)
    requires total > 0
    ensures count as real / total as real >= k as real / 10.0 <==> 10 * count >= k * total
  {
    var q := count as real / total as real;
    var t := total as real;
    assert q * t == count as real;
    if 10 * count >= k * total {
      assert 10.0 * q * t >= k as real * t;
    } else {
      assert 10.0 * q * t < k as real * t;
    }
  }

  /** With every count present and a positive total, the share thresholds
      agree with the whole-number reference. */
  lemma {:induction false} ShareTierMatchesCounts(r: ScanResult)
    requires Total(r).Some? && Total(r).value > 0
    ensures ShareTier(r) == CountTier(r.malicious.value, r.suspicious.value, Total(r).value)
  {
    var m, s, t := r.malicious.value, r.suspicious.value, Total(r).value;
    ShareAtLeast(m, t, 3);
    ShareAtLeast(m, t, 1);
    ShareAtLeast(s, t, 3);
    ShareAtLeast(s, t, 1);
    assert 3 as real / 10.0 == 0.3 && 1 as real / 10.0 == 0.1;
    assert m > 0 <==> m as real / t as real > 0.0;
  }

  /** Without a total to divide by every comparison is false, so the tier is Low. */
  lemma NaNSharesAreLow(r: ScanResult)
    requires Total(r).None? || Total(r) == Some(0)
    ensures ShareTier(r) == Low
  {
  }

  /** More malicious detections out of the same total never lower the tier. */
  lemma CountTierMonotone(m1: nat, m2: nat, s: nat, t: nat)
    requires t > 0 && m1 <= m2
    ensures Severity(CountTier(m1, s, t)) <= Severity(CountTier(m2, s, t))
  {
  }
}
