/** The pure helpers of the scanner page: the coarse threat level shown as a
    badge, the colour bands for the classifier's confidence and for a
    behaviour's severity, and the client-side file check. */
module ScannerRules {
  import opened ScanData
  import Text

  datatype ThreatLevel = Unknown | Safe | Warning | Critical
  {
    function Label(): string
    {
      match this
      case Unknown => "Unknown"
      case Safe => "Safe"
      case Warning => "Warning"
      case Critical => "Critical"
    }
  }

  /** True when a count is present and positive (`undefined > 0` is false). */
  predicate Positive(c: Option<nat>)
  {
    c.Some? && c.value > 0
  }

  /** `getThreatLevel`: no result is Unknown; any malicious detection is
      Critical whatever the other counts; otherwise any suspicious one is a
      Warning; otherwise Safe. */
  function GetThreatLevel(results: Option<ScanResult>): (t: ThreatLevel)
    ensures t == Unknown <==> results.None?
    ensures t == Critical <==> results.Some? && Positive(results.value.malicious)
    ensures t == Warning <==> results.Some? && !Positive(results.value.malicious)
                              && Positive(results.value.suspicious)
    ensures t == Safe <==> results.Some? && !Positive(results.value.malicious)
                           && !Positive(results.value.suspicious)
  {
    if results.None? then Unknown
    else if Positive(results.value.malicious) then Critical
    else if Positive(results.value.suspicious) then Warning
    else Safe
  }

  /** Badge order: Safe below Warning below Critical. */
  function Rank(t: ThreatLevel): nat
  {
    match t
    case Unknown => 0
    case Safe => 1
    case Warning => 2
    case Critical => 3
  }

  /** More detections never lower the badge: raising the malicious or the
      suspicious count keeps the threat level at least as high. */
  lemma ThreatLevelMonotone(r: ScanResult, m: nat, s: nat)
    requires r.malicious.Some? ==> r.malicious.value <= m
    requires r.suspicious.Some? ==> r.suspicious.value <= s
    ensures Rank(GetThreatLevel(Some(r))) <= Rank(GetThreatLevel(Some(r.(malicious := Some(m), suspicious := Some(s)))))
  {
  }

  /** The Tailwind colour classes the page chooses from. */
  datatype Colour = Red | Orange | Yellow | Green | Slate
  {
    function CssClass(): string
    {
      match this
      case Red => "text-red-500"
      case Orange => "text-orange-500"
      case Yellow => "text-yellow-500"
      case Green => "text-green-500"
      case Slate => "text-slate-400"
    }
  }

  /** Band index of a confidence colour: Green 0 up to Red 3. */
  function Band(c: Colour): nat
  {
    match c
    case Green => 0
    case Yellow => 1
    case Orange => 2
    case Red => 3
    case Slate => 0
  }

  /** `getConfidenceColor`: bands with inclusive lower bounds 0.8, 0.6, 0.4. */
  function GetConfidenceColor(confidence: real): (c: Colour)
    ensures c == Red <==> confidence >= 0.8
    ensures c == Orange <==> 0.6 <= confidence < 0.8
    ensures c == Yellow <==> 0.4 <= confidence < 0.6
    ensures c == Green <==> confidence < 0.4
  {
    if confidence >= 0.8 then Red
    else if confidence >= 0.6 then Orange
    else if confidence >= 0.4 then Yellow
    else Green
  }

  /** A higher confidence never moves the colour to a lower band. */
  lemma ConfidenceColorMonotone(a: real, b: real)
    requires a <= b
    ensures Band(GetConfidenceColor(a)) <= Band(GetConfidenceColor(b))
  {
  }

  /** `renderBehaviorSeverity`: the lower-cased severity is looked up among
      high, medium, low and unknown; anything else falls back to the colour
      of unknown. */
  function RenderBehaviorSeverity(severity: string): (c: Colour)
    ensures c == Red <==> Text.Lower(severity) == "high"
    ensures c == Orange <==> Text.Lower(severity) == "medium"
    ensures c == Yellow <==> Text.Lower(severity) == "low"
    ensures c == Slate <==> Text.Lower(severity) !in {"high", "medium", "low"}
  {
    var key := Text.Lower(severity);
    if key == "high" then Red
    else if key == "medium" then Orange
    else if key == "low" then Yellow
    else Slate
  }

  /** The lookup ignores case: two spellings that lower-case alike get the
      same colour, and a lower-cased key gets the colour of the original. */
  lemma SeverityIgnoresCase(a: string, b: string)
    requires Text.Lower(a) == Text.Lower(b)
    ensures RenderBehaviorSeverity(a) == RenderBehaviorSeverity(b)
    ensures RenderBehaviorSeverity(Text.Lower(a)) == RenderBehaviorSeverity(a)
  {
    Text.LowerIdempotent(a);
  }

  /** 'HIGH' and 'high' both give red; '' and 'Critical' fall back to slate. */
  lemma SeverityExamples()
    ensures RenderBehaviorSeverity("HIGH") == RenderBehaviorSeverity("high") == Red
    ensures RenderBehaviorSeverity("") == Slate
    ensures RenderBehaviorSeverity("Critical") == Slate
  {
    assert Text.Lower("HIGH") == "high";
    assert Text.Lower("Critical") == "critical";
  }

  /** Outcome of `validateFile`: it returns true or throws an Error. */
  datatype Validation = Accepted | Rejected(message: string)

  /** `validateFile`: a missing file and a file over 32 MiB are refused,
      with these messages; the MIME type is not looked at. */
  function ValidateFile(file: Option<FileInfo>): (v: Validation)
    ensures v == Rejected("Please select a file") <==> file.None?
    ensures v == Rejected("File size must be less than 32MB") <==> file.Some? && file.value.size > MAX_FILE_SIZE
    ensures v == Accepted <==> file.Some? && file.value.size <= 33554432
  {
    if file.None? then Rejected("Please select a file")
    else if file.value.size > MAX_FILE_SIZE then Rejected("File size must be less than 32MB")
    else Accepted
  }

  /** A file of exactly 32 MiB passes, one byte more does not, and the MIME type is irrelevant. */
  lemma ValidateFileBoundary(name: string, t1: string, t2: string)
    ensures ValidateFile(Some(FileInfo(name, 33554432, t1))) == Accepted
    ensures ValidateFile(Some(FileInfo(name, 33554433, t2))).Rejected?
    ensures ValidateFile(Some(FileInfo(name, 100, t1))) == ValidateFile(Some(FileInfo(name, 100, t2)))
  {
  }
}
