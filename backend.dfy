/** The Flask service in Backend/app.py: the upload check, the
    `MalwareAnalyzer` (feature row, YARA behaviours, thresholded
    classification) and the /api/classify route that ties them to the
    VirusTotal statistics. The hash function, VirusTotal, the trained model
    and the YARA engine are not modelled; what they return is a parameter. */
module Backend {
  import opened ScanData
  import opened Uploads
  import Text

  const ALLOWED_EXTENSIONS: set<string> := {"exe", "dll", "pdf"}
  const CONFIDENCE_THRESHOLD: real := 0.6
  const MALWARE_TYPES: map<int, string> := map[
    0 := "Trojan", 1 := "Ransomware", 2 := "Worm", 3 := "Virus",
    4 := "Spyware", 5 := "Adware", 6 := "Rootkit"]

  /** `allowed_file`: the text after the last dot, lower-cased, is exe, dll or pdf. */
  function AllowedFile(filename: string): (ok: bool)
    ensures ok <==> '.' in filename && Text.Lower(Extension(filename).value) in ALLOWED_EXTENSIONS
  {
    HasAllowedExtension(filename, ALLOWED_EXTENSIONS)
  }

  /** The check ignores case: 'a.EXE' is accepted. */
  lemma AllowedFileAccepts()
    ensures AllowedFile("a.EXE")
  {
    AllowedExtensionOfJoin("a", "EXE", ALLOWED_EXTENSIONS);
    assert "a.EXE" == "a" + "." + "EXE";
    assert Text.Lower("EXE") == "exe";
  }

  /** A bare word and a trailing dot are refused. */
  lemma AllowedFileRefuses()
    ensures !AllowedFile("exe") && !AllowedFile("a.")
  {
    assert '.' !in "exe";
    AllowedExtensionOfJoin("a", "", ALLOWED_EXTENSIONS);
    assert "a." == "a" + "." + "";
    assert Text.Lower("") == "";
  }

  /** Only the last extension counts: a name ending in '.exe.txt' is refused. */
  lemma AllowedFileLastExtension(stem: string)
    ensures !AllowedFile(stem + ".exe" + "." + "txt")
  {
    AllowedExtensionOfJoin(stem + ".exe", "txt", ALLOWED_EXTENSIONS);
    var lowered := Text.Lower("txt");
    assert lowered[0] == 't';
    assert lowered !in ALLOWED_EXTENSIONS;
  }

  /** One YARA match: the rule's name and its `meta` dictionary. */
  datatype YaraMatch = YaraMatch(rule: string, meta: map<string, string>)

  /** What the model's `predict` and `predict_proba` gave for the feature
      row, or that one of them raised (as an unfitted forest does). */
  datatype ModelOutput = Raised | Predicted(prediction: int, probabilities: seq<real>)

  /** The outside services the route calls, as functions of their input. */
  datatype Services = Services(
    sha256Hex: seq<bv8> -> string,        // hashlib.sha256(content).hexdigest()
    virusTotal: seq<bv8> -> VtOutcome,   // scan_file and the first get_object poll
    modelLoads: bool,                    // joblib.load succeeded
    predict: seq<int> -> ModelOutput,    // the loaded model on a feature row
    rulesCompile: bool,                  // yara.compile succeeded
    yaraMatch: seq<bv8> -> seq<YaraMatch>)

  /** How the VirusTotal exchange ended: the client raised, the analysis was
      not yet complete at the first poll, or it was, with these statistics. */
  datatype VtOutcome = VtRaised(message: string) | VtPending | VtCompleted(stats: map<string, int>)

  /** `d.get(key, 0)`. */
  function StatOr0(stats: map<string, int>, key: string): int
  {
    if key in stats then stats[key] else 0
  }

  /** `d.get(key, fallback)` on a string dictionary. */
  function MetaOr(meta: map<string, string>, key: string, fallback: string): string
  {
    if key in meta then meta[key] else fallback
  }

  /** The behaviour entry built for one match. */
  function BehaviorOf(m: YaraMatch): (b: Behavior)
    ensures b.kind == m.rule
    ensures "severity" in m.meta ==> b.severity == m.meta["severity"]
    ensures "severity" !in m.meta ==> b.severity == "unknown"
    ensures "description" in m.meta ==> b.description == m.meta["description"]
    ensures "description" !in m.meta ==> b.description == ""
  {
    Behavior(m.rule, MetaOr(m.meta, "severity", "unknown"), MetaOr(m.meta, "description", ""))
  }

  /** One behaviour entry per match, in match order. */
  function BehaviorsOf(matches: seq<YaraMatch>): (bs: seq<Behavior>)
    ensures |bs| == |matches|
    ensures forall i :: 0 <= i < |matches| ==> bs[i] == BehaviorOf(matches[i])
  {
    seq(|matches|, i requires 0 <= i < |matches| => BehaviorOf(matches[i]))
  }

  /** Python's `max` over a non-empty sequence of probabilities. */
  function MaxOf(s: seq<real>): (m: real)
    requires |s| > 0
    ensures m in s
    ensures forall i :: 0 <= i < |s| ==> s[i] <= m
  {
    if |s| == 1 then s[0]
    else
      var rest := MaxOf(s[1..]);
      assert forall i :: 1 <= i < |s| ==> s[i] == s[1..][i - 1];
      if s[0] >= rest then s[0] else rest
  }

  /** The thresholded decision of `classify`: the family when the top
      probability reaches the threshold, Unknown with that probability
      otherwise, and Unknown at 0.0 whenever something raises (no fitted
      model, no probabilities for `max`, a prediction with no family). */
  function Decide(types: map<int, string>, fitted: bool, output: ModelOutput, threshold: real): (c: Classification)
    ensures !fitted || output.Raised? || output.probabilities == [] ==> c == Classification("Unknown", 0.0)
    ensures fitted && output.Predicted? && output.probabilities != [] ==>
      var top := MaxOf(output.probabilities);
      && (top >= threshold && output.prediction in types ==> c == Classification(types[output.prediction], top))
      && (top >= threshold && output.prediction !in types ==> c == Classification("Unknown", 0.0))
      && (top < threshold ==> c == Classification("Unknown", top))
    ensures c.kind == "Unknown" || (c.kind in types.Values && c.confidence >= threshold)
    ensures c.confidence == 0.0 || (output.Predicted? && c.confidence in output.probabilities)
  {
    if !fitted || output.Raised? || output.probabilities == [] then Classification("Unknown", 0.0)
    else
      var top := MaxOf(output.probabilities);
      if top >= threshold then
        if output.prediction in types then Classification(types[output.prediction], top)
        else Classification("Unknown", 0.0)
      else Classification("Unknown", top)
  }

  class MalwareAnalyzer {
    var malwareTypes: map<int, string>
    var modelFitted: bool
    var rulesLoaded: bool

    /** `__init__`: the seven families; the trained model, or an unfitted
        forest when loading fails; the compiled rules, or none. */
    constructor(modelLoads: bool, rulesCompile: bool)
      ensures malwareTypes == MALWARE_TYPES && modelFitted == modelLoads && rulesLoaded == rulesCompile
    {
      malwareTypes := MALWARE_TYPES;
      modelFitted := modelLoads;
      rulesLoaded := rulesCompile;
    }

    /** `extract_features`: the four counts in the order malicious,
        suspicious, harmless, undetected, each 0 when absent, then the
        content length; five values in all. */
    method ExtractFeatures(stats: map<string, int>, content: seq<bv8>) returns (features: seq<int>)
      ensures |features| == 5
      ensures features[0] == StatOr0(stats, "malicious") && features[1] == StatOr0(stats, "suspicious")
      ensures features[2] == StatOr0(stats, "harmless") && features[3] == StatOr0(stats, "undetected")
      ensures features[4] == |content|
      ensures features == FeatureRow(stats, content)
    {
      features := [];
      features := features + [StatOr0(stats, "malicious"), StatOr0(stats, "suspicious"),
                              StatOr0(stats, "harmless"), StatOr0(stats, "undetected")];
      features := features + [|content|];
    }

    /** `analyze_behaviors`: nothing without rules; otherwise one entry per
        match, in match order, with description '' and severity 'unknown'
        when the rule's meta lacks them. */
    method AnalyzeBehaviors(matches: seq<YaraMatch>) returns (behaviors: seq<Behavior>)
      ensures !rulesLoaded ==> behaviors == []
      ensures rulesLoaded ==> |behaviors| == |matches|
      ensures rulesLoaded ==> forall i :: 0 <= i < |matches| ==>
        && behaviors[i].kind == matches[i].rule
        && behaviors[i].description == MetaOr(matches[i].meta, "description", "")
        && behaviors[i].severity == MetaOr(matches[i].meta, "severity", "unknown")
    {
      behaviors := [];
      if rulesLoaded {
        var i := 0;
        while i < |matches|
          invariant 0 <= i <= |matches|
          invariant |behaviors| == i
          invariant forall j :: 0 <= j < i ==> behaviors[j] == BehaviorOf(matches[j])
        {
          behaviors := behaviors + [BehaviorOf(matches[i])];
          i := i + 1;
        }
      }
    }

    /** `classify`: the decision above with this analyzer's families and model. */
    function Classify(output: ModelOutput, threshold: real): (c: Classification)
      reads this
      ensures c.kind == "Unknown" || (c.kind in malwareTypes.Values && c.confidence >= threshold)
      ensures !modelFitted ==> c == Classification("Unknown", 0.0)
    {
      Decide(malwareTypes, modelFitted, output, threshold)
    }
  }

  /** The JSON body of a response. */
  datatype Body =
    | ErrorBody(error: string)
    | ScanBody(malicious: int, suspicious: int, harmless: int, undetected: int,
               classification: Classification, behaviors: seq<Behavior>, sha256: string)

  datatype Response = Response(status: nat, body: Body)

  /** The route's checks before any hashing or scanning, in order: a file
      part, a file name, an allowed type, at most 32 MiB. The first that
      fails answers 400. */
  function CheckUpload(file: Option<Upload>): (r: Option<Response>)
    ensures r.Some? ==> r.value.status == 400 && r.value.body.ErrorBody?
    ensures file.None? ==> r == Some(Response(400, ErrorBody("No file provided")))
    ensures file.Some? && file.value.filename == "" ==> r == Some(Response(400, ErrorBody("No file selected")))
    ensures file.Some? && file.value.filename != "" && !AllowedFile(file.value.filename) ==>
      r == Some(Response(400, ErrorBody("Invalid file type. Allowed types: EXE, DLL, PDF")))
    ensures file.Some? && AllowedFile(file.value.filename) && |file.value.content| > MAX_FILE_SIZE ==>
      r == Some(Response(400, ErrorBody("File size exceeds 32MB limit")))
    ensures r.None? <==> file.Some? && AllowedFile(file.value.filename) && |file.value.content| <= MAX_FILE_SIZE
  {
    if file.None? then Some(Response(400, ErrorBody("No file provided")))
    else if file.value.filename == "" then Some(Response(400, ErrorBody("No file selected")))
    else if !AllowedFile(file.value.filename) then Some(Response(400, ErrorBody("Invalid file type. Allowed types: EXE, DLL, PDF")))
    else if |file.value.content| > MAX_FILE_SIZE then Some(Response(400, ErrorBody("File size exceeds 32MB limit")))
    else None
  }

  /** The feature row `extract_features` builds. */
  function FeatureRow(stats: map<string, int>, content: seq<bv8>): (row: seq<int>)
    ensures |row| == 5 && row[4] == |content|
    ensures forall i :: 0 <= i < 4 ==> row[i] == StatOr0(stats, ["malicious", "suspicious", "harmless", "undetected"][i])
  {
    [StatOr0(stats, "malicious"), StatOr0(stats, "suspicious"), StatOr0(stats, "harmless"),
     StatOr0(stats, "undetected"), |content|]
  }

  /** The /api/classify route. A failed check answers before any service is
      used. A raising VirusTotal client answers 500 with its message; an
      analysis still running at the first poll reaches `time.sleep`, and
      `time` is never imported, so it answers 500 with the NameError. A
      completed analysis answers the counts (0 when absent), the
      classification, the behaviours and the digest. */
  method ClassifyRoute(file: Option<Upload>, services: Services) returns (resp: Response)
    ensures CheckUpload(file).Some? ==> resp == CheckUpload(file).value
    ensures CheckUpload(file).None? ==>
      var content := file.value.content;
      match services.virusTotal(content)
      case VtRaised(message) => resp == Response(500, ErrorBody(message))
      case VtPending => resp == Response(500, ErrorBody("name 'time' is not defined"))
      case VtCompleted(stats) =>
        resp == Response(200, ScanBody(
          StatOr0(stats, "malicious"), StatOr0(stats, "suspicious"),
          StatOr0(stats, "harmless"), StatOr0(stats, "undetected"),
          Decide(MALWARE_TYPES, services.modelLoads, services.predict(FeatureRow(stats, content)), CONFIDENCE_THRESHOLD),
          if services.rulesCompile then BehaviorsOf(services.yaraMatch(content)) else [],
          services.sha256Hex(content)))
  {
    var rejected := CheckUpload(file);
    if rejected.Some? {
      return rejected.value;
    }
    var content := file.value.content;
    var digest := services.sha256Hex(content);
    var analyzer := new MalwareAnalyzer(services.modelLoads, services.rulesCompile);
    match services.virusTotal(content)
    case VtRaised(message) =>
      resp := Response(500, ErrorBody(message));
    case VtPending =>
      resp := Response(500, ErrorBody("name 'time' is not defined"));
    case VtCompleted(stats) =>
      var features := analyzer.ExtractFeatures(stats, content);
      assert features == FeatureRow(stats, content);
      var classification := analyzer.Classify(services.predict(features), CONFIDENCE_THRESHOLD);
      var matches := services.yaraMatch(content);
      var behaviors := analyzer.AnalyzeBehaviors(matches);
      assert behaviors == if services.rulesCompile then BehaviorsOf(matches) else [];
      resp := Response(200, ScanBody(
        StatOr0(stats, "malicious"), StatOr0(stats, "suspicious"),
        StatOr0(stats, "harmless"), StatOr0(stats, "undetected"),
        classification, behaviors, digest));
  }
}
