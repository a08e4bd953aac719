/** The values exchanged between the scanner page, the two client helpers
    and the classification service: the parsed JSON scan result, in which
    every field may be missing, and the descriptor of a file the user picked. */
module ScanData {

  datatype Option<T> = None | Some(value: T)
  {
    /** JavaScript's `x || fallback` / Python's `d.get(k, fallback)` on a value that may be missing. */
    function GetOr(fallback: T): T
    {
      match this
      case Some(v) => v
      case None => fallback
    }
  }

  /** A value, or the message of the Error that was thrown instead. */
  datatype Result<T> = Ok(value: T) | Err(message: string)

  /** The `classification` object: the malware family and the model's confidence. */
  datatype Classification = Classification(kind: string, confidence: real)

  /** One behavioural-analysis entry (one YARA rule that matched). */
  datatype Behavior = Behavior(kind: string, severity: string, description: string)

  /** A scan result as parsed from the service's JSON. `None` stands for a
      field that is absent, which JavaScript reads as `undefined`; a null
      field is treated the same, which differs from JavaScript (there a
      null count adds as 0 and renders as "null"). Counts are the
      non-negative integers the service sends. */
  datatype ScanResult = ScanResult(
    malicious: Option<nat>,
    suspicious: Option<nat>,
    harmless: Option<nat>,
    undetected: Option<nat>,
    classification: Option<Classification>,
    behaviors: Option<seq<Behavior>>,
    sha256: Option<string>)

  /** The browser's `File` object, as far as the page uses it. */
  datatype FileInfo = FileInfo(name: string, size: nat, mimeType: string)

  /** How a client helper's request to /api/classify ended: something threw
      (the network, or parsing an error body), the response was not ok (with
      the body's `error` field, "" when absent), or an ok response with its
      parsed body. */
  datatype ApiOutcome = ApiThrew(message: string) | ApiRejected(errorField: string) | ApiAccepted(result: ScanResult)

  /** The 32 MiB upload limit used by the page, the client helper and the backend. */
  const MAX_FILE_SIZE: nat := 32 * 1024 * 1024
}
