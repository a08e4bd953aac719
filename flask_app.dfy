/** The second Flask service (Flask/app.py): a chain of early-return
    guards in front of a placeholder analysis that always reports the same
    counts. Saving and removing the upload is file-system work that is not
    modelled; whether it succeeds is a parameter. No size limit is enforced:
    the limit constant is never placed in the application's configuration. */
module FlaskApp {
  import opened ScanData
  import opened Uploads
  import Text
  import Backend

  const ALLOWED_EXTENSIONS: set<string> := {"exe", "dll", "pdf", "doc", "docx", "zip", "rar"}

  /** `allowed_file`: the same check as the backend's over seven extensions. */
  function AllowedFile(filename: string): (ok: bool)
    ensures ok <==> '.' in filename && Text.Lower(Extension(filename).value) in ALLOWED_EXTENSIONS
  {
    HasAllowedExtension(filename, ALLOWED_EXTENSIONS)
  }

  /** Every name the backend accepts this service accepts too; archives and
      documents only this one. */
  lemma AcceptsMoreThanBackend(filename: string)
    ensures Backend.AllowedFile(filename) ==> AllowedFile(filename)
    ensures !Backend.AllowedFile("a.ZIP") && AllowedFile("a.ZIP")
  {
    AllowedExtensionOfJoin("a", "ZIP", ALLOWED_EXTENSIONS);
    AllowedExtensionOfJoin("a", "ZIP", Backend.ALLOWED_EXTENSIONS);
    assert "a.ZIP" == "a" + "." + "ZIP";
    assert Text.Lower("ZIP") == "zip";
  }

  /** The JSON body of a response. */
  datatype Body =
    | ErrorBody(error: string)
    | CountsBody(malicious: nat, harmless: nat, suspicious: nat, undetected: nat)

  datatype Response = Response(status: nat, body: Body)

  /** `analyze_file`: the fixed placeholder counts, whatever the file. */
  function AnalyzeFile(path: string): (b: Body)
    ensures b == CountsBody(2, 60, 3, 5)
    ensures b.malicious + b.harmless + b.suspicious + b.undetected == 70
  {
    CountsBody(2, 60, 3, 5)
  }

  /** `classify_file`: 500 without a model, before any look at the request;
      then 400 for a missing file part, an empty name and a refused type, in
      that order; 500 when saving or analysing fails; else 200 with the
      analysis. */
  function ClassifyFile(modelLoaded: bool, file: Option<Upload>, storageWorks: bool): (r: Response)
    ensures !modelLoaded ==> r == Response(500, ErrorBody("Model not loaded"))
    ensures modelLoaded && file.None? ==> r == Response(400, ErrorBody("No file provided"))
    ensures modelLoaded && file.Some? && file.value.filename == "" ==> r == Response(400, ErrorBody("No file selected"))
    ensures modelLoaded && file.Some? && file.value.filename != "" && !AllowedFile(file.value.filename) ==>
      r == Response(400, ErrorBody("File type not allowed"))
    ensures modelLoaded && file.Some? && AllowedFile(file.value.filename) && !storageWorks ==>
      r == Response(500, ErrorBody("File analysis failed"))
    ensures r.status == 200 <==> modelLoaded && file.Some? && AllowedFile(file.value.filename) && storageWorks
    ensures r.status == 200 ==> r.body == CountsBody(2, 60, 3, 5)
  {
    if !modelLoaded then Response(500, ErrorBody("Model not loaded"))
    else if file.None? then Response(400, ErrorBody("No file provided"))
    else if file.value.filename == "" then Response(400, ErrorBody("No file selected"))
    else if !AllowedFile(file.value.filename) then Response(400, ErrorBody("File type not allowed"))
    else if !storageWorks then Response(500, ErrorBody("File analysis failed"))
    else Response(200, AnalyzeFile(file.value.filename))
  }

  /** Two requests that both pass the guards get the same answer: the
      analysis does not depend on the file. */
  lemma AnswerIgnoresContent(a: Upload, b: Upload)
    requires AllowedFile(a.filename) && AllowedFile(b.filename)
    ensures ClassifyFile(true, Some(a), true) == ClassifyFile(true, Some(b), true)
  {
  }

  /** The handler for 413 (request too large). */
  function TooLarge(): (r: Response)
    ensures r.status == 413 && r.body == ErrorBody("File is too large. Maximum size is 32MB")
  {
    Response(413, ErrorBody("File is too large. Maximum size is 32MB"))
  }

  /** The handler for 404. */
  function NotFound(): (r: Response)
    ensures r.status == 404 && r.body == ErrorBody("Not Found")
  {
    Response(404, ErrorBody("Not Found"))
  }

  /** The handler for 500. */
  function ServerError(): (r: Response)
    ensures r.status == 500 && r.body == ErrorBody("Internal Server Error")
  {
    Response(500, ErrorBody("Internal Server Error"))
  }
}
