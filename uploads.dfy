/** The upload-name check both Python services share
    (`'.' in filename and filename.rsplit('.', 1)[1].lower() in ALLOWED_EXTENSIONS`)
    and the uploaded file as a request carries it. */
module Uploads {
  import opened ScanData
  import Text

  /** An entry of `request.files`: the client's file name and the bytes. */
  datatype Upload = Upload(filename: string, content: seq<bv8>)

  /** Position of the last '.' in `s`, if any. */
  function LastDot(s: string): (k: Option<nat>)
    ensures k.None? <==> '.' !in s
    ensures k.Some? ==> k.value < |s| && s[k.value] == '.' && '.' !in s[k.value + 1..]
  {
    if s == [] then None
    else if s[|s| - 1] == '.' then Some(|s| - 1)
    else
      var k := LastDot(s[..|s| - 1]);
      assert k.Some? ==> s[k.value + 1..] == s[..|s| - 1][k.value + 1..] + [s[|s| - 1]];
      assert s == s[..|s| - 1] + [s[|s| - 1]];
      k
  }

  /** `filename.rsplit('.', 1)[1]`: the text after the last dot, when there is a dot. */
  function Extension(filename: string): (e: Option<string>)
    ensures e.None? <==> '.' !in filename
    ensures e.Some? ==>
      && '.' !in e.value && |e.value| < |filename|
      && filename == filename[..|filename| - |e.value| - 1] + "." + e.value
  {
    match LastDot(filename)
    case None => None
    case Some(k) =>
      assert filename == filename[..k] + "." + filename[k + 1..];
      Some(filename[k + 1..])
  }

  /** A name whose part after its last dot is `ext` has extension `ext`:
      splitting at the last dot undoes joining with a dot. */
  lemma {:induction false} ExtensionOfJoin(stem: string, ext: string)
    requires '.' !in ext
    ensures Extension(stem + "." + ext) == Some(ext)
  {
    var s := stem + "." + ext;
    assert s[|stem|] == '.';
    assert s[|stem| + 1..] == ext;
  }

  /** The shared check: the name has a dot and its extension, lower-cased,
      is one of `allowed`. */
  predicate HasAllowedExtension(filename: string, allowed: set<string>)
    ensures HasAllowedExtension(filename, allowed) ==> '.' in filename
    ensures HasAllowedExtension(filename, allowed) ==> Text.Lower(Extension(filename).value) in allowed
  {
    match Extension(filename)
    case None => false
    case Some(ext) => Text.Lower(ext) in allowed
  }

  /** Every name with a dot is some stem, a dot and a dot-free extension,
      and the check then depends on the extension alone, ignoring case. */
  lemma AllowedExtensionOfJoin(stem: string, ext: string, allowed: set<string>)
    requires '.' !in ext
    ensures HasAllowedExtension(stem + "." + ext, allowed) <==> Text.Lower(ext) in allowed
  {
    ExtensionOfJoin(stem, ext);
  }
}
