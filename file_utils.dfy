/**
 * Upload validation (`FileUtils.validate_file` and `FileUtils.is_pdf` in
 * app/utils/file_utils.py) over the `pathlib` suffix of a POSIX path.
 */
module FileUtils {
  import opened Wrappers
  import opened Text

  /** The extensions an upload may have. */
  const AllowedExtensions: set<string> := {".pdf", ".png", ".jpg", ".jpeg"}

  /** The last component of a '/'-separated path that is neither empty nor ".", as `Path(p).name`; "" when there is none. */
  function PathName(path: string): (name: string)
    ensures '/' !in name
    ensures name != "."
    ensures name == "" || name in SplitOn(path, '/')
  {
    LastProperPart(SplitOn(path, '/'))
  }

  /** A path component that `pathlib` drops: the empty one between two '/' and ".". */
  predicate Improper(part: string) {
    part == "" || part == "."
  }

  /** The last part that is neither "" nor "."; "" when there is none (see `LastProperPartIsLast`). */
  function LastProperPart(parts: seq<string>): (name: string)
    requires forall k :: 0 <= k < |parts| ==> '/' !in parts[k]
    ensures '/' !in name && name != "."
    ensures name == "" || name in parts
  {
    if parts == [] then ""
    else
      var last := parts[|parts| - 1];
      if !Improper(last) then last else LastProperPart(parts[..|parts| - 1])
  }

  /** The name is "" exactly when every part is dropped; otherwise it is a part after which every part is dropped. */
  lemma {:induction false} LastProperPartIsLast(parts: seq<string>)
    requires forall k :: 0 <= k < |parts| ==> '/' !in parts[k]
    ensures LastProperPart(parts) == "" <==> forall k :: 0 <= k < |parts| ==> Improper(parts[k])
    ensures LastProperPart(parts) != "" ==> exists k :: (0 <= k < |parts| && parts[k] == LastProperPart(parts)
      && forall j :: k < j < |parts| ==> Improper(parts[j]))
  {
    if parts != [] {
      var n := |parts| - 1;
      if Improper(parts[n]) {
        var prev := parts[..n];
        assert forall k :: 0 <= k < n ==> prev[k] == parts[k];
        LastProperPartIsLast(prev);
        if LastProperPart(prev) != "" {
          var k :| 0 <= k < n && prev[k] == LastProperPart(prev) && forall j :: k < j < n ==> Improper(prev[j]);
          assert parts[k] == LastProperPart(parts);
        }
      } else {
        assert parts[n] == LastProperPart(parts);
      }
    }
  }

  /** `s.rfind(c)`: the last position of `c` in `s`. */
  function LastIndexOf(s: string, c: char): (r: Option<nat>)
    ensures r.Some? ==> r.value < |s| && s[r.value] == c && c !in s[r.value + 1..]
    ensures r.None? <==> c !in s
  {
    if s == [] then None
    else if s[|s| - 1] == c then Some(|s| - 1)
    else
      var r := LastIndexOf(s[..|s| - 1], c);
      assert forall x :: x in s ==> x in s[..|s| - 1] || x == s[|s| - 1];
      if r.Some? then
        assert s[r.value + 1..] == s[..|s| - 1][r.value + 1..] + [s[|s| - 1]];
        r
      else r
  }

  /**
   * `Path(p).suffix`: from the last '.' of the name, when that dot is
   * neither the first nor the last character of the name; "" otherwise.
   */
  function Suffix(path: string): (ext: string)
    ensures ext == "" || (|ext| >= 2 && ext[0] == '.' && '.' !in ext[1..] && '/' !in ext)
  {
    var name := PathName(path);
    match LastIndexOf(name, '.')
    case Some(i) =>
      if 0 < i < |name| - 1 then
        assert forall x :: x in name[i..] ==> x in name;
        name[i..]
      else ""
    case None => ""
  }

  /** The result of `validate_file`: `Valid` is `(True, "")`; the other two carry what their messages mention. */
  datatype Verdict = Valid | TooLarge(maxSize: int) | TypeNotAllowed(ext: string)

  /** `validate_file`: the size check first, then the lowercased suffix against the allowed extensions. */
  function ValidateFile(filename: string, content: seq<bv8>, maxSize: int): (v: Verdict)
    ensures v.TooLarge? <==> |content| > maxSize
    ensures v.TooLarge? ==> v.maxSize == maxSize
    ensures v.Valid? <==> |content| <= maxSize && Lower(Suffix(filename)) in AllowedExtensions
    ensures v.TypeNotAllowed? ==> v.ext == Lower(Suffix(filename)) && v.ext !in AllowedExtensions
  {
    if |content| > maxSize then TooLarge(maxSize)
    else
      var ext := Lower(Suffix(filename));
      if ext !in AllowedExtensions then TypeNotAllowed(ext) else Valid
  }

  /** `is_pdf`: the lowercased suffix is ".pdf", so a PDF name has a four-character suffix that uploads allow. */
  function IsPdf(filename: string): (b: bool)
    ensures b ==> |Suffix(filename)| == 4 && Lower(Suffix(filename)) in AllowedExtensions
    ensures b <==> Lower(Suffix(filename)) == ".pdf"
  {
    Lower(Suffix(filename)) == ".pdf"
  }

  /** A PDF within the size limit is accepted. */
  lemma PdfIsAllowed(filename: string, content: seq<bv8>, maxSize: int)
    requires IsPdf(filename) && |content| <= maxSize
    ensures ValidateFile(filename, content, maxSize) == Valid
  {
  }

  /** A name without a proper dot has the empty suffix, which is never allowed. */
  lemma NoSuffixRejected(filename: string, content: seq<bv8>, maxSize: int)
    requires Suffix(filename) == "" && |content| <= maxSize
    ensures ValidateFile(filename, content, maxSize) == TypeNotAllowed("")
  {
  }

  /** "x.PDF" is a PDF: the suffix is lowercased before the comparison. */
  lemma UpperCasePdfExample()
    ensures IsPdf("x.PDF")
  {
    assert IndexOf("x.PDF", '/') == None;
    assert PathName("x.PDF") == "x.PDF";
    assert LastIndexOf("x.PDF", '.') == Some(1);
    assert Suffix("x.PDF") == ".PDF";
  }
}
