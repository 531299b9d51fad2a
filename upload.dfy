/**
 * The image-upload extension check: a file name is accepted when it has a
 * dot and the text after its last dot, lower-cased, is one of the image
 * extensions the application allows.
 */
module Upload {
  import opened Wrappers
  import opened Text

  /** The extensions an uploaded product image may have. */
  const AllowedExtensions: set<string> := {"png", "jpg", "jpeg", "gif"}

  /** The position of the last '.' in s, if s has one. */
  function LastDot(s: string): (r: Option<nat>)
    ensures r.Some? ==> r.value < |s| && s[r.value] == '.'
    ensures r.Some? ==> forall j :: r.value < j < |s| ==> s[j] != '.'
    ensures r.None? <==> '.' !in s
  {
    if s == [] then None
    else if s[|s| - 1] == '.' then Some(|s| - 1)
    else
      assert s == s[..|s| - 1] + [s[|s| - 1]];
      LastDot(s[..|s| - 1])
  }

  /**
   * The text after the last '.' of a name that has one, the second part of
   * splitting the name once from the right at '.'.
   */
  function Extension(filename: string): (ext: string)
    requires '.' in filename
    ensures '.' !in ext
    ensures |ext| < |filename|
    ensures filename == filename[..|filename| - |ext| - 1] + "." + ext
  {
    var i := LastDot(filename).value;
    var e := filename[i + 1..];
    assert forall k :: 0 <= k < |e| ==> e[k] == filename[i + 1 + k];
    assert filename == filename[..i] + "." + e;
    e
  }

  /** Whether an uploaded file with this name may be saved as a product image. */
  predicate AllowedFile(filename: string)
  {
    '.' in filename && Lower(Extension(filename)) in AllowedExtensions
  }

  /**
   * A name is accepted exactly when it splits as stem + "." + ext where ext
   * has no dot and lower-cases to an allowed extension.
   */
  lemma {:induction false} AllowedFileCharacterized(filename: string)
    ensures AllowedFile(filename) <==>
      exists stem, ext :: filename == stem + "." + ext && '.' !in ext && Lower(ext) in AllowedExtensions
  {
    if AllowedFile(filename) {
      var ext := Extension(filename);
      var stem := filename[..|filename| - |ext| - 1];
      assert filename == stem + "." + ext;
    } else {
      if exists stem, ext :: filename == stem + "." + ext && '.' !in ext && Lower(ext) in AllowedExtensions {
        var stem, ext :| filename == stem + "." + ext && '.' !in ext && Lower(ext) in AllowedExtensions;
        SplitAtLastDot(filename, stem, ext);
        assert false;
      }
    }
  }

  /** Any split of a name around a dot with no dot after it is the split at the last dot. */
  lemma SplitAtLastDot(filename: string, stem: string, ext: string)
    requires filename == stem + "." + ext && '.' !in ext
    ensures '.' in filename && Extension(filename) == ext
  {
    assert filename[|stem|] == '.';
    var e := Extension(filename);
    var i := |filename| - |e| - 1;
    assert filename[i] == '.' by {
      assert filename == filename[..i] + "." + e;
    }
    assert i == |stem|;
    assert filename[i + 1..] == ext;
  }

  /** An upper-case extension is accepted. */
  lemma UpperCaseExtensionAccepted()
    ensures AllowedFile("x.PNG")
  {
    SplitAtLastDot("x.PNG", "x", "PNG");
    assert Lower("PNG") == "png";
  }

  /** Only the text after the last dot counts. */
  lemma DoubleExtensionRejected()
    ensures !AllowedFile("a.png.exe")
  {
    SplitAtLastDot("a.png.exe", "a.png", "exe");
  }

  /** A name without a dot is rejected, even when it spells an extension. */
  lemma NoDotRejected()
    ensures !AllowedFile("png")
  {
  }
}
