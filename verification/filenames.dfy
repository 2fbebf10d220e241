/** The upload filename check shared by both image servers: a name is
    accepted when it has a dot and the text after its LAST dot,
    lower-cased, is one of the allowed image extensions. */
module Filenames {
  import opened Wrappers
  import opened Ascii

  /** The image extensions an upload may carry. */
  const AllowedExtensions: set<string> := {"png", "jpg", "jpeg", "gif", "webp"}

  /** The position of the last occurrence of `c` in `s`, if any. */
  function LastIndexOf(s: string, c: char): (r: Option<nat>)
    ensures r.Some? ==> r.value < |s| && s[r.value] == c && c !in s[r.value + 1..]
    ensures r.None? <==> c !in s
  {
    if |s| == 0 then None
    else if s[|s| - 1] == c then Some(|s| - 1)
    else
      assert s == s[..|s| - 1] + [s[|s| - 1]];
      var r := LastIndexOf(s[..|s| - 1], c);
      assert r.Some? ==> s[r.value + 1..] == s[..|s| - 1][r.value + 1..] + [s[|s| - 1]];
      r
  }

  /** The text after the last `c` in `s`: the second half of Python's
      `s.rsplit(c, 1)`. */
  function AfterLast(s: string, c: char): (r: string)
    requires c in s
    ensures c !in r
    ensures |r| < |s| && s[|s| - |r| - 1] == c && s[|s| - |r|..] == r
  {
    var i := LastIndexOf(s, c).value;
    s[i + 1..]
  }

  /** The filename check as the servers run it: split on the last dot and
      look the lower-cased second half up among the allowed extensions. */
  predicate AllowedFile(filename: string) {
    '.' in filename && Lower(AfterLast(filename, '.')) in AllowedExtensions
  }

  /** Reference definition: some dot in the name has no dot after it, and
      the text after it is an allowed extension up to case. */
  ghost predicate IsImageName(filename: string) {
    exists i :: 0 <= i < |filename| && filename[i] == '.' && ExtensionAt(filename, i)
  }

  /** The text after position `i` has no dot and is an allowed extension
      once lower-cased. */
  ghost predicate ExtensionAt(filename: string, i: nat)
    requires i < |filename|
  {
    '.' !in filename[i + 1..] && Lower(filename[i + 1..]) in AllowedExtensions
  }

  /** A dot with no dot after it is the last dot. */
  lemma LastDotIs(s: string, i: nat)
    requires i < |s| && s[i] == '.' && '.' !in s[i + 1..]
    ensures LastIndexOf(s, '.') == Some(i)
  {
    assert s[i] == '.';
  }

  /** The servers' check agrees with the reference definition on every
      name. */
  lemma {:induction false} AllowedFileMeetsSpec(filename: string)
    ensures AllowedFile(filename) <==> IsImageName(filename)
  {
    if AllowedFile(filename) {
      var i := LastIndexOf(filename, '.').value;
      assert filename[i] == '.' && ExtensionAt(filename, i);
    }
    if IsImageName(filename) {
      var i :| 0 <= i < |filename| && filename[i] == '.' && ExtensionAt(filename, i);
      LastDotIs(filename, i);
      assert '.' in filename;
      assert AfterLast(filename, '.') == filename[i + 1..];
    }
  }

  /** Only the final extension counts: whatever the stem holds, dots
      included, the name is accepted exactly when the part after the final
      dot is an allowed extension. */
  lemma {:induction false} OnlyFinalExtensionCounts(stem: string, ext: string)
    requires '.' !in ext
    ensures AllowedFile(stem + "." + ext) <==> Lower(ext) in AllowedExtensions
  {
    var f := stem + "." + ext;
    assert f[|stem|] == '.';
    assert f[|stem| + 1..] == ext;
    LastDotIs(f, |stem|);
    assert AfterLast(f, '.') == ext;
  }

  /** Matching ignores ASCII case: a name and its lower-cased form are
      accepted or rejected together. */
  lemma {:induction false} AllowedFileIgnoresCase(filename: string)
    ensures AllowedFile(Lower(filename)) <==> AllowedFile(filename)
  {
    var low := Lower(filename);
    LowerKeepsNonLetter(filename, '.');
    AllowedFileMeetsSpec(filename);
    AllowedFileMeetsSpec(low);
    if IsImageName(filename) {
      var i :| 0 <= i < |filename| && filename[i] == '.' && ExtensionAt(filename, i);
      LowerSuffix(filename, i + 1);
      LowerKeepsNonLetter(filename[i + 1..], '.');
      LowerIdempotent(filename[i + 1..]);
      assert low[i] == '.' && ExtensionAt(low, i);
    }
    if IsImageName(low) {
      var i :| 0 <= i < |low| && low[i] == '.' && ExtensionAt(low, i);
      LowerSuffix(filename, i + 1);
      LowerKeepsNonLetter(filename[i + 1..], '.');
      LowerIdempotent(filename[i + 1..]);
      assert filename[i] == '.' && ExtensionAt(filename, i);
    }
  }

  /** A name without a dot is rejected, and so is a name ending in a dot. */
  lemma NoExtensionRejected(filename: string)
    requires '.' !in filename || (|filename| > 0 && filename[|filename| - 1] == '.')
    ensures !AllowedFile(filename)
  {
    if '.' in filename {
      LastDotIs(filename, |filename| - 1);
      assert AfterLast(filename, '.') == [];
    }
  }

  /** Only the final extension counts: `x.exe.png` is accepted. */
  lemma DoubleExtensionImage()
    ensures AllowedFile("x.exe.png")
  {
    var stem, ext := "x.exe", "png";
    assert '.' !in ext;
    OnlyFinalExtensionCounts(stem, ext);
    assert Lower(ext) == ext;
    assert stem + "." + ext == "x.exe.png";
  }

  /** Only the final extension counts: `x.png.exe` is rejected. */
  lemma DoubleExtensionProgram()
    ensures !AllowedFile("x.png.exe")
  {
    var stem, ext := "x.png", "exe";
    assert '.' !in ext;
    OnlyFinalExtensionCounts(stem, ext);
    assert Lower(ext) == ext && ext !in AllowedExtensions;
    assert !AllowedFile(stem + "." + ext);
    assert stem + "." + ext == "x.png.exe";
  }

  /** Case does not matter: `A.JPG` is accepted. */
  lemma UpperCaseExtension()
    ensures AllowedFile("A.JPG")
  {
    var stem, ext := "A", "JPG";
    assert '.' !in ext;
    OnlyFinalExtensionCounts(stem, ext);
    assert Lower(ext) == "jpg";
    assert stem + "." + ext == "A.JPG";
  }

  /** A trailing dot, a bare extension and the empty name are rejected. */
  lemma MissingExtensionCases()
    ensures !AllowedFile("file.")
    ensures !AllowedFile("png")
    ensures !AllowedFile("")
  {
    NoExtensionRejected("file.");
    NoExtensionRejected("png");
    NoExtensionRejected("");
  }
}
