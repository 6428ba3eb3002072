/** POSIX paths as `pathlib` reads them: `Path(p).name` is the last
    component once empty and "." components are dropped, and
    `Path(p).suffix` is the name from its last dot on, provided that dot is
    neither the first nor the last character of the name. */
module Paths {
  import opened Text

  /** The text after the last `c` in `s` (all of `s` when there is none). */
  function LastSegment(s: string, c: char): (seg: string)
    ensures |seg| <= |s| && seg == s[|s| - |seg|..]
    ensures c !in seg
    ensures |seg| < |s| ==> s[|s| - |seg| - 1] == c
  {
    if s == [] || s[|s| - 1] == c then []
    else LastSegment(s[..|s| - 1], c) + [s[|s| - 1]]
  }

  /** `Path(p).name`: the last component that is neither empty nor ".",
      or "" when there is none. */
  function Name(p: string): (name: string)
    ensures '/' !in name
    decreases |p|
  {
    var seg := LastSegment(p, '/');
    if seg != "" && seg != "." then seg
    else if |seg| == |p| then ""
    else Name(p[..|p| - |seg| - 1])
  }

  /** Index of the last `c` in `s`, or -1. */
  function RFind(s: string, c: char): (i: int)
    ensures -1 <= i < |s|
    ensures i >= 0 ==> s[i] == c
    ensures forall k :: i < k < |s| ==> s[k] != c
  {
    if s == [] then -1
    else if s[|s| - 1] == c then |s| - 1
    else RFind(s[..|s| - 1], c)
  }

  /** `Path(p).suffix`. */
  function Suffix(p: string): (suffix: string)
    ensures suffix != "" ==> suffix[0] == '.' && '.' !in suffix[1..] && |suffix| >= 2
    ensures suffix != "" ==> |suffix| < |Name(p)| && EndsWith(Name(p), suffix)
  {
    var name := Name(p);
    var i := RFind(name, '.');
    if 0 < i < |name| - 1 then name[i..] else ""
  }

  /** The last segment of a path ending in a slash-free extension holds
      the whole extension. */
  lemma SegmentHoldsEnding(p: string, ext: string)
    requires '/' !in ext
    requires EndsWith(p, ext)
    ensures |LastSegment(p, '/')| >= |ext|
  {
  }

  /** A path that ends in an extension, with no slash in it, has the last
      segment as its name. */
  lemma NameOfPlainEnding(p: string, ext: string)
    requires |ext| >= 2 && '/' !in ext
    requires EndsWith(p, ext)
    ensures Name(p) == LastSegment(p, '/')
    ensures EndsWith(Name(p), ext)
  {
    var seg := LastSegment(p, '/');
    SegmentHoldsEnding(p, ext);
    NameIsLastSegment(p);
    assert seg[|seg| - |ext|..] == p[|p| - |ext|..];
  }

  lemma NameIsLastSegment(p: string)
    requires |LastSegment(p, '/')| >= 2
    ensures Name(p) == LastSegment(p, '/')
  {
  }

  /** `Path.suffix` matches an extension exactly when the name ends with it
      and holds something before it. */
  lemma SuffixIs(p: string, ext: string)
    requires |ext| >= 2 && ext[0] == '.' && '.' !in ext[1..]
    ensures Suffix(p) == ext <==> EndsWith(Name(p), ext) && |Name(p)| > |ext|
  {
    var name := Name(p);
    var i := RFind(name, '.');
    if EndsWith(name, ext) && |name| > |ext| {
      var j := |name| - |ext|;
      assert name[j..] == ext;
      assert name[j] == '.';
      forall k | j < k < |name| ensures name[k] != '.' {
        assert name[k] == ext[k - j];
        assert ext[k - j] == ext[1..][k - j - 1];
      }
      assert i == j;
    }
  }

  /** Where the two dispatch rules part, first case: a name that is only
      the extension ends with it but has no suffix. */
  lemma BareExtensionHasNoSuffix()
    ensures EndsWith("data/.pdf", ".pdf") && Suffix("data/.pdf") == ""
  {
    var p := "data/.pdf";
    NameOfPlainEnding(p, ".pdf");
    assert LastSegment(p, '/') == ".pdf" by {
      assert p[..8] == "data/.pd";
      assert LastSegment("data/.pd", '/') == ".pd" by {
        assert "data/.pd"[..7] == "data/.p";
        assert LastSegment("data/.p", '/') == ".p" by {
          assert "data/.p"[..6] == "data/.";
          assert LastSegment("data/.", '/') == "." by {
            assert "data/."[..5] == "data/";
          }
        }
      }
    }
    SuffixIs(p, ".pdf");
  }

  /** A trailing slash does not change the name. */
  lemma NameIgnoresTrailingSlash(p: string)
    ensures Name(p + "/") == Name(p)
  {
    assert LastSegment(p + "/", '/') == "";
    assert (p + "/")[..|p|] == p;
  }

  /** Second case: a trailing slash hides the extension from `endswith`
      but not from `Path.suffix`. */
  lemma TrailingSlashKeepsSuffix()
    ensures !EndsWith("data/cv.pdf/", ".pdf") && Suffix("data/cv.pdf/") == ".pdf"
  {
    assert "data/cv.pdf/"[11] == '/';
    CvName();
    PdfExtension();
    assert "cv.pdf"[2..] == ".pdf";
    SuffixIs("data/cv.pdf/", ".pdf");
  }

  lemma PdfExtension()
    ensures |".pdf"| >= 2 && ".pdf"[0] == '.' && '.' !in ".pdf"[1..]
  {
    assert ".pdf"[1..] == "pdf";
  }

  lemma CvName()
    ensures Name("data/cv.pdf/") == "cv.pdf"
  {
    var p := "data/cv.pdf";
    assert p + "/" == "data/cv.pdf/";
    NameIgnoresTrailingSlash(p);
    CvSegment();
    NameIsLastSegment(p);
  }

  lemma CvSegment()
    ensures LastSegment("data/cv.pdf", '/') == "cv.pdf"
  {
    assert "data" + "/" == "data/";
    SegmentAtSeparator("data", '/');
    SegmentGrows("data/", 'c', '/');
    assert "data/" + "c" == "data/c";
    SegmentGrows("data/c", 'v', '/');
    assert "data/c" + "v" == "data/cv";
    SegmentGrows("data/cv", '.', '/');
    assert "data/cv" + "." == "data/cv.";
    SegmentGrows("data/cv.", 'p', '/');
    assert "data/cv." + "p" == "data/cv.p";
    SegmentGrows("data/cv.p", 'd', '/');
    assert "data/cv.p" + "d" == "data/cv.pd";
    SegmentGrows("data/cv.pd", 'f', '/');
    assert "data/cv.pd" + "f" == "data/cv.pdf";
  }

  lemma SegmentAtSeparator(s: string, c: char)
    ensures LastSegment(s + [c], c) == []
  {
    assert (s + [c])[|s|] == c;
  }

  lemma SegmentGrows(s: string, x: char, c: char)
    requires x != c
    ensures LastSegment(s + [x], c) == LastSegment(s, c) + [x]
  {
    assert (s + [x])[..|s|] == s;
  }
}
