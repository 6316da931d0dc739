/**
  `get_image_mime_type` of `src/utils/utils.py`: the MIME type of an image
  path, decided by its lower-cased final extension alone; no file is opened.
 */
module Utils {
  import opened Results
  import opened PosixPath

  /** The `ValueError` raised for an extension with no known image type. */
  datatype MimeError = UnsupportedFormat(ext: string)

  /** `c.lower()` on the ASCII range; every other character is left alone. */
  function LowerChar(c: char): char
  {
    if 'A' <= c <= 'Z' then (c as int + 32) as char else c
  }

  /** `s.lower()`, character by character. */
  function Lower(s: string): (r: string)
    ensures |r| == |s|
    ensures forall i :: 0 <= i < |s| && 'A' <= s[i] <= 'Z' ==> r[i] as int == s[i] as int + 32
    ensures forall i :: 0 <= i < |s| && !('A' <= s[i] <= 'Z') ==> r[i] == s[i]
  {
    seq(|s|, i requires 0 <= i < |s| => LowerChar(s[i]))
  }

  /** The extensions `get_image_mime_type` accepts, already lower-cased. */
  const Supported: set<string> := {".jpg", ".jpeg", ".png", ".webp"}

  /** The table for a lower-cased extension. */
  function MimeForExtension(ext: string): Result<string, MimeError>
  {
    if ext in [".jpg", ".jpeg"] then Ok("image/jpeg")
    else if ext == ".png" then Ok("image/png")
    else if ext == ".webp" then Ok("image/webp")
    else Err(UnsupportedFormat(ext))
  }

  /** `get_image_mime_type(path)`. */
  function MimeType(path: string): (r: Result<string, MimeError>)
    ensures var ext := Lower(SplitExt(path).1);
            && (r.Ok? <==> ext in Supported)
            && (r.Ok? ==> r.value == "image/" + (if ext == ".jpg" then "jpeg" else ext[1..]))
            && (r.Err? ==> r.error == UnsupportedFormat(ext))
  {
    MimeForExtension(Lower(SplitExt(path).1))
  }

  /** Lower-casing keeps the dots and separators where they were. */
  lemma {:induction false} RFindLower(s: string, c: char)
    requires c == '.' || c == '/'
    ensures RFind(Lower(s), c) == RFind(s, c)
  {
    var k := RFind(s, c);
    var t := Lower(s);
    assert k >= 0 ==> t[k] == c;
    assert forall j :: k < j < |t| ==> t[j] != c by {
      forall j | k < j < |t|
        ensures t[j] != c
      {
        assert s[j] != c;
      }
    }
    RFindUnique(t, c, k);
  }

  /** Lower-casing keeps the non-dot characters of a range non-dot. */
  lemma StemOfLower(p: string, lo: int, hi: int)
    requires 0 <= lo && hi <= |p|
    ensures (exists i :: lo <= i < hi && p[i] != '.')
        <==> (exists i :: lo <= i < hi && Lower(p)[i] != '.')
  {
    if exists i :: lo <= i < hi && p[i] != '.' {
      var i :| lo <= i < hi && p[i] != '.';
      assert Lower(p)[i] == LowerChar(p[i]);
    }
    if exists i :: lo <= i < hi && Lower(p)[i] != '.' {
      var i :| lo <= i < hi && Lower(p)[i] != '.';
      assert Lower(p)[i] == LowerChar(p[i]);
    }
  }

  /** Lower-casing commutes with taking a suffix. */
  lemma LowerSuffix(p: string, k: nat)
    requires k <= |p|
    ensures Lower(p)[k..] == Lower(p[k..])
  {
  }

  /** Splitting the lower-cased path gives the lower-cased extension. */
  lemma ExtensionOfLower(p: string)
    ensures SplitExt(Lower(p)).1 == Lower(SplitExt(p).1)
  {
    var t := Lower(p);
    RFindLower(p, '/');
    RFindLower(p, '.');
    var sep := RFind(p, '/');
    var dot := RFind(p, '.');
    if dot > sep {
      StemOfLower(p, sep + 1, dot);
      LowerSuffix(p, dot);
    } else {
      assert SplitExt(p).1 == "";
      assert SplitExt(t).1 == "";
    }
  }

  /** Lower-casing twice is lower-casing once. */
  lemma LowerIdempotent(s: string)
    ensures Lower(Lower(s)) == Lower(s)
  {
  }

  /** Matching ignores case: a path and its lower-cased form get the same answer. */
  lemma CaseInsensitive(p: string)
    ensures MimeType(Lower(p)) == MimeType(p)
  {
    ExtensionOfLower(p);
    LowerIdempotent(SplitExt(p).1);
  }

  /** Only the final extension counts: `x.png` + `.jpg` is decided by `.jpg` alone. */
  lemma FinalExtensionDecides(stem: string, e: string)
    requires HasStem(stem)
    requires '.' !in e && '/' !in e
    ensures MimeType(stem + "." + e) == MimeForExtension(Lower("." + e))
  {
    AppendedExtension(stem, e);
  }

  /** A hidden file name such as `.png` has no extension and is refused. */
  lemma HiddenFileRefused(dir: string, name: string)
    requires dir == "" || dir[|dir| - 1] == '/'
    requires '.' !in name && '/' !in name
    ensures MimeType(dir + "." + name) == Err(UnsupportedFormat(""))
  {
    HiddenFileHasNoExtension(dir, name);
  }

  /** `.png` is refused: a leading dot does not start an extension. */
  lemma ExampleHiddenFile()
    ensures MimeType(".png") == Err(UnsupportedFormat(""))
  {
    HiddenFileRefused("", "png");
    assert "" + "." + "png" == ".png";
  }
}
