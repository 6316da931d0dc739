/**
  The part of Python's `os.path.splitext` (POSIX flavour, `genericpath._splitext`)
  that `get_image_mime_type` relies on: the extension is the text from the
  last dot of the final path component, unless that component has only dots
  before it (a hidden file such as `.png` has no extension).
 */
module PosixPath {

  /** `s.rfind(c)`: the index of the last `c`, or -1. */
  function RFind(s: string, c: char): (r: int)
    ensures -1 <= r < |s|
    ensures r >= 0 ==> s[r] == c
    ensures forall j :: r < j < |s| ==> s[j] != c
  {
    if |s| == 0 then -1
    else if s[|s| - 1] == c then |s| - 1
    else RFind(s[..|s| - 1], c)
  }

  /** The final component of `p` (after its last `/`) holds a character other than `.`. */
  predicate HasStem(p: string)
  {
    exists i :: RFind(p, '/') < i < |p| && p[i] != '.'
  }

  /** A well-formed extension: a dot followed by text without dots or separators. */
  predicate IsExtension(ext: string)
  {
    |ext| >= 1 && ext[0] == '.' && '.' !in ext[1..] && '/' !in ext
  }

  /** `os.path.splitext(p)`: the pair `(root, ext)`. */
  function SplitExt(p: string): (parts: (string, string))
    ensures parts.0 + parts.1 == p
    ensures parts.1 == "" || IsExtension(parts.1)
    ensures parts.1 != "" ==> HasStem(parts.0)
  {
    var sepIndex := RFind(p, '/');
    var dotIndex := RFind(p, '.');
    if dotIndex > sepIndex && exists i :: sepIndex + 1 <= i < dotIndex && p[i] != '.' then
      var root := p[..dotIndex];
      assert RFind(root, '/') == sepIndex by {
        RFindPrefix(p, '/', dotIndex);
      }
      (root, p[dotIndex..])
    else
      (p, "")
  }

  /** The last occurrence in a prefix that still contains it is unchanged. */
  lemma RFindPrefix(s: string, c: char, n: nat)
    requires RFind(s, c) < n <= |s|
    ensures RFind(s[..n], c) == RFind(s, c)
  {
    RFindUnique(s[..n], c, RFind(s, c));
  }

  /** `RFind` is the only index with the last-occurrence property. */
  lemma {:induction false} RFindUnique(s: string, c: char, k: int)
    requires -1 <= k < |s|
    requires k >= 0 ==> s[k] == c
    requires forall j :: k < j < |s| ==> s[j] != c
    ensures RFind(s, c) == k
    decreases |s|
  {
    if |s| == 0 {
    } else if s[|s| - 1] == c {
    } else {
      var init := s[..|s| - 1];
      assert forall j :: k < j < |init| ==> init[j] != c by {
        forall j | k < j < |init|
          ensures init[j] != c
        {
          assert init[j] == s[j];
        }
      }
      RFindUnique(init, c, k);
    }
  }

  /** Appending `"." + e` to a path whose last component has a stem makes `"." + e` the extension. */
  lemma AppendedExtension(stem: string, e: string)
    requires HasStem(stem)
    requires '.' !in e && '/' !in e
    ensures SplitExt(stem + "." + e) == (stem, "." + e)
  {
    var p := stem + "." + e;
    var dot := |stem|;
    assert p[dot] == '.';
    RFindUnique(p, '.', dot) by {
      forall j | dot < j < |p|
        ensures p[j] != '.'
      {
        assert p[j] == e[j - dot - 1];
      }
    }
    var sep := RFind(stem, '/');
    RFindUnique(p, '/', sep) by {
      forall j | sep < j < |p|
        ensures p[j] != '/'
      {
        if j < |stem| {
          assert p[j] == stem[j];
        } else if j > dot {
          assert p[j] == e[j - dot - 1];
        }
      }
    }
    var i :| sep < i < |stem| && stem[i] != '.';
    assert p[i] == stem[i];
    assert p[..dot] == stem;
    assert p[dot..] == "." + e;
  }

  /** A final component that is a dot followed by a dot-free name (`.png`, `dir/.bashrc`) has no extension. */
  lemma HiddenFileHasNoExtension(dir: string, name: string)
    requires dir == "" || dir[|dir| - 1] == '/'
    requires '.' !in name && '/' !in name
    ensures SplitExt(dir + "." + name) == (dir + "." + name, "")
  {
    var p := dir + "." + name;
    var dot := |dir|;
    RFindUnique(p, '.', dot) by {
      forall j | dot < j < |p|
        ensures p[j] != '.'
      {
        assert p[j] == name[j - dot - 1];
      }
    }
    RFindUnique(p, '/', dot - 1) by {
      forall j | dot - 1 < j < |p|
        ensures p[j] != '/'
      {
        if j > dot {
          assert p[j] == name[j - dot - 1];
        }
      }
    }
  }
}
