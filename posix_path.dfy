/**
 * The part of Python's `os.path` (POSIX flavour) that `savepng` relies on:
 * `splitext`, which splits a path into a root and an extension.
 */
module PosixPath {
  /** Index of the last occurrence of `ch` in `p`, or -1 (Python's `str.rfind`). */
  function RFind(p: string, ch: char): (k: int)
    ensures -1 <= k < |p|
    ensures k >= 0 ==> p[k] == ch
    ensures forall j :: k < j < |p| ==> p[j] != ch
  {
    if |p| == 0 then -1
    else if p[|p| - 1] == ch then |p| - 1
    else RFind(p[..|p| - 1], ch)
  }

  /** RFind is determined by its contract: the last `ch`, or -1 when there is none. */
  lemma RFindUnique(p: string, ch: char, k: int)
    requires -1 <= k < |p|
    requires k >= 0 ==> p[k] == ch
    requires forall j :: k < j < |p| ==> p[j] != ch
    ensures RFind(p, ch) == k
  {
  }

  /** Appending text that does not contain `ch` leaves the last `ch` where it was. */
  lemma {:induction false} RFindAppend(p: string, s: string, ch: char)
    requires ch !in s
    ensures RFind(p + s, ch) == RFind(p, ch)
  {
    if |s| > 0 {
      assert (p + s)[..|p + s| - 1] == p + s[..|s| - 1];
      assert s[|s| - 1] in s;
      RFindAppend(p, s[..|s| - 1], ch);
    } else {
      assert p + s == p;
    }
  }

  /**
   * The file-name part of `p` (after the last '/') holds a character other than
   * '.' strictly between `from` and `to`.
   */
  predicate HasNonDotBetween(p: string, from: int, to: int)
    requires -1 <= from && to <= |p|
  {
    exists k :: from < k < to && p[k] != '.'
  }

  /**
   * `os.path.splitext(p)` for '/' as separator: the extension starts at the
   * last '.' of the last path component, unless that component consists of
   * dots up to there (leading dots do not start an extension).
   */
  function SplitExt(p: string): (parts: (string, string))
    ensures parts.0 + parts.1 == p
    ensures parts.1 == [] || (parts.1[0] == '.' && '.' !in parts.1[1..] && '/' !in parts.1)
  {
    var sep := RFind(p, '/');
    var dot := RFind(p, '.');
    if dot > sep && HasNonDotBetween(p, sep, dot) then
      assert forall j :: dot < j < |p| ==> p[j] != '.' && p[j] != '/';
      assert p[..dot] + p[dot..] == p;
      (p[..dot], p[dot..])
    else
      (p, [])
  }

  /** The last path component of `p` holds a character other than '.'. */
  predicate HasStem(p: string) {
    HasNonDotBetween(p, RFind(p, '/'), |p|)
  }

  /**
   * Round trip: a root whose last component has a stem, followed by '.' and a
   * suffix without '.' or '/', splits back into that root and that extension.
   */
  lemma SplitExtAtLastDot(root: string, suffix: string)
    requires HasStem(root)
    requires '.' !in suffix && '/' !in suffix
    ensures SplitExt(root + ['.'] + suffix) == (root, ['.'] + suffix)
  {
    var ext := ['.'] + suffix;
    var p := root + ext;
    assert root + ['.'] + suffix == p;
    RFindAppend(root, ext, '/');
    var sep := RFind(root, '/');
    forall j | |root| < j < |p| ensures p[j] != '.' {
      assert p[j] == suffix[j - |root| - 1];
    }
    RFindUnique(p, '.', |root|);
    var k :| sep < k < |root| && root[k] != '.';
    assert p[k] != '.';
    assert p[..|root|] == root && p[|root|..] == ext;
  }

  /**
   * No extension exactly when the last path component has no '.', or holds
   * only dots before its last '.'.
   */
  lemma SplitExtNoExtension(p: string)
    ensures SplitExt(p).1 == [] <==>
              (forall j :: RFind(p, '/') < j < |p| ==> p[j] != '.') ||
              (forall j :: RFind(p, '/') < j < RFind(p, '.') ==> p[j] == '.')
  {
    var sep, dot := RFind(p, '/'), RFind(p, '.');
    if dot > sep && HasNonDotBetween(p, sep, dot) {
      var k :| sep < k < dot && p[k] != '.';
      assert !(forall j :: sep < j < |p| ==> p[j] != '.') by {
        assert p[dot] == '.';
      }
    }
  }
}
