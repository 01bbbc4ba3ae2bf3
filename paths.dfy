/** System.IO.Path on Unix, over plain strings: '/' is the only separator
    and a path is rooted when it starts with '/'. `None` stands for the
    `null` that GetDirectoryName returns for an empty path or a bare root. */
module Paths {
  import opened Common
  import opened Text

  /** Length of the root of a path: 1 for a leading '/', else 0. */
  function RootLength(p: string): nat {
    if |p| > 0 && p[0] == '/' then 1 else 0
  }

  /** Walks back over a run of separators ending at `e`, never past the root. */
  function TrimSeparators(p: string, e: nat, root: nat): (r: nat)
    requires root <= e <= |p|
    ensures root <= r <= e
    ensures r == root || p[r - 1] != '/'
    ensures forall j :: r <= j < e ==> p[j] == '/'
    decreases e
  {
    if e > root && p[e - 1] == '/' then TrimSeparators(p, e - 1, root) else e
  }

  /** `Path.GetDirectoryName`: everything before the last separator, with the
      run of separators in front of it dropped, but never the root. */
  function DirectoryName(p: string): Option<string> {
    var root := RootLength(p);
    if |p| <= root then None
    else
      var i := LastIndexOf(p, '/');
      var e := if i < root then root else i;
      Some(p[..TrimSeparators(p, e, root)])
  }

  /** `Path.GetFileName`: everything after the last separator. */
  function FileName(p: string): (r: string)
    ensures '/' !in r
  {
    p[LastIndexOf(p, '/') + 1..]
  }

  /** `Path.GetFileNameWithoutExtension` of a file name: up to its last '.'. */
  function NameStem(n: string): string {
    var d := LastIndexOf(n, '.');
    if d < 0 then n else n[..d]
  }

  /** `Path.GetExtension` of a file name: from its last '.', except that a
      name ending in '.' has the empty extension. */
  function NameExtension(n: string): string {
    var d := LastIndexOf(n, '.');
    if d < 0 || d == |n| - 1 then "" else n[d..]
  }

  function Stem(p: string): string { NameStem(FileName(p)) }

  function Extension(p: string): string { NameExtension(FileName(p)) }

  /** `Path.Combine(a, b)` for two non-null strings. */
  function Combine(a: string, b: string): string {
    if b == "" then a
    else if a == "" then b
    else if b[0] == '/' then b
    else if a[|a| - 1] == '/' then a + b
    else a + "/" + b
  }

  /** What GetDirectoryName can return: empty, the root, or a path that does
      not end in a separator. */
  predicate NormalDirectory(d: string) {
    d == "" || d == "/" || d[|d| - 1] != '/'
  }

  /** The last '.' (or '/') of a string is determined by the properties that
      `LastIndexOf` promises. */
  lemma LastIndexOfIs(s: string, c: char, r: int)
    requires -1 <= r < |s|
    requires r >= 0 ==> s[r] == c
    requires forall j :: r < j < |s| ==> s[j] != c
    ensures LastIndexOf(s, c) == r
  {
  }

  /** A directory name is empty only for a path without separator, and never
      ends in a separator unless it is the root. */
  lemma DirectoryNameIsNormal(p: string)
    requires DirectoryName(p).Some?
    ensures NormalDirectory(DirectoryName(p).value)
    ensures DirectoryName(p).value == "" <==> '/' !in p
  {
    var root := RootLength(p);
    var i := LastIndexOf(p, '/');
    var e := if i < root then root else i;
    var t := TrimSeparators(p, e, root);
    if '/' in p {
      var k :| 0 <= k < |p| && p[k] == '/';
      assert i >= k;
      if root == 0 {
        assert p[0] != '/';
        assert t > 0;
      }
    }
  }

  /** Combining a directory with a plain file name gives a path whose
      directory and file name are those two again. */
  lemma CombineInDirectory(d: string, n: string)
    requires NormalDirectory(d)
    requires n != "" && '/' !in n
    ensures DirectoryName(Combine(d, n)) == Some(d)
    ensures FileName(Combine(d, n)) == n
  {
    if d == "" {
      var p := Combine(d, n);
      assert p == n;
      LastIndexOfIs(p, '/', -1);
      assert p[..0] == "";
    } else if d == "/" {
      var p := Combine(d, n);
      assert p == "/" + n;
      LastIndexOfIs(p, '/', 0);
    } else {
      CombineUnder(d, n, Combine(d, n));
    }
  }

  /** `CombineInDirectory` for a directory other than "" and the root. */
  lemma CombineUnder(d: string, n: string, p: string)
    requires d != "" && d != "/" && d[|d| - 1] != '/'
    requires n != "" && '/' !in n
    requires p == d + "/" + n
    ensures DirectoryName(p) == Some(d)
    ensures FileName(p) == n
  {
    assert p[|d|] == '/' && p[|d| - 1] == d[|d| - 1];
    LastIndexOfIs(p, '/', |d|);
    assert RootLength(p) <= |d|;
    assert TrimSeparators(p, |d|, RootLength(p)) == |d|;
    assert p[..|d|] == d;
    assert p[|d| + 1..] == n;
  }

  /** The stem and extension of `s + e`, where `e` is a proper extension
      (a '.' followed by at least one character and no other '.'), or empty
      while `s` has no '.' at all. */
  lemma NameParts(s: string, e: string)
    requires (e == "" && '.' !in s) || (|e| >= 2 && e[0] == '.' && '.' !in e[1..])
    ensures NameStem(s + e) == s
    ensures NameExtension(s + e) == e
  {
    var n := s + e;
    if e == "" {
      assert n == s;
      LastIndexOfIs(n, '.', -1);
    } else {
      forall j | |s| < j < |n| ensures n[j] != '.' {
        assert n[j] == e[1..][j - |s| - 1];
      }
      LastIndexOfIs(n, '.', |s|);
      assert n[..|s|] == s;
      assert n[|s|..] == e;
    }
  }

  /** The extension of a file name is proper or empty, as `NameParts` needs,
      and stem and extension have no separator. */
  lemma NameExtensionShape(n: string)
    ensures var e := NameExtension(n);
      e == "" || (|e| >= 2 && e[0] == '.' && '.' !in e[1..])
    ensures '/' in NameStem(n) ==> '/' in n
    ensures '/' in NameExtension(n) ==> '/' in n
  {
  }
}
