/** The few System.String operations the modelled code relies on, over
    `string`. A Dafny `char` is a Unicode scalar value while .NET counts
    UTF-16 code units, so lengths differ for text outside the Basic
    Multilingual Plane; the modelled code uses a length only to test it
    against zero, where the two agree. */
module Text {

  /** Number of occurrences of `c` in `s`. */
  function Count(s: string, c: char): nat {
    if s == [] then 0 else (if s[0] == c then 1 else 0) + Count(s[1..], c)
  }

  lemma {:induction false} CountOfMember(s: string, c: char)
    requires c in s
    ensures Count(s, c) >= 1
  {
    if s[0] != c {
      CountOfMember(s[1..], c);
    }
  }

  /** `s.Split(new[] { c }, StringSplitOptions.None)`: the pieces between
      the separators, empty pieces included. */
  function Split(s: string, c: char): (r: seq<string>)
    ensures |r| == Count(s, c) + 1
  {
    if s == [] then [""]
    else
      var rest := Split(s[1..], c);
      if s[0] == c then [""] + rest
      else [[s[0]] + rest[0]] + rest[1..]
  }

  /** `string.Join(c, xs)`. */
  function Join(xs: seq<string>, c: char): string {
    if xs == [] then ""
    else if |xs| == 1 then xs[0]
    else xs[0] + [c] + Join(xs[1..], c)
  }

  lemma {:induction false} SplitWithoutSeparator(s: string, c: char)
    requires c !in s
    ensures Split(s, c) == [s]
  {
    if s != [] {
      assert s[0] != c && c !in s[1..];
      SplitWithoutSeparator(s[1..], c);
      assert s == [s[0]] + s[1..];
    }
  }

  /** The pieces of `a + b`, given the pieces of `a` and of `b`: the last
      piece of `a` is glued to the first piece of `b`. */
  function Glue(xs: seq<string>, ys: seq<string>): seq<string>
    requires |xs| >= 1 && |ys| >= 1
  {
    xs[..|xs| - 1] + [xs[|xs| - 1] + ys[0]] + ys[1..]
  }
  lemma GlueCons(x: string, xs: seq<string>, ys: seq<string>)
    requires |xs| >= 1 && |ys| >= 1
    ensures Glue([x] + xs, ys) == [x] + Glue(xs, ys)
  {
    assert ([x] + xs)[..|xs|] == [x] + xs[..|xs| - 1];
  }
  lemma GlueHead(x: string, xs: seq<string>, ys: seq<string>)
    requires |xs| >= 1 && |ys| >= 1
    ensures |Glue(xs, ys)| >= 1
    ensures Glue([x + xs[0]] + xs[1..], ys) == [x + Glue(xs, ys)[0]] + Glue(xs, ys)[1..]
  {
    var g := Glue(xs, ys);
    if |xs| == 1 {
      assert g == [xs[0] + ys[0]] + ys[1..];
      assert x + xs[0] + ys[0] == x + (xs[0] + ys[0]);
    } else {
      GlueCons(xs[0], xs[1..], ys);
      GlueCons(x + xs[0], xs[1..], ys);
      assert [xs[0]] + xs[1..] == xs;
    }
  }
  /** Splitting a concatenation. */
  lemma {:induction false} SplitConcat(a: string, b: string, c: char)
    ensures Split(a + b, c) == Glue(Split(a, c), Split(b, c))
  {
    var sb := Split(b, c);
    if a == [] {
      assert a + b == b;
      assert Split(a, c) == [""];
      assert "" + sb[0] == sb[0];
      assert [sb[0]] + sb[1..] == sb;
    } else {
      assert (a + b)[1..] == a[1..] + b;
      SplitConcat(a[1..], b, c);
      var sr := Split(a[1..], c);
      if a[0] == c {
        GlueCons("", sr, sb);
      } else {
        GlueHead([a[0]], sr, sb);
        var g := Glue(sr, sb);
        assert [a[0]] + g[0] == [a[0]] + Split(a[1..] + b, c)[0];
      }
    }
  }

  /** A separator followed by text without one splits into "" and that text. */
  lemma SplitAfterSeparator(b: string, c: char)
    requires c !in b
    ensures Split([c] + b, c) == ["", b]
  {
    assert ([c] + b)[1..] == b;
    SplitWithoutSeparator(b, c);
  }

  /** A prefix without separator is glued to the first piece. */
  lemma SplitAfterPrefix(a: string, b: string, c: char)
    requires c !in a
    ensures Split(a + b, c) == [a + Split(b, c)[0]] + Split(b, c)[1..]
  {
    var sb := Split(b, c);
    SplitWithoutSeparator(a, c);
    SplitConcat(a, b, c);
    assert [a][..0] == [];
    assert Glue([a], sb) == [a + sb[0]] + sb[1..];
  }

  /** Text up to the first separator is the first piece, and a separator
      follows it. */
  lemma SplitFirstPiece(a: string, b: string, c: char)
    requires c !in a && |b| > 0 && b[0] == c
    ensures var pieces := Split(a + b, c); |pieces| >= 2 && pieces[0] == a
  {
    SplitAfterPrefix(a, b, c);
    var tail := Split(b, c);
    assert tail == [""] + Split(b[1..], c);
    assert a + "" == a;
  }

  /** Splitting a longer text: the complete pieces of the first part, then
      the pieces of its last piece continued by the rest. */
  lemma SplitAcrossLastPiece(a: string, b: string, c: char)
    ensures var pa := Split(a, c);
      Split(a + b, c) == pa[..|pa| - 1] + Split(pa[|pa| - 1] + b, c)
  {
    var pa := Split(a, c);
    var last := pa[|pa| - 1];
    var pb := Split(b, c);
    SplitConcat(a, b, c);
    assert c !in last by { SplitPiecesFree(a, c); }
    SplitAfterPrefix(last, b, c);
    GlueLast(pa, pb, Split(last + b, c));
  }

  /** `Glue` keeps the complete pieces of its left side. */
  lemma GlueLast(xs: seq<string>, ys: seq<string>, tail: seq<string>)
    requires |xs| >= 1 && |ys| >= 1
    requires tail == [xs[|xs| - 1] + ys[0]] + ys[1..]
    ensures Glue(xs, ys) == xs[..|xs| - 1] + tail
  {
  }

  /** Joining the pieces of a split gives back the string. */
  lemma {:induction false} JoinSplit(s: string, c: char)
    ensures Join(Split(s, c), c) == s
  {
    if s != [] {
      JoinSplit(s[1..], c);
      var rest := Split(s[1..], c);
      if s[0] == c {
        assert Split(s, c) == [""] + rest;
        assert ([""] + rest)[1..] == rest;
        assert s == [c] + s[1..];
      } else {
        if |rest| == 1 {
          assert s == [s[0]] + rest[0];
        } else {
          assert Join(rest, c) == rest[0] + [c] + Join(rest[1..], c);
          var xs := [[s[0]] + rest[0]] + rest[1..];
          assert xs[1..] == rest[1..];
          assert s == [s[0]] + s[1..];
        }
      }
    }
  }

  /** Splitting a join of separator-free pieces gives back the pieces. */
  lemma {:induction false} SplitJoin(xs: seq<string>, c: char)
    requires |xs| >= 1
    requires forall i :: 0 <= i < |xs| ==> c !in xs[i]
    ensures Split(Join(xs, c), c) == xs
  {
    if |xs| > 1 {
      SplitJoin(xs[1..], c);
      var tail := [c] + Join(xs[1..], c);
      assert Join(xs, c) == xs[0] + tail;
      SplitAfterPrefix(xs[0], tail, c);
      assert tail[0] == c && tail[1..] == Join(xs[1..], c);
      assert Split(tail, c) == [""] + Split(tail[1..], c);
      assert Split(tail, c) == [""] + xs[1..];
      assert xs[0] + "" == xs[0];
      assert [xs[0]] + xs[1..] == xs;
    } else {
      SplitWithoutSeparator(xs[0], c);
    }
  }

  /** No piece of a split holds the separator. */
  lemma {:induction false} SplitPiecesFree(s: string, c: char)
    ensures forall i :: 0 <= i < |Split(s, c)| ==> c !in Split(s, c)[i]
  {
    if s != [] {
      SplitPiecesFree(s[1..], c);
      var rest := Split(s[1..], c);
      if s[0] != c {
        var r := Split(s, c);
        assert r == [[s[0]] + rest[0]] + rest[1..];
        forall i | 0 <= i < |r| ensures c !in r[i] {
          if i > 0 {
            assert r[i] == rest[i];
          }
        }
      }
    }
  }

  /** Appending one more piece to a non-empty join. */
  lemma {:induction false} JoinSnoc(xs: seq<string>, x: string, c: char)
    requires |xs| >= 1
    ensures Join(xs + [x], c) == Join(xs, c) + [c] + x
  {
    if |xs| > 1 {
      assert (xs + [x])[1..] == xs[1..] + [x];
      JoinSnoc(xs[1..], x, c);
    }
  }

  /** The last piece of a split is the text after the last separator. */
  lemma SplitLastPiece(s: string, c: char)
    ensures var pieces := Split(s, c);
      var last := pieces[|pieces| - 1];
      && c !in last
      && |last| <= |s| && s[|s| - |last|..] == last
      && (|last| < |s| ==> s[|s| - |last| - 1] == c)
  {
    var pieces := Split(s, c);
    var n := |pieces|;
    var last := pieces[n - 1];
    SplitPiecesFree(s, c);
    JoinSplit(s, c);
    if n > 1 {
      assert pieces == pieces[..n - 1] + [last];
      JoinSnoc(pieces[..n - 1], last, c);
      var front := Join(pieces[..n - 1], c);
      assert s == front + [c] + last;
      assert s[|s| - |last|..] == last;
      assert s[|s| - |last| - 1] == c;
    } else {
      assert s == last;
    }
  }

  /** `s.StartsWith(p)` (ordinal). */
  predicate IsPrefix(p: string, s: string) {
    |p| <= |s| && s[..|p|] == p
  }

  /** `s.Contains(sub)` (ordinal). */
  predicate Contains(s: string, sub: string)
    decreases |s|
  {
    IsPrefix(sub, s) || (s != [] && Contains(s[1..], sub))
  }

  /** `Contains` holds exactly when `sub` occurs at some position. */
  lemma {:induction false} ContainsAt(s: string, sub: string, k: nat)
    requires k + |sub| <= |s| && s[k..k + |sub|] == sub
    ensures Contains(s, sub)
  {
    if k > 0 {
      assert s[1..][k - 1..k - 1 + |sub|] == s[k..k + |sub|];
      ContainsAt(s[1..], sub, k - 1);
    }
  }

  lemma {:induction false} ContainsInLeft(a: string, b: string, sub: string)
    requires Contains(a, sub)
    ensures Contains(a + b, sub)
  {
    if IsPrefix(sub, a) {
      assert (a + b)[..|sub|] == a[..|sub|];
    } else {
      assert (a + b)[1..] == a[1..] + b;
      ContainsInLeft(a[1..], b, sub);
    }
  }

  lemma {:induction false} ContainsInRight(a: string, b: string, sub: string)
    requires Contains(b, sub)
    ensures Contains(a + b, sub)
  {
    if a == [] {
      assert a + b == b;
    } else {
      assert (a + b)[1..] == a[1..] + b;
      ContainsInRight(a[1..], b, sub);
    }
  }

  /** A string shorter than `sub` does not contain it. */
  lemma {:induction false} ShorterNotContains(s: string, sub: string)
    requires |s| < |sub|
    ensures !Contains(s, sub)
  {
    if s != [] {
      ShorterNotContains(s[1..], sub);
    }
  }

  /** Every character of a contained string occurs in the string. */
  lemma {:induction false} ContainedCharsOccur(s: string, sub: string, i: nat)
    requires Contains(s, sub) && i < |sub|
    ensures sub[i] in s
    decreases |s|
  {
    if IsPrefix(sub, s) {
      assert s[i] == sub[i];
    } else {
      ContainedCharsOccur(s[1..], sub, i);
      var j :| 0 <= j < |s[1..]| && s[1..][j] == sub[i];
      assert s[j + 1] == sub[i];
    }
  }

  /** `s.LastIndexOf(c)`: the position of the last `c`, or -1. */
  function LastIndexOf(s: string, c: char): (r: int)
    ensures -1 <= r < |s|
    ensures r >= 0 ==> s[r] == c
    ensures forall j :: r < j < |s| ==> s[j] != c
  {
    if s == [] then -1
    else if s[|s| - 1] == c then |s| - 1
    else LastIndexOf(s[..|s| - 1], c)
  }

  /** `s.Replace(a, b)` on characters. */
  function ReplaceChar(s: string, a: char, b: char): (r: string)
    ensures |r| == |s|
    ensures forall i :: 0 <= i < |s| ==> r[i] == (if s[i] == a then b else s[i])
  {
    if s == [] then [] else [if s[0] == a then b else s[0]] + ReplaceChar(s[1..], a, b)
  }

  /** `s.Replace(pat, rep)` on strings: left to right, non-overlapping. */
  function ReplaceAll(s: string, pat: string, rep: string): (r: string)
    requires pat != []
    decreases |s|
  {
    if |s| < |pat| then s
    else if s[..|pat|] == pat then rep + ReplaceAll(s[|pat|..], pat, rep)
    else [s[0]] + ReplaceAll(s[1..], pat, rep)
  }

  lemma {:induction false} ReplaceAllAbsent(s: string, pat: string, rep: string)
    requires pat != [] && !Contains(s, pat)
    ensures ReplaceAll(s, pat, rep) == s
    decreases |s|
  {
    if |s| >= |pat| {
      assert s[..|pat|] != pat;
      ReplaceAllAbsent(s[1..], pat, rep);
      assert s == [s[0]] + s[1..];
    }
  }

  /** Removing a suffix `pat` that occurs nowhere else: when the first
      character of `pat` does not recur in it, no occurrence can start in
      `n` and end in the suffix. */
  lemma {:induction false} ReplaceAllDropsSuffix(n: string, pat: string)
    requires pat != [] && pat[0] !in pat[1..] && !Contains(n, pat)
    ensures ReplaceAll(n + pat, pat, "") == n
    decreases |n|
  {
    var s := n + pat;
    if n == [] {
      assert s == pat;
      assert s[..|pat|] == pat && s[|pat|..] == [];
    } else {
      assert s[..|pat|] != pat by {
        if |n| >= |pat| {
          assert !IsPrefix(pat, n);
          assert s[..|pat|] == n[..|pat|];
        } else {
          assert pat[1..][|n| - 1] == pat[|n|];
          assert pat[|n|] != pat[0];
          assert s[..|pat|][|n|] == pat[0];
        }
      }
      assert s[1..] == n[1..] + pat;
      assert !Contains(n[1..], pat);
      ReplaceAllDropsSuffix(n[1..], pat);
      assert [n[0]] + n[1..] == n;
    }
  }

  predicate IsDigit(c: char) { '0' <= c <= '9' }

  predicate AllDigits(s: string) { forall i :: 0 <= i < |s| ==> IsDigit(s[i]) }

  /** Decimal rendering of a natural number (`int.ToString()` for n >= 0). */
  function NatToString(n: nat): (r: string)
    ensures |r| >= 1 && AllDigits(r)
  {
    if n < 10 then ["0123456789"[n]]
    else NatToString(n / 10) + ["0123456789"[n % 10]]
  }

  /** Value of a string of decimal digits. */
  function DigitsValue(s: string): nat
    requires AllDigits(s)
  {
    if s == [] then 0 else 10 * DigitsValue(s[..|s| - 1]) + (s[|s| - 1] as int - '0' as int)
  }

  /** Reading back a rendered number gives the number. */
  lemma {:induction false} DigitsValueOfNatToString(n: nat)
    ensures DigitsValue(NatToString(n)) == n
  {
    if n >= 10 {
      DigitsValueOfNatToString(n / 10);
      var s := NatToString(n);
      assert s[..|s| - 1] == NatToString(n / 10);
    }
  }

  /** `char.ToLowerInvariant` restricted to ASCII letters. */
  function LowerAscii(c: char): char {
    if 'A' <= c <= 'Z' then (c as int + 32) as char else c
  }

  /** `s.ToLowerInvariant()` restricted to ASCII letters. */
  function ToLowerAscii(s: string): (r: string)
    ensures |r| == |s|
    ensures forall i :: 0 <= i < |s| ==> r[i] == LowerAscii(s[i])
  {
    if s == [] then [] else [LowerAscii(s[0])] + ToLowerAscii(s[1..])
  }
}
