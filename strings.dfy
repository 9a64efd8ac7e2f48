/**
  Text operations the settings code relies on: splitting a stored string on a
  separator character (.NET `String.Split(char)`), joining a list with a
  separator (the `StringBuilder` loop in `Save`), and literal replace-all
  (.NET `StringBuilder.Replace(string, string)`).
 */
module Strings {

  /** `pat` occurs in `s` starting at index `i`. */
  predicate HasAt(s: string, pat: string, i: int)
  {
    0 <= i && i + |pat| <= |s| && s[i..i + |pat|] == pat
  }

  /** `pat` occurs somewhere in `s`. */
  predicate Contains(s: string, pat: string)
  {
    exists i | 0 <= i <= |s| :: HasAt(s, pat, i)
  }

  /** The elements of `ps` with `sep` between consecutive ones, and nowhere else. */
  function JoinWith(ps: seq<string>, sep: string): (joined: string)
  {
    if |ps| == 0 then ""
    else if |ps| == 1 then ps[0]
    else ps[0] + sep + JoinWith(ps[1..], sep)
  }

  /**
    `s.Split(sep)`: the maximal runs of `s` between occurrences of `sep`,
    including empty runs; the empty string splits into `[""]`.
   */
  function Split(s: string, sep: char): (r: seq<string>)
    ensures |r| >= 1
    ensures forall k | 0 <= k < |r| :: sep !in r[k]
    decreases |s|
  {
    if s == [] then [""]
    else
      var tail := Split(s[1..], sep);
      if s[0] == sep then [""] + tail
      else [[s[0]] + tail[0]] + tail[1..]
  }

  /**
    `StringBuilder.Replace(pat, rep)`: scans left to right; every occurrence of
    `pat` that does not overlap an earlier replaced one becomes `rep`, and the
    inserted `rep` is not scanned again. .NET refuses an empty `pat`.
   */
  function ReplaceAll(s: string, pat: string, rep: string): (r: string)
    requires |pat| > 0
    decreases |s|
  {
    if |s| < |pat| then s
    else if s[..|pat|] == pat then rep + ReplaceAll(s[|pat|..], pat, rep)
    else [s[0]] + ReplaceAll(s[1..], pat, rep)
  }

  // ---------------------------------------------------------------- split/join

  lemma {:induction false} SplitNoSeparator(x: string, sep: char)
    requires sep !in x
    ensures Split(x, sep) == [x]
    decreases |x|
  {
    if x != [] {
      SplitNoSeparator(x[1..], sep);
      assert [x[0]] + x[1..] == x;
    }
  }

  /** Splitting `x + sep + y` with `sep` absent from `x` yields `x` followed by the pieces of `y`. */
  lemma {:induction false} SplitAfterPiece(x: string, sep: char, y: string)
    requires sep !in x
    ensures Split(x + [sep] + y, sep) == [x] + Split(y, sep)
    decreases |x|
  {
    var s := x + [sep] + y;
    if x == [] {
      assert s[1..] == y;
    } else {
      assert s[1..] == x[1..] + [sep] + y;
      SplitAfterPiece(x[1..], sep, y);
      assert [x[0]] + x[1..] == x;
    }
  }

  /** Joining the pieces of a split with the separator gives back the original string. */
  lemma {:induction false} JoinSplit(s: string, sep: char)
    ensures JoinWith(Split(s, sep), [sep]) == s
    decreases |s|
  {
    if s != [] {
      var tail := Split(s[1..], sep);
      JoinSplit(s[1..], sep);
      if s[0] == sep {
        assert ([""] + tail)[1..] == tail;
      } else {
        var r := [[s[0]] + tail[0]] + tail[1..];
        if |tail| > 1 {
          assert r[1..] == tail[1..];
        }
      }
    }
  }

  /**
    Splitting the join of a non-empty list whose elements do not contain the
    separator gives back the list, element by element and in order.
   */
  lemma {:induction false} SplitJoin(ps: seq<string>, sep: char)
    requires |ps| >= 1
    requires forall k | 0 <= k < |ps| :: sep !in ps[k]
    ensures Split(JoinWith(ps, [sep]), sep) == ps
    decreases |ps|
  {
    if |ps| == 1 {
      SplitNoSeparator(ps[0], sep);
    } else {
      SplitJoin(ps[1..], sep);
      SplitAfterPiece(ps[0], sep, JoinWith(ps[1..], [sep]));
      assert [ps[0]] + ps[1..] == ps;
    }
  }

  /** A join of two or more elements contains the separator, so it is never empty. */
  lemma JoinNonEmpty(ps: seq<string>, sep: string)
    requires |ps| >= 2 && |sep| > 0
    ensures Contains(JoinWith(ps, sep), sep)
    ensures |JoinWith(ps, sep)| > 0
  {
    var s := JoinWith(ps, sep);
    assert s[|ps[0]|..|ps[0]| + |sep|] == sep;
    assert HasAt(s, sep, |ps[0]|);
  }

  // ---------------------------------------------------------------- replace-all

  /** Text in which `pat` never occurs comes back from `ReplaceAll` unchanged. */
  lemma {:induction false} ReplaceAbsent(s: string, pat: string, rep: string)
    requires |pat| > 0
    requires !Contains(s, pat)
    ensures ReplaceAll(s, pat, rep) == s
    decreases |s|
  {
    if |s| >= |pat| {
      assert !HasAt(s, pat, 0);
      forall i | 0 <= i <= |s[1..]| && HasAt(s[1..], pat, i)
        ensures HasAt(s, pat, i + 1)
      {
        assert s[1..][i..i + |pat|] == s[i + 1..i + 1 + |pat|];
      }
      ReplaceAbsent(s[1..], pat, rep);
      assert [s[0]] + s[1..] == s;
    }
  }

  /** Replacing a pattern by itself changes nothing. */
  lemma {:induction false} ReplaceBySelf(s: string, pat: string)
    requires |pat| > 0
    ensures ReplaceAll(s, pat, pat) == s
    decreases |s|
  {
    if |s| >= |pat| {
      if s[..|pat|] == pat {
        ReplaceBySelf(s[|pat|..], pat);
        assert s[..|pat|] + s[|pat|..] == s;
      } else {
        ReplaceBySelf(s[1..], pat);
        assert [s[0]] + s[1..] == s;
      }
    }
  }

  /** No occurrence of `pat` in `a + b` starts inside `a` and ends inside `b`. */
  predicate NoStraddle(a: string, b: string, pat: string)
  {
    forall i | 0 <= i < |a| < i + |pat| :: !HasAt(a + b, pat, i)
  }

  /** An occurrence in a suffix is an occurrence in the whole string, shifted. */
  lemma HasAtShift(s: string, pat: string, d: nat, i: nat)
    requires d <= |s|
    ensures HasAt(s[d..], pat, i) <==> HasAt(s, pat, i + d)
  {
    if i + |pat| <= |s| - d {
      assert s[d..][i..i + |pat|] == s[i + d..i + d + |pat|];
    }
  }

  /** Dropping a prefix of `a` keeps the no-straddle condition. */
  lemma StraddleShift(a: string, b: string, pat: string, d: nat)
    requires d <= |a|
    requires NoStraddle(a, b, pat)
    ensures NoStraddle(a[d..], b, pat)
  {
    assert a[d..] + b == (a + b)[d..];
    forall i | 0 <= i < |a[d..]| < i + |pat|
      ensures !HasAt(a[d..] + b, pat, i)
    {
      assert !HasAt(a + b, pat, i + d);
      HasAtShift(a + b, pat, d, i);
    }
  }

  /**
    When no occurrence of `pat` straddles the boundary between `a` and `b`,
    replacing in the concatenation is replacing in each part.
   */
  lemma {:induction false} ReplaceConcat(a: string, b: string, pat: string, rep: string)
    requires |pat| > 0
    requires NoStraddle(a, b, pat)
    ensures ReplaceAll(a + b, pat, rep) == ReplaceAll(a, pat, rep) + ReplaceAll(b, pat, rep)
    decreases |a|
  {
    var s := a + b;
    if a == [] {
      assert s == b;
    } else if |s| < |pat| {
      assert ReplaceAll(b, pat, rep) == b;
    } else if s[..|pat|] == pat {
      assert HasAt(s, pat, 0);
      ReplaceConcatAtMatch(a, b, pat, rep);
    } else {
      ReplaceConcatNoMatch(a, b, pat, rep);
    }
  }

  /** `ReplaceConcat` when `a + b` starts with the pattern, which then lies inside `a`. */
  lemma {:induction false} ReplaceConcatAtMatch(a: string, b: string, pat: string, rep: string)
    requires |pat| > 0 && a != []
    requires NoStraddle(a, b, pat)
    requires HasAt(a + b, pat, 0)
    ensures ReplaceAll(a + b, pat, rep) == ReplaceAll(a, pat, rep) + ReplaceAll(b, pat, rep)
    decreases |a|, 0
  {
    var s := a + b;
    assert |pat| <= |a|;
    assert s[..|pat|] == pat;
    assert a[..|pat|] == pat;
    assert s[|pat|..] == a[|pat|..] + b;
    assert ReplaceAll(s, pat, rep) == rep + ReplaceAll(a[|pat|..] + b, pat, rep);
    assert ReplaceAll(a, pat, rep) == rep + ReplaceAll(a[|pat|..], pat, rep);
    StraddleShift(a, b, pat, |pat|);
    ReplaceConcat(a[|pat|..], b, pat, rep);
  }

  /** `ReplaceConcat` when `a + b` is long enough but does not start with the pattern. */
  lemma {:induction false} ReplaceConcatNoMatch(a: string, b: string, pat: string, rep: string)
    requires |pat| > 0 && a != []
    requires NoStraddle(a, b, pat)
    requires |a + b| >= |pat| && (a + b)[..|pat|] != pat
    ensures ReplaceAll(a + b, pat, rep) == ReplaceAll(a, pat, rep) + ReplaceAll(b, pat, rep)
    decreases |a|, 0
  {
    var s := a + b;
    assert s[1..] == a[1..] + b;
    assert ReplaceAll(s, pat, rep) == [a[0]] + ReplaceAll(a[1..] + b, pat, rep);
    StraddleShift(a, b, pat, 1);
    ReplaceConcat(a[1..], b, pat, rep);
    if |a| < |pat| {
      assert ReplaceAll(a[1..], pat, rep) == a[1..];
      assert [a[0]] + a[1..] == a;
    } else {
      assert a[..|pat|] == s[..|pat|];
      assert ReplaceAll(a, pat, rep) == [a[0]] + ReplaceAll(a[1..], pat, rep);
    }
  }

  /** The pattern on its own is replaced by the replacement on its own. */
  lemma ReplaceWhole(pat: string, rep: string)
    requires |pat| > 0
    ensures ReplaceAll(pat, pat, rep) == rep
  {
  }
}
