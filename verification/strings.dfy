/**
 * Splitting and joining strings on a separator, with the leftmost,
 * non-overlapping semantics of Python's `str.split(sep)` and
 * `sep.join(parts)`, plus ASCII lower-casing as done by `str.lower()` on
 * ASCII text.
 *
 * The central facts are the two round trips: joining the pieces of a split
 * gives the original string back, and splitting a join gives the pieces back
 * whenever no piece contains the separator and the separator cannot overlap
 * itself.
 */
module Strings {

  /** `d` occurs in `s` starting at index `j`. */
  predicate MatchAt(s: string, d: string, j: nat) {
    j + |d| <= |s| && s[j..j + |d|] == d
  }

  /** `s` contains no occurrence of `d`. */
  predicate Free(s: string, d: string) {
    forall j | 0 <= j <= |s| :: !MatchAt(s, d, j)
  }

  /**
   * No proper prefix of `d` is also a suffix of `d`: two occurrences of `d`
   * can never overlap. A separator of one character is always unbordered.
   */
  predicate Unbordered(d: string) {
    |d| > 0 && forall k | 0 < k < |d| :: d[..k] != d[|d| - k..]
  }

  /** Python's `s.split(d)`: cut at every occurrence of `d`, scanning left to right. */
  function Split(s: string, d: string): (parts: seq<string>)
    requires |d| > 0
    ensures |parts| >= 1
    ensures parts[0] <= s
    ensures Free(parts[0], d)
    ensures |parts| == 1 ==> parts[0] == s
    ensures |parts| >= 2 ==> MatchAt(s, d, |parts[0]|)
    decreases |s|
  {
    if |s| < |d| then [s]
    else if s[..|d|] == d then [""] + Split(s[|d|..], d)
    else
      var rest := Split(s[1..], d);
      SplitHeadFree(s, d, rest[0]);
      [[s[0]] + rest[0]] + rest[1..]
  }

  /**
   * The first piece of a split, grown by one character at the front, still
   * holds no separator when the string does not start with one.
   */
  lemma SplitHeadFree(s: string, d: string, x: string)
    requires 0 < |d| <= |s|
    requires s[..|d|] != d
    requires x <= s[1..]
    requires Free(x, d)
    ensures Free([s[0]] + x, d)
  {
    var y := [s[0]] + x;
    forall j | 0 <= j <= |y|
      ensures !MatchAt(y, d, j)
    {
      if j == 0 {
        if |d| <= |y| {
          assert y[..|d|] == s[..|d|];
        }
      } else if j + |d| <= |y| {
        assert y[j..j + |d|] == x[j - 1..j - 1 + |d|];
        assert !MatchAt(x, d, j - 1);
      }
    }
  }

  /**
   * Python's `d.join(parts)`: the first piece opens the result, the
   * separator follows it, and the last piece closes the result.
   */
  function Join(parts: seq<string>, d: string): (s: string)
    ensures |parts| == 0 ==> s == ""
    ensures |parts| >= 1 ==> parts[0] <= s
    ensures |parts| >= 2 ==> MatchAt(s, d, |parts[0]|)
  {
    if |parts| == 0 then ""
    else if |parts| == 1 then parts[0]
    else
      var rest := Join(parts[1..], d);
      assert (parts[0] + d + rest)[|parts[0]|..|parts[0]| + |d|] == d;
      parts[0] + d + rest
  }

  lemma JoinConsFirst(c: char, parts: seq<string>, d: string)
    requires |parts| >= 1
    ensures Join([[c] + parts[0]] + parts[1..], d) == [c] + Join(parts, d)
  {
    var q := [[c] + parts[0]] + parts[1..];
    assert q[0] == [c] + parts[0];
    assert q[1..] == parts[1..];
    if |parts| == 1 {
      assert q == [[c] + parts[0]];
    } else {
      var rest := Join(parts[1..], d);
      var tail := parts[0] + d + rest;
      assert Join(q, d) == ([c] + parts[0]) + d + rest;
      assert Join(parts, d) == tail;
      assert ([c] + parts[0]) + d + rest == [c] + tail;
    }
  }

  /** Joining the pieces of a split restores the string, for every string and separator. */
  lemma {:induction false} JoinSplit(s: string, d: string)
    requires |d| > 0
    ensures Join(Split(s, d), d) == s
    decreases |s|
  {
    if |s| < |d| {
    } else if s[..|d|] == d {
      var tail := s[|d|..];
      JoinSplit(tail, d);
      var parts := [""] + Split(tail, d);
      assert parts[1..] == Split(tail, d);
      assert Join(parts, d) == "" + d + Join(Split(tail, d), d);
      assert s == s[..|d|] + tail;
    } else {
      JoinSplit(s[1..], d);
      JoinConsFirst(s[0], Split(s[1..], d), d);
      assert s == [s[0]] + s[1..];
    }
  }

  /** A string without the separator splits into itself alone. */
  lemma {:induction false} SplitFree(s: string, d: string)
    requires |d| > 0
    requires Free(s, d)
    ensures Split(s, d) == [s]
    decreases |s|
  {
    if |s| < |d| {
    } else {
      assert !MatchAt(s, d, 0);
      assert s[0..|d|] == s[..|d|];
      forall j | 0 <= j <= |s[1..]|
        ensures !MatchAt(s[1..], d, j)
      {
        assert !MatchAt(s, d, j + 1);
        if j + |d| <= |s[1..]| {
          assert s[1..][j..j + |d|] == s[j + 1..j + 1 + |d|];
        }
      }
      SplitFree(s[1..], d);
      assert [s[0]] + s[1..] == s;
    }
  }

  /** Splitting `a + d + b` cuts at the `d` after `a` when no earlier occurrence exists. */
  lemma {:induction false} SplitCons(a: string, b: string, d: string)
    requires |d| > 0
    requires forall j | 0 <= j < |a| :: !MatchAt(a + d + b, d, j)
    ensures Split(a + d + b, d) == [a] + Split(b, d)
    decreases |a|
  {
    var s := a + d + b;
    if |a| == 0 {
      assert s == d + b;
      assert s[..|d|] == d;
      assert s[|d|..] == b;
    } else {
      assert !MatchAt(s, d, 0);
      assert s[0..|d|] == s[..|d|];
      var a' := a[1..];
      assert s[1..] == a' + d + b;
      forall j | 0 <= j < |a'|
        ensures !MatchAt(a' + d + b, d, j)
      {
        assert !MatchAt(s, d, j + 1);
        if j + |d| <= |a' + d + b| {
          assert (a' + d + b)[j..j + |d|] == s[j + 1..j + 1 + |d|];
        }
      }
      SplitCons(a', b, d);
      assert [a[0]] + a' == a;
    }
  }

  /**
   * With an unbordered separator, an occurrence of `d` in `a + d + b` that
   * starts inside `a` lies wholly inside `a`.
   */
  lemma NoEarlyMatch(a: string, b: string, d: string)
    requires Unbordered(d)
    requires Free(a, d)
    ensures forall j | 0 <= j < |a| :: !MatchAt(a + d + b, d, j)
  {
    var s := a + d + b;
    forall j | 0 <= j < |a|
      ensures !MatchAt(s, d, j)
    {
      var w := s[j..j + |d|];
      if j + |d| <= |a| {
        assert w == a[j..j + |d|];
        assert !MatchAt(a, d, j);
      } else {
        var k := j + |d| - |a|;
        assert w[|d| - k..] == d[..k];
        assert d[..k] != d[|d| - k..];
      }
    }
  }

  /** Splitting a join gives the pieces back when no piece holds the separator. */
  lemma {:induction false} SplitJoin(parts: seq<string>, d: string)
    requires Unbordered(d)
    requires |parts| >= 1
    requires forall i | 0 <= i < |parts| :: Free(parts[i], d)
    ensures Split(Join(parts, d), d) == parts
    decreases |parts|
  {
    if |parts| == 1 {
      SplitFree(parts[0], d);
    } else {
      var rest := Join(parts[1..], d);
      NoEarlyMatch(parts[0], rest, d);
      SplitCons(parts[0], rest, d);
      SplitJoin(parts[1..], d);
      assert [parts[0]] + parts[1..] == parts;
    }
  }

  /** No piece of a split contains the separator. */
  lemma {:induction false} SplitPiecesFree(s: string, d: string)
    requires |d| > 0
    ensures forall i | 0 <= i < |Split(s, d)| :: Free(Split(s, d)[i], d)
    decreases |s|
  {
    var parts := Split(s, d);
    if |s| >= |d| {
      var rest := if s[..|d|] == d then Split(s[|d|..], d) else Split(s[1..], d);
      if s[..|d|] == d {
        SplitPiecesFree(s[|d|..], d);
        assert parts == [""] + rest;
      } else {
        SplitPiecesFree(s[1..], d);
        assert parts[1..] == rest[1..];
      }
      forall i | 1 <= i < |parts|
        ensures Free(parts[i], d)
      {
        if s[..|d|] == d {
          assert parts[i] == rest[i - 1];
        } else {
          assert parts[i] == rest[1..][i - 1] == rest[i];
        }
      }
    }
  }

  /** A string free of a one-character separator does not hold that character. */
  lemma FreeCharAbsent(s: string, c: char)
    requires Free(s, [c])
    ensures c !in s
  {
    forall j | 0 <= j < |s|
      ensures s[j] != c
    {
      assert !MatchAt(s, [c], j);
      assert s[j..j + 1] == [s[j]];
    }
  }

  /** A string that misses one character of `d` cannot contain `d`. */
  lemma AbsentCharFree(s: string, d: string, k: nat)
    requires k < |d|
    requires d[k] !in s
    ensures Free(s, d)
  {
    forall j | 0 <= j <= |s|
      ensures !MatchAt(s, d, j)
    {
      if j + |d| <= |s| {
        assert s[j..j + |d|][k] == s[j + k];
        assert s[j + k] in s;
      }
    }
  }

  /** A character absent from every piece and from the separator is absent from the join. */
  lemma {:induction false} JoinAvoids(parts: seq<string>, d: string, c: char)
    requires c !in d
    requires forall i | 0 <= i < |parts| :: c !in parts[i]
    ensures c !in Join(parts, d)
    decreases |parts|
  {
    if |parts| > 1 {
      JoinAvoids(parts[1..], d, c);
    }
  }

  /** The last piece closes the join. */
  lemma {:induction false} JoinEndsWithLast(parts: seq<string>, d: string)
    requires |parts| >= 1
    ensures |parts[|parts| - 1]| <= |Join(parts, d)|
    ensures Join(parts, d)[|Join(parts, d)| - |parts[|parts| - 1]|..] == parts[|parts| - 1]
    decreases |parts|
  {
    if |parts| >= 2 {
      var rest := Join(parts[1..], d);
      JoinEndsWithLast(parts[1..], d);
      var last := parts[|parts| - 1];
      assert parts[1..][|parts[1..]| - 1] == last;
      var s := parts[0] + d + rest;
      assert s[|s| - |last|..] == rest[|rest| - |last|..];
    }
  }

  predicate IsUpper(c: char) { 'A' <= c <= 'Z' }

  /** ASCII lower-casing of one character; every other character is left alone. */
  function LowerChar(c: char): (r: char)
    ensures IsUpper(c) ==> r as int == c as int + 32
    ensures !IsUpper(c) ==> r == c
    ensures !IsUpper(r)
  {
    if IsUpper(c) then (c as int + 32) as char else c
  }

  /** ASCII lower-casing of a string, as `str.lower()` does on ASCII text. */
  function Lower(s: string): (r: string)
    ensures |r| == |s|
    ensures forall i | 0 <= i < |s| :: r[i] == LowerChar(s[i])
  {
    seq(|s|, i requires 0 <= i < |s| => LowerChar(s[i]))
  }

  /** Case-insensitive equality, character by character. */
  predicate EqualsIgnoreCase(a: string, b: string) {
    |a| == |b| && forall i | 0 <= i < |a| :: LowerChar(a[i]) == LowerChar(b[i])
  }

  /** A string is already lower-case when lowering leaves it unchanged. */
  predicate IsLower(s: string) {
    forall i | 0 <= i < |s| :: !IsUpper(s[i])
  }

  /** Comparing the lowered string to a lower-case word is case-insensitive comparison. */
  lemma LowerEqualsIff(a: string, w: string)
    requires IsLower(w)
    ensures Lower(a) == w <==> EqualsIgnoreCase(a, w)
  {
    if EqualsIgnoreCase(a, w) {
      assert forall i | 0 <= i < |a| :: Lower(a)[i] == w[i];
    }
  }

  /** Lower-casing twice is lower-casing once. */
  lemma LowerIdempotent(s: string)
    ensures Lower(Lower(s)) == Lower(s)
  {
  }
}
