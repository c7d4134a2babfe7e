/** The two string operations the blessing handler uses to build an
    extension: Go's `strings.ReplaceAll` (for a non-empty pattern) and
    `strings.Join`. `ReplaceAll` is defined the way Go scans: left to right,
    each match consumed whole, so matches never overlap. `Split` is a second,
    independent description of the same scan, and `ReplaceAllIsSplitJoin`
    proves the two agree. */
module Strings {

  predicate StartsWith(s: string, pat: string) {
    |pat| <= |s| && s[..|pat|] == pat
  }

  /** `pat` occurs somewhere in `s`. */
  predicate Contains(s: string, pat: string) {
    exists i :: 0 <= i <= |s| && StartsWith(s[i..], pat)
  }

  /** `strings.ReplaceAll(s, pat, rep)` for a non-empty `pat`. */
  function ReplaceAll(s: string, pat: string, rep: string): string
    requires |pat| > 0
    decreases |s|
  {
    if s == [] then []
    else if StartsWith(s, pat) then rep + ReplaceAll(s[|pat|..], pat, rep)
    else [s[0]] + ReplaceAll(s[1..], pat, rep)
  }

  /** The number of occurrences `ReplaceAll` replaces. */
  function Matches(s: string, pat: string): nat
    requires |pat| > 0
    decreases |s|
  {
    if s == [] then 0
    else if StartsWith(s, pat) then 1 + Matches(s[|pat|..], pat)
    else Matches(s[1..], pat)
  }

  /** `strings.Split(s, pat)` for a non-empty `pat`: the pieces between the
      non-overlapping occurrences of `pat`. */
  function Split(s: string, pat: string): (parts: seq<string>)
    requires |pat| > 0
    ensures |parts| >= 1
    decreases |s|
  {
    if s == [] then [""]
    else if StartsWith(s, pat) then [""] + Split(s[|pat|..], pat)
    else
      var rest := Split(s[1..], pat);
      [[s[0]] + rest[0]] + rest[1..]
  }

  /** `strings.Join(parts, sep)` for a non-empty list of parts. */
  function Join(parts: seq<string>, sep: string): string
    requires |parts| >= 1
    decreases |parts|
  {
    if |parts| == 1 then parts[0] else parts[0] + sep + Join(parts[1..], sep)
  }

  /** Joining two parts puts the separator between them and nothing else. */
  lemma JoinPair(a: string, b: string, sep: string)
    ensures Join([a, b], sep) == a + sep + b
  {
    assert [a, b][1..] == [b];
  }

  /** A character in front of the first part comes out in front of the join. */
  lemma {:induction false} JoinPrepend(c: char, parts: seq<string>, sep: string)
    requires |parts| >= 1
    ensures Join([[c] + parts[0]] + parts[1..], sep) == [c] + Join(parts, sep)
  {
    var xs := [[c] + parts[0]] + parts[1..];
    assert xs[0] == [c] + parts[0];
    if |parts| > 1 {
      assert xs[1..] == parts[1..];
    }
  }

  /** `ReplaceAll` is `Split` followed by `Join` with the replacement. */
  lemma {:induction false} ReplaceAllIsSplitJoin(s: string, pat: string, rep: string)
    requires |pat| > 0
    ensures ReplaceAll(s, pat, rep) == Join(Split(s, pat), rep)
    decreases |s|
  {
    if s == [] {
    } else if StartsWith(s, pat) {
      var rest := Split(s[|pat|..], pat);
      ReplaceAllIsSplitJoin(s[|pat|..], pat, rep);
      assert ([""] + rest)[1..] == rest;
      assert Join([""] + rest, rep) == "" + rep + Join(rest, rep);
    } else {
      var rest := Split(s[1..], pat);
      assert Split(s, pat) == [[s[0]] + rest[0]] + rest[1..];
      ReplaceAllIsSplitJoin(s[1..], pat, rep);
      JoinPrepend(s[0], rest, rep);
    }
  }

  /** Splitting and joining back with the same pattern gives the input back. */
  lemma {:induction false} SplitJoinRoundTrip(s: string, pat: string)
    requires |pat| > 0
    ensures Join(Split(s, pat), pat) == s
  {
    ReplaceAllIsSplitJoin(s, pat, pat);
    ReplacingWithItselfIsIdentity(s, pat);
  }

  lemma {:induction false} ReplacingWithItselfIsIdentity(s: string, pat: string)
    requires |pat| > 0
    ensures ReplaceAll(s, pat, pat) == s
    decreases |s|
  {
    if s == [] {
    } else if StartsWith(s, pat) {
      ReplacingWithItselfIsIdentity(s[|pat|..], pat);
      assert s == s[..|pat|] + s[|pat|..];
    } else {
      ReplacingWithItselfIsIdentity(s[1..], pat);
      assert s == [s[0]] + s[1..];
    }
  }

  /** A string in which the pattern does not occur is returned unchanged. */
  lemma {:induction false} ReplaceAllWithoutMatch(s: string, pat: string, rep: string)
    requires |pat| > 0
    requires !Contains(s, pat)
    ensures ReplaceAll(s, pat, rep) == s
    decreases |s|
  {
    if s != [] {
      assert s[0..] == s;
      assert !StartsWith(s, pat);
      forall i | 0 <= i <= |s[1..]|
        ensures !StartsWith(s[1..][i..], pat)
      {
        assert s[1..][i..] == s[i + 1..];
      }
      ReplaceAllWithoutMatch(s[1..], pat, rep);
      assert s == [s[0]] + s[1..];
    }
  }

  /** The pattern occurs in `s` exactly when `ReplaceAll` replaces something. */
  lemma {:induction false} MatchesIffContains(s: string, pat: string)
    requires |pat| > 0
    ensures Matches(s, pat) > 0 <==> Contains(s, pat)
    decreases |s|
  {
    if s == [] {
      assert !Contains(s, pat) by {
        forall i | 0 <= i <= |s| ensures !StartsWith(s[i..], pat) {
        }
      }
    } else if StartsWith(s, pat) {
      assert s[0..] == s;
    } else {
      MatchesIffContains(s[1..], pat);
      if Contains(s, pat) {
        var i :| 0 <= i <= |s| && StartsWith(s[i..], pat);
        assert i != 0 by { assert s[0..] == s; }
        assert s[1..][i - 1..] == s[i..];
      }
      if Contains(s[1..], pat) {
        var i :| 0 <= i <= |s[1..]| && StartsWith(s[1..][i..], pat);
        assert s[1..][i..] == s[i + 1..];
      }
    }
  }

  /** A longer replacement gives a longer result as soon as anything is
      replaced; equally long replacements give equally long results. */
  lemma {:induction false} ReplaceAllLengthOrder(s: string, pat: string, rep1: string, rep2: string)
    requires |pat| > 0
    requires |rep1| <= |rep2|
    ensures |ReplaceAll(s, pat, rep1)| <= |ReplaceAll(s, pat, rep2)|
    ensures |rep1| < |rep2| && Matches(s, pat) > 0 ==>
              |ReplaceAll(s, pat, rep1)| < |ReplaceAll(s, pat, rep2)|
    ensures |rep1| == |rep2| ==> |ReplaceAll(s, pat, rep1)| == |ReplaceAll(s, pat, rep2)|
    decreases |s|
  {
    if s == [] {
    } else if StartsWith(s, pat) {
      ReplaceAllLengthOrder(s[|pat|..], pat, rep1, rep2);
    } else {
      ReplaceAllLengthOrder(s[1..], pat, rep1, rep2);
    }
  }

  /** When the pattern occurs, different replacements give different
      results: the replacement can be read back off the output. */
  lemma {:induction false} ReplaceAllInjective(s: string, pat: string, rep1: string, rep2: string)
    requires |pat| > 0
    requires Contains(s, pat)
    requires ReplaceAll(s, pat, rep1) == ReplaceAll(s, pat, rep2)
    ensures rep1 == rep2
    decreases |s|
  {
    MatchesIffContains(s, pat);
    if |rep1| <= |rep2| {
      ReplaceAllLengthOrder(s, pat, rep1, rep2);
    } else {
      ReplaceAllLengthOrder(s, pat, rep2, rep1);
    }
    assert |rep1| == |rep2|;
    if StartsWith(s, pat) {
      var tail := s[|pat|..];
      assert (rep1 + ReplaceAll(tail, pat, rep1))[..|rep1|] == rep1;
      assert (rep2 + ReplaceAll(tail, pat, rep2))[..|rep2|] == rep2;
    } else {
      assert s != [];
      var r1 := ReplaceAll(s[1..], pat, rep1);
      var r2 := ReplaceAll(s[1..], pat, rep2);
      assert ([s[0]] + r1)[1..] == r1;
      assert ([s[0]] + r2)[1..] == r2;
      MatchesIffContains(s[1..], pat);
      ReplaceAllInjective(s[1..], pat, rep1, rep2);
    }
  }

  /** The position of the first `c` in `s`, or `|s|` when there is none. */
  function IndexOf(s: string, c: char): (k: nat)
    ensures k <= |s|
    decreases |s|
  {
    if s == [] then 0 else if s[0] == c then 0 else 1 + IndexOf(s[1..], c)
  }

  /** In `a + [c] + b` with no `c` in `a`, the first `c` is right after `a`. */
  lemma {:induction false} IndexOfAfterPrefix(a: string, c: char, b: string)
    requires c !in a
    ensures IndexOf(a + [c] + b, c) == |a|
    decreases |a|
  {
    if a != [] {
      assert (a + [c] + b)[1..] == a[1..] + [c] + b;
      IndexOfAfterPrefix(a[1..], c, b);
    }
  }

  /** Characters that cannot start the pattern pass through unchanged. */
  lemma {:induction false} ReplaceAllPlainPrefix(a: string, rest: string, pat: string, rep: string)
    requires |pat| > 0 && pat[0] !in a
    ensures ReplaceAll(a + rest, pat, rep) == a + ReplaceAll(rest, pat, rep)
    decreases |a|
  {
    if a != [] {
      var s := a + rest;
      assert s[0] == a[0];
      assert !StartsWith(s, pat);
      assert s[1..] == a[1..] + rest;
      ReplaceAllPlainPrefix(a[1..], rest, pat, rep);
      assert ReplaceAll(s, pat, rep) == [s[0]] + ReplaceAll(s[1..], pat, rep);
      assert a == [a[0]] + a[1..];
    } else {
      assert a + rest == rest;
    }
  }
}
