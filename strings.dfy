/** The string tests the build script relies on: `starts_with`, `ends_with`,
    `contains` and `replace` of Rust's `str`, on strings as character sequences. */
module Strings {

  /** `s.starts_with(p)` */
  predicate StartsWith(s: string, p: string)
  {
    |p| <= |s| && s[..|p|] == p
  }

  /** `s.ends_with(p)` */
  predicate EndsWith(s: string, p: string)
  {
    |p| <= |s| && s[|s| - |p|..] == p
  }

  /** `s.contains(p)`: `p` starts at some position of `s`. */
  predicate Contains(s: string, p: string)
    decreases |s|
  {
    StartsWith(s, p) || (|s| > 0 && Contains(s[1..], p))
  }

  /** `p` occurs in `s` at index `k`. */
  ghost predicate OccursAt(s: string, p: string, k: int)
  {
    0 <= k && k + |p| <= |s| && s[k..k + |p|] == p
  }

  /** An occurrence at index k + 1 of `s` is an occurrence at index k of its tail. */
  lemma OccursAtShift(s: string, p: string, k: int)
    requires |s| > 0 && k >= 1
    ensures OccursAt(s, p, k) <==> OccursAt(s[1..], p, k - 1)
  {
    if k + |p| <= |s| {
      assert s[1..][k - 1..k - 1 + |p|] == s[k..k + |p|];
    }
  }

  /** Contains agrees with the positional definition of a substring. */
  lemma {:induction false} ContainsIffOccurs(s: string, p: string)
    ensures Contains(s, p) <==> exists k :: OccursAt(s, p, k)
    decreases |s|
  {
    assert OccursAt(s, p, 0) <==> StartsWith(s, p);
    if StartsWith(s, p) {
      assert OccursAt(s, p, 0);
    } else if |s| == 0 {
      assert |p| > 0;
    } else {
      ContainsIffOccurs(s[1..], p);
      forall k | k >= 1
        ensures OccursAt(s, p, k) <==> OccursAt(s[1..], p, k - 1)
      {
        OccursAtShift(s, p, k);
      }
      if Contains(s[1..], p) {
        var k :| OccursAt(s[1..], p, k);
        assert OccursAt(s, p, k + 1);
      }
    }
  }

  /** An occurrence at a known index is a containment. */
  lemma ContainsAt(s: string, p: string, k: nat)
    requires OccursAt(s, p, k)
    ensures Contains(s, p)
  {
    ContainsIffOccurs(s, p);
  }

  /** A string lacking some character of `p` does not contain `p`. */
  lemma NotContainsMissingChar(s: string, p: string, j: nat)
    requires j < |p| && p[j] !in s
    ensures !Contains(s, p)
  {
    ContainsIffOccurs(s, p);
    forall k ensures !OccursAt(s, p, k) {
      if 0 <= k && k + |p| <= |s| {
        assert s[k..k + |p|][j] == s[k + j];
      }
    }
  }

  /** If the first character of `p` occurs in `s` only at `k`, and `p` does not
      start there, `s` does not contain `p`. */
  lemma NotContainsSingleCandidate(s: string, p: string, k: nat)
    requires |p| > 0 && k < |s|
    requires p[0] !in s[..k] && p[0] !in s[k + 1..]
    requires !StartsWith(s[k..], p)
    ensures !Contains(s, p)
  {
    ContainsIffOccurs(s, p);
    forall i ensures !OccursAt(s, p, i) {
      if 0 <= i && i + |p| <= |s| {
        assert s[i..i + |p|][0] == s[i];
        if i < k {
          assert s[..k][i] == s[i];
        } else if i > k {
          assert s[k + 1..][i - k - 1] == s[i];
        } else {
          assert s[k..][..|p|] == s[i..i + |p|];
        }
      }
    }
  }

  /** `s.replace(pat, rep)`: every non-overlapping occurrence of `pat`, found from
      left to right, is replaced by `rep`. */
  function ReplaceAll(s: string, pat: string, rep: string): string
    requires |pat| > 0
    decreases |s|
  {
    if StartsWith(s, pat) then rep + ReplaceAll(s[|pat|..], pat, rep)
    else if s == [] then []
    else [s[0]] + ReplaceAll(s[1..], pat, rep)
  }

  /** A string without an occurrence of the pattern is left unchanged. */
  lemma {:induction false} ReplaceAllNoMatch(s: string, pat: string, rep: string)
    requires |pat| > 0 && !Contains(s, pat)
    ensures ReplaceAll(s, pat, rep) == s
    decreases |s|
  {
    if s != [] {
      ReplaceAllNoMatch(s[1..], pat, rep);
    }
  }

  /** Replacing one character by another keeps the length and acts position by
      position. */
  lemma {:induction false} ReplaceCharAt(s: string, a: char, b: char)
    ensures |ReplaceAll(s, [a], [b])| == |s|
    ensures forall i :: 0 <= i < |s| ==>
      ReplaceAll(s, [a], [b])[i] == (if s[i] == a then b else s[i])
    decreases |s|
  {
    if s != [] {
      ReplaceCharAt(s[1..], a, b);
      var tail := ReplaceAll(s[1..], [a], [b]);
      assert ReplaceAll(s, [a], [b]) == [if s[0] == a then b else s[0]] + tail;
      forall i | 1 <= i < |s|
        ensures ReplaceAll(s, [a], [b])[i] == (if s[i] == a then b else s[i])
      {
        assert s[1..][i - 1] == s[i];
      }
    }
  }

  /** "gcc" cannot overlap itself, so a trailing "gcc" is always the last
      occurrence that `replace` finds: it becomes `rep`, and the text before it is
      rewritten on its own. */
  lemma {:induction false} ReplaceTrailingGcc(p: string, rep: string)
    ensures ReplaceAll(p + "gcc", "gcc", rep) == ReplaceAll(p, "gcc", rep) + rep
    decreases |p|
  {
    var s := p + "gcc";
    if p == [] {
      assert s == "gcc";
      assert s[3..] == [];
    } else if StartsWith(p, "gcc") {
      assert s[..3] == p[..3];
      assert s[3..] == p[3..] + "gcc";
      ReplaceTrailingGcc(p[3..], rep);
    } else {
      assert !StartsWith(s, "gcc") by {
        if |p| == 1 {
          assert s[1] == 'g';
        } else if |p| == 2 {
          assert s[2] == 'g';
        } else {
          assert s[..3] == p[..3];
        }
      }
      assert s[1..] == p[1..] + "gcc";
      ReplaceTrailingGcc(p[1..], rep);
    }
  }
}
