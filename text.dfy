/** Literal substring replacement over strings, as Go's `strings.ReplaceAll`
    performs it for the `edit_file` tool. A string is a `seq<char>`; every
    character stands for one rune. */
module Text {

  /** `s` begins with `p`. */
  predicate StartsWith(s: string, p: string)
  {
    |p| <= |s| && s[..|p|] == p
  }

  /** `p` occurs in `s` starting at index `i`. */
  predicate MatchAt(s: string, p: string, i: nat)
  {
    i <= |s| && StartsWith(s[i..], p)
  }

  /** `p` occurs somewhere in `s` as a contiguous substring. */
  predicate Occurs(p: string, s: string)
  {
    exists i: nat :: i <= |s| && MatchAt(s, p, i)
  }

  /** The empty pattern: `r` is inserted before every character and once at
      the end, so `Interleave("ab", "X") == "XaXbX"`. */
  function Interleave(s: string, r: string): (x: string)
    ensures |x| >= |s| + |r|
    ensures |r| == 0 ==> x == s
  {
    if s == [] then r else r + [s[0]] + Interleave(s[1..], r)
  }

  /** Every leftmost, non-overlapping occurrence of `target` in `s` replaced by
      `replacement`, scanning from left to right. */
  function ReplaceAll(s: string, target: string, replacement: string): (r: string)
    ensures |target| == |replacement| ==> |r| == |s|
    decreases |s|
  {
    if |target| == 0 then Interleave(s, replacement)
    else if |s| < |target| then s
    else if s[..|target|] == target then replacement + ReplaceAll(s[|target|..], target, replacement)
    else [s[0]] + ReplaceAll(s[1..], target, replacement)
  }

  /** Replacing a pattern that does not occur leaves the text unchanged. */
  lemma {:induction false} ReplaceAllAbsent(s: string, target: string, replacement: string)
    requires |target| > 0 && !Occurs(target, s)
    ensures ReplaceAll(s, target, replacement) == s
    decreases |s|
  {
    if |s| >= |target| {
      assert s[0..] == s;
      assert !MatchAt(s, target, 0);
      assert !Occurs(target, s[1..]) by {
        forall i: nat | i <= |s[1..]|
          ensures !MatchAt(s[1..], target, i)
        {
          assert s[1..][i..] == s[i + 1..];
          assert !MatchAt(s, target, i + 1);
        }
      }
      ReplaceAllAbsent(s[1..], target, replacement);
    }
  }

  /** When the first occurrence of `target` in `s` starts at `k`, the text
      before it is kept, that occurrence becomes `replacement`, and the text
      after it is processed on its own: the left-to-right, non-overlapping
      reading. */
  lemma {:induction false} ReplaceAllFirst(s: string, target: string, replacement: string, k: nat)
    requires |target| > 0 && MatchAt(s, target, k)
    requires forall i: nat :: i < k ==> !MatchAt(s, target, i)
    ensures k + |target| <= |s|
    ensures ReplaceAll(s, target, replacement)
         == s[..k] + replacement + ReplaceAll(s[k + |target|..], target, replacement)
  {
    ReplaceAllKeepsPrefix(s, target, replacement, k);
    MatchAtSuffix(s, target, k);
    FrontMatch(s[k..], target);
    ReplaceAllAtMatch(s[k..], target, replacement);
    DropMatch(s, k, |target|);
  }

  // Sequence facts the replacement lemmas rely on; none mentions
  // ReplaceAll, so the solver never unfolds it while proving them.

  lemma FrontMatch(s: string, p: string)
    requires MatchAt(s, p, 0)
    ensures StartsWith(s, p)
  {
    assert s[0..] == s;
  }

  lemma DropMatch(s: string, k: nat, n: nat)
    requires k + n <= |s|
    ensures s[k..][n..] == s[k + n..]
  {
  }

  /** Text before the first match is copied unchanged: with no match at any
      index below `j`, the first `j` characters are kept and the rest is
      processed on its own. */
  lemma {:induction false} ReplaceAllKeepsPrefix(s: string, target: string, replacement: string, j: nat)
    requires |target| > 0 && j <= |s|
    requires forall i: nat :: i < j ==> !MatchAt(s, target, i)
    ensures ReplaceAll(s, target, replacement) == s[..j] + ReplaceAll(s[j..], target, replacement)
    decreases j
  {
    if j == 0 {
      EmptyPrefix(s, ReplaceAll(s, target, replacement));
    } else {
      ReplaceAllKeepsPrefix(s, target, replacement, j - 1);
      MatchAtSuffix(s, target, j - 1);
      ReplaceAllSkip(s[j - 1..], target, replacement);
      DropOne(s, j);
      Regroup(s, j, ReplaceAll(s, target, replacement),
              ReplaceAll(s[j - 1..], target, replacement), ReplaceAll(s[j..], target, replacement));
    }
  }

  lemma EmptyPrefix(s: string, x: string)
    ensures s[0..] == s && s[..0] + x == x
  {
  }

  lemma MatchAtSuffix(s: string, p: string, i: nat)
    requires i <= |s|
    ensures MatchAt(s, p, i) == MatchAt(s[i..], p, 0)
  {
    assert s[i..][0..] == s[i..];
  }

  lemma DropOne(s: string, j: nat)
    requires 0 < j <= |s|
    ensures s[j - 1..][1..] == s[j..] && s[j - 1..][0] == s[j - 1]
  {
  }

  lemma Regroup(s: string, j: nat, a: string, b: string, c: string)
    requires 0 < j <= |s|
    requires a == s[..j - 1] + b && b == [s[j - 1]] + c
    ensures a == s[..j] + c
  {
    assert s[..j - 1] + [s[j - 1]] == s[..j];
  }

  /** A match at the front is replaced and scanning resumes after it. */
  lemma {:induction false} ReplaceAllAtMatch(s: string, target: string, replacement: string)
    requires 0 < |target| && StartsWith(s, target)
    ensures ReplaceAll(s, target, replacement) == replacement + ReplaceAll(s[|target|..], target, replacement)
  {
  }

  /** A first character that does not start a match is copied. */
  lemma {:induction false} ReplaceAllSkip(s: string, target: string, replacement: string)
    requires 0 < |target| && 0 < |s| && !MatchAt(s, target, 0)
    ensures ReplaceAll(s, target, replacement) == [s[0]] + ReplaceAll(s[1..], target, replacement)
  {
    assert s[0..] == s;
    if |s| < |target| {
      assert ReplaceAll(s[1..], target, replacement) == s[1..];
      assert s == [s[0]] + s[1..];
    }
  }

  /** Replacing a pattern by itself is the identity, for every pattern. */
  lemma {:induction false} ReplaceAllSelf(s: string, target: string)
    ensures ReplaceAll(s, target, target) == s
    decreases |s|
  {
    if |target| == 0 {
    } else if |s| < |target| {
    } else if s[..|target|] == target {
      ReplaceAllSelf(s[|target|..], target);
      assert s == s[..|target|] + s[|target|..];
    } else {
      ReplaceAllSelf(s[1..], target);
      assert s == [s[0]] + s[1..];
    }
  }

  /** With an empty pattern, character `k` of `s` sits right after the
      `k + 1`-th copy of the replacement. */
  lemma {:induction false} InterleaveLayout(s: string, r: string, k: nat)
    requires k < |s|
    ensures k * (|r| + 1) + |r| < |Interleave(s, r)|
    ensures Interleave(s, r)[k * (|r| + 1) + |r|] == s[k]
  {
    InterleaveLength(s, r);
    if k > 0 {
      InterleaveLayout(s[1..], r, k - 1);
      var tail := Interleave(s[1..], r);
      assert Interleave(s, r) == r + [s[0]] + tail;
      assert k * (|r| + 1) + |r| == (|r| + 1) + ((k - 1) * (|r| + 1) + |r|);
    }
  }

  /** With an empty pattern the result holds `|s| + 1` copies of the
      replacement besides the characters of `s`. */
  lemma {:induction false} InterleaveLength(s: string, r: string)
    ensures |Interleave(s, r)| == |s| + (|s| + 1) * |r|
  {
    if s != [] {
      InterleaveLength(s[1..], r);
    }
  }

  /** With an empty pattern, the `k`-th gap (before character `k`, or at the
      end when `k == |s|`) holds exactly the replacement. */
  lemma {:induction false} InterleaveGap(s: string, r: string, k: nat)
    requires k <= |s|
    ensures k * (|r| + 1) + |r| <= |Interleave(s, r)|
    ensures Interleave(s, r)[k * (|r| + 1)..k * (|r| + 1) + |r|] == r
  {
    InterleaveLength(s, r);
    if s == [] {
    } else if k == 0 {
      SliceOfFront(r, [s[0]] + Interleave(s[1..], r));
    } else {
      InterleaveGap(s[1..], r, k - 1);
      var m := (k - 1) * (|r| + 1);
      StepArith(k, |r|);
      SliceOfBack(r + [s[0]], Interleave(s[1..], r), m, |r|);
    }
  }

  lemma StepArith(k: nat, n: nat)
    requires 0 < k
    ensures k * (n + 1) == (n + 1) + (k - 1) * (n + 1)
  {
  }

  lemma SliceOfFront(p: string, q: string)
    ensures (p + q)[0 * (|p| + 1)..0 * (|p| + 1) + |p|] == p
  {
    assert (p + q)[..|p|] == p;
  }

  lemma SliceOfBack(p: string, q: string, m: nat, n: nat)
    requires m + n <= |q|
    ensures (p + q)[|p| + m..|p| + m + n] == q[m..m + n]
  {
  }

  /** Empty content: only the empty pattern matches, once, so the result is
      the replacement itself; any other pattern leaves it empty. */
  lemma {:induction false} ReplaceAllOfEmpty(target: string, replacement: string)
    ensures ReplaceAll([], target, replacement) == if target == [] then replacement else []
  {
  }
}
