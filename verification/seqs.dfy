/** Sequence and arithmetic helpers shared by the model: sums and means of
    real sequences, the bounded `deque(maxlen=...)` append, Python-style
    suffixes, and ASCII substring search. */
module Seqs {

  /** No element occurs twice. */
  predicate Distinct<T(==)>(s: seq<T>)
  {
    forall i, j :: 0 <= i < j < |s| ==> s[i] != s[j]
  }

  function MinR(a: real, b: real): real { if a <= b then a else b }
  function MaxR(a: real, b: real): real { if a >= b then a else b }

  /** Sum of a sequence, peeling off the last element so that appends unfold directly. */
  function Sum(s: seq<real>): real
  {
    if s == [] then 0.0 else Sum(s[..|s| - 1]) + s[|s| - 1]
  }

  function Mean(s: seq<real>): real
    requires |s| > 0
  {
    Sum(s) / |s| as real
  }

  lemma {:induction false} SumUpperBound(s: seq<real>, b: real)
    requires forall i :: 0 <= i < |s| ==> s[i] <= b
    ensures Sum(s) <= |s| as real * b
  {
    if s != [] {
      SumUpperBound(s[..|s| - 1], b);
    }
  }

  lemma {:induction false} SumLowerBound(s: seq<real>, b: real)
    requires forall i :: 0 <= i < |s| ==> b <= s[i]
    ensures |s| as real * b <= Sum(s)
  {
    if s != [] {
      SumLowerBound(s[..|s| - 1], b);
    }
  }

  /** A mean never exceeds a bound that every element respects. */
  lemma MeanUpperBound(s: seq<real>, b: real)
    requires |s| > 0
    requires forall i :: 0 <= i < |s| ==> s[i] <= b
    ensures Mean(s) <= b
  {
    SumUpperBound(s, b);
    var n := |s| as real;
    assert Sum(s) / n <= (n * b) / n;
  }

  /** A mean is never below a bound that every element respects. */
  lemma MeanLowerBound(s: seq<real>, b: real)
    requires |s| > 0
    requires forall i :: 0 <= i < |s| ==> b <= s[i]
    ensures b <= Mean(s)
  {
    SumLowerBound(s, b);
    var n := |s| as real;
    assert (n * b) / n <= Sum(s) / n;
  }

  /** `min(s)`: an element of `s` that no element is below. */
  function Least(s: seq<real>): (m: real)
    requires |s| > 0
    ensures m in s && forall i :: 0 <= i < |s| ==> m <= s[i]
  {
    if |s| == 1 then s[0]
    else
      var m := Least(s[..|s| - 1]);
      assert forall i :: 0 <= i < |s| - 1 ==> s[..|s| - 1][i] == s[i];
      MinR(m, s[|s| - 1])
  }

  /** `max(s)`: an element of `s` that no element is above. */
  function Greatest(s: seq<real>): (m: real)
    requires |s| > 0
    ensures m in s && forall i :: 0 <= i < |s| ==> s[i] <= m
  {
    if |s| == 1 then s[0]
    else
      var m := Greatest(s[..|s| - 1]);
      assert forall i :: 0 <= i < |s| - 1 ==> s[..|s| - 1][i] == s[i];
      MaxR(m, s[|s| - 1])
  }

  /** The last `n` elements of `s` (all of them when there are fewer):
      Python's `list(s)[-n:]` for n > 0. */
  function LastN<T>(s: seq<T>, n: nat): (r: seq<T>)
    ensures |r| == if n <= |s| then n else |s|
    ensures r == s[|s| - |r|..]
  {
    if n <= |s| then s[|s| - n..] else s
  }

  /** `d.append(x)` on `d = deque(maxlen=cap)`: the oldest elements are
      evicted so that at most `cap` remain. */
  function Push<T>(s: seq<T>, x: T, cap: nat): (r: seq<T>)
    ensures |r| == if |s| + 1 <= cap then |s| + 1 else cap
    ensures r == (s + [x])[|s| + 1 - |r|..]
    ensures cap > 0 ==> r[|r| - 1] == x
  {
    if |s| + 1 <= cap then s + [x] else (s + [x])[|s| + 1 - cap..]
  }

  function LowerChar(c: char): char
  {
    if 'A' <= c <= 'Z' then (c as int + 32) as char else c
  }

  /** ASCII lower-casing, the part of `str.lower()` the model covers. */
  function Lower(s: string): (r: string)
    ensures |r| == |s|
  {
    seq(|s|, i requires 0 <= i < |s| => LowerChar(s[i]))
  }

  predicate IsPrefix(p: string, s: string)
  {
    |p| <= |s| && s[..|p|] == p
  }

  /** `sub in s` for strings. */
  predicate Contains(s: string, sub: string)
    decreases |s|
  {
    IsPrefix(sub, s) || (|s| > 0 && Contains(s[1..], sub))
  }

  /** Number of elements of `s` satisfying `now - t <= window`. */
  function CountWithin(s: seq<real>, now: real, window: real): (n: nat)
    ensures n <= |s|
    ensures n == 0 <==> forall i :: 0 <= i < |s| ==> now - s[i] > window
    ensures n == |s| <==> forall i :: 0 <= i < |s| ==> now - s[i] <= window
  {
    if s == [] then 0
    else
      var init := s[..|s| - 1];
      assert forall i :: 0 <= i < |init| ==> init[i] == s[i];
      CountWithin(init, now, window) + (if now - s[|s| - 1] <= window then 1 else 0)
  }
}
