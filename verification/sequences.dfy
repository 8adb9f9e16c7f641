/** Sequence operations shared by the store and the views: the random
    shuffle, JavaScript's `slice(0, n)`, and `reverse()`. */
module Sequences {

  function Min(a: int, b: int): int {
    if a <= b then a else b
  }

  /** `s.slice(0, n)`: the first `n` elements, or all of `s` if it is shorter. */
  function Take<T>(s: seq<T>, n: nat): (r: seq<T>)
    ensures |r| == Min(n, |s|)
    ensures r == s[..|r|]
    ensures multiset(r) <= multiset(s)
  {
    assert s == s[..Min(n, |s|)] + s[Min(n, |s|)..];
    s[..Min(n, |s|)]
  }

  /** `s.sort(() => Math.random() - 0.5)`, with the random draws made explicit:
      the element at index `picks[0]` goes first (the first element when that
      draw is out of range or there is none), then the rest is arranged by the
      remaining draws. */
  function Shuffle<T>(s: seq<T>, picks: seq<nat>): (r: seq<T>)
    ensures |r| == |s|
    ensures multiset(r) == multiset(s)
    decreases |s|
  {
    if s == [] then []
    else
      var k := if picks == [] || picks[0] >= |s| then 0 else picks[0];
      var rest := if picks == [] then [] else picks[1..];
      assert s == s[..k] + [s[k]] + s[k + 1..];
      assert multiset(s) == multiset{s[k]} + multiset(s[..k] + s[k + 1..]);
      [s[k]] + Shuffle(s[..k] + s[k + 1..], rest)
  }

  /** Every permutation of `s` is the outcome of some sequence of draws, so
      `Shuffle` ranges over exactly the permutations of its input. */
  lemma {:induction false} ShuffleReaches<T>(s: seq<T>, p: seq<T>) returns (picks: seq<nat>)
    requires multiset(p) == multiset(s)
    ensures Shuffle(s, picks) == p
    decreases |s|
  {
    if s == [] {
      assert |p| == |multiset(p)| == 0;
      picks := [];
    } else {
      var k := PickFirst(s, p);
      var tail := ShuffleReaches(s[..k] + s[k + 1..], p[1..]);
      picks := [k] + tail;
      ShuffleDraw(s, k, tail);
      assert Shuffle(s, picks) == [p[0]] + p[1..];
      assert p == [p[0]] + p[1..];
    }
  }

  /** A draw of an in-range index puts that element first. */
  lemma ShuffleDraw<T>(s: seq<T>, k: nat, tail: seq<nat>)
    requires k < |s|
    ensures Shuffle(s, [k] + tail) == [s[k]] + Shuffle(s[..k] + s[k + 1..], tail)
  {
    assert ([k] + tail)[1..] == tail;
  }

  /** Where the first element of a non-empty permutation `p` of `s` sits in
      `s`, and what remains on both sides once it is taken out. */
  lemma PickFirst<T>(s: seq<T>, p: seq<T>) returns (k: nat)
    requires s != [] && multiset(p) == multiset(s)
    ensures k < |s| && |p| > 0 && s[k] == p[0]
    ensures multiset(p[1..]) == multiset(s[..k] + s[k + 1..])
  {
    assert |p| == |multiset(p)| == |multiset(s)| == |s|;
    assert p[0] in multiset(s);
    k :| 0 <= k < |s| && s[k] == p[0];
    assert s == s[..k] + [s[k]] + s[k + 1..];
    assert p == [p[0]] + p[1..];
    assert multiset(s[..k] + s[k + 1..]) == multiset(s) - multiset{s[k]};
    assert multiset(p[1..]) == multiset(p) - multiset{p[0]};
  }

  function Reverse<T>(s: seq<T>): (r: seq<T>)
    ensures |r| == |s|
    ensures forall i :: 0 <= i < |s| ==> r[i] == s[|s| - 1 - i]
  {
    if s == [] then [] else Reverse(s[1..]) + [s[0]]
  }
}
