/** Generic sequence operations the application's code gets from JavaScript's
    Array.prototype (filter, slice) and the comparator shuffle it builds on
    sort, together with the facts the rest of the model uses about them. */
module Seqs {

  /** `s.filter(p)`: the elements of `s` that satisfy `p`, in their order. */
  function Filter<T>(p: T -> bool, s: seq<T>): (r: seq<T>)
    ensures |r| <= |s|
    ensures forall x | x in r :: x in s && p(x)
    ensures forall x | x in s && p(x) :: x in r
  {
    if s == [] then []
    else
      assert s == [s[0]] + s[1..];
      (if p(s[0]) then [s[0]] else []) + Filter(p, s[1..])
  }

  /** Filtering keeps every occurrence of an element that passes, and none of
      one that does not. */
  lemma {:induction false} FilterMultiset<T>(p: T -> bool, s: seq<T>)
    ensures forall x :: multiset(Filter(p, s))[x] == if p(x) then multiset(s)[x] else 0
  {
    if s != [] {
      FilterMultiset(p, s[1..]);
      assert s == [s[0]] + s[1..];
    }
  }

  /** Filtering distributes over concatenation: this is what "in the original
      order" means, since together with the one-element case it determines Filter. */
  lemma {:induction false} FilterAppend<T>(p: T -> bool, a: seq<T>, b: seq<T>)
    ensures Filter(p, a + b) == Filter(p, a) + Filter(p, b)
  {
    if a == [] {
      assert a + b == b;
    } else {
      assert (a + b)[1..] == a[1..] + b;
      FilterAppend(p, a[1..], b);
    }
  }

  /** The element at position `j` is kept when it passes the filter. */
  lemma FilterKeepsAt<T>(p: T -> bool, s: seq<T>, j: nat)
    requires j < |s| && p(s[j])
    ensures s[j] in Filter(p, s)
  {
    assert s[j] in s;
  }

  /** A filter that every element passes keeps the sequence as it is. */
  lemma {:induction false} FilterAll<T>(p: T -> bool, s: seq<T>)
    requires forall x :: x in s ==> p(x)
    ensures Filter(p, s) == s
  {
    if s != [] {
      FilterAll(p, s[1..]);
    }
  }

  /** A filter that no element passes yields the empty sequence. */
  lemma FilterNone<T>(p: T -> bool, s: seq<T>)
    requires forall x :: x in s ==> !p(x)
    ensures Filter(p, s) == []
  {
    if Filter(p, s) != [] {
      assert Filter(p, s)[0] in Filter(p, s);
    }
  }

  /** No element occurs twice. */
  predicate NoDup<T(==)>(s: seq<T>)
  {
    forall i, j :: 0 <= i < j < |s| ==> s[i] != s[j]
  }

  /** No element occurs twice, stated on the multiset of the sequence. */
  lemma {:induction false} NoDupIffSingletons<T>(s: seq<T>)
    ensures NoDup(s) <==> forall x :: multiset(s)[x] <= 1
  {
    if s != [] {
      NoDupIffSingletons(s[1..]);
      assert s == [s[0]] + s[1..];
      if NoDup(s) {
        assert s[0] !in s[1..] by {
          forall k | 0 <= k < |s[1..]| ensures s[1..][k] != s[0] {
            assert s[1..][k] == s[k + 1];
          }
        }
        assert NoDup(s[1..]) by {
          forall i, j | 0 <= i < j < |s[1..]| ensures s[1..][i] != s[1..][j] {
            assert s[1..][i] == s[i + 1] && s[1..][j] == s[j + 1];
          }
        }
      }
      if forall x :: multiset(s)[x] <= 1 {
        assert forall x :: multiset(s[1..])[x] <= 1 by {
          forall x ensures multiset(s[1..])[x] <= 1 {
            assert multiset(s)[x] == multiset([s[0]])[x] + multiset(s[1..])[x];
          }
        }
        forall i, j | 0 <= i < j < |s| ensures s[i] != s[j] {
          if i == 0 {
            assert multiset(s)[s[0]] == 1 + multiset(s[1..])[s[0]];
            assert s[0] !in s[1..];
            assert s[1..][j - 1] == s[j];
          } else {
            assert s[i] == s[1..][i - 1] && s[j] == s[1..][j - 1];
          }
        }
      }
    }
  }

  /** Sequences with the same multiset of elements have the same duplicates. */
  lemma PermutationNoDup<T>(a: seq<T>, b: seq<T>)
    requires multiset(a) == multiset(b)
    requires NoDup(a)
    ensures NoDup(b)
  {
    NoDupIffSingletons(a);
    NoDupIffSingletons(b);
  }

  /** A filtered sequence without duplicates has none either. */
  lemma FilterNoDup<T>(p: T -> bool, s: seq<T>)
    requires NoDup(s)
    ensures NoDup(Filter(p, s))
  {
    NoDupIffSingletons(s);
    NoDupIffSingletons(Filter(p, s));
    FilterMultiset(p, s);
  }

  /** Appending an element that is not there yet keeps a sequence free of duplicates. */
  lemma SnocNoDup<T>(s: seq<T>, x: T)
    requires NoDup(s) && x !in s
    ensures NoDup(s + [x])
  {
    forall i, j | 0 <= i < j < |s| + 1
      ensures (s + [x])[i] != (s + [x])[j]
    {
      assert (s + [x])[i] == s[i];
      if j == |s| {
        assert s[i] in s;
      } else {
        assert (s + [x])[j] == s[j];
      }
    }
  }

  /** A property of every element of three sequences holds of every element
      of their concatenation. */
  lemma AllOfConcat<T>(p: T -> bool, a: seq<T>, b: seq<T>, c: seq<T>)
    requires forall i :: 0 <= i < |a| ==> p(a[i])
    requires forall i :: 0 <= i < |b| ==> p(b[i])
    requires forall i :: 0 <= i < |c| ==> p(c[i])
    ensures forall i :: 0 <= i < |a + b + c| ==> p((a + b + c)[i])
  {
    forall i | 0 <= i < |a + b + c|
      ensures p((a + b + c)[i])
    {
      if i < |a| {
        assert (a + b + c)[i] == a[i];
      } else if i < |a| + |b| {
        assert (a + b + c)[i] == b[i - |a|];
      } else {
        assert (a + b + c)[i] == c[i - |a| - |b|];
      }
    }
  }

  /** A prefix of a sequence without duplicates has none either. */
  lemma PrefixNoDup<T>(s: seq<T>, n: nat)
    requires n <= |s|
    requires NoDup(s)
    ensures NoDup(s[..n])
  {
    forall i, j | 0 <= i < j < n ensures s[..n][i] != s[..n][j] {
      assert s[..n][i] == s[i] && s[..n][j] == s[j];
    }
  }

  /** `r` is `s` with some elements left out, the rest kept in their order. */
  predicate IsSubsequence<T(==)>(r: seq<T>, s: seq<T>)
    decreases |s|
  {
    if r == [] then true
    else if s == [] then false
    else if r[0] == s[0] then IsSubsequence(r[1..], s[1..])
    else IsSubsequence(r, s[1..])
  }

  /** Dropping the first element of a subsequence leaves a subsequence. */
  lemma {:induction false} SubsequenceTail<T>(r: seq<T>, s: seq<T>)
    requires r != [] && IsSubsequence(r, s)
    ensures IsSubsequence(r[1..], s)
    decreases |s|, 1
  {
    if r[0] != s[0] {
      SubsequenceTail(r, s[1..]);
    }
    SubsequenceSkip(r[1..], s);
  }

  /** A subsequence of the tail of `s` is a subsequence of `s`. */
  lemma {:induction false} SubsequenceSkip<T>(r: seq<T>, s: seq<T>)
    requires s != [] && IsSubsequence(r, s[1..])
    ensures IsSubsequence(r, s)
    decreases |s|, 0
  {
    if r != [] && r[0] == s[0] {
      SubsequenceTail(r, s[1..]);
    }
  }

  /** Filtering keeps the original order. */
  lemma {:induction false} FilterIsSubsequence<T>(p: T -> bool, s: seq<T>)
    ensures IsSubsequence(Filter(p, s), s)
  {
    if s != [] {
      var rest := Filter(p, s[1..]);
      FilterIsSubsequence(p, s[1..]);
      if p(s[0]) {
        assert Filter(p, s) == [s[0]] + rest;
        assert ([s[0]] + rest)[1..] == rest;
      } else {
        assert Filter(p, s) == rest;
        SubsequenceSkip(rest, s);
      }
    }
  }

  function Min(a: nat, b: nat): nat { if a <= b then a else b }

  /** `s.slice(0, n)`: at most the first `n` elements. */
  function Take<T>(s: seq<T>, n: nat): (r: seq<T>)
    ensures |r| == Min(n, |s|)
    ensures r == s[..|r|]
  {
    if n <= |s| then s[..n] else s
  }

  /** `s.slice(-n)` for n > 0: at most the last `n` elements. */
  function TakeLast<T>(s: seq<T>, n: nat): (r: seq<T>)
    ensures |r| == Min(n, |s|)
    ensures r == s[|s| - |r|..]
  {
    if n <= |s| then s[|s| - n..] else s
  }

  /** The elements of `s` in the order chosen by `picks`: the first element is
      the one at index `picks[0] % |s|`, the rest is the shuffle of what remains
      by `picks[1..]`.  Missing picks choose index 0.  Every order of `s` is
      obtained for some `picks` (ShuffleReachesEveryOrder), so `picks` stands
      for the choices a randomised sort makes. */
  function Shuffle<T>(s: seq<T>, picks: seq<nat>): (r: seq<T>)
    ensures multiset(r) == multiset(s)
    ensures |r| == |s|
    decreases |s|
  {
    if s == [] then []
    else
      var k := if picks == [] then 0 else picks[0] % |s|;
      var rest := s[..k] + s[k + 1..];
      RemoveAtMultiset(s, k);
      assert s[k] in multiset(s);
      [s[k]] + Shuffle(rest, if picks == [] then [] else picks[1..])
  }

  /** Removing the element at index `k` removes one occurrence of it. */
  lemma RemoveAtMultiset<T>(s: seq<T>, k: nat)
    requires k < |s|
    ensures multiset(s[..k] + s[k + 1..]) == multiset(s) - multiset{s[k]}
  {
    assert s == s[..k] + [s[k]] + s[k + 1..];
  }

  /** One step of Shuffle: picking index `k` first. */
  lemma ShuffleStep<T>(s: seq<T>, k: nat, tail: seq<nat>)
    requires k < |s|
    ensures Shuffle(s, [k] + tail) == [s[k]] + Shuffle(s[..k] + s[k + 1..], tail)
  {
    var picks := [k] + tail;
    assert picks != [] && picks[0] == k && picks[1..] == tail;
    assert k % |s| == k by {
      SmallMod(k, |s|);
    }
  }

  lemma SmallMod(k: nat, n: nat)
    requires k < n
    ensures k % n == k
  {
  }

  /** Every permutation of `s` is a shuffle of it: the picks that produce it. */
  lemma {:induction false} ShuffleReachesEveryOrder<T>(s: seq<T>, r: seq<T>) returns (picks: seq<nat>)
    requires multiset(r) == multiset(s)
    ensures Shuffle(s, picks) == r
    decreases |s|
  {
    assert |r| == |s| by {
      assert |multiset(r)| == |multiset(s)|;
    }
    if s == [] {
      picks := [];
    } else {
      var k := IndexOf(s, r[0], r);
      var rest := s[..k] + s[k + 1..];
      RemoveAtMultiset(s, k);
      assert multiset(r[1..]) == multiset(rest) by {
        assert r == [r[0]] + r[1..];
      }
      var tail := ShuffleReachesEveryOrder(rest, r[1..]);
      ShuffleStep(s, k, tail);
      picks := [k] + tail;
      assert r == [r[0]] + r[1..];
    }
  }

  /** An index at which the first element of a permutation `r` of `s` occurs in `s`. */
  lemma IndexOf<T>(s: seq<T>, x: T, r: seq<T>) returns (k: nat)
    requires multiset(r) == multiset(s) && r != [] && x == r[0]
    ensures k < |s| && s[k] == x
  {
    assert x in multiset(r);
    assert x in s;
    k :| 0 <= k < |s| && s[k] == x;
  }

  /** How many elements of `s` satisfy `p`. */
  function CountWhere<T>(p: T -> bool, s: seq<T>): nat
  {
    |Filter(p, s)|
  }

  /** `s` with the elements at `i` and `k` exchanged. */
  function Swap<T>(s: seq<T>, i: nat, k: nat): (r: seq<T>)
    requires i < |s| && k < |s|
    ensures |r| == |s| && r[i] == s[k] && r[k] == s[i]
    ensures forall j | 0 <= j < |s| && j != i && j != k :: r[j] == s[j]
  {
    s[i := s[k]][k := s[i]]
  }

  /** The index that step `i` of a swap shuffle of a length-`n` sequence
      exchanges with `i`: one of `i .. n-1`, chosen by `swaps[i]`. */
  function SwapPartner(swaps: seq<nat>, i: nat, n: nat): (k: nat)
    requires i < n
    ensures i <= k < n
  {
    i + (if i < |swaps| then swaps[i] else 0) % (n - i)
  }

  /** The swap shuffle of `s` from step `i` on: at each step the element at
      the current index is exchanged with one at or after it. */
  function SwapShuffle<T>(s: seq<T>, swaps: seq<nat>, i: nat): seq<T>
    decreases |s| - i
  {
    if i >= |s| then s
    else SwapShuffle(Swap(s, i, SwapPartner(swaps, i, |s|)), swaps, i + 1)
  }

  /** Exchanging two elements keeps the multiset. */
  lemma SwapMultiset<T>(s: seq<T>, i: nat, k: nat)
    requires i < |s| && k < |s|
    ensures multiset(Swap(s, i, k)) == multiset(s)
  {
    var t := s[i := s[k]];
    assert multiset(t) == multiset(s) - multiset{s[i]} + multiset{s[k]};
    assert multiset(t[k := s[i]]) == multiset(t) - multiset{t[k]} + multiset{s[i]};
  }

  /** The swap shuffle only reorders: it keeps the multiset. */
  lemma {:induction false} SwapShuffleMultiset<T>(s: seq<T>, swaps: seq<nat>, i: nat)
    ensures multiset(SwapShuffle(s, swaps, i)) == multiset(s)
    ensures |SwapShuffle(s, swaps, i)| == |s|
    decreases |s| - i
  {
    if i < |s| {
      var k := SwapPartner(swaps, i, |s|);
      SwapMultiset(s, i, k);
      SwapShuffleMultiset(Swap(s, i, k), swaps, i + 1);
    }
  }
}
