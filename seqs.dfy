/**
 * Sequence operations shared by the agents: the bounded histories
 * (`h = h[-n:]` once `len(h) > n`), counting, summing, order-keeping
 * de-duplication (the model's order for `list(set(...))`) and the stable
 * sort behind Python's `sorted(..., key=...)`.
 */
module Seqs {

  // ------------------------------------------------------ bounded history

  /** `s[-n:]` when `len(s) > n`, otherwise `s` unchanged. */
  function KeepLast<T>(s: seq<T>, n: nat): (r: seq<T>)
    ensures |r| <= n || r == s
    ensures |r| == if |s| > n then n else |s|
    ensures r == s[|s| - |r|..]
  {
    if |s| > n then s[|s| - n..] else s
  }

  /** Concatenation is associative. */
  lemma AppendAssoc<T>(a: seq<T>, b: seq<T>, c: seq<T>)
    ensures a + b + c == a + (b + c)
  {
  }

  /** Appending one entry to a history bounded by `n` keeps it bounded and ends with the entry. */
  lemma KeepLastAppend<T>(h: seq<T>, x: T, n: nat)
    requires 0 < n && |h| <= n
    ensures var r := KeepLast(h + [x], n); |r| <= n && r[|r| - 1] == x
    ensures var r := KeepLast(h + [x], n); r[..|r| - 1] == h[|h| + 1 - |r|..]
  {
    var r := KeepLast(h + [x], n);
    assert r == (h + [x])[|h| + 1 - |r|..];
  }

  // ------------------------------------------------------ counting, sums

  /** The number of elements satisfying `p`. */
  function Count<T>(s: seq<T>, p: T -> bool): (c: nat)
    ensures c <= |s|
  {
    if s == [] then 0 else Count(s[..|s| - 1], p) + (if p(s[|s| - 1]) then 1 else 0)
  }

  lemma {:induction false} CountAppend<T>(s: seq<T>, t: seq<T>, p: T -> bool)
    ensures Count(s + t, p) == Count(s, p) + Count(t, p)
    decreases |t|
  {
    if t == [] {
      assert s + t == s;
    } else {
      CountAppend(s, t[..|t| - 1], p);
      assert (s + t)[..|s + t| - 1] == s + t[..|t| - 1];
    }
  }

  /** Extending a prefix by one element adds that element's share to the count. */
  lemma CountPrefixStep<T>(s: seq<T>, i: nat, p: T -> bool)
    requires i < |s|
    ensures Count(s[..i + 1], p) == Count(s[..i], p) + (if p(s[i]) then 1 else 0)
  {
    assert s[..i + 1][..i] == s[..i];
  }

  /** No element satisfies `p` exactly when the count is zero. */
  lemma {:induction false} CountZero<T>(s: seq<T>, p: T -> bool)
    ensures Count(s, p) == 0 <==> forall i | 0 <= i < |s| :: !p(s[i])
  {
    if s != [] {
      CountZero(s[..|s| - 1], p);
      assert forall i | 0 <= i < |s| - 1 :: s[..|s| - 1][i] == s[i];
    }
  }

  /** Every element satisfies `p` exactly when the count is the length. */
  lemma {:induction false} CountAll<T>(s: seq<T>, p: T -> bool)
    ensures Count(s, p) == |s| <==> forall i | 0 <= i < |s| :: p(s[i])
  {
    if s != [] {
      CountAll(s[..|s| - 1], p);
      assert forall i | 0 <= i < |s| - 1 :: s[..|s| - 1][i] == s[i];
    }
  }

  /** The sum of `f` over the elements, left to right. */
  function Sum<T>(s: seq<T>, f: T -> real): real
  {
    if s == [] then 0.0 else Sum(s[..|s| - 1], f) + f(s[|s| - 1])
  }

  // ------------------------------------------------------ folding

  /** The state after feeding the elements to `step`, left to right, starting from `acc`. */
  function FoldLeft<A, B>(step: (A, B) -> A, acc: A, s: seq<B>): A
  {
    if s == [] then acc else step(FoldLeft(step, acc, s[..|s| - 1]), s[|s| - 1])
  }

  /** One more element is one more step. */
  lemma FoldLeftStep<A, B>(step: (A, B) -> A, acc: A, s: seq<B>, i: nat)
    requires i < |s|
    ensures FoldLeft(step, acc, s[..i + 1]) == step(FoldLeft(step, acc, s[..i]), s[i])
  {
    assert s[..i + 1][..i] == s[..i];
  }

  /** Folding a concatenation is folding the second part from where the first left off. */
  lemma {:induction false} FoldLeftAppend<A, B>(step: (A, B) -> A, acc: A, s: seq<B>, t: seq<B>)
    decreases |t|
    ensures FoldLeft(step, acc, s + t) == FoldLeft(step, FoldLeft(step, acc, s), t)
  {
    if t == [] {
      assert s + t == s;
    } else {
      var k := |t| - 1;
      FoldLeftAppend(step, acc, s, t[..k]);
      assert (s + t)[..|s + t| - 1] == s + t[..k];
    }
  }

  // ------------------------------------------------------ filtering

  function Filter<T>(s: seq<T>, p: T -> bool): (r: seq<T>)
    ensures |r| == Count(s, p)
    ensures forall x | x in r :: x in s && p(x)
    ensures forall i | 0 <= i < |s| && p(s[i]) :: s[i] in r
  {
    if s == [] then []
    else
      var init := Filter(s[..|s| - 1], p);
      assert forall i | 0 <= i < |s| - 1 :: s[..|s| - 1][i] == s[i];
      if p(s[|s| - 1]) then init + [s[|s| - 1]] else init
  }

  /** Filtering keeps the order of the input: a concatenation filters piecewise. */
  lemma {:induction false} FilterAppend<T>(s: seq<T>, t: seq<T>, p: T -> bool)
    decreases |t|
    ensures Filter(s + t, p) == Filter(s, p) + Filter(t, p)
  {
    if t != [] {
      var k := |t| - 1;
      FilterAppend(s, t[..k], p);
      assert (s + t)[..|s + t| - 1] == s + t[..k];
    } else {
      assert s + t == s;
    }
  }

  // ------------------------------------------------------ de-duplication

  predicate NoDuplicates<T(==)>(s: seq<T>)
  {
    forall i, j | 0 <= i < j < |s| :: s[i] != s[j]
  }

  /** The distinct elements of `s` in order of first appearance. */
  function Dedup<T(==)>(s: seq<T>): (r: seq<T>)
    ensures |r| <= |s|
  {
    if s == [] then []
    else
      var init := Dedup(s[..|s| - 1]);
      if s[|s| - 1] in init then init else init + [s[|s| - 1]]
  }

  /** De-duplication keeps every element exactly once and adds none. */
  lemma {:induction false} DedupMembers<T>(s: seq<T>)
    ensures NoDuplicates(Dedup(s))
    ensures forall x | x in s :: x in Dedup(s)
    ensures forall x | x in Dedup(s) :: x in s
  {
    if s != [] {
      var init, last := s[..|s| - 1], s[|s| - 1];
      DedupMembers(init);
      assert forall x | x in s :: x in init || x == last;
      assert forall x | x in init :: x in s;
    }
  }

  // ------------------------------------------------------ stable sort

  predicate SortedBy<T>(s: seq<T>, key: T -> real)
  {
    forall i, j | 0 <= i < j < |s| :: key(s[i]) <= key(s[j])
  }

  /** Inserts `x` after every element whose key is at most `key(x)`. */
  function InsertBy<T>(x: T, s: seq<T>, key: T -> real): (r: seq<T>)
    requires SortedBy(s, key)
    ensures SortedBy(r, key)
    ensures multiset(r) == multiset(s) + multiset{x}
  {
    if s == [] then [x]
    else if key(x) < key(s[0]) then
      [x] + s
    else
      var t := InsertBy(x, s[1..], key);
      assert s == [s[0]] + s[1..];
      TailAbove(x, s, t, key);
      ConsSorted(s[0], t, key);
      [s[0]] + t
  }

  /** Inserting an element no smaller than the head into the tail keeps everything above the head. */
  lemma TailAbove<T>(x: T, s: seq<T>, t: seq<T>, key: T -> real)
    requires SortedBy(s, key) && |s| > 0 && key(s[0]) <= key(x)
    requires multiset(t) == multiset(s[1..]) + multiset{x}
    ensures forall i | 0 <= i < |t| :: key(s[0]) <= key(t[i])
  {
    forall i | 0 <= i < |t| ensures key(s[0]) <= key(t[i]) {
      assert t[i] in multiset(t);
      if t[i] != x {
        assert t[i] in multiset(s[1..]);
        var k :| 0 <= k < |s[1..]| && s[1..][k] == t[i];
        assert s[k + 1] == t[i];
      }
    }
  }

  lemma ConsSorted<T>(h: T, t: seq<T>, key: T -> real)
    requires SortedBy(t, key) && forall i | 0 <= i < |t| :: key(h) <= key(t[i])
    ensures SortedBy([h] + t, key)
  {
    var r := [h] + t;
    forall i, j | 0 <= i < j < |r| ensures key(r[i]) <= key(r[j]) {
      assert r[j] == t[j - 1];
      if i > 0 {
        assert r[i] == t[i - 1];
      }
    }
  }

  /**
   * Python's stable `sorted(s, key=key)`: elements are taken left to right
   * and each is placed after the equal-keyed elements already placed.
   */
  function SortBy<T>(s: seq<T>, key: T -> real): (r: seq<T>)
    ensures SortedBy(r, key)
    ensures multiset(r) == multiset(s)
    ensures |r| == |s|
  {
    if s == [] then []
    else
      var init, last := s[..|s| - 1], s[|s| - 1];
      var r := InsertBy(last, SortBy(init, key), key);
      LastSplit(s);
      SameLength(r, s);
      r
  }

  lemma LastSplit<T>(s: seq<T>)
    requires |s| > 0
    ensures multiset(s) == multiset(s[..|s| - 1]) + multiset{s[|s| - 1]}
  {
    assert s == s[..|s| - 1] + [s[|s| - 1]];
  }

  lemma SameLength<T>(r: seq<T>, s: seq<T>)
    requires multiset(r) == multiset(s)
    ensures |r| == |s|
  {
    assert |multiset(r)| == |r| && |multiset(s)| == |s|;
  }
}
