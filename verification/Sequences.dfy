/** Order-preserving sequence operations that the rest of the project is stated with. */
module Sequences {

  datatype Option<+T> = None | Some(value: T)

  predicate NoDup<T(==)>(s: seq<T>) {
    forall i, j :: 0 <= i < j < |s| ==> s[i] != s[j]
  }

  function RemoveAt<T>(s: seq<T>, k: nat): (r: seq<T>)
    requires k < |s|
    ensures |r| == |s| - 1
    ensures forall i :: 0 <= i < k ==> r[i] == s[i]
    ensures forall i :: k <= i < |r| ==> r[i] == s[i + 1]
    ensures forall y :: y in r ==> y in s
  {
    s[..k] + s[k + 1..]
  }

  /** The element at `k` moved to the head, everything else in its old order. */
  function ToFront<T>(s: seq<T>, k: nat): (r: seq<T>)
    requires k < |s|
    ensures |r| == |s|
    ensures k == 0 ==> r == s
    ensures forall y :: y in r ==> y in s
  {
    [s[k]] + RemoveAt(s, k)
  }

  /** The longest prefix of at most `n` elements. */
  function Take<T>(s: seq<T>, n: nat): (r: seq<T>)
    ensures r <= s
    ensures |r| == if |s| <= n then |s| else n
  {
    if |s| <= n then s else s[..n]
  }

  /** All occurrences of `x` dropped. */
  function Without<T(==)>(s: seq<T>, x: T): (r: seq<T>)
    ensures x !in r
    ensures forall y :: y in r ==> y in s
    ensures forall y :: y in s && y != x ==> y in r
    ensures |r| <= |s|
  {
    if s == [] then []
    else if s[0] == x then Without(s[1..], x)
    else [s[0]] + Without(s[1..], x)
  }

  /** Repeats dropped: of equal elements only the leftmost stays. */
  function Dedup<T(==,!new)>(s: seq<T>): (r: seq<T>)
    ensures forall y :: y in r <==> y in s
    ensures |r| <= |s|
  {
    if s == [] then [] else [s[0]] + Without(Dedup(s[1..]), s[0])
  }

  function Reverse<T>(s: seq<T>): (r: seq<T>)
    ensures |r| == |s|
    ensures forall i :: 0 <= i < |s| ==> r[i] == s[|s| - 1 - i]
  {
    if s == [] then [] else Reverse(s[1..]) + [s[0]]
  }

  function Filter<T>(s: seq<T>, p: T -> bool): (r: seq<T>)
    ensures forall y :: y in r ==> y in s && p(y)
    ensures forall y :: y in s && p(y) ==> y in r
  {
    if s == [] then [] else if p(s[0]) then [s[0]] + Filter(s[1..], p) else Filter(s[1..], p)
  }

  lemma NoDupRemoveAt<T>(s: seq<T>, k: nat)
    requires k < |s| && NoDup(s)
    ensures NoDup(RemoveAt(s, k)) && s[k] !in RemoveAt(s, k)
  {
  }

  lemma ToFrontPermutes<T>(s: seq<T>, k: nat)
    requires k < |s|
    ensures multiset(ToFront(s, k)) == multiset(s)
    ensures NoDup(s) ==> NoDup(ToFront(s, k))
  {
    assert s == s[..k] + [s[k]] + s[k + 1..];
  }

  lemma {:induction false} WithoutAbsent<T>(s: seq<T>, x: T)
    requires x !in s
    ensures Without(s, x) == s
  {
    if s != [] {
      WithoutAbsent(s[1..], x);
    }
  }

  lemma {:induction false} WithoutAt<T>(s: seq<T>, k: nat)
    requires k < |s| && NoDup(s)
    ensures Without(s, s[k]) == RemoveAt(s, k)
  {
    if k == 0 {
      WithoutAbsent(s[1..], s[0]);
    } else {
      WithoutAt(s[1..], k - 1);
    }
  }

  lemma {:induction false} WithoutNoDup<T>(s: seq<T>, x: T)
    requires NoDup(s)
    ensures NoDup(Without(s, x))
  {
    if s != [] {
      assert s[0] !in s[1..];
      WithoutNoDup(s[1..], x);
      assert s[0] !in Without(s[1..], x);
    }
  }

  lemma {:induction false} DedupNoDup<T(!new)>(s: seq<T>)
    ensures NoDup(Dedup(s))
  {
    if s != [] {
      DedupNoDup(s[1..]);
      WithoutNoDup(Dedup(s[1..]), s[0]);
    }
  }

  lemma {:induction false} DedupFixed<T(!new)>(s: seq<T>)
    requires NoDup(s)
    ensures Dedup(s) == s
  {
    if s != [] {
      DedupFixed(s[1..]);
      WithoutAbsent(s[1..], s[0]);
    }
  }

  /** Dropping `x` and cutting commute as long as the cut leaves room for `x` itself. */
  lemma {:induction false} TakeWithout<T>(s: seq<T>, x: T, n: nat)
    requires NoDup(s)
    ensures Take(Without(Take(s, n + 1), x), n) == Take(Without(s, x), n)
  {
    if |s| <= n + 1 {
    } else if s[0] == x {
      WithoutAbsent(s[1..], x);
      assert Take(s, n + 1)[1..] == s[1..][..n];
      WithoutAbsent(s[1..][..n], x);
    } else if n == 0 {
    } else {
      TakeWithout(s[1..], x, n - 1);
      assert Take(s, n + 1)[1..] == Take(s[1..], n);
      assert Take(s, n + 1)[0] == s[0];
    }
  }

  /** A duplicate-free sequence is no longer than a set that its elements come from. */
  lemma {:induction false} NoDupSize<T>(s: seq<T>, bound: set<T>)
    requires NoDup(s) && forall y :: y in s ==> y in bound
    ensures |s| <= |bound|
  {
    if s != [] {
      assert s[0] !in s[1..];
      NoDupSize(s[1..], bound - {s[0]});
    }
  }
}
