/** Shared vocabulary: an option type, the error classes and sums over sequences. */
module Prelude {

  datatype Option<+T> = None | Some(value: T)

  /** What an appliance or a transport can fail with: a rejected credential, a transport the appliance does
      not speak, or anything else. */
  datatype Fault = Auth | Unsupported | Other

  /** The sum of a weight over a sequence; every protocol below counts program counters with it. */
  ghost function SumBy<T>(s: seq<T>, f: T -> nat): nat {
    if s == [] then 0 else f(s[0]) + SumBy(s[1..], f)
  }

  lemma {:induction false} SumByUpdate<T>(s: seq<T>, f: T -> nat, i: nat, x: T)
    requires i < |s|
    ensures SumBy(s[i := x], f) == SumBy(s, f) - f(s[i]) + f(x)
    ensures SumBy(s, f) >= f(s[i])
  {
    if i == 0 {
      assert s[i := x][1..] == s[1..];
    } else {
      assert s[i := x][1..] == s[1..][i - 1 := x];
      SumByUpdate(s[1..], f, i - 1, x);
    }
  }

  lemma {:induction false} SumByBound<T>(s: seq<T>, f: T -> nat)
    requires forall i :: 0 <= i < |s| ==> f(s[i]) <= 1
    ensures SumBy(s, f) <= |s|
  {
    if s != [] {
      SumByBound(s[1..], f);
    }
  }

  lemma {:induction false} SumByZero<T>(s: seq<T>, f: T -> nat)
    requires forall i :: 0 <= i < |s| ==> f(s[i]) == 0
    ensures SumBy(s, f) == 0
  {
    if s != [] {
      SumByZero(s[1..], f);
    }
  }

  lemma {:induction false} SumByAtMost<T>(s: seq<T>, f: T -> nat, g: T -> nat)
    requires forall i :: 0 <= i < |s| ==> f(s[i]) <= g(s[i])
    ensures SumBy(s, f) <= SumBy(s, g)
  {
    if s != [] {
      SumByAtMost(s[1..], f, g);
    }
  }

  lemma {:induction false} SumByAppend<T>(s: seq<T>, f: T -> nat, x: T)
    ensures SumBy(s + [x], f) == SumBy(s, f) + f(x)
  {
    if s == [] {
      assert s + [x] == [x] && [x][1..] == [];
    } else {
      assert (s + [x])[1..] == s[1..] + [x];
      SumByAppend(s[1..], f, x);
    }
  }

  lemma {:induction false} SumBySame<T>(a: seq<T>, b: seq<T>, f: T -> nat)
    requires |a| == |b| && forall i :: 0 <= i < |a| ==> f(a[i]) == f(b[i])
    ensures SumBy(a, f) == SumBy(b, f)
  {
    if a != [] {
      SumBySame(a[1..], b[1..], f);
    }
  }

  /** The positions below `n` that `keep` holds of, each once and in order. */
  ghost predicate Picks(f: seq<nat>, n: nat, keep: nat -> bool) {
    (forall k :: 0 <= k < |f| ==> f[k] < n)
    && (forall j, k :: 0 <= j < k < |f| ==> f[j] < f[k])
    && forall i: nat :: i < n ==> (i in f <==> keep(i))
  }

  lemma PickNext(f: seq<nat>, n: nat, keep: nat -> bool)
    requires Picks(f, n, keep)
    ensures Picks(if keep(n) then f + [n] else f, n + 1, keep)
  {
    assert n !in f;
    forall i: nat | i < n + 1 ensures i in (if keep(n) then f + [n] else f) <==> keep(i) {
      assert i in f + [n] <==> i in f || i == n;
    }
  }
}
