/** Sequence vocabulary shared by the models: keyed selection, last match, first occurrences. */
module Sequences {

  datatype Option<+T> = None | Some(value: T)

  datatype Result<+T, +E> = Success(value: T) | Failure(error: E) {
    predicate IsFailure() {
      Failure?
    }

    function PropagateFailure<U>(): Result<U, E>
      requires Failure?
    {
      Failure(error)
    }

    function Extract(): T
      requires Success?
    {
      value
    }
  }

  /** The elements of `xs` whose key is `k`, in order. */
  function Select<K(==), T>(keys: seq<K>, xs: seq<T>, k: K): (r: seq<T>)
    requires |keys| == |xs|
    ensures |r| <= |xs|
  {
    if xs == [] then []
    else
      var n := |xs| - 1;
      Select(keys[..n], xs[..n], k) + if keys[n] == k then [xs[n]] else []
  }

  /** The last element of `xs` whose key is `k`. */
  function LastMatch<K(==), T>(keys: seq<K>, xs: seq<T>, k: K): Option<T>
    requires |keys| == |xs|
  {
    if xs == [] then None
    else
      var n := |xs| - 1;
      if keys[n] == k then Some(xs[n]) else LastMatch(keys[..n], xs[..n], k)
  }

  /** The greatest index holding `k`, or -1. */
  function LastIndex<K(==)>(keys: seq<K>, k: K): (i: int)
    ensures -1 <= i < |keys|
    ensures i == -1 <==> k !in keys
    ensures 0 <= i ==> keys[i] == k && forall j :: i < j < |keys| ==> keys[j] != k
  {
    if keys == [] then -1
    else if keys[|keys| - 1] == k then |keys| - 1
    else LastIndex(keys[..|keys| - 1], k)
  }

  function Get<K(==), V>(m: map<K, V>, k: K): Option<V> {
    if k in m then Some(m[k]) else None
  }

  predicate Distinct<T(==)>(xs: seq<T>) {
    forall i, j :: 0 <= i < j < |xs| ==> xs[i] != xs[j]
  }

  function SumLengths<T>(xs: seq<seq<T>>): nat {
    if xs == [] then 0 else SumLengths(xs[..|xs| - 1]) + |xs[|xs| - 1]|
  }

  lemma {:induction false} SelectMembers<K, T>(keys: seq<K>, xs: seq<T>, k: K)
    requires |keys| == |xs|
    ensures forall x :: x in Select(keys, xs, k) <==> exists i :: 0 <= i < |xs| && xs[i] == x && keys[i] == k
  {
    if xs != [] {
      var n := |xs| - 1;
      SelectMembers(keys[..n], xs[..n], k);
      forall x
        ensures x in Select(keys, xs, k) <==> exists i :: 0 <= i < |xs| && xs[i] == x && keys[i] == k
      {
        if i :| 0 <= i < |xs| && xs[i] == x && keys[i] == k {
          if i < n {
            assert xs[..n][i] == x && keys[..n][i] == k;
          }
        }
        if x in Select(keys, xs, k) && x in Select(keys[..n], xs[..n], k) {
          var i :| 0 <= i < n && xs[..n][i] == x && keys[..n][i] == k;
          assert xs[i] == x && keys[i] == k;
        }
      }
    }
  }

  lemma {:induction false} SelectAbsent<K, T>(keys: seq<K>, xs: seq<T>, k: K)
    requires |keys| == |xs|
    ensures k !in keys <==> Select(keys, xs, k) == []
  {
    if xs != [] {
      var n := |xs| - 1;
      SelectAbsent(keys[..n], xs[..n], k);
      assert k in keys <==> k in keys[..n] || keys[n] == k;
    }
  }

  /** The two ends of an append step, in the form loops need them. */
  lemma SelectSnoc<K, T>(keys: seq<K>, xs: seq<T>, j: nat, k: K)
    requires |keys| == |xs| && j < |xs|
    ensures Select(keys[..j+1], xs[..j+1], k)
         == Select(keys[..j], xs[..j], k) + if keys[j] == k then [xs[j]] else []
  {
    assert keys[..j+1][..j] == keys[..j] && xs[..j+1][..j] == xs[..j];
  }

  lemma LastMatchSnoc<K, T>(keys: seq<K>, xs: seq<T>, j: nat, k: K)
    requires |keys| == |xs| && j < |xs|
    ensures LastMatch(keys[..j+1], xs[..j+1], k)
         == if keys[j] == k then Some(xs[j]) else LastMatch(keys[..j], xs[..j], k)
  {
    assert keys[..j+1][..j] == keys[..j] && xs[..j+1][..j] == xs[..j];
  }

  /** Selecting from an image gives the image of the selection. */
  lemma {:induction false} SelectMap<K, T, U>(keys: seq<K>, xs: seq<T>, ys: seq<U>, k: K, f: T -> U)
    requires |keys| == |xs| == |ys|
    requires forall i :: 0 <= i < |xs| ==> ys[i] == f(xs[i])
    ensures var a, b := Select(keys, xs, k), Select(keys, ys, k);
      |a| == |b| && forall i :: 0 <= i < |a| ==> b[i] == f(a[i])
  {
    if xs != [] {
      var n := |xs| - 1;
      SelectMap(keys[..n], xs[..n], ys[..n], k, f);
    }
  }

  /** The last match is the end of the selection. */
  lemma {:induction false} LastMatchIsLast<K, T>(keys: seq<K>, xs: seq<T>, k: K)
    requires |keys| == |xs|
    ensures LastMatch(keys, xs, k)
         == var s := Select(keys, xs, k); if s == [] then None else Some(s[|s| - 1])
  {
    if xs != [] {
      var n := |xs| - 1;
      LastMatchIsLast(keys[..n], xs[..n], k);
    }
  }
}
