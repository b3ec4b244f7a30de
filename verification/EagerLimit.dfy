/** Row limits: a limit on an edge query is one limit for the whole batch of nodes. Here it is counted which
    rows of a table a batch leaves each node; a table is given as its rows in query order with their keys. */
module EagerLimit {
  import opened Sequences
  import opened EagerSpec

  /** The rows whose key is one of `ids`. */
  function Kept<T>(keys: seq<Option<int>>, rows: seq<T>, ids: seq<int>): (r: seq<T>)
    requires |keys| == |rows|
    ensures |r| <= |rows|
  {
    if rows == [] then []
    else
      var n := |rows| - 1;
      Kept(keys[..n], rows[..n], ids) + if keys[n].Some? && keys[n].value in ids then [rows[n]] else []
  }

  function Take<T>(xs: seq<T>, n: nat): (r: seq<T>)
    ensures |r| == if |xs| <= n then |xs| else n
  {
    if |xs| <= n then xs else xs[..n]
  }

  lemma {:induction false} KeptKeys<T>(keys: seq<Option<int>>, rows: seq<T>, ids: seq<int>)
    requires |keys| == |rows|
    ensures |Kept(keys, keys, ids)| == |Kept(keys, rows, ids)|
    ensures forall k :: k in Kept(keys, keys, ids) ==> k.Some? && k.value in ids
  {
    if rows != [] {
      KeptKeys(keys[..|rows| - 1], rows[..|rows| - 1], ids);
    }
  }

  lemma SelectAppend<K, T>(keys: seq<K>, xs: seq<T>, key: K, x: T, k: K)
    requires |keys| == |xs|
    ensures Select(keys + [key], xs + [x], k) == Select(keys, xs, k) + if key == k then [x] else []
  {
    assert (keys + [key])[..|keys|] == keys && (xs + [x])[..|xs|] == xs;
  }

  /** Filtering for a batch and then for one of its ids is filtering for that id. */
  lemma {:induction false} SelectKept<T>(keys: seq<Option<int>>, rows: seq<T>, ids: seq<int>, id: int)
    requires |keys| == |rows| && id in ids
    ensures |Kept(keys, keys, ids)| == |Kept(keys, rows, ids)|
    ensures Select(Kept(keys, keys, ids), Kept(keys, rows, ids), Some(id)) == Kept(keys, rows, [id])
  {
    KeptKeys(keys, rows, ids);
    if rows == [] {
      assert Kept(keys, keys, ids) == [] && Kept(keys, rows, ids) == [] && Kept(keys, rows, [id]) == [];
    } else {
      var n := |rows| - 1;
      SelectKept(keys[..n], rows[..n], ids, id);
      var ks, xs := Kept(keys[..n], keys[..n], ids), Kept(keys[..n], rows[..n], ids);
      SelectAppend(ks, xs, keys[n], rows[n], Some(id));
      assert Kept(keys, rows, [id]) == Kept(keys[..n], rows[..n], [id]) + if keys[n] == Some(id) then [rows[n]] else [];
      if keys[n].Some? && keys[n].value in ids {
        assert Kept(keys, keys, ids) == ks + [keys[n]] && Kept(keys, rows, ids) == xs + [rows[n]];
      } else {
        assert Kept(keys, keys, ids) == ks && Kept(keys, rows, ids) == xs;
      }
    }
  }

  lemma {:induction false} SelectSplit<K, T>(keys: seq<K>, xs: seq<T>, n: nat, k: K)
    requires |keys| == |xs| && n <= |xs|
    ensures Select(keys, xs, k) == Select(keys[..n], xs[..n], k) + Select(keys[n..], xs[n..], k)
    decreases |xs|
  {
    if n == |xs| {
      assert keys[..n] == keys && xs[..n] == xs;
    } else {
      var m := |xs| - 1;
      SelectSplit(keys[..m], xs[..m], n, k);
      assert keys[..m][..n] == keys[..n] && xs[..m][..n] == xs[..n];
      assert keys[n..][..m-n] == keys[..m][n..] && xs[n..][..m-n] == xs[..m][n..];
    }
  }

  predicate AllAre<K(==)>(keys: seq<K>, k: K) {
    forall i :: 0 <= i < |keys| ==> keys[i] == k
  }

  lemma {:induction false} SelectEverything<K, T>(keys: seq<K>, xs: seq<T>, k: K)
    requires |keys| == |xs|
    ensures |Select(keys, xs, k)| == |xs| <==> AllAre(keys, k)
    ensures AllAre(keys, k) ==> Select(keys, xs, k) == xs
  {
    if xs != [] {
      var n := |xs| - 1;
      SelectEverything(keys[..n], xs[..n], k);
      AllAreSnoc(keys[..n], keys[n], k);
      assert xs == xs[..n] + [xs[n]] && keys == keys[..n] + [keys[n]];
    }
  }

  lemma AllAreSnoc<K>(keys: seq<K>, last: K, k: K)
    ensures AllAre(keys + [last], k) <==> AllAre(keys, k) && last == k
  {
    var all := keys + [last];
    assert all[|keys|] == last && forall i :: 0 <= i < |keys| ==> all[i] == keys[i];
  }

  /** What node `i` of a batch gets from an edge query limited to `limit` rows. */
  function LimitedShare<T>(keys: seq<Option<int>>, rows: seq<T>, limit: nat, ids: seq<int>, i: nat): seq<T>
    requires |keys| == |rows| && i < |ids|
  {
    KeptKeys(keys, rows, ids);
    Share(ids, Take(Kept(keys, keys, ids), limit), Take(Kept(keys, rows, ids), limit), i)
  }

  /** The rows of one node alone. */
  function Own<T>(keys: seq<Option<int>>, rows: seq<T>, id: int): seq<T>
    requires |keys| == |rows|
  {
    Kept(keys, rows, [id])
  }

  /** The limit does no harm: the batch stays within it, or only one node has any rows. */
  ghost predicate LimitHarmless<T>(keys: seq<Option<int>>, rows: seq<T>, limit: nat, ids: seq<int>)
    requires |keys| == |rows|
  {
    || |Kept(keys, rows, ids)| <= limit
    || forall i, j :: 0 <= i < |ids| && 0 <= j < |ids| ==>
         Own(keys, rows, ids[i]) != [] && Own(keys, rows, ids[j]) != [] ==> i == j
  }

  /** If only one node has rows, the whole batch is its rows. */
  lemma LonelyOwner<T>(keys: seq<Option<int>>, rows: seq<T>, ids: seq<int>, i: nat)
    requires |keys| == |rows| && i < |ids|
    requires forall j :: 0 <= j < |ids| && Own(keys, rows, ids[j]) != [] ==> i == j
    ensures AllAre(Kept(keys, keys, ids), Some(ids[i]))
  {
    var ks, xs := Kept(keys, keys, ids), Kept(keys, rows, ids);
    KeptKeys(keys, rows, ids);
    forall a | 0 <= a < |ks|
      ensures ks[a] == Some(ids[i])
    {
      assert ks[a] in ks;
      var k := ks[a].value;
      var j :| 0 <= j < |ids| && ids[j] == k;
      SelectKept(keys, rows, ids, k);
      SelectAbsent(ks, xs, Some(k));
    }
  }

  lemma HarmlessLimitAgrees<T>(keys: seq<Option<int>>, rows: seq<T>, limit: nat, ids: seq<int>, i: nat)
    requires |keys| == |rows| && limit > 0 && Distinct(ids) && i < |ids| && LimitHarmless(keys, rows, limit, ids)
    ensures LimitedShare(keys, rows, limit, ids, i) == Take(Own(keys, rows, ids[i]), limit)
  {
    var ks, xs, id := Kept(keys, keys, ids), Kept(keys, rows, ids), ids[i];
    assert LastIndex(ids, id) == i;
    SelectKept(keys, rows, ids, id);
    if |xs| > limit {
      SelectSplit(ks, xs, limit, Some(id));
      if Own(keys, rows, id) != [] {
        LonelyOwner(keys, rows, ids, i);
        assert AllAre(ks[..limit], Some(id));
        SelectEverything(ks[..limit], xs[..limit], Some(id));
        SelectEverything(ks, xs, Some(id));
      }
    }
  }

  /** If node `k` keeps a row beyond the limit and still gets its own limited load, no other node gets any. */
  lemma WholeLimitTaken<T>(ks: seq<Option<int>>, xs: seq<T>, limit: nat, id: int, other: int)
    requires 0 < limit < |xs| == |ks| && ks[limit] == Some(id) && other != id
    requires Select(ks[..limit], xs[..limit], Some(id)) == Take(Select(ks, xs, Some(id)), limit)
    ensures Select(ks[..limit], xs[..limit], Some(other)) == []
  {
    SelectSplit(ks, xs, limit, Some(id));
    SelectAbsent(ks[limit..], xs[limit..], Some(id));
    assert ks[limit..][0] == Some(id);
    SelectEverything(ks[..limit], xs[..limit], Some(id));
    SelectAbsent(ks[..limit], xs[..limit], Some(other));
  }

  /** What a limited batch gives a node is the beginning of what the node's own query would give it. */
  lemma LimitedShareIsPrefix<T>(keys: seq<Option<int>>, rows: seq<T>, limit: nat, ids: seq<int>, i: nat)
    requires |keys| == |rows| && Distinct(ids) && i < |ids|
    ensures LimitedShare(keys, rows, limit, ids, i) <= Own(keys, rows, ids[i])
  {
    var ks, xs, id := Kept(keys, keys, ids), Kept(keys, rows, ids), ids[i];
    assert LastIndex(ids, id) == i;
    SelectKept(keys, rows, ids, id);
    if |xs| > limit {
      SelectSplit(ks, xs, limit, Some(id));
    }
  }

  lemma HarmfulLimitDisagrees<T>(keys: seq<Option<int>>, rows: seq<T>, limit: nat, ids: seq<int>) returns (i: nat)
    requires |keys| == |rows| && limit > 0 && Distinct(ids) && !LimitHarmless(keys, rows, limit, ids)
    ensures i < |ids| && LimitedShare(keys, rows, limit, ids, i) != Take(Own(keys, rows, ids[i]), limit)
  {
    var ks, xs := Kept(keys, keys, ids), Kept(keys, rows, ids);
    KeptKeys(keys, rows, ids);
    assert ks[limit] in ks;
    var id := ks[limit].value;
    var k :| 0 <= k < |ids| && ids[k] == id;
    var a, b :| 0 <= a < |ids| && 0 <= b < |ids| && Own(keys, rows, ids[a]) != [] && Own(keys, rows, ids[b]) != []
      && a != b;
    var j := if a == k then b else a;
    assert LastIndex(ids, id) == k && LastIndex(ids, ids[j]) == j;
    SelectKept(keys, rows, ids, id);
    i := k;
    if LimitedShare(keys, rows, limit, ids, k) == Take(Own(keys, rows, id), limit) {
      WholeLimitTaken(ks, xs, limit, id, ids[j]);
      i := j;
    }
  }

  /** A limit of a positive number of rows gives every node as many as its own limited query would have given
      exactly when the batch stays within the limit or only one node has rows at all; and then the same ones. */
  lemma LimitedSharesIff<T>(keys: seq<Option<int>>, rows: seq<T>, limit: nat, ids: seq<int>)
    requires |keys| == |rows| && limit > 0 && Distinct(ids)
    ensures LimitHarmless(keys, rows, limit, ids) <==>
      forall i :: 0 <= i < |ids| ==> |LimitedShare(keys, rows, limit, ids, i)| == |Take(Own(keys, rows, ids[i]), limit)|
    ensures LimitHarmless(keys, rows, limit, ids) ==>
      forall i :: 0 <= i < |ids| ==> LimitedShare(keys, rows, limit, ids, i) == Take(Own(keys, rows, ids[i]), limit)
  {
    if LimitHarmless(keys, rows, limit, ids) {
      forall i | 0 <= i < |ids|
        ensures LimitedShare(keys, rows, limit, ids, i) == Take(Own(keys, rows, ids[i]), limit)
      {
        HarmlessLimitAgrees(keys, rows, limit, ids, i);
      }
    } else {
      var i := HarmfulLimitDisagrees(keys, rows, limit, ids);
      LimitedShareIsPrefix(keys, rows, limit, ids, i);
      var got, own := LimitedShare(keys, rows, limit, ids, i), Own(keys, rows, ids[i]);
      if |got| == |Take(own, limit)| {
        SamePrefix(got, Take(own, limit), own);
      }
    }
  }

  lemma SamePrefix<T>(a: seq<T>, b: seq<T>, whole: seq<T>)
    requires a <= whole && b <= whole && |a| == |b|
    ensures a == b
  {
  }
}
