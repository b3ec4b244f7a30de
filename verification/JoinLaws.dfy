/** What the joins conserve: every neighbour is placed once, linked pairs are counted once, and parents and
    children invert each other. */
module JoinLaws {
  import opened Sequences
  import opened AccountEntity
  import opened EagerSpec
  import opened EagerLaws
  import opened EdgeReports
  import EagerLoad
  import opened LazyLoading

  // ---------------------------------------------------------------- partition

  function Concat<T>(xss: seq<seq<T>>): seq<T> {
    if xss == [] then [] else Concat(xss[..|xss| - 1]) + xss[|xss| - 1]
  }

  lemma {:induction false} ConcatAppend<T>(xss: seq<seq<T>>, at: nat, x: T)
    requires at < |xss|
    ensures var yss := xss[at := xss[at] + [x]];
      && multiset(Concat(yss)) == multiset(Concat(xss)) + multiset{x}
      && SumLengths(yss) == SumLengths(xss) + 1
  {
    var n := |xss| - 1;
    var yss := xss[at := xss[at] + [x]];
    if at == n {
      assert yss[..n] == xss[..n];
      assert Concat(yss) == Concat(xss) + [x];
    } else {
      assert yss[..n] == xss[..n][at := xss[..n][at] + [x]];
      ConcatAppend(xss[..n], at, x);
    }
  }

  lemma {:induction false} ConcatEmpty<T>(xss: seq<seq<T>>)
    requires forall i :: 0 <= i < |xss| ==> xss[i] == []
    ensures Concat(xss) == [] && SumLengths(xss) == 0
  {
    if xss != [] {
      ConcatEmpty(xss[..|xss| - 1]);
    }
  }

  /** The lists together hold every element exactly once. */
  ghost predicate Placed<T>(xss: seq<seq<T>>, xs: seq<T>) {
    multiset(Concat(xss)) == multiset(xs) && SumLengths(xss) == |xs|
  }

  lemma OneMorePlaced<T>(xss: seq<seq<T>>, at: nat, x: T, placed: seq<T>)
    requires at < |xss| && Placed(xss, placed)
    ensures Placed(xss[at := xss[at] + [x]], placed + [x])
  {
    ConcatAppend(xss, at, x);
  }

  lemma {:induction false} PrefixesArePlaced<T>(ids: seq<int>, keys: seq<Option<int>>, ns: seq<T>, n: nat)
    requires |keys| == |ns| && n <= |ns|
    requires forall i :: 0 <= i < n ==> keys[i].Some? && keys[i].value in ids
    ensures Placed(Shares(ids, keys[..n], ns[..n]), ns[..n])
  {
    if n == 0 {
      ConcatEmpty(Shares(ids, keys[..n], ns[..n]));
    } else {
      PrefixesArePlaced(ids, keys, ns, n - 1);
      NextIsPlaced(ids, keys, ns, n - 1);
    }
  }

  lemma NextIsPlaced<T>(ids: seq<int>, keys: seq<Option<int>>, ns: seq<T>, j: nat)
    requires j < |keys| == |ns| && keys[j].Some? && keys[j].value in ids
    requires Placed(Shares(ids, keys[..j], ns[..j]), ns[..j])
    ensures Placed(Shares(ids, keys[..j+1], ns[..j+1]), ns[..j+1])
  {
    EagerLoad.SharesSnoc(ids, keys, ns, j);
    OneMorePlaced(Shares(ids, keys[..j], ns[..j]), LastIndex(ids, keys[j].value), ns[j], ns[..j]);
    assert ns[..j+1] == ns[..j] + [ns[j]];
  }

  /** A one-to-many load neither loses nor repeats a neighbour: together the lists hold every neighbour
      exactly once, whatever ids are repeated among the nodes. */
  lemma PartitionIsExact<T>(ids: seq<int>, keys: seq<Option<int>>, ns: seq<T>)
    requires |keys| == |ns| && forall k :: k in keys ==> k.Some? && k.value in ids
    ensures multiset(Concat(Shares(ids, keys, ns))) == multiset(ns)
    ensures SumLengths(Shares(ids, keys, ns)) == |ns|
  {
    assert forall i :: 0 <= i < |ns| ==> keys[i] in keys;
    PrefixesArePlaced(ids, keys, ns, |ns|);
    assert keys[..|ns|] == keys && ns[..|ns|] == ns;
  }

  /** Among nodes that share an id the last one holds the neighbours, in their order; the others hold none. */
  lemma SharesOfDuplicates<T>(ids: seq<int>, keys: seq<Option<int>>, ns: seq<T>, i: nat)
    requires |keys| == |ns| && i < |ids|
    ensures Shares(ids, keys, ns)[i]
         == if exists j :: i < j < |ids| && ids[j] == ids[i] then [] else Select(keys, ns, Some(ids[i]))
  {
    var last := LastIndex(ids, ids[i]);
    assert last == i <==> !exists j :: i < j < |ids| && ids[j] == ids[i];
  }

  // -------------------------------------------------------------- many to many

  /** The position of a group's first row, or the number of rows. */
  function FirstRow(rows: seq<GroupRow>, id: int): (k: nat)
    ensures k <= |rows|
    ensures k < |rows| ==> rows[k].group.ID == id
    ensures forall j :: 0 <= j < k ==> rows[j].group.ID != id
  {
    if rows == [] then 0
    else
      var n := |rows| - 1;
      var k := FirstRow(rows[..n], id);
      if k < n || rows[n].group.ID == id then k else n + 1
  }

  ghost predicate InFirstRowOrder(rows: seq<GroupRow>, ns: seq<Group>) {
    forall i, j :: 0 <= i < j < |ns| ==> FirstRow(rows, ns[i].ID) < FirstRow(rows, ns[j].ID)
  }

  lemma InFirstRowOrderSnoc(rows: seq<GroupRow>, ns: seq<Group>, n: Group)
    requires InFirstRowOrder(rows, ns) && forall x :: x in ns ==> FirstRow(rows, x.ID) < FirstRow(rows, n.ID)
    ensures InFirstRowOrder(rows, ns + [n])
  {
  }

  /** The first position of an element, or the length. */
  function FirstAt<T(==)>(xs: seq<T>, x: T): (i: nat)
    ensures i <= |xs| && (i < |xs| ==> xs[i] == x) && forall j :: 0 <= j < i ==> xs[j] != x
  {
    if xs == [] then 0
    else
      var i := FirstAt(xs[..|xs| - 1], x);
      if i < |xs| - 1 || xs[|xs| - 1] == x then i else |xs|
  }

  lemma Occurs<T>(xs: seq<T>, x: T)
    requires x in xs
    ensures FirstAt(xs, x) < |xs|
  {
  }

  lemma IsNew<T>(xs: seq<T>)
    requires xs != [] && xs[|xs| - 1] !in xs[..|xs| - 1]
    ensures FirstAt(xs, xs[|xs| - 1]) == |xs| - 1
  {
  }

  ghost predicate InKeyOrder(fks: seq<Option<int>>, ks: seq<int>) {
    forall a, b :: 0 <= a < b < |ks| ==> FirstAt(fks, Some(ks[a])) < FirstAt(fks, Some(ks[b]))
  }

  /** The keys a many-to-one load asks for come in the order they first occur in. */
  lemma {:induction false} WantedInKeyOrder(fks: seq<Option<int>>)
    ensures InKeyOrder(fks, Wanted(fks))
  {
    if fks != [] {
      var n := |fks| - 1;
      var before := Wanted(fks[..n]);
      WantedInKeyOrder(fks[..n]);
      forall a | 0 <= a < |before|
        ensures FirstAt(fks[..n], Some(before[a])) < n
      {
        assert before[a] in before;
        Occurs(fks[..n], Some(before[a]));
      }
      if fks[n].Some? && fks[n] !in fks[..n] {
        IsNew(fks);
      }
    }
  }

  ghost predicate InFirstOrder<T>(xs: seq<T>, ys: seq<T>) {
    forall a, b :: 0 <= a < b < |ys| ==> FirstAt(xs, ys[a]) < FirstAt(xs, ys[b])
  }

  /** Of equal rows the first is kept: what merging leaves is in the order of first occurrences. */
  lemma {:induction false} MergedInFirstOrder<T(!new)>(xs: seq<T>)
    ensures InFirstOrder(xs, Merged(xs))
  {
    if xs != [] {
      var n := |xs| - 1;
      var before := Merged(xs[..n]);
      MergedInFirstOrder(xs[..n]);
      MergedMembers(xs[..n]);
      forall a | 0 <= a < |before|
        ensures FirstAt(xs[..n], before[a]) < n
      {
        assert before[a] in before;
        Occurs(xs[..n], before[a]);
      }
      if xs[n] !in xs[..n] {
        IsNew(xs);
      }
    }
  }

  /** Groups are scanned in the order of their first rows. */
  lemma {:induction false} ScannedInFirstRowOrder(rows: seq<GroupRow>)
    ensures forall n :: n in Scanned(rows) ==> FirstRow(rows, n.ID) < |rows|
    ensures InFirstRowOrder(rows, Scanned(rows))
  {
    if rows != [] {
      var m := |rows| - 1;
      ScannedInFirstRowOrder(rows[..m]);
      FirstRowsStay(rows, Scanned(rows[..m]));
      if !HasGroup(rows[..m], rows[m].group.ID) {
        NewGroupIsLast(rows);
        InFirstRowOrderSnoc(rows, Scanned(rows[..m]), rows[m].group);
      }
    }
  }

  lemma FirstRowsStay(rows: seq<GroupRow>, ns: seq<Group>)
    requires rows != [] && InFirstRowOrder(rows[..|rows|-1], ns)
    requires forall n :: n in ns ==> FirstRow(rows[..|rows|-1], n.ID) < |rows| - 1
    ensures InFirstRowOrder(rows, ns) && forall n :: n in ns ==> FirstRow(rows, n.ID) < |rows| - 1
  {
    assert forall n :: n in ns ==> FirstRow(rows, n.ID) == FirstRow(rows[..|rows|-1], n.ID);
    assert forall i :: 0 <= i < |ns| ==> ns[i] in ns;
  }

  lemma NewGroupIsLast(rows: seq<GroupRow>)
    requires rows != [] && !HasGroup(rows[..|rows|-1], rows[|rows|-1].group.ID)
    ensures FirstRow(rows, rows[|rows|-1].group.ID) == |rows| - 1
  {
    var before := rows[..|rows|-1];
    assert forall j :: 0 <= j < |before| ==> before[j] in before;
  }

  lemma {:induction false} LinkedGroupsMembers(rows: seq<GroupRow>, id: int, ns: seq<Group>)
    ensures forall n :: n in LinkedGroups(rows, id, ns) <==> n in ns && Linked(rows, id, n.ID)
  {
    if ns != [] {
      var m := |ns| - 1;
      LinkedGroupsMembers(rows, id, ns[..m]);
      assert ns == ns[..m] + [ns[m]];
    }
  }

  lemma {:induction false} LinkedGroupsOrder(rows: seq<GroupRow>, id: int, ns: seq<Group>)
    requires InFirstRowOrder(rows, ns)
    ensures InFirstRowOrder(rows, LinkedGroups(rows, id, ns))
  {
    if ns != [] {
      var m := |ns| - 1;
      LinkedGroupsOrder(rows, id, ns[..m]);
      LinkedGroupsMembers(rows, id, ns[..m]);
      assert forall x :: x in ns[..m] ==> FirstRow(rows, x.ID) < FirstRow(rows, ns[m].ID);
      if Linked(rows, id, ns[m].ID) {
        InFirstRowOrderSnoc(rows, LinkedGroups(rows, id, ns[..m]), ns[m]);
      }
    }
  }

  /** Without interceptors, the last node of an id gets exactly the groups some row links it to, each once
      and in the order of the groups' first rows in the whole batch. */
  lemma GroupsLoaded(g: GroupQuery, ids: seq<int>, i: nat)
    requires forall ns :: g.intercept(ns) == ns
    requires JoinGroups(g, ids).Success? && i < |ids| && LastIndex(ids, ids[i]) == i
    ensures var rows, r := GroupRows(g, ids), JoinGroups(g, ids).value[i];
      && (forall id :: Linked(rows, ids[i], id) <==> exists n :: n in r && n.ID == id)
      && (forall n :: n in r ==> exists row :: row in rows && row.group == n)
      && InFirstRowOrder(rows, r)
  {
    var rows := GroupRows(g, ids);
    var s := Scanned(rows);
    ScannedGroups(rows);
    LinkedGroupsMembers(rows, ids[i], s);
    ScannedInFirstRowOrder(rows);
    LinkedGroupsOrder(rows, ids[i], s);
    forall id | Linked(rows, ids[i], id)
      ensures exists n :: n in LinkedGroups(rows, ids[i], s) && n.ID == id
    {
      assert HasGroup(rows, id);
      var n :| n in s && n.ID == id;
      assert n in LinkedGroups(rows, ids[i], s);
    }
  }

  function GroupLists(ids: seq<int>, rows: seq<GroupRow>): (r: seq<seq<Group>>)
    ensures |r| == |ids|
  {
    seq(|ids|, i requires 0 <= i < |ids| => GroupShare(ids, rows, Scanned(rows), i))
  }

  function LinkedPairs(rows: seq<GroupRow>): set<(int, int)> {
    set r | r in rows :: (r.accountID, r.group.ID)
  }

  lemma {:induction false} LinkedCountStep(before: seq<GroupRow>, r: GroupRow, id: int, ns: seq<Group>)
    requires OneEach(ns)
    ensures |LinkedGroups(before + [r], id, ns)| == |LinkedGroups(before, id, ns)|
      + if r.accountID == id && !Linked(before, id, r.group.ID) && (exists n :: n in ns && n.ID == r.group.ID)
        then 1 else 0
  {
    if ns != [] {
      var m := |ns| - 1;
      LinkedCountStep(before, r, id, ns[..m]);
      assert ns == ns[..m] + [ns[m]];
      assert forall x :: x in before + [r] <==> x in before || x == r;
      assert Linked(before + [r], id, ns[m].ID) <==>
        Linked(before, id, ns[m].ID) || (r.accountID == id && r.group.ID == ns[m].ID);
      assert forall n :: n in ns[..m] ==> n.ID != ns[m].ID;
      assert (exists n :: n in ns && n.ID == r.group.ID) <==>
        ns[m].ID == r.group.ID || exists n :: n in ns[..m] && n.ID == r.group.ID;
    }
  }

  lemma LinkedListStep(before: seq<GroupRow>, r: GroupRow, id: int)
    ensures |LinkedGroups(before + [r], id, Scanned(before + [r]))| == |LinkedGroups(before, id, Scanned(before))|
      + if r.accountID == id && !Linked(before, id, r.group.ID) then 1 else 0
  {
    if HasGroup(before, r.group.ID) {
      OldGroupCount(before, r, id);
    } else {
      NewGroupStep(before, r, id);
      UnseenIsUnlinked(before, id, r.group.ID);
    }
  }

  lemma OldGroupCount(before: seq<GroupRow>, r: GroupRow, id: int)
    requires HasGroup(before, r.group.ID)
    ensures |LinkedGroups(before + [r], id, Scanned(before + [r]))| == |LinkedGroups(before, id, Scanned(before))|
      + if r.accountID == id && !Linked(before, id, r.group.ID) then 1 else 0
  {
    var s := Scanned(before);
    assert (before + [r])[..|before|] == before;
    assert Scanned(before + [r]) == s;
    ScannedOnce(before);
    ScannedGroups(before);
    var n :| n in s && n.ID == r.group.ID;
    LinkedCountStep(before, r, id, s);
  }

  lemma UnseenIsUnlinked(rows: seq<GroupRow>, accountID: int, groupID: int)
    ensures Linked(rows, accountID, groupID) ==> HasGroup(rows, groupID)
  {
  }

  /** One more row lengthens one list by one group if the pair is new, and no list otherwise. */
  lemma ShareStep(ids: seq<int>, before: seq<GroupRow>, r: GroupRow, k: nat)
    requires k < |ids|
    ensures |GroupShare(ids, before + [r], Scanned(before + [r]), k)| == |GroupShare(ids, before, Scanned(before), k)|
      + if k == LastIndex(ids, r.accountID) && !Linked(before, r.accountID, r.group.ID) then 1 else 0
  {
    LinkedListStep(before, r, ids[k]);
    if r.accountID == ids[k] {
      assert LastIndex(ids, r.accountID) == LastIndex(ids, ids[k]);
    }
  }

  lemma {:induction false} SumBump<T>(xss: seq<seq<T>>, yss: seq<seq<T>>, at: int)
    requires |xss| == |yss|
    requires forall k :: 0 <= k < |xss| ==> |yss[k]| == |xss[k]| + if k == at then 1 else 0
    ensures SumLengths(yss) == SumLengths(xss) + if 0 <= at < |xss| then 1 else 0
  {
    if xss != [] {
      SumBump(xss[..|xss| - 1], yss[..|xss| - 1], at);
    }
  }

  /** Whatever order the join rows come in and however often a pair is repeated, the group lists of a batch
      hold as many entries as there are distinct linked pairs. */
  lemma {:induction false} GroupListsCountPairs(ids: seq<int>, rows: seq<GroupRow>)
    requires forall r :: r in rows ==> r.accountID in ids
    ensures SumLengths(GroupLists(ids, rows)) == |LinkedPairs(rows)|
    decreases |rows|
  {
    if rows == [] {
      ConcatEmpty(GroupLists(ids, rows));
      assert LinkedPairs(rows) == {};
    } else {
      var m := |rows| - 1;
      var before, r := rows[..m], rows[m];
      assert rows == before + [r];
      assert forall x :: x in before ==> x in rows;
      GroupListsCountPairs(ids, before);
      forall k | 0 <= k < |ids|
        ensures |GroupLists(ids, rows)[k]| == |GroupLists(ids, before)[k]|
          + if k == LastIndex(ids, r.accountID) && !Linked(before, r.accountID, r.group.ID) then 1 else 0
      {
        ShareStep(ids, before, r, k);
      }
      var isNew := !Linked(before, r.accountID, r.group.ID);
      SumBump(GroupLists(ids, before), GroupLists(ids, rows), if isNew then LastIndex(ids, r.accountID) else -1);
      assert r in rows;
      PairsStep(before, r);
    }
  }

  lemma PairsStep(before: seq<GroupRow>, r: GroupRow)
    ensures |LinkedPairs(before + [r])|
         == |LinkedPairs(before)| + if Linked(before, r.accountID, r.group.ID) then 0 else 1
  {
    var p := (r.accountID, r.group.ID);
    assert forall x :: x in before + [r] <==> x in before || x == r;
    assert LinkedPairs(before + [r]) == LinkedPairs(before) + {p};
    assert p in LinkedPairs(before) <==> Linked(before, r.accountID, r.group.ID);
  }

  // -------------------------------------------------------- parents and children

  /** The query loads children, and their parents from a table that has the loaded accounts. */
  ghost predicate ThereAndBack(q: Query, f: InFilter) {
    && q.withChildren.Some? && q.withChildren.value.withParent.Some?
    && forall ids: seq<int>, r :: r in q.fetch(f) && r.ID() in ids ==>
      r in q.withChildren.value.withParent.value.fetch(IDIn(ids))
  }

  lemma ToldParent(c: Query, rows: seq<Row>, a: nat, r: Result<Tree, EdgeError>, id: int, there: Row)
    requires a < |rows| && c.withParent.Some? && ParentTold(c, rows, a, r)
    requires rows[a].ForeignKey(ParentAccountID) == Some(id) && there.ID() == id
    requires forall ks: seq<int> :: id in ks ==> there in c.withParent.value.fetch(IDIn(ks))
    ensures r.Success? && r.value.entity.ID() == id
  {
    var fks := RowKeys(rows, ParentAccountID);
    assert fks[a] == Some(id);
    KeyIsWanted(fks, a);
    var ns := c.withParent.value.fetch(IDIn(Wanted(fks)));
    assert there in ns;
    var i :| 0 <= i < |ns| && ns[i] == there;
    assert RowIDs(ns)[i] == id;
  }

  /** The loaded parent of a fetched child has the id the child's row names. */
  lemma ParentOfChild(c: Query, f: InFilter, a: nat, id: int, there: Row)
    requires c.withParent.Some? && Eval(c, f).Success? && a < |c.fetch(f)|
    requires c.fetch(f)[a].ForeignKey(ParentAccountID) == Some(id) && there.ID() == id
    requires forall ks: seq<int> :: id in ks ==> there in c.withParent.value.fetch(IDIn(ks))
    ensures a < |Eval(c, f).value|
    ensures var p := Eval(c, f).value[a].edges.Parent; p.Some? && p.value.entity.ID() == id
  {
    ParentReport(c, f, a);
    ToldParent(c, c.fetch(f), a, Eval(c, f).value[a].edges.ParentOrErr(), id, there);
  }

  /** Children and parents invert each other: a loaded child's parent is the account that lists it, it is no
      other loaded account, and every fetched row whose key names an account is listed by it. */
  lemma ChildrenInvertParents(q: Query, f: InFilter, i: nat, j: nat, m: nat)
    requires Sound(q) && ThereAndBack(q, f) && Distinct(RowIDs(q.fetch(f)))
    requires Eval(q, f).Success? && i < |Eval(q, f).value| && j < |Eval(q, f).value|
    requires m < |Eval(q, f).value[i].edges.Children|
    ensures var ts := Eval(q, f).value; var p := ts[i].edges.Children[m].edges.Parent;
      p.Some? && (p.value.entity.ID() == ts[j].entity.ID() <==> i == j)
  {
    var ts, rows, c := Eval(q, f).value, q.fetch(f), q.withChildren.value;
    TreesOfRows(q, f);
    JoinKeysAreRowKeys(q, rows);
    var ids := RowIDs(rows);
    assert TreeIDs(ts)[i] == ids[i] && TreeIDs(ts)[j] == ids[j];
    JoinedNode(q, Entities(SpecColumns(q), rows), i);
    ChildIsFetched(c, ids, i, m, rows[i]);
  }

  lemma ChildIsFetched(c: Query, ids: seq<int>, i: nat, m: nat, there: Row)
    requires Sound(c) && c.withParent.Some? && i < |ids| && there.ID() == ids[i]
    requires EvalChildren(c, ids).Success? && m < |EvalChildren(c, ids).value[i]|
    requires forall ks: seq<int> :: ids[i] in ks ==> there in c.withParent.value.fetch(IDIn(ks))
    ensures var p := EvalChildren(c, ids).value[i][m].edges.Parent; p.Some? && p.value.entity.ID() == ids[i]
  {
    var f := ParentIn(ids);
    var cts := Eval(WithForeignKey(c), f).value;
    SoundWithForeignKey(c);
    TreesOfRows(WithForeignKey(c), f);
    var share := EvalChildren(c, ids).value[i];
    assert share == Share(ids, TreeKeys(cts), cts, i);
    SelectMembers(TreeKeys(cts), cts, Some(ids[i]));
    assert share[m] in share;
    var a :| 0 <= a < |cts| && cts[a] == share[m] && TreeKeys(cts)[a] == Some(ids[i]);
    assert RowKeys(c.fetch(f), ParentAccountID)[a] == Some(ids[i]);
    ParentOfChild(WithForeignKey(c), f, a, ids[i], there);
  }

  /** Every fetched child row is listed under the account its key names. */
  lemma FetchedChildIsListed(c: Query, ids: seq<int>, i: nat, a: nat)
    requires Sound(c) && i < |ids| && LastIndex(ids, ids[i]) == i && EvalChildren(c, ids).Success?
    requires a < |c.fetch(ParentIn(ids))| && c.fetch(ParentIn(ids))[a].ForeignKey(ParentAccountID) == Some(ids[i])
    ensures exists m :: && 0 <= m < |EvalChildren(c, ids).value[i]|
                        && EvalChildren(c, ids).value[i][m].entity.ID() == c.fetch(ParentIn(ids))[a].ID()
  {
    var f := ParentIn(ids);
    var cts := Eval(WithForeignKey(c), f).value;
    SoundWithForeignKey(c);
    TreesOfRows(WithForeignKey(c), f);
    SelectMembers(TreeKeys(cts), cts, Some(ids[i]));
    assert TreeKeys(cts)[a] == RowKeys(c.fetch(f), ParentAccountID)[a];
    assert TreeIDs(cts)[a] == RowIDs(c.fetch(f))[a];
    var share := EvalChildren(c, ids).value[i];
    assert cts[a] in share;
    var m :| 0 <= m < |share| && share[m] == cts[a];
  }
}
