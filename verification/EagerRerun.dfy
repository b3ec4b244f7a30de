/** Running one builder twice: each run appends its `IN` predicate to the builder of an edge, in place, so a
    later run asks only for neighbours that every earlier run asked for too. What the loads then give. */
module EagerRerun {
  import opened Sequences
  import opened AccountEntity
  import opened EagerSpec
  import opened EagerLaws
  import opened LazyLoading
  import opened Selections
  import opened EagerLimit
  import opened EdgeLimits

  /** The key meets every predicate. */
  predicate Meets(filters: seq<seq<int>>, key: Option<int>) {
    key.Some? && forall i :: 0 <= i < |filters| ==> key.value in filters[i]
  }

  /** The rows whose key meets every predicate. */
  function KeptBy<T>(filters: seq<seq<int>>, keys: seq<Option<int>>, rows: seq<T>): (r: seq<T>)
    requires |keys| == |rows|
  {
    if rows == [] then []
    else
      var n := |rows| - 1;
      KeptBy(filters, keys[..n], rows[..n]) + if Meets(filters, keys[n]) then [rows[n]] else []
  }

  lemma {:induction false} KeptByKeys<T>(filters: seq<seq<int>>, keys: seq<Option<int>>, rows: seq<T>)
    requires |keys| == |rows|
    ensures |KeptBy(filters, keys, keys)| == |KeptBy(filters, keys, rows)|
  {
    if rows != [] {
      KeptByKeys(filters, keys[..|rows| - 1], rows[..|rows| - 1]);
    }
  }

  /** A node gets all its rows if every predicate names it, and none otherwise. */
  lemma {:induction false} SelectKeptBy<T>(filters: seq<seq<int>>, keys: seq<Option<int>>, rows: seq<T>, id: int)
    requires |keys| == |rows|
    ensures |KeptBy(filters, keys, keys)| == |KeptBy(filters, keys, rows)|
    ensures Select(KeptBy(filters, keys, keys), KeptBy(filters, keys, rows), Some(id))
         == if Meets(filters, Some(id)) then Own(keys, rows, id) else []
  {
    KeptByKeys(filters, keys, rows);
    if rows != [] {
      var n := |rows| - 1;
      SelectKeptBy(filters, keys[..n], rows[..n], id);
      var ks, xs := KeptBy(filters, keys[..n], keys[..n]), KeptBy(filters, keys[..n], rows[..n]);
      SelectAppend(ks, xs, keys[n], rows[n], Some(id));
      assert Own(keys, rows, id) == Own(keys[..n], rows[..n], id) + if keys[n] == Some(id) then [rows[n]] else [];
      if Meets(filters, keys[n]) {
        assert KeptBy(filters, keys, keys) == ks + [keys[n]] && KeptBy(filters, keys, rows) == xs + [rows[n]];
      } else {
        assert KeptBy(filters, keys, keys) == ks && KeptBy(filters, keys, rows) == xs;
      }
    }
  }

  lemma OneMoreFilter(before: seq<seq<int>>, ids: seq<int>, id: int)
    requires id in ids
    ensures Meets([ids], Some(id))
    ensures Meets(before + [ids], Some(id)) <==> Meets(before, Some(id))
  {
    var all := before + [ids];
    assert forall i :: 0 <= i < |before| ==> all[i] == before[i];
    assert all[|before|] == ids;
  }

  lemma {:induction false} KeptByMap<T, U>(filters: seq<seq<int>>, keys: seq<Option<int>>, xs: seq<T>, ys: seq<U>,
                                           f: T -> U)
    requires |keys| == |xs| == |ys|
    requires forall i :: 0 <= i < |xs| ==> ys[i] == f(xs[i])
    ensures var a, b := KeptBy(filters, keys, xs), KeptBy(filters, keys, ys);
      |a| == |b| && forall i :: 0 <= i < |a| ==> b[i] == f(a[i])
  {
    if xs != [] {
      var n := |xs| - 1;
      KeptByMap(filters, keys[..n], xs[..n], ys[..n], f);
    }
  }

  lemma {:induction false} KeptByFits(filters: seq<seq<int>>, keys: seq<Option<int>>)
    ensures forall k :: k in KeptBy(filters, keys, keys) ==> Meets(filters, k)
  {
    if keys != [] {
      KeptByFits(filters, keys[..|keys| - 1]);
    }
  }

  lemma {:induction false} KeptByMembers<T(!new)>(filters: seq<seq<int>>, keys: seq<Option<int>>, rows: seq<T>)
    requires |keys| == |rows|
    ensures forall x :: x in KeptBy(filters, keys, rows) ==> x in rows
  {
    if rows != [] {
      var n := |rows| - 1;
      KeptByMembers(filters, keys[..n], rows[..n]);
      assert rows == rows[..n] + [rows[n]];
    }
  }

  lemma {:induction false} KeptByDistinct(filters: seq<seq<int>>, keys: seq<Option<int>>, labels: seq<int>)
    requires |keys| == |labels| && Distinct(labels)
    ensures Distinct(KeptBy(filters, keys, labels))
  {
    if labels != [] {
      var n := |labels| - 1;
      KeptByDistinct(filters, keys[..n], labels[..n]);
      KeptByMembers(filters, keys[..n], labels[..n]);
      assert labels[n] !in labels[..n];
      AppendOnceIsDistinct(KeptBy(filters, keys[..n], labels[..n]), labels[n]);
    }
  }

  /** What is left of the rows of `id` after runs over the nodes `before`. */
  function Left<T>(before: seq<seq<int>>, keys: seq<Option<int>>, rows: seq<T>, id: int): seq<T>
    requires |keys| == |rows|
  {
    if Meets(before, Some(id)) then Own(keys, rows, id) else []
  }

  /** Every node that has rows was asked for by every earlier run. */
  ghost predicate AllAskedBefore<T>(before: seq<seq<int>>, keys: seq<Option<int>>, rows: seq<T>, ids: seq<int>)
    requires |keys| == |rows|
  {
    forall i :: 0 <= i < |ids| && Own(keys, rows, ids[i]) != [] ==> Meets(before, Some(ids[i]))
  }

  /** The rows of a run's batch that belong to one of its ids. */
  lemma BatchOfRun<T>(before: seq<seq<int>>, keys: seq<Option<int>>, rows: seq<T>, ids: seq<int>, id: int)
    requires |keys| == |rows| && id in ids
    ensures |KeptBy(before + [ids], keys, keys)| == |KeptBy(before + [ids], keys, rows)|
    ensures Select(KeptBy(before + [ids], keys, keys), KeptBy(before + [ids], keys, rows), Some(id))
         == Left(before, keys, rows, id)
  {
    SelectKeptBy(before + [ids], keys, rows, id);
    OneMoreFilter(before, ids, id);
  }

  lemma KeysOfRun(before: seq<seq<int>>, keys: seq<Option<int>>, ids: seq<int>)
    ensures forall k :: k in KeptBy(before + [ids], keys, keys) ==> k.Some? && k.value in ids
  {
    KeptByFits(before + [ids], keys);
    assert (before + [ids])[|before|] == ids;
  }

  /** Lists made of what is left for each node are those of a first run exactly if nothing is missing. */
  lemma ListsAgreeIff<T, U>(before: seq<seq<int>>, keys: seq<Option<int>>, rows: seq<T>, ids: seq<int>,
                            again: seq<U>, once: seq<U>)
    requires |keys| == |rows| && |again| == |once| == |ids|
    requires forall i :: 0 <= i < |ids| && Left(before, keys, rows, ids[i]) == Left([], keys, rows, ids[i]) ==>
      again[i] == once[i]
    requires forall i :: 0 <= i < |ids| && again[i] == once[i] ==>
      (Left(before, keys, rows, ids[i]) == [] <==> Left([], keys, rows, ids[i]) == [])
    ensures again == once <==> AllAskedBefore(before, keys, rows, ids)
  {
    if AllAskedBefore(before, keys, rows, ids) {
      forall i | 0 <= i < |ids|
        ensures again[i] == once[i]
      {
        assert Own(keys, rows, ids[i]) != [] ==> Meets(before, Some(ids[i]));
      }
    }
    if again == once {
      forall i | 0 <= i < |ids| && Own(keys, rows, ids[i]) != []
        ensures Meets(before, Some(ids[i]))
      {
        assert again[i] == once[i];
      }
    }
  }

  // ----------------------------------------------------------------- usage logs

  /** The builder of the usage logs of a table, after runs over the nodes `before`. */
  function LogsBuilder(fields: seq<string>, view: seq<UsageLog>, before: seq<seq<int>>): UsageLogQuery {
    UsageLogQuery(if before == [] then fields else SelectAlso(fields, "account_id"),
                  ids => KeptBy(before + [ids], UsageLogKeys(view), view))
  }

  lemma LogsOfRun(fields: seq<string>, view: seq<UsageLog>, before: seq<seq<int>>, ids: seq<int>)
    requires Distinct(ids)
    ensures var r := JoinUsageLogs(LogsBuilder(fields, view, before), ids);
      && r.Success?
      && forall i :: 0 <= i < |ids| ==>
        r.value[i] == ScanUsageLogs(SelectAlso(fields, "account_id"), Left(before, UsageLogKeys(view), view, ids[i]))
  {
    var u, keys := LogsBuilder(fields, view, before), UsageLogKeys(view);
    var rows := u.fetch(ids);
    KeptByKeys(before + [ids], keys, view);
    KeptByMap(before + [ids], keys, view, keys, (r: UsageLog) => Some(r.AccountID));
    assert UsageLogKeys(rows) == KeptBy(before + [ids], keys, keys);
    KeysOfRun(before, keys, ids);
    UsageLogKeysKept(u, ids);
    NoBadKeyIff(ids, UsageLogKeys(rows), UsageLogIDs(rows));
    forall i | 0 <= i < |ids|
      ensures JoinUsageLogs(u, ids).value[i]
        == ScanUsageLogs(SelectAlso(fields, "account_id"), Left(before, keys, view, ids[i]))
    {
      LogShare(u, ids, i);
      BatchOfRun(before, keys, view, ids, ids[i]);
      assert LastIndex(ids, ids[i]) == i;
    }
  }

  /** Loading usage logs again gives what a fresh builder would exactly if every node that has logs was among
      the nodes of every earlier run. */
  lemma LogsRerunIff(fields: seq<string>, view: seq<UsageLog>, before: seq<seq<int>>, ids: seq<int>)
    requires Distinct(ids)
    ensures JoinUsageLogs(LogsBuilder(fields, view, before), ids) == JoinUsageLogs(LogsBuilder(fields, view, []), ids)
       <==> AllAskedBefore(before, UsageLogKeys(view), view, ids)
  {
    var keys := UsageLogKeys(view);
    LogsOfRun(fields, view, before, ids);
    LogsOfRun(fields, view, [], ids);
    var again := JoinUsageLogs(LogsBuilder(fields, view, before), ids).value;
    var once := JoinUsageLogs(LogsBuilder(fields, view, []), ids).value;
    forall i | 0 <= i < |ids| && again[i] == once[i]
      ensures Left(before, keys, view, ids[i]) == [] <==> Left([], keys, view, ids[i]) == []
    {
      assert |again[i]| == |Left(before, keys, view, ids[i])| && |once[i]| == |Left([], keys, view, ids[i])|;
    }
    ListsAgreeIff(before, keys, view, ids, again, once);
  }

  /** A builder run for account 1 and then for accounts 1 and 2: the second account's log is lost. */
  lemma RerunLosesALog(first: UsageLog, second: UsageLog)
    requires first.AccountID == 1 && second.AccountID == 2
    ensures var view := [first, second];
      && JoinUsageLogs(LogsBuilder([], view, []), [1, 2]) == Success([[first], [second]])
      && JoinUsageLogs(LogsBuilder([], view, [[1]]), [1, 2]) == Success([[first], []])
  {
    var view, one := [first, second], [[1]];
    assert one[0] == [1] && !Meets(one, Some(2)) && Meets(one, Some(1));
    OwnOfTwo(first, second, view);
    TwoListsOfRun(view, [], [1, 2]);
    TwoListsOfRun(view, one, [1, 2]);
  }

  lemma OwnOfTwo(first: UsageLog, second: UsageLog, view: seq<UsageLog>)
    requires first.AccountID == 1 && second.AccountID == 2 && view == [first, second]
    ensures Own(UsageLogKeys(view), view, 1) == [first] && Own(UsageLogKeys(view), view, 2) == [second]
  {
    var keys := UsageLogKeys(view);
    assert keys[0] == Some(1) && keys[1] == Some(2);
    assert view[..1] == [first] && view[..1][..0] == [] && keys[..1][..0] == [];
    assert Kept(keys[..1], view[..1], [1]) == [first] && Kept(keys[..1], view[..1], [2]) == [];
  }

  lemma TwoListsOfRun(view: seq<UsageLog>, before: seq<seq<int>>, ids: seq<int>)
    requires ids == [1, 2]
    ensures JoinUsageLogs(LogsBuilder([], view, before), ids)
         == Success([Left(before, UsageLogKeys(view), view, 1), Left(before, UsageLogKeys(view), view, 2)])
  {
    LogsOfRun([], view, before, ids);
    var r := JoinUsageLogs(LogsBuilder([], view, before), ids).value;
    var a, b := Left(before, UsageLogKeys(view), view, 1), Left(before, UsageLogKeys(view), view, 2);
    assert |r| == 2 && r[0] == ScanUsageLogs([], a) && r[1] == ScanUsageLogs([], b);
    assert ScanUsageLogs([], a) == a && ScanUsageLogs([], b) == b;
    assert r == [a, b];
  }

  // -------------------------------------------------------------- account groups

  function AccountGroupsBuilder(fields: seq<string>, unique: bool, view: seq<AccountGroup>, before: seq<seq<int>>):
      AccountGroupQuery {
    AccountGroupQuery(if before == [] then fields else SelectAlso(fields, "account_id"), unique,
                      ids => KeptBy(before + [ids], AccountGroupKeys(view), view))
  }

  lemma AccountGroupKeysOfRun(a: AccountGroupQuery, view: seq<AccountGroup>, before: seq<seq<int>>, ids: seq<int>)
    requires a.failure == None && a.fetch(ids) == KeptBy(before + [ids], AccountGroupKeys(view), view)
    ensures var all, keys := before + [ids], AccountGroupKeys(view);
      && |KeptBy(all, keys, keys)| == |a.fetch(ids)|
      && AccountGroupKeys(a.fetch(ids)) == KeptBy(all, keys, keys)
      && JoinAccountGroups(a, ids).Success?
  {
    var keys, rows := AccountGroupKeys(view), a.fetch(ids);
    KeptByKeys(before + [ids], keys, view);
    KeptByMap(before + [ids], keys, view, keys, (r: AccountGroup) => Some(r.AccountID));
    assert AccountGroupKeys(rows) == KeptBy(before + [ids], keys, keys);
    KeysOfRun(before, keys, ids);
    forall n | n in rows
      ensures n.AccountID in ids
    {
      var i :| 0 <= i < |rows| && rows[i] == n;
      assert AccountGroupKeys(rows)[i] in AccountGroupKeys(rows);
    }
    FoundAccountGroupsFit(a, ids);
  }

  lemma AccountGroupsOfRun(fields: seq<string>, unique: bool, view: seq<AccountGroup>, before: seq<seq<int>>,
                           ids: seq<int>)
    requires Distinct(ids)
    ensures var a, r := AccountGroupsBuilder(fields, unique, view, []),
        JoinAccountGroups(AccountGroupsBuilder(fields, unique, view, before), ids);
      && r.Success?
      && forall i :: 0 <= i < |ids| ==>
        r.value[i] == SelectedAccountGroups(a, Left(before, AccountGroupKeys(view), view, ids[i]))
  {
    var a, keys := AccountGroupsBuilder(fields, unique, view, before), AccountGroupKeys(view);
    var rows := a.fetch(ids);
    AccountGroupKeysOfRun(a, view, before, ids);
    forall i | 0 <= i < |ids|
      ensures JoinAccountGroups(a, ids).value[i]
        == SelectedAccountGroups(AccountGroupsBuilder(fields, unique, view, []), Left(before, keys, view, ids[i]))
    {
      AccountGroupsSelected(a, rows, ids[i]);
      BatchOfRun(before, keys, view, ids, ids[i]);
      assert LastIndex(ids, ids[i]) == i;
    }
  }

  lemma SelectedIsNone(a: AccountGroupQuery, rows: seq<AccountGroup>)
    ensures SelectedAccountGroups(a, rows) == [] <==> rows == []
  {
    var scanned := ScanAccountGroups(SelectAlso(a.fields, "account_id"), rows);
    MergedMembers(scanned);
    if rows != [] {
      assert scanned[0] in scanned;
    }
  }

  /** The same for account groups. */
  lemma AccountGroupsRerunIff(fields: seq<string>, unique: bool, view: seq<AccountGroup>, before: seq<seq<int>>,
                              ids: seq<int>)
    requires Distinct(ids)
    ensures JoinAccountGroups(AccountGroupsBuilder(fields, unique, view, before), ids)
         == JoinAccountGroups(AccountGroupsBuilder(fields, unique, view, []), ids)
       <==> AllAskedBefore(before, AccountGroupKeys(view), view, ids)
  {
    var a, keys := AccountGroupsBuilder(fields, unique, view, []), AccountGroupKeys(view);
    AccountGroupsOfRun(fields, unique, view, before, ids);
    AccountGroupsOfRun(fields, unique, view, [], ids);
    var again := JoinAccountGroups(AccountGroupsBuilder(fields, unique, view, before), ids).value;
    var once := JoinAccountGroups(a, ids).value;
    forall i | 0 <= i < |ids| && again[i] == once[i]
      ensures Left(before, keys, view, ids[i]) == [] <==> Left([], keys, view, ids[i]) == []
    {
      SelectedIsNone(a, Left(before, keys, view, ids[i]));
      SelectedIsNone(a, Left([], keys, view, ids[i]));
    }
    ListsAgreeIff(before, keys, view, ids, again, once);
  }

  // -------------------------------------------------------------------- children

  /** The builder of the children, which is only ever run with the predicate on the parent. */
  function ChildrenBuilder(c: Query, view: seq<Row>, before: seq<seq<int>>): Query {
    c.(fields := if before == [] then c.fields else SelectAlso(c.fields, ParentAccountID),
       fetch := (f: InFilter) =>
         if f.ParentIn? then KeptBy(before + [f.fks], RowKeys(view, ParentAccountID), view) else c.fetch(f))
  }

  lemma ChildrenBuilderIsSound(c: Query, view: seq<Row>, before: seq<seq<int>>)
    requires Sound(c) && PointwiseBelow(c) && Distinct(RowIDs(view))
    ensures Sound(ChildrenBuilder(c, view, before)) && PointwiseBelow(ChildrenBuilder(c, view, before))
    ensures forall ids :: Distinct(RowIDs(ChildrenBuilder(c, view, before).fetch(ParentIn(ids))))
  {
    var b, keys := ChildrenBuilder(c, view, before), RowKeys(view, ParentAccountID);
    forall f: InFilter, r | r in b.fetch(f)
      ensures Admits(f, r)
    {
      if f.ParentIn? {
        var rows := b.fetch(f);
        var i :| 0 <= i < |rows| && rows[i] == r;
        KeptByKeys(before + [f.fks], keys, view);
        KeptByMap(before + [f.fks], keys, view, keys, (r: Row) => r.ForeignKey(ParentAccountID));
        assert KeptBy(before + [f.fks], keys, keys)[i] in KeptBy(before + [f.fks], keys, keys);
        KeysOfRun(before, keys, f.fks);
      }
    }
    forall ids
      ensures Distinct(RowIDs(b.fetch(ParentIn(ids))))
    {
      KeptByMap(before + [ids], keys, view, RowIDs(view), (r: Row) => r.ID());
      KeptByDistinct(before + [ids], keys, RowIDs(view));
      assert RowIDs(b.fetch(ParentIn(ids))) == KeptBy(before + [ids], keys, RowIDs(view));
    }
    SoundWithForeignKey(c);
  }

  /** A row's lazily loaded edges do not depend on how the row itself was found. */
  lemma LazyByRow(c: Query, view: seq<Row>, before: seq<seq<int>>, rows: seq<Row>)
    ensures LazyAll(WithForeignKey(ChildrenBuilder(c, view, before)), rows) == LazyAll(WithForeignKey(c), rows)
  {
    var d, e := WithForeignKey(ChildrenBuilder(c, view, before)), WithForeignKey(c);
    assert d.fields == e.fields && SpecColumns(d) == SpecColumns(e);
    forall i | 0 <= i < |rows|
      ensures Lazy(d, rows[i]) == Lazy(e, rows[i])
    {
      assert LazyParent(d, rows[i]) == LazyParent(e, rows[i]);
      assert LazyChildren(d, rows[i]) == LazyChildren(e, rows[i]);
    }
  }

  lemma ChildKeysOfRun(c: Query, view: seq<Row>, before: seq<seq<int>>, ids: seq<int>)
    ensures var keys, rows := RowKeys(view, ParentAccountID), ChildrenBuilder(c, view, before).fetch(ParentIn(ids));
      && rows == KeptBy(before + [ids], keys, view)
      && |KeptBy(before + [ids], keys, keys)| == |rows|
      && RowKeys(rows, ParentAccountID) == KeptBy(before + [ids], keys, keys)
  {
    var keys := RowKeys(view, ParentAccountID);
    KeptByKeys(before + [ids], keys, view);
    KeptByMap(before + [ids], keys, view, keys, (r: Row) => r.ForeignKey(ParentAccountID));
  }

  lemma ChildrenOfRun(c: Query, view: seq<Row>, before: seq<seq<int>>, ids: seq<int>, i: nat)
    requires Sound(c) && PointwiseBelow(c) && Distinct(RowIDs(view)) && Distinct(ids) && i < |ids|
    ensures var r := EvalChildren(ChildrenBuilder(c, view, before), ids);
      && r.Success?
      && r.value[i] == LazyAll(WithForeignKey(c), Left(before, RowKeys(view, ParentAccountID), view, ids[i]))
  {
    var b, keys := ChildrenBuilder(c, view, before), RowKeys(view, ParentAccountID);
    ChildrenBuilderIsSound(c, view, before);
    ChildrenEdgeSucceeds(b, ids);
    ChildKeysOfRun(c, view, before, ids);
    ChildrenAreShares(b, ids, i);
    BatchOfRun(before, keys, view, ids, ids[i]);
    LazyByRow(c, view, before, Left(before, keys, view, ids[i]));
  }

  /** The same for children, each with its own edges loaded. */
  lemma ChildrenRerunIff(c: Query, view: seq<Row>, before: seq<seq<int>>, ids: seq<int>)
    requires Sound(c) && PointwiseBelow(c) && Distinct(RowIDs(view)) && Distinct(ids)
    ensures EvalChildren(ChildrenBuilder(c, view, before), ids) == EvalChildren(ChildrenBuilder(c, view, []), ids)
       <==> AllAskedBefore(before, RowKeys(view, ParentAccountID), view, ids)
  {
    var keys := RowKeys(view, ParentAccountID);
    ChildrenBuilderIsSound(c, view, before);
    ChildrenBuilderIsSound(c, view, []);
    ChildrenEdgeSucceeds(ChildrenBuilder(c, view, before), ids);
    ChildrenEdgeSucceeds(ChildrenBuilder(c, view, []), ids);
    var again := EvalChildren(ChildrenBuilder(c, view, before), ids).value;
    var once := EvalChildren(ChildrenBuilder(c, view, []), ids).value;
    forall i | 0 <= i < |ids|
      ensures again[i] == LazyAll(WithForeignKey(c), Left(before, keys, view, ids[i]))
      ensures once[i] == LazyAll(WithForeignKey(c), Left([], keys, view, ids[i]))
    {
      ChildrenOfRun(c, view, before, ids, i);
      ChildrenOfRun(c, view, [], ids, i);
    }
    forall i | 0 <= i < |ids| && again[i] == once[i]
      ensures Left(before, keys, view, ids[i]) == [] <==> Left([], keys, view, ids[i]) == []
    {
      assert |again[i]| == |Left(before, keys, view, ids[i])| && |once[i]| == |Left([], keys, view, ids[i])|;
    }
    ListsAgreeIff(before, keys, view, ids, again, once);
  }

  // ----------------------------------------------------------------- many to one

  function ProxyBuilder(fields: seq<string>, view: seq<Proxy>, before: seq<seq<int>>): ProxyQuery {
    ProxyQuery(fields, ids => KeptBy(before + [ids], ProxyKeys(view), view))
  }

  /** A builder whose rows for these keys are those of a run. */
  ghost predicate RunsAfter(p: ProxyQuery, view: seq<Proxy>, before: seq<seq<int>>, ids: seq<int>) {
    p.failure == None && p.fetch(ids) == KeptBy(before + [ids], ProxyKeys(view), view)
  }

  lemma ProxyKeysOfRun(p: ProxyQuery, view: seq<Proxy>, before: seq<seq<int>>, fks: seq<Option<int>>)
    requires RunsAfter(p, view, before, Wanted(fks))
    ensures var keys, all := ProxyKeys(view), before + [Wanted(fks)];
      && |KeptBy(all, keys, keys)| == |p.fetch(Wanted(fks))|
      && ProxyKeys(p.fetch(Wanted(fks))) == KeptBy(all, keys, keys)
      && JoinProxy(p, fks).Success?
  {
    var keys, ids := ProxyKeys(view), Wanted(fks);
    var rows := p.fetch(ids);
    KeptByKeys(before + [ids], keys, view);
    KeptByMap(before + [ids], keys, view, keys, (r: Proxy) => Some(r.ID));
    assert ProxyKeys(rows) == KeptBy(before + [ids], keys, keys);
    KeysOfRun(before, keys, ids);
    forall k | k in ProxyIDs(Proxies(p, ids))
      ensures Some(k) in fks
    {
      var i :| 0 <= i < |rows| && Proxies(p, ids)[i].ID == k;
      assert ProxyKeys(rows)[i] in ProxyKeys(rows);
    }
    NoStrayIff(fks, []);
    NoStrayIff(fks, ProxyIDs(Proxies(p, ids)));
  }

  /** What a proxy query finds among rows: the last one, scanned. */
  function LastScannedProxy(fields: seq<string>, rows: seq<Proxy>): Option<Proxy> {
    if rows == [] then None else Some(ScanProxy(fields, rows[|rows| - 1]))
  }

  lemma ProxyLookupByKey(p: ProxyQuery, fks: seq<Option<int>>, i: nat)
    requires i < |fks| && fks[i].Some? && JoinProxy(p, fks).Success?
    ensures var rows := p.fetch(Wanted(fks));
      JoinProxy(p, fks).value[i] == LastScannedProxy(p.fields, Select(ProxyKeys(rows), rows, fks[i]))
  {
    var rows := p.fetch(Wanted(fks));
    ProxyLookup(p, fks, i);
    SelectBySome(ProxyIDs(rows), ProxyKeys(rows), rows, fks[i].value);
  }

  lemma ProxyOfRun(p: ProxyQuery, view: seq<Proxy>, before: seq<seq<int>>, fks: seq<Option<int>>, i: nat)
    requires i < |fks| && fks[i].Some? && RunsAfter(p, view, before, Wanted(fks)) && JoinProxy(p, fks).Success?
    ensures JoinProxy(p, fks).value[i]
         == LastScannedProxy(p.fields, Left(before, ProxyKeys(view), view, fks[i].value))
  {
    ProxyLookupByKey(p, fks, i);
    ProxyKeysOfRun(p, view, before, fks);
    KeyIsWanted(fks, i);
    BatchOfRun(before, ProxyKeys(view), view, Wanted(fks), fks[i].value);
  }

  /** The same for proxies: every proxy named now must have been named in every earlier run. */
  lemma ProxiesRerunIff(fields: seq<string>, view: seq<Proxy>, before: seq<seq<int>>, fks: seq<Option<int>>)
    ensures JoinProxy(ProxyBuilder(fields, view, before), fks) == JoinProxy(ProxyBuilder(fields, view, []), fks)
       <==> AllAskedBefore(before, ProxyKeys(view), view, Wanted(fks))
  {
    var p, q := ProxyBuilder(fields, view, before), ProxyBuilder(fields, view, []);
    assert RunsAfter(p, view, before, Wanted(fks)) && RunsAfter(q, view, [], Wanted(fks));
    ProxiesAgreeIff(p, q, view, before, fks);
  }

  lemma ProxiesAgreeIff(p: ProxyQuery, q: ProxyQuery, view: seq<Proxy>, before: seq<seq<int>>, fks: seq<Option<int>>)
    requires RunsAfter(p, view, before, Wanted(fks)) && RunsAfter(q, view, [], Wanted(fks)) && p.fields == q.fields
    ensures JoinProxy(p, fks) == JoinProxy(q, fks) <==> AllAskedBefore(before, ProxyKeys(view), view, Wanted(fks))
  {
    ProxyKeysOfRun(p, view, before, fks);
    ProxyKeysOfRun(q, view, [], fks);
    var again, once := JoinProxy(p, fks).value, JoinProxy(q, fks).value;
    forall i | 0 <= i < |fks| && fks[i].Some?
      ensures again[i] == LastScannedProxy(p.fields, Left(before, ProxyKeys(view), view, fks[i].value))
      ensures once[i] == LastScannedProxy(p.fields, Left([], ProxyKeys(view), view, fks[i].value))
    {
      ProxyOfRun(p, view, before, fks, i);
      ProxyOfRun(q, view, [], fks, i);
    }
    NoKeyNoProxy(p, fks);
    NoKeyNoProxy(q, fks);
    FoundsAgreeIff(p.fields, view, before, fks, again, once);
  }

  lemma FoundsAgreeIff(fields: seq<string>, view: seq<Proxy>, before: seq<seq<int>>, fks: seq<Option<int>>,
                       again: seq<Option<Proxy>>, once: seq<Option<Proxy>>)
    requires |again| == |once| == |fks|
    requires forall i :: 0 <= i < |fks| && fks[i].None? ==> again[i] == once[i]
    requires forall i :: 0 <= i < |fks| && fks[i].Some? ==>
      && again[i] == LastScannedProxy(fields, Left(before, ProxyKeys(view), view, fks[i].value))
      && once[i] == LastScannedProxy(fields, Left([], ProxyKeys(view), view, fks[i].value))
    ensures again == once <==> AllAskedBefore(before, ProxyKeys(view), view, Wanted(fks))
  {
    LookupsAgreeIff(before, ProxyKeys(view), view, fks, again, once);
  }

  /** What nodes find for their keys is what they found in a first run exactly if nothing is missing. */
  lemma LookupsAgreeIff<T, U>(before: seq<seq<int>>, keys: seq<Option<int>>, rows: seq<T>, fks: seq<Option<int>>,
                              again: seq<Option<U>>, once: seq<Option<U>>)
    requires |keys| == |rows| && |again| == |once| == |fks|
    requires forall i :: 0 <= i < |fks| && fks[i].None? ==> again[i] == once[i]
    requires forall i :: 0 <= i < |fks| && fks[i].Some? ==>
      && (again[i] == None <==> Left(before, keys, rows, fks[i].value) == [])
      && (once[i] == None <==> Left([], keys, rows, fks[i].value) == [])
      && (Left(before, keys, rows, fks[i].value) == Left([], keys, rows, fks[i].value) ==> again[i] == once[i])
    ensures again == once <==> AllAskedBefore(before, keys, rows, Wanted(fks))
  {
    var ids := Wanted(fks);
    if AllAskedBefore(before, keys, rows, ids) {
      forall i | 0 <= i < |fks|
        ensures again[i] == once[i]
      {
        if fks[i].Some? {
          var w := PlaceOfKey(fks, i);
          AskedForKey(before, keys, rows, ids, w);
        }
      }
    }
    if again == once {
      forall w | 0 <= w < |ids| && Own(keys, rows, ids[w]) != []
        ensures Meets(before, Some(ids[w]))
      {
        assert ids[w] in ids;
        var i :| 0 <= i < |fks| && fks[i] == Some(ids[w]);
        assert again[i] == once[i];
      }
    }
  }

  lemma PlaceOfKey(fks: seq<Option<int>>, i: nat) returns (w: nat)
    requires i < |fks| && fks[i].Some?
    ensures w < |Wanted(fks)| && Wanted(fks)[w] == fks[i].value
  {
    KeyIsWanted(fks, i);
    w :| 0 <= w < |Wanted(fks)| && Wanted(fks)[w] == fks[i].value;
  }

  lemma AskedForKey<T>(before: seq<seq<int>>, keys: seq<Option<int>>, rows: seq<T>, ids: seq<int>, w: nat)
    requires |keys| == |rows| && AllAskedBefore(before, keys, rows, ids) && w < |ids|
    ensures Left(before, keys, rows, ids[w]) == Left([], keys, rows, ids[w])
  {
    var own := Own(keys, rows, ids[w]);
    assert own != [] ==> Meets(before, Some(ids[w]));
  }

  // --------------------------------------------------------------------- parents

  /** The builder of the parents, which is only ever run with the predicate on the id. */
  function ParentBuilder(p: Query, view: seq<Row>, before: seq<seq<int>>): Query {
    p.(fetch := (f: InFilter) =>
         if f.IDIn? then KeptBy(before + [f.ids], IDKeys(view), view) else p.fetch(f))
  }

  lemma ParentKeysOfRun(p: Query, view: seq<Row>, before: seq<seq<int>>, ids: seq<int>)
    ensures var keys, rows := IDKeys(view), ParentBuilder(p, view, before).fetch(IDIn(ids));
      && rows == KeptBy(before + [ids], keys, view)
      && |KeptBy(before + [ids], keys, keys)| == |rows|
      && IDKeys(rows) == KeptBy(before + [ids], keys, keys)
  {
    var keys := IDKeys(view);
    KeptByKeys(before + [ids], keys, view);
    KeptByMap(before + [ids], keys, view, keys, (r: Row) => Some(r.ID()));
  }

  lemma ParentBuilderIsSound(p: Query, view: seq<Row>, before: seq<seq<int>>)
    requires Sound(p) && PointwiseBelow(p) && Distinct(RowIDs(view))
    ensures Sound(ParentBuilder(p, view, before)) && PointwiseBelow(ParentBuilder(p, view, before))
    ensures forall ids :: Distinct(RowIDs(ParentBuilder(p, view, before).fetch(IDIn(ids))))
  {
    var b, keys := ParentBuilder(p, view, before), IDKeys(view);
    forall f: InFilter, r | r in b.fetch(f)
      ensures Admits(f, r)
    {
      if f.IDIn? {
        var rows := b.fetch(f);
        var i :| 0 <= i < |rows| && rows[i] == r;
        ParentKeysOfRun(p, view, before, f.ids);
        assert IDKeys(rows)[i] in IDKeys(rows);
        KeysOfRun(before, keys, f.ids);
      }
    }
    forall ids
      ensures Distinct(RowIDs(b.fetch(IDIn(ids))))
    {
      KeptByMap(before + [ids], keys, view, RowIDs(view), (r: Row) => r.ID());
      KeptByDistinct(before + [ids], keys, RowIDs(view));
      assert RowIDs(b.fetch(IDIn(ids))) == KeptBy(before + [ids], keys, RowIDs(view));
    }
  }

  lemma LazyParentByRow(p: Query, view: seq<Row>, before: seq<seq<int>>, rows: seq<Row>)
    ensures LazyLast(ParentBuilder(p, view, before), rows) == LazyLast(p, rows)
  {
    var b := ParentBuilder(p, view, before);
    if rows != [] {
      var r := rows[|rows| - 1];
      assert SpecColumns(b) == SpecColumns(p);
      assert LazyParent(b, r) == LazyParent(p, r) && LazyChildren(b, r) == LazyChildren(p, r);
    }
  }

  lemma ParentOfRun(p: Query, view: seq<Row>, before: seq<seq<int>>, fks: seq<Option<int>>, i: nat)
    requires Sound(p) && PointwiseBelow(p) && Distinct(RowIDs(view)) && i < |fks|
    ensures var r := EvalParents(ParentBuilder(p, view, before), fks);
      && r.Success?
      && r.value[i] ==
        if fks[i].None? then None else LazyLast(p, Left(before, IDKeys(view), view, fks[i].value))
  {
    var b, ids := ParentBuilder(p, view, before), Wanted(fks);
    ParentBuilderIsSound(p, view, before);
    ParentEdgeSucceeds(b, fks);
    ParentIsMatch(b, fks, i);
    if fks[i].Some? {
      var rows := b.fetch(IDIn(ids));
      KeyIsWanted(fks, i);
      ParentKeysOfRun(p, view, before, ids);
      SelectBySome(RowIDs(rows), IDKeys(rows), rows, fks[i].value);
      BatchOfRun(before, IDKeys(view), view, ids, fks[i].value);
      LazyParentByRow(p, view, before, Left(before, IDKeys(view), view, fks[i].value));
    }
  }

  /** The same for parents, each with its own edges loaded. */
  lemma ParentsRerunIff(p: Query, view: seq<Row>, before: seq<seq<int>>, fks: seq<Option<int>>)
    requires Sound(p) && PointwiseBelow(p) && Distinct(RowIDs(view))
    ensures EvalParents(ParentBuilder(p, view, before), fks) == EvalParents(ParentBuilder(p, view, []), fks)
       <==> AllAskedBefore(before, IDKeys(view), view, Wanted(fks))
  {
    ParentBuilderIsSound(p, view, before);
    ParentBuilderIsSound(p, view, []);
    ParentEdgeSucceeds(ParentBuilder(p, view, before), fks);
    ParentEdgeSucceeds(ParentBuilder(p, view, []), fks);
    var again := EvalParents(ParentBuilder(p, view, before), fks).value;
    var once := EvalParents(ParentBuilder(p, view, []), fks).value;
    forall i | 0 <= i < |fks|
      ensures again[i] == if fks[i].None? then None else LazyLast(p, Left(before, IDKeys(view), view, fks[i].value))
      ensures once[i] == if fks[i].None? then None else LazyLast(p, Left([], IDKeys(view), view, fks[i].value))
    {
      ParentOfRun(p, view, before, fks, i);
      ParentOfRun(p, view, [], fks, i);
    }
    LookupsAgreeIff(before, IDKeys(view), view, fks, again, once);
  }
}
