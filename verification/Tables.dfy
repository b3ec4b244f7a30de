/** Databases that eager loading can rely on: every builder reads a table, in any order and under any
    predicates of its own, without a limit. */
module Tables {
  import opened Sequences
  import opened AccountEntity
  import opened EagerSpec
  import opened EagerLaws
  import opened LazyLoading
  import opened EagerLimit
  import opened EdgeLimits

  // --------------------------------------------------------------- one builder

  /** An unlimited query over a table: its rows in the order of the query, those the added filter admits. */
  function TableRows(view: seq<Row>, f: InFilter): seq<Row> {
    match f
    case Everything => view
    case IDIn(ids) => Kept(IDKeys(view), view, ids)
    case ParentIn(fks) => Kept(RowKeys(view, ParentAccountID), view, fks)
  }

  ghost predicate AccountsOver(q: Query, view: seq<Row>) {
    Distinct(RowIDs(view)) && forall f :: q.fetch(f) == TableRows(view, f)
  }

  /** The join table in the order of the groups. */
  ghost predicate GroupsOver(g: GroupQuery, view: seq<GroupRow>) {
    && SortedByGroup(view) && JoinTable(view)
    && (forall ids :: g.fetch(ids) == Kept(AccountKeys(view), view, ids))
    && (forall ns :: g.intercept(ns) == ns)
  }

  ghost predicate ProxiesOver(p: ProxyQuery, view: seq<Proxy>) {
    forall ids :: p.fetch(ids) == Kept(ProxyKeys(view), view, ids)
  }

  ghost predicate LogsOver(u: UsageLogQuery, view: seq<UsageLog>) {
    forall ids :: u.fetch(ids) == Kept(UsageLogKeys(view), view, ids)
  }

  ghost predicate AccountGroupsOver(a: AccountGroupQuery, view: seq<AccountGroup>) {
    forall ids :: a.fetch(ids) == Kept(AccountGroupKeys(view), view, ids)
  }

  /** Every builder of the query reads a table without failing, and selects columns that exist. */
  ghost predicate OverTables(q: Query)
    decreases Depth(q)
  {
    && (forall c :: c in q.fields ==> ValidColumn(c)) && NothingFails(q)
    && (exists view :: AccountsOver(q, view))
    && (q.withGroups.Some? ==> exists view :: GroupsOver(q.withGroups.value, view))
    && (q.withProxy.Some? ==> exists view :: ProxiesOver(q.withProxy.value, view))
    && (q.withParent.Some? ==> OverTables(q.withParent.value))
    && (q.withChildren.Some? ==> OverTables(q.withChildren.value))
    && (q.withUsageLogs.Some? ==> exists view :: LogsOver(q.withUsageLogs.value, view))
    && (q.withAccountGroups.Some? ==> exists view :: AccountGroupsOver(q.withAccountGroups.value, view))
  }

  // -------------------------------------------------------------- kept rows

  lemma {:induction false} KeptMembers<T(!new)>(keys: seq<Option<int>>, rows: seq<T>, ids: seq<int>)
    requires |keys| == |rows|
    ensures forall x :: x in Kept(keys, rows, ids) ==> x in rows
  {
    if rows != [] {
      var n := |rows| - 1;
      KeptMembers(keys[..n], rows[..n], ids);
      assert rows == rows[..n] + [rows[n]];
    }
  }

  /** Every row kept has one of the keys. */
  lemma KeptFits<T>(keys: seq<Option<int>>, rows: seq<T>, ids: seq<int>, f: T -> Option<int>)
    requires |keys| == |rows| && forall i :: 0 <= i < |rows| ==> keys[i] == f(rows[i])
    ensures var r := Kept(keys, rows, ids); forall x :: x in r ==> f(x).Some? && f(x).value in ids
  {
    var r := Kept(keys, rows, ids);
    KeptKeys(keys, rows, ids);
    KeptMap(keys, rows, keys, ids, f);
    forall x | x in r
      ensures f(x).Some? && f(x).value in ids
    {
      var i :| 0 <= i < |r| && r[i] == x;
      assert Kept(keys, keys, ids)[i] in Kept(keys, keys, ids);
    }
  }

  lemma {:induction false} KeptLabels(keys: seq<Option<int>>, labels: seq<int>, ids: seq<int>)
    requires |keys| == |labels| && Distinct(labels)
    ensures Distinct(Kept(keys, labels, ids))
  {
    if labels != [] {
      var n := |labels| - 1;
      KeptLabels(keys[..n], labels[..n], ids);
      KeptMembers(keys[..n], labels[..n], ids);
      assert labels[n] !in labels[..n];
      AppendOnceIsDistinct(Kept(keys[..n], labels[..n], ids), labels[n]);
    }
  }

  // ------------------------------------------------------------------- accounts

  lemma AccountsFit(view: seq<Row>, f: InFilter)
    requires Distinct(RowIDs(view))
    ensures forall r :: r in TableRows(view, f) ==> Admits(f, r)
    ensures Distinct(RowIDs(TableRows(view, f)))
  {
    match f {
      case Everything =>
      case IDIn(ids) =>
        KeptFits(IDKeys(view), view, ids, (r: Row) => Some(r.ID()));
        KeptMap(IDKeys(view), view, RowIDs(view), ids, (r: Row) => r.ID());
        KeptLabels(IDKeys(view), RowIDs(view), ids);
        assert RowIDs(TableRows(view, f)) == Kept(IDKeys(view), RowIDs(view), ids);
      case ParentIn(fks) =>
        var keys := RowKeys(view, ParentAccountID);
        KeptFits(keys, view, fks, (r: Row) => r.ForeignKey(ParentAccountID));
        KeptMap(keys, view, RowIDs(view), fks, (r: Row) => r.ID());
        KeptLabels(keys, RowIDs(view), fks);
        assert RowIDs(TableRows(view, f)) == Kept(keys, RowIDs(view), fks);
    }
  }

  /** Asking for several ids, or several parents, and keeping one is asking for that one. */
  lemma AccountsPointwise(view: seq<Row>, ids: seq<int>, k: int)
    requires k in ids
    ensures Select(RowIDs(TableRows(view, IDIn(ids))), TableRows(view, IDIn(ids)), k) == TableRows(view, IDIn([k]))
    ensures Select(RowKeys(TableRows(view, ParentIn(ids)), ParentAccountID), TableRows(view, ParentIn(ids)), Some(k))
         == TableRows(view, ParentIn([k]))
  {
    var byID, byParent := IDKeys(view), RowKeys(view, ParentAccountID);
    var rows := TableRows(view, IDIn(ids));
    KeptMap(byID, view, byID, ids, (r: Row) => Some(r.ID()));
    assert IDKeys(rows) == Kept(byID, byID, ids);
    SelectKept(byID, view, ids, k);
    SelectBySome(RowIDs(rows), IDKeys(rows), rows, k);
    KeptMap(byParent, view, byParent, ids, (r: Row) => r.ForeignKey(ParentAccountID));
    assert RowKeys(TableRows(view, ParentIn(ids)), ParentAccountID) == Kept(byParent, byParent, ids);
    SelectKept(byParent, view, ids, k);
  }

  // --------------------------------------------------------------------- groups

  function KeptLinks(view: seq<GroupRow>, ids: seq<int>): seq<GroupRow> {
    Kept(AccountKeys(view), view, ids)
  }

  lemma KeptLinksSnoc(before: seq<GroupRow>, r: GroupRow, ids: seq<int>)
    ensures KeptLinks(before + [r], ids) == KeptLinks(before, ids) + if r.accountID in ids then [r] else []
    ensures forall x :: x in KeptLinks(before, ids) ==> x in before
  {
    assert (before + [r])[..|before|] == before && AccountKeys(before + [r])[..|before|] == AccountKeys(before);
    KeptMembers(AccountKeys(before), before, ids);
  }

  lemma SortedLast(before: seq<GroupRow>, r: GroupRow)
    requires SortedByGroup(before + [r]) && JoinTable(before + [r])
    ensures SortedByGroup(before) && JoinTable(before) && !Linked(before, r.accountID, r.group.ID)
    ensures HasGroup(before, r.group.ID) ==> before != [] && before[|before| - 1].group.ID == r.group.ID
    ensures forall x :: x in before && x.group.ID == r.group.ID ==> x.group == r.group
  {
    var all := before + [r];
    assert all[..|before|] == before && all[|before|] == r;
    SortedPrefix(all);
    assert r in all && forall x :: x in before ==> x in all;
  }

  /** If the group of the next row is among the kept ones, it is that of the last row. */
  lemma NextIsLikeLast(before: seq<GroupRow>, r: GroupRow, ids: seq<int>)
    requires SortedByGroup(before + [r]) && JoinTable(before + [r]) && HasGroup(KeptLinks(before, ids), r.group.ID)
    ensures before != [] && before[|before| - 1].group.ID == r.group.ID
    ensures SortedByGroup(before) && JoinTable(before)
  {
    SortedLast(before, r);
    KeptLinksSnoc(before, r, ids);
  }

  lemma KeptLast(before: seq<GroupRow>, last: GroupRow, ids: seq<int>)
    ensures var kept := KeptLinks(before + [last], ids);
      if last.accountID in ids then kept != [] && kept[|kept| - 1] == last else kept == KeptLinks(before, ids)
  {
    KeptLinksSnoc(before, last, ids);
  }

  /** And the last one kept is of that group. */
  lemma {:induction false} KeptEndsAlike(before: seq<GroupRow>, r: GroupRow, ids: seq<int>)
    requires SortedByGroup(before + [r]) && JoinTable(before + [r]) && HasGroup(KeptLinks(before, ids), r.group.ID)
    ensures var kept := KeptLinks(before, ids); kept != [] && kept[|kept| - 1].group.ID == r.group.ID
    decreases |before|
  {
    NextIsLikeLast(before, r, ids);
    var first, last := before[..|before| - 1], before[|before| - 1];
    assert before == first + [last];
    KeptLast(first, last, ids);
    if last.accountID !in ids {
      KeptEndsAlike(first, last, ids);
    }
  }

  lemma SortedSnoc(rows: seq<GroupRow>, r: GroupRow)
    requires SortedByGroup(rows)
    requires HasGroup(rows, r.group.ID) ==> rows != [] && rows[|rows| - 1].group.ID == r.group.ID
    ensures SortedByGroup(rows + [r])
  {
    var all := rows + [r];
    forall k | 0 < k < |all| && HasGroup(all[..k], all[k].group.ID)
      ensures all[k-1].group.ID == all[k].group.ID
    {
      assert all[..k] == rows[..k];
      assert rows[..|rows|] == rows;
    }
  }

  lemma JoinTableSnoc(rows: seq<GroupRow>, r: GroupRow)
    requires JoinTable(rows) && !Linked(rows, r.accountID, r.group.ID)
    requires forall x :: x in rows && x.group.ID == r.group.ID ==> x.group == r.group
    ensures JoinTable(rows + [r])
  {
    var all := rows + [r];
    forall k | 0 <= k < |all|
      ensures !Linked(all[..k], all[k].accountID, all[k].group.ID)
    {
      assert all[..k] == rows[..k];
      assert rows[..|rows|] == rows;
    }
  }

  /** What a table may grow by without losing its order. */
  ghost predicate MayFollow(rows: seq<GroupRow>, r: GroupRow) {
    && !Linked(rows, r.accountID, r.group.ID)
    && (HasGroup(rows, r.group.ID) ==> rows != [] && rows[|rows| - 1].group.ID == r.group.ID)
    && (forall x :: x in rows && x.group.ID == r.group.ID ==> x.group == r.group)
  }

  /** The next row may also follow the rows kept. */
  lemma KeptMayFollow(before: seq<GroupRow>, r: GroupRow, ids: seq<int>)
    requires SortedByGroup(before + [r]) && JoinTable(before + [r])
    ensures MayFollow(KeptLinks(before, ids), r)
  {
    var kept := KeptLinks(before, ids);
    SortedLast(before, r);
    KeptLinksSnoc(before, r, ids);
    if HasGroup(kept, r.group.ID) {
      KeptEndsAlike(before, r, ids);
    }
    forall x | x in kept
      ensures x in before
    {
    }
  }

  lemma GrownTable(rows: seq<GroupRow>, r: GroupRow, grown: seq<GroupRow>)
    requires SortedByGroup(rows) && JoinTable(rows) && MayFollow(rows, r)
    requires grown == rows || grown == rows + [r]
    ensures SortedByGroup(grown) && JoinTable(grown)
  {
    SortedSnoc(rows, r);
    JoinTableSnoc(rows, r);
  }

  lemma KeptStaysSorted(before: seq<GroupRow>, r: GroupRow, ids: seq<int>)
    requires SortedByGroup(before + [r]) && JoinTable(before + [r])
    requires SortedByGroup(KeptLinks(before, ids)) && JoinTable(KeptLinks(before, ids))
    ensures SortedByGroup(KeptLinks(before + [r], ids)) && JoinTable(KeptLinks(before + [r], ids))
  {
    KeptLinksSnoc(before, r, ids);
    KeptMayFollow(before, r, ids);
    GrownTable(KeptLinks(before, ids), r, KeptLinks(before + [r], ids));
  }

  /** Keeping rows keeps their order by group. */
  lemma {:induction false} KeptIsSorted(view: seq<GroupRow>, ids: seq<int>)
    requires SortedByGroup(view) && JoinTable(view)
    ensures SortedByGroup(KeptLinks(view, ids)) && JoinTable(KeptLinks(view, ids))
  {
    if view != [] {
      var n := |view| - 1;
      SortedPrefix(view);
      KeptIsSorted(view[..n], ids);
      assert view == view[..n] + [view[n]];
      KeptStaysSorted(view[..n], view[n], ids);
    }
  }

  lemma GroupsAreSound(g: GroupQuery, view: seq<GroupRow>)
    requires GroupsOver(g, view)
    ensures SoundGroups(g) && PointwiseGroups(g)
  {
    var keys := AccountKeys(view);
    forall ids
      ensures forall r :: r in g.fetch(ids) ==> r.accountID in ids
      ensures SortedByGroup(g.fetch(ids)) && JoinTable(g.fetch(ids))
      ensures forall k :: k in ids ==> Select(AccountIDs(g.fetch(ids)), g.fetch(ids), k) == g.fetch([k])
    {
      KeptFits(keys, view, ids, (r: GroupRow) => Some(r.accountID));
      KeptIsSorted(view, ids);
      assert g.fetch(ids) == KeptLinks(view, ids);
      forall k | k in ids
        ensures Select(AccountIDs(g.fetch(ids)), g.fetch(ids), k) == g.fetch([k])
      {
        LinksPointwise(view, ids, k);
      }
    }
  }

  lemma LinksPointwise(view: seq<GroupRow>, ids: seq<int>, k: int)
    requires k in ids
    ensures var keys := AccountKeys(view); var rows := Kept(keys, view, ids);
      Select(AccountIDs(rows), rows, k) == Kept(keys, view, [k])
  {
    var keys := AccountKeys(view);
    var rows := Kept(keys, view, ids);
    KeptMap(keys, view, keys, ids, (r: GroupRow) => Some(r.accountID));
    assert AccountKeys(rows) == Kept(keys, keys, ids);
    SelectKept(keys, view, ids, k);
    SelectBySome(AccountIDs(rows), AccountKeys(rows), rows, k);
  }

  // ----------------------------------------------------------------- other edges

  lemma ProxiesAreSound(p: ProxyQuery, view: seq<Proxy>, ids: seq<int>)
    requires ProxiesOver(p, view)
    ensures forall n :: n in p.fetch(ids) ==> n.ID in ids
    ensures forall k :: k in ids ==> Select(ProxyIDs(p.fetch(ids)), p.fetch(ids), k) == p.fetch([k])
  {
    var keys, rows := ProxyKeys(view), p.fetch(ids);
    KeptFits(keys, view, ids, (r: Proxy) => Some(r.ID));
    KeptMap(keys, view, keys, ids, (r: Proxy) => Some(r.ID));
    forall k | k in ids
      ensures Select(ProxyIDs(rows), rows, k) == p.fetch([k])
    {
      SelectKept(keys, view, ids, k);
      SelectBySome(ProxyIDs(rows), Kept(keys, keys, ids), rows, k);
    }
  }

  lemma LogsAreSound(u: UsageLogQuery, view: seq<UsageLog>, ids: seq<int>)
    requires LogsOver(u, view)
    ensures forall n :: n in u.fetch(ids) ==> n.AccountID in ids
    ensures forall k :: k in ids ==> Select(UsageLogKeys(u.fetch(ids)), u.fetch(ids), Some(k)) == u.fetch([k])
  {
    var keys := UsageLogKeys(view);
    KeptFits(keys, view, ids, (r: UsageLog) => Some(r.AccountID));
    KeptMap(keys, view, keys, ids, (r: UsageLog) => Some(r.AccountID));
    KeptKeys(keys, view, ids);
    assert UsageLogKeys(u.fetch(ids)) == Kept(keys, keys, ids);
    forall k | k in ids
      ensures Select(UsageLogKeys(u.fetch(ids)), u.fetch(ids), Some(k)) == u.fetch([k])
    {
      SelectKept(keys, view, ids, k);
    }
  }

  lemma AccountGroupsAreSound(a: AccountGroupQuery, view: seq<AccountGroup>, ids: seq<int>)
    requires AccountGroupsOver(a, view)
    ensures forall n :: n in a.fetch(ids) ==> n.AccountID in ids
    ensures forall k :: k in ids ==> Select(AccountGroupKeys(a.fetch(ids)), a.fetch(ids), Some(k)) == a.fetch([k])
  {
    var keys := AccountGroupKeys(view);
    KeptFits(keys, view, ids, (r: AccountGroup) => Some(r.AccountID));
    KeptMap(keys, view, keys, ids, (r: AccountGroup) => Some(r.AccountID));
    KeptKeys(keys, view, ids);
    assert AccountGroupKeys(a.fetch(ids)) == Kept(keys, keys, ids);
    forall k | k in ids
      ensures Select(AccountGroupKeys(a.fetch(ids)), a.fetch(ids), Some(k)) == a.fetch([k])
    {
      SelectKept(keys, view, ids, k);
    }
  }

  // ------------------------------------------------------------ the whole query

  /** The builder's own rows. */
  lemma OwnRowsAreSound(q: Query)
    requires exists view :: AccountsOver(q, view)
    ensures forall f: InFilter, r :: r in q.fetch(f) ==> Admits(f, r)
    ensures forall f: InFilter :: Distinct(RowIDs(q.fetch(f)))
    ensures forall ids: seq<int>, k :: k in ids ==>
      Select(RowIDs(q.fetch(IDIn(ids))), q.fetch(IDIn(ids)), k) == q.fetch(IDIn([k]))
    ensures forall ids: seq<int>, k :: k in ids ==>
      Select(RowKeys(q.fetch(ParentIn(ids)), ParentAccountID), q.fetch(ParentIn(ids)), Some(k))
        == q.fetch(ParentIn([k]))
  {
    var view :| AccountsOver(q, view);
    forall f
      ensures forall r :: r in q.fetch(f) ==> Admits(f, r)
      ensures Distinct(RowIDs(q.fetch(f)))
    {
      AccountsFit(view, f);
    }
    forall ids: seq<int>, k | k in ids
      ensures Select(RowIDs(q.fetch(IDIn(ids))), q.fetch(IDIn(ids)), k) == q.fetch(IDIn([k]))
      ensures Select(RowKeys(q.fetch(ParentIn(ids)), ParentAccountID), q.fetch(ParentIn(ids)), Some(k))
        == q.fetch(ParentIn([k]))
    {
      AccountsPointwise(view, ids, k);
    }
  }

  /** Tables without limits are all that loading without errors and loading like the lazy way need. */
  lemma {:induction false} TablesAreSound(q: Query)
    requires OverTables(q)
    ensures Sound(q) && Pointwise(q)
    decreases Depth(q)
  {
    OwnRowsAreSound(q);
    LeavesAreSound(q);
    if q.withParent.Some? {
      TablesAreSound(q.withParent.value);
    }
    if q.withChildren.Some? {
      TablesAreSound(q.withChildren.value);
    }
  }

  lemma LeavesAreSound(q: Query)
    requires OverTables(q)
    ensures q.withGroups.Some? ==> SoundGroups(q.withGroups.value) && PointwiseGroups(q.withGroups.value)
    ensures q.withProxy.Some? ==> var p := q.withProxy.value;
      && (forall ids: seq<int>, n :: n in p.fetch(ids) ==> n.ID in ids)
      && (forall ids: seq<int>, k :: k in ids ==> Select(ProxyIDs(p.fetch(ids)), p.fetch(ids), k) == p.fetch([k]))
    ensures q.withUsageLogs.Some? ==> var u := q.withUsageLogs.value;
      && (forall ids: seq<int>, n :: n in u.fetch(ids) ==> n.AccountID in ids)
      && (forall ids: seq<int>, k :: k in ids ==>
        Select(UsageLogKeys(u.fetch(ids)), u.fetch(ids), Some(k)) == u.fetch([k]))
    ensures q.withAccountGroups.Some? ==> var a := q.withAccountGroups.value;
      && (forall ids: seq<int>, n :: n in a.fetch(ids) ==> n.AccountID in ids)
      && (forall ids: seq<int>, k :: k in ids ==>
            Select(AccountGroupKeys(a.fetch(ids)), a.fetch(ids), Some(k)) == a.fetch([k]))
  {
    if q.withGroups.Some? {
      var view :| GroupsOver(q.withGroups.value, view);
      GroupsAreSound(q.withGroups.value, view);
    }
    if q.withProxy.Some? {
      var view :| ProxiesOver(q.withProxy.value, view);
      forall ids { ProxiesAreSound(q.withProxy.value, view, ids); }
    }
    if q.withUsageLogs.Some? {
      var view :| LogsOver(q.withUsageLogs.value, view);
      forall ids { LogsAreSound(q.withUsageLogs.value, view, ids); }
    }
    if q.withAccountGroups.Some? {
      var view :| AccountGroupsOver(q.withAccountGroups.value, view);
      forall ids { AccountGroupsAreSound(q.withAccountGroups.value, view, ids); }
    }
  }

  /** Over tables every eager load succeeds and is the lazy one. */
  lemma EagerOverTables(q: Query, f: InFilter)
    requires OverTables(q)
    ensures Eval(q, f) == Success(LazyAll(q, q.fetch(f)))
  {
    TablesAreSound(q);
    EagerIsLazy(q, f);
  }

  // ------------------------------------------------------------- a full request

  /** The accounts of a table with all edges loaded, parents and children without any of their own. */
  function FullQuery(accounts: seq<Row>, links: seq<GroupRow>, proxies: seq<Proxy>, logs: seq<UsageLog>,
                     members: seq<AccountGroup>): Query
  {
    var plain := PlainQuery(accounts);
    plain.(withGroups := Some(GroupQuery([], ids => Kept(AccountKeys(links), links, ids), ns => ns)),
           withProxy := Some(ProxyQuery([], ids => Kept(ProxyKeys(proxies), proxies, ids))),
           withParent := Some(plain),
           withChildren := Some(plain),
           withUsageLogs := Some(UsageLogQuery([], ids => Kept(UsageLogKeys(logs), logs, ids))),
           withAccountGroups :=
             Some(AccountGroupQuery([], false, ids => Kept(AccountGroupKeys(members), members, ids))))
  }

  function PlainQuery(accounts: seq<Row>): Query {
    Query([], f => TableRows(accounts, f), None, None, None, None, None, None)
  }

  /** Any tables whose accounts have ids of their own and whose links are sorted will do. */
  lemma FullQueryIsOverTables(accounts: seq<Row>, links: seq<GroupRow>, proxies: seq<Proxy>, logs: seq<UsageLog>,
                              members: seq<AccountGroup>)
    requires Distinct(RowIDs(accounts)) && SortedByGroup(links) && JoinTable(links)
    ensures OverTables(FullQuery(accounts, links, proxies, logs, members))
  {
    var q := FullQuery(accounts, links, proxies, logs, members);
    var plain := PlainQuery(accounts);
    assert AccountsOver(plain, accounts) && AccountsOver(q, accounts);
    assert OverTables(plain);
    assert GroupsOver(q.withGroups.value, links);
    assert ProxiesOver(q.withProxy.value, proxies);
    assert LogsOver(q.withUsageLogs.value, logs);
    assert AccountGroupsOver(q.withAccountGroups.value, members);
  }
}
