/** A row limit on the query of an edge, edge by edge: what the loads give each node against what the node's
    own limited query would. */
module EdgeLimits {
  import opened Sequences
  import opened AccountEntity
  import opened EagerSpec
  import opened EagerLaws
  import opened LazyLoading
  import opened Selections
  import opened EagerLimit

  // ------------------------------------------------------------------- helpers

  /** The keys of kept rows are the kept keys. */
  lemma {:induction false} KeptMap<T, U>(keys: seq<Option<int>>, xs: seq<T>, ys: seq<U>, ids: seq<int>, f: T -> U)
    requires |keys| == |xs| == |ys|
    requires forall i :: 0 <= i < |xs| ==> ys[i] == f(xs[i])
    ensures var a, b := Kept(keys, xs, ids), Kept(keys, ys, ids);
      |a| == |b| && forall i :: 0 <= i < |a| ==> b[i] == f(a[i])
  {
    if xs != [] {
      var n := |xs| - 1;
      KeptMap(keys[..n], xs[..n], ys[..n], ids, f);
    }
  }

  lemma {:induction false} SelectBySome<T>(ids: seq<int>, keys: seq<Option<int>>, xs: seq<T>, k: int)
    requires |ids| == |keys| == |xs| && forall i :: 0 <= i < |ids| ==> keys[i] == Some(ids[i])
    ensures Select(ids, xs, k) == Select(keys, xs, Some(k))
  {
    if xs != [] {
      var n := |xs| - 1;
      SelectBySome(ids[..n], keys[..n], xs[..n], k);
    }
  }

  lemma {:induction false} KeptDistinct(keys: seq<Option<int>>, ids: seq<int>)
    requires Distinct(keys)
    ensures Distinct(Kept(keys, keys, ids)) && forall k :: k in Kept(keys, keys, ids) ==> k in keys
  {
    if keys != [] {
      var n := |keys| - 1;
      KeptDistinct(keys[..n], ids);
      var before := Kept(keys[..n], keys[..n], ids);
      assert keys == keys[..n] + [keys[n]];
      assert forall i :: 0 <= i < |before| ==> before[i] in keys[..n];
    }
  }

  /** Taking the rows of a batch and taking their keys. */
  lemma TakenKeys<T>(keys: seq<Option<int>>, rows: seq<T>, limit: nat, ids: seq<int>)
    requires |keys| == |rows|
    ensures var ks, xs := Take(Kept(keys, keys, ids), limit), Take(Kept(keys, rows, ids), limit);
      |ks| == |xs| && forall k :: k in ks ==> k.Some? && k.value in ids
  {
    KeptKeys(keys, rows, ids);
    var kept := Kept(keys, keys, ids);
    assert forall k :: k in Take(kept, limit) ==> k in kept;
  }

  // ----------------------------------------------------------------- usage logs

  /** The builder asks for at most `limit` rows of a table. */
  ghost predicate LimitedLogs(u: UsageLogQuery, view: seq<UsageLog>, limit: nat) {
    u.failure == None && forall ids :: u.fetch(ids) == Take(Kept(UsageLogKeys(view), view, ids), limit)
  }

  lemma LimitedLogKeys(u: UsageLogQuery, view: seq<UsageLog>, limit: nat, ids: seq<int>)
    requires LimitedLogs(u, view, limit)
    ensures UsageLogKeys(u.fetch(ids)) == Take(Kept(UsageLogKeys(view), UsageLogKeys(view), ids), limit)
    ensures JoinUsageLogs(u, ids).Success?
  {
    KeptMap(UsageLogKeys(view), view, UsageLogKeys(view), ids, (r: UsageLog) => Some(r.AccountID));
    TakenKeys(UsageLogKeys(view), view, limit, ids);
    UsageLogKeysKept(u, ids);
    NoBadKeyIff(ids, UsageLogKeys(u.fetch(ids)), UsageLogIDs(UsageLogs(u, ids)));
  }

  /** A limit on the usage logs gives every node what its own limited query would exactly if the batch stays
      within it or only one node has logs. */
  lemma LimitedLogsAreLazyIff(u: UsageLogQuery, view: seq<UsageLog>, limit: nat, ids: seq<int>)
    requires LimitedLogs(u, view, limit) && limit > 0 && Distinct(ids)
    ensures JoinUsageLogs(u, ids).Success?
    ensures (forall i :: 0 <= i < |ids| ==> JoinUsageLogs(u, ids).value[i] == UsageLogs(u, [ids[i]]))
       <==> LimitHarmless(UsageLogKeys(view), view, limit, ids)
  {
    var keys, fields := UsageLogKeys(view), SelectAlso(u.fields, "account_id");
    LimitedLogKeys(u, view, limit, ids);
    forall i | 0 <= i < |ids|
      ensures JoinUsageLogs(u, ids).value[i] == ScanUsageLogs(fields, LimitedShare(keys, view, limit, ids, i))
      ensures UsageLogs(u, [ids[i]]) == ScanUsageLogs(fields, Take(Own(keys, view, ids[i]), limit))
    {
      LogShare(u, ids, i);
    }
    LimitedSharesIff(keys, view, limit, ids);
  }

  /** Two accounts with one log each, a limit of one: the second account's log is lost, which its own query
      would have found. */
  lemma LimitLosesALog(first: UsageLog, second: UsageLog)
    requires first.AccountID == 1 && second.AccountID == 2
    ensures var view := [first, second];
      var u := UsageLogQuery([], ids => Take(Kept(UsageLogKeys(view), view, ids), 1));
      JoinUsageLogs(u, [1, 2]) == Success([[first], []]) && UsageLogs(u, [2]) == [second]
  {
    var view := [first, second];
    var keys := UsageLogKeys(view);
    var u := UsageLogQuery([], ids => Take(Kept(keys, view, ids), 1));
    assert view[..1] == [first] && view[..1][..0] == [] && keys[..1][..0] == [];
    assert keys[0] == Some(1) && keys[1] == Some(2);
    assert Kept(keys[..1], view[..1], [1, 2]) == [first] && Kept(keys[..1], view[..1], [2]) == [];
    assert Kept(keys, view, [1, 2]) == [first, second] && Kept(keys, view, [2]) == [second];
    assert UsageLogs(u, [1, 2]) == [first];
    OneLogPlaced(first);
  }

  lemma OneLogPlaced(first: UsageLog)
    requires first.AccountID == 1
    ensures Partition([1, 2], UsageLogKeys([first]), UsageLogIDs([first]), [first]) == Success([[first], []])
  {
    var keys, labels := UsageLogKeys([first]), UsageLogIDs([first]);
    assert keys == [Some(1)] && keys[..0] == [] && labels[..0] == [] && [first][..0] == [];
    assert FirstBadKey([1, 2], keys, labels) == None;
    assert Select(keys, [first], Some(1)) == [first] && Select(keys, [first], Some(2)) == [];
    assert LastIndex([1, 2], 1) == 0 && LastIndex([1, 2], 2) == 1;
    assert Shares([1, 2], keys, [first]) == [[first], []];
  }

  // -------------------------------------------------------------- account groups

  ghost predicate LimitedAccountGroups(a: AccountGroupQuery, view: seq<AccountGroup>, limit: nat) {
    && !a.unique && a.failure == None
    && forall ids :: a.fetch(ids) == Take(Kept(AccountGroupKeys(view), view, ids), limit)
  }

  lemma LimitedAccountGroupKeys(a: AccountGroupQuery, view: seq<AccountGroup>, limit: nat, ids: seq<int>)
    requires LimitedAccountGroups(a, view, limit)
    ensures AccountGroupKeys(a.fetch(ids)) == Take(Kept(AccountGroupKeys(view), AccountGroupKeys(view), ids), limit)
    ensures JoinAccountGroups(a, ids).Success?
  {
    KeptMap(AccountGroupKeys(view), view, AccountGroupKeys(view), ids, (r: AccountGroup) => Some(r.AccountID));
    TakenKeys(AccountGroupKeys(view), view, limit, ids);
    AccountGroupKeysKept(a, ids);
    NoBadKeyIff(ids, AccountGroupKeys(a.fetch(ids)), AccountGroupLabels(AccountGroups(a, ids)));
  }

  /** The same for account groups. */
  lemma LimitedAccountGroupsAreLazyIff(a: AccountGroupQuery, view: seq<AccountGroup>, limit: nat, ids: seq<int>)
    requires LimitedAccountGroups(a, view, limit) && limit > 0 && Distinct(ids)
    ensures JoinAccountGroups(a, ids).Success?
    ensures (forall i :: 0 <= i < |ids| ==> JoinAccountGroups(a, ids).value[i] == AccountGroups(a, [ids[i]]))
       <==> LimitHarmless(AccountGroupKeys(view), view, limit, ids)
  {
    var keys, fields := AccountGroupKeys(view), SelectAlso(a.fields, "account_id");
    LimitedAccountGroupKeys(a, view, limit, ids);
    forall i | 0 <= i < |ids|
      ensures JoinAccountGroups(a, ids).value[i] == ScanAccountGroups(fields, LimitedShare(keys, view, limit, ids, i))
      ensures AccountGroups(a, [ids[i]]) == ScanAccountGroups(fields, Take(Own(keys, view, ids[i]), limit))
    {
      assert LastIndex(ids, ids[i]) == i;
      AccountGroupsSelected(a, a.fetch(ids), ids[i]);
    }
    LimitedSharesIff(keys, view, limit, ids);
  }

  // -------------------------------------------------------- merged account groups

  lemma {:induction false} MergedIsDistinct<T>(xs: seq<T>)
    ensures Distinct(Merged(xs)) && forall x :: x in Merged(xs) <==> x in xs
  {
    if xs != [] {
      var n := |xs| - 1;
      MergedIsDistinct(xs[..n]);
      assert xs == xs[..n] + [xs[n]];
      if xs[n] !in xs[..n] {
        AppendOnceIsDistinct(Merged(xs[..n]), xs[n]);
      }
    }
  }

  function KeptRows(xs: seq<AccountGroup>, ids: seq<int>): seq<AccountGroup> {
    Kept(AccountGroupKeys(xs), xs, ids)
  }

  lemma KeptRowsSnoc(xs: seq<AccountGroup>, x: AccountGroup, ids: seq<int>)
    ensures KeptRows(xs + [x], ids) == KeptRows(xs, ids) + if x.AccountID in ids then [x] else []
  {
    assert (xs + [x])[..|xs|] == xs && AccountGroupKeys(xs + [x])[..|xs|] == AccountGroupKeys(xs);
  }

  lemma {:induction false} KeptRowsMembers(xs: seq<AccountGroup>, ids: seq<int>)
    ensures forall x :: x in KeptRows(xs, ids) <==> x in xs && x.AccountID in ids
  {
    if xs != [] {
      var n := |xs| - 1;
      assert xs == xs[..n] + [xs[n]];
      KeptRowsMembers(xs[..n], ids);
      KeptRowsSnoc(xs[..n], xs[n], ids);
    }
  }

  /** Filtering by account commutes with merging. */
  lemma {:induction false} MergedKept(xs: seq<AccountGroup>, ids: seq<int>)
    ensures KeptRows(Merged(xs), ids) == Merged(KeptRows(xs, ids))
  {
    if xs != [] {
      var before, x := xs[..|xs| - 1], xs[|xs| - 1];
      assert xs == before + [x];
      MergedKept(before, ids);
      KeptRowsMembers(before, ids);
      KeptRowsSnoc(before, x, ids);
      MergedSnoc(before, x);
      KeptRowsSnoc(Merged(before), x, ids);
      MergedSnoc(KeptRows(before, ids), x);
      if x in before {
        assert Merged(xs) == Merged(before);
      }
      if x.AccountID !in ids {
        assert KeptRows(xs, ids) == KeptRows(before, ids);
      }
    }
  }

  /** The rows of a table as they are selected and merged. */
  function MergedView(a: AccountGroupQuery, view: seq<AccountGroup>): seq<AccountGroup> {
    Merged(ScanAccountGroups(SelectAlso(a.fields, "account_id"), view))
  }

  /** The builder merges equal rows and asks for at most `limit` of what is left: the limit comes last. */
  ghost predicate LimitedMerged(a: AccountGroupQuery, view: seq<AccountGroup>, limit: nat) {
    && a.unique && a.failure == None
    && forall ids :: a.fetch(ids) == Take(MergedView(a, KeptRows(view, ids)), limit)
  }

  /** What is found is a limited batch of the merged table, and selecting and merging once more leaves it so. */
  lemma LimitedMergedRows(a: AccountGroupQuery, view: seq<AccountGroup>, limit: nat, ids: seq<int>)
    requires LimitedMerged(a, view, limit)
    ensures a.fetch(ids) == Take(KeptRows(MergedView(a, view), ids), limit)
    ensures AccountGroups(a, ids) == a.fetch(ids)
  {
    var fields, rows := SelectAlso(a.fields, "account_id"), KeptRows(view, ids);
    KeptScanned(fields, view, ids);
    MergedKept(ScanAccountGroups(fields, view), ids);
    MergedIsDistinct(ScanAccountGroups(fields, rows));
    SelectedStays(fields, rows, a.fetch(ids));
  }

  /** Selecting columns, the account id among them, commutes with filtering by account. */
  lemma KeptScanned(fields: seq<string>, view: seq<AccountGroup>, ids: seq<int>)
    requires fields == [] || "account_id" in fields
    ensures ScanAccountGroups(fields, KeptRows(view, ids)) == KeptRows(ScanAccountGroups(fields, view), ids)
  {
    var scanned := ScanAccountGroups(fields, view);
    assert AccountGroupKeys(scanned) == AccountGroupKeys(view);
    KeptMap(AccountGroupKeys(view), view, scanned, ids, (r: AccountGroup) => ScanAccountGroup(fields, r));
  }

  lemma SelectedStays(fields: seq<string>, rows: seq<AccountGroup>, some: seq<AccountGroup>)
    requires Distinct(some) && forall x :: x in some ==> x in ScanAccountGroups(fields, rows)
    ensures Merged(ScanAccountGroups(fields, some)) == some
  {
    ScannedStays(fields, rows, some);
    DistinctIsMerged(some);
  }

  lemma ScannedStays(fields: seq<string>, rows: seq<AccountGroup>, some: seq<AccountGroup>)
    requires forall x :: x in some ==> x in ScanAccountGroups(fields, rows)
    ensures ScanAccountGroups(fields, some) == some
  {
    var scanned := ScanAccountGroups(fields, rows);
    forall i | 0 <= i < |some|
      ensures ScanAccountGroup(fields, some[i]) == some[i]
    {
      assert some[i] in some;
      var j :| 0 <= j < |scanned| && scanned[j] == some[i];
      ScannedTwice(fields, rows[j]);
    }
  }

  lemma ScannedTwice(fields: seq<string>, row: AccountGroup)
    ensures ScanAccountGroup(fields, ScanAccountGroup(fields, row)) == ScanAccountGroup(fields, row)
  {
  }

  /** The same for account groups that are merged before the limit: what counts are the rows left by merging. */
  lemma LimitedMergedAreLazyIff(a: AccountGroupQuery, view: seq<AccountGroup>, limit: nat, ids: seq<int>)
    requires LimitedMerged(a, view, limit) && limit > 0 && Distinct(ids)
    ensures JoinAccountGroups(a, ids).Success?
    ensures (forall i :: 0 <= i < |ids| ==> JoinAccountGroups(a, ids).value[i] == AccountGroups(a, [ids[i]]))
       <==> LimitHarmless(AccountGroupKeys(MergedView(a, view)), MergedView(a, view), limit, ids)
  {
    var merged := MergedView(a, view);
    var keys := AccountGroupKeys(merged);
    LimitedMergedRows(a, view, limit, ids);
    KeptMap(keys, merged, keys, ids, (r: AccountGroup) => Some(r.AccountID));
    TakenKeys(keys, merged, limit, ids);
    assert AccountGroupKeys(a.fetch(ids)) == Take(Kept(keys, keys, ids), limit);
    NoBadKeyIff(ids, AccountGroupKeys(a.fetch(ids)), AccountGroupLabels(AccountGroups(a, ids)));
    forall i | 0 <= i < |ids|
      ensures JoinAccountGroups(a, ids).value[i] == LimitedShare(keys, merged, limit, ids, i)
      ensures AccountGroups(a, [ids[i]]) == Take(Own(keys, merged, ids[i]), limit)
    {
      LimitedMergedRows(a, view, limit, [ids[i]]);
    }
    LimitedSharesIff(keys, merged, limit, ids);
  }

  // -------------------------------------------------------------------- children

  ghost predicate LimitedChildren(c: Query, view: seq<Row>, limit: nat) {
    forall ids :: c.fetch(ParentIn(ids)) == Take(Kept(RowKeys(view, ParentAccountID), view, ids), limit)
  }

  lemma LimitedChildKeys(c: Query, view: seq<Row>, limit: nat, ids: seq<int>)
    requires LimitedChildren(c, view, limit)
    ensures RowKeys(c.fetch(ParentIn(ids)), ParentAccountID)
         == Take(Kept(RowKeys(view, ParentAccountID), RowKeys(view, ParentAccountID), ids), limit)
  {
    var keys := RowKeys(view, ParentAccountID);
    KeptMap(keys, view, keys, ids, (r: Row) => r.ForeignKey(ParentAccountID));
    TakenKeys(keys, view, limit, ids);
  }

  /** The same for children, each loaded with its own edges. */
  lemma LimitedChildrenAreLazyIff(c: Query, view: seq<Row>, limit: nat, ids: seq<int>)
    requires LimitedChildren(c, view, limit) && limit > 0 && Distinct(ids)
    requires Sound(c) && PointwiseBelow(c) && Distinct(RowIDs(c.fetch(ParentIn(ids))))
    ensures EvalChildren(c, ids).Success?
    ensures (forall i :: 0 <= i < |ids| ==>
              EvalChildren(c, ids).value[i] == LazyAll(WithForeignKey(c), c.fetch(ParentIn([ids[i]]))))
       <==> LimitHarmless(RowKeys(view, ParentAccountID), view, limit, ids)
  {
    var keys := RowKeys(view, ParentAccountID);
    ChildrenEdgeSucceeds(c, ids);
    LimitedChildKeys(c, view, limit, ids);
    forall i | 0 <= i < |ids|
      ensures EvalChildren(c, ids).value[i] == LazyAll(WithForeignKey(c), LimitedShare(keys, view, limit, ids, i))
    {
      assert LastIndex(ids, ids[i]) == i;
      ChildrenAreShares(c, ids, i);
    }
    assert forall rows :: |LazyAll(WithForeignKey(c), rows)| == |rows|;
    LimitedSharesIff(keys, view, limit, ids);
  }

  // ---------------------------------------------------------------------- groups

  function AccountKeys(rows: seq<GroupRow>): (r: seq<Option<int>>)
    ensures |r| == |rows|
  {
    seq(|rows|, i requires 0 <= i < |rows| => Some(rows[i].accountID))
  }

  ghost predicate LimitedGroups(g: GroupQuery, view: seq<GroupRow>, limit: nat) {
    && g.failure == None && (forall ids :: g.fetch(ids) == Take(Kept(AccountKeys(view), view, ids), limit))
    && (forall ns :: g.intercept(ns) == ns)
    && (forall ids :: SortedByGroup(g.fetch(ids)) && JoinTable(g.fetch(ids)))
  }

  lemma LimitedGroupKeys(g: GroupQuery, view: seq<GroupRow>, limit: nat, ids: seq<int>)
    requires LimitedGroups(g, view, limit)
    ensures AccountKeys(g.fetch(ids)) == Take(Kept(AccountKeys(view), AccountKeys(view), ids), limit)
    ensures JoinGroups(g, ids).Success?
  {
    KeptMap(AccountKeys(view), view, AccountKeys(view), ids, (r: GroupRow) => Some(r.accountID));
    TakenKeys(AccountKeys(view), view, limit, ids);
    var rows := GroupRows(g, ids);
    forall r | r in rows
      ensures r.accountID in ids
    {
      var i :| 0 <= i < |rows| && rows[i] == r;
      assert AccountKeys(g.fetch(ids))[i] in AccountKeys(g.fetch(ids));
    }
    ScannedGroups(rows);
    NoBadGroup(ids, rows, Scanned(rows));
  }

  /** A node's groups are its share of the join rows. */
  lemma LimitedGroupList(g: GroupQuery, view: seq<GroupRow>, limit: nat, ids: seq<int>, i: nat)
    requires LimitedGroups(g, view, limit) && Distinct(ids) && i < |ids| && JoinGroups(g, ids).Success?
    ensures JoinGroups(g, ids).value[i]
         == GroupsOf(ScanGroupData(g.fields, LimitedShare(AccountKeys(view), view, limit, ids, i)))
  {
    var raw, rows := g.fetch(ids), GroupRows(g, ids);
    LimitedGroupKeys(g, view, limit, ids);
    assert LastIndex(ids, ids[i]) == i;
    ScannedRowsAreSorted(g.fields, raw);
    GroupsInRowOrder(rows, ids[i]);
    assert AccountIDs(rows) == AccountIDs(raw);
    SelectMap(AccountIDs(raw), raw, rows, ids[i], (r: GroupRow) => r.(group := ScanGroup(g.fields, r.group)));
    SelectBySome(AccountIDs(raw), AccountKeys(raw), raw, ids[i]);
    assert Select(AccountIDs(rows), rows, ids[i]) == ScanGroupData(g.fields, Select(AccountIDs(raw), raw, ids[i]));
  }

  /** The same for groups, the limit being on join rows. */
  lemma LimitedGroupsAreLazyIff(g: GroupQuery, view: seq<GroupRow>, limit: nat, ids: seq<int>)
    requires LimitedGroups(g, view, limit) && limit > 0 && Distinct(ids)
    ensures JoinGroups(g, ids).Success?
    ensures (forall i :: 0 <= i < |ids| ==> JoinGroups(g, ids).value[i] == GroupsOf(GroupRows(g, [ids[i]])))
       <==> LimitHarmless(AccountKeys(view), view, limit, ids)
  {
    var keys := AccountKeys(view);
    LimitedGroupKeys(g, view, limit, ids);
    forall i | 0 <= i < |ids|
      ensures JoinGroups(g, ids).value[i] == GroupsOf(ScanGroupData(g.fields, LimitedShare(keys, view, limit, ids, i)))
      ensures GroupRows(g, [ids[i]]) == ScanGroupData(g.fields, Take(Own(keys, view, ids[i]), limit))
    {
      LimitedGroupList(g, view, limit, ids, i);
    }
    LimitedSharesIff(keys, view, limit, ids);
  }

  // ----------------------------------------------------------------- many to one

  /** With distinct keys a limit is harmless only if it cuts nothing off. */
  lemma HarmlessByID<T>(keys: seq<Option<int>>, rows: seq<T>, limit: nat, ids: seq<int>)
    requires |keys| == |rows| && Distinct(keys) && Distinct(ids) && limit > 0
    ensures LimitHarmless(keys, rows, limit, ids) <==> |Kept(keys, rows, ids)| <= limit
  {
    var kept := Kept(keys, keys, ids);
    KeptKeys(keys, rows, ids);
    KeptDistinct(keys, ids);
    if LimitHarmless(keys, rows, limit, ids) && |Kept(keys, rows, ids)| > 1 {
      assert kept[0] in kept && kept[1] in kept;
      var i :| 0 <= i < |ids| && ids[i] == kept[0].value;
      SelectKept(keys, rows, ids, ids[i]);
      SelectAbsent(kept, Kept(keys, rows, ids), Some(ids[i]));
      if |Kept(keys, rows, ids)| > limit {
        LonelyOwner(keys, rows, ids, i);
      }
    }
  }

  function ProxyKeys(view: seq<Proxy>): (r: seq<Option<int>>)
    ensures |r| == |view|
  {
    seq(|view|, i requires 0 <= i < |view| => Some(view[i].ID))
  }

  ghost predicate LimitedProxies(p: ProxyQuery, view: seq<Proxy>, limit: nat) {
    p.failure == None && forall ids :: p.fetch(ids) == Take(Kept(ProxyKeys(view), view, ids), limit)
  }

  lemma LimitedProxyKeys(p: ProxyQuery, view: seq<Proxy>, limit: nat, fks: seq<Option<int>>)
    requires LimitedProxies(p, view, limit)
    ensures ProxyKeys(p.fetch(Wanted(fks))) == Take(Kept(ProxyKeys(view), ProxyKeys(view), Wanted(fks)), limit)
    ensures JoinProxy(p, fks).Success?
  {
    var rows, ns := p.fetch(Wanted(fks)), Proxies(p, Wanted(fks));
    KeptMap(ProxyKeys(view), view, ProxyKeys(view), Wanted(fks), (r: Proxy) => Some(r.ID));
    TakenKeys(ProxyKeys(view), view, limit, Wanted(fks));
    forall k | k in ProxyIDs(ns)
      ensures Some(k) in fks
    {
      var i :| 0 <= i < |ns| && ns[i].ID == k;
      assert ProxyKeys(rows)[i] in ProxyKeys(rows);
    }
    NoStrayIff(fks, []);
    NoStrayIff(fks, ProxyIDs(ns));
  }

  lemma ProxyLookup(p: ProxyQuery, fks: seq<Option<int>>, i: nat)
    requires i < |fks| && fks[i].Some? && JoinProxy(p, fks).Success?
    ensures var rows := p.fetch(Wanted(fks));
      var s := Select(ProxyIDs(rows), rows, fks[i].value);
      JoinProxy(p, fks).value[i] == if s == [] then None else Some(ScanProxy(p.fields, s[|s| - 1]))
  {
    var rows, k := p.fetch(Wanted(fks)), fks[i].value;
    KeyIsWanted(fks, i);
    LastMatchMapped(p, rows, k);
    LastMatchIsLast(ProxyIDs(rows), rows, k);
  }

  /** What a node's key finds in a limited batch. */
  lemma LimitedProxyFound(p: ProxyQuery, view: seq<Proxy>, limit: nat, fks: seq<Option<int>>, i: nat, w: nat)
    requires LimitedProxies(p, view, limit) && i < |fks| && JoinProxy(p, fks).Success?
    requires w < |Wanted(fks)| && fks[i] == Some(Wanted(fks)[w])
    ensures var share := LimitedShare(ProxyKeys(view), view, limit, Wanted(fks), w);
      JoinProxy(p, fks).value[i] == if share == [] then None else Some(ScanProxy(p.fields, share[|share| - 1]))
  {
    LimitedProxyShare(p, view, limit, fks, w);
    ProxyLookup(p, fks, i);
  }

  lemma LimitedProxyShare(p: ProxyQuery, view: seq<Proxy>, limit: nat, fks: seq<Option<int>>, w: nat)
    requires LimitedProxies(p, view, limit) && w < |Wanted(fks)|
    ensures var rows := p.fetch(Wanted(fks));
      Select(ProxyIDs(rows), rows, Wanted(fks)[w]) == LimitedShare(ProxyKeys(view), view, limit, Wanted(fks), w)
  {
    var rows, k := p.fetch(Wanted(fks)), Wanted(fks)[w];
    LimitedProxyKeys(p, view, limit, fks);
    assert LastIndex(Wanted(fks), k) == w;
    SelectBySome(ProxyIDs(rows), ProxyKeys(rows), rows, k);
  }

  lemma OwnProxyFound(p: ProxyQuery, view: seq<Proxy>, limit: nat, k: int)
    requires LimitedProxies(p, view, limit) && limit > 0 && |Own(ProxyKeys(view), view, k)| <= 1
    ensures var own := Own(ProxyKeys(view), view, k);
      Last(Proxies(p, [k])) == if own == [] then None else Some(ScanProxy(p.fields, own[|own| - 1]))
  {
    assert p.fetch([k]) == Own(ProxyKeys(view), view, k);
  }

  /** The node has what its own limited query would find for its key. */
  ghost predicate ProxyAgrees(p: ProxyQuery, fks: seq<Option<int>>, i: nat)
    requires i < |fks| && JoinProxy(p, fks).Success?
  {
    JoinProxy(p, fks).value[i] == if fks[i].None? then None else Last(Proxies(p, [fks[i].value]))
  }

  ghost function ProxiesAgree(p: ProxyQuery, fks: seq<Option<int>>): (r: seq<bool>)
    requires JoinProxy(p, fks).Success?
    ensures |r| == |fks|
  {
    seq(|fks|, i requires 0 <= i < |fks| => ProxyAgrees(p, fks, i))
  }

  /** The last of a prefix of at most one row is the last of all exactly if the prefix is whole. */
  lemma LastOfPrefix<T, U>(share: seq<T>, own: seq<T>, limit: nat, a: Option<U>, b: Option<U>)
    requires share <= own && |own| <= 1 && limit > 0
    requires a == None <==> share == []
    requires b == None <==> own == []
    requires share == own ==> a == b
    ensures a == b <==> |share| == |Take(own, limit)|
  {
    if |share| == |own| {
      assert share == own;
    }
  }

  lemma ProxyAgreesIfWhole(p: ProxyQuery, fks: seq<Option<int>>, i: nat, share: seq<Proxy>, own: seq<Proxy>, limit: nat)
    requires share <= own && |own| <= 1 && limit > 0
    requires i < |fks| && fks[i].Some? && JoinProxy(p, fks).Success?
    requires JoinProxy(p, fks).value[i] == if share == [] then None else Some(ScanProxy(p.fields, share[|share| - 1]))
    requires Last(Proxies(p, [fks[i].value])) == if own == [] then None else Some(ScanProxy(p.fields, own[|own| - 1]))
    ensures ProxyAgrees(p, fks, i) <==> |share| == |Take(own, limit)|
  {
    LastOfPrefix(share, own, limit, JoinProxy(p, fks).value[i], Last(Proxies(p, [fks[i].value])));
  }

  lemma ProxyAgreesIff(p: ProxyQuery, view: seq<Proxy>, limit: nat, fks: seq<Option<int>>, i: nat, w: nat)
    requires LimitedProxies(p, view, limit) && limit > 0 && Distinct(ProxyKeys(view))
    requires i < |fks| && JoinProxy(p, fks).Success? && w < |Wanted(fks)| && fks[i] == Some(Wanted(fks)[w])
    ensures var own := Own(ProxyKeys(view), view, Wanted(fks)[w]);
      ProxyAgrees(p, fks, i) <==> |LimitedShare(ProxyKeys(view), view, limit, Wanted(fks), w)| == |Take(own, limit)|
  {
    var keys, k := ProxyKeys(view), Wanted(fks)[w];
    var share, own := LimitedShare(keys, view, limit, Wanted(fks), w), Own(keys, view, k);
    LimitedProxyFound(p, view, limit, fks, i, w);
    PrefixOfOne(keys, view, limit, Wanted(fks), w);
    OwnProxyFound(p, view, limit, k);
    ProxyAgreesIfWhole(p, fks, i, share, own, limit);
  }

  lemma PrefixOfOne<T>(keys: seq<Option<int>>, rows: seq<T>, limit: nat, ids: seq<int>, w: nat)
    requires |keys| == |rows| && Distinct(keys) && Distinct(ids) && w < |ids|
    ensures LimitedShare(keys, rows, limit, ids, w) <= Own(keys, rows, ids[w]) && |Own(keys, rows, ids[w])| <= 1
  {
    LimitedShareIsPrefix(keys, rows, limit, ids, w);
    OwnByID(keys, rows, ids[w]);
  }

  /** A limit on the proxies gives every node what its own limited query would exactly if it cuts none off. */
  lemma LimitedProxiesAreLazyIff(p: ProxyQuery, view: seq<Proxy>, limit: nat, fks: seq<Option<int>>)
    requires LimitedProxies(p, view, limit) && limit > 0 && Distinct(ProxyKeys(view))
    ensures JoinProxy(p, fks).Success?
    ensures AllTrue(ProxiesAgree(p, fks)) <==> |Kept(ProxyKeys(view), view, Wanted(fks))| <= limit
  {
    LimitedProxyKeys(p, view, limit, fks);
    var agree := ProxiesAgree(p, fks);
    var uncut := Uncut(ProxyKeys(view), view, limit, Wanted(fks));
    forall i, w | 0 <= i < |fks| && 0 <= w < |uncut| && fks[i] == Some(Wanted(fks)[w])
      ensures agree[i] == uncut[w]
    {
      ProxyAgreesIff(p, view, limit, fks, i, w);
    }
    NoKeyNoProxy(p, fks);
    AllOfKeysIff(fks, agree, uncut);
    UncutIff(ProxyKeys(view), view, limit, Wanted(fks));
  }

  lemma NoKeyNoProxy(p: ProxyQuery, fks: seq<Option<int>>)
    requires JoinProxy(p, fks).Success?
    ensures forall i :: 0 <= i < |fks| && fks[i].None? ==> ProxyAgrees(p, fks, i)
  {
  }

  // --------------------------------------------------------------------- parents

  function IDKeys(rows: seq<Row>): (r: seq<Option<int>>)
    ensures |r| == |rows|
  {
    seq(|rows|, i requires 0 <= i < |rows| => Some(rows[i].ID()))
  }

  ghost predicate LimitedParents(p: Query, view: seq<Row>, limit: nat) {
    forall ids :: p.fetch(IDIn(ids)) == Take(Kept(IDKeys(view), view, ids), limit)
  }

  ghost predicate ParentAgrees(p: Query, fks: seq<Option<int>>, i: nat)
    requires i < |fks| && EvalParents(p, fks).Success?
  {
    EvalParents(p, fks).value[i] == if fks[i].None? then None else LazyLast(p, p.fetch(IDIn([fks[i].value])))
  }

  ghost function ParentsAgree(p: Query, fks: seq<Option<int>>): (r: seq<bool>)
    requires EvalParents(p, fks).Success?
    ensures |r| == |fks|
  {
    seq(|fks|, i requires 0 <= i < |fks| => ParentAgrees(p, fks, i))
  }

  lemma LimitedParentKeys(p: Query, view: seq<Row>, limit: nat, ids: seq<int>)
    requires LimitedParents(p, view, limit) && Distinct(IDKeys(view))
    ensures IDKeys(p.fetch(IDIn(ids))) == Take(Kept(IDKeys(view), IDKeys(view), ids), limit)
    ensures Distinct(RowIDs(p.fetch(IDIn(ids))))
  {
    var keys, rows := IDKeys(view), p.fetch(IDIn(ids));
    KeptMap(keys, view, keys, ids, (r: Row) => Some(r.ID()));
    TakenKeys(keys, view, limit, ids);
    KeptDistinct(keys, ids);
    TakenIsDistinct(Kept(keys, keys, ids), limit);
    DistinctKeysDistinctIDs(rows);
  }

  lemma TakenIsDistinct<T>(xs: seq<T>, limit: nat)
    requires Distinct(xs)
    ensures Distinct(Take(xs, limit))
  {
  }

  lemma DistinctKeysDistinctIDs(rows: seq<Row>)
    requires Distinct(IDKeys(rows))
    ensures Distinct(RowIDs(rows))
  {
    assert forall i :: 0 <= i < |rows| ==> IDKeys(rows)[i] == Some(RowIDs(rows)[i]);
  }

  lemma LimitedParentFound(p: Query, view: seq<Row>, limit: nat, fks: seq<Option<int>>, i: nat, w: nat)
    requires LimitedParents(p, view, limit) && Distinct(IDKeys(view)) && Sound(p) && PointwiseBelow(p)
    requires i < |fks| && EvalParents(p, fks).Success? && w < |Wanted(fks)| && fks[i] == Some(Wanted(fks)[w])
    ensures EvalParents(p, fks).value[i] == LazyLast(p, LimitedShare(IDKeys(view), view, limit, Wanted(fks), w))
  {
    var k, rows := Wanted(fks)[w], p.fetch(IDIn(Wanted(fks)));
    LimitedParentKeys(p, view, limit, Wanted(fks));
    ParentIsMatch(p, fks, i);
    SelectBySome(RowIDs(rows), IDKeys(rows), rows, k);
    assert LastIndex(Wanted(fks), k) == w;
  }

  lemma ParentAgreesIff(p: Query, view: seq<Row>, limit: nat, fks: seq<Option<int>>, i: nat, w: nat)
    requires LimitedParents(p, view, limit) && limit > 0 && Distinct(IDKeys(view)) && Sound(p) && PointwiseBelow(p)
    requires i < |fks| && EvalParents(p, fks).Success? && w < |Wanted(fks)| && fks[i] == Some(Wanted(fks)[w])
    ensures var own := Own(IDKeys(view), view, Wanted(fks)[w]);
      ParentAgrees(p, fks, i) <==> |LimitedShare(IDKeys(view), view, limit, Wanted(fks), w)| == |Take(own, limit)|
  {
    var keys, k := IDKeys(view), Wanted(fks)[w];
    var share, own := LimitedShare(keys, view, limit, Wanted(fks), w), Own(keys, view, k);
    LimitedParentFound(p, view, limit, fks, i, w);
    PrefixOfOne(keys, view, limit, Wanted(fks), w);
    assert p.fetch(IDIn([k])) == own;
    LastOfPrefix(share, own, limit, EvalParents(p, fks).value[i], LazyLast(p, own));
  }

  /** The same for parents. */
  lemma LimitedParentsAreLazyIff(p: Query, view: seq<Row>, limit: nat, fks: seq<Option<int>>)
    requires LimitedParents(p, view, limit) && limit > 0 && Distinct(IDKeys(view)) && Sound(p) && PointwiseBelow(p)
    ensures EvalParents(p, fks).Success?
    ensures AllTrue(ParentsAgree(p, fks)) <==> |Kept(IDKeys(view), view, Wanted(fks))| <= limit
  {
    ParentEdgeSucceeds(p, fks);
    var agree := ParentsAgree(p, fks);
    var uncut := Uncut(IDKeys(view), view, limit, Wanted(fks));
    forall i, w | 0 <= i < |fks| && 0 <= w < |uncut| && fks[i] == Some(Wanted(fks)[w])
      ensures agree[i] == uncut[w]
    {
      ParentAgreesIff(p, view, limit, fks, i, w);
    }
    NoKeyNoParent(p, fks);
    AllOfKeysIff(fks, agree, uncut);
    UncutIff(IDKeys(view), view, limit, Wanted(fks));
  }

  lemma NoKeyNoParent(p: Query, fks: seq<Option<int>>)
    requires EvalParents(p, fks).Success?
    ensures forall i :: 0 <= i < |fks| && fks[i].None? ==> ParentAgrees(p, fks, i)
  {
  }

  lemma {:induction false} OwnOfNone<T>(keys: seq<Option<int>>, rows: seq<T>, id: int)
    requires |keys| == |rows| && Some(id) !in keys
    ensures Own(keys, rows, id) == []
  {
    if rows != [] {
      var n := |rows| - 1;
      assert keys == keys[..n] + [keys[n]];
      OwnOfNone(keys[..n], rows[..n], id);
    }
  }

  lemma {:induction false} OwnByID<T>(keys: seq<Option<int>>, rows: seq<T>, id: int)
    requires |keys| == |rows| && Distinct(keys)
    ensures |Own(keys, rows, id)| <= 1
  {
    if rows != [] {
      var n := |rows| - 1;
      if keys[n] == Some(id) {
        OwnOfNone(keys[..n], rows[..n], id);
      } else {
        OwnByID(keys[..n], rows[..n], id);
      }
    }
  }

  /** Which ids get as many rows from a limited batch as from a limited query of their own. */
  function Uncut<T>(keys: seq<Option<int>>, rows: seq<T>, limit: nat, ids: seq<int>): (r: seq<bool>)
    requires |keys| == |rows|
    ensures |r| == |ids|
  {
    seq(|ids|, w requires 0 <= w < |ids| =>
      |LimitedShare(keys, rows, limit, ids, w)| == |Take(Own(keys, rows, ids[w]), limit)|)
  }

  predicate AllTrue(bs: seq<bool>) {
    forall i :: 0 <= i < |bs| ==> bs[i]
  }

  lemma UncutIff<T>(keys: seq<Option<int>>, rows: seq<T>, limit: nat, ids: seq<int>)
    requires |keys| == |rows| && Distinct(keys) && Distinct(ids) && limit > 0
    ensures AllTrue(Uncut(keys, rows, limit, ids)) <==> |Kept(keys, rows, ids)| <= limit
  {
    HarmlessByID(keys, rows, limit, ids);
    LimitedSharesIff(keys, rows, limit, ids);
    var uncut := Uncut(keys, rows, limit, ids);
    if AllTrue(uncut) {
      forall i | 0 <= i < |ids|
        ensures |LimitedShare(keys, rows, limit, ids, i)| == |Take(Own(keys, rows, ids[i]), limit)|
      {
        assert uncut[i];
      }
    }
  }

  /** What holds of the wanted keys holds of the nodes that have them. */
  lemma AllOfKeysIff(fks: seq<Option<int>>, nodes: seq<bool>, keys: seq<bool>)
    requires |nodes| == |fks| && |keys| == |Wanted(fks)|
    requires forall i :: 0 <= i < |fks| && fks[i].None? ==> nodes[i]
    requires forall i, w :: 0 <= i < |fks| && 0 <= w < |keys| && fks[i] == Some(Wanted(fks)[w]) ==> nodes[i] == keys[w]
    ensures AllTrue(nodes) <==> AllTrue(keys)
  {
    var wanted := Wanted(fks);
    if AllTrue(nodes) {
      forall w | 0 <= w < |keys|
        ensures keys[w]
      {
        assert wanted[w] in wanted;
        var i :| 0 <= i < |fks| && fks[i] == Some(wanted[w]);
        assert nodes[i];
      }
    }
    if AllTrue(keys) {
      forall i | 0 <= i < |fks| && fks[i].Some?
        ensures nodes[i]
      {
        KeyIsWanted(fks, i);
        var w :| 0 <= w < |wanted| && wanted[w] == fks[i].value;
        assert keys[w];
      }
    }
  }
}
