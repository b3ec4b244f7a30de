/** What selecting other columns changes: which rows are found as neighbours never, and what is scanned of
    them only in the columns not selected. One builder can lose rows to a selection: that of the account
    groups, when it merges equal rows. */
module Selections {
  import opened Sequences
  import opened AccountEntity
  import opened EagerSpec
  import opened EagerLaws
  import opened LazyLoading

  // ------------------------------------------------------------- merged rows

  /** The pair of ids is the primary key of the account groups. */
  predicate PairKeyed(rows: seq<AccountGroup>) {
    forall i, j :: 0 <= i < j < |rows| ==> rows[i].AccountID != rows[j].AccountID || rows[i].GroupID != rows[j].GroupID
  }

  /** The builder does not merge, or selects the whole primary key; the account id is always selected. */
  predicate Discerning(a: AccountGroupQuery) {
    !a.unique || a.fields == [] || "group_id" in a.fields
  }

  lemma {:induction false} DistinctIsMerged<T>(xs: seq<T>)
    ensures Merged(xs) == xs <==> Distinct(xs)
    ensures |Merged(xs)| == |xs| <==> Distinct(xs)
  {
    if xs != [] {
      var n := |xs| - 1;
      DistinctIsMerged(xs[..n]);
      assert xs == xs[..n] + [xs[n]];
      if xs[n] in xs[..n] {
        var i :| 0 <= i < n && xs[..n][i] == xs[n];
        assert xs[i] == xs[n];
        assert |Merged(xs)| < |xs|;
      }
    }
  }

  lemma DiscerningKeepsAll(a: AccountGroupQuery, rows: seq<AccountGroup>)
    requires Discerning(a) && PairKeyed(rows)
    ensures SelectedAccountGroups(a, rows) == ScanAccountGroups(SelectAlso(a.fields, "account_id"), rows)
  {
    var fields := SelectAlso(a.fields, "account_id");
    var scanned := ScanAccountGroups(fields, rows);
    if a.unique {
      assert fields == [] || ("account_id" in fields && "group_id" in fields);
      forall i, j | 0 <= i < j < |scanned|
        ensures scanned[i] != scanned[j]
      {
        assert scanned[i].AccountID == rows[i].AccountID && scanned[j].GroupID == rows[j].GroupID;
      }
      DistinctIsMerged(scanned);
    }
  }

  /** Two groups of one account, alike in everything else. */
  function Twins(): seq<AccountGroup> {
    [AccountGroup(1, 10, map[]), AccountGroup(1, 11, map[])]
  }

  lemma MergedTwins(a: AccountGroupQuery)
    requires !Discerning(a)
    ensures PairKeyed(Twins()) && |SelectedAccountGroups(a, Twins())| == 1
  {
    var fields := SelectAlso(a.fields, "account_id");
    assert "group_id" !in fields;
    var scanned := ScanAccountGroups(fields, Twins());
    assert scanned[0] == scanned[1];
    assert scanned[..1] == [scanned[0]] && scanned[0] in scanned[..1] && Merged(scanned[..1]) == [scanned[0]];
  }

  /** Selecting columns of the account groups loses no row of any table exactly if the builder does not merge
      equal rows or selects the group id too. */
  lemma SelectionKeepsRowsIff(a: AccountGroupQuery)
    ensures (forall rows :: PairKeyed(rows) ==> |SelectedAccountGroups(a, rows)| == |rows|) <==> Discerning(a)
  {
    if Discerning(a) {
      forall rows | PairKeyed(rows)
        ensures |SelectedAccountGroups(a, rows)| == |rows|
      {
        DiscerningKeepsAll(a, rows);
      }
    } else {
      MergedTwins(a);
    }
  }

  /** An account in two groups of the same priority, loaded with the priority selected and equal rows merged:
      one entry is left. */
  lemma SelectionMergesAGroup()
    ensures var rows := [AccountGroup(1, 10, map["priority" := "5"]), AccountGroup(1, 11, map["priority" := "5"])];
      var a := AccountGroupQuery(["priority"], true, ids => rows);
      JoinAccountGroups(a, [1]) == Success([[AccountGroup(1, 0, map["priority" := "5"])]])
  {
    var rows := [AccountGroup(1, 10, map["priority" := "5"]), AccountGroup(1, 11, map["priority" := "5"])];
    var a := AccountGroupQuery(["priority"], true, ids => rows);
    var one := AccountGroup(1, 0, map["priority" := "5"]);
    MergedScan(rows, one);
    assert AccountGroups(a, [1]) == [one];
    OneShare(one);
  }

  lemma MergedScan(rows: seq<AccountGroup>, one: AccountGroup)
    requires rows == [AccountGroup(1, 10, map["priority" := "5"]), AccountGroup(1, 11, map["priority" := "5"])]
    requires one == AccountGroup(1, 0, map["priority" := "5"])
    ensures Merged(ScanAccountGroups(SelectAlso(["priority"], "account_id"), rows)) == [one]
  {
    var fields := SelectAlso(["priority"], "account_id");
    assert fields == ["priority", "account_id"] && fields[0] == "priority" && fields[1] == "account_id";
    var scanned := ScanAccountGroups(fields, rows);
    assert scanned[0].data == one.data && scanned[1].data == one.data;
    assert scanned == [one, one];
    assert scanned[..1] == [one] && one in scanned[..1] && scanned[..1][..0] == [];
    assert Merged(scanned[..1]) == [one];
  }

  lemma OneShare(one: AccountGroup)
    requires one.AccountID == 1
    ensures Partition([1], AccountGroupKeys([one]), AccountGroupLabels([one]), [one]) == Success([[one]])
  {
    var keys, labels := AccountGroupKeys([one]), AccountGroupLabels([one]);
    assert keys == [Some(1)] && keys[..0] == [] && labels[..0] == [] && [one][..0] == [];
    assert FirstBadKey([1], keys, labels) == None;
    assert Select(keys, [one], Some(1)) == [one];
    assert LastIndex([1], 1) == 0;
    assert Shares([1], keys, [one]) == [[one]];
  }

  // ------------------------------------------------------------- same neighbours

  function ScanGroups(fields: seq<string>, gs: seq<Group>): (r: seq<Group>)
    ensures |r| == |gs|
  {
    seq(|gs|, i requires 0 <= i < |gs| => ScanGroup(fields, gs[i]))
  }

  /** Two lists scanned from the same groups, each under its own selection. */
  ghost predicate SameGroups(fields: seq<string>, a: seq<Group>, fields': seq<string>, b: seq<Group>) {
    exists gs :: a == ScanGroups(fields, gs) && b == ScanGroups(fields', gs)
  }

  ghost predicate SameLogs(fields: seq<string>, a: seq<UsageLog>, fields': seq<string>, b: seq<UsageLog>) {
    exists rows :: a == ScanUsageLogs(fields, rows) && b == ScanUsageLogs(fields', rows)
  }

  ghost predicate SameAccountGroups(fields: seq<string>, a: seq<AccountGroup>, fields': seq<string>,
                                    b: seq<AccountGroup>) {
    exists rows :: a == ScanAccountGroups(fields, rows) && b == ScanAccountGroups(fields', rows)
  }

  ghost predicate SameProxy(fields: seq<string>, a: Option<Proxy>, fields': seq<string>, b: Option<Proxy>) {
    || (a == None && b == None)
    || exists p :: a == Some(ScanProxy(fields, p)) && b == Some(ScanProxy(fields', p))
  }

  ghost predicate SameEntity(columns: seq<Column>, a: Entity, columns': seq<Column>, b: Entity) {
    exists row: Row :: a == EntityOf(columns, row) && b == EntityOf(columns', row)
  }

  /** Two trees of the same rows, edge by edge and level by level, each scanned under its own selections. */
  ghost predicate SameTree(q: Query, q': Query, t: Tree, t': Tree)
    decreases t
  {
    && SameEntity(SpecColumns(q), t.entity, SpecColumns(q'), t'.entity)
    && t.edges.loadedTypes == t'.edges.loadedTypes
    && SameLeaves(q, q', t.edges, t'.edges)
    && SameParent(q, q', t.edges.Parent, t'.edges.Parent)
    && SameChildren(q, q', t.edges.Children, t'.edges.Children)
  }

  ghost predicate SameParent(q: Query, q': Query, a: Option<Tree>, b: Option<Tree>)
    decreases a
  {
    && (a.Some? <==> b.Some?)
    && (a.Some? ==>
          && q.withParent.Some? && q'.withParent.Some?
          && SameTree(q.withParent.value, q'.withParent.value, a.value, b.value))
  }

  ghost predicate SameChildren(q: Query, q': Query, a: seq<Tree>, b: seq<Tree>)
    decreases a
  {
    && |a| == |b|
    && (forall i :: 0 <= i < |a| ==>
          && q.withChildren.Some? && q'.withChildren.Some?
          && SameTree(WithForeignKey(q.withChildren.value), WithForeignKey(q'.withChildren.value), a[i], b[i]))
  }

  /** The edges that do not lead to accounts. */
  ghost predicate SameLeaves(q: Query, q': Query, e: Edges<Tree>, e': Edges<Tree>) {
    && (q.withGroups.Some? && q'.withGroups.Some? ==>
          SameGroups(q.withGroups.value.fields, e.Groups, q'.withGroups.value.fields, e'.Groups))
    && (q.withProxy.Some? && q'.withProxy.Some? ==>
          SameProxy(q.withProxy.value.fields, e.Proxy, q'.withProxy.value.fields, e'.Proxy))
    && (q.withUsageLogs.Some? && q'.withUsageLogs.Some? ==>
          SameLogs(SelectAlso(q.withUsageLogs.value.fields, "account_id"), e.UsageLogs,
                   SelectAlso(q'.withUsageLogs.value.fields, "account_id"), e'.UsageLogs))
    && (q.withAccountGroups.Some? && q'.withAccountGroups.Some? ==>
          SameAccountGroups(SelectAlso(q.withAccountGroups.value.fields, "account_id"), e.AccountGroups,
                            SelectAlso(q'.withAccountGroups.value.fields, "account_id"), e'.AccountGroups))
  }

  // -------------------------------------------------------- other selections

  /** Interceptors that do the same whatever was selected. */
  ghost predicate Blind(f: seq<Group> -> seq<Group>) {
    forall fields, fields', gs :: SameGroups(fields, f(ScanGroups(fields, gs)), fields', f(ScanGroups(fields', gs)))
  }

  ghost predicate ReselectsGroups(g: GroupQuery, g': GroupQuery) {
    g'.fetch == g.fetch && g'.intercept == g.intercept && Blind(g.intercept)
  }

  ghost predicate ReselectsAccountGroups(a: AccountGroupQuery, a': AccountGroupQuery) {
    a'.fetch == a.fetch && Discerning(a) && Discerning(a') && forall ids :: PairKeyed(a.fetch(ids))
  }

  /** The same query with other selected columns, in every builder of it. */
  ghost predicate Reselects(q: Query, q': Query)
    decreases Depth(q)
  {
    && q'.fetch == q.fetch && Requested(q) == Requested(q')
    && (q.withGroups.Some? <==> q'.withGroups.Some?)
    && (q.withGroups.Some? ==> ReselectsGroups(q.withGroups.value, q'.withGroups.value))
    && (q.withProxy.Some? <==> q'.withProxy.Some?)
    && (q.withProxy.Some? ==> q'.withProxy.value.fetch == q.withProxy.value.fetch)
    && (q.withParent.Some? <==> q'.withParent.Some?)
    && (q.withParent.Some? ==> Reselects(q.withParent.value, q'.withParent.value))
    && (q.withChildren.Some? <==> q'.withChildren.Some?)
    && (q.withChildren.Some? ==> Reselects(q.withChildren.value, q'.withChildren.value))
    && (q.withUsageLogs.Some? <==> q'.withUsageLogs.Some?)
    && (q.withUsageLogs.Some? ==> q'.withUsageLogs.value.fetch == q.withUsageLogs.value.fetch)
    && (q.withAccountGroups.Some? <==> q'.withAccountGroups.Some?)
    && (q.withAccountGroups.Some? ==> ReselectsAccountGroups(q.withAccountGroups.value, q'.withAccountGroups.value))
  }

  // --------------------------------------------------------------- edge by edge

  lemma {:induction false} ScannedGroupData(fields: seq<string>, raw: seq<GroupRow>)
    ensures Scanned(ScanGroupData(fields, raw)) == ScanGroups(fields, Scanned(raw))
  {
    if raw != [] {
      var n := |raw| - 1;
      ScannedGroupData(fields, raw[..n]);
      assert ScanGroupData(fields, raw)[..n] == ScanGroupData(fields, raw[..n]);
      ScannedLinks(fields, raw[..n]);
    } else {
      assert ScanGroupData(fields, raw) == [];
    }
  }

  lemma {:induction false} LinkedGroupsScanned(fields: seq<string>, raw: seq<GroupRow>, id: int, gs: seq<Group>)
    ensures LinkedGroups(ScanGroupData(fields, raw), id, ScanGroups(fields, gs))
         == ScanGroups(fields, LinkedGroups(raw, id, gs))
  {
    ScannedLinks(fields, raw);
    if gs != [] {
      var n := |gs| - 1;
      LinkedGroupsScanned(fields, raw, id, gs[..n]);
      assert ScanGroups(fields, gs)[..n] == ScanGroups(fields, gs[..n]);
    }
  }

  lemma GroupsSame(g: GroupQuery, g': GroupQuery, ids: seq<int>, i: nat)
    requires ReselectsGroups(g, g') && i < |ids| && JoinGroups(g, ids).Success? && JoinGroups(g', ids).Success?
    ensures SameGroups(g.fields, JoinGroups(g, ids).value[i], g'.fields, JoinGroups(g', ids).value[i])
  {
    var raw := g.fetch(ids);
    ScannedGroupData(g.fields, raw);
    ScannedGroupData(g'.fields, raw);
    var ns := g.intercept(ScanGroups(g.fields, Scanned(raw)));
    var ns' := g.intercept(ScanGroups(g'.fields, Scanned(raw)));
    assert SameGroups(g.fields, ns, g'.fields, ns');
    var gs :| ns == ScanGroups(g.fields, gs) && ns' == ScanGroups(g'.fields, gs);
    GroupListIs(g, ids, i, gs);
    GroupListIs(g', ids, i, gs);
  }

  /** A node's groups, when the interceptors made scans of `gs` of the groups found. */
  lemma GroupListIs(g: GroupQuery, ids: seq<int>, i: nat, gs: seq<Group>)
    requires i < |ids| && JoinGroups(g, ids).Success?
    requires g.intercept(Scanned(GroupRows(g, ids))) == ScanGroups(g.fields, gs)
    ensures JoinGroups(g, ids).value[i] == ScanGroups(g.fields, GroupShare(ids, g.fetch(ids), gs, i))
  {
    LinkedGroupsScanned(g.fields, g.fetch(ids), ids[i], gs);
  }

  lemma ProxySame(p: ProxyQuery, p': ProxyQuery, fks: seq<Option<int>>, i: nat)
    requires p'.fetch == p.fetch && i < |fks| && JoinProxy(p, fks).Success? && JoinProxy(p', fks).Success?
    ensures SameProxy(p.fields, JoinProxy(p, fks).value[i], p'.fields, JoinProxy(p', fks).value[i])
  {
    KeyIsWanted(fks, i);
    if fks[i].Some? {
      var rows := p.fetch(Wanted(fks));
      LastMatchMapped(p, rows, fks[i].value);
      LastMatchMapped(p', rows, fks[i].value);
    }
  }

  lemma {:induction false} LastMatchMapped(p: ProxyQuery, rows: seq<Proxy>, k: int)
    ensures var ns := seq(|rows|, i requires 0 <= i < |rows| => ScanProxy(p.fields, rows[i]));
      LastMatch(ProxyIDs(ns), ns, k) ==
        match LastMatch(ProxyIDs(rows), rows, k)
        case None => None
        case Some(r) => Some(ScanProxy(p.fields, r))
  {
    if rows != [] {
      var n := |rows| - 1;
      LastMatchMapped(p, rows[..n], k);
      var ns := seq(|rows|, i requires 0 <= i < |rows| => ScanProxy(p.fields, rows[i]));
      assert ns[..n] == seq(|rows[..n]|, i requires 0 <= i < |rows[..n]| => ScanProxy(p.fields, rows[..n][i]));
      assert ProxyIDs(ns)[..n] == ProxyIDs(ns[..n]) && ProxyIDs(rows)[..n] == ProxyIDs(rows[..n]);
    }
  }

  lemma LogsSame(u: UsageLogQuery, u': UsageLogQuery, ids: seq<int>, i: nat)
    requires u'.fetch == u.fetch && i < |ids|
    requires JoinUsageLogs(u, ids).Success? && JoinUsageLogs(u', ids).Success?
    ensures SameLogs(SelectAlso(u.fields, "account_id"), JoinUsageLogs(u, ids).value[i],
                     SelectAlso(u'.fields, "account_id"), JoinUsageLogs(u', ids).value[i])
  {
    var rows := u.fetch(ids);
    var share := Share(ids, UsageLogKeys(rows), rows, i);
    LogShare(u, ids, i);
    LogShare(u', ids, i);
    assert JoinUsageLogs(u', ids).value[i] == ScanUsageLogs(SelectAlso(u'.fields, "account_id"), share);
  }

  /** A node's logs are its share of the rows found, scanned. */
  lemma LogShare(u: UsageLogQuery, ids: seq<int>, i: nat)
    requires i < |ids| && JoinUsageLogs(u, ids).Success?
    ensures JoinUsageLogs(u, ids).value[i]
      == ScanUsageLogs(SelectAlso(u.fields, "account_id"), Share(ids, UsageLogKeys(u.fetch(ids)), u.fetch(ids), i))
  {
    UsageLogKeysKept(u, ids);
    var rows, fields := u.fetch(ids), SelectAlso(u.fields, "account_id");
    SelectMap(UsageLogKeys(rows), rows, UsageLogs(u, ids), Some(ids[i]), (r: UsageLog) => ScanUsageLog(fields, r));
  }

  lemma AccountGroupsSame(a: AccountGroupQuery, a': AccountGroupQuery, ids: seq<int>, i: nat)
    requires ReselectsAccountGroups(a, a') && i < |ids|
    requires JoinAccountGroups(a, ids).Success? && JoinAccountGroups(a', ids).Success?
    ensures SameAccountGroups(SelectAlso(a.fields, "account_id"), JoinAccountGroups(a, ids).value[i],
                              SelectAlso(a'.fields, "account_id"), JoinAccountGroups(a', ids).value[i])
  {
    var rows := a.fetch(ids);
    var share := Share(ids, AccountGroupKeys(rows), rows, i);
    AccountGroupShare(a, ids, i);
    AccountGroupShare(a', ids, i);
    assert JoinAccountGroups(a', ids).value[i] == ScanAccountGroups(SelectAlso(a'.fields, "account_id"), share);
  }

  lemma AccountGroupShare(a: AccountGroupQuery, ids: seq<int>, i: nat)
    requires i < |ids| && JoinAccountGroups(a, ids).Success? && Discerning(a) && PairKeyed(a.fetch(ids))
    ensures JoinAccountGroups(a, ids).value[i]
      == ScanAccountGroups(SelectAlso(a.fields, "account_id"),
                           Share(ids, AccountGroupKeys(a.fetch(ids)), a.fetch(ids), i))
  {
    var rows, fields := a.fetch(ids), SelectAlso(a.fields, "account_id");
    DiscerningKeepsAll(a, rows);
    AccountGroupKeysKept(a, ids);
    SelectMap(AccountGroupKeys(rows), rows, AccountGroups(a, ids), Some(ids[i]),
              (r: AccountGroup) => ScanAccountGroup(fields, r));
  }

  // ------------------------------------------------------------ the whole query

  ghost predicate AllSame(q: Query, q': Query, ts: seq<Tree>, ts': seq<Tree>) {
    |ts| == |ts'| && forall i :: 0 <= i < |ts| ==> SameTree(q, q', ts[i], ts'[i])
  }

  lemma {:induction false} SelectSame(q: Query, q': Query, keys: seq<Option<int>>, ts: seq<Tree>, ts': seq<Tree>,
                                      k: Option<int>)
    requires AllSame(q, q', ts, ts') && |keys| == |ts|
    ensures AllSame(q, q', Select(keys, ts, k), Select(keys, ts', k))
  {
    if ts != [] {
      var n := |ts| - 1;
      SelectSame(q, q', keys[..n], ts[..n], ts'[..n], k);
      AllSameSnoc(q, q', Select(keys[..n], ts[..n], k), Select(keys[..n], ts'[..n], k), ts[n], ts'[n]);
    }
  }

  lemma AllSameSnoc(q: Query, q': Query, ts: seq<Tree>, ts': seq<Tree>, t: Tree, t': Tree)
    requires AllSame(q, q', ts, ts') && SameTree(q, q', t, t')
    ensures AllSame(q, q', ts + [t], ts' + [t'])
  {
  }

  lemma {:induction false} LastMatchSame(q: Query, q': Query, keys: seq<int>, ts: seq<Tree>, ts': seq<Tree>, k: int)
    requires AllSame(q, q', ts, ts') && |keys| == |ts|
    ensures var a, b := LastMatch(keys, ts, k), LastMatch(keys, ts', k);
      (a.Some? <==> b.Some?) && (a.Some? ==> SameTree(q, q', a.value, b.value))
  {
    if ts != [] {
      var n := |ts| - 1;
      LastMatchSame(q, q', keys[..n], ts[..n], ts'[..n], k);
    }
  }

  lemma {:induction false} ParentsSame(p: Query, p': Query, fks: seq<Option<int>>, i: nat)
    requires Sound(p) && Sound(p') && Reselects(p, p') && i < |fks|
    requires EvalParents(p, fks).Success? && EvalParents(p', fks).Success?
    ensures var a, b := EvalParents(p, fks).value[i], EvalParents(p', fks).value[i];
      (a.Some? <==> b.Some?) && (a.Some? ==> SameTree(p, p', a.value, b.value))
    decreases Depth(p), 3
  {
    KeyIsWanted(fks, i);
    if fks[i].Some? {
      var f := IDIn(Wanted(fks));
      SelectionIrrelevant(p, p', f);
      TreesOfRows(p, f);
      TreesOfRows(p', f);
      LastMatchSame(p, p', RowIDs(p.fetch(f)), Eval(p, f).value, Eval(p', f).value, fks[i].value);
    }
  }

  lemma ReselectedKeys(q: Query, q': Query)
    requires Reselects(q, q')
    ensures Reselects(WithForeignKey(q), WithForeignKey(q'))
  {
  }

  lemma {:induction false} ChildrenSame(q: Query, q': Query, ids: seq<int>, i: nat)
    requires Sound(q) && Sound(q') && Reselects(q, q') && i < |ids|
    requires EvalChildren(q, ids).Success? && EvalChildren(q', ids).Success?
    ensures AllSame(WithForeignKey(q), WithForeignKey(q'),
                    EvalChildren(q, ids).value[i], EvalChildren(q', ids).value[i])
    decreases Depth(q), 3
  {
    var c, c', f := WithForeignKey(q), WithForeignKey(q'), ParentIn(ids);
    SoundWithForeignKey(q);
    SoundWithForeignKey(q');
    ReselectedKeys(q, q');
    SelectionIrrelevant(c, c', f);
    TreesOfRows(c, f);
    TreesOfRows(c', f);
    SelectSame(c, c', RowKeys(c.fetch(f), ParentAccountID), Eval(c, f).value, Eval(c', f).value, Some(ids[i]));
  }

  /** The edges of one row that do not lead to accounts. */
  lemma LeavesSame(q: Query, q': Query, es: seq<Entity>, es': seq<Entity>, i: nat)
    requires Reselects(q, q') && i < |es| == |es'| && IDs(es) == IDs(es')
    requires q.withProxy.Some? ==> ForeignKeys(es, ProxyID) == ForeignKeys(es', ProxyID)
    requires EdgesSucceed(q, es) && EdgesSucceed(q', es')
    requires Joined(q, es).Success? && Joined(q', es').Success?
    ensures SameLeaves(q, q', Joined(q, es).value[i].edges, Joined(q', es').value[i].edges)
  {
    JoinedNode(q, es, i);
    JoinedNode(q', es', i);
    if q.withGroups.Some? {
      GroupsSame(q.withGroups.value, q'.withGroups.value, IDs(es), i);
    }
    if q.withProxy.Some? {
      ProxySame(q.withProxy.value, q'.withProxy.value, ForeignKeys(es, ProxyID), i);
    }
    if q.withUsageLogs.Some? {
      LogsSame(q.withUsageLogs.value, q'.withUsageLogs.value, IDs(es), i);
    }
    if q.withAccountGroups.Some? {
      AccountGroupsSame(q.withAccountGroups.value, q'.withAccountGroups.value, IDs(es), i);
    }
  }

  /** One row of a result and all below it. */
  lemma {:induction false} NodeSame(q: Query, q': Query, es: seq<Entity>, es': seq<Entity>, i: nat)
    requires Sound(q) && Sound(q') && Reselects(q, q') && i < |es| == |es'| && IDs(es) == IDs(es')
    requires q.withProxy.Some? ==> ForeignKeys(es, ProxyID) == ForeignKeys(es', ProxyID)
    requires q.withParent.Some? ==> ForeignKeys(es, ParentAccountID) == ForeignKeys(es', ParentAccountID)
    requires SameEntity(SpecColumns(q), es[i], SpecColumns(q'), es'[i])
    requires Joined(q, es).Success? && Joined(q', es').Success?
    ensures SameTree(q, q', Joined(q, es).value[i], Joined(q', es').value[i])
    decreases Depth(q), 1
  {
    JoinedNode(q, es, i);
    JoinedNode(q', es', i);
    LeavesSame(q, q', es, es', i);
    ParentEdgeSame(q, q', es, es', i);
    ChildrenEdgeSame(q, q', es, es', i);
    Assembled(q, q', Joined(q, es).value[i], Joined(q', es').value[i]);
  }

  lemma Assembled(q: Query, q': Query, t: Tree, t': Tree)
    requires SameEntity(SpecColumns(q), t.entity, SpecColumns(q'), t'.entity)
    requires t.edges.loadedTypes == t'.edges.loadedTypes && SameLeaves(q, q', t.edges, t'.edges)
    requires SameParent(q, q', t.edges.Parent, t'.edges.Parent)
    requires SameChildren(q, q', t.edges.Children, t'.edges.Children)
    ensures SameTree(q, q', t, t')
  {
  }

  lemma {:induction false} ParentEdgeSame(q: Query, q': Query, es: seq<Entity>, es': seq<Entity>, i: nat)
    requires Sound(q) && Sound(q') && Reselects(q, q') && i < |es| == |es'|
    requires q.withParent.Some? ==> ForeignKeys(es, ParentAccountID) == ForeignKeys(es', ParentAccountID)
    requires ParentEdge(q, es).Success? && ParentEdge(q', es').Success?
    ensures SameParent(q, q', ParentEdge(q, es).value[i], ParentEdge(q', es').value[i])
    decreases Depth(q), 0
  {
    if q.withParent.Some? {
      ParentsSame(q.withParent.value, q'.withParent.value, ForeignKeys(es, ParentAccountID), i);
    }
  }

  lemma {:induction false} ChildrenEdgeSame(q: Query, q': Query, es: seq<Entity>, es': seq<Entity>, i: nat)
    requires Sound(q) && Sound(q') && Reselects(q, q') && i < |es| == |es'| && IDs(es) == IDs(es')
    requires ChildrenEdge(q, es).Success? && ChildrenEdge(q', es').Success?
    ensures SameChildren(q, q', ChildrenEdge(q, es).value[i], ChildrenEdge(q', es').value[i])
    decreases Depth(q), 0
  {
    if q.withChildren.Some? {
      ChildrenSame(q.withChildren.value, q'.withChildren.value, IDs(es), i);
    }
  }

  /** Selecting other columns, in any builder of the query, leaves every node the same neighbours: both
      queries succeed, and their trees are of the same rows at every level. */
  lemma {:induction false} SelectionIrrelevant(q: Query, q': Query, f: InFilter)
    requires Sound(q) && Sound(q') && Reselects(q, q')
    ensures Eval(q, f).Success? && Eval(q', f).Success?
    ensures AllSame(q, q', Eval(q, f).value, Eval(q', f).value)
    decreases Depth(q), 2
  {
    SoundQueriesSucceed(q, f);
    SoundQueriesSucceed(q', f);
    NoInvalidField(q.fields);
    NoInvalidField(q'.fields);
    var rows := q.fetch(f);
    if rows != [] {
      var es, es' := Entities(SpecColumns(q), rows), Entities(SpecColumns(q'), rows);
      JoinKeysAreRowKeys(q, rows);
      JoinKeysAreRowKeys(q', rows);
      forall i | 0 <= i < |rows|
        ensures SameTree(q, q', Joined(q, es).value[i], Joined(q', es').value[i])
      {
        assert SameEntity(SpecColumns(q), es[i], SpecColumns(q'), es'[i]);
        NodeSame(q, q', es, es', i);
      }
    }
  }
}
