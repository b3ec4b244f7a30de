/** Eager loading against lazy loading: the batched hash joins give every node exactly what running the
    edge queries for that node alone would give, at every level of the query. */
module LazyLoading {
  import opened Sequences
  import opened AccountEntity
  import opened EagerSpec
  import opened EagerLaws

  // ------------------------------------------------------------- lazy loading

  function Last<T>(xs: seq<T>): Option<T> {
    if xs == [] then None else Some(xs[|xs| - 1])
  }

  /** One row with its edges loaded by one query per edge for that row alone. */
  ghost function Lazy(q: Query, row: Row): Tree
    decreases Depth(q), 1
  {
    Tree(EntityOf(SpecColumns(q), row),
         Edges(LazyGroups(q, row), LazyProxy(q, row), LazyParent(q, row), LazyChildren(q, row),
               LazyUsageLogs(q, row), LazyAccountGroups(q, row), Requested(q)))
  }

  ghost function LazyGroups(q: Query, row: Row): seq<Group> {
    if q.withGroups.None? then [] else GroupsOf(GroupRows(q.withGroups.value, [row.ID()]))
  }

  ghost function LazyProxy(q: Query, row: Row): Option<Proxy> {
    if q.withProxy.None? || row.ForeignKey(ProxyID).None? then None
    else Last(Proxies(q.withProxy.value, [row.ForeignKey(ProxyID).value]))
  }

  ghost function LazyParent(q: Query, row: Row): Option<Tree>
    decreases Depth(q), 0
  {
    if q.withParent.None? || row.ForeignKey(ParentAccountID).None? then None
    else LazyLast(q.withParent.value, q.withParent.value.fetch(IDIn([row.ForeignKey(ParentAccountID).value])))
  }

  ghost function LazyLast(p: Query, rows: seq<Row>): Option<Tree>
    decreases Depth(p), 2
  {
    if rows == [] then None else Some(Lazy(p, rows[|rows| - 1]))
  }

  ghost function LazyChildren(q: Query, row: Row): seq<Tree>
    decreases Depth(q), 0
  {
    if q.withChildren.None? then []
    else LazyAll(WithForeignKey(q.withChildren.value), q.withChildren.value.fetch(ParentIn([row.ID()])))
  }

  ghost function LazyAll(q: Query, rows: seq<Row>): seq<Tree>
    decreases Depth(q), 2
  {
    seq(|rows|, i requires 0 <= i < |rows| => Lazy(q, rows[i]))
  }

  ghost function LazyUsageLogs(q: Query, row: Row): seq<UsageLog> {
    if q.withUsageLogs.None? then [] else UsageLogs(q.withUsageLogs.value, [row.ID()])
  }

  ghost function LazyAccountGroups(q: Query, row: Row): seq<AccountGroup> {
    if q.withAccountGroups.None? then [] else AccountGroups(q.withAccountGroups.value, [row.ID()])
  }

  function GroupsOf(rows: seq<GroupRow>): seq<Group> {
    seq(|rows|, i requires 0 <= i < |rows| => rows[i].group)
  }

  function AccountIDs(rows: seq<GroupRow>): (r: seq<int>)
    ensures |r| == |rows|
  {
    seq(|rows|, i requires 0 <= i < |rows| => rows[i].accountID)
  }

  /** The database side of the law: ids are primary keys, and asking for several keys at once and keeping
      the rows of one of them is asking for that one. Row limits break this, see module EagerLimit. */
  ghost predicate Pointwise(q: Query)
    decreases Depth(q), 1
  {
    && (forall f: InFilter :: Distinct(RowIDs(q.fetch(f))))
    && (forall ids: seq<int>, k :: k in ids ==>
          Select(RowIDs(q.fetch(IDIn(ids))), q.fetch(IDIn(ids)), k) == q.fetch(IDIn([k])))
    && (forall ids: seq<int>, k :: k in ids ==>
          Select(RowKeys(q.fetch(ParentIn(ids)), ParentAccountID), q.fetch(ParentIn(ids)), Some(k))
            == q.fetch(ParentIn([k])))
    && PointwiseBelow(q)
  }

  /** The same of the queries of the edges only. */
  ghost predicate PointwiseBelow(q: Query)
    decreases Depth(q), 0
  {
    && (q.withGroups.Some? ==> PointwiseGroups(q.withGroups.value))
    && (q.withProxy.Some? ==> var p := q.withProxy.value;
          forall ids: seq<int>, k :: k in ids ==> Select(ProxyIDs(p.fetch(ids)), p.fetch(ids), k) == p.fetch([k]))
    && (q.withParent.Some? ==> Pointwise(q.withParent.value))
    && (q.withChildren.Some? ==> Pointwise(q.withChildren.value))
    && (q.withUsageLogs.Some? ==> var u := q.withUsageLogs.value;
          forall ids: seq<int>, k :: k in ids ==>
            Select(UsageLogKeys(u.fetch(ids)), u.fetch(ids), Some(k)) == u.fetch([k]))
    && (q.withAccountGroups.Some? ==> var a := q.withAccountGroups.value;
          forall ids: seq<int>, k :: k in ids ==>
            Select(AccountGroupKeys(a.fetch(ids)), a.fetch(ids), Some(k)) == a.fetch([k]))
  }

  /** No interceptor, and join rows that are sorted by group. */
  ghost predicate PointwiseGroups(g: GroupQuery) {
    && (forall ns: seq<Group> :: g.intercept(ns) == ns)
    && (forall ids: seq<int> :: SortedByGroup(g.fetch(ids)) && JoinTable(g.fetch(ids)))
    && (forall ids: seq<int>, k :: k in ids ==> Select(AccountIDs(g.fetch(ids)), g.fetch(ids), k) == g.fetch([k]))
  }

  /** The rows of a group stand together, as they do under any strict order on groups: a group seen
      before is the group of the row just before. */
  ghost predicate SortedByGroup(rows: seq<GroupRow>) {
    forall k :: 0 < k < |rows| && HasGroup(rows[..k], rows[k].group.ID) ==> rows[k-1].group.ID == rows[k].group.ID
  }

  /** A pair is joined once, and an id is one group. */
  ghost predicate JoinTable(rows: seq<GroupRow>) {
    && (forall k :: 0 <= k < |rows| ==> !Linked(rows[..k], rows[k].accountID, rows[k].group.ID))
    && (forall r, r' :: r in rows && r' in rows && r.group.ID == r'.group.ID ==> r.group == r'.group)
  }

  // ------------------------------------------------------------------ per edge

  lemma ProxyIsLazy(p: ProxyQuery, fks: seq<Option<int>>, i: nat)
    requires forall ids: seq<int>, k :: k in ids ==> Select(ProxyIDs(p.fetch(ids)), p.fetch(ids), k) == p.fetch([k])
    requires i < |fks| && JoinProxy(p, fks).Success?
    ensures JoinProxy(p, fks).value[i] == if fks[i].None? then None else Last(Proxies(p, [fks[i].value]))
  {
    if fks[i].Some? {
      var k, rows, ns := fks[i].value, p.fetch(Wanted(fks)), Proxies(p, Wanted(fks));
      KeyIsWanted(fks, i);
      assert ProxyIDs(ns) == ProxyIDs(rows);
      LastMatchIsLast(ProxyIDs(ns), ns, k);
      SelectMap(ProxyIDs(rows), rows, ns, k, (r: Proxy) => ScanProxy(p.fields, r));
      assert Select(ProxyIDs(rows), ns, k) == Proxies(p, [k]);
    }
  }

  lemma LogsAreLazy(u: UsageLogQuery, ids: seq<int>, i: nat)
    requires forall ids: seq<int>, k :: k in ids ==>
      Select(UsageLogKeys(u.fetch(ids)), u.fetch(ids), Some(k)) == u.fetch([k])
    requires i < |ids| && Distinct(ids) && JoinUsageLogs(u, ids).Success?
    ensures JoinUsageLogs(u, ids).value[i] == UsageLogs(u, [ids[i]])
  {
    UsageLogKeysKept(u, ids);
    var fields := SelectAlso(u.fields, "account_id");
    SelectMap(UsageLogKeys(u.fetch(ids)), u.fetch(ids), UsageLogs(u, ids), Some(ids[i]),
              (r: UsageLog) => ScanUsageLog(fields, r));
    assert LastIndex(ids, ids[i]) == i;
  }

  lemma AccountGroupsAreLazy(a: AccountGroupQuery, ids: seq<int>, i: nat)
    requires forall ids: seq<int>, k :: k in ids ==>
      Select(AccountGroupKeys(a.fetch(ids)), a.fetch(ids), Some(k)) == a.fetch([k])
    requires i < |ids| && Distinct(ids) && JoinAccountGroups(a, ids).Success?
    ensures JoinAccountGroups(a, ids).value[i] == AccountGroups(a, [ids[i]])
  {
    assert LastIndex(ids, ids[i]) == i;
    AccountGroupsSelected(a, a.fetch(ids), ids[i]);
  }

  /** Keeping the rows of one account commutes with the selection and with the merging. */
  lemma AccountGroupsSelected(a: AccountGroupQuery, rows: seq<AccountGroup>, id: int)
    ensures OwnRows(SelectedAccountGroups(a, rows), id) == SelectedAccountGroups(a, OwnRows(rows, id))
  {
    var fields := SelectAlso(a.fields, "account_id");
    var scanned, own := ScanAccountGroups(fields, rows), OwnRows(rows, id);
    assert AccountGroupKeys(scanned) == AccountGroupKeys(rows);
    SelectMap(AccountGroupKeys(rows), rows, scanned, Some(id), (r: AccountGroup) => ScanAccountGroup(fields, r));
    assert OwnRows(scanned, id) == ScanAccountGroups(fields, own);
    MergedSelect(scanned, id);
  }

  function OwnRows(xs: seq<AccountGroup>, id: int): seq<AccountGroup> {
    Select(AccountGroupKeys(xs), xs, Some(id))
  }

  lemma OwnRowsSnoc(xs: seq<AccountGroup>, x: AccountGroup, id: int)
    ensures OwnRows(xs + [x], id) == OwnRows(xs, id) + if x.AccountID == id then [x] else []
  {
    assert (xs + [x])[..|xs|] == xs && AccountGroupKeys(xs + [x])[..|xs|] == AccountGroupKeys(xs);
  }

  lemma {:induction false} OwnRowsMembers(xs: seq<AccountGroup>, id: int)
    ensures forall x :: x in OwnRows(xs, id) <==> x in xs && x.AccountID == id
  {
    if xs != [] {
      var n := |xs| - 1;
      OwnRowsMembers(xs[..n], id);
      assert xs == xs[..n] + [xs[n]];
      OwnRowsSnoc(xs[..n], xs[n], id);
    }
  }

  lemma {:induction false} MergedSelect(xs: seq<AccountGroup>, id: int)
    ensures OwnRows(Merged(xs), id) == Merged(OwnRows(xs, id))
  {
    if xs != [] {
      var before, x := xs[..|xs| - 1], xs[|xs| - 1];
      assert xs == before + [x];
      MergedSelect(before, id);
      OwnRowsMembers(before, id);
      OwnRowsSnoc(before, x, id);
      MergedSnoc(before, x);
      OwnRowsSnoc(Merged(before), x, id);
      MergedSnoc(OwnRows(before, id), x);
      if x in before {
        assert Merged(xs) == Merged(before);
      } else {
        assert Merged(xs) == Merged(before) + [x];
      }
      if x.AccountID != id {
        assert OwnRows(xs, id) == OwnRows(before, id);
      }
    }
  }

  lemma MergedSnoc<T>(xs: seq<T>, x: T)
    ensures Merged(xs + [x]) == Merged(xs) + if x in xs then [] else [x]
  {
    assert (xs + [x])[..|xs|] == xs;
  }

  // -------------------------------------------------------------- many to many

  lemma SortedPrefix(rows: seq<GroupRow>)
    requires rows != [] && SortedByGroup(rows) && JoinTable(rows)
    ensures var p := rows[..|rows| - 1]; SortedByGroup(p) && JoinTable(p)
  {
    var p := rows[..|rows| - 1];
    assert forall k :: 0 <= k <= |p| ==> p[..k] == rows[..k];
    assert forall r :: r in p ==> r in rows;
  }

  /** In sorted rows the group of the last row is the last one scanned. */
  lemma {:induction false} LastScanned(rows: seq<GroupRow>)
    requires rows != [] && SortedByGroup(rows) && JoinTable(rows)
    ensures var s := Scanned(rows); s != [] && s[|s| - 1] == rows[|rows| - 1].group
  {
    var m := |rows| - 1;
    if HasGroup(rows[..m], rows[m].group.ID) {
      assert m > 0;
      assert rows[m-1] in rows && rows[m] in rows;
      SortedPrefix(rows);
      LastScanned(rows[..m]);
    }
  }

  lemma {:induction false} LinkedGroupsUnlinked(rows: seq<GroupRow>, extra: GroupRow, id: int, ns: seq<Group>)
    requires extra.accountID != id || forall n :: n in ns ==> n.ID != extra.group.ID
    ensures LinkedGroups(rows + [extra], id, ns) == LinkedGroups(rows, id, ns)
  {
    if ns != [] {
      var m := |ns| - 1;
      LinkedGroupsUnlinked(rows, extra, id, ns[..m]);
      assert ns[m] in ns;
      assert Linked(rows + [extra], id, ns[m].ID) <==> Linked(rows, id, ns[m].ID) by {
        assert forall r :: r in rows + [extra] <==> r in rows || r == extra;
      }
    }
  }

  predicate OneEach(ns: seq<Group>) {
    forall i, j :: 0 <= i < j < |ns| ==> ns[i].ID != ns[j].ID
  }

  lemma OneEachSnoc(ns: seq<Group>, n: Group)
    requires OneEach(ns) && forall x :: x in ns ==> x.ID != n.ID
    ensures OneEach(ns + [n])
  {
  }

  lemma {:induction false} ScannedOnce(rows: seq<GroupRow>)
    ensures OneEach(Scanned(rows))
  {
    if rows != [] {
      var m := |rows| - 1;
      ScannedOnce(rows[..m]);
      if !HasGroup(rows[..m], rows[m].group.ID) {
        ScannedGroups(rows[..m]);
        OneEachSnoc(Scanned(rows[..m]), rows[m].group);
      }
    }
  }

  lemma NewGroupStep(before: seq<GroupRow>, r: GroupRow, id: int)
    requires !HasGroup(before, r.group.ID)
    ensures LinkedGroups(before + [r], id, Scanned(before + [r]))
         == LinkedGroups(before, id, Scanned(before)) + if r.accountID == id then [r.group] else []
  {
    var rows, s := before + [r], Scanned(before);
    ScannedGroups(before);
    LinkedGroupsUnlinked(before, r, id, s);
    assert rows[..|before|] == before && (s + [r.group])[..|s|] == s;
    assert Scanned(rows) == s + [r.group];
    assert r in rows;
    assert forall x :: x in before ==> x.group.ID != r.group.ID;
    assert Linked(rows, id, r.group.ID) <==> r.accountID == id;
  }

  lemma OldGroupStep(before: seq<GroupRow>, r: GroupRow, id: int)
    requires HasGroup(before, r.group.ID) && !Linked(before, r.accountID, r.group.ID)
    requires var s := Scanned(before); s != [] && s[|s| - 1] == r.group
    ensures LinkedGroups(before + [r], id, Scanned(before + [r]))
         == LinkedGroups(before, id, Scanned(before)) + if r.accountID == id then [r.group] else []
  {
    var rows, s := before + [r], Scanned(before);
    assert rows[..|before|] == before;
    assert Scanned(rows) == s;
    if r.accountID != id {
      LinkedGroupsUnlinked(before, r, id, s);
    } else {
      var n := |s| - 1;
      ScannedOnce(before);
      LinkedGroupsUnlinked(before, r, id, s[..n]);
      assert r in rows && Linked(rows, id, s[n].ID);
    }
  }

  lemma OwnGroupsSnoc(before: seq<GroupRow>, r: GroupRow, id: int)
    ensures GroupsOf(Select(AccountIDs(before + [r]), before + [r], id))
         == GroupsOf(Select(AccountIDs(before), before, id)) + if r.accountID == id then [r.group] else []
  {
    var rows := before + [r];
    assert rows[..|before|] == before && AccountIDs(rows)[..|before|] == AccountIDs(before);
  }

  /** From sorted join rows, an account gets the groups of its own rows, in its own rows' order. */
  lemma {:induction false} GroupsInRowOrder(rows: seq<GroupRow>, id: int)
    requires SortedByGroup(rows) && JoinTable(rows)
    ensures LinkedGroups(rows, id, Scanned(rows)) == GroupsOf(Select(AccountIDs(rows), rows, id))
  {
    if rows != [] {
      var m := |rows| - 1;
      var before, r := rows[..m], rows[m];
      SortedPrefix(rows);
      GroupsInRowOrder(before, id);
      assert rows == before + [r];
      OwnGroupsSnoc(before, r, id);
      if !HasGroup(before, r.group.ID) {
        NewGroupStep(before, r, id);
      } else {
        LastScanned(rows);
        OldGroupStep(before, r, id);
      }
    }
  }

  lemma GroupsAreLazy(g: GroupQuery, ids: seq<int>, i: nat)
    requires PointwiseGroups(g) && i < |ids| && Distinct(ids) && JoinGroups(g, ids).Success?
    ensures JoinGroups(g, ids).value[i] == GroupsOf(GroupRows(g, [ids[i]]))
  {
    assert LastIndex(ids, ids[i]) == i;
    var raw, rows := g.fetch(ids), GroupRows(g, ids);
    ScannedRowsAreSorted(g.fields, raw);
    GroupsInRowOrder(rows, ids[i]);
    assert AccountIDs(rows) == AccountIDs(raw);
    SelectMap(AccountIDs(raw), raw, rows, ids[i], (r: GroupRow) => r.(group := ScanGroup(g.fields, r.group)));
    assert Select(AccountIDs(rows), rows, ids[i]) == GroupRows(g, [ids[i]]);
  }

  /** Scanning keeps the ids of rows, and so their order and the links they stand for. */
  lemma ScannedLinks(fields: seq<string>, raw: seq<GroupRow>)
    ensures var rows := ScanGroupData(fields, raw);
      && (forall id :: HasGroup(rows, id) <==> HasGroup(raw, id))
      && (forall a, id :: Linked(rows, a, id) <==> Linked(raw, a, id))
  {
    var rows := ScanGroupData(fields, raw);
    forall r | r in raw
      ensures exists x :: x in rows && x.accountID == r.accountID && x.group.ID == r.group.ID
    {
      var i :| 0 <= i < |raw| && raw[i] == r;
      assert rows[i] in rows;
    }
    forall x | x in rows
      ensures exists r :: r in raw && x.accountID == r.accountID && x.group.ID == r.group.ID
    {
      var i :| 0 <= i < |rows| && rows[i] == x;
      assert raw[i] in raw;
    }
  }

  lemma ScannedRowsAreSorted(fields: seq<string>, raw: seq<GroupRow>)
    requires SortedByGroup(raw) && JoinTable(raw)
    ensures SortedByGroup(ScanGroupData(fields, raw)) && JoinTable(ScanGroupData(fields, raw))
  {
    var rows := ScanGroupData(fields, raw);
    forall k | 0 <= k < |rows|
      ensures HasGroup(rows[..k], rows[k].group.ID) <==> HasGroup(raw[..k], raw[k].group.ID)
      ensures !Linked(rows[..k], rows[k].accountID, rows[k].group.ID)
    {
      ScannedPrefix(fields, raw, k);
    }
    ScannedOneGroup(fields, raw);
  }

  lemma ScannedPrefix(fields: seq<string>, raw: seq<GroupRow>, k: nat)
    requires k < |raw|
    ensures var rows := ScanGroupData(fields, raw);
      && (HasGroup(rows[..k], rows[k].group.ID) <==> HasGroup(raw[..k], raw[k].group.ID))
      && (Linked(rows[..k], rows[k].accountID, rows[k].group.ID)
          <==> Linked(raw[..k], raw[k].accountID, raw[k].group.ID))
  {
    assert ScanGroupData(fields, raw)[..k] == ScanGroupData(fields, raw[..k]);
    ScannedLinks(fields, raw[..k]);
  }

  lemma ScannedOneGroup(fields: seq<string>, raw: seq<GroupRow>)
    requires forall r, r' :: r in raw && r' in raw && r.group.ID == r'.group.ID ==> r.group == r'.group
    ensures var rows := ScanGroupData(fields, raw);
      forall r, r' :: r in rows && r' in rows && r.group.ID == r'.group.ID ==> r.group == r'.group
  {
    var rows := ScanGroupData(fields, raw);
    forall x, y | x in rows && y in rows && x.group.ID == y.group.ID
      ensures x.group == y.group
    {
      var i :| 0 <= i < |rows| && rows[i] == x;
      var j :| 0 <= j < |rows| && rows[j] == y;
      assert raw[i] in raw && raw[j] in raw;
    }
  }

  // ------------------------------------------------------------ the whole query

  lemma LastIsLazy(p: Query, rows: seq<Row>, ts: seq<Tree>, k: int)
    requires ts == LazyAll(p, rows)
    ensures LastMatch(RowIDs(rows), ts, k) == LazyLast(p, Select(RowIDs(rows), rows, k))
  {
    SelectMap(RowIDs(rows), rows, ts, k, (r: Row) => Lazy(p, r));
    LastMatchIsLast(RowIDs(rows), ts, k);
  }

  lemma {:induction false} ParentIsLazy(p: Query, fks: seq<Option<int>>, i: nat)
    requires Sound(p) && Pointwise(p) && i < |fks| && EvalParents(p, fks).Success?
    ensures EvalParents(p, fks).value[i] ==
      if fks[i].None? then None else LazyLast(p, p.fetch(IDIn([fks[i].value])))
    decreases Depth(p), 3
  {
    PointwiseByID(p, Wanted(fks), if fks[i].Some? then fks[i].value else 0);
    ParentIsMatch(p, fks, i);
    KeyIsWanted(fks, i);
  }

  lemma PointwiseByID(q: Query, ids: seq<int>, k: int)
    requires Pointwise(q)
    ensures PointwiseBelow(q) && Distinct(RowIDs(q.fetch(IDIn(ids))))
    ensures k in ids ==> Select(RowIDs(q.fetch(IDIn(ids))), q.fetch(IDIn(ids)), k) == q.fetch(IDIn([k]))
  {
  }

  /** The parent of a node is the row found for its key, with its own edges loaded lazily. */
  lemma {:induction false} ParentIsMatch(p: Query, fks: seq<Option<int>>, i: nat)
    requires Sound(p) && PointwiseBelow(p) && Distinct(RowIDs(p.fetch(IDIn(Wanted(fks)))))
    requires i < |fks| && EvalParents(p, fks).Success?
    ensures var rows := p.fetch(IDIn(Wanted(fks)));
      EvalParents(p, fks).value[i] ==
        if fks[i].None? then None else LazyLast(p, Select(RowIDs(rows), rows, fks[i].value))
    decreases Depth(p), 2
  {
    if fks[i].Some? {
      var f := IDIn(Wanted(fks));
      ParentLookup(p, fks, i);
      RowsAreLazy(p, f);
      TreesOfRows(p, f);
      LastIsLazy(p, p.fetch(f), Eval(p, f).value, fks[i].value);
    }
  }

  lemma ParentLookup(p: Query, fks: seq<Option<int>>, i: nat)
    requires i < |fks| && fks[i].Some? && EvalParents(p, fks).Success?
    ensures var r := Eval(p, IDIn(Wanted(fks)));
      r.Success? && EvalParents(p, fks).value[i] == LastMatch(TreeIDs(r.value), r.value, fks[i].value)
  {
    KeyIsWanted(fks, i);
  }

  lemma SelectIsLazy(c: Query, rows: seq<Row>, ts: seq<Tree>, id: int)
    requires ts == LazyAll(c, rows)
    ensures var keys := RowKeys(rows, ParentAccountID);
      Select(keys, ts, Some(id)) == LazyAll(c, Select(keys, rows, Some(id)))
  {
    SelectMap(RowKeys(rows, ParentAccountID), rows, ts, Some(id), (r: Row) => Lazy(c, r));
  }

  lemma {:induction false} ChildrenAreLazy(q: Query, ids: seq<int>, i: nat)
    requires Sound(q) && Pointwise(q) && i < |ids| && Distinct(ids) && EvalChildren(q, ids).Success?
    ensures EvalChildren(q, ids).value[i] == LazyAll(WithForeignKey(q), q.fetch(ParentIn([ids[i]])))
    decreases Depth(q), 3
  {
    ChildrenAreShares(q, ids, i);
  }

  /** The children of a node are its share of the rows found, each with its own edges loaded lazily. */
  lemma {:induction false} ChildrenAreShares(q: Query, ids: seq<int>, i: nat)
    requires Sound(q) && PointwiseBelow(q) && Distinct(RowIDs(q.fetch(ParentIn(ids))))
    requires i < |ids| && Distinct(ids) && EvalChildren(q, ids).Success?
    ensures var rows := q.fetch(ParentIn(ids));
      EvalChildren(q, ids).value[i]
        == LazyAll(WithForeignKey(q), Select(RowKeys(rows, ParentAccountID), rows, Some(ids[i])))
    decreases Depth(q), 2
  {
    var c, f := WithForeignKey(q), ParentIn(ids);
    SoundWithForeignKey(q);
    RowsAreLazy(c, f);
    TreesOfRows(c, f);
    assert LastIndex(ids, ids[i]) == i;
    SelectIsLazy(c, c.fetch(f), Eval(c, f).value, ids[i]);
  }

  /** Every edge of one node. */
  lemma {:induction false} EdgesAreLazy(q: Query, rows: seq<Row>, i: nat)
    requires Sound(q) && PointwiseBelow(q) && Distinct(RowIDs(rows)) && i < |rows|
    requires Joined(q, Entities(SpecColumns(q), rows)).Success?
    ensures Joined(q, Entities(SpecColumns(q), rows)).value[i] == Lazy(q, rows[i])
    decreases Depth(q), 0
  {
    var es := Entities(SpecColumns(q), rows);
    JoinKeysAreRowKeys(q, rows);
    assert GroupsEdge(q, es).value[i] == LazyGroups(q, rows[i]) by {
      if q.withGroups.Some? { GroupsAreLazy(q.withGroups.value, IDs(es), i); }
    }
    assert ProxyEdge(q, es).value[i] == LazyProxy(q, rows[i]) by {
      if q.withProxy.Some? { ProxyIsLazy(q.withProxy.value, ForeignKeys(es, ProxyID), i); }
    }
    assert ParentEdge(q, es).value[i] == LazyParent(q, rows[i]) by {
      if q.withParent.Some? { ParentIsLazy(q.withParent.value, ForeignKeys(es, ParentAccountID), i); }
    }
    assert ChildrenEdge(q, es).value[i] == LazyChildren(q, rows[i]) by {
      if q.withChildren.Some? { ChildrenAreLazy(q.withChildren.value, IDs(es), i); }
    }
    assert UsageLogsEdge(q, es).value[i] == LazyUsageLogs(q, rows[i]) by {
      if q.withUsageLogs.Some? { LogsAreLazy(q.withUsageLogs.value, IDs(es), i); }
    }
    assert AccountGroupsEdge(q, es).value[i] == LazyAccountGroups(q, rows[i]) by {
      if q.withAccountGroups.Some? { AccountGroupsAreLazy(q.withAccountGroups.value, IDs(es), i); }
    }
  }

  /** Eager loading refines lazy loading: every node of a result carries, at every level, exactly the edges
      that one query per edge for that node alone would have loaded. */
  lemma {:induction false} EagerIsLazy(q: Query, f: InFilter)
    requires Sound(q) && Pointwise(q)
    ensures Eval(q, f) == Success(LazyAll(q, q.fetch(f)))
    decreases Depth(q), 2
  {
    RowsAreLazy(q, f);
  }

  /** Whatever rows a query finds, each carries the edges that would have been loaded for it alone. */
  lemma {:induction false} RowsAreLazy(q: Query, f: InFilter)
    requires Sound(q) && PointwiseBelow(q) && Distinct(RowIDs(q.fetch(f)))
    ensures Eval(q, f) == Success(LazyAll(q, q.fetch(f)))
    decreases Depth(q), 1
  {
    SoundQueriesSucceed(q, f);
    NoInvalidField(q.fields);
    var rows := q.fetch(f);
    if rows != [] {
      forall i | 0 <= i < |rows|
        ensures Eval(q, f).value[i] == Lazy(q, rows[i])
      {
        EdgesAreLazy(q, rows, i);
      }
    }
    assert |LazyAll(q, rows)| == |rows|;
    assert Eval(q, f).value == LazyAll(q, rows);
  }
}
