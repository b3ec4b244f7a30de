/** Laws of eager loading: what is selected, which keys survive every selection, and when a query cannot fail. */
module EagerLaws {
  import opened Sequences
  import opened AccountEntity
  import opened EagerSpec

  // ------------------------------------------- what scanning keeps of a row

  /** What a field holds of a cell: the cell itself, but a nil map of JSON null and of no bytes. */
  function Held(cell: Option<Value>): Option<Value> {
    if cell.Some? && cell.value.JsonV? && !cell.value.json.Object? then None else cell
  }

  /** Scanning a cell into a field that was blank, or into which it was scanned before. */
  lemma ScannedCell(row: Row, c: Column, before: Option<Value>)
    requires !c.Other? && (before == None || before == Held(Get(row.cells, c)))
    ensures Updated(c, Scan(NewHolder(c), Get(row.cells, c)), before) == Held(Get(row.cells, c))
  {
    if c in row.cells {
      CellOfType(c, row.cells[c], before);
    }
  }

  lemma CellOfType(c: Column, v: Value, before: Option<Value>)
    requires !c.Other? && HasType(c, v) && !(v.JsonV? && v.json.Undecodable?)
    requires before == None || before == Held(Some(v))
    ensures Updated(c, Scan(NewHolder(c), Some(v)), before) == Held(Some(v))
  {
    if v.JsonV? && v.json.Object? {
      assert map[] + v.json.members == v.json.members == v.json.members + v.json.members;
    }
  }

  lemma PrefixStep<T>(xs: seq<T>, k: nat, x: T)
    requires 0 < k <= |xs|
    ensures xs[..k][..k-1] == xs[..k-1]
    ensures x in xs[..k] <==> x in xs[..k-1] || x == xs[k-1]
  {
    assert xs[..k] == xs[..k-1] + [xs[k-1]];
  }

  lemma {:induction false} ScannedColumns(columns: seq<Column>, row: Row, c: Column, k: nat)
    requires !c.Other? && k <= |columns|
    ensures FieldAfter(BLANK, columns[..k], ScanRow(columns, row), c)
         == if c in columns[..k] then Held(Get(row.cells, c)) else None
  {
    if k > 0 {
      ScannedColumns(columns, row, c, k - 1);
      PrefixStep(columns, k, c);
      if columns[k-1] == c {
        ScannedCell(row, c, FieldAfter(BLANK, columns[..k-1], ScanRow(columns, row), c));
      }
    }
  }

  /** A scanned entity holds the row's own cells in the columns that were selected, however often each is listed,
      and nothing in the others; names outside the schema are kept apart, with the raw value. */
  lemma EntityHolds(columns: seq<Column>, row: Row, c: Column, name: string)
    ensures var e := EntityOf(columns, row);
      && Get(e.fields, c) == (if c in columns && !c.Other? then Held(Get(row.cells, c)) else None)
      && Get(e.selectValues, name)
         == if Other(name) in columns then Some(UnknownType(Get(row.cells, Other(name)))) else None
  {
    AssignAllSucceedsIff(BLANK, columns, ScanRow(columns, row));
    AssignedFields(BLANK, columns, ScanRow(columns, row), c, name);
    assert columns[..|columns|] == columns;
    if c.Other? {
      NoFieldOutsideSchema(columns, row, c, |columns|);
    } else {
      ScannedColumns(columns, row, c, |columns|);
    }
    ScannedOthers(columns, row, name, |columns|);
  }

  lemma {:induction false} NoFieldOutsideSchema(columns: seq<Column>, row: Row, c: Column, k: nat)
    requires c.Other? && k <= |columns|
    ensures FieldAfter(BLANK, columns[..k], ScanRow(columns, row), c) == None
  {
    if k > 0 {
      NoFieldOutsideSchema(columns, row, c, k - 1);
      assert columns[..k][..k-1] == columns[..k-1];
    }
  }

  lemma {:induction false} ScannedOthers(columns: seq<Column>, row: Row, name: string, k: nat)
    requires k <= |columns|
    ensures SelectValueAfter(BLANK, columns[..k], ScanRow(columns, row), name)
         == if Other(name) in columns[..k] then Some(UnknownType(Get(row.cells, Other(name)))) else None
  {
    if k > 0 {
      ScannedOthers(columns, row, name, k - 1);
      PrefixStep(columns, k, Other(name));
    }
  }

  /** Ids survive every selection; a foreign key survives exactly when its column is selected. */
  lemma ScannedKeys(columns: seq<Column>, row: Row)
    requires Id in columns
    ensures EntityOf(columns, row).ID() == row.ID()
    ensures forall c :: c == ProxyID || c == ParentAccountID ==>
      EntityOf(columns, row).ForeignKey(c) == if c in columns then row.ForeignKey(c) else None
  {
    forall c | c == ProxyID || c == ParentAccountID || c == Id
      ensures Get(EntityOf(columns, row).fields, c) == if c in columns then Get(row.cells, c) else None
    {
      EntityHolds(columns, row, c, "");
    }
  }

  lemma SpecColumnsHaveKeys(q: Query)
    ensures Id in SpecColumns(q)
    ensures q.withProxy.Some? ==> ProxyID in SpecColumns(q)
    ensures q.withParent.Some? || ParentAccountID in q.fields || q.fields == [] ==> ParentAccountID in SpecColumns(q)
  {
    if q.fields == [] {
      assert COLUMNS[0] == Id && COLUMNS[11] == ProxyID && COLUMNS[31] == ParentAccountID;
    } else {
      assert ([Id] + Without(q.fields, Id))[0] == Id;
    }
  }

  /** What is selected: the id first, the chosen columns, and the foreign keys of requested many-to-one edges;
      nothing else, and each once when the choice lists each once. */
  lemma SpecColumnsAre(q: Query)
    requires q.fields != []
    ensures SpecColumns(q) != [] && SpecColumns(q)[0] == Id
    ensures forall c :: c in SpecColumns(q) <==>
      c == Id || c in q.fields || (c == ProxyID && q.withProxy.Some?) || (c == ParentAccountID && q.withParent.Some?)
    ensures Distinct(q.fields) ==> Distinct(SpecColumns(q))
  {
    var base := [Id] + Without(q.fields, Id);
    assert base[0] == Id && Id in base;
    assert forall c :: c in q.fields <==> c in Without(q.fields, Id) || (c == Id && Id in q.fields);
    if Distinct(q.fields) {
      WithoutIsDistinct(q.fields, Id);
      forall i, j | 0 <= i < j < |base| ensures base[i] != base[j] {
        assert base[j] == Without(q.fields, Id)[j-1];
        assert base[j] in Without(q.fields, Id);
      }
      AppendOnceIsDistinct(base, ProxyID);
      AppendOnceIsDistinct(base, ParentAccountID);
      AppendOnceIsDistinct(AppendOnce(base, ProxyID), ParentAccountID);
    }
  }

  lemma AppendOnceIsDistinct<T>(xs: seq<T>, x: T)
    requires Distinct(xs)
    ensures Distinct(AppendOnce(xs, x))
  {
    var r := AppendOnce(xs, x);
    forall i, j | 0 <= i < j < |r| ensures r[i] != r[j] {
      assert r[i] in xs;
    }
  }

  lemma {:induction false} WithoutIsDistinct<T(!new)>(xs: seq<T>, x: T)
    requires Distinct(xs)
    ensures Distinct(Without(xs, x))
  {
    if xs != [] {
      var n := |xs| - 1;
      WithoutIsDistinct(xs[..n], x);
      if xs[n] != x {
        assert xs[n] !in xs[..n];
        AppendOnceIsDistinct(Without(xs[..n], x), xs[n]);
      }
    }
  }

  function RowIDs(rows: seq<Row>): (r: seq<int>)
    ensures |r| == |rows|
  {
    seq(|rows|, i requires 0 <= i < |rows| => rows[i].ID())
  }

  function RowKeys(rows: seq<Row>, c: Column): (r: seq<Option<int>>)
    ensures |r| == |rows|
  {
    seq(|rows|, i requires 0 <= i < |rows| => rows[i].ForeignKey(c))
  }

  /** The keys the joins work on are the rows' own keys, whatever was selected. */
  lemma JoinKeysAreRowKeys(q: Query, rows: seq<Row>)
    ensures var es := Entities(SpecColumns(q), rows);
      && IDs(es) == RowIDs(rows)
      && (q.withProxy.Some? ==> ForeignKeys(es, ProxyID) == RowKeys(rows, ProxyID))
      && (q.withParent.Some? || ParentAccountID in q.fields || q.fields == [] ==>
            ForeignKeys(es, ParentAccountID) == RowKeys(rows, ParentAccountID))
  {
    SpecColumnsHaveKeys(q);
    forall i | 0 <= i < |rows|
      ensures EntityOf(SpecColumns(q), rows[i]).ID() == rows[i].ID()
      ensures forall c :: c == ProxyID || c == ParentAccountID ==>
        EntityOf(SpecColumns(q), rows[i]).ForeignKey(c)
          == if c in SpecColumns(q) then rows[i].ForeignKey(c) else None
    {
      ScannedKeys(SpecColumns(q), rows[i]);
    }
  }

  // --------------------------------------------------------- when loads succeed

  predicate Admits(f: InFilter, r: Row) {
    match f
    case Everything => true
    case IDIn(ids) => r.ID() in ids
    case ParentIn(fks) => r.ForeignKey(ParentAccountID).Some? && r.ForeignKey(ParentAccountID).value in fks
  }

  /** Neither the query nor one of its edges fails by itself. */
  predicate NothingFails(q: Query) {
    && q.refusal == None && q.failure == None
    && (q.withGroups.Some? ==> q.withGroups.value.failure == None)
    && (q.withProxy.Some? ==> q.withProxy.value.failure == None)
    && (q.withUsageLogs.Some? ==> q.withUsageLogs.value.failure == None)
    && (q.withAccountGroups.Some? ==> q.withAccountGroups.value.failure == None)
  }

  /** At every level nothing fails by itself, only existing columns are selected, and the database honours
      the added filters. */
  ghost predicate Sound(q: Query)
    decreases Depth(q)
  {
    && (forall c :: c in q.fields ==> ValidColumn(c)) && NothingFails(q)
    && (forall f: InFilter, r :: r in q.fetch(f) ==> Admits(f, r))
    && (q.withGroups.Some? ==> SoundGroups(q.withGroups.value))
    && (q.withProxy.Some? ==> forall ids: seq<int>, p :: p in q.withProxy.value.fetch(ids) ==> p.ID in ids)
    && (q.withParent.Some? ==> Sound(q.withParent.value))
    && (q.withChildren.Some? ==> Sound(q.withChildren.value))
    && (q.withUsageLogs.Some? ==>
          forall ids: seq<int>, u :: u in q.withUsageLogs.value.fetch(ids) ==> u.AccountID in ids)
    && (q.withAccountGroups.Some? ==>
          forall ids: seq<int>, a :: a in q.withAccountGroups.value.fetch(ids) ==> a.AccountID in ids)
  }

  /** Join rows belong to requested accounts, and interceptors invent no groups. */
  ghost predicate SoundGroups(g: GroupQuery) {
    && (forall ids: seq<int>, r :: r in g.fetch(ids) ==> r.accountID in ids)
    && (forall ns: seq<Group>, n :: n in g.intercept(ns) ==> n in ns)
  }

  lemma {:induction false} NoInvalidField(fields: seq<Column>)
    requires forall c :: c in fields ==> ValidColumn(c)
    ensures FirstInvalid(fields) == None
  {
    if fields != [] {
      NoInvalidField(fields[..|fields| - 1]);
    }
  }

  lemma {:induction false} NoStrayIff(fks: seq<Option<int>>, keys: seq<int>)
    ensures FirstStray(fks, keys) == None <==> forall k :: k in keys ==> Some(k) in fks
  {
    if keys != [] {
      var n := |keys| - 1;
      NoStrayIff(fks, keys[..n]);
      assert keys == keys[..n] + [keys[n]];
    }
  }

  lemma {:induction false} NoBadKeyIff(ids: seq<int>, keys: seq<Option<int>>, labels: seq<int>)
    requires |keys| == |labels|
    ensures FirstBadKey(ids, keys, labels) == None <==> forall k :: k in keys ==> k.Some? && k.value in ids
  {
    if keys != [] {
      var n := |keys| - 1;
      NoBadKeyIff(ids, keys[..n], labels[..n]);
      assert keys == keys[..n] + [keys[n]];
    }
  }

  lemma {:induction false} ScannedGroups(rows: seq<GroupRow>)
    ensures forall n :: n in Scanned(rows) ==> HasGroup(rows, n.ID) && exists r :: r in rows && r.group == n
    ensures forall id :: HasGroup(rows, id) ==> exists n :: n in Scanned(rows) && n.ID == id
  {
    if rows != [] {
      var m := |rows| - 1;
      ScannedGroups(rows[..m]);
      assert rows == rows[..m] + [rows[m]];
      forall n | n in Scanned(rows)
        ensures HasGroup(rows, n.ID) && exists r :: r in rows && r.group == n
      {
        if n in Scanned(rows[..m]) {
          var r :| r in rows[..m] && r.group == n;
          assert r in rows;
        } else {
          assert rows[m] in rows && rows[m].group == n;
        }
      }
      forall id | HasGroup(rows, id)
        ensures exists n :: n in Scanned(rows) && n.ID == id
      {
        var r :| r in rows && r.group.ID == id;
        if HasGroup(rows[..m], id) {
          var n :| n in Scanned(rows[..m]) && n.ID == id;
          assert n in Scanned(rows);
        } else {
          assert rows[m].group in Scanned(rows) && r == rows[m];
        }
      }
    }
  }

  lemma {:induction false} NoBadGroup(ids: seq<int>, rows: seq<GroupRow>, ns: seq<Group>)
    requires forall n :: n in ns ==> HasGroup(rows, n.ID)
    requires forall r :: r in rows ==> r.accountID in ids
    ensures FirstBadGroup(ids, rows, ns) == None
  {
    if ns != [] {
      NoBadGroup(ids, rows, ns[..|ns| - 1]);
      assert ns[|ns| - 1] in ns;
    }
  }

  /** A result has one tree per row, carrying the row's id and the request flags. */
  lemma TreesOfRows(q: Query, f: InFilter)
    requires Eval(q, f).Success?
    ensures var ts, rows := Eval(q, f).value, q.fetch(f);
      && |ts| == |rows|
      && TreeIDs(ts) == RowIDs(rows)
      && (q.withParent.Some? || ParentAccountID in q.fields || q.fields == [] ==>
            TreeKeys(ts) == RowKeys(rows, ParentAccountID))
      && forall i :: 0 <= i < |ts| ==> ts[i].edges.loadedTypes == Requested(q)
  {
    var rows := q.fetch(f);
    if rows != [] {
      JoinKeysAreRowKeys(q, rows);
      TreesHold(q, Entities(SpecColumns(q), rows));
    }
  }

  /** The trees of a successful join carry the entities' keys and the request flags. */
  lemma TreesHold(q: Query, es: seq<Entity>)
    requires Joined(q, es).Success?
    ensures var ts := Joined(q, es).value;
      && TreeIDs(ts) == IDs(es) && TreeKeys(ts) == ForeignKeys(es, ParentAccountID)
      && forall i :: 0 <= i < |ts| ==> ts[i].edges.loadedTypes == Requested(q)
  {
    var ts := Joined(q, es).value;
    assert forall i :: 0 <= i < |es| ==> ts[i].entity == es[i];
  }

  predicate EdgesSucceed(q: Query, es: seq<Entity>) {
    && GroupsEdge(q, es).Success? && ProxyEdge(q, es).Success? && ParentEdge(q, es).Success?
    && ChildrenEdge(q, es).Success? && UsageLogsEdge(q, es).Success? && AccountGroupsEdge(q, es).Success?
  }

  /** One node of a successful join, edge by edge. */
  lemma JoinedNode(q: Query, es: seq<Entity>, i: nat)
    requires Joined(q, es).Success? && i < |es|
    ensures EdgesSucceed(q, es)
    ensures Joined(q, es).value[i] == Tree(es[i],
      Edges(GroupsEdge(q, es).value[i], ProxyEdge(q, es).value[i], ParentEdge(q, es).value[i],
            ChildrenEdge(q, es).value[i], UsageLogsEdge(q, es).value[i], AccountGroupsEdge(q, es).value[i],
            Requested(q)))
  {
  }

  lemma SoundWithForeignKey(c: Query)
    requires Sound(c)
    ensures Sound(WithForeignKey(c))
    ensures ParentAccountID in WithForeignKey(c).fields || WithForeignKey(c).fields == []
  {
    assert COLUMNS[31] == ParentAccountID;
  }

  /** When only existing columns are selected and the database honours the added filters, no load fails:
      no nil foreign key, no unexpected key, no unexpected group, no nil node, at any level. */
  lemma {:induction false} SoundQueriesSucceed(q: Query, f: InFilter)
    requires Sound(q)
    ensures Eval(q, f).Success?
    decreases Depth(q), 0
  {
    NoInvalidField(q.fields);
    var rows := q.fetch(f);
    if rows == [] {
      return;
    }
    var es := Entities(SpecColumns(q), rows);
    assert GroupsEdge(q, es).Success? by {
      if q.withGroups.Some? { GroupsEdgeSucceeds(q.withGroups.value, IDs(es)); }
    }
    assert ProxyEdge(q, es).Success? by {
      if q.withProxy.Some? { ProxyEdgeSucceeds(q.withProxy.value, ForeignKeys(es, ProxyID)); }
    }
    assert ParentEdge(q, es).Success? by {
      if q.withParent.Some? { ParentEdgeSucceeds(q.withParent.value, ForeignKeys(es, ParentAccountID)); }
    }
    assert ChildrenEdge(q, es).Success? by {
      if q.withChildren.Some? { ChildrenEdgeSucceeds(q.withChildren.value, IDs(es)); }
    }
    assert UsageLogsEdge(q, es).Success? by {
      if q.withUsageLogs.Some? { UsageLogsEdgeSucceeds(q.withUsageLogs.value, IDs(es)); }
    }
    assert AccountGroupsEdge(q, es).Success? by {
      if q.withAccountGroups.Some? { AccountGroupsEdgeSucceeds(q.withAccountGroups.value, IDs(es)); }
    }
  }

  lemma GroupsEdgeSucceeds(g: GroupQuery, ids: seq<int>)
    requires SoundGroups(g) && g.failure == None
    ensures JoinGroups(g, ids).Success?
  {
    var rows := GroupRows(g, ids);
    forall r | r in rows
      ensures r.accountID in ids
    {
      var i :| 0 <= i < |rows| && rows[i] == r;
      assert g.fetch(ids)[i] in g.fetch(ids);
    }
    ScannedGroups(rows);
    NoBadGroup(ids, rows, g.intercept(Scanned(rows)));
  }

  /** The keys of the loaded logs are the rows' keys: selecting other columns cannot lose them. */
  lemma UsageLogKeysKept(u: UsageLogQuery, ids: seq<int>)
    ensures var ns, rows := UsageLogs(u, ids), u.fetch(ids);
      |ns| == |rows| && UsageLogKeys(ns) == UsageLogKeys(rows) && UsageLogIDs(ns) == UsageLogIDs(rows)
  {
  }

  /** The same before merging; merging equal rows keeps their key. */
  lemma AccountGroupKeysKept(a: AccountGroupQuery, ids: seq<int>)
    ensures var scanned, rows := ScanAccountGroups(SelectAlso(a.fields, "account_id"), a.fetch(ids)), a.fetch(ids);
      && AccountGroupKeys(scanned) == AccountGroupKeys(rows)
      && (forall n :: n in AccountGroups(a, ids) <==> n in scanned)
      && (!a.unique ==> AccountGroups(a, ids) == scanned)
  {
    MergedMembers(ScanAccountGroups(SelectAlso(a.fields, "account_id"), a.fetch(ids)));
  }

  lemma {:induction false} MergedMembers<T(!new)>(xs: seq<T>)
    ensures forall x :: x in Merged(xs) <==> x in xs
  {
    if xs != [] {
      var n := |xs| - 1;
      MergedMembers(xs[..n]);
      assert xs == xs[..n] + [xs[n]];
    }
  }

  lemma UsageLogsEdgeSucceeds(u: UsageLogQuery, ids: seq<int>)
    requires u.failure == None && forall ids: seq<int>, n :: n in u.fetch(ids) ==> n.AccountID in ids
    ensures JoinUsageLogs(u, ids).Success?
  {
    UsageLogKeysKept(u, ids);
    var rows := u.fetch(ids);
    assert forall k :: k in UsageLogKeys(rows) ==> exists i :: 0 <= i < |rows| && k == Some(rows[i].AccountID);
    NoBadKeyIff(ids, UsageLogKeys(UsageLogs(u, ids)), UsageLogIDs(UsageLogs(u, ids)));
  }

  lemma AccountGroupsEdgeSucceeds(a: AccountGroupQuery, ids: seq<int>)
    requires a.failure == None && forall ids: seq<int>, n :: n in a.fetch(ids) ==> n.AccountID in ids
    ensures JoinAccountGroups(a, ids).Success?
  {
    FoundAccountGroupsFit(a, ids);
  }

  lemma FoundAccountGroupsFit(a: AccountGroupQuery, ids: seq<int>)
    requires a.failure == None && forall n :: n in a.fetch(ids) ==> n.AccountID in ids
    ensures JoinAccountGroups(a, ids).Success?
  {
    AccountGroupKeysKept(a, ids);
    var ns, rows := AccountGroups(a, ids), a.fetch(ids);
    var scanned := ScanAccountGroups(SelectAlso(a.fields, "account_id"), rows);
    forall k | k in AccountGroupKeys(ns)
      ensures k.Some? && k.value in ids
    {
      var i :| 0 <= i < |ns| && k == Some(ns[i].AccountID);
      assert ns[i] in scanned;
      var j :| 0 <= j < |scanned| && scanned[j] == ns[i];
      assert AccountGroupKeys(scanned)[j] == AccountGroupKeys(rows)[j];
      assert rows[j] in rows;
    }
    NoBadKeyIff(ids, AccountGroupKeys(ns), AccountGroupLabels(ns));
  }

  lemma ProxyEdgeSucceeds(p: ProxyQuery, fks: seq<Option<int>>)
    requires p.failure == None && forall ids: seq<int>, n :: n in p.fetch(ids) ==> n.ID in ids
    ensures JoinProxy(p, fks).Success?
  {
    var ns := Proxies(p, Wanted(fks));
    forall k | k in ProxyIDs(ns)
      ensures Some(k) in fks
    {
      var i :| 0 <= i < |ns| && ns[i].ID == k;
      assert p.fetch(Wanted(fks))[i] in p.fetch(Wanted(fks));
    }
    NoStrayIff(fks, []);
    NoStrayIff(fks, ProxyIDs(ns));
  }

  /** The ids a filtered query returns are among those asked for. */
  lemma ReturnedIDs(p: Query, ids: seq<int>)
    requires Sound(p) && Eval(p, IDIn(ids)).Success?
    ensures forall k :: k in TreeIDs(Eval(p, IDIn(ids)).value) ==> k in ids
  {
    var rows := p.fetch(IDIn(ids));
    TreesOfRows(p, IDIn(ids));
    forall k | k in RowIDs(rows)
      ensures k in ids
    {
      var i :| 0 <= i < |rows| && RowIDs(rows)[i] == k;
      assert rows[i] in rows && Admits(IDIn(ids), rows[i]);
    }
  }

  lemma ReturnedKeys(c: Query, ids: seq<int>)
    requires Sound(c) && Eval(WithForeignKey(c), ParentIn(ids)).Success?
    ensures forall k :: k in TreeKeys(Eval(WithForeignKey(c), ParentIn(ids)).value) ==> k.Some? && k.value in ids
  {
    var rows := c.fetch(ParentIn(ids));
    SoundWithForeignKey(c);
    TreesOfRows(WithForeignKey(c), ParentIn(ids));
    forall k | k in RowKeys(rows, ParentAccountID)
      ensures k.Some? && k.value in ids
    {
      var i :| 0 <= i < |rows| && RowKeys(rows, ParentAccountID)[i] == k;
      assert rows[i] in rows && Admits(ParentIn(ids), rows[i]);
    }
  }

  lemma {:induction false} ParentEdgeSucceeds(p: Query, fks: seq<Option<int>>)
    requires Sound(p)
    ensures EvalParents(p, fks).Success?
    decreases Depth(p), 1
  {
    if Wanted(fks) != [] {
      SoundQueriesSucceed(p, IDIn(Wanted(fks)));
      ReturnedIDs(p, Wanted(fks));
      NoStrayIff(fks, TreeIDs(Eval(p, IDIn(Wanted(fks))).value));
    }
  }

  lemma {:induction false} ChildrenEdgeSucceeds(c: Query, ids: seq<int>)
    requires Sound(c)
    ensures EvalChildren(c, ids).Success?
    decreases Depth(c), 1
  {
    SoundWithForeignKey(c);
    SoundQueriesSucceed(WithForeignKey(c), ParentIn(ids));
    ReturnedKeys(c, ids);
    var ts := Eval(WithForeignKey(c), ParentIn(ids)).value;
    NoBadKeyIff(ids, TreeKeys(ts), TreeIDs(ts));
  }
}
