/** What loaded accounts and neighbours hold: the cells of the database rows they were scanned from, column by
    column, at every level of a query. */
module RowContents {
  import opened Sequences
  import opened AccountEntity
  import opened EagerSpec
  import opened EagerLaws
  import opened LazyLoading

  // -------------------------------------------------------------- the columns read

  /** The place of a column in the schema. */
  function Place(c: Column): nat {
    match c
    case Id => 0 case CreatedAt => 1 case UpdatedAt => 2 case DeletedAt => 3 case Name => 4 case Notes => 5
    case OwnerUserID => 6 case Platform => 7 case Type => 8 case Credentials => 9 case Extra => 10
    case ProxyID => 11 case ProxyFallbackOriginID => 12 case Concurrency => 13 case LoadFactor => 14
    case Priority => 15 case RateMultiplier => 16 case Status => 17 case ErrorMessage => 18
    case LastUsedAt => 19 case ExpiresAt => 20 case AutoPauseOnExpired => 21 case Schedulable => 22
    case RateLimitedAt => 23 case RateLimitResetAt => 24 case OverloadUntil => 25
    case TempUnschedulableUntil => 26 case TempUnschedulableReason => 27 case SessionWindowStart => 28
    case SessionWindowEnd => 29 case SessionWindowStatus => 30 case ParentAccountID => 31 case QuotaDimension => 32
    case Other(_) => 33
  }

  lemma FirstColumns(c: Column)
    requires Place(c) < 7
    ensures COLUMNS[Place(c)] == c
  {
  }

  lemma SecondColumns(c: Column)
    requires 7 <= Place(c) < 14
    ensures COLUMNS[Place(c)] == c
  {
  }

  lemma ThirdColumns(c: Column)
    requires 14 <= Place(c) < 21
    ensures COLUMNS[Place(c)] == c
  {
  }

  lemma FourthColumns(c: Column)
    requires 21 <= Place(c) < 27
    ensures COLUMNS[Place(c)] == c
  {
  }

  lemma LastColumns(c: Column)
    requires 27 <= Place(c) < 33
    ensures COLUMNS[Place(c)] == c
  {
  }

  lemma OthersAreUnlisted(name: string)
    ensures Other(name) !in COLUMNS
  {
  }

  /** The schema has every column, each in its place, and no other name. */
  lemma SchemaColumns(c: Column)
    ensures ValidColumn(c) <==> !c.Other?
    ensures !c.Other? ==> COLUMNS[Place(c)] == c
  {
    if c.Other? {
      OthersAreUnlisted(c.name);
    } else if Place(c) < 7 {
      FirstColumns(c);
    } else if Place(c) < 14 {
      SecondColumns(c);
    } else if Place(c) < 21 {
      ThirdColumns(c);
    } else if Place(c) < 27 {
      FourthColumns(c);
    } else {
      LastColumns(c);
    }
  }

  /** Whether a query reads a column: all of the schema without a selection; otherwise the id, the chosen ones,
      and the foreign keys its edges need. */
  predicate Reads(q: Query, c: Column) {
    if q.fields == [] then !c.Other?
    else
      c == Id || c in q.fields || (c == ProxyID && q.withProxy.Some?) || (c == ParentAccountID && q.withParent.Some?)
  }

  lemma ReadsIff(q: Query, c: Column)
    ensures c in SpecColumns(q) <==> Reads(q, c)
  {
    if q.fields == [] {
      SchemaColumns(c);
    } else {
      SpecColumnsAre(q);
    }
  }

  // ----------------------------------------------------------------- refused columns

  /** The place of the first column that is not of the schema, or the length. */
  function FirstUnknown(fields: seq<Column>): (k: nat)
    ensures k <= |fields| && (k < |fields| ==> fields[k].Other?)
    ensures forall j :: 0 <= j < k ==> !fields[j].Other?
  {
    if fields == [] then 0
    else
      var n := |fields| - 1;
      var k := FirstUnknown(fields[..n]);
      if k < n || fields[n].Other? then k else n + 1
  }

  lemma {:induction false} FirstInvalidIs(fields: seq<Column>)
    ensures var k := FirstUnknown(fields); FirstInvalid(fields) == if k < |fields| then Some(fields[k]) else None
  {
    if fields != [] {
      FirstInvalidIs(fields[..|fields| - 1]);
      SchemaColumns(fields[|fields| - 1]);
    }
  }

  /** A query whose interceptors agree is run exactly if it selects schema columns only; otherwise its error is
      the first unknown column it selects. */
  lemma UnknownColumnIsRefused(q: Query, f: InFilter)
    requires q.refusal == None
    ensures Unprepared(q) == None <==> forall j :: 0 <= j < |q.fields| ==> !q.fields[j].Other?
    ensures forall k ::
      0 <= k < |q.fields| && q.fields[k].Other? && (forall j :: 0 <= j < k ==> !q.fields[j].Other?) ==>
        Eval(q, f) == Failure(InvalidField(q.fields[k]))
  {
    FirstInvalidIs(q.fields);
  }

  // ------------------------------------------------------------------------ accounts

  /** A query asked for children reads their parent's id as well. */
  predicate ReadsAs(q: Query, child: bool, c: Column) {
    Reads(q, c) || (child && c == ParentAccountID)
  }

  function Asked(q: Query, child: bool): (r: Query)
    ensures Depth(r) == Depth(q)
  {
    if child then WithForeignKey(q) else q
  }

  lemma AskedReads(q: Query, child: bool, c: Column)
    ensures Reads(Asked(q, child), c) <==> ReadsAs(q, child, c)
  {
    if child && q.fields != [] {
      KeyAdded(q.fields, ParentAccountID, c);
    }
  }

  /** A key is added to a selection, unless that is of everything. */
  lemma KeyAdded<T>(fields: seq<T>, key: T, x: T)
    ensures SelectAlso(fields, key) == [] <==> fields == []
    ensures fields != [] ==> (x in SelectAlso(fields, key) <==> x in fields || x == key)
  {
  }

  /** The entity holds the row's cells in the columns that are read, and nothing else. */
  ghost predicate Shows(q: Query, child: bool, e: Entity, row: Row) {
    && (forall c :: Get(e.fields, c) == if ReadsAs(q, child, c) && !c.Other? then Held(Get(row.cells, c)) else None)
    && (forall s :: Get(e.selectValues, s)
          == if ReadsAs(q, child, Other(s)) then Some(UnknownType(Get(row.cells, Other(s)))) else None)
  }

  lemma EntityShows(q: Query, child: bool, row: Row)
    ensures Shows(q, child, EntityOf(SpecColumns(Asked(q, child)), row), row)
  {
    var columns := SpecColumns(Asked(q, child));
    var e := EntityOf(columns, row);
    forall c
      ensures Get(e.fields, c) == if ReadsAs(q, child, c) && !c.Other? then Held(Get(row.cells, c)) else None
    {
      AskedReads(q, child, c);
      ReadsIff(Asked(q, child), c);
      EntityHolds(columns, row, c, "");
    }
    forall s
      ensures Get(e.selectValues, s)
        == if ReadsAs(q, child, Other(s)) then Some(UnknownType(Get(row.cells, Other(s)))) else None
    {
      AskedReads(q, child, Other(s));
      ReadsIff(Asked(q, child), Other(s));
      EntityHolds(columns, row, Id, s);
    }
  }

  /** The accounts of a result are the rows that were found, in their order, each with its own cells. This is so
      of every query that is run, those of the edges included. */
  lemma ResultShowsRows(q: Query, child: bool, f: InFilter, i: nat)
    requires Eval(Asked(q, child), f).Success?
    ensures |Eval(Asked(q, child), f).value| == |q.fetch(f)|
    ensures i < |q.fetch(f)| ==> Shows(q, child, Eval(Asked(q, child), f).value[i].entity, q.fetch(f)[i])
  {
    var asked, rows := Asked(q, child), q.fetch(f);
    if i < |rows| {
      JoinedNode(asked, Entities(SpecColumns(asked), rows), i);
      EntityShows(q, child, rows[i]);
    }
  }

  // ---------------------------------------------------------------------- neighbours

  /** The columns of a neighbour's row that a selection keeps. */
  ghost predicate Keeps(fields: seq<string>, of: map<string, string>, data: map<string, string>) {
    forall s :: Get(of, s) == if fields == [] || s in fields then Get(data, s) else None
  }

  lemma KeptData(fields: seq<string>, data: map<string, string>)
    ensures Keeps(fields, if fields == [] then data else map s | s in data && s in fields :: data[s], data)
  {
  }

  lemma KeepsOne(fields: seq<string>, a: map<string, string>, b: map<string, string>, data: map<string, string>)
    requires Keeps(fields, a, data) && Keeps(fields, b, data)
    ensures a == b
  {
    assert forall s :: Get(a, s) == Get(b, s);
    SameMap(a, b);
  }

  ghost predicate ProxyShows(fields: seq<string>, x: Proxy, row: Proxy) {
    x.ID == row.ID && Keeps(fields, x.data, row.data)
  }

  ghost predicate GroupShows(fields: seq<string>, x: Group, row: Group) {
    x.ID == row.ID && Keeps(fields, x.data, row.data)
  }

  /** The key of a usage log is a column like the others, zero if it is not selected. */
  ghost predicate LogShows(fields: seq<string>, x: UsageLog, row: UsageLog) {
    && x.ID == row.ID && Keeps(fields, x.data, row.data)
    && x.AccountID == if fields == [] || "account_id" in fields then row.AccountID else 0
  }

  /** So are both keys of an account group. */
  ghost predicate MemberShows(fields: seq<string>, x: AccountGroup, row: AccountGroup) {
    && Keeps(fields, x.data, row.data)
    && x.AccountID == (if fields == [] || "account_id" in fields then row.AccountID else 0)
    && x.GroupID == (if fields == [] || "group_id" in fields then row.GroupID else 0)
  }

  /** Scanning a neighbour gives the one that shows its row. */
  lemma ScannedNeighbours(fields: seq<string>)
    ensures forall x, row :: x == ScanProxy(fields, row) <==> ProxyShows(fields, x, row)
    ensures forall x, row :: x == ScanGroup(fields, row) <==> GroupShows(fields, x, row)
    ensures forall x, row :: x == ScanUsageLog(fields, row) <==> LogShows(fields, x, row)
    ensures forall x, row :: x == ScanAccountGroup(fields, row) <==> MemberShows(fields, x, row)
  {
    forall x, row ensures x == ScanProxy(fields, row) <==> ProxyShows(fields, x, row) {
      ScannedProxy(fields, x, row);
    }
    forall x, row ensures x == ScanGroup(fields, row) <==> GroupShows(fields, x, row) {
      ScannedGroup(fields, x, row);
    }
    forall x, row ensures x == ScanUsageLog(fields, row) <==> LogShows(fields, x, row) {
      ScannedLog(fields, x, row);
    }
    forall x, row ensures x == ScanAccountGroup(fields, row) <==> MemberShows(fields, x, row) {
      ScannedMember(fields, x, row);
    }
  }

  lemma ScannedProxy(fields: seq<string>, x: Proxy, row: Proxy)
    ensures x == ScanProxy(fields, row) <==> ProxyShows(fields, x, row)
  {
    KeptData(fields, row.data);
    if ProxyShows(fields, x, row) {
      KeepsOne(fields, x.data, ScanProxy(fields, row).data, row.data);
    }
  }

  lemma ScannedGroup(fields: seq<string>, x: Group, row: Group)
    ensures x == ScanGroup(fields, row) <==> GroupShows(fields, x, row)
  {
    KeptData(fields, row.data);
    if GroupShows(fields, x, row) {
      KeepsOne(fields, x.data, ScanGroup(fields, row).data, row.data);
    }
  }

  lemma ScannedLog(fields: seq<string>, x: UsageLog, row: UsageLog)
    ensures x == ScanUsageLog(fields, row) <==> LogShows(fields, x, row)
  {
    KeptData(fields, row.data);
    if LogShows(fields, x, row) {
      KeepsOne(fields, x.data, ScanUsageLog(fields, row).data, row.data);
    }
  }

  lemma ScannedMember(fields: seq<string>, x: AccountGroup, row: AccountGroup)
    ensures x == ScanAccountGroup(fields, row) <==> MemberShows(fields, x, row)
  {
    KeptData(fields, row.data);
    if MemberShows(fields, x, row) {
      KeepsOne(fields, x.data, ScanAccountGroup(fields, row).data, row.data);
    }
  }

  /** The columns kept when a key is read as well. */
  ghost predicate KeepsAlso(fields: seq<string>, key: string, of: map<string, string>, data: map<string, string>) {
    forall s :: Get(of, s) == if fields == [] || s in fields || s == key then Get(data, s) else None
  }

  lemma KeepsKey(fields: seq<string>, key: string, of: map<string, string>, data: map<string, string>)
    ensures Keeps(SelectAlso(fields, key), of, data) <==> KeepsAlso(fields, key, of, data)
  {
    forall s
      ensures (SelectAlso(fields, key) == [] || s in SelectAlso(fields, key))
         <==> (fields == [] || s in fields || s == key)
    {
      KeyAdded(fields, key, s);
    }
  }

  /** A usage log as it is loaded: it has its account's id, whatever was selected. */
  ghost predicate LoadedLog(fields: seq<string>, x: UsageLog, row: UsageLog) {
    x.ID == row.ID && x.AccountID == row.AccountID && KeepsAlso(fields, "account_id", x.data, row.data)
  }

  /** So has an account group, but its group's only if that was selected. */
  ghost predicate LoadedMember(fields: seq<string>, x: AccountGroup, row: AccountGroup) {
    && x.AccountID == row.AccountID && KeepsAlso(fields, "account_id", x.data, row.data)
    && x.GroupID == (if fields == [] || "group_id" in fields then row.GroupID else 0)
  }

  lemma LoadedIsScanned(fields: seq<string>)
    ensures forall x, row :: LoadedLog(fields, x, row) <==> x == ScanUsageLog(SelectAlso(fields, "account_id"), row)
    ensures forall x, row ::
      LoadedMember(fields, x, row) <==> x == ScanAccountGroup(SelectAlso(fields, "account_id"), row)
  {
    ScannedNeighbours(SelectAlso(fields, "account_id"));
    KeyAdded(fields, "account_id", "account_id");
    KeyAdded(fields, "account_id", "group_id");
    assert "account_id"[0] != "group_id"[0];
    forall x: UsageLog, row
      ensures LogShows(SelectAlso(fields, "account_id"), x, row) <==> LoadedLog(fields, x, row)
    {
      KeepsKey(fields, "account_id", x.data, row.data);
    }
    forall x: AccountGroup, row
      ensures MemberShows(SelectAlso(fields, "account_id"), x, row) <==> LoadedMember(fields, x, row)
    {
      KeepsKey(fields, "account_id", x.data, row.data);
    }
  }

  // ---------------------------------------------------------------------- every level

  /** The last row decides what a many-to-one edge holds. */
  ghost predicate ProxyOf(p: ProxyQuery, rows: seq<Proxy>, x: Option<Proxy>) {
    if rows == [] then x == None else x.Some? && ProxyShows(p.fields, x.value, rows[|rows| - 1])
  }

  ghost predicate GroupsShow(g: GroupQuery, rows: seq<GroupRow>, xs: seq<Group>) {
    |xs| == |rows| && forall j :: 0 <= j < |rows| ==> GroupShows(g.fields, xs[j], rows[j].group)
  }

  ghost predicate LogsShow(u: UsageLogQuery, rows: seq<UsageLog>, xs: seq<UsageLog>) {
    |xs| == |rows| && forall j :: 0 <= j < |rows| ==> LoadedLog(u.fields, xs[j], rows[j])
  }

  ghost predicate MembersShow(a: AccountGroupQuery, rows: seq<AccountGroup>, xs: seq<AccountGroup>) {
    if a.unique then forall x :: x in xs <==> exists r :: r in rows && LoadedMember(a.fields, x, r)
    else |xs| == |rows| && forall j :: 0 <= j < |rows| ==> LoadedMember(a.fields, xs[j], rows[j])
  }

  /** The neighbours of other kinds show the rows that the row's own keys find. */
  ghost predicate NeighboursShow(q: Query, t: Tree, row: Row) {
    && (if q.withGroups.None? then t.edges.Groups == []
        else GroupsShow(q.withGroups.value, q.withGroups.value.fetch([row.ID()]), t.edges.Groups))
    && (if q.withProxy.None? || row.ForeignKey(ProxyID).None? then t.edges.Proxy == None
        else ProxyOf(q.withProxy.value, q.withProxy.value.fetch([row.ForeignKey(ProxyID).value]), t.edges.Proxy))
    && (if q.withUsageLogs.None? then t.edges.UsageLogs == []
        else LogsShow(q.withUsageLogs.value, q.withUsageLogs.value.fetch([row.ID()]), t.edges.UsageLogs))
    && (if q.withAccountGroups.None? then t.edges.AccountGroups == []
        else MembersShow(q.withAccountGroups.value, q.withAccountGroups.value.fetch([row.ID()]),
                         t.edges.AccountGroups))
  }

  /** The tree shows the row, its neighbours the rows that the row's keys find, and so on below the parent and
      the children. */
  ghost predicate TreeShows(q: Query, child: bool, t: Tree, row: Row)
    decreases Depth(q), 1
  {
    && Shows(q, child, t.entity, row) && NeighboursShow(q, t, row)
    && ParentShows(q, t.edges.Parent, row) && ChildrenShow(q, t.edges.Children, row)
  }

  ghost predicate ParentShows(q: Query, x: Option<Tree>, row: Row)
    decreases Depth(q), 0
  {
    var fk := row.ForeignKey(ParentAccountID);
    if q.withParent.None? || fk.None? then x == None
    else LastShows(q.withParent.value, q.withParent.value.fetch(IDIn([fk.value])), x)
  }

  ghost predicate LastShows(p: Query, rows: seq<Row>, x: Option<Tree>)
    decreases Depth(p), 2
  {
    if rows == [] then x == None else x.Some? && TreeShows(p, false, x.value, rows[|rows| - 1])
  }

  ghost predicate ChildrenShow(q: Query, xs: seq<Tree>, row: Row)
    decreases Depth(q), 0
  {
    if q.withChildren.None? then xs == []
    else
      var c, found := q.withChildren.value, q.withChildren.value.fetch(ParentIn([row.ID()]));
      |xs| == |found| && forall j :: 0 <= j < |found| ==> TreeShows(c, true, xs[j], found[j])
  }

  lemma LazyNeighboursShow(q: Query, row: Row)
    ensures NeighboursShow(q, Lazy(q, row), row)
  {
    if q.withGroups.Some? {
      LazyGroupsShow(q.withGroups.value, [row.ID()]);
    }
    if q.withProxy.Some? && row.ForeignKey(ProxyID).Some? {
      LazyProxyShows(q.withProxy.value, [row.ForeignKey(ProxyID).value]);
    }
    if q.withUsageLogs.Some? {
      LazyLogsShow(q.withUsageLogs.value, [row.ID()]);
    }
    if q.withAccountGroups.Some? {
      LazyMembersShow(q.withAccountGroups.value, [row.ID()]);
    }
  }

  lemma LazyGroupsShow(g: GroupQuery, ids: seq<int>)
    ensures GroupsShow(g, g.fetch(ids), GroupsOf(GroupRows(g, ids)))
  {
    ScannedNeighbours(g.fields);
  }

  lemma LazyProxyShows(p: ProxyQuery, ids: seq<int>)
    ensures ProxyOf(p, p.fetch(ids), Last(Proxies(p, ids)))
  {
    ScannedNeighbours(p.fields);
  }

  lemma LazyLogsShow(u: UsageLogQuery, ids: seq<int>)
    ensures LogsShow(u, u.fetch(ids), UsageLogs(u, ids))
  {
    LoadedIsScanned(u.fields);
  }

  lemma LazyMembersShow(a: AccountGroupQuery, ids: seq<int>)
    ensures MembersShow(a, a.fetch(ids), AccountGroups(a, ids))
  {
    var fields, rows := SelectAlso(a.fields, "account_id"), a.fetch(ids);
    var scanned := ScanAccountGroups(fields, rows);
    LoadedIsScanned(a.fields);
    AccountGroupKeysKept(a, ids);
    forall x
      ensures x in scanned <==> exists r :: r in rows && LoadedMember(a.fields, x, r)
    {
      if x in scanned {
        var j :| 0 <= j < |scanned| && scanned[j] == x;
        assert rows[j] in rows && LoadedMember(a.fields, x, rows[j]);
      }
      if r :| r in rows && LoadedMember(a.fields, x, r) {
        var j :| 0 <= j < |rows| && rows[j] == r;
        assert scanned[j] == x;
      }
    }
  }

  lemma {:induction false} LazyShows(q: Query, child: bool, row: Row)
    ensures TreeShows(q, child, Lazy(Asked(q, child), row), row)
    decreases Depth(q), 1
  {
    EntityShows(q, child, row);
    LazyNeighboursShow(Asked(q, child), row);
    LazyParentShows(Asked(q, child), row);
    LazyChildrenShow(Asked(q, child), row);
  }

  lemma {:induction false} LazyParentShows(q: Query, row: Row)
    ensures ParentShows(q, LazyParent(q, row), row)
    decreases Depth(q), 0
  {
    var fk := row.ForeignKey(ParentAccountID);
    if q.withParent.Some? && fk.Some? {
      LazyLastShows(q.withParent.value, q.withParent.value.fetch(IDIn([fk.value])));
    }
  }

  lemma {:induction false} LazyLastShows(p: Query, rows: seq<Row>)
    ensures LastShows(p, rows, LazyLast(p, rows))
    decreases Depth(p), 2
  {
    if rows != [] {
      LazyShows(p, false, rows[|rows| - 1]);
    }
  }

  lemma {:induction false} LazyChildrenShow(q: Query, row: Row)
    ensures ChildrenShow(q, LazyChildren(q, row), row)
    decreases Depth(q), 0
  {
    if q.withChildren.Some? {
      var c, found := q.withChildren.value, q.withChildren.value.fetch(ParentIn([row.ID()]));
      forall j | 0 <= j < |found|
        ensures TreeShows(c, true, Lazy(WithForeignKey(c), found[j]), found[j])
      {
        LazyShows(c, true, found[j]);
      }
    }
  }

  /** Everything a query loads shows the database rows: each account its row's cells, and at every level each
      neighbour the cells of the row that the keys lead to. */
  lemma EveryLevelShowsRows(q: Query, f: InFilter)
    requires Sound(q) && Pointwise(q)
    ensures Eval(q, f).Success? && |Eval(q, f).value| == |q.fetch(f)|
    ensures forall i :: 0 <= i < |q.fetch(f)| ==> TreeShows(q, false, Eval(q, f).value[i], q.fetch(f)[i])
  {
    EagerIsLazy(q, f);
    forall i | 0 <= i < |q.fetch(f)|
      ensures TreeShows(q, false, Eval(q, f).value[i], q.fetch(f)[i])
    {
      LazyShows(q, false, q.fetch(f)[i]);
    }
  }
}
