/** What a query with eager-loaded edges returns: rows scanned into entities, joined with the results
    of the edge queries. The joins are stated as functions of key lists; the hash joins that compute
    them on heap nodes are in EagerLoad. */
module EagerSpec {
  import opened Sequences
  import opened AccountEntity

  // ------------------------------------------------------------------- queries

  /** A row of the accounts table, NULL cells absent. */
  datatype RowData = RowData(cells: map<Column, Value>) {
    function ID(): int
      requires Id in cells && cells[Id].IntV?
    {
      cells[Id].i
    }

    function ForeignKey(c: Column): Option<int> {
      if c in cells && cells[c].IntV? then Some(cells[c].i) else None
    }
  }

  /** The column's type in the database schema; a name outside the schema may stand for anything. */
  predicate HasType(c: Column, v: Value)
    ensures HasType(c, v) ==> Accepts(NewHolder(c), Some(v))
  {
    match c
    case Id | OwnerUserID | ProxyFallbackOriginID | Concurrency | LoadFactor | Priority | ProxyID | ParentAccountID =>
      v.IntV?
    case Name | Notes | Platform | Type | Status | ErrorMessage | TempUnschedulableReason | SessionWindowStatus
       | QuotaDimension => v.StrV?
    case Credentials | Extra => v.JsonV?
    case RateMultiplier => v.FloatV?
    case AutoPauseOnExpired | Schedulable => v.BoolV?
    case Other(_) => true
    case _ => v.TimeV?
  }

  /** Cells have their column's type, JSON can be decoded, and the primary key is not NULL. */
  predicate WellTyped(r: RowData) {
    && Id in r.cells
    && (forall c :: c in r.cells ==> HasType(c, r.cells[c]))
    && (forall c :: c in r.cells && r.cells[c].JsonV? ==> !r.cells[c].json.Undecodable?)
  }

  type Row = r: RowData | WellTyped(r) witness RowData(map[Id := IntV(0)])

  /** The predicate an eager load adds to the query of the edge. */
  datatype InFilter = Everything | IDIn(ids: seq<int>) | ParentIn(fks: seq<int>)

  /** A builder ready to run. `fetch` is the database's answer to the builder's own predicates, order,
      limit and offset together with one added filter. `refusal` is the error of an interceptor, which comes
      before the columns are checked, `failure` that of the path or of the database, which comes after. */
  datatype Query = Query(
    fields: seq<Column>,
    fetch: InFilter -> seq<Row>,
    withGroups: Option<GroupQuery>,
    withProxy: Option<ProxyQuery>,
    withParent: Option<Query>,
    withChildren: Option<Query>,
    withUsageLogs: Option<UsageLogQuery>,
    withAccountGroups: Option<AccountGroupQuery>,
    refusal: Option<LoadError> := None,
    failure: Option<LoadError> := None)

  /** `intercept` is what the query's interceptors make of the groups found. As in the queries of the other
      edges, `failure` is the error that running the query ends with, if any. */
  datatype GroupQuery = GroupQuery(
    fields: seq<string>,
    fetch: seq<int> -> seq<GroupRow>,
    intercept: seq<Group> -> seq<Group>,
    failure: Option<LoadError> := None)
  datatype GroupRow = GroupRow(accountID: int, group: Group)
  datatype ProxyQuery = ProxyQuery(
    fields: seq<string>,
    fetch: seq<int> -> seq<Proxy>,
    failure: Option<LoadError> := None)
  datatype UsageLogQuery = UsageLogQuery(
    fields: seq<string>,
    fetch: seq<int> -> seq<UsageLog>,
    failure: Option<LoadError> := None)

  /** With `unique` set, equal rows are merged after the selection. Only here can that merge different rows:
      the other queries select the primary key whatever was chosen. */
  datatype AccountGroupQuery = AccountGroupQuery(
    fields: seq<string>,
    unique: bool,
    fetch: seq<int> -> seq<AccountGroup>,
    failure: Option<LoadError> := None)

  datatype LoadError =
    | InvalidField(column: Column)
    | QueryFailed(reason: string)
    | NilForeignKey(id: int)
    | UnexpectedForeignKey(fk: int)
    | UnexpectedGroup(id: int)
    | NilNode  // assigning to a nil node: the Go program panics

  function AppendOnce<T(==)>(xs: seq<T>, x: T): (r: seq<T>) {
    if x in xs then xs else xs + [x]
  }

  function Without<T(==, !new)>(xs: seq<T>, x: T): (r: seq<T>)
    ensures forall y :: y in r <==> y in xs && y != x
  {
    if xs == [] then []
    else Without(xs[..|xs| - 1], x) + if xs[|xs| - 1] == x then [] else [xs[|xs| - 1]]
  }

  /** A foreign key is added to a partial selection, never to a full one. */
  function SelectAlso<T(==)>(fields: seq<T>, fk: T): seq<T> {
    if fields == [] then [] else AppendOnce(fields, fk)
  }

  /** The columns of the SELECT. */
  function SpecColumns(q: Query): seq<Column> {
    if q.fields == [] then COLUMNS
    else
      var base := [Id] + Without(q.fields, Id);
      var base := if q.withProxy.Some? then AppendOnce(base, ProxyID) else base;
      if q.withParent.Some? then AppendOnce(base, ParentAccountID) else base
  }

  function FirstInvalid(fields: seq<Column>): Option<Column> {
    if fields == [] then None
    else
      var before := FirstInvalid(fields[..|fields| - 1]);
      if before.Some? then before
      else if ValidColumn(fields[|fields| - 1]) then None else Some(fields[|fields| - 1])
  }

  // ------------------------------------------------------------------ scanning

  function ScanRow(columns: seq<Column>, row: Row): (r: seq<Holder>)
    ensures |r| == |columns|
  {
    seq(|columns|, i requires 0 <= i < |columns| => Scan(NewHolder(columns[i]), Get(row.cells, columns[i])))
  }

  /** The entity assigned from one scanned row; the types always agree. */
  function EntityOf(columns: seq<Column>, row: Row): (e: Entity)
    ensures AssignAll(BLANK, columns, ScanRow(columns, row)) == Success(e)
  {
    AssignAllSucceedsIff(BLANK, columns, ScanRow(columns, row));
    AssignAll(BLANK, columns, ScanRow(columns, row)).value
  }

  function Entities(columns: seq<Column>, rows: seq<Row>): (es: seq<Entity>)
    ensures |es| == |rows|
  {
    seq(|rows|, i requires 0 <= i < |rows| => EntityOf(columns, rows[i]))
  }

  function IDs(es: seq<Entity>): (ids: seq<int>)
    ensures |ids| == |es|
  {
    seq(|es|, i requires 0 <= i < |es| => es[i].ID())
  }

  function ForeignKeys(es: seq<Entity>, c: Column): (fks: seq<Option<int>>)
    ensures |fks| == |es|
  {
    seq(|es|, i requires 0 <= i < |es| => es[i].ForeignKey(c))
  }

  // ------------------------------------------------------- joins on key lists

  /** The distinct non-nil keys, each at its first occurrence. */
  function Wanted(fks: seq<Option<int>>): (r: seq<int>)
    ensures forall k :: k in r <==> Some(k) in fks
    ensures Distinct(r)
  {
    if fks == [] then []
    else
      var n := |fks| - 1;
      Wanted(fks[..n]) + if fks[n] == None || fks[n] in fks[..n] then [] else [fks[n].value]
  }

  lemma KeyIsWanted(fks: seq<Option<int>>, i: nat)
    requires i < |fks|
    ensures fks[i] == None || fks[i].value in Wanted(fks)
  {
  }

  /** The first neighbour whose id nobody asked for. */
  function FirstStray(fks: seq<Option<int>>, keys: seq<int>): Option<LoadError> {
    if keys == [] then None
    else
      var n := |keys| - 1;
      var before := FirstStray(fks, keys[..n]);
      if before.Some? then before
      else if Some(keys[n]) in fks then None else Some(UnexpectedForeignKey(keys[n]))
  }

  /** Many-to-one: each node gets the last neighbour with the id its key names. */
  function Lookup<T>(fks: seq<Option<int>>, keys: seq<int>, ns: seq<T>): Result<seq<Option<T>>, LoadError>
    requires |keys| == |ns|
  {
    var bad := FirstStray(fks, keys);
    if bad.Some? then Failure(bad.value)
    else Success(FoundAll(fks, keys, ns))
  }

  function FoundAll<T>(fks: seq<Option<int>>, keys: seq<int>, ns: seq<T>): (r: seq<Option<T>>)
    requires |keys| == |ns|
    ensures |r| == |fks|
  {
    seq(|fks|, i requires 0 <= i < |fks| => Found(fks[i], keys, ns))
  }

  function Found<T>(fk: Option<int>, keys: seq<int>, ns: seq<T>): Option<T>
    requires |keys| == |ns|
  {
    if fk == None then None else LastMatch(keys, ns, fk.value)
  }

  /** The first neighbour without a key, or with a key outside `ids`. `labels` are the neighbours' ids. */
  function FirstBadKey(ids: seq<int>, keys: seq<Option<int>>, labels: seq<int>): Option<LoadError>
    requires |keys| == |labels|
  {
    if keys == [] then None
    else
      var n := |keys| - 1;
      var before := FirstBadKey(ids, keys[..n], labels[..n]);
      if before.Some? then before
      else if keys[n] == None then Some(NilForeignKey(labels[n]))
      else if keys[n].value !in ids then Some(UnexpectedForeignKey(keys[n].value))
      else None
  }

  /** One-to-many: each neighbour goes to the last node that has the id its key names. */
  function Partition<T>(ids: seq<int>, keys: seq<Option<int>>, labels: seq<int>, ns: seq<T>):
      Result<seq<seq<T>>, LoadError>
    requires |keys| == |labels| == |ns|
  {
    var bad := FirstBadKey(ids, keys, labels);
    if bad.Some? then Failure(bad.value)
    else Success(Shares(ids, keys, ns))
  }

  function Shares<T>(ids: seq<int>, keys: seq<Option<int>>, ns: seq<T>): (r: seq<seq<T>>)
    requires |keys| == |ns|
    ensures |r| == |ids|
  {
    seq(|ids|, i requires 0 <= i < |ids| => Share(ids, keys, ns, i))
  }

  function Share<T>(ids: seq<int>, keys: seq<Option<int>>, ns: seq<T>, i: nat): seq<T>
    requires |keys| == |ns| && i < |ids|
  {
    if LastIndex(ids, ids[i]) == i then Select(keys, ns, Some(ids[i])) else []
  }

  // -------------------------------------------------------------- many to many

  /** The groups scanned from the join rows: each id once, at its first row. */
  function Scanned(rows: seq<GroupRow>): (r: seq<Group>) {
    if rows == [] then []
    else
      var n := |rows| - 1;
      Scanned(rows[..n]) + if HasGroup(rows[..n], rows[n].group.ID) then [] else [rows[n].group]
  }

  predicate HasGroup(rows: seq<GroupRow>, id: int) {
    exists r :: r in rows && r.group.ID == id
  }

  predicate Linked(rows: seq<GroupRow>, accountID: int, groupID: int) {
    exists r :: r in rows && r.accountID == accountID && r.group.ID == groupID
  }

  /** Some row links the group to an account outside `ids`. */
  predicate Dangling(rows: seq<GroupRow>, ids: seq<int>, groupID: int) {
    exists r :: r in rows && r.accountID !in ids && r.group.ID == groupID
  }

  function FirstBadGroup(ids: seq<int>, rows: seq<GroupRow>, ns: seq<Group>): Option<LoadError> {
    if ns == [] then None
    else
      var n := |ns| - 1;
      var before := FirstBadGroup(ids, rows, ns[..n]);
      if before.Some? then before
      else if !HasGroup(rows, ns[n].ID) then Some(UnexpectedGroup(ns[n].ID))
      else if Dangling(rows, ids, ns[n].ID) then Some(NilNode)
      else None
  }

  /** The groups among `ns` that some row links to the account, in the order of `ns`. */
  function LinkedGroups(rows: seq<GroupRow>, accountID: int, ns: seq<Group>): seq<Group> {
    if ns == [] then []
    else
      var n := |ns| - 1;
      LinkedGroups(rows, accountID, ns[..n]) + if Linked(rows, accountID, ns[n].ID) then [ns[n]] else []
  }

  function GroupShare(ids: seq<int>, rows: seq<GroupRow>, ns: seq<Group>, i: nat): seq<Group>
    requires i < |ids|
  {
    if LastIndex(ids, ids[i]) == i then LinkedGroups(rows, ids[i], ns) else []
  }

  // ----------------------------------------------------------- the edge queries

  /** A group scanned under a selection; the id is always selected. */
  function ScanGroup(fields: seq<string>, g: Group): Group {
    if fields == [] then g else Group(g.ID, map c | c in g.data && c in fields :: g.data[c])
  }

  /** The join rows, each with its group as scanned. */
  function GroupRows(q: GroupQuery, ids: seq<int>): (r: seq<GroupRow>) {
    ScanGroupData(q.fields, q.fetch(ids))
  }

  function ScanGroupData(fields: seq<string>, rows: seq<GroupRow>): (r: seq<GroupRow>)
    ensures |r| == |rows|
  {
    seq(|rows|, i requires 0 <= i < |rows| => rows[i].(group := ScanGroup(fields, rows[i].group)))
  }

  function JoinGroups(q: GroupQuery, ids: seq<int>): Result<seq<seq<Group>>, LoadError> {
    var rows := GroupRows(q, ids);
    var ns := q.intercept(Scanned(rows));
    var bad := if q.failure.Some? then q.failure else FirstBadGroup(ids, rows, ns);
    if bad.Some? then Failure(bad.value)
    else Success(seq(|ids|, i requires 0 <= i < |ids| => GroupShare(ids, rows, ns, i)))
  }

  function ProxyIDs(ns: seq<Proxy>): (r: seq<int>)
    ensures |r| == |ns|
  {
    seq(|ns|, i requires 0 <= i < |ns| => ns[i].ID)
  }

  function ScanProxy(fields: seq<string>, p: Proxy): Proxy {
    if fields == [] then p else Proxy(p.ID, map c | c in p.data && c in fields :: p.data[c])
  }

  function Proxies(q: ProxyQuery, ids: seq<int>): (r: seq<Proxy>) {
    var rows := q.fetch(ids);
    seq(|rows|, i requires 0 <= i < |rows| => ScanProxy(q.fields, rows[i]))
  }

  function JoinProxy(q: ProxyQuery, fks: seq<Option<int>>): Result<seq<Option<Proxy>>, LoadError> {
    if Wanted(fks) == [] then Lookup(fks, [], [])
    else if q.failure.Some? then Failure(q.failure.value)
    else
      var ns := Proxies(q, Wanted(fks));
      Lookup(fks, ProxyIDs(ns), ns)
  }

  /** A usage log scanned under a selection; unselected columns stay zero, the id is always selected. */
  function ScanUsageLog(fields: seq<string>, row: UsageLog): UsageLog {
    if fields == [] then row
    else UsageLog(row.ID, if "account_id" in fields then row.AccountID else 0,
                  map c | c in row.data && c in fields :: row.data[c])
  }

  function UsageLogs(q: UsageLogQuery, fks: seq<int>): (r: seq<UsageLog>) {
    ScanUsageLogs(SelectAlso(q.fields, "account_id"), q.fetch(fks))
  }

  function ScanUsageLogs(fields: seq<string>, rows: seq<UsageLog>): (r: seq<UsageLog>)
    ensures |r| == |rows|
  {
    seq(|rows|, i requires 0 <= i < |rows| => ScanUsageLog(fields, rows[i]))
  }

  function UsageLogKeys(ns: seq<UsageLog>): (r: seq<Option<int>>)
    ensures |r| == |ns|
  {
    seq(|ns|, i requires 0 <= i < |ns| => Some(ns[i].AccountID))
  }

  function UsageLogIDs(ns: seq<UsageLog>): (r: seq<int>)
    ensures |r| == |ns|
  {
    seq(|ns|, i requires 0 <= i < |ns| => ns[i].ID)
  }

  function JoinUsageLogs(q: UsageLogQuery, ids: seq<int>): Result<seq<seq<UsageLog>>, LoadError> {
    var ns := UsageLogs(q, ids);
    if q.failure.Some? then Failure(q.failure.value)
    else Partition(ids, UsageLogKeys(ns), UsageLogIDs(ns), ns)
  }

  /** An account-group row has no id of its own: every column, the key included, is subject to selection. */
  function ScanAccountGroup(fields: seq<string>, row: AccountGroup): AccountGroup {
    if fields == [] then row
    else AccountGroup(if "account_id" in fields then row.AccountID else 0,
                      if "group_id" in fields then row.GroupID else 0,
                      map c | c in row.data && c in fields :: row.data[c])
  }

  function AccountGroups(q: AccountGroupQuery, fks: seq<int>): (r: seq<AccountGroup>) {
    SelectedAccountGroups(q, q.fetch(fks))
  }

  /** What a query makes of the rows found. */
  function SelectedAccountGroups(q: AccountGroupQuery, rows: seq<AccountGroup>): (r: seq<AccountGroup>) {
    var scanned := ScanAccountGroups(SelectAlso(q.fields, "account_id"), rows);
    if q.unique then Merged(scanned) else scanned
  }

  function ScanAccountGroups(fields: seq<string>, rows: seq<AccountGroup>): (r: seq<AccountGroup>)
    ensures |r| == |rows|
  {
    seq(|rows|, i requires 0 <= i < |rows| => ScanAccountGroup(fields, rows[i]))
  }

  /** Each element at its first occurrence. */
  function Merged<T(==)>(xs: seq<T>): (r: seq<T>)
    ensures |r| <= |xs|
  {
    if xs == [] then []
    else
      var n := |xs| - 1;
      Merged(xs[..n]) + if xs[n] in xs[..n] then [] else [xs[n]]
  }

  function AccountGroupKeys(ns: seq<AccountGroup>): (r: seq<Option<int>>)
    ensures |r| == |ns|
  {
    seq(|ns|, i requires 0 <= i < |ns| => Some(ns[i].AccountID))
  }

  function AccountGroupLabels(ns: seq<AccountGroup>): (r: seq<int>)
    ensures |r| == |ns|
  {
    seq(|ns|, i requires 0 <= i < |ns| => ns[i].GroupID)
  }

  function JoinAccountGroups(q: AccountGroupQuery, ids: seq<int>): Result<seq<seq<AccountGroup>>, LoadError> {
    var ns := AccountGroups(q, ids);
    if q.failure.Some? then Failure(q.failure.value)
    else Partition(ids, AccountGroupKeys(ns), AccountGroupLabels(ns), ns)
  }

  // ----------------------------------------------------------- the whole query

  /** An account with everything loaded below it, as a value. */
  datatype Tree = Tree(entity: Entity, edges: Edges<Tree>)

  function Depth(q: Query): nat {
    1 + (match q.withParent case None => 0 case Some(p) => Depth(p))
      + (match q.withChildren case None => 0 case Some(c) => Depth(c))
  }

  function Requested(q: Query): seq<bool> {
    [q.withGroups.Some?, q.withProxy.Some?, q.withParent.Some?,
     q.withChildren.Some?, q.withUsageLogs.Some?, q.withAccountGroups.Some?]
  }

  function TreeIDs(ts: seq<Tree>): (r: seq<int>)
    ensures |r| == |ts|
  {
    seq(|ts|, i requires 0 <= i < |ts| => ts[i].entity.ID())
  }

  function TreeKeys(ts: seq<Tree>): (r: seq<Option<int>>)
    ensures |r| == |ts|
  {
    seq(|ts|, i requires 0 <= i < |ts| => ts[i].entity.ForeignKey(ParentAccountID))
  }

  function Nothing<T>(n: nat): (r: seq<Option<T>>)
    ensures |r| == n && forall i :: 0 <= i < n ==> r[i] == None
  {
    seq(n, _ => None)
  }

  function Empties<T>(n: nat): (r: seq<seq<T>>)
    ensures |r| == n && forall i :: 0 <= i < n ==> r[i] == []
  {
    seq(n, _ => [])
  }

  /** The query of the children edge selects the foreign key too. */
  function WithForeignKey(c: Query): (r: Query)
    ensures Depth(r) == Depth(c)
  {
    c.(fields := SelectAlso(c.fields, ParentAccountID))
  }

  /** What keeps a query from being run at all. */
  function Unprepared(q: Query): Option<LoadError> {
    if q.refusal.Some? then q.refusal
    else if FirstInvalid(q.fields).Some? then Some(InvalidField(FirstInvalid(q.fields).value)) else None
  }

  /** The result of a query run with one added filter. */
  function Eval(q: Query, f: InFilter): (r: Result<seq<Tree>, LoadError>)
    decreases Depth(q), 2
  {
    if Unprepared(q).Some? then Failure(Unprepared(q).value)
    else if q.failure.Some? then Failure(q.failure.value)
    else if q.fetch(f) == [] then Success([])
    else Joined(q, Entities(SpecColumns(q), q.fetch(f)))
  }

  /** The entities with every requested edge joined in; the first edge that fails decides the error. */
  function Joined(q: Query, es: seq<Entity>): (r: Result<seq<Tree>, LoadError>)
    ensures r.Success? ==> |r.value| == |es|
    decreases Depth(q), 1
  {
    var groups :- GroupsEdge(q, es);
    var proxies :- ProxyEdge(q, es);
    var parents :- ParentEdge(q, es);
    var children :- ChildrenEdge(q, es);
    var logs :- UsageLogsEdge(q, es);
    var accountGroups :- AccountGroupsEdge(q, es);
    Success(seq(|es|, i requires 0 <= i < |es| =>
      Tree(es[i], Edges(groups[i], proxies[i], parents[i], children[i], logs[i], accountGroups[i], Requested(q)))))
  }

  function GroupsEdge(q: Query, es: seq<Entity>): (r: Result<seq<seq<Group>>, LoadError>)
    ensures r.Success? ==> |r.value| == |es|
  {
    if q.withGroups.None? then Success(Empties(|es|)) else JoinGroups(q.withGroups.value, IDs(es))
  }

  function ProxyEdge(q: Query, es: seq<Entity>): (r: Result<seq<Option<Proxy>>, LoadError>)
    ensures r.Success? ==> |r.value| == |es|
  {
    if q.withProxy.None? then Success(Nothing(|es|)) else JoinProxy(q.withProxy.value, ForeignKeys(es, ProxyID))
  }

  function ParentEdge(q: Query, es: seq<Entity>): (r: Result<seq<Option<Tree>>, LoadError>)
    ensures r.Success? ==> |r.value| == |es|
    decreases Depth(q), 0
  {
    if q.withParent.None? then Success(Nothing(|es|))
    else EvalParents(q.withParent.value, ForeignKeys(es, ParentAccountID))
  }

  function ChildrenEdge(q: Query, es: seq<Entity>): (r: Result<seq<seq<Tree>>, LoadError>)
    ensures r.Success? ==> |r.value| == |es|
    decreases Depth(q), 0
  {
    if q.withChildren.None? then Success(Empties(|es|)) else EvalChildren(q.withChildren.value, IDs(es))
  }

  function UsageLogsEdge(q: Query, es: seq<Entity>): (r: Result<seq<seq<UsageLog>>, LoadError>)
    ensures r.Success? ==> |r.value| == |es|
  {
    if q.withUsageLogs.None? then Success(Empties(|es|)) else JoinUsageLogs(q.withUsageLogs.value, IDs(es))
  }

  function AccountGroupsEdge(q: Query, es: seq<Entity>): (r: Result<seq<seq<AccountGroup>>, LoadError>)
    ensures r.Success? ==> |r.value| == |es|
  {
    if q.withAccountGroups.None? then Success(Empties(|es|)) else JoinAccountGroups(q.withAccountGroups.value, IDs(es))
  }

  function EvalParents(p: Query, fks: seq<Option<int>>): (r: Result<seq<Option<Tree>>, LoadError>)
    ensures r.Success? ==> |r.value| == |fks|
    decreases Depth(p), 3
  {
    if Wanted(fks) == [] then Lookup(fks, [], [])
    else
      var ns :- Eval(p, IDIn(Wanted(fks)));
      Lookup(fks, TreeIDs(ns), ns)
  }

  function EvalChildren(c: Query, ids: seq<int>): (r: Result<seq<seq<Tree>>, LoadError>)
    ensures r.Success? ==> |r.value| == |ids|
    decreases Depth(c), 3
  {
    var ns :- Eval(WithForeignKey(c), ParentIn(ids));
    Partition(ids, TreeKeys(ns), TreeIDs(ns), ns)
  }
}
