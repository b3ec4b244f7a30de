/** The Account entity: its columns, the holders rows are scanned into, and the assignment
    of scanned values to entity fields. */
module AccountEntity {
  import opened Sequences

  /** Columns of the accounts table; `Other` is any further name a modifier or order term selects. */
  datatype Column =
    | Id | CreatedAt | UpdatedAt | DeletedAt | Name | Notes | OwnerUserID | Platform | Type
    | Credentials | Extra | ProxyID | ProxyFallbackOriginID | Concurrency | LoadFactor | Priority
    | RateMultiplier | Status | ErrorMessage | LastUsedAt | ExpiresAt | AutoPauseOnExpired
    | Schedulable | RateLimitedAt | RateLimitResetAt | OverloadUntil | TempUnschedulableUntil
    | TempUnschedulableReason | SessionWindowStart | SessionWindowEnd | SessionWindowStatus
    | ParentAccountID | QuotaDimension
    | Other(name: string)

  const COLUMNS: seq<Column> := [
    Id, CreatedAt, UpdatedAt, DeletedAt, Name, Notes, OwnerUserID, Platform, Type,
    Credentials, Extra, ProxyID, ProxyFallbackOriginID, Concurrency, LoadFactor, Priority,
    RateMultiplier, Status, ErrorMessage, LastUsedAt, ExpiresAt, AutoPauseOnExpired,
    Schedulable, RateLimitedAt, RateLimitResetAt, OverloadUntil, TempUnschedulableUntil,
    TempUnschedulableReason, SessionWindowStart, SessionWindowEnd, SessionWindowStatus,
    ParentAccountID, QuotaDimension
  ]

  predicate ValidColumn(c: Column) {
    c in COLUMNS
  }

  /** What the bytes of a JSON column are to the decoder of a map: none at all, not decodable, null, or an
      object, its members as text. */
  datatype Json = NoBytes | Undecodable | Null | Object(members: map<string, string>)

  /** A value as the database stores it and as an entity field holds it. */
  datatype Value =
    | IntV(i: int) | StrV(s: string) | BoolV(b: bool) | FloatV(f: real) | TimeV(t: int) | JsonV(json: Json)

  /** What a row is scanned into: the nullable wrappers of database/sql. */
  datatype Holder =
    | NullInt64(valid: bool, Int64: int)
    | NullString(valid: bool, String: string)
    | NullBool(valid: bool, Bool: bool)
    | NullFloat64(valid: bool, Float64: real)
    | NullTime(valid: bool, Time: int)
    | Bytes(data: Json)
    | UnknownType(raw: Option<Value>)

  /** The scanned part of an Account. A column absent from `fields` holds its Go zero value (or nil). */
  datatype Entity = Entity(fields: map<Column, Value>, selectValues: map<string, Holder>) {
    function ID(): int {
      if Id in fields && fields[Id].IntV? then fields[Id].i else 0
    }

    function ForeignKey(c: Column): Option<int> {
      if c in fields && fields[c].IntV? then Some(fields[c].i) else None
    }
  }

  const BLANK := Entity(map[], map[])

  datatype AssignError =
    | LengthMismatch(values: nat, columns: nat)
    | UnexpectedType(column: Column)
    | Unmarshal(column: Column)

  // ------------------------------------------------------------------ scanning

  /** The empty holder allocated for one column. */
  function NewHolder(c: Column): Holder {
    match c
    case Credentials | Extra => Bytes(NoBytes)
    case AutoPauseOnExpired | Schedulable => NullBool(false, false)
    case RateMultiplier => NullFloat64(false, 0.0)
    case Id | OwnerUserID | ProxyID | ProxyFallbackOriginID | Concurrency | LoadFactor | Priority
       | ParentAccountID => NullInt64(false, 0)
    case Name | Notes | Platform | Type | Status | ErrorMessage | TempUnschedulableReason
       | SessionWindowStatus | QuotaDimension => NullString(false, "")
    case CreatedAt | UpdatedAt | DeletedAt | LastUsedAt | ExpiresAt | RateLimitedAt | RateLimitResetAt
       | OverloadUntil | TempUnschedulableUntil | SessionWindowStart | SessionWindowEnd => NullTime(false, 0)
    case Other(_) => UnknownType(None)
  }

  /** The holders for a column list, one per column, in order. */
  method ScanValues(columns: seq<Column>) returns (values: seq<Holder>)
    ensures |values| == |columns|
    ensures forall i :: 0 <= i < |columns| ==> values[i] == NewHolder(columns[i])
  {
    values := [];
    for i := 0 to |columns|
      invariant |values| == i
      invariant forall j :: 0 <= j < i ==> values[j] == NewHolder(columns[j])
    {
      values := values + [NewHolder(columns[i])];
    }
  }

  /** Two holders of the same Go type. */
  predicate SameType(a: Holder, b: Holder) {
    match a
    case NullInt64(_, _) => b.NullInt64?
    case NullString(_, _) => b.NullString?
    case NullBool(_, _) => b.NullBool?
    case NullFloat64(_, _) => b.NullFloat64?
    case NullTime(_, _) => b.NullTime?
    case Bytes(_) => b.Bytes?
    case UnknownType(_) => b.UnknownType?
  }

  /** Values an allocated holder accepts from the driver; None is NULL. */
  predicate Accepts(h: Holder, v: Option<Value>) {
    v == None ||
    match h
    case NullInt64(_, _) => v.value.IntV?
    case NullString(_, _) => v.value.StrV?
    case NullBool(_, _) => v.value.BoolV?
    case NullFloat64(_, _) => v.value.FloatV?
    case NullTime(_, _) => v.value.TimeV?
    case Bytes(_) => v.value.JsonV?
    case UnknownType(_) => true
  }

  /** The driver's write of one cell into its holder; NULL resets it. */
  function Scan(h: Holder, v: Option<Value>): (r: Holder)
    requires Accepts(h, v)
    ensures SameType(h, r)
  {
    match h
    case NullInt64(_, _) => if v == None then NullInt64(false, 0) else NullInt64(true, v.value.i)
    case NullString(_, _) => if v == None then NullString(false, "") else NullString(true, v.value.s)
    case NullBool(_, _) => if v == None then NullBool(false, false) else NullBool(true, v.value.b)
    case NullFloat64(_, _) => if v == None then NullFloat64(false, 0.0) else NullFloat64(true, v.value.f)
    case NullTime(_, _) => if v == None then NullTime(false, 0) else NullTime(true, v.value.t)
    case Bytes(_) => if v == None then Bytes(NoBytes) else Bytes(v.value.json)
    case UnknownType(_) => UnknownType(v)
  }

  // ---------------------------------------------------------------- assignment

  /** A valid scan sets the field, a NULL leaves it as it was. */
  function SetIf(e: Entity, c: Column, valid: bool, v: Value): Entity {
    if valid then e.(fields := e.fields[c := v]) else e
  }

  /** A JSON field after decoding into it: an object's members are added to the map the field holds, and
      null leaves a nil map. */
  function Decoded(before: Option<Value>, json: Json): Option<Value> {
    match json
    case NoBytes => before
    case Undecodable => before
    case Null => None
    case Object(members) =>
      var held := if before.Some? && before.value.JsonV? && before.value.json.Object?
        then before.value.json.members else map[];
      Some(JsonV(Object(held + members)))
  }

  function Put(e: Entity, c: Column, v: Option<Value>): Entity {
    match v
    case Some(x) => e.(fields := e.fields[c := x])
    case None => e.(fields := e.fields - {c})
  }

  /** One arm of the assignment switch. The id is the only field written without looking at validity,
      and a name outside the schema goes to the select values whatever its holder is. */
  function AssignOne(e: Entity, c: Column, h: Holder): Result<Entity, AssignError> {
    match c
    case Id =>
      if h.NullInt64? then Success(SetIf(e, Id, true, IntV(h.Int64))) else Failure(UnexpectedType(c))
    case CreatedAt | UpdatedAt | DeletedAt | LastUsedAt | ExpiresAt | RateLimitedAt | RateLimitResetAt
       | OverloadUntil | TempUnschedulableUntil | SessionWindowStart | SessionWindowEnd =>
      if h.NullTime? then Success(SetIf(e, c, h.valid, TimeV(h.Time))) else Failure(UnexpectedType(c))
    case Name | Notes | Platform | Type | Status | ErrorMessage | TempUnschedulableReason
       | SessionWindowStatus | QuotaDimension =>
      if h.NullString? then Success(SetIf(e, c, h.valid, StrV(h.String))) else Failure(UnexpectedType(c))
    case OwnerUserID | ProxyID | ProxyFallbackOriginID | Concurrency | LoadFactor | Priority | ParentAccountID =>
      if h.NullInt64? then Success(SetIf(e, c, h.valid, IntV(h.Int64))) else Failure(UnexpectedType(c))
    case Credentials | Extra =>
      if !h.Bytes? then Failure(UnexpectedType(c))
      else if h.data.Undecodable? then Failure(Unmarshal(c))
      else Success(Put(e, c, Decoded(Get(e.fields, c), h.data)))
    case RateMultiplier =>
      if h.NullFloat64? then Success(SetIf(e, c, h.valid, FloatV(h.Float64))) else Failure(UnexpectedType(c))
    case AutoPauseOnExpired | Schedulable =>
      if h.NullBool? then Success(SetIf(e, c, h.valid, BoolV(h.Bool))) else Failure(UnexpectedType(c))
    case Other(name) =>
      Success(e.(selectValues := e.selectValues[name := h]))
  }

  /** Assignment of a whole column list to an entity, stopping at the first error. */
  function AssignAll(e: Entity, columns: seq<Column>, values: seq<Holder>): Result<Entity, AssignError>
    requires |columns| <= |values|
  {
    if columns == [] then Success(e)
    else
      var n := |columns| - 1;
      var before :- AssignAll(e, columns[..n], values);
      AssignOne(before, columns[n], values[n])
  }

  // ----------------------------------------------------------- the heap entity

  /** The edges of an entity; `A` is the representation of a neighbouring account. */
  datatype Edges<+A> = Edges(
    Groups: seq<Group>,
    Proxy: Option<Proxy>,
    Parent: Option<A>,
    Children: seq<A>,
    UsageLogs: seq<UsageLog>,
    AccountGroups: seq<AccountGroup>,
    loadedTypes: seq<bool>)
  {
    function GroupsOrErr(): Result<seq<Group>, EdgeError>
      requires |loadedTypes| == 6
    {
      if loadedTypes[0] then Success(Groups) else Failure(NotLoaded("groups"))
    }

    function ProxyOrErr(): Result<Proxy, EdgeError>
      requires |loadedTypes| == 6
    {
      if Proxy.Some? then Success(Proxy.value)
      else if loadedTypes[1] then Failure(NotFound("proxy"))
      else Failure(NotLoaded("proxy"))
    }

    function ParentOrErr(): Result<A, EdgeError>
      requires |loadedTypes| == 6
    {
      if Parent.Some? then Success(Parent.value)
      else if loadedTypes[2] then Failure(NotFound("account"))
      else Failure(NotLoaded("parent"))
    }

    function ChildrenOrErr(): Result<seq<A>, EdgeError>
      requires |loadedTypes| == 6
    {
      if loadedTypes[3] then Success(Children) else Failure(NotLoaded("children"))
    }

    function UsageLogsOrErr(): Result<seq<UsageLog>, EdgeError>
      requires |loadedTypes| == 6
    {
      if loadedTypes[4] then Success(UsageLogs) else Failure(NotLoaded("usage_logs"))
    }

    function AccountGroupsOrErr(): Result<seq<AccountGroup>, EdgeError>
      requires |loadedTypes| == 6
    {
      if loadedTypes[5] then Success(AccountGroups) else Failure(NotLoaded("account_groups"))
    }
  }

  datatype EdgeError = NotLoaded(edge: string) | NotFound(entity: string)

  datatype Group = Group(ID: int, data: map<string, string>)
  datatype Proxy = Proxy(ID: int, data: map<string, string>)
  datatype UsageLog = UsageLog(ID: int, AccountID: int, data: map<string, string>)
  datatype AccountGroup = AccountGroup(AccountID: int, GroupID: int, data: map<string, string>)

  class Account {
    var entity: Entity
    var Edges: Edges<Account>

    constructor (loadedTypes: seq<bool>)
      ensures entity == BLANK
      ensures Edges == NoEdges(loadedTypes)
    {
      entity := BLANK;
      Edges := NoEdges(loadedTypes);
    }

    /** Assigns scanned values column by column; an error leaves just the columns before it assigned. */
    method AssignValues(columns: seq<Column>, values: seq<Holder>) returns (err: Option<AssignError>)
      modifies this`entity
      ensures |values| < |columns| ==> err == Some(LengthMismatch(|values|, |columns|)) && entity == old(entity)
      ensures |values| >= |columns| ==>
        match AssignAll(old(entity), columns, values)
        case Success(e) => err == None && entity == e
        case Failure(e) => err == Some(e) && exists k :: StopsAt(old(entity), columns, values, k, entity, e)
    {
      if |values| < |columns| {
        return Some(LengthMismatch(|values|, |columns|));
      }
      for i := 0 to |columns|
        invariant AssignAll(old(entity), columns[..i], values) == Success(entity)
      {
        assert columns[..i+1][..i] == columns[..i];
        match AssignOne(entity, columns[i], values[i]) {
          case Success(e) =>
            entity := e;
          case Failure(e) =>
            AssignAllFailsEarly(old(entity), columns, values, i + 1);
            assert StopsAt(old(entity), columns, values, i, entity, e);
            return Some(e);
        }
      }
      assert columns[..|columns|] == columns;
      return None;
    }
  }

  /** The edges of an entity that nothing was loaded into. */
  function NoEdges<A>(loadedTypes: seq<bool>): Edges<A> {
    Edges([], None, None, [], [], [], loadedTypes)
  }

  /** The first `k` columns are assigned, and the next one is the error. */
  predicate StopsAt(e: Entity, columns: seq<Column>, values: seq<Holder>, k: nat, r: Entity, err: AssignError) {
    && k < |columns| <= |values|
    && AssignAll(e, columns[..k], values) == Success(r)
    && AssignOne(r, columns[k], values[k]) == Failure(err)
  }

  /** An error in a prefix is the error of the whole list. */
  lemma {:induction false} AssignAllFailsEarly(e: Entity, columns: seq<Column>, values: seq<Holder>, k: nat)
    requires k <= |columns| <= |values|
    requires AssignAll(e, columns[..k], values).Failure?
    ensures AssignAll(e, columns, values) == AssignAll(e, columns[..k], values)
    decreases |columns|
  {
    if k == |columns| {
      assert columns[..k] == columns;
    } else {
      var n := |columns| - 1;
      assert columns[..n][..k] == columns[..k];
      AssignAllFailsEarly(e, columns[..n], values, k);
    }
  }

  // ------------------------------------------------- scan and assign, together

  /** The holder has the type the assignment switch wants, and its JSON can be decoded. */
  predicate Fits(c: Column, h: Holder) {
    c.Other? || (SameType(NewHolder(c), h) && (h.Bytes? ==> !h.data.Undecodable?))
  }

  /** The scan switch and the assignment switch name the same Go type for every column: assignment succeeds
      exactly when every schema column comes in the holder scanning allocates and all JSON can be decoded. */
  lemma {:induction false} AssignAllSucceedsIff(e: Entity, columns: seq<Column>, values: seq<Holder>)
    requires |columns| <= |values|
    ensures AssignAll(e, columns, values).Success? <==> forall i :: 0 <= i < |columns| ==> Fits(columns[i], values[i])
  {
    if columns != [] {
      var n := |columns| - 1;
      AssignAllSucceedsIff(e, columns[..n], values);
      if AssignAll(e, columns[..n], values).Success? {
        var before := AssignAll(e, columns[..n], values).value;
        assert forall i :: 0 <= i < n ==> columns[i] == columns[..n][i];
        assert AssignOne(before, columns[n], values[n]).Success? <==> Fits(columns[n], values[n]);
      } else {
        var i :| 0 <= i < n && !Fits(columns[..n][i], values[i]);
        assert !Fits(columns[i], values[i]);
      }
    }
  }

  /** The first column that does not fit is the error: as JSON that cannot be decoded, or as a wrong type. */
  lemma {:induction false} AssignErrorIs(e: Entity, columns: seq<Column>, values: seq<Holder>, j: nat)
    requires j < |columns| <= |values| && !Fits(columns[j], values[j])
    requires forall i :: 0 <= i < j ==> Fits(columns[i], values[i])
    ensures AssignAll(e, columns, values)
         == Failure(if SameType(NewHolder(columns[j]), values[j]) then Unmarshal(columns[j])
                    else UnexpectedType(columns[j]))
  {
    var n := |columns| - 1;
    if j < n {
      AssignErrorIs(e, columns[..n], values, j);
    } else {
      AssignAllSucceedsIff(e, columns[..n], values);
      MisfitIs(AssignAll(e, columns[..n], values).value, columns[n], values[n]);
    }
  }

  lemma MisfitIs(e: Entity, c: Column, h: Holder)
    requires !Fits(c, h)
    ensures AssignOne(e, c, h) == Failure(if SameType(NewHolder(c), h) then Unmarshal(c) else UnexpectedType(c))
  {
  }

  /** What assigning a holder makes of its schema field. */
  function Updated(c: Column, h: Holder, before: Option<Value>): Option<Value> {
    match h
    case NullInt64(valid, v) => if valid || c == Id then Some(IntV(v)) else before
    case NullString(valid, v) => if valid then Some(StrV(v)) else before
    case NullBool(valid, v) => if valid then Some(BoolV(v)) else before
    case NullFloat64(valid, v) => if valid then Some(FloatV(v)) else before
    case NullTime(valid, v) => if valid then Some(TimeV(v)) else before
    case Bytes(json) => Decoded(before, json)
    case UnknownType(_) => before
  }

  /** The whole effect of one arm on an entity, once the holder fits. */
  lemma AssignOneEffect(e: Entity, c: Column, h: Holder)
    requires Fits(c, h)
    ensures AssignOne(e, c, h).Success?
    ensures var r := AssignOne(e, c, h).value;
      if c.Other? then r == e.(selectValues := e.selectValues[c.name := h])
      else OnlyFieldIs(e, c, Updated(c, h, Get(e.fields, c)), r)
  {
    if !c.Other? {
      AssignOnePuts(e, c, h);
      PutsUpdated(e, c, h);
    }
  }

  /** The fields after writing one. */
  ghost predicate OnlyFieldIs(e: Entity, c: Column, v: Option<Value>, r: Entity) {
    && r.selectValues == e.selectValues
    && Get(r.fields, c) == v
    && forall d :: d != c ==> Get(r.fields, d) == Get(e.fields, d)
  }

  lemma PutsUpdated(e: Entity, c: Column, h: Holder)
    requires !h.UnknownType?
    ensures OnlyFieldIs(e, c, Updated(c, h, Get(e.fields, c)), Assigned(e, c, h))
  {
    var before := Get(e.fields, c);
    PutWritesOne(e, c, Updated(c, h, before));
    PutWritesOne(e, c, before);
    PutBack(e, c);
    WrittenOrLeft(e, c, h);
  }

  lemma WrittenOrLeft(e: Entity, c: Column, h: Holder)
    requires !h.UnknownType?
    ensures var before, r := Get(e.fields, c), Assigned(e, c, h);
      r == Put(e, c, Updated(c, h, before)) || (r == e && Updated(c, h, before) == before)
  {
  }

  lemma PutWritesOne(e: Entity, c: Column, v: Option<Value>)
    ensures OnlyFieldIs(e, c, v, Put(e, c, v))
  {
  }

  lemma PutBack(e: Entity, c: Column)
    ensures Put(e, c, Get(e.fields, c)) == e
  {
    assert Put(e, c, Get(e.fields, c)).fields == e.fields;
  }

  /** What a holder of the right type does to an entity; nothing but the id depends on the column. */
  function Assigned(e: Entity, c: Column, h: Holder): Entity
    requires !h.UnknownType?
  {
    match h
    case NullInt64(valid, v) => SetIf(e, c, valid || c == Id, IntV(v))
    case NullString(valid, v) => SetIf(e, c, valid, StrV(v))
    case NullBool(valid, v) => SetIf(e, c, valid, BoolV(v))
    case NullFloat64(valid, v) => SetIf(e, c, valid, FloatV(v))
    case NullTime(valid, v) => SetIf(e, c, valid, TimeV(v))
    case Bytes(json) => Put(e, c, Decoded(Get(e.fields, c), json))
  }

  lemma AssignOnePuts(e: Entity, c: Column, h: Holder)
    requires Fits(c, h) && !c.Other?
    ensures !h.UnknownType? && AssignOne(e, c, h) == Success(Assigned(e, c, h))
  {
  }

  lemma FieldOfOne(e: Entity, c: Column, h: Holder, d: Column, name: string)
    requires Fits(c, h)
    ensures AssignOne(e, c, h).Success?
    ensures var r := AssignOne(e, c, h).value;
      && Get(r.fields, d) == (if c == d && !c.Other? then Updated(c, h, Get(e.fields, d)) else Get(e.fields, d))
      && Get(r.selectValues, name) == if c == Other(name) then Some(h) else Get(e.selectValues, name)
  {
    AssignOneEffect(e, c, h);
  }

  /** A field after an assignment: what the holders of its column make of it in turn. */
  function FieldAfter(e: Entity, columns: seq<Column>, values: seq<Holder>, c: Column): Option<Value>
    requires |columns| <= |values|
  {
    if columns == [] then Get(e.fields, c)
    else
      var n := |columns| - 1;
      var before := FieldAfter(e, columns[..n], values, c);
      if columns[n] == c && !c.Other? then Updated(c, values[n], before) else before
  }

  function SelectValueAfter(e: Entity, columns: seq<Column>, values: seq<Holder>, name: string): Option<Holder>
    requires |columns| <= |values|
  {
    if columns == [] then Get(e.selectValues, name)
    else
      var n := |columns| - 1;
      if columns[n] == Other(name) then Some(values[n])
      else SelectValueAfter(e, columns[..n], values, name)
  }

  /** Assignment is decided column by column: a NULL keeps the field, anything else replaces it (for the
      id even a NULL does, with 0) except that a JSON object adds its members to those the field holds; and
      no column touches another column's field. */
  lemma {:induction false} AssignedFields(e: Entity, columns: seq<Column>, values: seq<Holder>, c: Column, name: string)
    requires |columns| <= |values|
    requires forall i :: 0 <= i < |columns| ==> Fits(columns[i], values[i])
    ensures AssignAll(e, columns, values).Success?
    ensures Get(AssignAll(e, columns, values).value.fields, c) == FieldAfter(e, columns, values, c)
    ensures Get(AssignAll(e, columns, values).value.selectValues, name) == SelectValueAfter(e, columns, values, name)
  {
    if columns != [] {
      var n := |columns| - 1;
      assert forall i :: 0 <= i < n ==> columns[i] == columns[..n][i];
      AssignedFields(e, columns[..n], values, c, name);
      var before := AssignAll(e, columns[..n], values).value;
      FieldOfOne(before, columns[n], values[n], c, name);
    }
  }

  /** With duplicate-free columns, the one holder of a column decides its field. */
  lemma {:induction false} FieldOfDistinct(e: Entity, columns: seq<Column>, values: seq<Holder>, i: nat)
    requires i < |columns| <= |values| && Distinct(columns)
    ensures FieldAfter(e, columns, values, columns[i]) ==
        if columns[i].Other? then Get(e.fields, columns[i])
        else Updated(columns[i], values[i], Get(e.fields, columns[i]))
    ensures columns[i].Other? ==> SelectValueAfter(e, columns, values, columns[i].name) == Some(values[i])
  {
    var n := |columns| - 1;
    if i == n {
      FieldOfUnlisted(e, columns[..n], values, columns[n]);
    } else {
      FieldOfDistinct(e, columns[..n], values, i);
    }
  }

  lemma {:induction false} FieldOfUnlisted(e: Entity, columns: seq<Column>, values: seq<Holder>, c: Column)
    requires |columns| <= |values| && c !in columns
    ensures FieldAfter(e, columns, values, c) == Get(e.fields, c)
    ensures c.Other? ==> SelectValueAfter(e, columns, values, c.name) == Get(e.selectValues, c.name)
  {
    if columns != [] {
      FieldOfUnlisted(e, columns[..|columns| - 1], values, c);
    }
  }

  predicate InPairs(columns: seq<Column>, values: seq<Holder>, c: Column, h: Holder)
    requires |columns| == |values|
  {
    exists j :: 0 <= j < |columns| && columns[j] == c && values[j] == h
  }

  /** Two lists of the same (column, holder) pairs, in any order. */
  predicate SamePairs(columns: seq<Column>, values: seq<Holder>, columns': seq<Column>, values': seq<Holder>)
    requires |columns| == |values| && |columns'| == |values'|
  {
    && (forall i :: 0 <= i < |columns| ==> InPairs(columns', values', columns[i], values[i]))
    && (forall i :: 0 <= i < |columns'| ==> InPairs(columns, values, columns'[i], values'[i]))
  }

  lemma OneColumnSame(e: Entity, columns: seq<Column>, values: seq<Holder>,
                      columns': seq<Column>, values': seq<Holder>, c: Column)
    requires |columns| == |values| && |columns'| == |values'| && Distinct(columns) && Distinct(columns')
    requires SamePairs(columns, values, columns', values')
    ensures FieldAfter(e, columns, values, c) == FieldAfter(e, columns', values', c)
    ensures c.Other? ==> SelectValueAfter(e, columns, values, c.name) == SelectValueAfter(e, columns', values', c.name)
  {
    assert c in columns' ==> c in columns by {
      if c in columns' {
        var j :| 0 <= j < |columns'| && columns'[j] == c;
        assert InPairs(columns, values, columns'[j], values'[j]);
      }
    }
    if c in columns {
      var i :| 0 <= i < |columns| && columns[i] == c;
      assert InPairs(columns', values', columns[i], values[i]);
      var j :| 0 <= j < |columns'| && columns'[j] == c && values'[j] == values[i];
      FieldOfDistinct(e, columns, values, i);
      FieldOfDistinct(e, columns', values', j);
    } else {
      FieldOfUnlisted(e, columns, values, c);
      FieldOfUnlisted(e, columns', values', c);
    }
  }

  /** The entity does not depend on the order in which duplicate-free columns arrive. */
  lemma AssignOrderIrrelevant(e: Entity, columns: seq<Column>, values: seq<Holder>,
                              columns': seq<Column>, values': seq<Holder>)
    requires |columns| == |values| && |columns'| == |values'| && Distinct(columns) && Distinct(columns')
    requires forall i :: 0 <= i < |columns| ==> Fits(columns[i], values[i])
    requires SamePairs(columns, values, columns', values')
    ensures AssignAll(e, columns, values).Success?
    ensures AssignAll(e, columns', values') == AssignAll(e, columns, values)
  {
    forall i | 0 <= i < |columns'|
      ensures Fits(columns'[i], values'[i])
    {
      assert InPairs(columns, values, columns'[i], values'[i]);
    }
    AssignAllSucceedsIff(e, columns, values);
    AssignAllSucceedsIff(e, columns', values');
    var r, r' := AssignAll(e, columns, values).value, AssignAll(e, columns', values').value;
    forall c: Column
      ensures Get(r.fields, c) == Get(r'.fields, c)
    {
      AssignedFields(e, columns, values, c, "");
      AssignedFields(e, columns', values', c, "");
      OneColumnSame(e, columns, values, columns', values', c);
    }
    forall s: string
      ensures Get(r.selectValues, s) == Get(r'.selectValues, s)
    {
      AssignedFields(e, columns, values, Id, s);
      AssignedFields(e, columns', values', Id, s);
      OneColumnSame(e, columns, values, columns', values', Other(s));
    }
    SameMap(r.fields, r'.fields);
    SameMap(r.selectValues, r'.selectValues);
  }

  lemma SameMap<K, V>(m: map<K, V>, m': map<K, V>)
    requires forall k :: Get(m, k) == Get(m', k)
    ensures m == m'
  {
    assert forall k :: k in m ==> Get(m, k) == Get(m', k) && k in m';
    assert forall k :: k in m' ==> Get(m, k) == Get(m', k) && k in m;
  }
}
