/** Creating accounts: defaults and checks of one builder, and the bulk save whose mutators call each other
    in a chain, each wrapped in its builder's hooks, with one insert at the end. */
module BulkCreate {
  import opened Sequences
  import opened AccountEntity

  type Settings = map<Column, Value>

  /** What the runtime package initializes: default functions (nil until set), default values and validators. */
  datatype Env = Env(
    defaultCreatedAt: Option<Value>,
    defaultUpdatedAt: Option<Value>,
    defaultCredentials: Option<Value>,
    defaultExtra: Option<Value>,
    defaultConcurrency: Value,
    defaultPriority: Value,
    defaultRateMultiplier: Value,
    defaultStatus: Value,
    defaultAutoPauseOnExpired: Value,
    defaultSchedulable: Value,
    valid: (Column, Value) -> bool)

  datatype CreateError =
    | UninitializedDefault(column: Column)
    | MissingField(column: Column)
    | InvalidField(column: Column)
    | Rejected(reason: string)          // returned by a hook
    | BatchFailed(constraint: bool)     // returned by the insert
    | BuilderError(reason: string)      // carried by the bulk builder itself

  // ------------------------------------------------------- defaults and check

  datatype Defaulting = Defaulting(fields: Settings, err: Option<CreateError>)

  const DEFAULT_QUOTA_DIMENSION: Value := StrV("global")

  /** The fields with a default, in the order they are defaulted: those with functions, then those with values. */
  const FUNCTION_COLUMNS: seq<Column> := [CreatedAt, UpdatedAt, Credentials, Extra]
  const NUMBER_COLUMNS: seq<Column> := [Concurrency, Priority, RateMultiplier]
  const STATUS_COLUMNS: seq<Column> := [Status, AutoPauseOnExpired, Schedulable]
  const DEFAULT_COLUMNS: seq<Column> := FUNCTION_COLUMNS + NUMBER_COLUMNS + STATUS_COLUMNS + [QuotaDimension]

  /** The schema's default of a field; a nil default function gives none. */
  function DefaultOf(env: Env, c: Column): Option<Value> {
    match c
    case CreatedAt => env.defaultCreatedAt
    case UpdatedAt => env.defaultUpdatedAt
    case Credentials => env.defaultCredentials
    case Extra => env.defaultExtra
    case Concurrency => Some(env.defaultConcurrency)
    case Priority => Some(env.defaultPriority)
    case RateMultiplier => Some(env.defaultRateMultiplier)
    case Status => Some(env.defaultStatus)
    case AutoPauseOnExpired => Some(env.defaultAutoPauseOnExpired)
    case Schedulable => Some(env.defaultSchedulable)
    case QuotaDimension => Some(DEFAULT_QUOTA_DIMENSION)
    case _ => None
  }

  /** An unset field gets its default; a missing default is an error and stops the rest. */
  function DefaultStep(d: Defaulting, c: Column, v: Option<Value>): Defaulting {
    if d.err.Some? || c in d.fields then d
    else if v.Some? then d.(fields := d.fields[c := v.value])
    else d.(err := Some(UninitializedDefault(c)))
  }

  function DefaultsOver(env: Env, fields: Settings, columns: seq<Column>): Defaulting {
    if columns == [] then Defaulting(fields, None)
    else
      var n := |columns| - 1;
      DefaultStep(DefaultsOver(env, fields, columns[..n]), columns[n], DefaultOf(env, columns[n]))
  }

  /** The fields after defaulting, and the error that may have cut it short. */
  function Defaults(env: Env, fields: Settings): Defaulting {
    DefaultsOver(env, fields, DEFAULT_COLUMNS)
  }

  lemma DefaultsNext(env: Env, fields: Settings, columns: seq<Column>, c: Column)
    ensures DefaultsOver(env, fields, columns + [c])
         == DefaultStep(DefaultsOver(env, fields, columns), c, DefaultOf(env, c))
  {
    assert (columns + [c])[..|columns|] == columns;
  }

  lemma {:induction false} DefaultErrorStays(env: Env, fields: Settings, columns: seq<Column>, k: nat)
    requires k <= |columns| && DefaultsOver(env, fields, columns[..k]).err.Some?
    ensures DefaultsOver(env, fields, columns) == DefaultsOver(env, fields, columns[..k])
    decreases |columns|
  {
    if k == |columns| {
      assert columns[..k] == columns;
    } else {
      var n := |columns| - 1;
      assert columns[..n][..k] == columns[..k];
      DefaultErrorStays(env, fields, columns[..n], k);
    }
  }

  function OrElse<E>(first: Option<E>, second: Option<E>): Option<E> {
    if first.Some? then first else second
  }

  function Missing(fields: Settings, c: Column): Option<CreateError> {
    if c in fields then None else Some(MissingField(c))
  }

  function Invalid(env: Env, fields: Settings, c: Column): Option<CreateError> {
    if c in fields && !env.valid(c, fields[c]) then Some(InvalidField(c)) else None
  }

  /** The enum validator of the quota dimension is fixed in the generated package. */
  function InvalidQuota(fields: Settings): Option<CreateError> {
    if QuotaDimension in fields && fields[QuotaDimension] != StrV("global") && fields[QuotaDimension] != StrV("spark")
    then Some(InvalidField(QuotaDimension)) else None
  }

  /** The first failed check of a builder. */
  function Check(env: Env, fields: Settings): Option<CreateError> {
    OrElse(Missing(fields, CreatedAt),
    OrElse(Missing(fields, UpdatedAt),
    OrElse(Missing(fields, Name),
    OrElse(Invalid(env, fields, Name),
    OrElse(Missing(fields, Platform),
    OrElse(Invalid(env, fields, Platform),
    OrElse(Missing(fields, Type),
    OrElse(Invalid(env, fields, Type),
    OrElse(Missing(fields, Credentials),
    OrElse(Missing(fields, Extra),
    OrElse(Missing(fields, Concurrency),
    OrElse(Missing(fields, Priority),
    OrElse(Missing(fields, RateMultiplier),
    OrElse(Missing(fields, Status),
    OrElse(Invalid(env, fields, Status),
    OrElse(Missing(fields, AutoPauseOnExpired),
    OrElse(Missing(fields, Schedulable),
    OrElse(Invalid(env, fields, SessionWindowStatus),
    OrElse(Missing(fields, QuotaDimension), InvalidQuota(fields))))))))))))))))))))
  }

  // ------------------------------------------------------------ hooks and chain

  /** What a hook does around the next mutator. */
  datatype Hook =
    | Pass
    | Reject(reason: string)                 // returns an error without calling next
    | Skip                                   // returns no error without calling next
    | FailAfter(failure: string)             // calls next and returns an error even if next did not
    | Edit(column: Column, value: Value)     // sets a field of the mutation, then calls next
    | Replace(other: AccountMutation)        // calls next with another mutation
    | Again(more: nat, always: bool)         // calls next up to `more` further times, always or while it fails

  /** What is written for one builder; the insert fills in the id. */
  datatype CreateSpec = CreateSpec(fields: Settings, id: Option<int>)

  function NewSpec(fields: Settings): CreateSpec {
    CreateSpec(fields, None)
  }

  datatype Node = Node(ID: int, fields: Settings)

  /** The insert: ids for the specs, in order, or an error. */
  datatype BatchResult = Inserted(ids: seq<Option<int>>) | NotInserted(constraint: bool)

  datatype Event =
    | Enter(i: nat, k: nat)
    | Checked(i: nat, fields: Settings, ok: bool)
    | Built(i: nat, spec: CreateSpec)
    | Batch(specs: seq<CreateSpec>, result: BatchResult)
    | Done(i: nat)
    | Exit(i: nat, k: nat)

  class AccountMutation {
    var fields: Settings
    var done: bool
    var id: Option<nat>   // the slot whose node holds the id this mutation points to

    constructor (fields: Settings)
      ensures this.fields == fields && !done && id == None
    {
      this.fields, done, id := fields, false, None;
    }
  }

  class AccountCreate {
    const hooks: seq<Hook>
    var mutation: AccountMutation

    constructor (hooks: seq<Hook>, mutation: AccountMutation)
      ensures this.hooks == hooks && this.mutation == mutation
    {
      this.hooks, this.mutation := hooks, mutation;
    }

    /** The fields are what defaulting some columns makes of `fields`. */
    ghost predicate Defaulted(env: Env, fields: Settings, columns: seq<Column>, err: Option<CreateError>)
      reads this, mutation
    {
      Defaulting(mutation.fields, err) == DefaultsOver(env, fields, columns)
    }

    /** One more column, with its default `v`. */
    method SetDefault(c: Column, v: Option<Value>, env: Env, ghost fields: Settings, ghost columns: seq<Column>)
      returns (err: Option<CreateError>)
      requires v == DefaultOf(env, c) && Defaulted(env, fields, columns, None)
      modifies mutation`fields
      ensures Defaulted(env, fields, columns + [c], err)
      ensures v.Some? ==> err == None
    {
      DefaultsNext(env, fields, columns, c);
      if c !in mutation.fields {
        if v == None {
          return Some(UninitializedDefault(c));
        }
        mutation.fields := mutation.fields[c := v.value];
      }
      return None;
    }

    method SetFunctionDefaults(env: Env) returns (err: Option<CreateError>, ghost columns: seq<Column>)
      modifies mutation`fields
      ensures columns <= FUNCTION_COLUMNS && (err == None ==> columns == FUNCTION_COLUMNS)
      ensures Defaulted(env, old(mutation.fields), columns, err)
    {
      ghost var fields := mutation.fields;
      err := SetDefault(CreatedAt, env.defaultCreatedAt, env, fields, []);
      columns := [CreatedAt];
      if err != None { return; }
      err := SetDefault(UpdatedAt, env.defaultUpdatedAt, env, fields, columns);
      columns := columns + [UpdatedAt];
      if err != None { return; }
      err := SetDefault(Credentials, env.defaultCredentials, env, fields, columns);
      columns := columns + [Credentials];
      if err != None { return; }
      err := SetDefault(Extra, env.defaultExtra, env, fields, columns);
      columns := columns + [Extra];
    }

    method SetNumberDefaults(env: Env, ghost fields: Settings, ghost columns: seq<Column>)
      requires Defaulted(env, fields, columns, None)
      modifies mutation`fields
      ensures Defaulted(env, fields, columns + NUMBER_COLUMNS, None)
    {
      var _ := SetDefault(Concurrency, Some(env.defaultConcurrency), env, fields, columns);
      var _ := SetDefault(Priority, Some(env.defaultPriority), env, fields, columns + [Concurrency]);
      var _ := SetDefault(RateMultiplier, Some(env.defaultRateMultiplier), env, fields,
        columns + [Concurrency] + [Priority]);
      assert columns + [Concurrency] + [Priority] + [RateMultiplier] == columns + NUMBER_COLUMNS;
    }

    method SetStatusDefaults(env: Env, ghost fields: Settings, ghost columns: seq<Column>)
      requires Defaulted(env, fields, columns, None)
      modifies mutation`fields
      ensures Defaulted(env, fields, columns + STATUS_COLUMNS, None)
    {
      var _ := SetDefault(Status, Some(env.defaultStatus), env, fields, columns);
      var _ := SetDefault(AutoPauseOnExpired, Some(env.defaultAutoPauseOnExpired), env, fields, columns + [Status]);
      var _ := SetDefault(Schedulable, Some(env.defaultSchedulable), env, fields,
        columns + [Status] + [AutoPauseOnExpired]);
      assert columns + [Status] + [AutoPauseOnExpired] + [Schedulable] == columns + STATUS_COLUMNS;
    }

    /** Sets the defaults of all fields not set so far, in order. */
    method SetDefaults(env: Env) returns (err: Option<CreateError>)
      modifies mutation`fields
      ensures Defaulting(mutation.fields, err) == Defaults(env, old(mutation.fields))
    {
      ghost var fields, columns := mutation.fields, [];
      err, columns := SetFunctionDefaults(env);
      if err == None {
        SetNumberDefaults(env, fields, FUNCTION_COLUMNS);
        SetStatusDefaults(env, fields, FUNCTION_COLUMNS + NUMBER_COLUMNS);
        err := SetDefault(QuotaDimension, Some(DEFAULT_QUOTA_DIMENSION), env, fields,
                          FUNCTION_COLUMNS + NUMBER_COLUMNS + STATUS_COLUMNS);
      } else {
        assert DEFAULT_COLUMNS[..|columns|] == columns;
        DefaultErrorStays(env, fields, DEFAULT_COLUMNS, |columns|);
      }
    }
  }

  // --------------------------------------------------------- the chain, on values

  datatype Mut = Mut(fields: Settings, done: bool, id: Option<nat>)

  /** Everything the closures of a bulk save share. */
  datatype State = State(
    trace: seq<Event>,
    muts: map<AccountMutation, Mut>,
    current: map<AccountCreate, AccountMutation>,
    specs: seq<Option<CreateSpec>>,
    nodes: seq<Option<Node>>,
    inserts: nat)   // how many batches the database has answered
  {
    ghost function Log(e: Event): State {
      this.(trace := trace + [e])
    }
  }

  /** `db` is the database's answer to a batch, given how many batches came before it. */
  datatype Plan = Plan(builders: seq<AccountCreate>, env: Env, db: (nat, seq<CreateSpec>) -> BatchResult)

  /** The mutations hooks may substitute. */
  ghost function Replacements(builders: seq<AccountCreate>): set<AccountMutation> {
    set b, h | b in builders && h in b.hooks && h.Replace? :: h.other
  }

  /** The state covers the plan: its builders, their mutations and every replacement. */
  ghost predicate Covers(p: Plan, s: State) {
    Knows(s, p.builders)
  }

  ghost predicate Knows(s: State, builders: seq<AccountCreate>) {
    && |s.specs| == |s.nodes| == |builders|
    && (forall b :: b in builders ==> b in s.current && s.current[b] in s.muts)
    && Replacements(builders) <= s.muts.Keys
  }

  lemma ReplacementIsCovered(builders: seq<AccountCreate>, i: nat, k: nat)
    requires i < |builders| && k < |builders[i].hooks| && builders[i].hooks[k].Replace?
    ensures builders[i].hooks[k].other in Replacements(builders)
  {
    assert builders[i].hooks[k] in builders[i].hooks;
  }

  ghost predicate BuiltBelow(s: State, i: nat)
    requires i <= |s.specs|
  {
    forall j :: 0 <= j < i ==> s.specs[j].Some?
  }

  ghost function AllSpecs(s: State): seq<CreateSpec>
    requires BuiltBelow(s, |s.specs|)
  {
    seq(|s.specs|, j requires 0 <= j < |s.specs| => s.specs[j].value)
  }

  datatype Outcome = Outcome(state: State, err: Option<CreateError>)

  /** Two slots with the same fields, or both empty. */
  predicate SameSlot(a: Option<CreateSpec>, b: Option<CreateSpec>) {
    (a.Some? <==> b.Some?) && (a.Some? ==> a.value.fields == b.value.fields)
  }

  /** What a call may change: it grows the trace and leaves the slots below `i` alone, but for their ids. */
  ghost predicate Extends(s: State, s': State, i: nat) {
    && |s'.specs| == |s.specs| && |s'.nodes| == |s.nodes| && i <= |s.specs| && i <= |s.nodes|
    && s'.muts.Keys == s.muts.Keys && s'.current.Keys == s.current.Keys
    && (forall j :: 0 <= j < i ==> SameSlot(s'.specs[j], s.specs[j]) && s'.nodes[j] == s.nodes[j])
  }

  /** Builder `i` takes the mutation that reached it and builds its node and spec. */
  ghost function Build(p: Plan, s: State, i: nat, m: AccountMutation): State
    requires i < |p.builders| == |s.specs| == |s.nodes| && m in s.muts
  {
    var fields := s.muts[m].fields;
    s.(trace := s.trace + [Built(i, NewSpec(fields))],
       current := s.current[p.builders[i] := m],
       specs := s.specs[i := Some(NewSpec(fields))],
       nodes := s.nodes[i := Some(Node(0, fields))])
  }

  /** The ids the insert returned, written into the specs. */
  function Numbered(slots: seq<Option<CreateSpec>>, ids: seq<Option<int>>): (r: seq<Option<CreateSpec>>)
    ensures |r| == |slots| && forall j :: 0 <= j < |slots| ==> SameSlot(r[j], slots[j])
  {
    seq(|slots|, j requires 0 <= j < |slots| =>
      if slots[j].Some? && j < |ids| && ids[j].Some? then Some(slots[j].value.(id := ids[j])) else slots[j])
  }

  ghost function Insert(p: Plan, s: State): Outcome
    requires BuiltBelow(s, |s.specs|)
  {
    var result := p.db(s.inserts, AllSpecs(s));
    var s' := s.(trace := s.trace + [Batch(AllSpecs(s), result)], inserts := s.inserts + 1);
    match result
    case Inserted(ids) => Outcome(s'.(specs := Numbered(s.specs, ids)), None)
    case NotInserted(constraint) => Outcome(s', Some(BatchFailed(constraint)))
  }

  ghost function Finish(s: State, i: nat, m: AccountMutation): State
    requires i < |s.nodes| == |s.specs| && m in s.muts && s.nodes[i].Some? && s.specs[i].Some?
  {
    var id := if s.specs[i].value.id.Some? then s.specs[i].value.id.value else s.nodes[i].value.ID;
    s.(trace := s.trace + [Done(i)],
       muts := s.muts[m := s.muts[m].(done := true, id := Some(i))],
       nodes := s.nodes[i := Some(s.nodes[i].value.(ID := id))])
  }

  /** Mutator `i` from its `k`-th hook inwards, called with mutation `m`. */
  ghost function Run(p: Plan, s: State, i: nat, k: nat, m: AccountMutation): (r: Outcome)
    requires i < |p.builders| && k <= |p.builders[i].hooks|
    requires Covers(p, s) && m in s.muts && BuiltBelow(s, i)
    ensures Covers(p, r.state) && Extends(s, r.state, i)
    decreases |p.builders| - i, |p.builders[i].hooks| - k, 2, 0
  {
    if k < |p.builders[i].hooks| then
      var r := RunHook(p, s.Log(Enter(i, k)), i, k, m);
      r.(state := r.state.Log(Exit(i, k)))
    else RunMutator(p, s, i, m)
  }

  /** What hook `k` of builder `i` does between its entry and its exit. */
  ghost function RunHook(p: Plan, s: State, i: nat, k: nat, m: AccountMutation): (r: Outcome)
    requires i < |p.builders| && k < |p.builders[i].hooks|
    requires Covers(p, s) && m in s.muts && BuiltBelow(s, i)
    ensures Covers(p, r.state) && Extends(s, r.state, i)
    decreases |p.builders| - i, |p.builders[i].hooks| - k, 1, 0
  {
    var h := p.builders[i].hooks[k];
    if Blocks(h) then Outcome(s, if h.Reject? then Some(Rejected(h.reason)) else None)
    else
      HandedOnIsCovered(p, s, i, k, m);
      var first := Run(p, Edited(s, m, h), i, k + 1, HandedOn(m, h));
      var r := RunAgain(p, first.state, i, k, HandedOn(m, h), Tries(h), first.err);
      Outcome(r.state, OrElse(r.err, LateFailure(h)))
  }

  /** The further calls of a hook with `left` of them to go, the last one having answered `err`. */
  ghost function RunAgain(p: Plan, s: State, i: nat, k: nat, m: AccountMutation, left: nat, err: Option<CreateError>):
      (r: Outcome)
    requires i < |p.builders| && k < |p.builders[i].hooks|
    requires Covers(p, s) && m in s.muts && BuiltBelow(s, i)
    ensures Covers(p, r.state) && Extends(s, r.state, i)
    decreases |p.builders| - i, |p.builders[i].hooks| - k, 0, left
  {
    if left == 0 || !CallsAgain(p.builders[i].hooks[k], err) then Outcome(s, err)
    else
      var r := Run(p, s, i, k + 1, m);
      RunAgain(p, r.state, i, k, m, left - 1, r.err)
  }

  /** A hook that calls on just once. */
  lemma RunHookOnce(p: Plan, s: State, i: nat, k: nat, m: AccountMutation)
    requires i < |p.builders| && k < |p.builders[i].hooks| && Covers(p, s) && m in s.muts && BuiltBelow(s, i)
    requires !Blocks(p.builders[i].hooks[k]) && Tries(p.builders[i].hooks[k]) == 0
    ensures var h := p.builders[i].hooks[k];
      && HandedOn(m, h) in s.muts
      && var r := Run(p, Edited(s, m, h), i, k + 1, HandedOn(m, h));
         RunHook(p, s, i, k, m) == Outcome(r.state, OrElse(r.err, LateFailure(h)))
  {
    HandedOnIsCovered(p, s, i, k, m);
  }

  lemma RunAgainStep(p: Plan, s: State, i: nat, k: nat, m: AccountMutation, left: nat, err: Option<CreateError>)
    requires i < |p.builders| && k < |p.builders[i].hooks| && left > 0 && CallsAgain(p.builders[i].hooks[k], err)
    requires Covers(p, s) && m in s.muts && BuiltBelow(s, i)
    ensures var r := Run(p, s, i, k + 1, m);
      && Covers(p, r.state) && m in r.state.muts && BuiltBelow(r.state, i)
      && RunAgain(p, s, i, k, m, left, err) == RunAgain(p, r.state, i, k, m, left - 1, r.err)
  {
  }

  /** The hook does not call on. */
  predicate Blocks(h: Hook) {
    h.Reject? || h.Skip?
  }

  /** How many further calls the hook may make. */
  function Tries(h: Hook): nat {
    if h.Again? then h.more else 0
  }

  /** After such an answer the hook calls on again while it has calls left; the last answer is its own. */
  predicate CallsAgain(h: Hook, err: Option<CreateError>) {
    h.Again? && (h.always || err.Some?)
  }

  /** The error a hook adds after calling on. */
  function LateFailure(h: Hook): Option<CreateError> {
    if h.FailAfter? then Some(Rejected(h.failure)) else None
  }

  lemma HandedOnIsCovered(p: Plan, s: State, i: nat, k: nat, m: AccountMutation)
    requires i < |p.builders| && k < |p.builders[i].hooks| && Covers(p, s) && m in s.muts
    ensures HandedOn(m, p.builders[i].hooks[k]) in s.muts
  {
    if p.builders[i].hooks[k].Replace? {
      ReplacementIsCovered(p.builders, i, k);
    }
  }

  /** The mutation a hook calls the next mutator with, and the state it leaves it in. */
  function HandedOn(m: AccountMutation, h: Hook): AccountMutation {
    if h.Replace? then h.other else m
  }

  ghost function Edited(s: State, m: AccountMutation, h: Hook): State
    requires m in s.muts
  {
    if h.Edit? then EditField(s, m, h.column, h.value) else s
  }

  ghost function EditField(s: State, m: AccountMutation, c: Column, v: Value): State
    requires m in s.muts
  {
    s.(muts := s.muts[m := s.muts[m].(fields := s.muts[m].fields[c := v])])
  }

  /** The mutator of builder `i` itself: check, build, go on to the next builder or insert, finish. */
  ghost function RunMutator(p: Plan, s: State, i: nat, m: AccountMutation): (r: Outcome)
    requires i < |p.builders| && Covers(p, s) && m in s.muts && BuiltBelow(s, i)
    ensures Covers(p, r.state) && Extends(s, r.state, i)
    decreases |p.builders| - i, 0, 1, 0
  {
    var b := Begin(p, s, i, m);
    if b.err.Some? then b
    else
      var r := RunNext(p, b.state, i);
      if r.err.Some? then r else Outcome(Finish(r.state, i, m), None)
  }

  /** The check reads the builder's own mutation, the build takes the one that was passed in. */
  ghost function Begin(p: Plan, s: State, i: nat, m: AccountMutation): (r: Outcome)
    requires i < |p.builders| && Covers(p, s) && m in s.muts && BuiltBelow(s, i)
    ensures Covers(p, r.state) && Extends(s, r.state, i)
    ensures r.err == None ==> BuiltBelow(r.state, i + 1) && r.state.nodes[i].Some?
  {
    var fields := s.muts[s.current[p.builders[i]]].fields;
    var bad := Check(p.env, fields);
    var s0 := s.Log(Checked(i, fields, bad.None?));
    if bad.Some? then Outcome(s0, bad) else Outcome(Build(p, s0, i, m), None)
  }

  ghost function RunNext(p: Plan, s: State, i: nat): (r: Outcome)
    requires i < |p.builders| && Covers(p, s) && BuiltBelow(s, i + 1)
    ensures Covers(p, r.state) && Extends(s, r.state, i + 1)
    decreases |p.builders| - i - 1, 1 + (if i + 1 < |p.builders| then |p.builders[i+1].hooks| else 0), 0, 0
  {
    if i < |p.builders| - 1 then Run(p, s, i + 1, 0, s.current[p.builders[i+1]]) else Insert(p, s)
  }

  // ---------------------------------------------------------------- the save

  /** The builders' defaults below `n`, one after the other; a defaulting error is dropped. */
  ghost function Prepared(p: Plan, s: State, n: nat): (r: State)
    requires n <= |p.builders| && Covers(p, s)
    ensures Covers(p, r)
  {
    DefaultedBelow(p.builders, p.env, s, n)
  }

  ghost function DefaultedBelow(builders: seq<AccountCreate>, env: Env, s: State, n: nat): (r: State)
    requires n <= |builders| && Knows(s, builders)
    ensures Knows(r, builders) && r.muts.Keys == s.muts.Keys && r == s.(muts := r.muts)
  {
    if n == 0 then s
    else
      var before := DefaultedBelow(builders, env, s, n - 1);
      DefaultOne(env, before, before.current[builders[n-1]])
  }

  ghost function DefaultOne(env: Env, s: State, m: AccountMutation): State
    requires m in s.muts
  {
    s.(muts := s.muts[m := s.muts[m].(fields := Defaults(env, s.muts[m].fields).fields)])
  }

  /** A whole bulk save from the state its builders are in. */
  ghost function SaveAll(p: Plan, s: State): Outcome
    requires Covers(p, s)
  {
    var s0 := Prepared(p, s, |p.builders|);
    if |p.builders| == 0 then Outcome(s0, None) else Run(p, s0, 0, 0, s0.current[p.builders[0]])
  }
}
