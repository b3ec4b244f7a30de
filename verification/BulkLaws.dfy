/** Laws of defaults and checks, and the bracketing of a bulk save whose hooks pass on. */
module BulkLaws {
  import opened Sequences
  import opened AccountEntity
  import opened BulkCreate

  // -------------------------------------------------------- defaults and checks

  const FROM_FUNCTION: set<Column> := {CreatedAt, UpdatedAt, Credentials, Extra}
  const PLAIN: set<Column> :=
    {Concurrency, Priority, RateMultiplier, Status, AutoPauseOnExpired, Schedulable, QuotaDimension}
  const DEFAULTED: set<Column> := FROM_FUNCTION + PLAIN
  const REQUIRED: set<Column> := DEFAULTED + {Name, Platform, Type}

  /** A builder passes its check exactly when every required field is set and every validated one is valid. */
  lemma CheckPassesIff(env: Env, fields: Settings)
    ensures Check(env, fields) == None <==>
      && REQUIRED <= fields.Keys
      && env.valid(Name, fields[Name]) && env.valid(Platform, fields[Platform]) && env.valid(Type, fields[Type])
      && env.valid(Status, fields[Status])
      && (SessionWindowStatus in fields ==> env.valid(SessionWindowStatus, fields[SessionWindowStatus]))
      && fields[QuotaDimension] in {StrV("global"), StrV("spark")}
  {
  }

  /** Without a default to get and without a value. */
  predicate Lacks(env: Env, fields: Settings, c: Column) {
    DefaultOf(env, c) == None && c !in fields
  }

  /** Some field is unset and its default, a function, was never set either. */
  predicate Starved(env: Env, fields: Settings) {
    || Lacks(env, fields, CreatedAt) || Lacks(env, fields, UpdatedAt)
    || Lacks(env, fields, Credentials) || Lacks(env, fields, Extra)
  }

  lemma StarvedLacks(env: Env, fields: Settings, columns: seq<Column>)
    requires forall c :: c in columns <==> c in DEFAULTED
    ensures Starved(env, fields) <==> exists c :: c in columns && Lacks(env, fields, c)
  {
    if Starved(env, fields) {
      var c :| c in FROM_FUNCTION && Lacks(env, fields, c);
      assert c in columns;
    }
    if c :| c in columns && Lacks(env, fields, c) {
      assert c in DEFAULTED;
    }
  }

  lemma {:induction false} DefaultsOverAre(env: Env, fields: Settings, columns: seq<Column>)
    ensures var d := DefaultsOver(env, fields, columns);
      && (d.err.Some? <==> exists c :: c in columns && Lacks(env, fields, c))
      && (d.err.Some? ==> exists c :: c in columns && Lacks(env, d.fields, c))
      && (d.err == None ==> forall c :: c in d.fields <==> c in fields || c in columns)
      && (forall c :: c in fields ==> c in d.fields)
  {
    if columns != [] {
      var n := |columns| - 1;
      var before, c := DefaultsOver(env, fields, columns[..n]), columns[n];
      DefaultsOverAre(env, fields, columns[..n]);
      assert columns == columns[..n] + [c];
      if before.err.Some? {
        var x :| x in columns[..n] && Lacks(env, fields, x);
        var y :| y in columns[..n] && Lacks(env, before.fields, y);
        assert x in columns && y in columns;
      } else if c !in before.fields && DefaultOf(env, c) == None {
        assert Lacks(env, fields, c) && Lacks(env, before.fields, c);
      }
    }
  }

  /** The error of defaulting names the first unset field whose default is nil. */
  lemma {:induction false} DefaultErrorIs(env: Env, fields: Settings, columns: seq<Column>, j: nat)
    requires j < |columns| && Lacks(env, fields, columns[j])
    requires forall i :: 0 <= i < j ==> !Lacks(env, fields, columns[i])
    ensures DefaultsOver(env, fields, columns).err == Some(UninitializedDefault(columns[j]))
  {
    var n := |columns| - 1;
    if j < n {
      DefaultErrorIs(env, fields, columns[..n], j);
    } else {
      DefaultsOverAre(env, fields, columns[..n]);
      DefaultsOverFill(env, fields, columns[..n], columns[n]);
    }
  }

  /** Defaulting fails exactly when a field with a nil default function is unset; that field stays unset then,
      and otherwise every defaulted field ends up set. */
  lemma DefaultsAre(env: Env, fields: Settings)
    ensures var d := Defaults(env, fields);
      && (d.err.Some? <==> Starved(env, fields))
      && (d.err.Some? ==> Starved(env, d.fields))
      && (d.err == None ==> d.fields.Keys == fields.Keys + DEFAULTED)
  {
    var d := Defaults(env, fields);
    DefaultColumnsAre();
    DefaultsOverAre(env, fields, DEFAULT_COLUMNS);
    DefaultingIs(env, fields, d, DEFAULT_COLUMNS);
  }

  lemma DefaultingIs(env: Env, fields: Settings, d: Defaulting, columns: seq<Column>)
    requires forall c :: c in columns <==> c in DEFAULTED
    requires d.err.Some? <==> exists c :: c in columns && Lacks(env, fields, c)
    requires d.err.Some? ==> exists c :: c in columns && Lacks(env, d.fields, c)
    requires d.err == None ==> forall c :: c in d.fields <==> c in fields || c in columns
    ensures d.err.Some? <==> Starved(env, fields)
    ensures d.err.Some? ==> Starved(env, d.fields)
    ensures d.err == None ==> d.fields.Keys == fields.Keys + DEFAULTED
  {
    StarvedLacks(env, fields, columns);
    StarvedLacks(env, d.fields, columns);
  }

  lemma DefaultColumnsAre()
    ensures forall c :: c in DEFAULT_COLUMNS <==> c in DEFAULTED
  {
    assert forall c :: c in DEFAULT_COLUMNS <==>
      c in FUNCTION_COLUMNS || c in NUMBER_COLUMNS || c in STATUS_COLUMNS || c == QuotaDimension;
  }

  lemma {:induction false} DefaultsOverFill(env: Env, fields: Settings, columns: seq<Column>, c: Column)
    ensures var r := DefaultsOver(env, fields, columns).fields;
      if c in fields then Get(r, c) == Some(fields[c]) else c in r ==> Some(r[c]) == DefaultOf(env, c)
  {
    if columns != [] {
      DefaultsOverFill(env, fields, columns[..|columns| - 1], c);
    }
  }

  /** Defaulting never overwrites, and what it adds to a field is that field's own default. */
  lemma DefaultsOnlyFillGaps(env: Env, fields: Settings, c: Column)
    ensures var r := Defaults(env, fields).fields;
      if c in fields then Get(r, c) == Some(fields[c]) else c in r ==> Some(r[c]) == DefaultOf(env, c)
  {
    DefaultsOverFill(env, fields, DEFAULT_COLUMNS, c);
  }

  /** After defaulting that went through a field holds what it held, or else this value. */
  predicate FilledWith(fields: Settings, d: Settings, c: Column, v: Option<Value>) {
    Get(d, c) == if c in fields then Some(fields[c]) else v
  }

  /** Which default goes into which field, once defaulting went through; the other fields stay as they are. */
  lemma DefaultValueIs(env: Env, fields: Settings, c: Column)
    requires Defaults(env, fields).err == None
    ensures var d := Defaults(env, fields).fields;
      && (c == CreatedAt ==> FilledWith(fields, d, c, env.defaultCreatedAt))
      && (c == UpdatedAt ==> FilledWith(fields, d, c, env.defaultUpdatedAt))
      && (c == Credentials ==> FilledWith(fields, d, c, env.defaultCredentials))
      && (c == Extra ==> FilledWith(fields, d, c, env.defaultExtra))
      && (c == Concurrency ==> FilledWith(fields, d, c, Some(env.defaultConcurrency)))
      && (c == Priority ==> FilledWith(fields, d, c, Some(env.defaultPriority)))
      && (c == RateMultiplier ==> FilledWith(fields, d, c, Some(env.defaultRateMultiplier)))
      && (c == Status ==> FilledWith(fields, d, c, Some(env.defaultStatus)))
      && (c == AutoPauseOnExpired ==> FilledWith(fields, d, c, Some(env.defaultAutoPauseOnExpired)))
      && (c == Schedulable ==> FilledWith(fields, d, c, Some(env.defaultSchedulable)))
      && (c == QuotaDimension ==> FilledWith(fields, d, c, Some(StrV("global"))))
      && (c !in DEFAULTED ==> FilledWith(fields, d, c, None))
  {
    DefaultsAre(env, fields);
    OneFilled(env, fields, Defaults(env, fields).fields, c);
  }

  lemma OneFilled(env: Env, fields: Settings, d: Settings, c: Column)
    requires d == Defaults(env, fields).fields && d.Keys == fields.Keys + DEFAULTED
    ensures FilledWith(fields, d, c, if c in DEFAULTED then DefaultOf(env, c) else None)
  {
    DefaultsOnlyFillGaps(env, fields, c);
    assert c in d <==> c in d.Keys;
  }

  /** The place of a field in the order of the checks. */
  function CheckedAt(c: Column): nat {
    match c
    case CreatedAt => 0 case UpdatedAt => 1 case Name => 2 case Platform => 3 case Type => 4 case Credentials => 5
    case Extra => 6 case Concurrency => 7 case Priority => 8 case RateMultiplier => 9 case Status => 10
    case AutoPauseOnExpired => 11 case Schedulable => 12 case SessionWindowStatus => 13 case QuotaDimension => 14
    case _ => 15
  }

  /** The field must be set: it is checked, and not the one that is validated only. */
  predicate Needed(c: Column) {
    CheckedAt(c) < 15 && c != SessionWindowStatus
  }

  predicate ValidIn(env: Env, fields: Settings, c: Column) {
    && (c == Name || c == Platform || c == Type || c == Status || c == SessionWindowStatus ==>
          c in fields ==> env.valid(c, fields[c]))
    && (c == QuotaDimension ==> c in fields ==> fields[c] == StrV("global") || fields[c] == StrV("spark"))
  }

  lemma CheckNamesOne(env: Env, fields: Settings, c: Column)
    ensures Check(env, fields) == Some(MissingField(c)) ==> Needed(c) && c !in fields
    ensures Check(env, fields) == Some(InvalidField(c)) ==> c in fields && !ValidIn(env, fields, c)
    ensures Check(env, fields).Some? ==>
      Check(env, fields).value.MissingField? || Check(env, fields).value.InvalidField?
  {
  }

  lemma SetBeforeMissing(env: Env, fields: Settings, c: Column, earlier: Column)
    requires Check(env, fields) == Some(MissingField(c)) && CheckedAt(earlier) < CheckedAt(c) && Needed(earlier)
    ensures earlier in fields
  {
  }

  lemma SetBeforeInvalid(env: Env, fields: Settings, c: Column, earlier: Column)
    requires Check(env, fields) == Some(InvalidField(c)) && CheckedAt(earlier) < CheckedAt(c) && Needed(earlier)
    ensures earlier in fields
  {
  }

  lemma ValidBeforeMissing(env: Env, fields: Settings, c: Column, earlier: Column)
    requires Check(env, fields) == Some(MissingField(c)) && CheckedAt(earlier) < CheckedAt(c)
    ensures ValidIn(env, fields, earlier)
  {
  }

  lemma ValidBeforeInvalid(env: Env, fields: Settings, c: Column, earlier: Column)
    requires Check(env, fields) == Some(InvalidField(c)) && CheckedAt(earlier) < CheckedAt(c)
    ensures ValidIn(env, fields, earlier)
  {
  }

  /** A failed check names the first field, in the order of the checks, that is missing or invalid. */
  lemma CheckNamesFirst(env: Env, fields: Settings, e: CreateError)
    requires Check(env, fields) == Some(e)
    ensures e.MissingField? || e.InvalidField?
    ensures e.MissingField? ==> Needed(e.column) && e.column !in fields
    ensures e.InvalidField? ==> e.column in fields && !ValidIn(env, fields, e.column)
    ensures forall c :: CheckedAt(c) < CheckedAt(e.column) ==> (Needed(c) ==> c in fields) && ValidIn(env, fields, c)
  {
    CheckNamesOne(env, fields, if e.MissingField? || e.InvalidField? then e.column else Id);
    forall c | CheckedAt(c) < CheckedAt(e.column)
      ensures (Needed(c) ==> c in fields) && ValidIn(env, fields, c)
    {
      if e.MissingField? {
        if Needed(c) { SetBeforeMissing(env, fields, e.column, c); }
        ValidBeforeMissing(env, fields, e.column, c);
      } else {
        if Needed(c) { SetBeforeInvalid(env, fields, e.column, c); }
        ValidBeforeInvalid(env, fields, e.column, c);
      }
    }
  }

  lemma StarvedFailsCheck(env: Env, fields: Settings)
    requires Starved(env, fields)
    ensures Check(env, fields).Some?
  {
    CheckPassesIff(env, fields);
    assert CreatedAt in REQUIRED && UpdatedAt in REQUIRED && Credentials in REQUIRED && Extra in REQUIRED;
  }

  lemma MissingIsMissing(env: Env, fields: Settings, c: Column)
    requires Check(env, fields) == Some(MissingField(c))
    ensures c in REQUIRED && c !in fields
  {
  }

  /** Dropping the error of the defaults is sound for one builder: if they failed, the check fails on what
      they left; if they succeeded, only the name, the platform and the type can be missing. */
  lemma DroppedDefaultErrorIsCaught(env: Env, fields: Settings)
    ensures var d := Defaults(env, fields);
      && (d.err.Some? ==> Check(env, d.fields).Some?)
      && (d.err == None ==> forall c :: Check(env, d.fields) == Some(MissingField(c)) ==> c in {Name, Platform, Type})
  {
    var d := Defaults(env, fields);
    DefaultsAre(env, fields);
    if d.err.Some? {
      StarvedFailsCheck(env, d.fields);
    } else {
      forall c | Check(env, d.fields) == Some(MissingField(c))
        ensures c in {Name, Platform, Type}
      {
        MissingIsMissing(env, d.fields, c);
      }
    }
  }

  // ----------------------------------------------------------------- bracketing

  /** The settings of every builder, as its check will see them. */
  ghost function AllSettings(p: Plan, s: State): (fs: seq<Settings>)
    requires Covers(p, s)
    ensures |fs| == |p.builders|
  {
    seq(|p.builders|, i requires 0 <= i < |p.builders| => s.muts[s.current[p.builders[i]]].fields)
  }

  ghost predicate PassOnly(p: Plan) {
    forall i :: 0 <= i < |p.builders| ==> forall k :: 0 <= k < |p.builders[i].hooks| ==> p.builders[i].hooks[k] == Pass
  }

  predicate ChecksPass(env: Env, fs: seq<Settings>, i: nat) {
    forall j :: i <= j < |fs| ==> Check(env, fs[j]) == None
  }

  /** The specs at the insert: the slots below `i` as they are, the others from their builders. */
  function FinalSpecs(fs: seq<Settings>, slots: seq<Option<CreateSpec>>, i: nat): (r: seq<CreateSpec>)
    requires |fs| == |slots| && i <= |slots| && forall j :: 0 <= j < i ==> slots[j].Some?
    ensures |r| == |fs|
  {
    seq(|fs|, j requires 0 <= j < |fs| => if j < i then slots[j].value else NewSpec(fs[j]))
  }

  /** The way in: every hook of every builder from the outside, then the builder's check and build. */
  function Down(builders: seq<AccountCreate>, fs: seq<Settings>, i: nat, k: nat): seq<Event>
    requires i < |builders| == |fs| && k <= |builders[i].hooks|
    decreases |builders| - i, |builders[i].hooks| - k
  {
    if k < |builders[i].hooks| then [Enter(i, k)] + Down(builders, fs, i, k + 1)
    else
      [Checked(i, fs[i], true), Built(i, NewSpec(fs[i]))] +
      if i < |builders| - 1 then Down(builders, fs, i + 1, 0) else []
  }

  /** The event that closes another, if any. */
  function Closing(e: Event): seq<Event> {
    match e
    case Enter(i, k) => [Exit(i, k)]
    case Built(i, _) => [Done(i)]
    case _ => []
  }

  /** The closing events in the opposite order. */
  function Mirror(events: seq<Event>): seq<Event> {
    if events == [] then [] else Mirror(events[1..]) + Closing(events[0])
  }

  /** Closing events of hooks only: what is left of the way out when the insert failed. */
  function ExitsOnly(events: seq<Event>): seq<Event> {
    if events == [] then []
    else (if events[0].Exit? then [events[0]] else []) + ExitsOnly(events[1..])
  }

  lemma Regroup<T>(a: seq<T>, b: seq<T>, c: seq<T>, d: seq<T>)
    ensures a + b + c + d == a + (b + c + d)
  {
  }

  lemma {:induction false} ExitsOnlyConcat(a: seq<Event>, b: seq<Event>)
    ensures ExitsOnly(a + b) == ExitsOnly(a) + ExitsOnly(b)
  {
    if a == [] {
      assert a + b == b;
    } else {
      ExitsOnlyConcat(a[1..], b);
      var head := if a[0].Exit? then [a[0]] else [];
      assert (a + b)[0] == a[0] && (a + b)[1..] == a[1..] + b;
      assert ExitsOnly(a + b) == head + ExitsOnly(a[1..] + b);
      assert ExitsOnly(a) == head + ExitsOnly(a[1..]);
    }
  }

  /** The whole trace of a call whose hooks all pass on: in, one insert, and out in the opposite order. */
  function Around(down: seq<Event>, specs: seq<CreateSpec>, result: BatchResult): seq<Event> {
    down + [Batch(specs, result)] + if result.Inserted? then Mirror(down) else ExitsOnly(Mirror(down))
  }

  lemma MirrorCons(e: Event, rest: seq<Event>)
    ensures Mirror([e] + rest) == Mirror(rest) + Closing(e)
  {
    assert ([e] + rest)[1..] == rest;
  }

  lemma AroundHook(i: nat, k: nat, rest: seq<Event>, specs: seq<CreateSpec>, result: BatchResult)
    ensures Around([Enter(i, k)] + rest, specs, result) == [Enter(i, k)] + Around(rest, specs, result) + [Exit(i, k)]
  {
    MirrorCons(Enter(i, k), rest);
    ExitsOnlyConcat(Mirror(rest), [Exit(i, k)]);
    assert ExitsOnly([Exit(i, k)]) == [Exit(i, k)];
  }

  lemma MirrorBuild(i: nat, f: Settings, rest: seq<Event>)
    ensures Mirror([Checked(i, f, true), Built(i, NewSpec(f))] + rest) == Mirror(rest) + [Done(i)]
  {
    var c, b := Checked(i, f, true), Built(i, NewSpec(f));
    assert [c, b] + rest == [c] + ([b] + rest);
    MirrorCons(c, [b] + rest);
    MirrorCons(b, rest);
  }

  lemma ExitsOnlyDone(events: seq<Event>, i: nat)
    ensures ExitsOnly(events + [Done(i)]) == ExitsOnly(events)
  {
    ExitsOnlyConcat(events, [Done(i)]);
    assert [Done(i)][1..] == [];
  }

  lemma AroundBuild(i: nat, f: Settings, rest: seq<Event>, specs: seq<CreateSpec>, result: BatchResult)
    ensures var open := [Checked(i, f, true), Built(i, NewSpec(f))];
      Around(open + rest, specs, result)
        == open + Around(rest, specs, result) + if result.Inserted? then [Done(i)] else []
  {
    var open, insert := [Checked(i, f, true), Built(i, NewSpec(f))], [Batch(specs, result)];
    var out := if result.Inserted? then Mirror(rest) else ExitsOnly(Mirror(rest));
    MirrorBuild(i, f, rest);
    ExitsOnlyDone(Mirror(rest), i);
    Regroup(open, rest, insert, out);
    assert Around(rest, specs, result) == rest + insert + out;
  }

  /** Building the slot of a builder whose own mutation came through changes nothing the rest depends on. */
  lemma BeginKeeps(p: Plan, s: State, i: nat)
    requires Covers(p, s) && i < |p.builders| && BuiltBelow(s, i)
    requires Check(p.env, AllSettings(p, s)[i]) == None
    ensures p.builders[i] in p.builders
    ensures var b, f := Begin(p, s, i, s.current[p.builders[i]]), AllSettings(p, s)[i];
      && b.err == None && b.state.muts == s.muts && b.state.current == s.current && b.state.inserts == s.inserts
      && b.state.trace == s.trace + [Checked(i, f, true), Built(i, NewSpec(f))]
      && b.state.specs == s.specs[i := Some(NewSpec(f))]
  {
    assert p.builders[i] in p.builders;
    assert s.current[p.builders[i] := s.current[p.builders[i]]] == s.current;
  }

  /** Every slot is built with the fields of its spec. */
  predicate SlotsHold(slots: seq<Option<CreateSpec>>, specs: seq<CreateSpec>) {
    |slots| == |specs| && forall j :: 0 <= j < |specs| ==> SameSlot(slots[j], Some(specs[j]))
  }

  /** What a passing chain from builder `i` leaves behind. */
  ghost predicate Landed(p: Plan, s: State, i: nat, k: nat, r: Outcome)
    requires Covers(p, s) && i < |p.builders| && k <= |p.builders[i].hooks| && BuiltBelow(s, i)
  {
    var fs := AllSettings(p, s);
    var specs := FinalSpecs(fs, s.specs, i);
    var result := p.db(s.inserts, specs);
    && r.state.trace == s.trace + Around(Down(p.builders, fs, i, k), specs, result)
    && r.state.current == s.current && r.state.muts.Keys == s.muts.Keys
    && SlotsHold(r.state.specs, specs)
    && (result.Inserted? ==> r.err == None && AllDone(p, s.current, r.state.muts, i))
    && (result.NotInserted? ==> r.err == Some(BatchFailed(result.constraint)) && r.state.muts == s.muts)
  }

  ghost predicate AllDone(p: Plan, current: map<AccountCreate, AccountMutation>, muts: map<AccountMutation, Mut>,
                          i: nat) {
    forall j :: i <= j < |p.builders| ==>
      p.builders[j] in current && current[p.builders[j]] in muts && muts[current[p.builders[j]]].done
  }

  lemma FinalSpecsStep(fs: seq<Settings>, slots: seq<Option<CreateSpec>>, i: nat)
    requires |fs| == |slots| && i < |slots| && forall j :: 0 <= j < i ==> slots[j].Some?
    ensures var slots' := slots[i := Some(NewSpec(fs[i]))];
      FinalSpecs(fs, slots', i + 1) == FinalSpecs(fs, slots, i)
  {
  }

  /** Leaving a passing hook. */
  lemma HookLands(p: Plan, s: State, i: nat, k: nat, inner: Outcome)
    requires Covers(p, s) && i < |p.builders| && k < |p.builders[i].hooks| && BuiltBelow(s, i)
    requires Covers(p, s.Log(Enter(i, k))) && Landed(p, s.Log(Enter(i, k)), i, k + 1, inner)
    ensures Landed(p, s, i, k, inner.(state := inner.state.Log(Exit(i, k))))
  {
    var fs := AllSettings(p, s);
    assert AllSettings(p, s.Log(Enter(i, k))) == fs;
    var specs, rest := FinalSpecs(fs, s.specs, i), Down(p.builders, fs, i, k + 1);
    AroundHook(i, k, rest, specs, p.db(s.inserts, specs));
    Regroup(s.trace, [Enter(i, k)], Around(rest, specs, p.db(s.inserts, specs)), [Exit(i, k)]);
  }

  lemma PassingHookRuns(p: Plan, s: State, i: nat, k: nat, m: AccountMutation)
    requires Covers(p, s) && m in s.muts && i < |p.builders| && k < |p.builders[i].hooks| && BuiltBelow(s, i)
    requires p.builders[i].hooks[k] == Pass
    ensures Covers(p, s.Log(Enter(i, k))) && BuiltBelow(s.Log(Enter(i, k)), i)
    ensures var inner := Run(p, s.Log(Enter(i, k)), i, k + 1, m);
      Run(p, s, i, k, m) == inner.(state := inner.state.Log(Exit(i, k)))
  {
    var s0 := s.Log(Enter(i, k));
    HandedOnIsCovered(p, s0, i, k, m);
    assert Edited(s0, m, Pass) == s0 && HandedOn(m, Pass) == m;
    var inner := Run(p, s0, i, k + 1, m);
    assert RunHook(p, s0, i, k, m) == Outcome(inner.state, OrElse(inner.err, LateFailure(Pass)));
  }

  /** Every hook passes, every check succeeds: the call nests perfectly around one insert. */
  lemma {:induction false} PassingChainLands(p: Plan, s: State, i: nat, k: nat)
    requires Covers(p, s) && i < |p.builders| && k <= |p.builders[i].hooks| && BuiltBelow(s, i)
    requires PassOnly(p) && ChecksPass(p.env, AllSettings(p, s), i)
    ensures p.builders[i] in p.builders
    ensures Landed(p, s, i, k, Run(p, s, i, k, s.current[p.builders[i]]))
    decreases |p.builders| - i, |p.builders[i].hooks| - k, 1
  {
    assert p.builders[i] in p.builders;
    var m := s.current[p.builders[i]];
    if k < |p.builders[i].hooks| {
      var s0 := s.Log(Enter(i, k));
      assert p.builders[i].hooks[k] == Pass;
      assert AllSettings(p, s0) == AllSettings(p, s);
      PassingChainLands(p, s0, i, k + 1);
      var inner := Run(p, s0, i, k + 1, m);
      HookLands(p, s, i, k, inner);
      PassingHookRuns(p, s, i, k, m);
    } else {
      PassingMutatorLands(p, s, i);
    }
  }

  function DownFrom(builders: seq<AccountCreate>, fs: seq<Settings>, i: nat): seq<Event>
    requires i <= |builders| == |fs|
  {
    if i < |builders| then Down(builders, fs, i, 0) else []
  }

  /** What the rest of the chain leaves behind once the slots below `i` are built. */
  ghost predicate RestLanded(p: Plan, s: State, i: nat, specs: seq<CreateSpec>, r: Outcome)
    requires Covers(p, s) && i <= |p.builders|
  {
    var result := p.db(s.inserts, specs);
    && r.state.trace == s.trace + Around(DownFrom(p.builders, AllSettings(p, s), i), specs, result)
    && r.state.current == s.current && r.state.muts.Keys == s.muts.Keys
    && SlotsHold(r.state.specs, specs)
    && (result.Inserted? ==> r.err == None && AllDone(p, s.current, r.state.muts, i))
    && (result.NotInserted? ==> r.err == Some(BatchFailed(result.constraint)) && r.state.muts == s.muts)
  }

  lemma {:induction false} NextLands(p: Plan, s: State, i: nat, specs: seq<CreateSpec>)
    requires Covers(p, s) && i < |p.builders| && BuiltBelow(s, i + 1)
    requires PassOnly(p) && ChecksPass(p.env, AllSettings(p, s), i + 1)
    requires specs == FinalSpecs(AllSettings(p, s), s.specs, i + 1)
    ensures RestLanded(p, s, i + 1, specs, RunNext(p, s, i))
    decreases |p.builders| - i - 1, 1 + (if i + 1 < |p.builders| then |p.builders[i+1].hooks| else 0)
  {
    if i + 1 == |p.builders| {
      assert AllSpecs(s) == specs;
      assert Around([], specs, p.db(s.inserts, specs)) == [Batch(specs, p.db(s.inserts, specs))];
    } else {
      PassingChainLands(p, s, i + 1, 0);
    }
  }

  /** The end of a mutator, given what the rest of the chain left behind. */
  lemma MutatorCloses(p: Plan, s: State, b: State, i: nat, specs: seq<CreateSpec>, r: Outcome)
    requires Covers(p, s) && Covers(p, b) && i < |p.builders| && BuiltBelow(s, i) && p.builders[i] in p.builders
    requires b.muts == s.muts && b.current == s.current && b.inserts == s.inserts
    requires AllSettings(p, b) == AllSettings(p, s)
    requires var f := AllSettings(p, s)[i]; b.trace == s.trace + [Checked(i, f, true), Built(i, NewSpec(f))]
    requires specs == FinalSpecs(AllSettings(p, s), s.specs, i)
    requires RestLanded(p, b, i + 1, specs, r) && i < |r.state.nodes| == |r.state.specs| && r.state.nodes[i].Some?
    ensures Landed(p, s, i, |p.builders[i].hooks|,
      if r.err.Some? then r else Outcome(Finish(r.state, i, s.current[p.builders[i]]), None))
  {
    var fs := AllSettings(p, s);
    var rest := DownFrom(p.builders, fs, i + 1);
    var open := [Checked(i, fs[i], true), Built(i, NewSpec(fs[i]))];
    var end := if r.err.Some? then r else Outcome(Finish(r.state, i, s.current[p.builders[i]]), None);
    assert Down(p.builders, fs, i, |p.builders[i].hooks|) == open + rest;
    var result := p.db(s.inserts, specs);
    assert end.state.trace == s.trace + Around(open + rest, specs, result) by {
      AroundBuild(i, fs[i], rest, specs, result);
      Regroup(s.trace, open, Around(rest, specs, result), if result.Inserted? then [Done(i)] else []);
    }
  }

  lemma {:induction false} PassingMutatorLands(p: Plan, s: State, i: nat)
    requires Covers(p, s) && i < |p.builders| && BuiltBelow(s, i)
    requires PassOnly(p) && ChecksPass(p.env, AllSettings(p, s), i)
    ensures p.builders[i] in p.builders
    ensures Landed(p, s, i, |p.builders[i].hooks|, RunMutator(p, s, i, s.current[p.builders[i]]))
    decreases |p.builders| - i, 0, 0
  {
    BeginKeeps(p, s, i);
    var fs := AllSettings(p, s);
    var b := Begin(p, s, i, s.current[p.builders[i]]).state;
    assert AllSettings(p, b) == fs;
    FinalSpecsStep(fs, s.specs, i);
    NextLands(p, b, i, FinalSpecs(fs, s.specs, i));
    MutatorCloses(p, s, b, i, FinalSpecs(fs, s.specs, i), RunNext(p, b, i));
  }
}
