/** Saves of one builder with one hook that do not do what a reader may expect, carried out on the heap. */
module BulkWitness {
  import opened Sequences
  import opened AccountEntity
  import opened BulkCreate
  import opened BulkSaving
  import opened BulkLaws
  import opened BulkOutcome
  import opened BulkReach
  import opened BulkWrites
  import opened BulkOnePass
  import opened BulkResults

  /** An initialized runtime whose validators accept everything. */
  ghost predicate Permissive(env: Env) {
    && env.defaultCreatedAt.Some? && env.defaultUpdatedAt.Some?
    && env.defaultCredentials.Some? && env.defaultExtra.Some?
    && forall c, v :: env.valid(c, v)
  }

  /** The three fields without a default are set, and the quota dimension is left to its default. */
  predicate Named(fields: Settings) {
    {Name, Platform, Type} <= fields.Keys && QuotaDimension !in fields
  }

  lemma CompletePasses(env: Env, fields: Settings)
    requires Permissive(env) && REQUIRED <= fields.Keys && fields[QuotaDimension] == StrV("global")
    ensures Check(env, fields) == None
  {
    CheckPassesIff(env, fields);
  }

  lemma NamedKeys(named: set<Column>)
    requires {Name, Platform, Type} <= named
    ensures REQUIRED <= named + DEFAULTED && QuotaDimension in named + DEFAULTED
  {
  }

  /** Such a builder passes its check. */
  lemma NamedPasses(env: Env, fields: Settings)
    requires Permissive(env) && Named(fields)
    ensures Check(env, Defaults(env, fields).fields) == None
  {
    DefaultsAre(env, fields);
    DefaultsOnlyFillGaps(env, fields, QuotaDimension);
    PassesAfter(env, fields, Defaults(env, fields));
  }

  lemma PassesAfter(env: Env, fields: Settings, d: Defaulting)
    requires Permissive(env) && Named(fields)
    requires d.err.Some? ==> Starved(env, fields)
    requires d.err == None ==> d.fields.Keys == fields.Keys + DEFAULTED
    requires QuotaDimension in d.fields ==> Some(d.fields[QuotaDimension]) == DefaultOf(env, QuotaDimension)
    ensures Check(env, d.fields) == None
  {
    NamedKeys(fields.Keys);
    assert QuotaDimension in d.fields.Keys;
    CompletePasses(env, d.fields);
  }

  lemma EmptyFails(env: Env)
    ensures Check(env, map[]).Some?
  {
  }

  /** A plan of one builder with one hook, whose mutation passes the check after defaulting. */
  ghost predicate One(p: Plan, s: State, h: Hook) {
    && |p.builders| == 1 && p.builders[0].hooks == [h] && Covers(p, s) && s.trace == []
    && Check(p.env, SavedSettings(p, s)[0]) == None
  }

  lemma OneStops(p: Plan, s: State, h: Hook)
    requires One(p, s, h)
    ensures FindStop(p.builders, p.env, SavedSettings(p, s), 0, 0) == if Blocks(h) then AtHook(0, 0) else AtInsert
    ensures Soured(p.builders, p.env, SavedSettings(p, s), 0, 0) <==> h.FailAfter?
  {
    assert p.builders[0].hooks[0] == h;
    assert FindStop(p.builders, p.env, SavedSettings(p, s), 0, 1) == AtInsert;
    assert !Soured(p.builders, p.env, SavedSettings(p, s), 0, 1);
  }

  lemma OneStart(p: Plan, s: State, h: Hook, m: AccountMutation)
    requires |p.builders| == 1 && p.builders[0].hooks == [h] && Covers(p, s) && s.trace == []
    requires MutationOf(p, s, 0) == m && m in s.muts
    requires Check(p.env, Defaults(p.env, s.muts[m].fields).fields) == None
    ensures One(p, s, h)
    ensures forall o :: o in s.muts && o != m ==> o in Prepared(p, s, 1).muts && Prepared(p, s, 1).muts[o] == s.muts[o]
  {
    assert DefaultedBelow(p.builders, p.env, s, 0) == s;
  }

  /** Saves a fresh builder with one hook. */
  method SaveOne(h: Hook, m: AccountMutation, env: Env, db: (nat, seq<CreateSpec>) -> BatchResult)
    returns (failure: Option<CreateError>, ghost p: Plan, ghost s: State, ghost end: State)
    requires Check(env, Defaults(env, m.fields).fields) == None
    modifies m, if h.Replace? then {h.other} else {}
    ensures p.env == env && p.db == db && One(p, s, h) && Outcome(end, failure) == SaveAll(p, s)
    ensures MutationOf(p, s, 0) == m
    ensures h.Replace? && h.other != m ==>
      h.other in Prepared(p, s, 1).muts && Prepared(p, s, 1).muts[h.other].fields == old(h.other.fields)
  {
    var b := new AccountCreate([h], m);
    var bulk := new AccountCreateBulk([b], None);
    p, s := StartOf(b, h, m, env, db);
    failure, end := SaveBuilder(bulk, b, h, m, env, db, p, s);
  }

  lemma StartOf(b: AccountCreate, h: Hook, m: AccountMutation, env: Env, db: (nat, seq<CreateSpec>) -> BatchResult)
    returns (p: Plan, s: State)
    requires b.hooks == [h] && b.mutation == m && Check(env, Defaults(env, m.fields).fields) == None
    ensures p == Plan([b], env, db) && s == StartState([b]) && One(p, s, h) && MutationOf(p, s, 0) == m
    ensures h.Replace? && h.other != m ==>
      h.other in Prepared(p, s, 1).muts && Prepared(p, s, 1).muts[h.other].fields == h.other.fields
  {
    OnlyTheseAreTouched(b, h, m);
    p, s := Plan([b], env, db), StartState([b]);
    assert b in [b];
    OneStart(p, s, h, m);
  }

  method SaveBuilder(bulk: AccountCreateBulk, b: AccountCreate, h: Hook, m: AccountMutation, env: Env,
                     db: (nat, seq<CreateSpec>) -> BatchResult, ghost p: Plan, ghost s: State)
    returns (failure: Option<CreateError>, ghost end: State)
    requires bulk.builders == [b] && bulk.err == None && b.hooks == [h] && b.mutation == m
    requires p == Plan([b], env, db) && s == StartState([b]) && Covers(p, s)
    modifies b, m, if h.Replace? then {h.other} else {}
    ensures Outcome(end, failure) == SaveAll(p, s)
  {
    OnlyTheseAreTouched(b, h, m);
    var _, failed, after := bulk.Save(env, db);
    failure, end := failed, after;
  }

  lemma OnlyTheseAreTouched(b: AccountCreate, h: Hook, m: AccountMutation)
    requires b.hooks == [h] && b.mutation == m
    ensures Mutations([b]) == {m} + if h.Replace? then {h.other} else {}
  {
    assert h in b.hooks;
    assert b in [b];
  }

  /** A hook that skips: the save reports success and inserts nothing. */
  method SkippedSaveReportsSuccess(fields: Settings, env: Env, db: (nat, seq<CreateSpec>) -> BatchResult)
    returns (failure: Option<CreateError>, ghost trace: seq<Event>)
    requires Permissive(env) && Named(fields)
    ensures failure == None && Batches(trace) == []
  {
    NamedPasses(env, fields);
    var m := new AccountMutation(fields);
    ghost var p, s, end;
    failure, p, s, end := SaveOne(Skip, m, env, db);
    OneSkips(p, s);
    trace := end.trace;
  }

  lemma OneSkips(p: Plan, s: State)
    requires One(p, s, Skip)
    ensures SaveAll(p, s).err == None && Batches(SaveAll(p, s).state.trace) == []
  {
    OneStops(p, s, Skip);
    SaveConcludes(p, s);
  }

  /** A hook that fails afterwards: the save reports a failure and the row was inserted. */
  method FailedSaveInserted(fields: Settings, env: Env, reason: string)
    returns (failure: Option<CreateError>, ghost trace: seq<Event>)
    requires Permissive(env) && Named(fields)
    ensures failure == Some(Rejected(reason)) && Wrote([], trace)
  {
    NamedPasses(env, fields);
    var m := new AccountMutation(fields);
    ghost var p, s, end;
    failure, p, s, end := SaveOne(FailAfter(reason), m, env, Accept());
    OneFailsLate(p, s, reason);
    trace := end.trace;
  }

  lemma OneFailsLate(p: Plan, s: State, reason: string)
    requires One(p, s, FailAfter(reason)) && p.db == Accept()
    ensures SaveAll(p, s).err == Some(Rejected(reason)) && Wrote([], SaveAll(p, s).state.trace)
  {
    OneStops(p, s, FailAfter(reason));
    assert p.(db := Accept()) == p;
    VerdictWith(p, s, Accept());
    OneError(p, s, FailAfter(reason));
  }

  /** A hook that rejects: the save reports its error and inserts nothing. */
  method RejectedSaveInsertsNothing(fields: Settings, env: Env, reason: string,
                                    db: (nat, seq<CreateSpec>) -> BatchResult)
    returns (failure: Option<CreateError>, ghost trace: seq<Event>)
    requires Permissive(env) && Named(fields)
    ensures failure == Some(Rejected(reason)) && Batches(trace) == []
  {
    NamedPasses(env, fields);
    var m := new AccountMutation(fields);
    ghost var p, s, end;
    failure, p, s, end := SaveOne(Reject(reason), m, env, db);
    OneRejects(p, s, reason);
    trace := end.trace;
  }

  lemma OneRejects(p: Plan, s: State, reason: string)
    requires One(p, s, Reject(reason))
    ensures SaveAll(p, s).err == Some(Rejected(reason)) && Batches(SaveAll(p, s).state.trace) == []
  {
    OneStops(p, s, Reject(reason));
    SaveConcludes(p, s);
    OneError(p, s, Reject(reason));
  }

  /** The error of a save of one builder with one hook, if the database accepts: the hook's own. */
  lemma OneError(p: Plan, s: State, h: Hook)
    requires One(p, s, h) && (h.Reject? || (h.FailAfter? && p.db == Accept()))
    ensures SaveAll(p, s).err == Some(Rejected(if h.Reject? then h.reason else h.failure))
  {
    OneStops(p, s, h);
    SteadySaveReturns(p, s);
    var fs := SavedSettings(p, s);
    assert p.builders[0].hooks[0] == h;
    assert InnermostFailure(p.builders, p.env, fs, 0, 1) == None;
  }

  /** A hook that calls on twice: two inserts for one builder, whatever the database answers, and a verdict
      that tells of the second one only. */
  method RepeatedSaveInsertsTwice(fields: Settings, env: Env, db: (nat, seq<CreateSpec>) -> BatchResult)
    returns (failure: Option<CreateError>, ghost trace: seq<Event>)
    requires Permissive(env) && Named(fields)
    ensures |Batches(trace)| == 2
    ensures TellsOf(Batches(trace)[1], failure)
  {
    NamedPasses(env, fields);
    var m := new AccountMutation(fields);
    ghost var p, s, end;
    failure, p, s, end := SaveOne(Again(1, true), m, env, db);
    OneRepeats(p, s);
    SecondTells(p, s);
    trace := end.trace;
  }

  lemma OneRepeats(p: Plan, s: State)
    requires One(p, s, Again(1, true))
    ensures |Batches(SaveAll(p, s).state.trace)| == 2
  {
    OneRepeatsEachTime(p, s, 1, true);
  }

  /** At most one insert was added, and the error tells of it. */
  ghost predicate Told(before: seq<Event>, after: seq<Event>, err: Option<CreateError>) {
    || (err.Some? && after == before)
    || (|after| == |before| + 1 && after[..|before|] == before && TellsOf(after[|before|], err))
  }

  predicate TellsOf(e: Event, err: Option<CreateError>) {
    e.Batch? && (err == None <==> e.result.Inserted?)
  }

  /** The only mutator of a save: it makes an insert and tells of it, or fails. */
  lemma OnlyMutatorTells(p: Plan, s: State, m: AccountMutation)
    requires |p.builders| == 1 && Covers(p, s) && m in s.muts
    ensures var r := RunMutator(p, s, 0, m); Told(Batches(s.trace), Batches(r.state.trace), r.err)
  {
    var b, r := Begin(p, s, 0, m), RunMutator(p, s, 0, m);
    BeginInsertsNothing(p, s, 0, m);
    OnlyMutatorIs(p, s, m);
    var done := if b.err.Some? then b else Insert(p, b.state);
    if b.err == None {
      OnlyInsertTells(p, b.state);
      BatchesLog(done.state.trace, Done(0));
    }
    SameTelling(Batches(s.trace), done, r);
  }

  lemma SameTelling(before: seq<Event>, done: Outcome, r: Outcome)
    requires r.err == done.err && Batches(r.state.trace) == Batches(done.state.trace)
    requires Told(before, Batches(done.state.trace), done.err)
    ensures Told(before, Batches(r.state.trace), r.err)
  {
  }

  lemma OnlyMutatorIs(p: Plan, s: State, m: AccountMutation)
    requires |p.builders| == 1 && Covers(p, s) && m in s.muts
    ensures var b, r := Begin(p, s, 0, m), RunMutator(p, s, 0, m);
      if b.err.Some? then r == b
      else
        var done := Insert(p, b.state);
        r.err == done.err && (r.state.trace == done.state.trace || r.state.trace == done.state.trace + [Done(0)])
  {
  }

  lemma OnlyInsertTells(p: Plan, s: State)
    requires BuiltBelow(s, |s.specs|)
    ensures var r := Insert(p, s); Told(Batches(s.trace), Batches(r.state.trace), r.err)
  {
    BatchesLog(s.trace, Batch(AllSpecs(s), p.db(s.inserts, AllSpecs(s))));
  }

  lemma SecondTells(p: Plan, s: State)
    requires One(p, s, Again(1, true)) && |Batches(SaveAll(p, s).state.trace)| == 2
    ensures var r := SaveAll(p, s); TellsOf(Batches(r.state.trace)[1], r.err)
  {
    var s0 := Prepared(p, s, 1);
    CallTells(p, s0, MutationOf(p, s0, 0));
  }

  lemma CallTells(p: Plan, s: State, m: AccountMutation)
    requires |p.builders| == 1 && p.builders[0].hooks == [Again(1, true)] && Covers(p, s) && m in s.muts
    requires s.trace == []
    requires |Batches(Run(p, s, 0, 0, m).state.trace)| == 2
    ensures var r := Run(p, s, 0, 0, m); TellsOf(Batches(r.state.trace)[1], r.err)
  {
    var s0 := s.Log(Enter(0, 0));
    CallIsTwo(p, s, m);
    BatchesLog(s.trace, Enter(0, 0));
    BatchesLog(TwoMutators(p, s0, m).state.trace, Exit(0, 0));
    TwoTell(p, s0, m);
  }

  lemma TwoTell(p: Plan, s: State, m: AccountMutation)
    requires |p.builders| == 1 && Covers(p, s) && m in s.muts
    requires Batches(s.trace) == [] && |Batches(TwoMutators(p, s, m).state.trace)| == 2
    ensures var r := TwoMutators(p, s, m); TellsOf(Batches(r.state.trace)[1], r.err)
  {
    var first := RunMutator(p, s, 0, m);
    OnlyMutatorTells(p, s, m);
    OnlyMutatorTells(p, first.state, m);
    var second := TwoMutators(p, s, m);
    ToldTwice(Batches(first.state.trace), first.err, Batches(second.state.trace), second.err);
  }

  lemma ToldTwice(first: seq<Event>, err: Option<CreateError>, second: seq<Event>, err': Option<CreateError>)
    requires Told([], first, err) && Told(first, second, err') && |second| == 2
    ensures TellsOf(second[1], err')
  {
  }

  ghost function TwoMutators(p: Plan, s: State, m: AccountMutation): Outcome
    requires |p.builders| == 1 && Covers(p, s) && m in s.muts
  {
    RunMutator(p, RunMutator(p, s, 0, m).state, 0, m)
  }

  lemma CallIsTwo(p: Plan, s: State, m: AccountMutation)
    requires |p.builders| == 1 && p.builders[0].hooks == [Again(1, true)] && Covers(p, s) && m in s.muts
    ensures var r := TwoMutators(p, s.Log(Enter(0, 0)), m);
      Run(p, s, 0, 0, m) == r.(state := r.state.Log(Exit(0, 0)))
  {
    var s0 := s.Log(Enter(0, 0));
    var r := Run(p, s0, 0, 1, m);
    assert r == RunMutator(p, s0, 0, m) && m in r.state.muts;
    RunAgainStep(p, r.state, 0, 0, m, 1, r.err);
    assert RunHook(p, s0, 0, 0, m) == TwoMutators(p, s0, m);
  }

  lemma AllIsSent(p: Plan, s: State)
    requires Covers(p, s) && s.trace == []
    ensures Sent(p, s) == Batches(SaveAll(p, s).state.trace)
  {
  }

  /** A hook that calls on `more` times again, always or while it fails: as many inserts as calls if it always
      does or the database refuses them all. */
  method RepeatedSaveInsertsEachTime(fields: Settings, env: Env, db: (nat, seq<CreateSpec>) -> BatchResult, more: nat,
                                     always: bool)
    returns (failure: Option<CreateError>, ghost trace: seq<Event>)
    requires Permissive(env) && Named(fields) && (always || Refuses(db, 0))
    ensures |Batches(trace)| == 1 + more
  {
    NamedPasses(env, fields);
    var m := new AccountMutation(fields);
    ghost var p, s, end;
    failure, p, s, end := SaveOne(Again(more, always), m, env, db);
    OneRepeatsEachTime(p, s, more, always);
    trace := end.trace;
  }

  lemma OneRepeatsEachTime(p: Plan, s: State, more: nat, always: bool)
    requires One(p, s, Again(more, always)) && (always || Refuses(p.db, s.inserts))
    ensures |Batches(SaveAll(p, s).state.trace)| == 1 + more
  {
    OneStops(p, s, Again(more, always));
    OneCalls(p.builders, more, always);
    SteadyInsertsAre(p, s);
    AllIsSent(p, s);
  }

  lemma OneCalls(builders: seq<AccountCreate>, more: nat, always: bool)
    requires |builders| == 1 && builders[0].hooks == [Again(more, always)]
    ensures builders[0].hooks[0] == Again(more, always) && Calls(builders, 0, 0) == 1 + more
  {
    assert Calls(builders, 0, 1) == 1;
  }

  /** A hook that calls on again while it fails: one insert if the database accepts it, however often the hook
      might have called. */
  method RetriedSaveInsertsOnce(fields: Settings, env: Env, more: nat)
    returns (failure: Option<CreateError>, ghost trace: seq<Event>)
    requires Permissive(env) && Named(fields)
    ensures failure == None && |Batches(trace)| == 1
  {
    NamedPasses(env, fields);
    var m := new AccountMutation(fields);
    ghost var p, s, end;
    failure, p, s, end := SaveOne(Again(more, false), m, env, Accept());
    OneRetries(p, s, more);
    trace := end.trace;
  }

  lemma OneRetries(p: Plan, s: State, more: nat)
    requires One(p, s, Again(more, false)) && p.db == Accept()
    ensures SaveAll(p, s).err == None && |Batches(SaveAll(p, s).state.trace)| == 1
  {
    var s0 := Prepared(p, s, 1);
    var m := MutationOf(p, s0, 0);
    assert Check(p.env, s0.muts[m].fields) == None;
    OnceIfNoError(p, s0, m, more);
  }

  lemma OnceIfNoError(p: Plan, s: State, m: AccountMutation, more: nat)
    requires |p.builders| == 1 && p.builders[0].hooks == [Again(more, false)] && Covers(p, s) && s.trace == []
    requires m == MutationOf(p, s, 0) && m in s.muts && Check(p.env, s.muts[m].fields) == None && p.db == Accept()
    ensures var r := Run(p, s, 0, 0, m); r.err == None && |Batches(r.state.trace)| == 1
  {
    var s0 := s.Log(Enter(0, 0));
    var r := RunMutator(p, s0, 0, m);
    BatchesLog(s.trace, Enter(0, 0));
    OnlyMutatorTells(p, s0, m);
    MutatorAccepts(p, s0, m);
    BatchesLog(r.state.trace, Exit(0, 0));
    FirstCallIsLast(p, s0, m, more);
  }

  lemma MutatorAccepts(p: Plan, s: State, m: AccountMutation)
    requires |p.builders| == 1 && Covers(p, s) && m in s.muts && p.db == Accept()
    requires m == MutationOf(p, s, 0) && Check(p.env, s.muts[m].fields) == None
    ensures RunMutator(p, s, 0, m).err == None
  {
  }

  lemma FirstCallIsLast(p: Plan, s: State, m: AccountMutation, more: nat)
    requires |p.builders| == 1 && p.builders[0].hooks == [Again(more, false)] && Covers(p, s) && m in s.muts
    requires RunMutator(p, s, 0, m).err == None
    ensures RunHook(p, s, 0, 0, m) == RunMutator(p, s, 0, m)
  {
    assert p.builders[0].hooks[0] == Again(more, false);
    var r := Run(p, s, 0, 1, m);
    assert r == RunMutator(p, s, 0, m);
    assert RunAgain(p, r.state, 0, 0, m, more, None) == Outcome(r.state, None);
  }

  /** A hook that substitutes an empty mutation: the builder's own passes the check, the empty one is
      inserted, and the save reports success. */
  method SubstituteIsWrittenUnchecked(fields: Settings, env: Env)
    returns (failure: Option<CreateError>, ghost trace: seq<Event>)
    requires Permissive(env) && Named(fields)
    ensures failure == None && |Batches(trace)| == 1
    ensures var e := Batches(trace)[0];
      e.Batch? && e.result.Inserted? && |e.specs| == 1 && Check(env, e.specs[0].fields).Some?
  {
    NamedPasses(env, fields);
    var m := new AccountMutation(fields);
    var empty := new AccountMutation(map[]);
    ghost var p, s, end;
    failure, p, s, end := SaveOne(Replace(empty), m, env, Accept());
    OneSubstitutes(p, s, empty);
    trace := end.trace;
  }

  lemma OneSubstitutes(p: Plan, s: State, empty: AccountMutation)
    requires One(p, s, Replace(empty)) && p.db == Accept()
    requires empty in Prepared(p, s, 1).muts && Prepared(p, s, 1).muts[empty].fields == map[]
    ensures var r := SaveAll(p, s); var batches := Batches(r.state.trace);
      && r.err == None && |batches| == 1 && batches[0].Batch? && batches[0].result.Inserted?
      && |batches[0].specs| == 1 && Check(p.env, batches[0].specs[0].fields).Some?
  {
    OneStops(p, s, Replace(empty));
    OneWrites(p, s, empty);
    EmptyFails(p.env);
    assert !Has(FailsLate, p.builders, 0, 1) && !Has(CallsTwice, p.builders, 0, 1) && Unblocked(p.builders, 0, 1);
    CallingOnTells(p, s);
    OneBatch(p, s);
  }

  lemma OneWrites(p: Plan, s: State, empty: AccountMutation)
    requires One(p, s, Replace(empty))
    requires empty in Prepared(p, s, 1).muts && Prepared(p, s, 1).muts[empty].fields == map[]
    ensures WrittenSettings(p, s) == [map[]]
  {
    var own := MutationOf(p, Prepared(p, s, 1), 0);
    assert Reached(own, [Replace(empty)], 0) == Reached(empty, [Replace(empty)], 1) == empty;
  }

  lemma OneBatch(p: Plan, s: State)
    requires Covers(p, s) && |p.builders| == 1 && |p.builders[0].hooks| == 1 && p.builders[0].hooks[0].Replace?
    requires s.trace == [] && ReachesInsert(p, s) && Wrote([], SaveAll(p, s).state.trace)
    ensures var batches := Batches(SaveAll(p, s).state.trace);
      |batches| == 1 && BatchOf(batches[0], WrittenSettings(p, s)) && batches[0].result.Inserted?
  {
    OneHookInsertsOnce(p.builders, p.env, WrittenSettings(p, s));
    SaveSends(p, s);
    AllIsSent(p, s);
    OneIsSent(Batches(SaveAll(p, s).state.trace), WrittenSettings(p, s), Insistent(p, s));
  }

  lemma OneHookInsertsOnce(builders: seq<AccountCreate>, env: Env, ws: seq<Settings>)
    requires |builders| == 1 == |ws| && |builders[0].hooks| == 1 && !builders[0].hooks[0].Again?
    ensures More(builders, env, ws, 0, 0) == 0
  {
    assert More(builders, env, ws, 0, 1) == 0;
  }

  lemma OneIsSent(batches: seq<Event>, ws: seq<Settings>, exact: bool)
    requires Sends([], batches, ws, true, 0, exact)
    requires exists a :: 0 <= a < |batches| && batches[a].Batch? && batches[a].result.Inserted?
    ensures |batches| == 1 && BatchOf(batches[0], ws) && batches[0].result.Inserted?
  {
  }

  /** Only the creation time is unset, and its default function is nil. */
  ghost predicate NeedsCreation(env: Env, fields: Settings) {
    && env.defaultCreatedAt.None? && (forall c, x :: env.valid(c, x))
    && CreatedAt !in fields && REQUIRED <= fields.Keys + {CreatedAt}
    && QuotaDimension in fields && fields[QuotaDimension] == StrV("global")
  }

  /** A hook that sets the field whose defaulting failed: the row is inserted all the same. */
  method EditedSaveIgnoresFailedDefault(fields: Settings, env: Env, v: Value)
    returns (failure: Option<CreateError>, ghost trace: seq<Event>)
    requires NeedsCreation(env, fields)
    ensures Defaults(env, fields).err.Some? && failure == None && Wrote([], trace)
  {
    FirstDefaultFails(env, fields);
    var h := Edit(CreatedAt, v);
    var m := new AccountMutation(fields);
    var b := new AccountCreate([h], m);
    var bulk := new AccountCreateBulk([b], None);
    ghost var p, s := Plan([b], env, Accept()), StartState([b]);
    OnlyTheseAreTouched(b, h, m);
    assert b in [b];
    EditedPasses(env, fields, v);
    EditedSave(p, s, h, m, fields);
    ghost var end;
    failure, end := SaveBuilder(bulk, b, h, m, env, Accept(), p, s);
    trace := end.trace;
  }

  /** The first default that is missing leaves the fields as they were. */
  lemma FirstDefaultFails(env: Env, fields: Settings)
    requires env.defaultCreatedAt.None? && CreatedAt !in fields
    ensures Defaults(env, fields) == Defaulting(fields, Some(UninitializedDefault(CreatedAt)))
  {
    var first := DEFAULT_COLUMNS[..1];
    assert first == [CreatedAt] && first[..0] == [];
    DefaultErrorStays(env, fields, DEFAULT_COLUMNS, 1);
  }

  lemma EditedSave(p: Plan, s: State, h: Hook, m: AccountMutation, fields: Settings)
    requires |p.builders| == 1 && p.builders[0].hooks == [h] && h.Edit? && h.column == CreatedAt && p.db == Accept()
    requires Covers(p, s) && s.trace == [] && MutationOf(p, s, 0) == m && s.muts[m].fields == fields
    requires p.env.defaultCreatedAt.None? && CreatedAt !in fields
    requires Check(p.env, fields[CreatedAt := h.value]) == None
    ensures SaveAll(p, s).err == None && Wrote([], SaveAll(p, s).state.trace)
  {
    var done := fields[CreatedAt := h.value];
    EditedIsForetold(p, s, h, m, fields);
    OneEditStops(p.builders, p.env, h, done);
    assert SaveChecks(p, s) == [done];
    ReachedSaveInserts(p, s);
  }

  lemma ReachedSaveInserts(p: Plan, s: State)
    requires Covers(p, s) && |p.builders| > 0 && OnceOnly(p.builders) && p.db == Accept() && s.trace == []
    requires SaveStop(p, s).AtInsert? && !Soured(p.builders, p.env, SaveChecks(p, s), 0, 0)
    ensures SaveAll(p, s).err == None && Wrote([], SaveAll(p, s).state.trace)
  {
    assert p.(db := Accept()) == p;
    OneVerdict(p, s, Accept());
  }

  lemma EditedPasses(env: Env, fields: Settings, v: Value)
    requires NeedsCreation(env, fields)
    ensures Check(env, fields[CreatedAt := v]) == None
  {
    CheckPassesIff(env, fields[CreatedAt := v]);
  }

  lemma OneEditStops(builders: seq<AccountCreate>, env: Env, h: Hook, fields: Settings)
    requires |builders| == 1 && builders[0].hooks == [h] && h.Edit? && Check(env, fields) == None
    ensures FindStop(builders, env, [fields], 0, 0) == AtInsert && !Soured(builders, env, [fields], 0, 0)
  {
    assert builders[0].hooks[0] == h;
    assert FindStop(builders, env, [fields], 0, 1) == AtInsert && !Soured(builders, env, [fields], 0, 1);
  }

  lemma EditedIsForetold(p: Plan, s: State, h: Hook, m: AccountMutation, fields: Settings)
    requires |p.builders| == 1 && p.builders[0].hooks == [h] && h.Edit? && h.column == CreatedAt
    requires Covers(p, s) && MutationOf(p, s, 0) == m && s.muts[m].fields == fields
    requires p.env.defaultCreatedAt.None? && CreatedAt !in fields
    ensures var done := fields[CreatedAt := h.value]; SaveForetold(p, s) == [Seen(done, done, m)]
  {
    FirstDefaultFails(p.env, fields);
    var s0 := Prepared(p, s, 1);
    assert DefaultedBelow(p.builders, p.env, s, 0) == s;
    assert s0.muts[m].fields == fields && MutationOf(p, s0, 0) == m;
    var w, done := WayOf(p, s0), fields[CreatedAt := h.value];
    var w' := w.(fields := EditedFields(w.fields, m, h));
    assert p.builders[0].hooks[0] == h && w'.fields[m] == done;
    assert Foretold(p.builders, w', 0, 1, m) == [Seen(done, done, m)];
  }
}
