/** The bulk save on the heap: the closures of a save, the arrays they share, and their calls against `Run`. */
module BulkSaving {
  import opened Sequences
  import opened AccountEntity
  import opened BulkCreate

  /** A mutator of one save: a builder's own, or one wrapped in the builder's `k`-th hook. */
  datatype Closure = Base(i: nat) | Wrapped(i: nat, k: nat, next: Closure)

  /** Builder `i`'s mutator inside its hooks from the `k`-th on, the `k`-th outermost. */
  function Wrap(builders: seq<AccountCreate>, i: nat, k: nat): Closure
    requires i < |builders| && k <= |builders[i].hooks|
    decreases |builders[i].hooks| - k
  {
    if k == |builders[i].hooks| then Base(i) else Wrapped(i, k, Wrap(builders, i, k + 1))
  }

  /** The mutators of the builders below `n`, each inside all its hooks. */
  function Wrappers(builders: seq<AccountCreate>, n: nat): (r: seq<Closure>)
    requires n <= |builders|
    ensures |r| == n
  {
    seq(n, j requires 0 <= j < n => Wrap(builders, j, 0))
  }

  /** The variables captured by the mutators of one save. */
  class BulkSave {
    const builders: seq<AccountCreate>
    const env: Env
    const db: (nat, seq<CreateSpec>) -> BatchResult
    var specs: seq<Option<CreateSpec>>
    var nodes: seq<Option<Node>>
    var mutators: seq<Closure>
    var inserts: nat
    ghost var trace: seq<Event>
    ghost const muts: set<AccountMutation>

    constructor (builders: seq<AccountCreate>, env: Env, db: (nat, seq<CreateSpec>) -> BatchResult)
      ensures this.builders == builders && this.env == env && this.db == db
      ensures muts == Mutations(builders) && mutators == []
      ensures Is(StartState(builders))
    {
      this.builders, this.env, this.db := builders, env, db;
      specs := Slots(|builders|);
      nodes := Slots(|builders|);
      mutators, inserts, trace := [], 0, [];
      muts := Mutations(builders);
    }

    ghost function P(): Plan {
      Plan(builders, env, db)
    }

    /** The heap is in state `s`. */
    ghost predicate Is(s: State)
      reads this`trace, this`specs, this`nodes, this`inserts, builders, muts
    {
      && trace == s.trace && specs == s.specs && nodes == s.nodes && inserts == s.inserts
      && s.muts.Keys == muts && HeapIs(builders, muts, s)
    }

    method BuildSlot(i: nat, m: AccountMutation, ghost s: State)
      requires Is(s) && i < |builders| == |s.specs| == |s.nodes| && m in s.muts
      modifies this`trace, this`specs, this`nodes, builders[i]
      ensures Is(Build(P(), s, i, m))
    {
      assert m.fields == s.muts[m].fields;
      trace := trace + [Built(i, NewSpec(m.fields))];
      builders[i].mutation := m;
      nodes := nodes[i := Some(Node(0, m.fields))];
      specs := specs[i := Some(NewSpec(m.fields))];
    }

    method InsertAll(ghost s: State) returns (err: Option<CreateError>)
      requires Is(s) && BuiltBelow(s, |s.specs|)
      modifies this`trace, this`specs, this`inserts
      ensures Is(Insert(P(), s).state) && err == Insert(P(), s).err
    {
      var slots := specs;
      var all := seq(|slots|, j requires 0 <= j < |slots| && slots[j].Some? => slots[j].value);
      assert all == AllSpecs(s);
      var result := db(inserts, all);
      trace := trace + [Batch(all, result)];
      inserts := inserts + 1;
      match result
      case Inserted(ids) =>
        specs := Numbered(specs, ids);
        return None;
      case NotInserted(constraint) =>
        return Some(BatchFailed(constraint));
    }

    method FinishSlot(i: nat, m: AccountMutation, ghost s: State)
      requires Is(s) && i < |s.nodes| == |s.specs| && m in s.muts && s.nodes[i].Some? && s.specs[i].Some?
      modifies this`trace, this`nodes, m
      ensures Is(Finish(s, i, m))
    {
      var id := if specs[i].value.id.Some? then specs[i].value.id.value else nodes[i].value.ID;
      nodes := nodes[i := Some(nodes[i].value.(ID := id))];
      m.id := Some(i);
      m.done := true;
      trace := trace + [Done(i)];
    }

    method SetField(m: AccountMutation, c: Column, v: Value, ghost s: State)
      requires Is(s) && m in s.muts
      modifies m`fields
      ensures Is(EditField(s, m, c, v))
    {
      m.fields := m.fields[c := v];
    }

    /** `stages[i]` is the state after the defaults of the builders below `i`. */
    ghost predicate Stages(s: State, stages: seq<State>)
      requires Covers(P(), s)
    {
      && |stages| == |builders| + 1
      && forall i {:trigger IsStage(s, stages, i)} :: 0 <= i <= |builders| ==> IsStage(s, stages, i)
    }

    ghost predicate IsStage(s: State, stages: seq<State>, i: nat)
      requires Covers(P(), s) && i <= |builders| && i < |stages|
    {
      stages[i] == Prepared(P(), s, i)
    }

    ghost function AllStages(s: State): (stages: seq<State>)
      requires Covers(P(), s)
      ensures Stages(s, stages)
    {
      seq(|builders| + 1, i requires 0 <= i <= |builders| => Prepared(P(), s, i))
    }

    /** The defaults of one builder; the error is dropped. */
    method DefaultSlot(i: nat, ghost s: State, ghost stages: seq<State>)
      requires i < |builders| && Covers(P(), s) && Stages(s, stages) && Is(stages[i])
      modifies muts
      ensures Is(stages[i+1])
    {
      ghost var before := stages[i];
      assert IsStage(s, stages, i) && IsStage(s, stages, i + 1);
      var b := builders[i];
      assert b in builders && before.current[b] == b.mutation && b.mutation in muts;
      var _ := b.SetDefaults(env);
    }

    /** The hook loop of one builder: from the last hook to the first, so that the first ends outermost. */
    method WrapHooks(i: nat) returns (mut: Closure)
      requires i < |builders|
      ensures mut == Wrap(builders, i, 0)
    {
      mut := Base(i);
      for k := |builders[i].hooks| downto 0
        invariant mut == Wrap(builders, i, k)
      {
        mut := Wrapped(i, k, mut);
      }
    }

    /** Every builder's mutator is in place, inside its hooks. */
    ghost predicate Wired()
      reads this`mutators
    {
      mutators == Wrappers(builders, |builders|)
    }

    /** One turn of the loop over the builders: defaults, and the mutator inside its hooks. */
    method PrepareOne(i: nat, ghost s: State, ghost stages: seq<State>) returns (mut: Closure)
      requires i < |builders| && Covers(P(), s) && Stages(s, stages) && Is(stages[i])
      modifies muts
      ensures Is(stages[i+1]) && mut == Wrap(builders, i, 0)
    {
      mut := WrapHooks(i);
      DefaultSlot(i, s, stages);
    }

    method PrepareAll(ghost s: State, ghost stages: seq<State>) returns (wrapped: seq<Closure>)
      requires Covers(P(), s) && Stages(s, stages) && Is(stages[0])
      modifies muts
      ensures Is(stages[|builders|]) && wrapped == Wrappers(builders, |builders|)
    {
      wrapped := [];
      for i := 0 to |builders|
        invariant Is(stages[i]) && wrapped == Wrappers(builders, i)
      {
        var mut := PrepareOne(i, s, stages);
        wrapped := wrapped + [mut];
      }
    }

    method Prepare(ghost s: State)
      requires Covers(P(), s) && Is(s) && mutators == []
      modifies this`mutators, muts
      ensures Wired() && Is(Prepared(P(), s, |builders|))
    {
      ghost var stages := AllStages(s);
      assert IsStage(s, stages, 0) && IsStage(s, stages, |builders|);
      mutators := PrepareAll(s, stages);
    }

    /** Defaults and mutators for every builder, then the call of the first mutator. */
    method SaveChain(ghost s: State) returns (err: Option<CreateError>, ghost s': State)
      requires Covers(P(), s) && Is(s) && mutators == []
      modifies this, builders, muts
      ensures Outcome(s', err) == SaveAll(P(), s) && Is(s')
    {
      Prepare(s);
      err, s' := None, Prepared(P(), s, |builders|);
      if |builders| > 0 {
        FirstMutation(s');
        err, s' := Call(mutators[0], builders[0].mutation, 0, 0, s');
      }
    }

    lemma FirstMutation(s: State)
      requires Covers(P(), s) && Is(s) && |builders| > 0
      ensures builders[0].mutation == s.current[builders[0]] && builders[0].mutation in s.muts
    {
      assert builders[0] in builders;
    }

    /** Calling a closure: hooks first, then the builder's own mutator. */
    method Call(c: Closure, m: AccountMutation, ghost i: nat, ghost k: nat, ghost s: State)
      returns (err: Option<CreateError>, ghost s': State)
      requires i < |builders| && k <= |builders[i].hooks| && c == Wrap(builders, i, k) && Wired()
      requires Is(s) && Covers(P(), s) && m in s.muts && BuiltBelow(s, i)
      modifies this`trace, this`specs, this`nodes, this`inserts, builders, muts
      ensures Outcome(s', err) == Run(P(), s, i, k, m) && Is(s')
      decreases |builders| - i, |builders[i].hooks| - k, 3
    {
      match c
      case Base(j) =>
        err, s' := CallMutator(j, m, s);
      case Wrapped(j, l, next) =>
        trace := trace + [Enter(j, l)];
        err, s' := CallHook(j, l, next, m, s.Log(Enter(j, l)));
        trace := trace + [Exit(j, l)];
        s' := s'.Log(Exit(j, l));
    }

    /** One hook around the next mutator. */
    method CallHook(i: nat, k: nat, next: Closure, m: AccountMutation, ghost s: State)
      returns (err: Option<CreateError>, ghost s': State)
      requires i < |builders| && k < |builders[i].hooks| && next == Wrap(builders, i, k + 1) && Wired()
      requires Is(s) && Covers(P(), s) && m in s.muts && BuiltBelow(s, i)
      modifies this`trace, this`specs, this`nodes, this`inserts, builders, muts
      ensures Outcome(s', err) == RunHook(P(), s, i, k, m) && Is(s')
      decreases |builders| - i, |builders[i].hooks| - k, 2
    {
      var h := builders[i].hooks[k];
      if h.Reject? {
        return Some(Rejected(h.reason)), s;
      }
      if h.Skip? {
        return None, s;
      }
      HandedOnIsCovered(P(), s, i, k, m);
      err, s' := CallThrough(i, k, next, m, s);
    }

    /** The hook's first call of the next mutator and those that follow. */
    method CallThrough(i: nat, k: nat, next: Closure, m: AccountMutation, ghost s: State)
      returns (err: Option<CreateError>, ghost s': State)
      requires i < |builders| && k < |builders[i].hooks| && next == Wrap(builders, i, k + 1) && Wired()
      requires Is(s) && Covers(P(), s) && m in s.muts && BuiltBelow(s, i) && !Blocks(builders[i].hooks[k])
      requires HandedOn(m, builders[i].hooks[k]) in s.muts
      modifies this`trace, this`specs, this`nodes, this`inserts, builders, muts
      ensures Outcome(s', err) == RunHook(P(), s, i, k, m) && Is(s')
      decreases |builders| - i, |builders[i].hooks| - k, 1
    {
      var h := builders[i].hooks[k];
      ghost var s1, goal;
      var first, last;
      first, s1, goal := CallOn(i, k, next, m, s);
      last, s' := CallRest(i, k, next, HandedOn(m, h), Tries(h), first, s1, goal);
      err := OrElse(last, LateFailure(h));
    }

    /** From here on the hook's calls with `m` come to `goal`. */
    ghost predicate Nears(s: State, i: nat, k: nat, m: AccountMutation, left: nat, err: Option<CreateError>,
                          goal: Outcome)
      requires i < |builders| && k < |builders[i].hooks|
    {
      && Covers(P(), s) && m in s.muts && BuiltBelow(s, i)
      && RunAgain(P(), s, i, k, m, left, err) == goal
    }

    /** The hook's further calls, while it has calls left and wants them. */
    method CallRest(i: nat, k: nat, next: Closure, m: AccountMutation, left: nat, first: Option<CreateError>,
                    ghost s: State, ghost goal: Outcome)
      returns (err: Option<CreateError>, ghost s': State)
      requires i < |builders| && k < |builders[i].hooks| && next == Wrap(builders, i, k + 1) && Wired()
      requires Is(s) && Nears(s, i, k, m, left, first, goal)
      modifies this`trace, this`specs, this`nodes, this`inserts, builders, muts
      ensures Outcome(s', err) == goal && Is(s')
      decreases |builders| - i, |builders[i].hooks| - k, 0, left, 1
    {
      if left == 0 || !CallsAgain(builders[i].hooks[k], first) {
        err, s' := first, s;
      } else {
        err, s' := CallMore(i, k, next, m, left, first, s, goal);
      }
    }

    method CallMore(i: nat, k: nat, next: Closure, m: AccountMutation, left: nat, first: Option<CreateError>,
                    ghost s: State, ghost goal: Outcome)
      returns (err: Option<CreateError>, ghost s': State)
      requires i < |builders| && k < |builders[i].hooks| && next == Wrap(builders, i, k + 1) && Wired()
      requires Is(s) && Nears(s, i, k, m, left, first, goal)
      requires left > 0 && CallsAgain(builders[i].hooks[k], first)
      modifies this`trace, this`specs, this`nodes, this`inserts, builders, muts
      ensures Outcome(s', err) == goal && Is(s')
      decreases |builders| - i, |builders[i].hooks| - k, 0, left, 0
    {
      ghost var s1;
      var second;
      second, s1 := CallOnceMore(i, k, next, m, left, first, s, goal);
      err, s' := CallRest(i, k, next, m, left - 1, second, s1, goal);
    }

    method CallOnceMore(i: nat, k: nat, next: Closure, m: AccountMutation, ghost left: nat,
                        ghost first: Option<CreateError>, ghost s: State, ghost goal: Outcome)
      returns (err: Option<CreateError>, ghost s': State)
      requires i < |builders| && k < |builders[i].hooks| && next == Wrap(builders, i, k + 1) && Wired()
      requires Is(s) && Nears(s, i, k, m, left, first, goal)
      requires left > 0 && CallsAgain(builders[i].hooks[k], first)
      modifies this`trace, this`specs, this`nodes, this`inserts, builders, muts
      ensures Is(s') && Nears(s', i, k, m, left - 1, err, goal)
      decreases |builders| - i, |builders[i].hooks| - k, 0, 0, 0
    {
      RunAgainStep(P(), s, i, k, m, left, first);
      err, s' := Call(next, m, i, k + 1, s);
    }

    /** The hook's first call of the next mutator, after what it does to the mutation. */
    method CallOn(i: nat, k: nat, next: Closure, m: AccountMutation, ghost s: State)
      returns (err: Option<CreateError>, ghost s': State, ghost goal: Outcome)
      requires i < |builders| && k < |builders[i].hooks| && next == Wrap(builders, i, k + 1) && Wired()
      requires Is(s) && Covers(P(), s) && m in s.muts && BuiltBelow(s, i) && !Blocks(builders[i].hooks[k])
      requires HandedOn(m, builders[i].hooks[k]) in s.muts
      modifies this`trace, this`specs, this`nodes, this`inserts, builders, muts
      ensures Is(s') && Nears(s', i, k, HandedOn(m, builders[i].hooks[k]), Tries(builders[i].hooks[k]), err, goal)
      ensures RunHook(P(), s, i, k, m) == Outcome(goal.state, OrElse(goal.err, LateFailure(builders[i].hooks[k])))
      decreases |builders| - i, |builders[i].hooks| - k, 0, 0
    {
      var h := builders[i].hooks[k];
      if h.Edit? {
        SetField(m, h.column, h.value, s);
      }
      err, s' := Call(next, HandedOn(m, h), i, k + 1, Edited(s, m, h));
      goal := RunAgain(P(), s', i, k, HandedOn(m, h), Tries(h), err);
    }

    method CallMutator(i: nat, m: AccountMutation, ghost s: State) returns (err: Option<CreateError>, ghost s': State)
      requires i < |builders| && Wired()
      requires Is(s) && Covers(P(), s) && m in s.muts && BuiltBelow(s, i)
      modifies this`trace, this`specs, this`nodes, this`inserts, builders, muts
      ensures Outcome(s', err) == RunMutator(P(), s, i, m) && Is(s')
      decreases |builders| - i, 0, 0, 0
    {
      err := BeginMutator(i, m, s);
      s' := Begin(P(), s, i, m).state;
      if err != None {
        return;
      }
      err, s' := CallNext(i, s');
      if err == None {
        FinishSlot(i, m, s');
        s' := Finish(s', i, m);
      }
    }

    method BeginMutator(i: nat, m: AccountMutation, ghost s: State) returns (err: Option<CreateError>)
      requires i < |builders|
      requires Is(s) && Covers(P(), s) && m in s.muts && BuiltBelow(s, i)
      modifies this`trace, this`specs, this`nodes, builders[i]
      ensures Is(Begin(P(), s, i, m).state) && err == Begin(P(), s, i, m).err
    {
      var fields := builders[i].mutation.fields;
      assert s.current[builders[i]] == builders[i].mutation && s.muts[builders[i].mutation].fields == fields;
      err := Check(env, fields);
      trace := trace + [Checked(i, fields, err == None)];
      if err == None {
        BuildSlot(i, m, s.Log(Checked(i, fields, true)));
      }
    }

    /** Only the last mutator writes to the database. */
    method CallNext(i: nat, ghost s: State) returns (err: Option<CreateError>, ghost s': State)
      requires i < |builders| && Is(s) && Covers(P(), s) && BuiltBelow(s, i + 1) && Wired()
      modifies this`trace, this`specs, this`nodes, this`inserts, builders, muts
      ensures Outcome(s', err) == RunNext(P(), s, i) && Is(s')
      decreases |builders| - i - 1, 1 + (if i + 1 < |builders| then |builders[i+1].hooks| else 0), 2
    {
      if i < |builders| - 1 {
        assert builders[i+1] in builders && s.current[builders[i+1]] == builders[i+1].mutation;
        err, s' := Call(mutators[i+1], builders[i+1].mutation, i + 1, 0, s);
      } else {
        s' := Insert(P(), s).state;
        err := InsertAll(s);
      }
    }
  }

  /** Empty slots, one per builder. */
  function Slots<T>(n: nat): (r: seq<Option<T>>)
    ensures |r| == n && forall i :: 0 <= i < n ==> r[i] == None
  {
    seq(n, _ => None)
  }

  /** Every mutation a save can touch. */
  ghost function Mutations(builders: seq<AccountCreate>): set<AccountMutation>
    reads builders
  {
    (set b | b in builders :: b.mutation) + Replacements(builders)
  }

  /** The state a save starts in: the builders and mutations as they are, and empty slots. */
  ghost function StartState(builders: seq<AccountCreate>): (s: State)
    reads builders, Mutations(builders)
    ensures |s.specs| == |s.nodes| == |builders| && Replacements(builders) <= s.muts.Keys
    ensures forall b :: b in builders ==> b in s.current && s.current[b] in s.muts
  {
    State([], map m | m in Mutations(builders) :: Mut(m.fields, m.done, m.id),
          map b | b in builders :: b.mutation, Slots(|builders|), Slots(|builders|), 0)
  }

  /** What the chain makes of the builders as they are. */
  ghost function SavedFrom(builders: seq<AccountCreate>, env: Env, db: (nat, seq<CreateSpec>) -> BatchResult): Outcome
    reads builders, Mutations(builders)
  {
    SaveAll(Plan(builders, env, db), StartState(builders))
  }

  class AccountCreateBulk {
    var err: Option<CreateError>
    const builders: seq<AccountCreate>

    constructor (builders: seq<AccountCreate>, err: Option<CreateError>)
      ensures this.builders == builders && this.err == err
    {
      this.builders, this.err := builders, err;
    }

    /** Saves all builders. The outcome is that of the chain started on the builders as they are; an error
        returns no nodes. */
    method Save(env: Env, db: (nat, seq<CreateSpec>) -> BatchResult)
      returns (nodes: seq<Option<Node>>, failure: Option<CreateError>, ghost end: State)
      modifies builders, Mutations(builders)
      ensures err.Some? ==> failure == err && nodes == []
      ensures err.None? ==>
        && Outcome(end, failure) == old(SavedFrom(builders, env, db))
        && nodes == (if failure.Some? then [] else end.nodes)
        && HeapIs(builders, old(Mutations(builders)), end)
    {
      if err.Some? {
        return [], err, State([], map[], map[], [], [], 0);
      }
      nodes, failure, end := SaveBuilders(builders, env, db);
    }
  }

  /** The builders and mutations are as the state says. */
  ghost predicate HeapIs(builders: seq<AccountCreate>, muts: set<AccountMutation>, s: State)
    reads builders, muts
  {
    && (forall b :: b in builders ==> b in s.current && b.mutation == s.current[b])
    && (forall m :: m in muts ==> m in s.muts && Mut(m.fields, m.done, m.id) == s.muts[m])
  }

  method SaveBuilders(builders: seq<AccountCreate>, env: Env, db: (nat, seq<CreateSpec>) -> BatchResult)
    returns (nodes: seq<Option<Node>>, failure: Option<CreateError>, ghost end: State)
    modifies builders, Mutations(builders)
    ensures Outcome(end, failure) == old(SavedFrom(builders, env, db))
    ensures nodes == if failure.Some? then [] else end.nodes
    ensures HeapIs(builders, old(Mutations(builders)), end)
  {
    ghost var muts, start := Mutations(builders), StartState(builders);
    var chain := new BulkSave(builders, env, db);
    assert chain.Is(start);
    failure, end := chain.SaveChain(start);
    nodes := if failure.Some? then [] else chain.nodes;
  }
}
