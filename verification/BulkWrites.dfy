/** What reaches the database: how many inserts a save makes at most and exactly, what they write, and when
    everything written has passed its check. */
module BulkWrites {
  import opened Sequences
  import opened AccountEntity
  import opened BulkCreate
  import opened BulkLaws
  import opened BulkOutcome
  import opened BulkReach

  // ------------------------------------------------------------- at most so many

  /** The inserts before are still there, and at most `most` were added. */
  predicate InsertsMore(before: seq<Event>, after: seq<Event>, most: nat) {
    Batches(before) <= Batches(after) && |Batches(after)| <= |Batches(before)| + most
  }

  /** Whatever hooks do to mutations and errors, and whatever the database answers: a hook multiplies the
      inserts of the call inside it at most by how often it calls on, and without a hook that may call on
      more than once there is at most one. */
  lemma {:induction false} InsertsAtMost(p: Plan, s: State, i: nat, k: nat, m: AccountMutation)
    requires i < |p.builders| && k <= |p.builders[i].hooks|
    requires Covers(p, s) && m in s.muts && BuiltBelow(s, i)
    ensures InsertsMore(s.trace, Run(p, s, i, k, m).state.trace, Calls(p.builders, i, k))
    decreases |p.builders| - i, |p.builders[i].hooks| - k, 2, 0
  {
    if k < |p.builders[i].hooks| {
      var s0 := s.Log(Enter(i, k));
      HookInsertsAtMost(p, s0, i, k, m);
      BatchesLog(s.trace, Enter(i, k));
      BatchesLog(RunHook(p, s0, i, k, m).state.trace, Exit(i, k));
    } else {
      MutatorInsertsAtMost(p, s, i, m);
    }
  }

  lemma {:induction false} HookInsertsAtMost(p: Plan, s: State, i: nat, k: nat, m: AccountMutation)
    requires i < |p.builders| && k < |p.builders[i].hooks|
    requires Covers(p, s) && m in s.muts && BuiltBelow(s, i)
    ensures InsertsMore(s.trace, RunHook(p, s, i, k, m).state.trace, Calls(p.builders, i, k))
    decreases |p.builders| - i, |p.builders[i].hooks| - k, 1, 0
  {
    var h := p.builders[i].hooks[k];
    if !Blocks(h) {
      HandedOnIsCovered(p, s, i, k, m);
      InsertsAtMost(p, Edited(s, m, h), i, k + 1, HandedOn(m, h));
      var r := Run(p, Edited(s, m, h), i, k + 1, HandedOn(m, h));
      AgainInsertsAtMost(p, r.state, i, k, HandedOn(m, h), Tries(h), r.err);
    }
  }

  lemma {:induction false} AgainInsertsAtMost(p: Plan, s: State, i: nat, k: nat, m: AccountMutation, left: nat,
                                              err: Option<CreateError>)
    requires i < |p.builders| && k < |p.builders[i].hooks|
    requires Covers(p, s) && m in s.muts && BuiltBelow(s, i)
    ensures InsertsMore(s.trace, RunAgain(p, s, i, k, m, left, err).state.trace, left * Calls(p.builders, i, k + 1))
    decreases |p.builders| - i, |p.builders[i].hooks| - k, 0, left
  {
    if left > 0 && CallsAgain(p.builders[i].hooks[k], err) {
      RunAgainStep(p, s, i, k, m, left, err);
      InsertsAtMost(p, s, i, k + 1, m);
      var r, calls := Run(p, s, i, k + 1, m), Calls(p.builders, i, k + 1);
      AgainInsertsAtMost(p, r.state, i, k, m, left - 1, r.err);
      InsertsOnceMore(s.trace, r.state.trace, RunAgain(p, s, i, k, m, left, err).state.trace, calls, left);
    }
  }

  lemma InsertsOnceMore(a: seq<Event>, b: seq<Event>, c: seq<Event>, calls: nat, left: nat)
    requires left > 0 && InsertsMore(a, b, calls) && InsertsMore(b, c, (left - 1) * calls)
    ensures InsertsMore(a, c, left * calls)
  {
    assert left * calls == (left - 1) * calls + calls;
  }

  lemma BeginInsertsNothing(p: Plan, s: State, i: nat, m: AccountMutation)
    requires i < |p.builders| && Covers(p, s) && m in s.muts && BuiltBelow(s, i)
    ensures Batches(Begin(p, s, i, m).state.trace) == Batches(s.trace)
  {
    var fields := s.muts[s.current[p.builders[i]]].fields;
    var checked := Checked(i, fields, Check(p.env, fields).None?);
    BatchesLog(s.trace, checked);
    BatchesLog(s.trace + [checked], Built(i, NewSpec(s.muts[m].fields)));
  }

  lemma {:induction false} MutatorInsertsAtMost(p: Plan, s: State, i: nat, m: AccountMutation)
    requires i < |p.builders| && Covers(p, s) && m in s.muts && BuiltBelow(s, i)
    ensures InsertsMore(s.trace, RunMutator(p, s, i, m).state.trace, Calls(p.builders, i, |p.builders[i].hooks|))
    decreases |p.builders| - i, 0, 1, 0
  {
    BeginInsertsNothing(p, s, i, m);
    var b := Begin(p, s, i, m);
    if b.err == None {
      NextInsertsAtMost(p, b.state, i);
      BatchesLog(RunNext(p, b.state, i).state.trace, Done(i));
    }
  }

  lemma {:induction false} NextInsertsAtMost(p: Plan, s: State, i: nat)
    requires i < |p.builders| && Covers(p, s) && BuiltBelow(s, i + 1)
    ensures InsertsMore(s.trace, RunNext(p, s, i).state.trace, Calls(p.builders, i, |p.builders[i].hooks|))
    decreases |p.builders| - i - 1, 1 + (if i + 1 < |p.builders| then |p.builders[i+1].hooks| else 0), 0, 0
  {
    if i + 1 == |p.builders| {
      BatchesLog(s.trace, Batch(AllSpecs(s), p.db(s.inserts, AllSpecs(s))));
    } else {
      assert p.builders[i+1] in p.builders;
      InsertsAtMost(p, s, i + 1, 0, s.current[p.builders[i+1]]);
    }
  }

  // ------------------------------------------------------------- exactly so many

  /** The fields each builder ends up writing: those of the last mutation its hooks substitute, or its own. */
  ghost function WrittenSettings(p: Plan, s: State): (ws: seq<Settings>)
    requires Covers(p, s)
    ensures |ws| == |p.builders|
  {
    var s0 := Prepared(p, s, |p.builders|);
    seq(|p.builders|, j requires 0 <= j < |p.builders| => WrittenBy(p, s0, j))
  }

  ghost function WrittenBy(p: Plan, s: State, j: nat): Settings
    requires Covers(p, s) && j < |p.builders|
  {
    var m := MutationOf(p, s, j);
    ReachedIsKnown(p.builders, j, m, 0);
    s.muts[Reached(m, p.builders[j].hooks, 0)].fields
  }

  /** The inserts a save adds. */
  ghost function Sent(p: Plan, s: State): seq<Event>
    requires Covers(p, s)
  {
    var before, after := Batches(s.trace), Batches(SaveAll(p, s).state.trace);
    if |before| <= |after| then after[|before|..] else []
  }

  /** The way in reaches the insert: no hook blocks, and every builder passes its check. */
  ghost predicate ReachesInsert(p: Plan, s: State)
    requires Covers(p, s) && |p.builders| > 0
  {
    FindStop(p.builders, p.env, SavedSettings(p, s), 0, 0) == AtInsert
  }

  lemma {:induction false} OpenIffAtInsert(builders: seq<AccountCreate>, env: Env, f: Front, fs: seq<Settings>,
                                           i: nat, k: nat)
    requires FrontFits(builders, f) && i < |builders| == |fs| && k <= |builders[i].hooks|
    requires forall j :: 0 <= j < |fs| ==> fs[j] == f.fields[f.own[j]]
    ensures Open(builders, env, f, i, k) <==> FindStop(builders, env, fs, i, k) == AtInsert
    decreases |builders| - i, |builders[i].hooks| - k
  {
    if k < |builders[i].hooks| {
      OpenIffAtInsert(builders, env, f, fs, i, k + 1);
    } else {
      GoodStep(builders, env, f, i);
      if i < |builders| - 1 {
        OpenIffAtInsert(builders, env, f, fs, i + 1, 0);
      }
    }
  }

  lemma SendsAfter(before: seq<Event>, after: seq<Event>, ws: seq<Settings>, open: bool, more: nat, exact: bool)
    requires Sends(before, after, ws, open, more, exact)
    ensures before + after[|before|..] == after && Sends([], after[|before|..], ws, open, more, exact)
  {
    var sent := after[|before|..];
    forall a | 0 <= a < |sent|
      ensures BatchOf(sent[a], ws)
    {
      assert sent[a] == after[|before| + a];
    }
  }

  lemma WrittenAreTargets(p: Plan, s: State)
    requires Covers(p, s) && |p.builders| > 0
    ensures var s0 := Prepared(p, s, |p.builders|);
      Targets(p.builders, FrontOf(p, s0), 0, 0, MutationOf(p, s0, 0)) == WrittenSettings(p, s)
  {
  }

  /** The whole save is a walk from hook 0 of the first builder. */
  lemma SaveIsWalk(p: Plan, s: State)
    requires Covers(p, s) && |p.builders| > 0 && NoEdit(p.builders) && Distinct(p.builders)
    ensures var s0 := Prepared(p, s, |p.builders|); var f, r := FrontOf(p, s0), SaveAll(p, s);
      && Covers(p, r.state) && BuiltTo(f, 0)
      && Walked(p, f, 0, 0, MutationOf(p, s0, 0), FrontOf(p, r.state), r.err)
  {
    var s0 := Prepared(p, s, |p.builders|);
    var m := MutationOf(p, s0, 0);
    ChainWalks(p, s0, 0, 0, m);
    assert SaveAll(p, s) == Run(p, s0, 0, 0, m);
  }

  lemma OpenIfReaches(p: Plan, s: State)
    requires Covers(p, s) && |p.builders| > 0
    ensures Open(p.builders, p.env, FrontOf(p, Prepared(p, s, |p.builders|)), 0, 0) <==> ReachesInsert(p, s)
  {
    OpenIffAtInsert(p.builders, p.env, FrontOf(p, Prepared(p, s, |p.builders|)), SavedSettings(p, s), 0, 0);
  }

  /** Every hook that may call again does. */
  ghost predicate Insistent(p: Plan, s: State) {
    Refuses(p.db, s.inserts) || Unconditional(p.builders)
  }

  lemma SaveSends(p: Plan, s: State)
    requires Covers(p, s) && |p.builders| > 0 && NoEdit(p.builders) && Distinct(p.builders)
    ensures Batches(s.trace) + Sent(p, s) == Batches(SaveAll(p, s).state.trace)
    ensures var ws := WrittenSettings(p, s);
      Sends([], Sent(p, s), ws, ReachesInsert(p, s), More(p.builders, p.env, ws, 0, 0), Insistent(p, s))
  {
    SaveIsWalk(p, s);
    WrittenAreTargets(p, s);
    OpenIfReaches(p, s);
    var ws := WrittenSettings(p, s);
    SendsAfter(Batches(s.trace), Batches(SaveAll(p, s).state.trace), ws, ReachesInsert(p, s),
               More(p.builders, p.env, ws, 0, 0), Insistent(p, s));
  }

  /** How many inserts a save makes. None if the way in ends before. Otherwise one, and as many more as the
      hooks that call again bring about: such a hook brings second calls through exactly if what the first
      call left in the builders from its own on passes their checks. */
  lemma InsertsAre(p: Plan, s: State)
    requires Covers(p, s) && |p.builders| > 0 && NoEdit(p.builders) && Distinct(p.builders)
    ensures !ReachesInsert(p, s) ==> Sent(p, s) == []
    ensures var more := More(p.builders, p.env, WrittenSettings(p, s), 0, 0); ReachesInsert(p, s) ==>
      && 1 <= |Sent(p, s)| <= 1 + more
      && (Insistent(p, s) ==> |Sent(p, s)| == 1 + more)
  {
    SaveSends(p, s);
  }

  function RefuseAll(): (db: (nat, seq<CreateSpec>) -> BatchResult)
  {
    (n: nat, specs: seq<CreateSpec>) => NotInserted(false)
  }

  /** A save inserts at most once, whatever the database answers, exactly if its way in ends before the
      insert, or no hook that calls again stands where a second call would come through. */
  lemma InsertsAtMostOnceIff(p: Plan, s: State)
    requires Covers(p, s) && |p.builders| > 0 && NoEdit(p.builders) && Distinct(p.builders)
    ensures (forall db :: SentWith(p, s, db) <= 1) <==>
      || !ReachesInsert(p, s)
      || forall a, b :: !Repeats(p.builders, p.env, WrittenSettings(p, s), a, b)
  {
    var ws := WrittenSettings(p, s);
    MoreIsNoneIff(p.builders, p.env, ws, 0, 0);
    assert (forall a: nat, b: nat :: !Repeats(p.builders, p.env, ws, a, b)) <==> More(p.builders, p.env, ws, 0, 0) == 0;
    forall db
      ensures SentWith(p, s, db) <= 1 + if ReachesInsert(p, s) then More(p.builders, p.env, ws, 0, 0) else 0
    {
      SameForEveryDatabase(p, s, db);
      InsertsAre(p.(db := db), s);
    }
    SameForEveryDatabase(p, s, RefuseAll());
    InsertsAre(p.(db := RefuseAll()), s);
    if ReachesInsert(p, s) && More(p.builders, p.env, ws, 0, 0) > 0 {
      assert SentWith(p, s, RefuseAll()) > 1;
    }
  }

  /** How many inserts the save makes with another database. */
  ghost function SentWith(p: Plan, s: State, db: (nat, seq<CreateSpec>) -> BatchResult): nat
    requires Covers(p, s)
  {
    |Sent(p.(db := db), s)|
  }

  /** What the builders start with does not depend on the database. */
  lemma SameForEveryDatabase(p: Plan, s: State, db: (nat, seq<CreateSpec>) -> BatchResult)
    requires Covers(p, s) && |p.builders| > 0
    ensures Covers(p.(db := db), s) && SavedSettings(p.(db := db), s) == SavedSettings(p, s)
    ensures WrittenSettings(p.(db := db), s) == WrittenSettings(p, s)
    ensures ReachesInsert(p.(db := db), s) <==> ReachesInsert(p, s)
  {
    assert WrittenSettings(p.(db := db), s) == WrittenSettings(p, s);
  }

  /** Dropping the errors of the defaults is sound as long as hooks set no fields: if they failed for any
      builder nothing is inserted, whatever hooks do with mutations, errors and calls. */
  lemma DroppedErrorStopsTheSave(p: Plan, s: State, j: nat)
    requires Covers(p, s) && NoEdit(p.builders) && Distinct(p.builders) && j < |p.builders|
    requires p.builders[j] in s.current && s.current[p.builders[j]] in s.muts
    requires Defaults(p.env, Prepared(p, s, j).muts[s.current[p.builders[j]]].fields).err.Some?
    ensures Sent(p, s) == [] && !ReachesInsert(p, s)
  {
    FailedDefaultIsUnclear(p, s, j);
    InsertsAre(p, s);
  }

  // ----------------------------------------------------------------- only checked

  ghost predicate NoReplace(builders: seq<AccountCreate>) {
    forall i :: 0 <= i < |builders| ==> forall k :: 0 <= k < |builders[i].hooks| ==> !builders[i].hooks[k].Replace?
  }

  predicate CheckedSpec(env: Env, spec: CreateSpec) {
    Check(env, spec.fields) == None
  }

  /** Every spec built or inserted so far passes the check. */
  ghost predicate OnlyChecked(env: Env, s: State) {
    && (forall j :: 0 <= j < |s.specs| && s.specs[j].Some? ==> CheckedSpec(env, s.specs[j].value))
    && (forall e :: e in s.trace && e.Batch? ==> forall j :: 0 <= j < |e.specs| ==> CheckedSpec(env, e.specs[j]))
  }

  lemma OnlyCheckedLog(env: Env, s: State, e: Event)
    requires OnlyChecked(env, s) && (e.Batch? ==> forall j :: 0 <= j < |e.specs| ==> CheckedSpec(env, e.specs[j]))
    ensures OnlyChecked(env, s.Log(e))
  {
  }

  /** Nothing unchecked is written: while hooks hand on the builder's own mutation, edited or not, once or
      more, every spec that reaches a slot or an insert passes the check. */
  lemma {:induction false} NothingUncheckedIsWritten(p: Plan, s: State, i: nat, k: nat)
    requires i < |p.builders| && k <= |p.builders[i].hooks|
    requires Covers(p, s) && BuiltBelow(s, i) && NoReplace(p.builders) && OnlyChecked(p.env, s)
    ensures p.builders[i] in p.builders
    ensures var r := Run(p, s, i, k, s.current[p.builders[i]]).state; OnlyChecked(p.env, r) && r.current == s.current
    decreases |p.builders| - i, |p.builders[i].hooks| - k, 2, 0
  {
    assert p.builders[i] in p.builders;
    var m := s.current[p.builders[i]];
    if k < |p.builders[i].hooks| {
      var s0, h := s.Log(Enter(i, k)), p.builders[i].hooks[k];
      OnlyCheckedLog(p.env, s, Enter(i, k));
      if !Blocks(h) {
        NothingUncheckedIsWritten(p, Edited(s0, m, h), i, k + 1);
        var r := Run(p, Edited(s0, m, h), i, k + 1, m);
        AgainWritesChecked(p, r.state, i, k, Tries(h), r.err);
      }
      OnlyCheckedLog(p.env, RunHook(p, s0, i, k, m).state, Exit(i, k));
    } else {
      MutatorWritesChecked(p, s, i);
    }
  }

  lemma {:induction false} AgainWritesChecked(p: Plan, s: State, i: nat, k: nat, left: nat, err: Option<CreateError>)
    requires i < |p.builders| && k < |p.builders[i].hooks| && p.builders[i] in p.builders
    requires Covers(p, s) && BuiltBelow(s, i) && NoReplace(p.builders) && OnlyChecked(p.env, s)
    ensures var r := RunAgain(p, s, i, k, s.current[p.builders[i]], left, err).state;
      OnlyChecked(p.env, r) && r.current == s.current
    decreases |p.builders| - i, |p.builders[i].hooks| - k, 0, left
  {
    if left > 0 && CallsAgain(p.builders[i].hooks[k], err) {
      var m := s.current[p.builders[i]];
      RunAgainStep(p, s, i, k, m, left, err);
      NothingUncheckedIsWritten(p, s, i, k + 1);
      var r := Run(p, s, i, k + 1, m);
      AgainWritesChecked(p, r.state, i, k, left - 1, r.err);
    }
  }

  lemma BeginWritesChecked(p: Plan, s: State, i: nat)
    requires i < |p.builders| && Covers(p, s) && BuiltBelow(s, i) && OnlyChecked(p.env, s)
    ensures p.builders[i] in p.builders
    ensures var r := Begin(p, s, i, s.current[p.builders[i]]).state; OnlyChecked(p.env, r) && r.current == s.current
  {
    assert p.builders[i] in p.builders;
    var fields := s.muts[s.current[p.builders[i]]].fields;
    OnlyCheckedLog(p.env, s, Checked(i, fields, Check(p.env, fields).None?));
  }

  lemma {:induction false} MutatorWritesChecked(p: Plan, s: State, i: nat)
    requires i < |p.builders| && Covers(p, s) && BuiltBelow(s, i) && NoReplace(p.builders) && OnlyChecked(p.env, s)
    requires p.builders[i] in p.builders
    ensures var r := RunMutator(p, s, i, s.current[p.builders[i]]).state;
      OnlyChecked(p.env, r) && r.current == s.current
    decreases |p.builders| - i, 0, 1, 0
  {
    var m := s.current[p.builders[i]];
    var b := Begin(p, s, i, m);
    BeginWritesChecked(p, s, i);
    if b.err == None {
      NextWritesChecked(p, b.state, i);
      var r := RunNext(p, b.state, i);
      if r.err == None {
        FinishWritesNothing(p.env, r.state, i, m);
      }
    }
  }

  lemma {:induction false} NextWritesChecked(p: Plan, s: State, i: nat)
    requires i < |p.builders| && Covers(p, s) && BuiltBelow(s, i + 1) && NoReplace(p.builders) && OnlyChecked(p.env, s)
    ensures var r := RunNext(p, s, i).state; OnlyChecked(p.env, r) && r.current == s.current
    decreases |p.builders| - i - 1, 1 + (if i + 1 < |p.builders| then |p.builders[i+1].hooks| else 0), 0, 0
  {
    if i + 1 == |p.builders| {
      OnlyCheckedLog(p.env, s, Batch(AllSpecs(s), p.db(s.inserts, AllSpecs(s))));
    } else {
      NothingUncheckedIsWritten(p, s, i + 1, 0);
    }
  }

  lemma FinishWritesNothing(env: Env, s: State, i: nat, m: AccountMutation)
    requires i < |s.nodes| == |s.specs| && m in s.muts && s.nodes[i].Some? && s.specs[i].Some? && OnlyChecked(env, s)
    ensures OnlyChecked(env, Finish(s, i, m))
  {
  }

  /** Without substitution, edited mutations aside, the count is a product: every hook multiplies it by how
      often it calls on. */
  lemma SteadyInsertsAre(p: Plan, s: State)
    requires Covers(p, s) && |p.builders| > 0 && NoEdit(p.builders) && NoReplace(p.builders) && Distinct(p.builders)
    requires ReachesInsert(p, s)
    ensures 1 <= |Sent(p, s)| <= Calls(p.builders, 0, 0)
    ensures Insistent(p, s) ==> |Sent(p, s)| == Calls(p.builders, 0, 0)
  {
    var fs, ws := SavedSettings(p, s), WrittenSettings(p, s);
    InsertsAre(p, s);
    MoreIsCalls(p.builders, p.env, ws, 0, 0);
    forall j | 0 <= j < |ws|
      ensures Check(p.env, ws[j]) == None
    {
      StaysItself(p.builders[j].hooks, MutationOf(p, Prepared(p, s, |p.builders|), j), 0);
      assert ws[j] == fs[j];
      StopsAtFirstFailure(p.builders, p.env, fs, 0, 0);
      assert Clear(p.builders, p.env, fs, j);
    }
  }

  lemma {:induction false} StaysItself(hooks: seq<Hook>, m: AccountMutation, k: nat)
    requires k <= |hooks| && forall b :: 0 <= b < |hooks| ==> !hooks[b].Replace?
    ensures Reached(m, hooks, k) == m
    decreases |hooks| - k
  {
    if k < |hooks| {
      StaysItself(hooks, m, k + 1);
    }
  }

  // ------------------------------------------------------------- what is written

  /** Every spec in the batches passes the check. */
  ghost predicate AllChecked(env: Env, batches: seq<Event>) {
    forall e :: e in batches ==> e.Batch? && forall j :: 0 <= j < |e.specs| ==> CheckedSpec(env, e.specs[j])
  }

  lemma AllCheckedIff(env: Env, batches: seq<Event>, ws: seq<Settings>)
    requires forall a :: 0 <= a < |batches| ==> BatchOf(batches[a], ws)
    ensures AllChecked(env, batches) <==> batches == [] || AllPass(env, ws, 0)
  {
    if batches != [] && AllChecked(env, batches) {
      var e := batches[0];
      assert e in batches && BatchOf(e, ws);
      assert forall j :: 0 <= j < |ws| ==> CheckedSpec(env, e.specs[j]);
    }
  }

  /** Every insert of a save writes, builder by builder, the fields of the mutation its hooks end with,
      although it is the builder's own mutation that is checked. So everything written passes the check
      exactly if nothing is written at all or all those mutations pass it. */
  lemma WrittenIsCheckedIff(p: Plan, s: State)
    requires Covers(p, s) && |p.builders| > 0 && NoEdit(p.builders) && Distinct(p.builders)
    ensures forall e :: e in Sent(p, s) ==> BatchOf(e, WrittenSettings(p, s))
    ensures Sent(p, s) == [] <==> !ReachesInsert(p, s)
    ensures AllChecked(p.env, Sent(p, s)) <==> !ReachesInsert(p, s) || AllPass(p.env, WrittenSettings(p, s), 0)
  {
    SaveSends(p, s);
    AllCheckedIff(p.env, Sent(p, s), WrittenSettings(p, s));
  }

  // -------------------------------------------------------------------- verdicts

  /** The database accepts one batch, the `at`-th, and refuses all others. */
  function AcceptOne(at: nat): (nat, seq<CreateSpec>) -> BatchResult {
    (n: nat, specs: seq<CreateSpec>) => if n == at then Inserted([]) else NotInserted(false)
  }

  /** A save whose hooks all call on, told by what it sent. */
  lemma CallingOnTells(p: Plan, s: State)
    requires Covers(p, s) && |p.builders| > 0 && NoEdit(p.builders) && Distinct(p.builders)
    requires Unblocked(p.builders, 0, 0)
    ensures var r := SaveAll(p, s);
      && (!ReachesInsert(p, s) ==> r.err.Some? && !Wrote(s.trace, r.state.trace))
      && (Has(FailsLate, p.builders, 0, 0) ==> r.err.Some?)
      && (Has(CallsTwice, p.builders, 0, 0) && Refuses(p.db, s.inserts + 1) ==> r.err.Some?)
      && (!Has(FailsLate, p.builders, 0, 0) && !Has(CallsTwice, p.builders, 0, 0) ==>
            (r.err == None <==> Wrote(s.trace, r.state.trace)))
      && (ReachesInsert(p, s) && (forall specs :: p.db(s.inserts, specs).Inserted?) ==> Wrote(s.trace, r.state.trace))
  {
    SaveIsWalk(p, s);
    OpenIfReaches(p, s);
    var before, after := Batches(s.trace), Batches(SaveAll(p, s).state.trace);
    if ReachesInsert(p, s) {
      assert |before| < |after| && after[|before|].result == p.db(s.inserts, after[|before|].specs);
    }
  }

  /** The verdict of a save whose hooks all call on is honest for every database exactly if the way in ends at
      a check, or no hook fails late and none calls on twice whatever the first call said. A hook that calls
      again only after an error keeps it honest, and so does one that substitutes. */
  lemma CallingOnIsHonestIff(p: Plan, s: State)
    requires Covers(p, s) && |p.builders| > 0 && NoEdit(p.builders) && Distinct(p.builders)
    requires Unblocked(p.builders, 0, 0)
    ensures (forall db :: Honest(p, s, db)) <==>
      !ReachesInsert(p, s) || (!Has(FailsLate, p.builders, 0, 0) && !Has(CallsTwice, p.builders, 0, 0))
  {
    var dishonest := ReachesInsert(p, s) && (Has(FailsLate, p.builders, 0, 0) || Has(CallsTwice, p.builders, 0, 0));
    forall db
      ensures Honest(p, s, db) || dishonest
    {
      SameForEveryDatabase(p, s, db);
      CallingOnTells(p.(db := db), s);
    }
    var one := AcceptOne(s.inserts);
    SameForEveryDatabase(p, s, one);
    CallingOnTells(p.(db := one), s);
    assert dishonest ==> !Honest(p, s, one);
  }
}
