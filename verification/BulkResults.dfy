/** What a save returns: the nodes with the ids the insert answered, the slots the mutations point to, and the
    error. For hooks that call on at most once, whatever they do to mutations. */
module BulkResults {
  import opened Sequences
  import opened AccountEntity
  import opened BulkCreate
  import opened BulkSaving
  import opened BulkLaws
  import opened BulkOutcome
  import opened BulkReach
  import opened BulkWrites
  import opened BulkOnePass

  // -------------------------------------------------------------------- ids and slots

  /** The id answered for a slot, if any. */
  function Answered(ids: seq<Option<int>>, j: nat): Option<int> {
    if j < |ids| then ids[j] else None
  }

  /** The node of a slot: the fields written, and the id answered or else zero. */
  function NodeFor(ids: seq<Option<int>>, j: nat, fields: Settings): Node {
    Node(if Answered(ids, j).Some? then Answered(ids, j).value else 0, fields)
  }

  /** The first builder from `i` up to `end` that this mutation reaches. */
  function FirstReached(seen: seq<Seen>, i: nat, end: nat, m: AccountMutation): (r: Option<nat>)
    requires end <= |seen|
    ensures r.Some? ==> i <= r.value < end && seen[r.value].mutation == m
    ensures r.Some? ==> forall j :: i <= j < r.value ==> seen[j].mutation != m
    ensures r == None ==> forall j :: i <= j < end ==> seen[j].mutation != m
    decreases end - i
  {
    if i >= end then None
    else if seen[i].mutation == m then Some(i)
    else FirstReached(seen, i + 1, end, m)
  }

  /** A mutation that was reached is done and points to the first slot it was written to; another is as before. */
  predicate Points(seen: seq<Seen>, i: nat, end: nat, m: AccountMutation, before: Mut, after: Mut)
    requires end <= |seen|
  {
    match FirstReached(seen, i, end, m)
    case None => after.done == before.done && after.id == before.id
    case Some(j) => after.done && after.id == Some(j)
  }

  /** What a call that returned no error leaves: nodes for the builders from `i` up to `end`, numbered specs,
      and mutations that point to their slots. */
  ghost predicate Returned(seen: seq<Seen>, i: nat, end: nat, ids: seq<Option<int>>, s: State, r: State)
    requires end <= |seen|
  {
    && |r.specs| == |r.nodes| == |s.nodes| == |seen|
    && (forall j :: i <= j < end ==> r.nodes[j] == Some(NodeFor(ids, j, seen[j].written)))
    && (forall j :: 0 <= j < |seen| && !(i <= j < end) ==> r.nodes[j] == s.nodes[j])
    && (forall j :: 0 <= j < end ==> r.specs[j] == Some(CreateSpec(seen[j].written, Answered(ids, j))))
    && (forall m :: m in s.muts ==> m in r.muts && Points(seen, i, end, m, s.muts[m], r.muts[m]))
  }

  /** The ids answered, none if nothing was inserted. */
  function AnswerOf(stop: Stop, result: BatchResult): seq<Option<int>> {
    if stop.AtInsert? && result.Inserted? then result.ids else []
  }

  // --------------------------------------------------------------------------- errors

  /** The error of the step that ends the way in. */
  function StopError(builders: seq<AccountCreate>, env: Env, fs: seq<Settings>, stop: Stop, result: BatchResult):
      Option<CreateError>
  {
    match stop
    case AtHook(i, k) =>
      if i < |builders| && k < |builders[i].hooks| && builders[i].hooks[k].Reject?
      then Some(Rejected(builders[i].hooks[k].reason)) else None
    case AtCheck(i) => if i < |fs| then Check(env, fs[i]) else None
    case AtInsert => if result.NotInserted? then Some(BatchFailed(result.constraint)) else None
  }

  /** The failure of the innermost hook on the way in that fails afterwards. */
  function InnermostFailure(builders: seq<AccountCreate>, env: Env, fs: seq<Settings>, i: nat, k: nat):
      Option<CreateError>
    requires i < |builders| == |fs| && k <= |builders[i].hooks|
    decreases |builders| - i, |builders[i].hooks| - k
  {
    if k < |builders[i].hooks| then
      var h := builders[i].hooks[k];
      if Blocks(h) then None
      else
        OrElse(InnermostFailure(builders, env, fs, i, k + 1), if h.FailAfter? then Some(Rejected(h.failure)) else None)
    else if Check(env, fs[i]) == None && i < |builders| - 1 then InnermostFailure(builders, env, fs, i + 1, 0)
    else None
  }

  /** What a call comes to. */
  ghost predicate Comes(p: Plan, seen: seq<Seen>, i: nat, stop: Stop, late: Option<CreateError>, s: State, r: Outcome)
    requires StopIndex(stop, |p.builders|) <= |seen|
  {
    var result := p.db(s.inserts, SpecsOf(WrittenOf(seen)));
    && r.err == OrElse(StopError(p.builders, p.env, CheckedOf(seen), stop, result), late)
    && (r.err == None ==>
          Returned(seen, i, StopIndex(stop, |p.builders|), AnswerOf(stop, result), s, r.state))
  }

  // ------------------------------------------------------------------------- the chain

  lemma {:induction false} ChainReturns(p: Plan, s: State, i: nat, k: nat, m: AccountMutation, seen: seq<Seen>)
    requires i < |p.builders| == |seen| && k <= |p.builders[i].hooks| && OnceOnly(p.builders)
    requires Covers(p, s) && m in s.muts && BuiltBelow(s, i) && SlotsAre(s, WrittenOf(seen), i)
    requires EndsWith(seen, i, Foretold(p.builders, WayOf(p, s), i, k, m))
    ensures var cs := CheckedOf(seen);
      Comes(p, seen, i, FindStop(p.builders, p.env, cs, i, k), InnermostFailure(p.builders, p.env, cs, i, k), s,
            Run(p, s, i, k, m))
    decreases |p.builders| - i, |p.builders[i].hooks| - k, 1
  {
    if k < |p.builders[i].hooks| {
      HookReturns(p, s, i, k, m, seen);
    } else {
      MutatorReturns(p, s, i, m, seen);
    }
  }

  lemma BlockReturns(p: Plan, s: State, i: nat, k: nat, m: AccountMutation, seen: seq<Seen>)
    requires Covers(p, s) && m in s.muts && i < |p.builders| == |seen| && BuiltBelow(s, i)
    requires k < |p.builders[i].hooks| && Blocks(p.builders[i].hooks[k]) && SlotsAre(s, WrittenOf(seen), i)
    ensures Comes(p, seen, i, AtHook(i, k), None, s, Run(p, s, i, k, m))
  {
  }

  /** Around what a hook calls. */
  lemma AroundReturns(p: Plan, seen: seq<Seen>, i: nat, stop: Stop, late: Option<CreateError>, s: State, s0: State,
                      inner: Outcome, x: Event, extra: Option<CreateError>)
    requires StopIndex(stop, |p.builders|) <= |seen|
    requires s0.inserts == s.inserts && s0.nodes == s.nodes && s0.muts.Keys == s.muts.Keys
    requires forall o :: o in s.muts ==> s0.muts[o].done == s.muts[o].done && s0.muts[o].id == s.muts[o].id
    requires Comes(p, seen, i, stop, late, s0, inner)
    ensures Comes(p, seen, i, stop, OrElse(late, extra), s, Outcome(inner.state.Log(x), OrElse(inner.err, extra)))
  {
  }

  lemma {:induction false} HookReturns(p: Plan, s: State, i: nat, k: nat, m: AccountMutation, seen: seq<Seen>)
    requires i < |p.builders| == |seen| && k < |p.builders[i].hooks| && OnceOnly(p.builders)
    requires Covers(p, s) && m in s.muts && BuiltBelow(s, i) && SlotsAre(s, WrittenOf(seen), i)
    requires EndsWith(seen, i, Foretold(p.builders, WayOf(p, s), i, k, m))
    ensures var cs := CheckedOf(seen);
      Comes(p, seen, i, FindStop(p.builders, p.env, cs, i, k), InnermostFailure(p.builders, p.env, cs, i, k), s,
            Run(p, s, i, k, m))
    decreases |p.builders| - i, |p.builders[i].hooks| - k, 0
  {
    var h, cs := p.builders[i].hooks[k], CheckedOf(seen);
    if Blocks(h) {
      BlockReturns(p, s, i, k, m, seen);
    } else {
      var s0 := s.Log(Enter(i, k));
      WayLog(p, s, Enter(i, k));
      WayEdited(p, s0, m, h);
      RunHookOnce(p, s0, i, k, m);
      var s1, m' := Edited(s0, m, h), HandedOn(m, h);
      ChainReturns(p, s1, i, k + 1, m', seen);
      AroundReturns(p, seen, i, FindStop(p.builders, p.env, cs, i, k + 1),
                    InnermostFailure(p.builders, p.env, cs, i, k + 1), s, s1, Run(p, s1, i, k + 1, m'), Exit(i, k),
                    LateFailure(h));
    }
  }

  lemma {:induction false} MutatorReturns(p: Plan, s: State, i: nat, m: AccountMutation, seen: seq<Seen>)
    requires i < |p.builders| == |seen| && OnceOnly(p.builders)
    requires Covers(p, s) && m in s.muts && BuiltBelow(s, i) && SlotsAre(s, WrittenOf(seen), i)
    requires EndsWith(seen, i, Foretold(p.builders, WayOf(p, s), i, |p.builders[i].hooks|, m))
    ensures var cs, k := CheckedOf(seen), |p.builders[i].hooks|;
      Comes(p, seen, i, FindStop(p.builders, p.env, cs, i, k), InnermostFailure(p.builders, p.env, cs, i, k), s,
            RunMutator(p, s, i, m))
    decreases |p.builders| - i, 0, 0
  {
    var cs := CheckedOf(seen);
    ForetoldStep(p.builders, WayOf(p, s), i, m, seen);
    BeginPasses(p, s, i, m, seen);
    if Check(p.env, cs[i]) == None {
      var b := Begin(p, s, i, m).state;
      NextReturns(p, b, i, seen);
      MutatorEndsWith(p, s, b, i, m, seen);
    }
  }

  /** What remains once builder `i` has built. */
  ghost predicate NextComes(p: Plan, b: State, i: nat, seen: seq<Seen>, r: Outcome)
    requires i < |p.builders| == |seen|
  {
    var cs := CheckedOf(seen);
    if i + 1 < |p.builders| then
      Comes(p, seen, i + 1, FindStop(p.builders, p.env, cs, i + 1, 0),
            InnermostFailure(p.builders, p.env, cs, i + 1, 0), b, r)
    else Comes(p, seen, i + 1, AtInsert, None, b, r)
  }

  lemma {:induction false} NextReturns(p: Plan, b: State, i: nat, seen: seq<Seen>)
    requires i < |p.builders| == |seen| && OnceOnly(p.builders)
    requires Covers(p, b) && BuiltBelow(b, i + 1) && SlotsAre(b, WrittenOf(seen), i + 1)
    requires i + 1 < |p.builders| ==>
      EndsWith(seen, i + 1, Foretold(p.builders, WayOf(p, b), i + 1, 0, MutationOf(p, b, i + 1)))
    ensures NextComes(p, b, i, seen, RunNext(p, b, i))
    decreases |p.builders| - i - 1, 1 + (if i + 1 < |p.builders| then |p.builders[i+1].hooks| else 0), 2
  {
    if i + 1 < |p.builders| {
      ChainReturns(p, b, i + 1, 0, MutationOf(p, b, i + 1), seen);
    } else {
      InsertReturns(p, b, seen);
    }
  }

  lemma InsertReturns(p: Plan, b: State, seen: seq<Seen>)
    requires |p.builders| == |seen| && Covers(p, b) && BuiltBelow(b, |seen|) && SlotsAre(b, WrittenOf(seen), |seen|)
    ensures Comes(p, seen, |seen|, AtInsert, None, b, Insert(p, b))
  {
    assert AllSpecs(b) == SpecsOf(WrittenOf(seen));
  }

  lemma MutatorEndsWith(p: Plan, s: State, b: State, i: nat, m: AccountMutation, seen: seq<Seen>)
    requires i < |p.builders| == |seen| && Covers(p, s) && m in s.muts && BuiltBelow(s, i)
    requires Check(p.env, CheckedOf(seen)[i]) == None && Begin(p, s, i, m) == Outcome(b, None)
    requires seen[i].mutation == m && seen[i].written == s.muts[m].fields
    requires NextComes(p, b, i, seen, RunNext(p, b, i))
    ensures var cs, k := CheckedOf(seen), |p.builders[i].hooks|;
      Comes(p, seen, i, FindStop(p.builders, p.env, cs, i, k), InnermostFailure(p.builders, p.env, cs, i, k), s,
            RunMutator(p, s, i, m))
  {
    var cs, r := CheckedOf(seen), RunNext(p, b, i);
    StopStep(p.builders, p.env, cs, i);
    MutatorEnds(p, s, b, i, m, r);
    if r.err == None {
      MutatorFinishesWell(p, s, b, i, m, r);
      FinishReturns(seen, i, StopIndex(FindStop(p.builders, p.env, cs, i, |p.builders[i].hooks|), |p.builders|),
                    AnswerOf(FindStop(p.builders, p.env, cs, i, |p.builders[i].hooks|),
                             p.db(s.inserts, SpecsOf(WrittenOf(seen)))), s, b, r.state, m);
    }
  }

  /** A mutator's end: its node gets its id, and its mutation points to its slot. */
  lemma FinishReturns(seen: seq<Seen>, i: nat, end: nat, ids: seq<Option<int>>, s: State, b: State, r: State,
                      m: AccountMutation)
    requires i < end <= |seen| == |b.nodes| == |s.nodes| && m in r.muts && m in b.muts
    requires b.nodes == s.nodes[i := Some(Node(0, seen[i].written))] && b.muts == s.muts && seen[i].mutation == m
    requires Returned(seen, i + 1, end, ids, b, r)
    ensures r.nodes[i].Some? && r.specs[i].Some? && Returned(seen, i, end, ids, s, Finish(r, i, m))
  {
    var done := Finish(r, i, m);
    forall o | o in s.muts
      ensures o in done.muts && Points(seen, i, end, o, s.muts[o], done.muts[o])
    {
      assert Points(seen, i + 1, end, o, b.muts[o], r.muts[o]);
    }
  }

  // ----------------------------------------------------------------------------- saves

  lemma {:induction false} DefaultsKeepMarks(p: Plan, s: State, n: nat)
    requires n <= |p.builders| && Covers(p, s)
    ensures var r := Prepared(p, s, n);
      forall m :: m in s.muts ==> m in r.muts && r.muts[m].done == s.muts[m].done && r.muts[m].id == s.muts[m].id
  {
    if n > 0 {
      DefaultsKeepMarks(p, s, n - 1);
      PreparedByOne(p, s, n);
    }
  }

  /** What a save returns, from what is foretold of it: an error is that of the step that ends the way in or
      else of the innermost hook that fails late. Without an error there is a node for every builder before the
      end, with the fields written for it and the id answered for its slot, and each mutation that was reached
      is done and points to the first slot it was written to. */
  lemma SaveReturns(p: Plan, s: State)
    requires Covers(p, s) && |p.builders| > 0 && OnceOnly(p.builders)
    ensures Comes(p, SaveForetold(p, s), 0, SaveStop(p, s), InnermostFailure(p.builders, p.env, SaveChecks(p, s), 0, 0),
                  s, SaveAll(p, s))
  {
    var s0, seen := Prepared(p, s, |p.builders|), SaveForetold(p, s);
    assert s0.inserts == s.inserts && s0.nodes == s.nodes && s0.muts.Keys == s.muts.Keys;
    DefaultsKeepMarks(p, s, |p.builders|);
    ChainReturns(p, s0, 0, 0, MutationOf(p, s0, 0), seen);
    SameStart(p, seen, SaveStop(p, s), InnermostFailure(p.builders, p.env, SaveChecks(p, s), 0, 0), s, s0,
              SaveAll(p, s));
  }

  lemma SameStart(p: Plan, seen: seq<Seen>, stop: Stop, late: Option<CreateError>, s: State, s0: State, r: Outcome)
    requires StopIndex(stop, |p.builders|) <= |seen|
    requires s0.inserts == s.inserts && s0.nodes == s.nodes && s0.muts.Keys == s.muts.Keys
    requires forall o :: o in s.muts ==> s0.muts[o].done == s.muts[o].done && s0.muts[o].id == s.muts[o].id
    requires Comes(p, seen, 0, stop, late, s0, r)
    ensures Comes(p, seen, 0, stop, late, s, r)
  {
  }

  // --------------------------------------------------------------------- steady saves

  /** Every builder's mutation is done and points to the first slot that was built from it. */
  ghost predicate SlotsPointedTo(p: Plan, s: State, r: State)
    requires Covers(p, s)
  {
    forall j :: 0 <= j < |p.builders| ==>
      var m := MutationOf(p, s, j);
      && m in r.muts && r.muts[m].done && r.muts[m].id.Some?
      && r.muts[m].id.value <= j && MutationOf(p, s, r.muts[m].id.value) == m
  }

  /** One node per builder, in order: its settings, and the id the insert answered for it, if any. */
  predicate NodesNumbered(nodes: seq<Option<Node>>, fs: seq<Settings>, ids: seq<Option<int>>) {
    && |nodes| == |fs|
    && forall j :: 0 <= j < |fs| ==>
      && nodes[j].Some? && nodes[j].value.fields == fs[j]
      && nodes[j].value.ID == if j < |ids| && ids[j].Some? then ids[j].value else 0
  }

  lemma OwnMutations(p: Plan, s: State, j: nat)
    requires Covers(p, s) && |p.builders| > 0 && Steady(p.builders) && j < |p.builders|
    ensures SaveForetold(p, s)[j].mutation == MutationOf(p, s, j)
  {
    var s0 := Prepared(p, s, |p.builders|);
    assert p.builders[0] in p.builders && p.builders[j] in p.builders;
    SteadyForetold(p.builders, WayOf(p, s0), 0, 0, MutationOf(p, s0, 0));
    assert OwnSeen(p.builders, WayOf(p, s0), 0)[j] == OwnOf(p.builders, WayOf(p, s0), j);
  }

  /** What a save with steady hooks returns. Its error is that of the hook or the check it stops at, or of the
      insert, or else of the innermost hook that fails late. If there is none and the insert was reached, every
      builder gets its node, with its own settings and the id answered for it, and every mutation points to its
      slot. */
  lemma SteadySaveReturns(p: Plan, s: State)
    requires Covers(p, s) && |p.builders| > 0 && Steady(p.builders)
    ensures var fs, r := SavedSettings(p, s), SaveAll(p, s);
      var stop, result := FindStop(p.builders, p.env, fs, 0, 0), p.db(s.inserts, SpecsOf(fs));
      && r.err == OrElse(StopError(p.builders, p.env, fs, stop, result), InnermostFailure(p.builders, p.env, fs, 0, 0))
      && (r.err == None && stop.AtInsert? ==>
            && result.Inserted? && NodesNumbered(r.state.nodes, fs, result.ids) && SlotsPointedTo(p, s, r.state))
  {
    SteadyChecksAreSaved(p, s);
    SaveReturns(p, s);
    var fs, r, seen := SavedSettings(p, s), SaveAll(p, s), SaveForetold(p, s);
    if r.err == None && SaveStop(p, s).AtInsert? {
      var ids := p.db(s.inserts, SpecsOf(fs)).ids;
      NodesAreNumbered(seen, ids, s, r.state);
      forall j | 0 <= j < |p.builders|
        ensures seen[j].mutation == MutationOf(p, s, j) && MutationOf(p, s, j) in s.muts
      {
        OwnMutations(p, s, j);
        assert p.builders[j] in p.builders;
      }
      SlotsArePointedTo(p, s, seen, ids, r.state);
    }
  }

  lemma NodesAreNumbered(seen: seq<Seen>, ids: seq<Option<int>>, s: State, r: State)
    requires Returned(seen, 0, |seen|, ids, s, r)
    ensures NodesNumbered(r.nodes, WrittenOf(seen), ids)
  {
  }

  lemma SlotsArePointedTo(p: Plan, s: State, seen: seq<Seen>, ids: seq<Option<int>>, r: State)
    requires Covers(p, s) && |seen| == |p.builders| && Returned(seen, 0, |seen|, ids, s, r)
    requires forall j :: 0 <= j < |p.builders| ==>
      seen[j].mutation == MutationOf(p, s, j) && MutationOf(p, s, j) in s.muts
    ensures SlotsPointedTo(p, s, r)
  {
    forall j | 0 <= j < |p.builders|
      ensures Points(seen, 0, |seen|, MutationOf(p, s, j), s.muts[MutationOf(p, s, j)], r.muts[MutationOf(p, s, j)])
    {
    }
  }

  /** A save whose hooks pass on and whose checks succeed returns, if the insert works, one node per builder in
      order, each with its own settings and the id answered for its own row. */
  lemma PassingSaveReturns(p: Plan, s: State)
    requires Covers(p, s) && |p.builders| > 0 && PassOnly(p) && ChecksPass(p.env, SavedSettings(p, s), 0)
    ensures var fs, r := SavedSettings(p, s), SaveAll(p, s);
      match p.db(s.inserts, SpecsOf(fs))
      case Inserted(ids) => r.err == None && NodesNumbered(r.state.nodes, fs, ids) && SlotsPointedTo(p, s, r.state)
      case NotInserted(constraint) => r.err == Some(BatchFailed(constraint))
  {
    SaveIsBracketed(p, s);
    SteadySaveReturns(p, s);
    var fs := SavedSettings(p, s);
    assert FindStop(p.builders, p.env, fs, 0, 0) == AtInsert;
  }

  // ----------------------------------------------------------------------- on the heap

  lemma StartCovers(builders: seq<AccountCreate>, env: Env, db: (nat, seq<CreateSpec>) -> BatchResult)
    ensures Covers(Plan(builders, env, db), StartState(builders))
  {
  }

  /** The settings the checks will see and the insert is to write. */
  ghost function ToSave(builders: seq<AccountCreate>, env: Env, db: (nat, seq<CreateSpec>) -> BatchResult):
      (fs: seq<Settings>)
    reads builders, Mutations(builders)
    ensures |fs| == |builders|
  {
    StartCovers(builders, env, db);
    SavedSettings(Plan(builders, env, db), StartState(builders))
  }

  /** A save of steady builders: without an error, and if the insert was reached, the accounts returned have
      their own settings and the ids that the database answered, each its own. */
  method SaveSteadily(bulk: AccountCreateBulk, env: Env, db: (nat, seq<CreateSpec>) -> BatchResult)
    returns (nodes: seq<Option<Node>>, failure: Option<CreateError>)
    requires bulk.err == None && bulk.builders != [] && Steady(bulk.builders)
    modifies bulk.builders, Mutations(bulk.builders)
    ensures var fs := old(ToSave(bulk.builders, env, db));
      failure == None && FindStop(bulk.builders, env, fs, 0, 0) == AtInsert ==>
        db(0, SpecsOf(fs)).Inserted? && NodesNumbered(nodes, fs, db(0, SpecsOf(fs)).ids)
  {
    ghost var p, s := Plan(bulk.builders, env, db), StartState(bulk.builders);
    StartCovers(bulk.builders, env, db);
    SteadySaveReturns(p, s);
    var saved, failed, end := bulk.Save(env, db);
    nodes, failure := saved, failed;
  }
}
