/** All or nothing: where a bulk save stops, what it has done by then, and when its verdict tells the truth. */
module BulkOutcome {
  import opened Sequences
  import opened AccountEntity
  import opened BulkCreate
  import opened BulkLaws

  /** The step that ends the way in: a hook that does not call on, a failed check, or the insert. */
  datatype Stop = AtHook(i: nat, k: nat) | AtCheck(i: nat) | AtInsert

  /** Hooks that hand on the mutation they got, unchanged, and at most once. */
  ghost predicate Steady(builders: seq<AccountCreate>) {
    forall i :: 0 <= i < |builders| ==> forall k :: 0 <= k < |builders[i].hooks| ==>
      !builders[i].hooks[k].Edit? && !builders[i].hooks[k].Replace? && !builders[i].hooks[k].Again?
  }

  function FindStop(builders: seq<AccountCreate>, env: Env, fs: seq<Settings>, i: nat, k: nat): (r: Stop)
    requires i < |builders| == |fs| && k <= |builders[i].hooks|
    ensures match r
      case AtHook(a, b) => i <= a < |builders| && b < |builders[a].hooks| && Blocks(builders[a].hooks[b])
      case AtCheck(a) => i <= a < |builders| && Check(env, fs[a]).Some?
      case AtInsert => true
    decreases |builders| - i, |builders[i].hooks| - k
  {
    if k < |builders[i].hooks| then
      if Blocks(builders[i].hooks[k]) then AtHook(i, k) else FindStop(builders, env, fs, i, k + 1)
    else if Check(env, fs[i]).Some? then AtCheck(i)
    else if i < |builders| - 1 then FindStop(builders, env, fs, i + 1, 0)
    else AtInsert
  }

  /** A hook that fails after the fact stands between this point and the stop. */
  predicate Soured(builders: seq<AccountCreate>, env: Env, fs: seq<Settings>, i: nat, k: nat)
    requires i < |builders| == |fs| && k <= |builders[i].hooks|
    decreases |builders| - i, |builders[i].hooks| - k
  {
    if k < |builders[i].hooks| then
      !Blocks(builders[i].hooks[k]) && (builders[i].hooks[k].FailAfter? || Soured(builders, env, fs, i, k + 1))
    else Check(env, fs[i]) == None && i < |builders| - 1 && Soured(builders, env, fs, i + 1, 0)
  }

  /** Builders below this index got their slot built. */
  function StopIndex(stop: Stop, n: nat): nat {
    match stop
    case AtHook(i, _) => i
    case AtCheck(i) => i
    case AtInsert => n
  }

  /** A stop that returns no error: a skipping hook, or an insert that worked. */
  predicate Benign(builders: seq<AccountCreate>, stop: Stop, result: BatchResult) {
    match stop
    case AtHook(i, k) => i < |builders| && k < |builders[i].hooks| && builders[i].hooks[k].Skip?
    case AtCheck(_) => false
    case AtInsert => result.Inserted?
  }

  /** The inserts in a trace. */
  function Batches(trace: seq<Event>): seq<Event> {
    if trace == [] then []
    else Batches(trace[..|trace| - 1]) + if trace[|trace| - 1].Batch? then [trace[|trace| - 1]] else []
  }

  lemma BatchesLog(trace: seq<Event>, e: Event)
    ensures Batches(trace + [e]) == Batches(trace) + if e.Batch? then [e] else []
  {
    assert (trace + [e])[..|trace|] == trace;
  }

  ghost predicate Marked(p: Plan, current: map<AccountCreate, AccountMutation>, muts: map<AccountMutation, Mut>,
                         i: nat, n: nat) {
    forall j :: i <= j < n && j < |p.builders| ==>
      p.builders[j] in current && current[p.builders[j]] in muts && muts[current[p.builders[j]]].done
  }

  /** What a call with steady hooks comes to. */
  ghost predicate Concludes(p: Plan, s: State, i: nat, stop: Stop, soured: bool, specs: seq<CreateSpec>, r: Outcome)
    requires Covers(p, s)
  {
    var result, end, fs := p.db(s.inserts, specs), StopIndex(stop, |p.builders|), AllSettings(p, s);
    && r.state.current == s.current && r.state.muts.Keys == s.muts.Keys
    && Batches(r.state.trace) == Batches(s.trace) + (if stop.AtInsert? then [Batch(specs, result)] else [])
    && (r.err == None <==> !soured && Benign(p.builders, stop, result))
    && (r.err.Some? && !soured ==> r.state.muts == s.muts)
    && (r.err == None ==> Marked(p, s.current, r.state.muts, i, end))
    && |r.state.specs| == |s.specs| == |fs|
    && (forall j :: 0 <= j < |fs| ==>
         SameSlot(r.state.specs[j], if i <= j < end then Some(NewSpec(fs[j])) else s.specs[j]))
  }

  /** Leaving a hook that called on; `extra` is the error it may add. */
  lemma HookConcludes(p: Plan, s: State, i: nat, k: nat, stop: Stop, soured: bool, specs: seq<CreateSpec>,
                      inner: Outcome, extra: Option<CreateError>)
    requires Covers(p, s) && Covers(p, s.Log(Enter(i, k)))
    requires Concludes(p, s.Log(Enter(i, k)), i, stop, soured, specs, inner)
    ensures Concludes(p, s, i, stop, soured || extra.Some?, specs,
                      Outcome(inner.state.Log(Exit(i, k)), OrElse(inner.err, extra)))
  {
    assert AllSettings(p, s.Log(Enter(i, k))) == AllSettings(p, s);
    BatchesLog(s.trace, Enter(i, k));
    BatchesLog(inner.state.trace, Exit(i, k));
  }

  lemma BlockConcludes(p: Plan, s: State, i: nat, k: nat, err: Option<CreateError>, specs: seq<CreateSpec>)
    requires Covers(p, s) && i < |p.builders| && k < |p.builders[i].hooks| && Blocks(p.builders[i].hooks[k])
    requires err == None <==> p.builders[i].hooks[k].Skip?
    ensures Concludes(p, s, i, AtHook(i, k), false, specs, Outcome(s.Log(Enter(i, k)).Log(Exit(i, k)), err))
  {
    BatchesLog(s.trace, Enter(i, k));
    BatchesLog(s.trace + [Enter(i, k)], Exit(i, k));
  }

  lemma {:induction false} SteadyChain(p: Plan, s: State, i: nat, k: nat)
    requires Covers(p, s) && i < |p.builders| && k <= |p.builders[i].hooks| && BuiltBelow(s, i) && Steady(p.builders)
    ensures p.builders[i] in p.builders
    ensures var fs := AllSettings(p, s);
      Concludes(p, s, i, FindStop(p.builders, p.env, fs, i, k), Soured(p.builders, p.env, fs, i, k),
                FinalSpecs(fs, s.specs, i), Run(p, s, i, k, s.current[p.builders[i]]))
    decreases |p.builders| - i, |p.builders[i].hooks| - k, 1
  {
    assert p.builders[i] in p.builders;
    if k < |p.builders[i].hooks| {
      var fs, specs, m := AllSettings(p, s), FinalSpecs(AllSettings(p, s), s.specs, i), s.current[p.builders[i]];
      var h := p.builders[i].hooks[k];
      if Blocks(h) {
        BlockConcludes(p, s, i, k, if h.Skip? then None else Some(Rejected(h.reason)), specs);
      } else {
        var s0 := s.Log(Enter(i, k));
        assert AllSettings(p, s0) == fs;
        SteadyChain(p, s0, i, k + 1);
        RunHookOnce(p, s0, i, k, m);
        HookConcludes(p, s, i, k, FindStop(p.builders, p.env, fs, i, k + 1), Soured(p.builders, p.env, fs, i, k + 1),
                      specs, Run(p, s0, i, k + 1, m), LateFailure(h));
      }
    } else {
      SteadyMutator(p, s, i);
    }
  }

  /** The end of a mutator whose check passed, given what the rest of the chain came to. */
  lemma MutatorConcludes(p: Plan, s: State, b: State, i: nat, stop: Stop, soured: bool, specs: seq<CreateSpec>,
                         r: Outcome)
    requires Covers(p, s) && Covers(p, b) && i < |p.builders| && p.builders[i] in p.builders
    requires b.muts == s.muts && b.current == s.current && b.inserts == s.inserts
    requires AllSettings(p, b) == AllSettings(p, s)
    requires b.specs == s.specs[i := Some(NewSpec(AllSettings(p, s)[i]))] && Batches(b.trace) == Batches(s.trace)
    requires i < StopIndex(stop, |p.builders|) || (stop.AtHook? && stop.i > i) || (stop.AtCheck? && stop.i > i)
    requires Concludes(p, b, i + 1, stop, soured, specs, r)
    requires i < |r.state.nodes| == |r.state.specs| && r.state.nodes[i].Some? && r.state.specs[i].Some?
    ensures Concludes(p, s, i, stop, soured, specs,
      if r.err.Some? then r else Outcome(Finish(r.state, i, s.current[p.builders[i]]), None))
  {
    BatchesLog(r.state.trace, Done(i));
  }

  lemma {:induction false} SteadyMutator(p: Plan, s: State, i: nat)
    requires Covers(p, s) && i < |p.builders| && BuiltBelow(s, i) && Steady(p.builders)
    requires p.builders[i] in p.builders
    ensures var fs := AllSettings(p, s); var k := |p.builders[i].hooks|;
      Concludes(p, s, i, FindStop(p.builders, p.env, fs, i, k), Soured(p.builders, p.env, fs, i, k),
                FinalSpecs(fs, s.specs, i), RunMutator(p, s, i, s.current[p.builders[i]]))
    decreases |p.builders| - i, 0, 0
  {
    var fs, m, k := AllSettings(p, s), s.current[p.builders[i]], |p.builders[i].hooks|;
    BatchesLog(s.trace, Checked(i, fs[i], Check(p.env, fs[i]) == None));
    if Check(p.env, fs[i]) == None {
      BeginKeeps(p, s, i);
      var b := Begin(p, s, i, m).state;
      assert AllSettings(p, b) == fs;
      FinalSpecsStep(fs, s.specs, i);
      BatchesBuilt(s.trace, i, fs[i]);
      var stop, soured := FindStop(p.builders, p.env, fs, i, k), Soured(p.builders, p.env, fs, i, k);
      var specs := FinalSpecs(fs, s.specs, i);
      SteadyNext(p, b, i, stop, soured, specs);
      MutatorConcludes(p, s, b, i, stop, soured, specs, RunNext(p, b, i));
    }
  }

  lemma BatchesBuilt(trace: seq<Event>, i: nat, f: Settings)
    ensures Batches(trace + [Checked(i, f, true), Built(i, NewSpec(f))]) == Batches(trace)
  {
    var c, b := Checked(i, f, true), Built(i, NewSpec(f));
    BatchesLog(trace, c);
    BatchesLog(trace + [c], b);
    assert trace + [c, b] == trace + [c] + [b];
  }

  lemma {:induction false} SteadyNext(p: Plan, b: State, i: nat, stop: Stop, soured: bool, specs: seq<CreateSpec>)
    requires Covers(p, b) && i < |p.builders| && BuiltBelow(b, i + 1) && Steady(p.builders)
    requires var fs := AllSettings(p, b);
      && specs == FinalSpecs(fs, b.specs, i + 1)
      && stop == (if i + 1 < |p.builders| then FindStop(p.builders, p.env, fs, i + 1, 0) else AtInsert)
      && soured == (i + 1 < |p.builders| && Soured(p.builders, p.env, fs, i + 1, 0))
    ensures Concludes(p, b, i + 1, stop, soured, specs, RunNext(p, b, i))
    decreases |p.builders| - i - 1, 1 + (if i + 1 < |p.builders| then |p.builders[i+1].hooks| else 0), 2
  {
    if i + 1 == |p.builders| {
      assert AllSpecs(b) == specs;
      BatchesLog(b.trace, Batch(specs, p.db(b.inserts, specs)));
    } else {
      SteadyChain(p, b, i + 1, 0);
    }
  }

  // ---------------------------------------------------------------- whole saves

  /** Builder `j` lets the chain through: no hook of it blocks and its check passes. */
  ghost predicate Clear(builders: seq<AccountCreate>, env: Env, fs: seq<Settings>, j: nat)
    requires j < |builders| == |fs|
  {
    ClearFrom(builders, env, fs, j, 0)
  }

  ghost predicate ClearFrom(builders: seq<AccountCreate>, env: Env, fs: seq<Settings>, j: nat, k: nat)
    requires j < |builders| == |fs|
  {
    (forall b :: k <= b < |builders[j].hooks| ==> !Blocks(builders[j].hooks[b])) && Check(env, fs[j]) == None
  }

  /** The chain stops at the first builder that does not let it through, and inserts when there is none. */
  lemma {:induction false} StopsAtFirstFailure(builders: seq<AccountCreate>, env: Env, fs: seq<Settings>, i: nat,
                                               k: nat)
    requires i < |builders| == |fs| && k <= |builders[i].hooks|
    ensures var n := StopIndex(FindStop(builders, env, fs, i, k), |builders|);
      && i <= n <= |builders|
      && (n > i ==> ClearFrom(builders, env, fs, i, k))
      && (n == i ==> !ClearFrom(builders, env, fs, i, k))
      && (forall j :: i < j < n ==> Clear(builders, env, fs, j))
      && (i < n < |builders| ==> !Clear(builders, env, fs, n))
      && (n == |builders| <==> FindStop(builders, env, fs, i, k) == AtInsert)
    decreases |builders| - i, |builders[i].hooks| - k
  {
    if k < |builders[i].hooks| {
      if !Blocks(builders[i].hooks[k]) {
        StopsAtFirstFailure(builders, env, fs, i, k + 1);
        assert ClearFrom(builders, env, fs, i, k) <==> ClearFrom(builders, env, fs, i, k + 1);
      }
    } else if Check(env, fs[i]) == None && i < |builders| - 1 {
      StopsAtFirstFailure(builders, env, fs, i + 1, 0);
    }
  }

  /** The settings the checks of a save will see: those of the builders after defaulting. */
  ghost function SavedSettings(p: Plan, s: State): seq<Settings>
    requires Covers(p, s)
  {
    AllSettings(p, Prepared(p, s, |p.builders|))
  }

  ghost function SpecsOf(fs: seq<Settings>): seq<CreateSpec> {
    seq(|fs|, j requires 0 <= j < |fs| => NewSpec(fs[j]))
  }

  /** Bracketing of a whole save whose hooks pass on and whose checks succeed: builder 0's hooks from the
      outside, its check, builder 1's hooks, ..., one insert of all specs in order, and every exit in exactly
      the opposite order, the mutations being marked done from the last to the first. */
  lemma SaveIsBracketed(p: Plan, s: State)
    requires Covers(p, s) && |p.builders| > 0 && PassOnly(p) && ChecksPass(p.env, SavedSettings(p, s), 0)
    ensures var fs := SavedSettings(p, s); var specs := SpecsOf(fs);
      && SaveAll(p, s).state.trace == s.trace + Around(Down(p.builders, fs, 0, 0), specs, p.db(s.inserts, specs))
      && (SaveAll(p, s).err == None <==> p.db(s.inserts, specs).Inserted?)
  {
    var s0 := Prepared(p, s, |p.builders|);
    PassingChainLands(p, s0, 0, 0);
    assert FinalSpecs(AllSettings(p, s0), s0.specs, 0) == SpecsOf(SavedSettings(p, s));
  }

  ghost predicate PassOrReject(builders: seq<AccountCreate>) {
    forall i :: 0 <= i < |builders| ==> forall k :: 0 <= k < |builders[i].hooks| ==>
      builders[i].hooks[k].Pass? || builders[i].hooks[k].Reject?
  }

  lemma {:induction false} NeverSoured(builders: seq<AccountCreate>, env: Env, fs: seq<Settings>, i: nat, k: nat)
    requires i < |builders| == |fs| && k <= |builders[i].hooks| && PassOrReject(builders)
    ensures !Soured(builders, env, fs, i, k)
    decreases |builders| - i, |builders[i].hooks| - k
  {
    if k < |builders[i].hooks| {
      NeverSoured(builders, env, fs, i, k + 1);
    } else if i < |builders| - 1 {
      NeverSoured(builders, env, fs, i + 1, 0);
    }
  }

  /** The first builder that is not clear, or their number. */
  ghost function FirstUnclear(builders: seq<AccountCreate>, env: Env, fs: seq<Settings>): (n: nat)
    requires 0 < |builders| == |fs|
    ensures n <= |builders|
    ensures forall j :: 0 <= j < n ==> Clear(builders, env, fs, j)
    ensures n < |builders| ==> !Clear(builders, env, fs, n)
    ensures n == |builders| <==> FindStop(builders, env, fs, 0, 0) == AtInsert
  {
    StopsAtFirstFailure(builders, env, fs, 0, 0);
    StopIndex(FindStop(builders, env, fs, 0, 0), |builders|)
  }

  lemma SaveConcludes(p: Plan, s: State)
    requires Covers(p, s) && |p.builders| > 0 && Steady(p.builders)
    ensures var fs := SavedSettings(p, s);
      Concludes(p, Prepared(p, s, |p.builders|), 0, FindStop(p.builders, p.env, fs, 0, 0),
                Soured(p.builders, p.env, fs, 0, 0), SpecsOf(fs), SaveAll(p, s))
  {
    var s0 := Prepared(p, s, |p.builders|);
    SteadyChain(p, s0, 0, 0);
    assert FinalSpecs(AllSettings(p, s0), s0.specs, 0) == SpecsOf(SavedSettings(p, s));
  }

  /** All or nothing, for hooks that pass on or reject. One insert of all specs in order happens exactly when
      every builder is clear. No error means it worked and every mutation is done; an error means no mutation
      was touched. Slots are built for exactly the builders before the first that is not clear. */
  lemma SaveIsAllOrNothing(p: Plan, s: State)
    requires Covers(p, s) && |p.builders| > 0 && PassOrReject(p.builders)
    ensures var fs, r, n := SavedSettings(p, s), SaveAll(p, s), |p.builders|;
      var specs, first := SpecsOf(fs), FirstUnclear(p.builders, p.env, fs);
      && Batches(r.state.trace)
        == Batches(s.trace) + (if first == n then [Batch(specs, p.db(s.inserts, specs))] else [])
      && (r.err == None <==> first == n && p.db(s.inserts, specs).Inserted?)
      && (r.err == None ==> Marked(p, s.current, r.state.muts, 0, n))
      && (r.err.Some? ==> r.state.muts == Prepared(p, s, n).muts)
      && |r.state.specs| == |s.specs| == n
      && (forall j :: 0 <= j < n ==> SameSlot(r.state.specs[j], if j < first then Some(NewSpec(fs[j])) else s.specs[j]))
  {
    SaveConcludes(p, s);
    NeverSoured(p.builders, p.env, SavedSettings(p, s), 0, 0);
  }

  /** Rows were inserted between two traces. */
  ghost predicate Wrote(before: seq<Event>, after: seq<Event>) {
    exists a :: |Batches(before)| <= a < |Batches(after)| && Batches(after)[a].Batch?
      && Batches(after)[a].result.Inserted?
  }

  /** With this database the verdict of the save tells whether rows were inserted. */
  ghost predicate Honest(p: Plan, s: State, db: (nat, seq<CreateSpec>) -> BatchResult)
    requires Covers(p, s)
  {
    var r := SaveAll(p.(db := db), s);
    r.err == None <==> Wrote(s.trace, r.state.trace)
  }

  /** The way in ends in a skipping hook, and no hook outside it turns that into an error. */
  predicate EndsQuietly(builders: seq<AccountCreate>, env: Env, fs: seq<Settings>)
    requires 0 < |builders| == |fs|
  {
    var stop := FindStop(builders, env, fs, 0, 0);
    stop.AtHook? && builders[stop.i].hooks[stop.k].Skip? && !Soured(builders, env, fs, 0, 0)
  }

  /** The way in reaches the insert through a hook that fails afterwards whatever came of it. */
  predicate FailsAfterInsert(builders: seq<AccountCreate>, env: Env, fs: seq<Settings>)
    requires 0 < |builders| == |fs|
  {
    FindStop(builders, env, fs, 0, 0).AtInsert? && Soured(builders, env, fs, 0, 0)
  }

  function Accept(): (nat, seq<CreateSpec>) -> BatchResult {
    (n: nat, specs: seq<CreateSpec>) => Inserted([])
  }

  /** The verdict of a save with one database. */
  lemma VerdictWith(p: Plan, s: State, db: (nat, seq<CreateSpec>) -> BatchResult)
    requires Covers(p, s) && |p.builders| > 0 && Steady(p.builders)
    ensures var fs, r := SavedSettings(p, s), SaveAll(p.(db := db), s);
      var stop := FindStop(p.builders, p.env, fs, 0, 0);
      && (Wrote(s.trace, r.state.trace) <==> stop.AtInsert? && db(s.inserts, SpecsOf(fs)).Inserted?)
      && (r.err == None <==>
            !Soured(p.builders, p.env, fs, 0, 0) && Benign(p.builders, stop, db(s.inserts, SpecsOf(fs))))
  {
    var q := p.(db := db);
    assert Prepared(q, s, |q.builders|) == Prepared(p, s, |p.builders|);
    assert SavedSettings(q, s) == SavedSettings(p, s);
    SaveConcludes(q, s);
    var before, after := Batches(s.trace), Batches(SaveAll(q, s).state.trace);
    if FindStop(p.builders, p.env, SavedSettings(p, s), 0, 0).AtInsert? {
      assert after == before + [Batch(SpecsOf(SavedSettings(p, s)), db(s.inserts, SpecsOf(SavedSettings(p, s))))];
      assert after[|before|].Batch?;
    }
  }

  // ------------------------------------------------------- dropped default errors

  lemma StarvedStep(env: Env, s: State, one: AccountMutation, m: AccountMutation)
    requires one in s.muts && m in s.muts && Starved(env, s.muts[m].fields)
    ensures m in DefaultOne(env, s, one).muts && Starved(env, DefaultOne(env, s, one).muts[m].fields)
  {
    DefaultsAre(env, s.muts[m].fields);
  }

  /** Defaulting other builders, or the same mutation again, never feeds a starved one. */
  lemma StarvedStays(p: Plan, s: State, a: nat, n: nat, m: AccountMutation)
    requires Covers(p, s) && a <= n <= |p.builders| && m in s.muts
    requires Starved(p.env, Prepared(p, s, a).muts[m].fields)
    ensures Starved(p.env, Prepared(p, s, n).muts[m].fields)
  {
    var starved := StarvedUpTo(p, s, n, m);
    forall k | 0 < k <= n && starved[k-1]
      ensures starved[k]
    {
      NextStarves(p, s, n, m, k);
    }
    StaysTrue(starved, a, n);
  }

  /** After how many defaults the mutation is starved. */
  ghost function StarvedUpTo(p: Plan, s: State, n: nat, m: AccountMutation): (r: seq<bool>)
    requires Covers(p, s) && n <= |p.builders| && m in s.muts
    ensures |r| == n + 1
  {
    seq(n + 1, k requires 0 <= k <= n => Starved(p.env, Prepared(p, s, k).muts[m].fields))
  }

  lemma NextStarves(p: Plan, s: State, n: nat, m: AccountMutation, k: nat)
    requires Covers(p, s) && 0 < k <= n <= |p.builders| && m in s.muts && StarvedUpTo(p, s, n, m)[k-1]
    ensures StarvedUpTo(p, s, n, m)[k]
  {
    StarvedByOne(p, s, k, m);
  }

  lemma {:induction false} StaysTrue(bs: seq<bool>, a: nat, n: nat)
    requires a <= n < |bs| && bs[a] && forall k :: 0 < k <= n && bs[k-1] ==> bs[k]
    ensures bs[n]
    decreases n
  {
    if a < n {
      StaysTrue(bs, a, n - 1);
      assert bs[n-1];
    }
  }

  lemma StarvedByOne(p: Plan, s: State, n: nat, m: AccountMutation)
    requires Covers(p, s) && 0 < n <= |p.builders| && m in s.muts
    requires Starved(p.env, Prepared(p, s, n - 1).muts[m].fields)
    ensures Starved(p.env, Prepared(p, s, n).muts[m].fields)
  {
    PreparedByOne(p, s, n);
    var before := Prepared(p, s, n - 1);
    StarvedStep(p.env, before, before.current[p.builders[n-1]], m);
  }

  lemma PreparedByOne(p: Plan, s: State, n: nat)
    requires Covers(p, s) && 0 < n <= |p.builders|
    ensures var before := Prepared(p, s, n - 1);
      && p.builders[n-1] in before.current && before.current[p.builders[n-1]] in before.muts
      && Prepared(p, s, n) == DefaultOne(p.env, before, before.current[p.builders[n-1]])
  {
    assert p.builders[n-1] in p.builders;
  }

  /** A builder whose defaulting failed does not let the chain through: its check will fail. */
  lemma FailedDefaultIsUnclear(p: Plan, s: State, j: nat)
    requires Covers(p, s) && j < |p.builders|
    requires p.builders[j] in s.current && s.current[p.builders[j]] in s.muts
    requires Defaults(p.env, Prepared(p, s, j).muts[s.current[p.builders[j]]].fields).err.Some?
    ensures !Clear(p.builders, p.env, SavedSettings(p, s), j)
    ensures FindStop(p.builders, p.env, SavedSettings(p, s), 0, 0) != AtInsert
  {
    var m, n := s.current[p.builders[j]], |p.builders|;
    DefaultsAre(p.env, Prepared(p, s, j).muts[m].fields);
    StarvedStays(p, s, j, n, m);
    assert SavedSettings(p, s)[j] == Prepared(p, s, n).muts[m].fields;
    StarvedFailsCheck(p.env, SavedSettings(p, s)[j]);
    StopsAtFirstFailure(p.builders, p.env, SavedSettings(p, s), 0, 0);
  }

  /** Dropping the errors of the defaults is sound for a whole save of steady hooks, even of builders listed
      more than once: if they failed for any builder, nothing is inserted. */
  lemma DroppedErrorStopsASteadySave(p: Plan, s: State, j: nat)
    requires Covers(p, s) && Steady(p.builders) && j < |p.builders|
    requires p.builders[j] in s.current && s.current[p.builders[j]] in s.muts
    requires Defaults(p.env, Prepared(p, s, j).muts[s.current[p.builders[j]]].fields).err.Some?
    ensures Batches(SaveAll(p, s).state.trace) == Batches(s.trace)
  {
    FailedDefaultIsUnclear(p, s, j);
    SaveConcludes(p, s);
  }
}
