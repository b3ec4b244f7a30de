/** Saves whose hooks call on at most once, whatever they do to mutations: what the checks see, what is
    written, which mutations end up done, and what the verdict says. */
module BulkOnePass {
  import opened Sequences
  import opened AccountEntity
  import opened BulkCreate
  import opened BulkLaws
  import opened BulkOutcome
  import opened BulkReach
  import opened BulkWrites

  ghost predicate OnceOnly(builders: seq<AccountCreate>) {
    forall i :: 0 <= i < |builders| ==> forall k :: 0 <= k < |builders[i].hooks| ==> Tries(builders[i].hooks[k]) == 0
  }

  // ------------------------------------------------------------------- foretelling

  /** The fields of all mutations and the mutation of every builder. */
  datatype Way = Way(fields: map<AccountMutation, Settings>, current: map<AccountCreate, AccountMutation>)

  ghost predicate WayFits(builders: seq<AccountCreate>, w: Way) {
    && (forall b :: b in builders ==> b in w.current && w.current[b] in w.fields)
    && Replacements(builders) <= w.fields.Keys
  }

  /** What a builder's check sees, what its slot is built from, and the mutation that reaches its mutator. */
  datatype Seen = Seen(checked: Settings, written: Settings, mutation: AccountMutation)

  function EditedFields(fields: map<AccountMutation, Settings>, m: AccountMutation, h: Hook):
      map<AccountMutation, Settings>
    requires m in fields
  {
    if h.Edit? then fields[m := fields[m][h.column := h.value]] else fields
  }

  /** What builders `i..` will see if nothing stops them before, from hook `k` called with `m` on: hooks edit
      and substitute, and each builder keeps the mutation that reached it. No check, no database, no error. */
  ghost function Foretold(builders: seq<AccountCreate>, w: Way, i: nat, k: nat, m: AccountMutation): (r: seq<Seen>)
    requires WayFits(builders, w) && i < |builders| && k <= |builders[i].hooks| && m in w.fields
    ensures |r| == |builders| - i
    decreases |builders| - i, |builders[i].hooks| - k
  {
    if k < |builders[i].hooks| then
      var h := builders[i].hooks[k];
      HandedOnFits(builders, w, i, k, m);
      Foretold(builders, w.(fields := EditedFields(w.fields, m, h)), i, k + 1, HandedOn(m, h))
    else
      assert builders[i] in builders;
      var seen := Seen(w.fields[w.current[builders[i]]], w.fields[m], m);
      if i == |builders| - 1 then [seen]
      else
        var w' := w.(current := w.current[builders[i] := m]);
        assert builders[i+1] in builders;
        [seen] + Foretold(builders, w', i + 1, 0, w'.current[builders[i+1]])
  }

  lemma HandedOnFits(builders: seq<AccountCreate>, w: Way, i: nat, k: nat, m: AccountMutation)
    requires WayFits(builders, w) && i < |builders| && k < |builders[i].hooks| && m in w.fields
    ensures HandedOn(m, builders[i].hooks[k]) in w.fields
  {
    if builders[i].hooks[k].Replace? {
      ReplacementIsCovered(builders, i, k);
    }
  }

  ghost function WayOf(p: Plan, s: State): (w: Way)
    requires Covers(p, s)
    ensures WayFits(p.builders, w) && w.fields.Keys == s.muts.Keys
  {
    Way(map m | m in s.muts :: s.muts[m].fields, s.current)
  }

  /** What a whole save will see. */
  ghost function SaveForetold(p: Plan, s: State): (r: seq<Seen>)
    requires Covers(p, s) && |p.builders| > 0
    ensures |r| == |p.builders|
  {
    var s0 := Prepared(p, s, |p.builders|);
    Foretold(p.builders, WayOf(p, s0), 0, 0, MutationOf(p, s0, 0))
  }

  function CheckedOf(seen: seq<Seen>): (fs: seq<Settings>)
    ensures |fs| == |seen|
  {
    seq(|seen|, j requires 0 <= j < |seen| => seen[j].checked)
  }

  function WrittenOf(seen: seq<Seen>): (fs: seq<Settings>)
    ensures |fs| == |seen|
  {
    seq(|seen|, j requires 0 <= j < |seen| => seen[j].written)
  }

  /** `seen` says of the builders from `i` on what `rest` says. */
  predicate EndsWith(seen: seq<Seen>, i: nat, rest: seq<Seen>) {
    |seen| == i + |rest| && forall j :: 0 <= j < |rest| ==> seen[i + j] == rest[j]
  }

  // ------------------------------------------------------------- mutations marked

  /** The builders whose mutations were marked done, in order. */
  function Marks(trace: seq<Event>): seq<nat> {
    if trace == [] then []
    else Marks(trace[..|trace| - 1]) + if trace[|trace| - 1].Done? then [trace[|trace| - 1].i] else []
  }

  lemma MarksLog(trace: seq<Event>, e: Event)
    ensures Marks(trace + [e]) == Marks(trace) + if e.Done? then [e.i] else []
  {
    assert (trace + [e])[..|trace|] == trace;
  }

  /** The indices below `hi` from the last down to `lo`. */
  function Countdown(lo: nat, hi: nat): seq<nat> {
    if lo >= hi then [] else [hi - 1] + Countdown(lo, hi - 1)
  }

  lemma {:induction false} CountdownEnds(lo: nat, hi: nat)
    requires lo < hi
    ensures Countdown(lo, hi) == Countdown(lo + 1, hi) + [lo]
  {
    if lo + 1 < hi {
      CountdownEnds(lo, hi - 1);
    }
  }

  /** The first builder whose mutation is marked when the innermost step returns no error: the one whose hooks
      hold the innermost late failure, or else the first. */
  function FirstMarked(builders: seq<AccountCreate>, env: Env, fs: seq<Settings>, i: nat, k: nat): (r: nat)
    requires i < |builders| == |fs| && k <= |builders[i].hooks|
    ensures i <= r <= |builders| && (!Soured(builders, env, fs, i, k) ==> r == i)
    decreases |builders| - i, |builders[i].hooks| - k
  {
    if k < |builders[i].hooks| then
      if Blocks(builders[i].hooks[k]) then i else FirstMarked(builders, env, fs, i, k + 1)
    else if Check(env, fs[i]) == None && i < |builders| - 1 && Soured(builders, env, fs, i + 1, 0) then
      FirstMarked(builders, env, fs, i + 1, 0)
    else i
  }

  // ------------------------------------------------------------------ one pass

  /** What a call comes to: at most one insert, an error, and the mutations marked. */
  ghost predicate Passed(p: Plan, s: State, stop: Stop, soured: bool, from: nat, specs: seq<CreateSpec>, r: Outcome) {
    PassedAs(p, Log(Batches(s.trace), Marks(s.trace)), s.inserts, stop, soured, from, specs,
             Log(Batches(r.state.trace), Marks(r.state.trace)), r.err)
  }

  /** The inserts in a trace and the mutations marked. */
  datatype Log = Log(batches: seq<Event>, marks: seq<nat>)

  ghost predicate PassedAs(p: Plan, before: Log, inserts: nat, stop: Stop, soured: bool, from: nat,
                           specs: seq<CreateSpec>, after: Log, err: Option<CreateError>) {
    var result := p.db(inserts, specs);
    && after.batches == before.batches + (if stop.AtInsert? then [Batch(specs, result)] else [])
    && (err == None <==> !soured && Benign(p.builders, stop, result))
    && after.marks == before.marks
       + (if Benign(p.builders, stop, result) then Countdown(from, StopIndex(stop, |p.builders|)) else [])
  }

  lemma LaterError(p: Plan, before: Log, inserts: nat, stop: Stop, soured: bool, from: nat, specs: seq<CreateSpec>,
                   after: Log, err: Option<CreateError>, extra: Option<CreateError>)
    requires PassedAs(p, before, inserts, stop, soured, from, specs, after, err)
    ensures PassedAs(p, before, inserts, stop, soured || extra.Some?, from, specs, after, OrElse(err, extra))
  {
  }

  ghost predicate SlotsAre(s: State, ws: seq<Settings>, i: nat) {
    i <= |s.specs| == |ws| && forall j :: 0 <= j < i ==> s.specs[j] == Some(NewSpec(ws[j]))
  }

  lemma TraceLog(s: State, e: Event)
    ensures Batches(s.Log(e).trace) == Batches(s.trace) + if e.Batch? then [e] else []
    ensures Marks(s.Log(e).trace) == Marks(s.trace) + if e.Done? then [e.i] else []
  {
    BatchesLog(s.trace, e);
    MarksLog(s.trace, e);
  }

  lemma WayLog(p: Plan, s: State, e: Event)
    requires Covers(p, s)
    ensures Covers(p, s.Log(e)) && WayOf(p, s.Log(e)) == WayOf(p, s)
  {
  }

  lemma WayEdited(p: Plan, s: State, m: AccountMutation, h: Hook)
    requires Covers(p, s) && m in s.muts
    ensures Covers(p, Edited(s, m, h))
    ensures WayOf(p, Edited(s, m, h)) == WayOf(p, s).(fields := EditedFields(WayOf(p, s).fields, m, h))
  {
    var a, b := WayOf(p, Edited(s, m, h)), WayOf(p, s).(fields := EditedFields(WayOf(p, s).fields, m, h));
    assert a.fields == b.fields;
  }

  lemma WayBuilt(p: Plan, s: State, i: nat, m: AccountMutation)
    requires Covers(p, s) && i < |p.builders| && m in s.muts
    ensures Covers(p, Build(p, s, i, m))
    ensures WayOf(p, Build(p, s, i, m)) == WayOf(p, s).(current := WayOf(p, s).current[p.builders[i] := m])
  {
  }

  /** The call of hook `k` of builder `i` is one pass. */
  lemma {:induction false} ChainPasses(p: Plan, s: State, i: nat, k: nat, m: AccountMutation, seen: seq<Seen>)
    requires i < |p.builders| == |seen| && k <= |p.builders[i].hooks| && OnceOnly(p.builders)
    requires Covers(p, s) && m in s.muts && BuiltBelow(s, i) && SlotsAre(s, WrittenOf(seen), i)
    requires EndsWith(seen, i, Foretold(p.builders, WayOf(p, s), i, k, m))
    ensures var cs := CheckedOf(seen);
      Passed(p, s, FindStop(p.builders, p.env, cs, i, k), Soured(p.builders, p.env, cs, i, k),
             FirstMarked(p.builders, p.env, cs, i, k), SpecsOf(WrittenOf(seen)), Run(p, s, i, k, m))
    decreases |p.builders| - i, |p.builders[i].hooks| - k, 1
  {
    if k < |p.builders[i].hooks| {
      HookPasses(p, s, i, k, m, seen);
    } else {
      MutatorPasses(p, s, i, m, seen);
    }
  }

  lemma BlockPasses(p: Plan, s: State, i: nat, k: nat, m: AccountMutation, fs: seq<Settings>, specs: seq<CreateSpec>)
    requires Covers(p, s) && m in s.muts && i < |p.builders| == |fs| && BuiltBelow(s, i)
    requires k < |p.builders[i].hooks| && Blocks(p.builders[i].hooks[k])
    ensures Passed(p, s, FindStop(p.builders, p.env, fs, i, k), Soured(p.builders, p.env, fs, i, k),
                   FirstMarked(p.builders, p.env, fs, i, k), specs, Run(p, s, i, k, m))
  {
    TraceLog(s, Enter(i, k));
    TraceLog(s.Log(Enter(i, k)), Exit(i, k));
  }

  /** Around what a hook calls: its entry and exit, and the error it may add. */
  lemma AroundPasses(p: Plan, s: State, e: Event, x: Event, s0: State, stop: Stop, soured: bool, from: nat,
                     specs: seq<CreateSpec>, inner: Outcome, extra: Option<CreateError>)
    requires !e.Batch? && !e.Done? && !x.Batch? && !x.Done?
    requires s0.trace == s.trace + [e] && s0.inserts == s.inserts
    requires Passed(p, s0, stop, soured, from, specs, inner)
    ensures Passed(p, s, stop, soured || extra.Some?, from, specs,
                   Outcome(inner.state.Log(x), OrElse(inner.err, extra)))
  {
    TraceLog(s, e);
    TraceLog(inner.state, x);
    assert s.Log(e).trace == s0.trace;
    LaterError(p, Log(Batches(s0.trace), Marks(s0.trace)), s0.inserts, stop, soured, from, specs,
               Log(Batches(inner.state.trace), Marks(inner.state.trace)), inner.err, extra);
  }

  lemma {:induction false} HookPasses(p: Plan, s: State, i: nat, k: nat, m: AccountMutation, seen: seq<Seen>)
    requires i < |p.builders| == |seen| && k < |p.builders[i].hooks| && OnceOnly(p.builders)
    requires Covers(p, s) && m in s.muts && BuiltBelow(s, i) && SlotsAre(s, WrittenOf(seen), i)
    requires EndsWith(seen, i, Foretold(p.builders, WayOf(p, s), i, k, m))
    ensures var cs := CheckedOf(seen);
      Passed(p, s, FindStop(p.builders, p.env, cs, i, k), Soured(p.builders, p.env, cs, i, k),
             FirstMarked(p.builders, p.env, cs, i, k), SpecsOf(WrittenOf(seen)), Run(p, s, i, k, m))
    decreases |p.builders| - i, |p.builders[i].hooks| - k, 0
  {
    var h, cs, specs := p.builders[i].hooks[k], CheckedOf(seen), SpecsOf(WrittenOf(seen));
    if Blocks(h) {
      BlockPasses(p, s, i, k, m, cs, specs);
    } else {
      var s0 := s.Log(Enter(i, k));
      WayLog(p, s, Enter(i, k));
      WayEdited(p, s0, m, h);
      RunHookOnce(p, s0, i, k, m);
      var s1, m' := Edited(s0, m, h), HandedOn(m, h);
      ChainPasses(p, s1, i, k + 1, m', seen);
      AroundPasses(p, s, Enter(i, k), Exit(i, k), s1, FindStop(p.builders, p.env, cs, i, k + 1),
                   Soured(p.builders, p.env, cs, i, k + 1), FirstMarked(p.builders, p.env, cs, i, k + 1), specs,
                   Run(p, s1, i, k + 1, m'), LateFailure(h));
    }
  }

  lemma {:induction false} MutatorPasses(p: Plan, s: State, i: nat, m: AccountMutation, seen: seq<Seen>)
    requires i < |p.builders| == |seen| && OnceOnly(p.builders)
    requires Covers(p, s) && m in s.muts && BuiltBelow(s, i) && SlotsAre(s, WrittenOf(seen), i)
    requires EndsWith(seen, i, Foretold(p.builders, WayOf(p, s), i, |p.builders[i].hooks|, m))
    ensures var cs, k := CheckedOf(seen), |p.builders[i].hooks|;
      Passed(p, s, FindStop(p.builders, p.env, cs, i, k), Soured(p.builders, p.env, cs, i, k),
             FirstMarked(p.builders, p.env, cs, i, k), SpecsOf(WrittenOf(seen)), RunMutator(p, s, i, m))
    decreases |p.builders| - i, 0, 0
  {
    var cs := CheckedOf(seen);
    ForetoldStep(p.builders, WayOf(p, s), i, m, seen);
    BeginPasses(p, s, i, m, seen);
    if Check(p.env, cs[i]) == None {
      var b := Begin(p, s, i, m).state;
      NextPasses(p, b, i, seen);
      MutatorFinishes(p, s, b, i, m, seen);
    }
  }

  /** What is foretold of a builder's own mutator, and of the builders after it. */
  lemma ForetoldStep(builders: seq<AccountCreate>, w: Way, i: nat, m: AccountMutation, seen: seq<Seen>)
    requires WayFits(builders, w) && i < |builders| == |seen| && m in w.fields
    requires EndsWith(seen, i, Foretold(builders, w, i, |builders[i].hooks|, m))
    ensures builders[i] in builders && seen[i] == Seen(w.fields[w.current[builders[i]]], w.fields[m], m)
    ensures var w' := w.(current := w.current[builders[i] := m]);
      && WayFits(builders, w')
      && (i + 1 < |builders| ==>
            && builders[i+1] in builders
            && EndsWith(seen, i + 1, Foretold(builders, w', i + 1, 0, w'.current[builders[i+1]])))
  {
    assert builders[i] in builders;
    var all := Foretold(builders, w, i, |builders[i].hooks|, m);
    assert seen[i + 0] == all[0];
    if i + 1 < |builders| {
      assert builders[i+1] in builders;
      var w' := w.(current := w.current[builders[i] := m]);
      var rest := Foretold(builders, w', i + 1, 0, w'.current[builders[i+1]]);
      forall j | 0 <= j < |rest|
        ensures seen[i + 1 + j] == rest[j]
      {
        assert all[j+1] == rest[j] && seen[i + (j + 1)] == all[j+1];
      }
    }
  }

  /** The check and the build of a pass. */
  lemma BeginPasses(p: Plan, s: State, i: nat, m: AccountMutation, seen: seq<Seen>)
    requires i < |p.builders| == |seen| && Covers(p, s) && m in s.muts && BuiltBelow(s, i)
    requires SlotsAre(s, WrittenOf(seen), i)
    requires p.builders[i] in p.builders
    requires seen[i] == Seen(s.muts[s.current[p.builders[i]]].fields, s.muts[m].fields, m)
    ensures var b, cs := Begin(p, s, i, m), CheckedOf(seen);
      && b.err == Check(p.env, cs[i]) && b.state.inserts == s.inserts
      && Batches(b.state.trace) == Batches(s.trace) && Marks(b.state.trace) == Marks(s.trace)
      && (b.err == None ==>
            && SlotsAre(b.state, WrittenOf(seen), i + 1)
            && WayOf(p, b.state) == WayOf(p, s).(current := WayOf(p, s).current[p.builders[i] := m]))
  {
    var cs := CheckedOf(seen);
    var checked := Checked(i, cs[i], Check(p.env, cs[i]).None?);
    var s0 := s.Log(checked);
    TraceLog(s, checked);
    WayLog(p, s, checked);
    TraceLog(s0, Built(i, NewSpec(s.muts[m].fields)));
    WayBuilt(p, s0, i, m);
  }

  /** What remains of a pass once builder `i` has built. */
  ghost predicate NextPassed(p: Plan, b: State, i: nat, seen: seq<Seen>, r: Outcome)
    requires i < |p.builders| == |seen|
  {
    var cs, specs := CheckedOf(seen), SpecsOf(WrittenOf(seen));
    if i + 1 < |p.builders| then
      Passed(p, b, FindStop(p.builders, p.env, cs, i + 1, 0), Soured(p.builders, p.env, cs, i + 1, 0),
             FirstMarked(p.builders, p.env, cs, i + 1, 0), specs, r)
    else Passed(p, b, AtInsert, false, |p.builders|, specs, r)
  }

  lemma {:induction false} NextPasses(p: Plan, b: State, i: nat, seen: seq<Seen>)
    requires i < |p.builders| == |seen| && OnceOnly(p.builders)
    requires Covers(p, b) && BuiltBelow(b, i + 1) && SlotsAre(b, WrittenOf(seen), i + 1)
    requires i + 1 < |p.builders| ==>
      EndsWith(seen, i + 1, Foretold(p.builders, WayOf(p, b), i + 1, 0, MutationOf(p, b, i + 1)))
    ensures NextPassed(p, b, i, seen, RunNext(p, b, i))
    decreases |p.builders| - i - 1, 1 + (if i + 1 < |p.builders| then |p.builders[i+1].hooks| else 0), 2
  {
    if i + 1 < |p.builders| {
      ChainPasses(p, b, i + 1, 0, MutationOf(p, b, i + 1), seen);
    } else {
      var specs := SpecsOf(WrittenOf(seen));
      assert AllSpecs(b) == specs;
      TraceLog(b, Batch(specs, p.db(b.inserts, specs)));
    }
  }

  /** How a mutator whose check passed ends: with what it called, and a mark if that returned no error. */
  lemma MutatorEnds(p: Plan, s: State, b: State, i: nat, m: AccountMutation, r: Outcome)
    requires i < |p.builders| && Covers(p, s) && m in s.muts && BuiltBelow(s, i)
    requires Begin(p, s, i, m) == Outcome(b, None) && r == RunNext(p, b, i)
    ensures var done := RunMutator(p, s, i, m);
      && done.err == r.err
      && done.state.trace == r.state.trace + if r.err == None then [Done(i)] else []
  {
    if r.err == None {
      MutatorFinishesWell(p, s, b, i, m, r);
    }
  }

  lemma MutatorFinishesWell(p: Plan, s: State, b: State, i: nat, m: AccountMutation, r: Outcome)
    requires i < |p.builders| && Covers(p, s) && m in s.muts && BuiltBelow(s, i)
    requires Begin(p, s, i, m) == Outcome(b, None) && r == RunNext(p, b, i) && r.err == None
    ensures RunMutator(p, s, i, m) == Outcome(Finish(r.state, i, m), None)
  {
  }

  /** Behind the last hook of a builder whose check passes the way in goes on to the next builder. */
  lemma StopStep(builders: seq<AccountCreate>, env: Env, fs: seq<Settings>, i: nat)
    requires i < |builders| == |fs| && Check(env, fs[i]) == None
    ensures var k := |builders[i].hooks|;
      if i + 1 < |builders| then
        && FindStop(builders, env, fs, i, k) == FindStop(builders, env, fs, i + 1, 0)
        && Soured(builders, env, fs, i, k) == Soured(builders, env, fs, i + 1, 0)
        && FirstMarked(builders, env, fs, i, k)
           == (if Soured(builders, env, fs, i + 1, 0) then FirstMarked(builders, env, fs, i + 1, 0) else i)
      else
        && FindStop(builders, env, fs, i, k) == AtInsert && !Soured(builders, env, fs, i, k)
        && FirstMarked(builders, env, fs, i, k) == i
    ensures i < StopIndex(FindStop(builders, env, fs, i, |builders[i].hooks|), |builders|)
  {
  }

  lemma MutatorFinishes(p: Plan, s: State, b: State, i: nat, m: AccountMutation, seen: seq<Seen>)
    requires i < |p.builders| == |seen| && Covers(p, s) && m in s.muts && BuiltBelow(s, i)
    requires Check(p.env, CheckedOf(seen)[i]) == None && Begin(p, s, i, m) == Outcome(b, None)
    requires Batches(b.trace) == Batches(s.trace) && Marks(b.trace) == Marks(s.trace) && b.inserts == s.inserts
    requires NextPassed(p, b, i, seen, RunNext(p, b, i))
    ensures var cs, k := CheckedOf(seen), |p.builders[i].hooks|;
      Passed(p, s, FindStop(p.builders, p.env, cs, i, k), Soured(p.builders, p.env, cs, i, k),
             FirstMarked(p.builders, p.env, cs, i, k), SpecsOf(WrittenOf(seen)), RunMutator(p, s, i, m))
  {
    var cs, specs := CheckedOf(seen), SpecsOf(WrittenOf(seen));
    MutatorEnds(p, s, b, i, m, RunNext(p, b, i));
    StopStep(p.builders, p.env, cs, i);
    NextFinishes(p, s, b, i, cs, specs, RunNext(p, b, i), RunMutator(p, s, i, m));
  }

  lemma NextFinishes(p: Plan, s: State, b: State, i: nat, fs: seq<Settings>, specs: seq<CreateSpec>, r: Outcome,
                     done: Outcome)
    requires i < |p.builders| == |fs| && Check(p.env, fs[i]) == None
    requires Batches(b.trace) == Batches(s.trace) && Marks(b.trace) == Marks(s.trace) && b.inserts == s.inserts
    requires done.err == r.err
    requires done.state.trace == r.state.trace + if r.err == None then [Done(i)] else []
    requires if i + 1 < |p.builders| then
        Passed(p, b, FindStop(p.builders, p.env, fs, i + 1, 0), Soured(p.builders, p.env, fs, i + 1, 0),
               FirstMarked(p.builders, p.env, fs, i + 1, 0), specs, r)
      else Passed(p, b, AtInsert, false, |p.builders|, specs, r)
    ensures var k := |p.builders[i].hooks|;
      Passed(p, s, FindStop(p.builders, p.env, fs, i, k), Soured(p.builders, p.env, fs, i, k),
             FirstMarked(p.builders, p.env, fs, i, k), specs, done)
  {
    StopStep(p.builders, p.env, fs, i);
    if i + 1 < |p.builders| {
      FinishPasses(p, s, b, i, FindStop(p.builders, p.env, fs, i + 1, 0), Soured(p.builders, p.env, fs, i + 1, 0),
                   FirstMarked(p.builders, p.env, fs, i + 1, 0), specs, r, done);
    } else {
      FinishPasses(p, s, b, i, AtInsert, false, |p.builders|, specs, r, done);
    }
  }

  /** A mutator marks its mutation if what it called returned no error. */
  lemma FinishPasses(p: Plan, s: State, b: State, i: nat, stop: Stop, soured: bool, from: nat, specs: seq<CreateSpec>,
                     r: Outcome, done: Outcome)
    requires Batches(b.trace) == Batches(s.trace) && Marks(b.trace) == Marks(s.trace) && b.inserts == s.inserts
    requires Passed(p, b, stop, soured, from, specs, r) && i < StopIndex(stop, |p.builders|)
    requires i < from && (!soured ==> from == i + 1)
    requires done.err == r.err
    requires done.state.trace == r.state.trace + if r.err == None then [Done(i)] else []
    ensures Passed(p, s, stop, soured, if soured then from else i, specs, done)
  {
    var end := StopIndex(stop, |p.builders|);
    TraceLog(r.state, Done(i));
    CountdownEnds(i, end);
    if r.err == None {
      assert Marks(s.trace) + Countdown(i + 1, end) + [i] == Marks(s.trace) + (Countdown(i + 1, end) + [i]);
    } else {
      assert done.state.trace == r.state.trace;
    }
  }

  // ---------------------------------------------------------------------- saves

  ghost function SaveChecks(p: Plan, s: State): (fs: seq<Settings>)
    requires Covers(p, s) && |p.builders| > 0
    ensures |fs| == |p.builders|
  {
    CheckedOf(SaveForetold(p, s))
  }

  ghost function SaveWrites(p: Plan, s: State): (fs: seq<Settings>)
    requires Covers(p, s) && |p.builders| > 0
    ensures |fs| == |p.builders|
  {
    WrittenOf(SaveForetold(p, s))
  }

  ghost function SaveStop(p: Plan, s: State): Stop
    requires Covers(p, s) && |p.builders| > 0
  {
    FindStop(p.builders, p.env, SaveChecks(p, s), 0, 0)
  }

  /** A save whose hooks call on at most once, from what is foretold of it: one insert of what is written if
      nothing stops the way in, an error unless the stop is benign and no hook fails late, and the mutations
      marked from the last builder that was reached up to the first one marked. */
  lemma SavePasses(p: Plan, s: State)
    requires Covers(p, s) && |p.builders| > 0 && OnceOnly(p.builders)
    ensures var cs := SaveChecks(p, s);
      Passed(p, s, SaveStop(p, s), Soured(p.builders, p.env, cs, 0, 0), FirstMarked(p.builders, p.env, cs, 0, 0),
             SpecsOf(SaveWrites(p, s)), SaveAll(p, s))
  {
    var s0 := Prepared(p, s, |p.builders|);
    assert s0.trace == s.trace && s0.inserts == s.inserts;
    ChainPasses(p, s0, 0, 0, MutationOf(p, s0, 0), SaveForetold(p, s));
  }

  /** What is foretold does not depend on the database. */
  lemma ForetoldForEveryDatabase(p: Plan, s: State, db: (nat, seq<CreateSpec>) -> BatchResult)
    requires Covers(p, s) && |p.builders| > 0
    ensures Covers(p.(db := db), s) && SaveForetold(p.(db := db), s) == SaveForetold(p, s)
  {
    var s0 := Prepared(p, s, |p.builders|);
    assert Prepared(p.(db := db), s, |p.builders|) == s0 && WayOf(p.(db := db), s0) == WayOf(p, s0);
  }

  /** Every insert of such a save writes what is foretold, and everything written passes the check exactly if
      nothing is written at all or what is foretold to be written passes. */
  lemma OnePassWritesCheckedIff(p: Plan, s: State)
    requires Covers(p, s) && |p.builders| > 0 && OnceOnly(p.builders)
    ensures |Sent(p, s)| == if SaveStop(p, s).AtInsert? then 1 else 0
    ensures forall e :: e in Sent(p, s) ==> BatchOf(e, SaveWrites(p, s))
    ensures AllChecked(p.env, Sent(p, s)) <==> !SaveStop(p, s).AtInsert? || AllPass(p.env, SaveWrites(p, s), 0)
  {
    SavePasses(p, s);
    AllCheckedIff(p.env, Sent(p, s), SaveWrites(p, s));
  }

  lemma WroteOne(p: Plan, s: State, stop: Stop, soured: bool, from: nat, specs: seq<CreateSpec>, r: Outcome)
    requires Passed(p, s, stop, soured, from, specs, r)
    ensures Wrote(s.trace, r.state.trace) <==> stop.AtInsert? && p.db(s.inserts, specs).Inserted?
  {
    var before, after := Batches(s.trace), Batches(r.state.trace);
    if stop.AtInsert? {
      assert after[|before|] == Batch(specs, p.db(s.inserts, specs));
    }
  }

  /** The verdict of such a save tells whether rows were inserted, whatever the database answers, exactly if
      the way in neither ends quietly in a skipping hook nor reaches the insert through a hook that fails
      late. */
  lemma OnePassIsHonestIff(p: Plan, s: State)
    requires Covers(p, s) && |p.builders| > 0 && OnceOnly(p.builders)
    ensures (forall db :: Honest(p, s, db)) <==>
      && !EndsQuietly(p.builders, p.env, SaveChecks(p, s))
      && !FailsAfterInsert(p.builders, p.env, SaveChecks(p, s))
  {
    var cs := SaveChecks(p, s);
    var lies := EndsQuietly(p.builders, p.env, cs) || FailsAfterInsert(p.builders, p.env, cs);
    forall db
      ensures Honest(p, s, db) || lies
    {
      OneVerdict(p, s, db);
    }
    OneVerdict(p, s, Accept());
    assert lies ==> !Honest(p, s, Accept());
  }

  lemma OneVerdict(p: Plan, s: State, db: (nat, seq<CreateSpec>) -> BatchResult)
    requires Covers(p, s) && |p.builders| > 0 && OnceOnly(p.builders)
    ensures var r, result := SaveAll(p.(db := db), s), db(s.inserts, SpecsOf(SaveWrites(p, s)));
      && (Wrote(s.trace, r.state.trace) <==> SaveStop(p, s).AtInsert? && result.Inserted?)
      && (r.err == None <==>
            !Soured(p.builders, p.env, SaveChecks(p, s), 0, 0) && Benign(p.builders, SaveStop(p, s), result))
  {
    var q := p.(db := db);
    ForetoldForEveryDatabase(p, s, db);
    SavePasses(q, s);
    var cs := SaveChecks(q, s);
    WroteOne(q, s, SaveStop(q, s), Soured(q.builders, q.env, cs, 0, 0), FirstMarked(q.builders, q.env, cs, 0, 0),
             SpecsOf(SaveWrites(q, s)), SaveAll(q, s));
  }

  // ----------------------------------------------------------- done means inserted

  /** With this database no mutation is marked done unless rows were inserted. */
  ghost predicate DoneMeansInserted(p: Plan, s: State, db: (nat, seq<CreateSpec>) -> BatchResult)
    requires Covers(p, s)
  {
    var r := SaveAll(p.(db := db), s);
    Marks(r.state.trace) != Marks(s.trace) ==> Wrote(s.trace, r.state.trace)
  }

  /** The way in ends in a skipping hook, and builders before it are left that finish. */
  ghost predicate SkipsPastBuilders(p: Plan, s: State)
    requires Covers(p, s) && |p.builders| > 0
  {
    var stop := SaveStop(p, s);
    && stop.AtHook? && p.builders[stop.i].hooks[stop.k].Skip?
    && FirstMarked(p.builders, p.env, SaveChecks(p, s), 0, 0) < stop.i
  }

  lemma {:induction false} CountdownIsNone(lo: nat, hi: nat)
    ensures Countdown(lo, hi) == [] <==> lo >= hi
  {
  }

  /** A mutation is marked done only if rows were inserted, whatever the database answers, exactly if no
      skipping hook ends the way in behind a builder whose mutator then finishes. */
  lemma DoneMeansInsertedIff(p: Plan, s: State)
    requires Covers(p, s) && |p.builders| > 0 && OnceOnly(p.builders)
    ensures (forall db :: DoneMeansInserted(p, s, db)) <==> !SkipsPastBuilders(p, s)
  {
    forall db
      ensures DoneMeansInserted(p, s, db) <==> !SkipsPastBuilders(p, s)
    {
      var q := p.(db := db);
      ForetoldForEveryDatabase(p, s, db);
      OneVerdict(p, s, db);
      SavePasses(q, s);
      CountdownIsNone(FirstMarked(q.builders, q.env, SaveChecks(q, s), 0, 0),
                      StopIndex(SaveStop(q, s), |q.builders|));
    }
    assert DoneMeansInserted(p, s, p.db) <==> !SkipsPastBuilders(p, s);
  }

  // ----------------------------------------------------------------- steady hooks

  ghost function OwnAt(builders: seq<AccountCreate>, w: Way, j: nat): Settings
    requires WayFits(builders, w) && j < |builders|
  {
    assert builders[j] in builders;
    w.fields[w.current[builders[j]]]
  }

  ghost function OwnOf(builders: seq<AccountCreate>, w: Way, j: nat): Seen
    requires WayFits(builders, w) && j < |builders|
  {
    assert builders[j] in builders;
    Seen(OwnAt(builders, w, j), OwnAt(builders, w, j), w.current[builders[j]])
  }

  ghost function OwnSeen(builders: seq<AccountCreate>, w: Way, i: nat): (r: seq<Seen>)
    requires WayFits(builders, w) && i <= |builders|
    ensures |r| == |builders| - i
  {
    seq(|builders| - i, t requires 0 <= t < |builders| - i => OwnOf(builders, w, i + t))
  }

  lemma {:induction false} SteadyForetold(builders: seq<AccountCreate>, w: Way, i: nat, k: nat, m: AccountMutation)
    requires WayFits(builders, w) && i < |builders| && k <= |builders[i].hooks| && Steady(builders)
    requires builders[i] in builders && m == w.current[builders[i]]
    ensures Foretold(builders, w, i, k, m) == OwnSeen(builders, w, i)
    decreases |builders| - i, |builders[i].hooks| - k
  {
    if k < |builders[i].hooks| {
      SteadyForetold(builders, w, i, k + 1, m);
      assert Foretold(builders, w, i, k, m) == Foretold(builders, w, i, k + 1, m);
    } else if i + 1 < |builders| {
      assert builders[i+1] in builders && w.current[builders[i] := m] == w.current;
      SteadyForetold(builders, w, i + 1, 0, w.current[builders[i+1]]);
      assert OwnSeen(builders, w, i) == [OwnOf(builders, w, i)] + OwnSeen(builders, w, i + 1);
    } else {
      assert OwnSeen(builders, w, i) == [OwnOf(builders, w, i)];
    }
  }

  /** With steady hooks the checks see and the insert writes the builders' own settings. */
  lemma SteadyChecksAreSaved(p: Plan, s: State)
    requires Covers(p, s) && |p.builders| > 0 && Steady(p.builders)
    ensures SaveChecks(p, s) == SavedSettings(p, s) && SaveWrites(p, s) == SavedSettings(p, s)
  {
    var s0 := Prepared(p, s, |p.builders|);
    SteadyForetold(p.builders, WayOf(p, s0), 0, 0, MutationOf(p, s0, 0));
    OwnSeenAreSettings(p, s0);
  }

  lemma OwnSeenAreSettings(p: Plan, s: State)
    requires Covers(p, s)
    ensures var seen := OwnSeen(p.builders, WayOf(p, s), 0);
      CheckedOf(seen) == AllSettings(p, s) && WrittenOf(seen) == AllSettings(p, s)
  {
    var seen, fs := OwnSeen(p.builders, WayOf(p, s), 0), AllSettings(p, s);
    forall j | 0 <= j < |fs|
      ensures seen[j].checked == fs[j] && seen[j].written == fs[j]
    {
      assert OwnAt(p.builders, WayOf(p, s), j) == fs[j];
    }
    assert CheckedOf(seen) == fs && WrittenOf(seen) == fs;
  }

  /** For steady hooks, even around builders listed more than once, the verdict can be told from the builders'
      settings after defaulting. */
  lemma SteadyVerdictIsHonestIff(p: Plan, s: State)
    requires Covers(p, s) && |p.builders| > 0 && Steady(p.builders)
    ensures (forall db :: Honest(p, s, db)) <==>
      && !EndsQuietly(p.builders, p.env, SavedSettings(p, s))
      && !FailsAfterInsert(p.builders, p.env, SavedSettings(p, s))
  {
    SteadyChecksAreSaved(p, s);
    OnePassIsHonestIff(p, s);
  }
}
