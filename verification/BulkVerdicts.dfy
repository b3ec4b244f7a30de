/** When the verdict of a save tells whether rows were inserted: chains that a hook blocks, and then all chains
    whose hooks edit nothing. */
module BulkVerdicts {
  import opened Sequences
  import opened AccountEntity
  import opened BulkCreate
  import opened BulkLaws
  import opened BulkOutcome
  import opened BulkReach
  import opened BulkWrites

  // ------------------------------------------------------------- a blocked way in

  /** Settings `fs` pass the checks from here to the first hook that does not call on. */
  predicate Through(builders: seq<AccountCreate>, env: Env, fs: seq<Settings>, i: nat, k: nat)
    requires i < |builders| == |fs| && k <= |builders[i].hooks|
    decreases |builders| - i, |builders[i].hooks| - k
  {
    if k < |builders[i].hooks| then Blocks(builders[i].hooks[k]) || Through(builders, env, fs, i, k + 1)
    else Check(env, fs[i]) == None && (i == |builders| - 1 || Through(builders, env, fs, i + 1, 0))
  }

  /** The first hook that does not call on skips, none before it fails late, and behind each that always calls
      again the settings `ws`, which its first call left, pass the checks up to there. */
  predicate Hushed(builders: seq<AccountCreate>, env: Env, ws: seq<Settings>, i: nat, k: nat)
    requires i < |builders| == |ws| && k <= |builders[i].hooks|
    decreases |builders| - i, |builders[i].hooks| - k
  {
    if k < |builders[i].hooks| then
      var h := builders[i].hooks[k];
      if Blocks(h) then h.Skip?
      else
        && !FailsLate(h) && (CallsTwice(h) ==> Through(builders, env, ws, i, k + 1))
        && Hushed(builders, env, ws, i, k + 1)
    else i < |builders| - 1 && Hushed(builders, env, ws, i + 1, 0)
  }

  lemma {:induction false} ThroughTail(builders: seq<AccountCreate>, env: Env, a: seq<Settings>, b: seq<Settings>,
                                       i: nat, k: nat)
    requires i < |builders| == |a| == |b| && k <= |builders[i].hooks| && forall j :: i <= j < |a| ==> a[j] == b[j]
    ensures Through(builders, env, a, i, k) <==> Through(builders, env, b, i, k)
    decreases |builders| - i, |builders[i].hooks| - k
  {
    if k < |builders[i].hooks| {
      ThroughTail(builders, env, a, b, i, k + 1);
    } else if i < |builders| - 1 {
      ThroughTail(builders, env, a, b, i + 1, 0);
    }
  }

  // ------------------------------------------------------------------ one walk

  /** What the checks see at a front. */
  ghost function OwnSettings(builders: seq<AccountCreate>, f: Front): (fs: seq<Settings>)
    requires FrontFits(builders, f)
    ensures |fs| == |builders|
  {
    seq(|builders|, j requires 0 <= j < |builders| => f.fields[f.own[j]])
  }

  /** The checks at front `f` let a call through to the hook that blocks. */
  ghost predicate Lets(builders: seq<AccountCreate>, env: Env, f: Front, i: nat, k: nat)
    requires FrontFits(builders, f) && i < |builders| && k <= |builders[i].hooks|
  {
    Through(builders, env, OwnSettings(builders, f), i, k)
  }

  /** What a call that cannot reach the insert comes to: `lets` and `lets'` are whether the checks before and
      after it let calls through, `passes` whether what it leaves would be let through. */
  predicate Quiets(lets: bool, passes: bool, hushed: bool, lets': bool, err: Option<CreateError>) {
    && (err == None <==> lets && hushed)
    && (lets' <==> lets && passes)
  }

  ghost predicate Quiet(p: Plan, f: Front, i: nat, k: nat, m: AccountMutation, f': Front, err: Option<CreateError>)
    requires FrontFits(p.builders, f) && i < |p.builders| && k <= |p.builders[i].hooks| && m in f.fields
    requires BuiltTo(f, i) && FrontFits(p.builders, f')
  {
    var ws := Targets(p.builders, f, i, k, m);
    Quiets(Lets(p.builders, p.env, f, i, k), Through(p.builders, p.env, ws, i, k), Hushed(p.builders, p.env, ws, i, k),
           Lets(p.builders, p.env, f', i, k), err)
  }

  /** A hook that calls on once. */
  lemma HookQuiet(p: Plan, f: Front, i: nat, k: nat, m: AccountMutation, f': Front, err: Option<CreateError>)
    requires FrontFits(p.builders, f) && i < |p.builders| && k < |p.builders[i].hooks| && m in f.fields && BuiltTo(f, i)
    requires HandedOn(m, p.builders[i].hooks[k]) in f.fields && !Blocks(p.builders[i].hooks[k])
    requires FrontFits(p.builders, f') && Quiet(p, f, i, k + 1, HandedOn(m, p.builders[i].hooks[k]), f', err)
    requires Tries(p.builders[i].hooks[k]) == 0
    ensures Quiet(p, f, i, k, m, f', OrElse(err, LateFailure(p.builders[i].hooks[k])))
  {
    EndThroughHook(p.builders, f, i, k, m);
  }

  /** A call and all that follow it, on what they let through. */
  predicate QuietTries(lets: bool, passes: bool, hushed: bool, ls: seq<bool>, es: seq<Option<CreateError>>) {
    && 0 < |ls| == |es| && Quiets(lets, passes, hushed, ls[0], es[0])
    && forall t :: 0 < t < |ls| ==> Quiets(ls[t-1], passes, hushed, ls[t], es[t])
  }

  /** The second call and all later ones are let through exactly if the first one was and left settings that
      pass. */
  lemma {:induction false} LaterTries(lets: bool, passes: bool, hushed: bool, ls: seq<bool>,
                                      es: seq<Option<CreateError>>, t: nat)
    requires QuietTries(lets, passes, hushed, ls, es) && t < |ls|
    ensures ls[t] <==> lets && passes
    ensures es[t] == None <==> lets && hushed && (t > 0 ==> passes)
  {
    if t > 0 {
      LaterTries(lets, passes, hushed, ls, es, t - 1);
      assert Quiets(ls[t-1], passes, hushed, ls[t], es[t]);
    }
  }

  /** The last call of a hook that can call again. */
  lemma LastTryQuiet(h: Hook, lets: bool, passes: bool, hushed: bool, ls: seq<bool>, es: seq<Option<CreateError>>)
    requires h.Again? && Tries(h) > 0 && QuietTries(lets, passes, hushed, ls, es) && |ls| <= Tries(h) + 1
    requires forall t :: 0 <= t < |ls| - 1 ==> CallsAgain(h, es[t])
    requires |ls| == Tries(h) + 1 || !CallsAgain(h, es[|ls| - 1])
    ensures Quiets(lets, passes, (CallsTwice(h) ==> passes) && hushed, ls[|ls| - 1], es[|ls| - 1])
  {
    var last := |ls| - 1;
    LaterTries(lets, passes, hushed, ls, es, last);
    LaterTries(lets, passes, hushed, ls, es, 0);
    if last > 0 && !h.always {
      assert CallsAgain(h, es[0]);
    }
  }

  ghost predicate TriesAllFit(p: Plan, i: nat, m: AccountMutation, ts: seq<Try>) {
    forall t :: 0 <= t < |ts| ==>
      FrontFits(p.builders, ts[t].front) && m in ts[t].front.fields && BuiltTo(ts[t].front, i)
  }

  ghost function LetsOf(p: Plan, i: nat, k: nat, m: AccountMutation, ts: seq<Try>): (ls: seq<bool>)
    requires i < |p.builders| && k <= |p.builders[i].hooks| && TriesAllFit(p, i, m, ts)
    ensures |ls| == |ts|
  {
    seq(|ts|, t requires 0 <= t < |ts| => Lets(p.builders, p.env, ts[t].front, i, k))
  }

  function ErrsOf(ts: seq<Try>): (es: seq<Option<CreateError>>)
    ensures |es| == |ts|
  {
    seq(|ts|, t requires 0 <= t < |ts| => ts[t].err)
  }

  lemma RetriesAreQuiet(p: Plan, f: Front, i: nat, k: nat, m: AccountMutation, ts: seq<Try>)
    requires FrontFits(p.builders, f) && i < |p.builders| && k < |p.builders[i].hooks| && m in f.fields && BuiltTo(f, i)
    requires 0 < |ts| <= Tries(p.builders[i].hooks[k]) + 1 && TriesAllFit(p, i, m, ts)
    requires forall t :: 0 <= t < |ts| ==>
      Targets(p.builders, ts[t].front, i, k + 1, m) == Targets(p.builders, f, i, k + 1, m)
    requires Quiet(p, f, i, k + 1, m, ts[0].front, ts[0].err) && QuietRetries(p, i, k, m, ts)
    ensures var ws := Targets(p.builders, f, i, k + 1, m);
      QuietTries(Lets(p.builders, p.env, f, i, k + 1), Through(p.builders, p.env, ws, i, k + 1),
                 Hushed(p.builders, p.env, ws, i, k + 1), LetsOf(p, i, k + 1, m, ts), ErrsOf(ts))
  {
    var ls, es, ws := LetsOf(p, i, k + 1, m, ts), ErrsOf(ts), Targets(p.builders, f, i, k + 1, m);
    forall t | 0 < t < |ls|
      ensures Quiets(ls[t-1], Through(p.builders, p.env, ws, i, k + 1), Hushed(p.builders, p.env, ws, i, k + 1),
                     ls[t], es[t])
    {
      assert QuietRetry(p, i, k, m, ts[t-1], ts[t]);
    }
  }

  /** A hook that can call again. */
  lemma AgainQuiet(p: Plan, f: Front, i: nat, k: nat, m: AccountMutation, ts: seq<Try>)
    requires FrontFits(p.builders, f) && i < |p.builders| && k < |p.builders[i].hooks| && m in f.fields && BuiltTo(f, i)
    requires var h := p.builders[i].hooks[k];
      && Tries(h) > 0 && 0 < |ts| <= Tries(h) + 1
      && (|ts| == Tries(h) + 1 || !CallsAgain(h, ts[|ts| - 1].err))
    requires FrontFits(p.builders, ts[0].front) && Tried(p, f, i, k, m, 0, ts[0].front, ts[0].err)
    requires Quiet(p, f, i, k + 1, m, ts[0].front, ts[0].err)
    requires Retries(p, i, k, m, ts) && QuietRetries(p, i, k, m, ts)
    ensures FrontFits(p.builders, ts[|ts| - 1].front) && Quiet(p, f, i, k, m, ts[|ts| - 1].front, ts[|ts| - 1].err)
  {
    var builders, env, h := p.builders, p.env, p.builders[i].hooks[k];
    TriesFit(p, f, i, k, m, ts);
    RetriesAreQuiet(p, f, i, k, m, ts);
    RetriesCallAgain(p, i, k, m, ts);
    var ws := Targets(builders, f, i, k + 1, m);
    LastTryQuiet(h, Lets(builders, env, f, i, k + 1), Through(builders, env, ws, i, k + 1),
                 Hushed(builders, env, ws, i, k + 1), LetsOf(p, i, k + 1, m, ts), ErrsOf(ts));
    HookAround(p, f, i, k, m, ts[|ts| - 1]);
  }

  lemma RetriesCallAgain(p: Plan, i: nat, k: nat, m: AccountMutation, ts: seq<Try>)
    requires i < |p.builders| && k < |p.builders[i].hooks| && Retries(p, i, k, m, ts)
    ensures forall t :: 0 <= t < |ts| - 1 ==> CallsAgain(p.builders[i].hooks[k], ErrsOf(ts)[t])
  {
    forall t | 0 <= t < |ts| - 1
      ensures CallsAgain(p.builders[i].hooks[k], ErrsOf(ts)[t])
    {
      assert NextTry(p, i, k, m, ts[t], ts[t+1]);
    }
  }

  /** From inside a hook that can call again to around it. */
  lemma HookAround(p: Plan, f: Front, i: nat, k: nat, m: AccountMutation, last: Try)
    requires FrontFits(p.builders, f) && i < |p.builders| && k < |p.builders[i].hooks| && m in f.fields && BuiltTo(f, i)
    requires FrontFits(p.builders, last.front) && Tries(p.builders[i].hooks[k]) > 0
    requires var ws := Targets(p.builders, f, i, k + 1, m); var passes := Through(p.builders, p.env, ws, i, k + 1);
      Quiets(Lets(p.builders, p.env, f, i, k + 1), passes,
             (CallsTwice(p.builders[i].hooks[k]) ==> passes) && Hushed(p.builders, p.env, ws, i, k + 1),
             Lets(p.builders, p.env, last.front, i, k + 1), last.err)
    ensures Quiet(p, f, i, k, m, last.front, last.err)
  {
    EndThroughHook(p.builders, f, i, k, m);
  }

  ghost predicate QuietRetry(p: Plan, i: nat, k: nat, m: AccountMutation, a: Try, b: Try)
    requires i < |p.builders| && k < |p.builders[i].hooks|
  {
    && FrontFits(p.builders, a.front) && m in a.front.fields && BuiltTo(a.front, i) && FrontFits(p.builders, b.front)
    && Quiet(p, a.front, i, k + 1, m, b.front, b.err)
  }

  ghost predicate QuietRetries(p: Plan, i: nat, k: nat, m: AccountMutation, ts: seq<Try>)
    requires i < |p.builders| && k < |p.builders[i].hooks|
  {
    forall t :: 0 < t < |ts| ==> QuietRetry(p, i, k, m, ts[t-1], ts[t])
  }

  /** The fronts between the calls have the same ends as the first. */
  lemma TriesFit(p: Plan, f: Front, i: nat, k: nat, m: AccountMutation, ts: seq<Try>)
    requires FrontFits(p.builders, f) && i < |p.builders| && k < |p.builders[i].hooks| && m in f.fields && BuiltTo(f, i)
    requires 0 < |ts| <= Tries(p.builders[i].hooks[k]) + 1 && Retries(p, i, k, m, ts)
    requires Tried(p, f, i, k, m, 0, ts[0].front, ts[0].err)
    ensures TriesAllFit(p, i, m, ts)
    ensures forall t :: 0 <= t < |ts| ==>
      Targets(p.builders, ts[t].front, i, k + 1, m) == Targets(p.builders, f, i, k + 1, m)
  {
    forall t | 0 <= t < |ts|
      ensures FrontFits(p.builders, ts[t].front) && m in ts[t].front.fields && BuiltTo(ts[t].front, i)
      ensures Targets(p.builders, ts[t].front, i, k + 1, m) == Targets(p.builders, f, i, k + 1, m)
    {
      TriesCount(p, f, i, k, m, ts, t);
      EndsStay(p.builders, p.env, f, i, k + 1, m, ts[t].front);
    }
  }

  /** A mutator whose check passed, before the next builder's chain. */
  lemma MutatorQuiet(p: Plan, f: Front, i: nat, m: AccountMutation, f': Front, err: Option<CreateError>)
    requires FrontFits(p.builders, f) && i + 1 < |p.builders| && m in f.fields && BuiltTo(f, i)
    requires Check(p.env, f.fields[f.own[i]]) == None
    requires var g := BuiltFront(f, i, m);
      && FrontFits(p.builders, g) && g.own[i+1] in g.fields && BuiltTo(g, i + 1)
      && Moves(p.builders, g, i + 1, 0, g.own[i+1], f') && Quiet(p, g, i + 1, 0, g.own[i+1], f', err)
    ensures FrontFits(p.builders, f') && Quiet(p, f, i, |p.builders[i].hooks|, m, f', err)
  {
    var g := BuiltFront(f, i, m);
    BuildingKeepsEnds(p.builders, p.env, f, i, m);
    ThroughTail(p.builders, p.env, OwnSettings(p.builders, g), OwnSettings(p.builders, f), i + 1, 0);
    assert f'.own[i] == m;
    assert OwnSettings(p.builders, f')[i] == Targets(p.builders, f, i, |p.builders[i].hooks|, m)[i];
  }

  // --------------------------------------------------------- the run is quiet

  /** The call of hook `k` of builder `i`, when some hook from there on does not call on. */
  lemma {:induction false} ChainIsQuiet(p: Plan, s: State, i: nat, k: nat, m: AccountMutation)
    requires i < |p.builders| && k <= |p.builders[i].hooks| && NoEdit(p.builders) && Distinct(p.builders)
    requires Covers(p, s) && m in s.muts && BuiltBelow(s, i) && !Unblocked(p.builders, i, k)
    ensures var r := Run(p, s, i, k, m);
      BuiltTo(FrontOf(p, s), i) && Quiet(p, FrontOf(p, s), i, k, m, FrontOf(p, r.state), r.err)
    decreases |p.builders| - i, |p.builders[i].hooks| - k, 2, 0
  {
    if k < |p.builders[i].hooks| {
      var s0 := s.Log(Enter(i, k));
      FrontLog(p, s, Enter(i, k));
      HookIsQuiet(p, s0, i, k, m);
      FrontLog(p, RunHook(p, s0, i, k, m).state, Exit(i, k));
    } else {
      MutatorIsQuiet(p, s, i, m);
    }
  }

  lemma {:induction false} HookIsQuiet(p: Plan, s: State, i: nat, k: nat, m: AccountMutation)
    requires i < |p.builders| && k < |p.builders[i].hooks| && NoEdit(p.builders) && Distinct(p.builders)
    requires Covers(p, s) && m in s.muts && BuiltBelow(s, i) && !Unblocked(p.builders, i, k)
    ensures var r := RunHook(p, s, i, k, m);
      BuiltTo(FrontOf(p, s), i) && Quiet(p, FrontOf(p, s), i, k, m, FrontOf(p, r.state), r.err)
    decreases |p.builders| - i, |p.builders[i].hooks| - k, 1, 0
  {
    var h, f := p.builders[i].hooks[k], FrontOf(p, s);
    assert BuiltTo(f, i);
    if !Blocks(h) {
      HandedOnIsCovered(p, s, i, k, m);
      var m' := HandedOn(m, h);
      assert Edited(s, m, h) == s;
      ChainIsQuiet(p, s, i, k + 1, m');
      var r := Run(p, s, i, k + 1, m');
      if Tries(h) == 0 {
        RunHookOnce(p, s, i, k, m);
        HookQuiet(p, f, i, k, m, FrontOf(p, r.state), r.err);
      } else {
        ChainWalks(p, s, i, k + 1, m);
        FirstTry(p, f, i, k, m, FrontOf(p, r.state), r.err);
        var os := Answers(p, r.state, i, k, m, Tries(h), r.err);
        AnswersAreTries(p, i, k, m, os);
        AnswersAreQuiet(p, i, k, m, os);
        AgainQuiet(p, f, i, k, m, TriesOf(p, os));
      }
    }
  }

  lemma {:induction false} AnswersAreQuiet(p: Plan, i: nat, k: nat, m: AccountMutation, os: seq<Outcome>)
    requires i < |p.builders| && k < |p.builders[i].hooks| && NoEdit(p.builders) && Distinct(p.builders)
    requires !Unblocked(p.builders, i, k + 1) && forall t :: 0 <= t < |os| ==> Covers(p, os[t].state)
    requires forall t :: 0 < t < |os| ==> Follows(p, i, k, m, os[t-1], os[t])
    ensures QuietRetries(p, i, k, m, TriesOf(p, os))
    decreases |p.builders| - i, |p.builders[i].hooks| - k, 0, 1
  {
    var ts := TriesOf(p, os);
    forall t | 0 < t < |ts|
      ensures QuietRetry(p, i, k, m, ts[t-1], ts[t])
    {
      AnswerIsQuiet(p, i, k, m, os[t-1], os[t]);
    }
  }

  lemma {:induction false} AnswerIsQuiet(p: Plan, i: nat, k: nat, m: AccountMutation, a: Outcome, b: Outcome)
    requires i < |p.builders| && k < |p.builders[i].hooks| && NoEdit(p.builders) && Distinct(p.builders)
    requires !Unblocked(p.builders, i, k + 1) && Follows(p, i, k, m, a, b)
    ensures Covers(p, b.state) && QuietRetry(p, i, k, m, TryOf(p, a), TryOf(p, b))
    decreases |p.builders| - i, |p.builders[i].hooks| - k, 0, 0
  {
    ChainIsQuiet(p, a.state, i, k + 1, m);
  }

  lemma {:induction false} MutatorIsQuiet(p: Plan, s: State, i: nat, m: AccountMutation)
    requires i < |p.builders| && NoEdit(p.builders) && Distinct(p.builders)
    requires Covers(p, s) && m in s.muts && BuiltBelow(s, i) && !Unblocked(p.builders, i, |p.builders[i].hooks|)
    ensures var r := RunMutator(p, s, i, m); var k := |p.builders[i].hooks|;
      BuiltTo(FrontOf(p, s), i) && Quiet(p, FrontOf(p, s), i, k, m, FrontOf(p, r.state), r.err)
    decreases |p.builders| - i, 0, 1, 0
  {
    var f, own := FrontOf(p, s), MutationOf(p, s, i);
    assert BuiltTo(f, i) && f.own[i] == own;
    var fields := s.muts[own].fields;
    var s0 := s.Log(Checked(i, fields, Check(p.env, fields).None?));
    FrontLog(p, s, Checked(i, fields, Check(p.env, fields).None?));
    if Check(p.env, fields) == None {
      FrontBuild(p, s0, i, m);
      var b := Build(p, s0, i, m);
      assert Begin(p, s, i, m) == Outcome(b, None);
      NextIsQuiet(p, b, i, f, m);
      var r := RunNext(p, b, i);
      if r.err == None {
        FrontFinish(p, r.state, i, m);
      }
    }
  }

  lemma {:induction false} NextIsQuiet(p: Plan, b: State, i: nat, f: Front, m: AccountMutation)
    requires i + 1 < |p.builders| && NoEdit(p.builders) && Distinct(p.builders)
    requires Covers(p, b) && BuiltBelow(b, i + 1) && !Unblocked(p.builders, i + 1, 0)
    requires FrontFits(p.builders, f) && m in f.fields && BuiltTo(f, i) && FrontOf(p, b) == BuiltFront(f, i, m)
    requires Check(p.env, f.fields[f.own[i]]) == None
    ensures var r := RunNext(p, b, i);
      Quiet(p, f, i, |p.builders[i].hooks|, m, FrontOf(p, r.state), r.err)
    decreases |p.builders| - i - 1, 1 + |p.builders[i+1].hooks|, 0, 0
  {
    var next := MutationOf(p, b, i + 1);
    ChainWalks(p, b, i + 1, 0, next);
    ChainIsQuiet(p, b, i + 1, 0, next);
    var r := Run(p, b, i + 1, 0, next);
    MutatorQuiet(p, f, i, m, FrontOf(p, r.state), r.err);
  }

  // ------------------------------------------------------------ the first block

  /** Hook `d` of builder `c` stands from hook `k` of builder `i` on and before hook `b` of builder `a`. */
  predicate Between(builders: seq<AccountCreate>, i: nat, k: nat, c: nat, d: nat, a: nat, b: nat) {
    && c < |builders| && d < |builders[c].hooks|
    && (i < c || (i == c && k <= d)) && (c < a || (c == a && d < b))
  }

  ghost predicate IsFirstBlock(builders: seq<AccountCreate>, i: nat, k: nat, a: nat, b: nat) {
    && a < |builders| && b < |builders[a].hooks| && Blocks(builders[a].hooks[b]) && (i < a || (i == a && k <= b))
    && forall c: nat, d: nat :: Between(builders, i, k, c, d, a, b) ==> !Blocks(builders[c].hooks[d])
  }

  /** The checks of the builders from `i` and below `a` pass. */
  predicate PassBetween(env: Env, fs: seq<Settings>, i: nat, a: nat) {
    forall j :: i <= j < a && j < |fs| ==> Check(env, fs[j]) == None
  }

  /** A block further on is the first one from here exactly if nothing blocks here. */
  lemma FirstBlockStep(builders: seq<AccountCreate>, i: nat, k: nat, a: nat, b: nat)
    requires i < |builders| && k <= |builders[i].hooks| && IsFirstBlock(builders, i, k, a, b) && (i < a || k < b)
    ensures k < |builders[i].hooks| ==> IsFirstBlock(builders, i, k + 1, a, b) && !Blocks(builders[i].hooks[k])
    ensures k == |builders[i].hooks| ==> i + 1 < |builders| && IsFirstBlock(builders, i + 1, 0, a, b)
  {
    if k < |builders[i].hooks| {
      assert Between(builders, i, k, i, k, a, b);
      assert forall c: nat, d: nat :: Between(builders, i, k + 1, c, d, a, b) ==> Between(builders, i, k, c, d, a, b);
    } else {
      assert forall c: nat, d: nat :: Between(builders, i + 1, 0, c, d, a, b) ==> Between(builders, i, k, c, d, a, b);
    }
  }

  /** The way to the first block is let through exactly if the checks on it pass. */
  lemma {:induction false} ThroughIff(builders: seq<AccountCreate>, env: Env, fs: seq<Settings>, i: nat, k: nat,
                                      a: nat, b: nat)
    requires i < |builders| == |fs| && k <= |builders[i].hooks| && IsFirstBlock(builders, i, k, a, b)
    ensures Through(builders, env, fs, i, k) <==> PassBetween(env, fs, i, a)
    decreases |builders| - i, |builders[i].hooks| - k
  {
    if i < a || k < b {
      FirstBlockStep(builders, i, k, a, b);
      if k < |builders[i].hooks| {
        ThroughIff(builders, env, fs, i, k + 1, a, b);
      } else {
        ThroughIff(builders, env, fs, i + 1, 0, a, b);
        assert PassBetween(env, fs, i, a) <==> Check(env, fs[i]) == None && PassBetween(env, fs, i + 1, a);
      }
    }
  }

  /** The hook before the block neither fails late nor, calling again, would be stopped by what it left. */
  predicate LeavesQuiet(env: Env, ws: seq<Settings>, h: Hook, c: nat, a: nat) {
    !FailsLate(h) && (CallsTwice(h) ==> PassBetween(env, ws, c, a))
  }

  lemma {:induction false} HushedIff(builders: seq<AccountCreate>, env: Env, ws: seq<Settings>, i: nat, k: nat,
                                     a: nat, b: nat)
    requires i < |builders| == |ws| && k <= |builders[i].hooks| && IsFirstBlock(builders, i, k, a, b)
    ensures Hushed(builders, env, ws, i, k) <==>
      && builders[a].hooks[b].Skip?
      && forall c: nat, d: nat :: Between(builders, i, k, c, d, a, b) ==>
           LeavesQuiet(env, ws, builders[c].hooks[d], c, a)
    decreases |builders| - i, |builders[i].hooks| - k
  {
    if i < a || k < b {
      FirstBlockStep(builders, i, k, a, b);
      if k < |builders[i].hooks| {
        HushedIff(builders, env, ws, i, k + 1, a, b);
        ThroughIff(builders, env, ws, i, k + 1, a, b);
        assert Between(builders, i, k, i, k, a, b);
        assert forall c: nat, d: nat :: Between(builders, i, k, c, d, a, b) <==>
          (c == i && d == k) || Between(builders, i, k + 1, c, d, a, b);
      } else {
        HushedIff(builders, env, ws, i + 1, 0, a, b);
        assert forall c: nat, d: nat ::
          Between(builders, i, k, c, d, a, b) <==> Between(builders, i + 1, 0, c, d, a, b);
      }
    }
  }

  /** The way in ends in a hook exactly if it is let through to a first block. */
  lemma {:induction false} StopIsFirstBlock(builders: seq<AccountCreate>, env: Env, fs: seq<Settings>, i: nat, k: nat)
    requires i < |builders| == |fs| && k <= |builders[i].hooks|
    ensures var stop := FindStop(builders, env, fs, i, k);
      && (stop.AtHook? <==> !Unblocked(builders, i, k) && Through(builders, env, fs, i, k))
      && (stop.AtHook? ==> IsFirstBlock(builders, i, k, stop.i, stop.k))
    decreases |builders| - i, |builders[i].hooks| - k
  {
    if k < |builders[i].hooks| {
      if !Blocks(builders[i].hooks[k]) {
        StopIsFirstBlock(builders, env, fs, i, k + 1);
        var stop := FindStop(builders, env, fs, i, k);
        assert stop.AtHook? ==> forall c: nat, d: nat :: Between(builders, i, k, c, d, stop.i, stop.k) ==>
          (c == i && d == k) || Between(builders, i, k + 1, c, d, stop.i, stop.k);
      }
    } else if i < |builders| - 1 {
      StopIsFirstBlock(builders, env, fs, i + 1, 0);
      var stop := FindStop(builders, env, fs, i, k);
      assert stop.AtHook? ==> forall c: nat, d: nat :: Between(builders, i, k, c, d, stop.i, stop.k) ==>
        Between(builders, i + 1, 0, c, d, stop.i, stop.k);
    }
  }

  // ------------------------------------------------------------------- verdicts

  /** The way in ends in a skipping hook, no hook before it fails late, and for every hook before it that always
      calls again the builders from its own up to the skipping one pass their checks with the settings that
      its first call left them. All this can be told before the save. */
  ghost predicate EndsSilently(p: Plan, s: State)
    requires Covers(p, s) && |p.builders| > 0
  {
    var ws, stop := WrittenSettings(p, s), FindStop(p.builders, p.env, SavedSettings(p, s), 0, 0);
    && stop.AtHook? && p.builders[stop.i].hooks[stop.k].Skip?
    && forall c: nat, d: nat :: Between(p.builders, 0, 0, c, d, stop.i, stop.k) ==>
         LeavesQuiet(p.env, ws, p.builders[c].hooks[d], c, stop.i)
  }

  lemma EndsSilentlyIff(p: Plan, s: State)
    requires Covers(p, s) && |p.builders| > 0
    ensures EndsSilently(p, s) <==>
      && !Unblocked(p.builders, 0, 0)
      && Through(p.builders, p.env, SavedSettings(p, s), 0, 0)
      && Hushed(p.builders, p.env, WrittenSettings(p, s), 0, 0)
  {
    var fs := SavedSettings(p, s);
    StopIsFirstBlock(p.builders, p.env, fs, 0, 0);
    var stop := FindStop(p.builders, p.env, fs, 0, 0);
    if stop.AtHook? {
      HushedIff(p.builders, p.env, WrittenSettings(p, s), 0, 0, stop.i, stop.k);
    }
  }

  /** A save that some hook blocks inserts nothing, and reports success exactly if it ends silently. */
  lemma BlockedSave(p: Plan, s: State)
    requires Covers(p, s) && |p.builders| > 0 && NoEdit(p.builders) && Distinct(p.builders)
    requires !Unblocked(p.builders, 0, 0)
    ensures !Wrote(s.trace, SaveAll(p, s).state.trace)
    ensures SaveAll(p, s).err == None <==> EndsSilently(p, s)
  {
    OpenIfReaches(p, s);
    SaveSends(p, s);
    BlockedVerdict(p, s);
  }

  lemma BlockedVerdict(p: Plan, s: State)
    requires Covers(p, s) && |p.builders| > 0 && NoEdit(p.builders) && Distinct(p.builders)
    requires !Unblocked(p.builders, 0, 0)
    ensures SaveAll(p, s).err == None <==> EndsSilently(p, s)
  {
    SaveIsQuiet(p, s);
    WrittenAreTargets(p, s);
    OwnAreSaved(p, s);
    EndsSilentlyIff(p, s);
  }

  lemma SaveIsQuiet(p: Plan, s: State)
    requires Covers(p, s) && |p.builders| > 0 && NoEdit(p.builders) && Distinct(p.builders)
    requires !Unblocked(p.builders, 0, 0)
    ensures var s0 := Prepared(p, s, |p.builders|); var f := FrontOf(p, s0);
      SaveAll(p, s).err == None <==>
        && Lets(p.builders, p.env, f, 0, 0)
        && Hushed(p.builders, p.env, Targets(p.builders, f, 0, 0, MutationOf(p, s0, 0)), 0, 0)
  {
    var s0 := Prepared(p, s, |p.builders|);
    ChainIsQuiet(p, s0, 0, 0, MutationOf(p, s0, 0));
  }

  lemma OwnAreSaved(p: Plan, s: State)
    requires Covers(p, s)
    ensures OwnSettings(p.builders, FrontOf(p, Prepared(p, s, |p.builders|))) == SavedSettings(p, s)
  {
  }

  /** The verdict of a save whose hooks edit nothing tells whether rows were inserted, whatever the database
      answers, exactly if the save does not end silently, and in case it reaches the insert no hook fails late
      and none always calls on again. */
  lemma VerdictIsHonestIff(p: Plan, s: State)
    requires Covers(p, s) && |p.builders| > 0 && NoEdit(p.builders) && Distinct(p.builders)
    ensures (forall db :: Honest(p, s, db)) <==>
      && !EndsSilently(p, s)
      && (ReachesInsert(p, s) ==> !Has(FailsLate, p.builders, 0, 0) && !Has(CallsTwice, p.builders, 0, 0))
  {
    EndsSilentlyIff(p, s);
    if Unblocked(p.builders, 0, 0) {
      CallingOnIsHonestIff(p, s);
    } else {
      OpenIfReaches(p, s);
      forall db
        ensures Honest(p, s, db) <==> !EndsSilently(p, s)
      {
        SameForEveryDatabase(p, s, db);
        BlockedSave(p.(db := db), s);
      }
      assert Honest(p, s, p.db) <==> !EndsSilently(p, s);
    }
  }
}
