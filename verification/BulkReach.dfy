/** The way in of a bulk save, with hooks that substitute mutations and hooks that call on twice: which
    mutation each builder is left with, what every insert writes, and how many inserts there are. */
module BulkReach {
  import opened Sequences
  import opened AccountEntity
  import opened BulkCreate
  import opened BulkLaws
  import opened BulkOutcome

  /** What the way in depends on: the builders' mutations, the fields of all mutations, the slots built so
      far and the batches sent so far. */
  datatype Front = Front(own: seq<AccountMutation>, fields: map<AccountMutation, Settings>,
                         slots: seq<Option<Settings>>, batches: seq<Event>, inserts: nat)

  ghost predicate FrontFits(builders: seq<AccountCreate>, f: Front) {
    && |f.own| == |f.slots| == |builders|
    && (forall j :: 0 <= j < |f.own| ==> f.own[j] in f.fields)
    && Replacements(builders) <= f.fields.Keys
  }

  function SlotFields(slot: Option<CreateSpec>): Option<Settings> {
    if slot.Some? then Some(slot.value.fields) else None
  }

  ghost function FrontOf(p: Plan, s: State): (f: Front)
    requires Covers(p, s)
    ensures FrontFits(p.builders, f) && f.fields.Keys == s.muts.Keys
  {
    Front(seq(|p.builders|, j requires 0 <= j < |p.builders| => MutationOf(p, s, j)),
          map m | m in s.muts :: s.muts[m].fields,
          seq(|s.specs|, j requires 0 <= j < |s.specs| => SlotFields(s.specs[j])),
          Batches(s.trace), s.inserts)
  }

  ghost function MutationOf(p: Plan, s: State, j: nat): (m: AccountMutation)
    requires Covers(p, s) && j < |p.builders|
    ensures m in s.muts && p.builders[j] in s.current && m == s.current[p.builders[j]]
  {
    assert p.builders[j] in p.builders;
    s.current[p.builders[j]]
  }

  ghost predicate NoEdit(builders: seq<AccountCreate>) {
    forall i :: 0 <= i < |builders| ==> forall k :: 0 <= k < |builders[i].hooks| ==> !builders[i].hooks[k].Edit?
  }

  // ------------------------------------------------------ where the way in leads

  /** The mutation that hooks `k..` leave a builder with when the `k`-th is called with `m`. */
  function Reached(m: AccountMutation, hooks: seq<Hook>, k: nat): AccountMutation
    requires k <= |hooks|
    decreases |hooks| - k
  {
    if k == |hooks| then m else Reached(HandedOn(m, hooks[k]), hooks, k + 1)
  }

  /** Hooks either pass their mutation through or have one of their own. */
  lemma {:induction false} ReachedFrom(a: AccountMutation, b: AccountMutation, hooks: seq<Hook>, k: nat)
    requires k <= |hooks|
    ensures Reached(Reached(a, hooks, k), hooks, k) == Reached(a, hooks, k)
    ensures Reached(a, hooks, k) == a || Reached(a, hooks, k) == Reached(b, hooks, k)
    decreases |hooks| - k
  {
    if k < |hooks| {
      ReachedFrom(HandedOn(a, hooks[k]), HandedOn(b, hooks[k]), hooks, k + 1);
      var r := Reached(a, hooks, k);
      ReachedFrom(HandedOn(a, hooks[k]), HandedOn(r, hooks[k]), hooks, k + 1);
    }
  }

  lemma {:induction false} ReachedIsKnown(builders: seq<AccountCreate>, i: nat, m: AccountMutation, k: nat)
    requires i < |builders| && k <= |builders[i].hooks|
    ensures Reached(m, builders[i].hooks, k) == m || Reached(m, builders[i].hooks, k) in Replacements(builders)
    decreases |builders[i].hooks| - k
  {
    if k < |builders[i].hooks| {
      var h := builders[i].hooks[k];
      ReachedIsKnown(builders, i, HandedOn(m, h), k + 1);
      if h.Replace? {
        ReplacementIsCovered(builders, i, k);
      }
    }
  }

  /** The mutation builder `j` ends with when hook `k` of builder `i` is called with `m`. */
  ghost function End(builders: seq<AccountCreate>, f: Front, i: nat, k: nat, m: AccountMutation, j: nat):
      (r: AccountMutation)
    requires FrontFits(builders, f) && i <= j < |builders| && k <= |builders[i].hooks| && m in f.fields
    ensures r in f.fields
  {
    if j == i then
      ReachedIsKnown(builders, i, m, k);
      Reached(m, builders[i].hooks, k)
    else
      ReachedIsKnown(builders, j, f.own[j], 0);
      Reached(f.own[j], builders[j].hooks, 0)
  }

  ghost predicate BuiltTo(f: Front, i: nat) {
    i <= |f.slots| && forall j :: 0 <= j < i ==> f.slots[j].Some?
  }

  /** What every insert on the way in writes: the slots below `i`, and the fields of the mutations the
      other builders end with. */
  ghost function Targets(builders: seq<AccountCreate>, f: Front, i: nat, k: nat, m: AccountMutation): (r: seq<Settings>)
    requires FrontFits(builders, f) && i < |builders| && k <= |builders[i].hooks| && m in f.fields && BuiltTo(f, i)
    ensures |r| == |builders|
  {
    seq(|builders|, j requires 0 <= j < |builders| =>
      if j < i then f.slots[j].value else f.fields[End(builders, f, i, k, m, j)])
  }

  /** No hook from here on keeps the call to itself. */
  predicate Unblocked(builders: seq<AccountCreate>, i: nat, k: nat)
    requires i < |builders| && k <= |builders[i].hooks|
    decreases |builders| - i, |builders[i].hooks| - k
  {
    if k < |builders[i].hooks| then !Blocks(builders[i].hooks[k]) && Unblocked(builders, i, k + 1)
    else i == |builders| - 1 || Unblocked(builders, i + 1, 0)
  }

  /** The checks of the builders from `i` on would pass. */
  ghost predicate Good(builders: seq<AccountCreate>, env: Env, f: Front, i: nat)
    requires FrontFits(builders, f)
  {
    forall j :: i <= j < |builders| ==> Check(env, f.fields[f.own[j]]) == None
  }

  predicate AllPass(env: Env, ws: seq<Settings>, i: nat) {
    forall j :: i <= j < |ws| ==> Check(env, ws[j]) == None
  }

  // ------------------------------------------------------------ how many inserts

  /** How often the insert can be reached from a hook: so many times as often as a hook can call on. */
  function Calls(builders: seq<AccountCreate>, i: nat, k: nat): (n: nat)
    requires i < |builders| && k <= |builders[i].hooks|
    ensures n >= 1
    decreases |builders| - i, |builders[i].hooks| - k
  {
    if k < |builders[i].hooks| then
      var inner := Calls(builders, i, k + 1);
      inner + Tries(builders[i].hooks[k]) * inner
    else if i < |builders| - 1 then Calls(builders, i + 1, 0)
    else 1
  }

  /** How many inserts can follow the first: further calls go through only if what the first one left in
      the builders, `ws`, passes their checks. */
  function More(builders: seq<AccountCreate>, env: Env, ws: seq<Settings>, i: nat, k: nat): nat
    requires i < |builders| && k <= |builders[i].hooks|
    decreases |builders| - i, |builders[i].hooks| - k
  {
    if k < |builders[i].hooks| then
      (if AllPass(env, ws, i) then Tries(builders[i].hooks[k]) * Calls(builders, i, k + 1) else 0)
      + More(builders, env, ws, i, k + 1)
    else if i < |builders| - 1 then More(builders, env, ws, i + 1, 0)
    else 0
  }

  lemma {:induction false} MoreIsCalls(builders: seq<AccountCreate>, env: Env, ws: seq<Settings>, i: nat, k: nat)
    requires i < |builders| && k <= |builders[i].hooks|
    ensures AllPass(env, ws, i) ==> 1 + More(builders, env, ws, i, k) == Calls(builders, i, k)
    ensures 1 + More(builders, env, ws, i, k) <= Calls(builders, i, k)
    decreases |builders| - i, |builders[i].hooks| - k
  {
    if k < |builders[i].hooks| {
      MoreIsCalls(builders, env, ws, i, k + 1);
    } else if i < |builders| - 1 {
      MoreIsCalls(builders, env, ws, i + 1, 0);
    }
  }

  /** The hook may call again from the `i`-th builder's place and would come through. */
  ghost predicate Repeats(builders: seq<AccountCreate>, env: Env, ws: seq<Settings>, a: nat, b: nat) {
    a < |builders| && b < |builders[a].hooks| && Tries(builders[a].hooks[b]) > 0 && AllPass(env, ws, a)
  }

  lemma AtLeastOnce(t: nat, n: nat)
    requires n > 0
    ensures t * n >= t
  {
  }

  lemma {:induction false} MoreIsNoneIff(builders: seq<AccountCreate>, env: Env, ws: seq<Settings>, i: nat, k: nat)
    requires i < |builders| && k <= |builders[i].hooks|
    ensures More(builders, env, ws, i, k) == 0 <==>
      forall a, b :: (i < a || (i == a && k <= b)) ==> !Repeats(builders, env, ws, a, b)
    decreases |builders| - i, |builders[i].hooks| - k
  {
    if k < |builders[i].hooks| {
      MoreIsNoneIff(builders, env, ws, i, k + 1);
      AtLeastOnce(Tries(builders[i].hooks[k]), Calls(builders, i, k + 1));
      if More(builders, env, ws, i, k) != 0 && More(builders, env, ws, i, k + 1) == 0 {
        assert Repeats(builders, env, ws, i, k);
      }
    } else if i < |builders| - 1 {
      MoreIsNoneIff(builders, env, ws, i + 1, 0);
    }
  }

  /** The database refuses every batch from the `from`-th on. */
  ghost predicate Refuses(db: (nat, seq<CreateSpec>) -> BatchResult, from: nat) {
    forall n: nat, specs: seq<CreateSpec> :: n >= from ==> db(n, specs).NotInserted?
  }

  /** No hook that can call again waits for an error before it does. */
  ghost predicate Unconditional(builders: seq<AccountCreate>) {
    forall i :: 0 <= i < |builders| ==>
      forall k :: 0 <= k < |builders[i].hooks| ==> Tries(builders[i].hooks[k]) == 0 || builders[i].hooks[k].always
  }

  predicate FailsLate(h: Hook) {
    h.FailAfter?
  }

  predicate CallsTwice(h: Hook) {
    Tries(h) > 0 && h.always
  }

  /** Some hook from here on is one of those. */
  predicate Has(which: Hook -> bool, builders: seq<AccountCreate>, i: nat, k: nat)
    requires i < |builders| && k <= |builders[i].hooks|
    decreases |builders| - i, |builders[i].hooks| - k
  {
    if k < |builders[i].hooks| then which(builders[i].hooks[k]) || Has(which, builders, i, k + 1)
    else i < |builders| - 1 && Has(which, builders, i + 1, 0)
  }

  // ------------------------------------------------------------------ one walk

  predicate BatchOf(e: Event, ws: seq<Settings>) {
    e.Batch? && |e.specs| == |ws| && forall j :: 0 <= j < |ws| ==> e.specs[j].fields == ws[j]
  }

  /** A walk changes the builders' mutations only, and only to what they end with. */
  ghost predicate Moves(builders: seq<AccountCreate>, f: Front, i: nat, k: nat, m: AccountMutation, f': Front)
    requires FrontFits(builders, f) && i < |builders| && k <= |builders[i].hooks| && m in f.fields
  {
    && FrontFits(builders, f') && f'.fields == f.fields
    && (forall j :: 0 <= j < i ==> f'.own[j] == f.own[j] && f'.slots[j] == f.slots[j])
    && (forall j :: i <= j < |builders| ==> f'.own[j] == f.own[j] || f'.own[j] == End(builders, f, i, k, m, j))
  }

  ghost predicate Open(builders: seq<AccountCreate>, env: Env, f: Front, i: nat, k: nat)
    requires FrontFits(builders, f) && i < |builders| && k <= |builders[i].hooks|
  {
    Unblocked(builders, i, k) && Good(builders, env, f, i)
  }

  /** Every builder is left with the mutation it ends with. */
  ghost predicate Arrived(builders: seq<AccountCreate>, f: Front, i: nat, k: nat, m: AccountMutation, f': Front)
    requires FrontFits(builders, f) && i < |builders| && k <= |builders[i].hooks| && m in f.fields
  {
    |f'.own| == |builders| && forall j :: i <= j < |builders| ==> f'.own[j] == End(builders, f, i, k, m, j)
  }

  /** What a walk sends: nothing if the way in is closed, and otherwise between one and `1 + more` batches,
      all of the same content; exactly so many if every hook that may call again does. */
  ghost predicate Sends(before: seq<Event>, after: seq<Event>, ws: seq<Settings>, open: bool, more: nat, exact: bool) {
    && before <= after
    && (forall a :: |before| <= a < |after| ==> BatchOf(after[a], ws))
    && (if open then |before| < |after| <= |before| + 1 + more else |after| == |before|)
    && (open && exact ==> |after| == |before| + 1 + more)
  }

  /** What calling hook `k` of builder `i` with `m` comes to. */
  ghost predicate Walked(p: Plan, f: Front, i: nat, k: nat, m: AccountMutation, f': Front, err: Option<CreateError>)
    requires FrontFits(p.builders, f) && i < |p.builders| && k <= |p.builders[i].hooks| && m in f.fields
    requires BuiltTo(f, i)
  {
    && Goes(p.builders, p.env, f, i, k, m, f')
    && (Unblocked(p.builders, i, k) ==> Tells(p, f, i, k, f', err))
    && Adds(p, f, Targets(p.builders, f, i, k, m), Open(p.builders, p.env, f, i, k),
            More(p.builders, p.env, Targets(p.builders, f, i, k, m), i, k), f')
  }

  /** Where a walk leaves the builders. */
  ghost predicate Goes(builders: seq<AccountCreate>, env: Env, f: Front, i: nat, k: nat, m: AccountMutation, f': Front)
    requires FrontFits(builders, f) && i < |builders| && k <= |builders[i].hooks| && m in f.fields
  {
    && Moves(builders, f, i, k, m, f')
    && (Open(builders, env, f, i, k) ==> Arrived(builders, f, i, k, m, f'))
    && (!Good(builders, env, f, i) ==> !Good(builders, env, f', i))
  }

  /** The batches a walk adds. */
  ghost predicate Adds(p: Plan, f: Front, ws: seq<Settings>, open: bool, more: nat, f': Front) {
    && Sends(f.batches, f'.batches, ws, open, more, Refuses(p.db, f.inserts) || Unconditional(p.builders))
    && f'.inserts - f.inserts == |f'.batches| - |f.batches|
    && Answered(p.db, f.batches, f'.batches, f.inserts)
  }

  /** The batches between two lists carry the database's answers, counted on from `from`. */
  ghost predicate Answered(db: (nat, seq<CreateSpec>) -> BatchResult, before: seq<Event>, after: seq<Event>,
                           from: nat) {
    forall a :: |before| <= a < |after| ==>
      after[a].Batch? && after[a].result == db(from + a - |before|, after[a].specs)
  }

  /** A batch between two lists was inserted. */
  ghost predicate AnyInserted(before: seq<Event>, after: seq<Event>) {
    exists a :: |before| <= a < |after| && after[a].Batch? && after[a].result.Inserted?
  }

  /** What the error of a walk that no hook blocks says. It is an error if a check fails, the database
      refuses, a hook fails late, or one calls twice and the database refuses the second batch; without
      hooks of the last two kinds it is an error exactly if nothing was inserted. */
  ghost predicate Tells(p: Plan, f: Front, i: nat, k: nat, f': Front, err: Option<CreateError>)
    requires FrontFits(p.builders, f) && i < |p.builders| && k <= |p.builders[i].hooks|
  {
    && (Refuses(p.db, f.inserts) || !Good(p.builders, p.env, f, i) || Has(FailsLate, p.builders, i, k) ==> err.Some?)
    && (Refuses(p.db, f.inserts + 1) && Has(CallsTwice, p.builders, i, k) ==> err.Some?)
    && (!Has(FailsLate, p.builders, i, k) && !Has(CallsTwice, p.builders, i, k) ==>
          (err == None <==> AnyInserted(f.batches, f'.batches)))
  }

  // -------------------------------------------------------------- steps of a walk

  /** A second walk from the same place has the same ends, and is checked on what the first one left. */
  lemma EndsStay(builders: seq<AccountCreate>, env: Env, f: Front, i: nat, k: nat, m: AccountMutation, f': Front)
    requires FrontFits(builders, f) && i < |builders| && k <= |builders[i].hooks| && m in f.fields && BuiltTo(f, i)
    requires Moves(builders, f, i, k, m, f')
    ensures BuiltTo(f', i) && Targets(builders, f', i, k, m) == Targets(builders, f, i, k, m)
    ensures forall j :: i <= j < |builders| ==> End(builders, f', i, k, m, j) == End(builders, f, i, k, m, j)
    ensures Arrived(builders, f, i, k, m, f') ==>
      (Good(builders, env, f', i) <==> AllPass(env, Targets(builders, f, i, k, m), i))
  {
    forall j | i <= j < |builders|
      ensures End(builders, f', i, k, m, j) == End(builders, f, i, k, m, j)
    {
      if j > i {
        ReachedFrom(f.own[j], f.own[j], builders[j].hooks, 0);
      }
    }
    if Arrived(builders, f, i, k, m, f') {
      var ws := Targets(builders, f, i, k, m);
      assert forall j :: i <= j < |builders| ==> ws[j] == f'.fields[f'.own[j]];
    }
  }

  lemma EndThroughHook(builders: seq<AccountCreate>, f: Front, i: nat, k: nat, m: AccountMutation)
    requires FrontFits(builders, f) && i < |builders| && k < |builders[i].hooks| && m in f.fields && BuiltTo(f, i)
    ensures HandedOn(m, builders[i].hooks[k]) in f.fields
    ensures var m' := HandedOn(m, builders[i].hooks[k]);
      && (forall j :: i <= j < |builders| ==> End(builders, f, i, k + 1, m', j) == End(builders, f, i, k, m, j))
      && Targets(builders, f, i, k + 1, m') == Targets(builders, f, i, k, m)
  {
    if builders[i].hooks[k].Replace? {
      ReplacementIsCovered(builders, i, k);
    }
  }

  lemma BlockedWalk(p: Plan, f: Front, i: nat, k: nat, m: AccountMutation, err: Option<CreateError>)
    requires FrontFits(p.builders, f) && i < |p.builders| && k < |p.builders[i].hooks| && m in f.fields && BuiltTo(f, i)
    requires Blocks(p.builders[i].hooks[k])
    ensures Walked(p, f, i, k, m, f, err)
  {
  }

  /** A hook that calls on once. */
  lemma HookWalks(p: Plan, f: Front, i: nat, k: nat, m: AccountMutation, f': Front, err: Option<CreateError>)
    requires FrontFits(p.builders, f) && i < |p.builders| && k < |p.builders[i].hooks| && m in f.fields && BuiltTo(f, i)
    requires HandedOn(m, p.builders[i].hooks[k]) in f.fields && !Blocks(p.builders[i].hooks[k])
    requires Walked(p, f, i, k + 1, HandedOn(m, p.builders[i].hooks[k]), f', err)
    requires Tries(p.builders[i].hooks[k]) == 0
    ensures Walked(p, f, i, k, m, f', OrElse(err, LateFailure(p.builders[i].hooks[k])))
  {
    EndThroughHook(p.builders, f, i, k, m);
  }

  /** Two walks in a row send as many batches as both. */
  lemma SendsTwice(a: seq<Event>, b: seq<Event>, c: seq<Event>, ws: seq<Settings>, open: bool, again: bool,
                   before: nat, more: nat, exact: bool)
    requires Sends(a, b, ws, open, before, exact) && Sends(b, c, ws, again, more, exact) && (again ==> open)
    ensures Sends(a, c, ws, open, if again then before + more + 1 else before, exact)
  {
    assert forall x :: |a| <= x < |b| ==> c[x] == b[x];
  }

  lemma AnsweredTwice(db: (nat, seq<CreateSpec>) -> BatchResult, a: seq<Event>, b: seq<Event>, c: seq<Event>, from: nat)
    requires a <= b <= c && Answered(db, a, b, from) && Answered(db, b, c, from + |b| - |a|)
    ensures Answered(db, a, c, from)
  {
    assert forall x :: |a| <= x < |b| ==> c[x] == b[x];
  }

  lemma AnyInsertedTwice(a: seq<Event>, b: seq<Event>, c: seq<Event>)
    requires a <= b <= c
    ensures AnyInserted(a, c) <==> AnyInserted(a, b) || AnyInserted(b, c)
  {
    if AnyInserted(a, b) {
      var x :| |a| <= x < |b| && b[x].Batch? && b[x].result.Inserted?;
      assert c[x] == b[x];
    }
    if AnyInserted(a, c) && !AnyInserted(b, c) {
      var x :| |a| <= x < |c| && c[x].Batch? && c[x].result.Inserted?;
      assert b[x] == c[x];
    }
  }

  /** What a hook's calls of the next mutator come to, after `t` further ones. */
  ghost predicate Tried(p: Plan, f: Front, i: nat, k: nat, m: AccountMutation, t: nat, f': Front,
                        err: Option<CreateError>)
    requires FrontFits(p.builders, f) && i < |p.builders| && k < |p.builders[i].hooks| && m in f.fields && BuiltTo(f, i)
  {
    var ws := Targets(p.builders, f, i, k + 1, m);
    && Goes(p.builders, p.env, f, i, k + 1, m, f')
    && (Unblocked(p.builders, i, k + 1) ==> TellsTried(p, f, i, k, t, f', err))
    && Adds(p, f, ws, Open(p.builders, p.env, f, i, k + 1), MoreAfter(p.builders, p.env, ws, i, k, t), f')
  }

  function MoreAfter(builders: seq<AccountCreate>, env: Env, ws: seq<Settings>, i: nat, k: nat, t: nat): nat
    requires i < |builders| && k < |builders[i].hooks|
  {
    (if AllPass(env, ws, i) then t * Calls(builders, i, k + 1) else 0) + More(builders, env, ws, i, k + 1)
  }

  ghost predicate TellsTried(p: Plan, f: Front, i: nat, k: nat, t: nat, f': Front, err: Option<CreateError>)
    requires FrontFits(p.builders, f) && i < |p.builders| && k < |p.builders[i].hooks|
  {
    && (Refuses(p.db, f.inserts) || !Good(p.builders, p.env, f, i) || Has(FailsLate, p.builders, i, k + 1) ==>
          err.Some?)
    && (Refuses(p.db, f.inserts + 1) && (t > 0 || Has(CallsTwice, p.builders, i, k + 1)) ==> err.Some?)
    && (!Has(FailsLate, p.builders, i, k + 1) && !Has(CallsTwice, p.builders, i, k + 1)
        && (t == 0 || !CallsTwice(p.builders[i].hooks[k])) ==>
          (err == None <==> AnyInserted(f.batches, f'.batches)))
  }

  /** The first call. */
  lemma FirstTry(p: Plan, f: Front, i: nat, k: nat, m: AccountMutation, f': Front, err: Option<CreateError>)
    requires FrontFits(p.builders, f) && i < |p.builders| && k < |p.builders[i].hooks| && m in f.fields && BuiltTo(f, i)
    requires Walked(p, f, i, k + 1, m, f', err)
    ensures Tried(p, f, i, k, m, 0, f', err)
  {
  }

  lemma TellsAgain(p: Plan, f: Front, i: nat, k: nat, t: nat, f1: Front, e1: Option<CreateError>, f2: Front,
                   e2: Option<CreateError>)
    requires FrontFits(p.builders, f) && FrontFits(p.builders, f1)
    requires i < |p.builders| && k < |p.builders[i].hooks|
    requires TellsTried(p, f, i, k, t, f1, e1) && Tells(p, f1, i, k + 1, f2, e2)
    requires !Good(p.builders, p.env, f, i) ==> !Good(p.builders, p.env, f1, i)
    requires f.batches <= f1.batches <= f2.batches && f1.inserts >= f.inserts
    requires Good(p.builders, p.env, f, i) ==> f1.inserts > f.inserts
    requires CallsAgain(p.builders[i].hooks[k], e1) && t < Tries(p.builders[i].hooks[k])
    ensures TellsTried(p, f, i, k, t + 1, f2, e2)
  {
    AnyInsertedTwice(f.batches, f1.batches, f2.batches);
  }

  lemma MoreAfterStep(builders: seq<AccountCreate>, env: Env, ws: seq<Settings>, i: nat, k: nat, t: nat)
    requires i < |builders| && k < |builders[i].hooks|
    ensures MoreAfter(builders, env, ws, i, k, t + 1) ==
      if AllPass(env, ws, i) then MoreAfter(builders, env, ws, i, k, t) + More(builders, env, ws, i, k + 1) + 1
      else MoreAfter(builders, env, ws, i, k, t)
  {
    MoreIsCalls(builders, env, ws, i, k + 1);
  }

  /** One more call. */
  lemma OneMoreTry(p: Plan, f: Front, i: nat, k: nat, m: AccountMutation, t: nat,
                   f1: Front, e1: Option<CreateError>, f2: Front, e2: Option<CreateError>)
    requires FrontFits(p.builders, f) && i < |p.builders| && k < |p.builders[i].hooks| && m in f.fields && BuiltTo(f, i)
    requires Tried(p, f, i, k, m, t, f1, e1) && m in f1.fields && BuiltTo(f1, i) && Walked(p, f1, i, k + 1, m, f2, e2)
    requires CallsAgain(p.builders[i].hooks[k], e1) && t < Tries(p.builders[i].hooks[k])
    ensures Tried(p, f, i, k, m, t + 1, f2, e2)
  {
    var builders, env := p.builders, p.env;
    EndsStay(builders, env, f, i, k + 1, m, f1);
    var ws := Targets(builders, f, i, k + 1, m);
    var open, again := Open(builders, env, f, i, k + 1), Open(builders, env, f1, i, k + 1);
    GoesTwice(builders, env, f, i, k, m, f1, f2);
    AddsTwice(p, f, ws, open, again, MoreAfter(builders, env, ws, i, k, t), More(builders, env, ws, i, k + 1), f1, f2);
    MoreAfterStep(builders, env, ws, i, k, t);
    ClosedSendsAny(p, f, ws, open, MoreAfter(builders, env, ws, i, k, t),
                   MoreAfter(builders, env, ws, i, k, t + 1), f2);
    if Unblocked(builders, i, k + 1) {
      TellsAgain(p, f, i, k, t, f1, e1, f2, e2);
    }
  }

  /** Of a closed way in the count does not matter. */
  lemma ClosedSendsAny(p: Plan, f: Front, ws: seq<Settings>, open: bool, more: nat, other: nat, f': Front)
    ensures !open && Adds(p, f, ws, open, more, f') ==> Adds(p, f, ws, open, other, f')
  {
  }

  lemma GoesTwice(builders: seq<AccountCreate>, env: Env, f: Front, i: nat, k: nat, m: AccountMutation, f1: Front,
                  f2: Front)
    requires FrontFits(builders, f) && i < |builders| && k < |builders[i].hooks| && m in f.fields && BuiltTo(f, i)
    requires Goes(builders, env, f, i, k + 1, m, f1)
    requires FrontFits(builders, f1) && m in f1.fields && Goes(builders, env, f1, i, k + 1, m, f2)
    ensures Goes(builders, env, f, i, k + 1, m, f2)
  {
    EndsStay(builders, env, f, i, k + 1, m, f1);
  }

  lemma AddsTwice(p: Plan, f: Front, ws: seq<Settings>, open: bool, again: bool, before: nat, more: nat, f1: Front,
                  f2: Front)
    requires Adds(p, f, ws, open, before, f1) && Adds(p, f1, ws, again, more, f2) && (again ==> open)
    ensures Adds(p, f, ws, open, if again then before + more + 1 else before, f2)
  {
    var exact := Refuses(p.db, f.inserts) || Unconditional(p.builders);
    SendsTwice(f.batches, f1.batches, f2.batches, ws, open, again, before, more, exact);
    AnsweredTwice(p.db, f.batches, f1.batches, f2.batches, f.inserts);
  }

  /** The hook has made its last call. */
  lemma LastTry(p: Plan, f: Front, i: nat, k: nat, m: AccountMutation, t: nat, f': Front, err: Option<CreateError>)
    requires FrontFits(p.builders, f) && i < |p.builders| && k < |p.builders[i].hooks| && m in f.fields && BuiltTo(f, i)
    requires p.builders[i].hooks[k].Again? && Tried(p, f, i, k, m, t, f', err)
    requires var h := p.builders[i].hooks[k]; t == Tries(h) || (t < Tries(h) && !CallsAgain(h, err))
    ensures Walked(p, f, i, k, m, f', err)
  {
    var builders, env := p.builders, p.env;
    EndThroughHook(builders, f, i, k, m);
    var ws, tries := Targets(builders, f, i, k, m), Tries(builders[i].hooks[k]);
    assert MoreAfter(builders, env, ws, i, k, tries) == More(builders, env, ws, i, k);
    MoreAfterGrows(builders, env, ws, i, k, t, tries);
    if t < tries {
      assert !Unconditional(builders);
    }
  }

  lemma MoreAfterGrows(builders: seq<AccountCreate>, env: Env, ws: seq<Settings>, i: nat, k: nat, t: nat, tries: nat)
    requires i < |builders| && k < |builders[i].hooks| && t <= tries
    ensures MoreAfter(builders, env, ws, i, k, t) <= MoreAfter(builders, env, ws, i, k, tries)
  {
    TimesGrows(t, tries, Calls(builders, i, k + 1));
  }

  lemma {:induction false} TimesGrows(a: nat, b: nat, n: nat)
    requires a <= b
    ensures a * n <= b * n
    decreases b
  {
    if a < b {
      TimesGrows(a, b - 1, n);
      assert b * n == (b - 1) * n + n;
    }
  }

  /** The front once builder `i` has built from `m`. */
  ghost function BuiltFront(f: Front, i: nat, m: AccountMutation): Front
    requires i < |f.own| == |f.slots| && m in f.fields
  {
    f.(own := f.own[i := m], slots := f.slots[i := Some(f.fields[m])])
  }

  lemma GoodStep(builders: seq<AccountCreate>, env: Env, f: Front, i: nat)
    requires FrontFits(builders, f) && i < |builders|
    ensures Good(builders, env, f, i) <==> Check(env, f.fields[f.own[i]]) == None && Good(builders, env, f, i + 1)
  {
  }

  /** Building from `m` leaves the ends, the targets and the later checks as they are. */
  lemma BuildingKeepsEnds(builders: seq<AccountCreate>, env: Env, f: Front, i: nat, m: AccountMutation)
    requires FrontFits(builders, f) && i + 1 < |builders| && m in f.fields && BuiltTo(f, i)
    requires Check(env, f.fields[f.own[i]]) == None
    ensures var g, k := BuiltFront(f, i, m), |builders[i].hooks|;
      && FrontFits(builders, g) && g.own[i+1] in g.fields && BuiltTo(g, i + 1)
      && (forall j :: i < j < |builders| ==>
            End(builders, g, i + 1, 0, g.own[i+1], j) == End(builders, f, i, k, m, j))
      && Targets(builders, g, i + 1, 0, g.own[i+1]) == Targets(builders, f, i, k, m)
      && (Good(builders, env, g, i + 1) <==> Good(builders, env, f, i))
  {
    var g, k := BuiltFront(f, i, m), |builders[i].hooks|;
    GoodStep(builders, env, f, i);
    assert forall j :: i < j < |builders| ==> g.own[j] == f.own[j];
    assert forall j :: i < j < |builders| ==>
      End(builders, g, i + 1, 0, g.own[i+1], j) == End(builders, f, i, k, m, j);
  }

  /** A mutator whose check passed, before the next builder's chain. */
  lemma MutatorWalks(p: Plan, f: Front, i: nat, m: AccountMutation, f': Front, err: Option<CreateError>)
    requires FrontFits(p.builders, f) && i + 1 < |p.builders| && m in f.fields && BuiltTo(f, i)
    requires Check(p.env, f.fields[f.own[i]]) == None
    requires var g := BuiltFront(f, i, m);
      && FrontFits(p.builders, g) && g.own[i+1] in g.fields && BuiltTo(g, i + 1)
      && Walked(p, g, i + 1, 0, g.own[i+1], f', err)
    ensures Walked(p, f, i, |p.builders[i].hooks|, m, f', err)
  {
    BuildingKeepsEnds(p.builders, p.env, f, i, m);
    GoodStep(p.builders, p.env, f', i);
  }

  /** The last mutator, which inserts. */
  lemma LastWalks(p: Plan, f: Front, m: AccountMutation, e: Event, err: Option<CreateError>)
    requires FrontFits(p.builders, f) && |p.builders| > 0 && m in f.fields && BuiltTo(f, |p.builders| - 1)
    requires Check(p.env, f.fields[f.own[|p.builders| - 1]]) == None
    requires var g := BuiltFront(f, |p.builders| - 1, m);
      e.Batch? && |e.specs| == |g.slots| && forall j :: 0 <= j < |g.slots| ==> g.slots[j] == Some(e.specs[j].fields)
    requires e.result == p.db(f.inserts, e.specs) && (err.Some? <==> e.result.NotInserted?)
    ensures var i := |p.builders| - 1; var g := BuiltFront(f, i, m);
      Walked(p, f, i, |p.builders[i].hooks|, m, g.(batches := g.batches + [e], inserts := g.inserts + 1), err)
  {
    var i := |p.builders| - 1;
    var g := BuiltFront(f, i, m);
    assert forall j :: 0 <= j < i ==> g.slots[j] == f.slots[j];
    assert (g.batches + [e])[|f.batches|] == e;
  }

  lemma ClosedMutatorWalks(p: Plan, f: Front, i: nat, m: AccountMutation, err: Option<CreateError>)
    requires FrontFits(p.builders, f) && i < |p.builders| && m in f.fields && BuiltTo(f, i)
    requires Check(p.env, f.fields[f.own[i]]).Some? && err.Some?
    ensures Walked(p, f, i, |p.builders[i].hooks|, m, f, err)
  {
    assert !Good(p.builders, p.env, f, i);
  }

  // ----------------------------------------------------------- the run is a walk

  /** States that differ in the trace, the nodes and the specs' ids only. */
  lemma SameFront(p: Plan, a: State, b: State)
    requires Covers(p, a) && Covers(p, b) && a.current == b.current && a.muts == b.muts
    requires |a.specs| == |b.specs| && forall j :: 0 <= j < |a.specs| ==> SameSlot(a.specs[j], b.specs[j])
    ensures var f, g := FrontOf(p, a), FrontOf(p, b); f.own == g.own && f.fields == g.fields && f.slots == g.slots
  {
  }

  lemma FrontLog(p: Plan, s: State, e: Event)
    requires Covers(p, s) && !e.Batch?
    ensures Covers(p, s.Log(e)) && FrontOf(p, s.Log(e)) == FrontOf(p, s)
  {
    BatchesLog(s.trace, e);
    SameFront(p, s.Log(e), s);
  }

  lemma FrontBuild(p: Plan, s: State, i: nat, m: AccountMutation)
    requires Covers(p, s) && i < |p.builders| && m in s.muts && Distinct(p.builders)
    ensures Covers(p, Build(p, s, i, m)) && FrontOf(p, Build(p, s, i, m)) == BuiltFront(FrontOf(p, s), i, m)
  {
    var fields := s.muts[m].fields;
    BatchesLog(s.trace, Built(i, NewSpec(fields)));
    var f, g := FrontOf(p, Build(p, s, i, m)), BuiltFront(FrontOf(p, s), i, m);
    assert f.own == g.own && f.slots == g.slots;
  }

  lemma FrontFinish(p: Plan, s: State, i: nat, m: AccountMutation)
    requires Covers(p, s) && i < |p.builders| && m in s.muts && s.nodes[i].Some? && s.specs[i].Some?
    ensures Covers(p, Finish(s, i, m)) && FrontOf(p, Finish(s, i, m)) == FrontOf(p, s)
  {
    BatchesLog(s.trace, Done(i));
    var f, g := FrontOf(p, Finish(s, i, m)), FrontOf(p, s);
    assert f.own == g.own && f.fields == g.fields;
  }

  lemma InsertAdds(p: Plan, s: State)
    requires BuiltBelow(s, |s.specs|)
    ensures var r, e := Insert(p, s), Batch(AllSpecs(s), p.db(s.inserts, AllSpecs(s)));
      && r.state.trace == s.trace + [e] && r.state.inserts == s.inserts + 1
      && r.state.current == s.current && r.state.muts == s.muts && |r.state.nodes| == |s.nodes|
      && (r.err.Some? <==> e.result.NotInserted?)
      && |r.state.specs| == |s.specs| && forall j :: 0 <= j < |s.specs| ==> SameSlot(r.state.specs[j], s.specs[j])
  {
  }

  lemma FrontInsert(p: Plan, s: State)
    requires Covers(p, s) && BuiltBelow(s, |s.specs|) && Covers(p, Insert(p, s).state)
    ensures var r, e := Insert(p, s), Batch(AllSpecs(s), p.db(s.inserts, AllSpecs(s)));
      FrontOf(p, r.state) == FrontOf(p, s).(batches := FrontOf(p, s).batches + [e], inserts := s.inserts + 1)
  {
    InsertAdds(p, s);
    BatchesLog(s.trace, Batch(AllSpecs(s), p.db(s.inserts, AllSpecs(s))));
    SameFront(p, Insert(p, s).state, s);
  }

  /** The call of hook `k` of builder `i` is a walk. */
  lemma {:induction false} ChainWalks(p: Plan, s: State, i: nat, k: nat, m: AccountMutation)
    requires i < |p.builders| && k <= |p.builders[i].hooks| && NoEdit(p.builders) && Distinct(p.builders)
    requires Covers(p, s) && m in s.muts && BuiltBelow(s, i)
    ensures var r := Run(p, s, i, k, m);
      BuiltTo(FrontOf(p, s), i) && Walked(p, FrontOf(p, s), i, k, m, FrontOf(p, r.state), r.err)
    decreases |p.builders| - i, |p.builders[i].hooks| - k, 2, 0
  {
    if k < |p.builders[i].hooks| {
      var s0 := s.Log(Enter(i, k));
      FrontLog(p, s, Enter(i, k));
      HookIsWalk(p, s0, i, k, m);
      FrontLog(p, RunHook(p, s0, i, k, m).state, Exit(i, k));
    } else {
      MutatorIsWalk(p, s, i, m);
    }
  }

  lemma {:induction false} HookIsWalk(p: Plan, s: State, i: nat, k: nat, m: AccountMutation)
    requires i < |p.builders| && k < |p.builders[i].hooks| && NoEdit(p.builders) && Distinct(p.builders)
    requires Covers(p, s) && m in s.muts && BuiltBelow(s, i)
    ensures var r := RunHook(p, s, i, k, m);
      BuiltTo(FrontOf(p, s), i) && Walked(p, FrontOf(p, s), i, k, m, FrontOf(p, r.state), r.err)
    decreases |p.builders| - i, |p.builders[i].hooks| - k, 1, 0
  {
    var h, f := p.builders[i].hooks[k], FrontOf(p, s);
    assert BuiltTo(f, i);
    if Blocks(h) {
      BlockedWalk(p, f, i, k, m, RunHook(p, s, i, k, m).err);
    } else {
      HandedOnIsCovered(p, s, i, k, m);
      var m' := HandedOn(m, h);
      assert Edited(s, m, h) == s;
      ChainWalks(p, s, i, k + 1, m');
      var r := Run(p, s, i, k + 1, m');
      var f1 := FrontOf(p, r.state);
      if Tries(h) == 0 {
        RunHookOnce(p, s, i, k, m);
        HookWalks(p, f, i, k, m, f1, r.err);
      } else {
        FirstTry(p, f, i, k, m', f1, r.err);
        var os := Answers(p, r.state, i, k, m', Tries(h), r.err);
        AnswersAreTries(p, i, k, m', os);
        var ts := TriesOf(p, os);
        TriesCount(p, f, i, k, m', ts, |ts| - 1);
        LastTry(p, f, i, k, m', |ts| - 1, ts[|ts| - 1].front, ts[|ts| - 1].err);
      }
    }
  }

  /** One call of the next mutator, and its answer. */
  datatype Try = Try(front: Front, err: Option<CreateError>)

  ghost predicate NextTry(p: Plan, i: nat, k: nat, m: AccountMutation, a: Try, b: Try)
    requires i < |p.builders| && k < |p.builders[i].hooks|
  {
    && CallsAgain(p.builders[i].hooks[k], a.err)
    && FrontFits(p.builders, a.front) && m in a.front.fields && BuiltTo(a.front, i)
    && Walked(p, a.front, i, k + 1, m, b.front, b.err)
  }

  /** The calls of a hook one after the other, each a walk. */
  ghost predicate Retries(p: Plan, i: nat, k: nat, m: AccountMutation, ts: seq<Try>)
    requires i < |p.builders| && k < |p.builders[i].hooks|
  {
    forall t :: 0 < t < |ts| ==> NextTry(p, i, k, m, ts[t-1], ts[t])
  }

  ghost predicate Callable(p: Plan, s: State, i: nat, m: AccountMutation) {
    i < |p.builders| && Covers(p, s) && m in s.muts && BuiltBelow(s, i)
  }

  /** The hook calls again after `a`, and `b` is what comes of it. */
  ghost predicate Follows(p: Plan, i: nat, k: nat, m: AccountMutation, a: Outcome, b: Outcome)
    requires i < |p.builders| && k < |p.builders[i].hooks|
  {
    && Callable(p, a.state, i, m) && CallsAgain(p.builders[i].hooks[k], a.err)
    && b == Run(p, a.state, i, k + 1, m)
  }

  /** The answers to a hook's calls, from one after which it has `left` calls left. */
  lemma {:induction false} Answers(p: Plan, s: State, i: nat, k: nat, m: AccountMutation, left: nat,
                                   err: Option<CreateError>)
      returns (os: seq<Outcome>)
    requires i < |p.builders| && k < |p.builders[i].hooks| && Callable(p, s, i, m)
    ensures 0 < |os| <= left + 1 && os[0] == Outcome(s, err)
    ensures forall t :: 0 <= t < |os| ==> Covers(p, os[t].state)
    ensures forall t :: 0 < t < |os| ==> Follows(p, i, k, m, os[t-1], os[t])
    ensures os[|os| - 1] == RunAgain(p, s, i, k, m, left, err)
    ensures |os| == left + 1 || !CallsAgain(p.builders[i].hooks[k], os[|os| - 1].err)
    decreases left
  {
    os := [Outcome(s, err)];
    if left > 0 && CallsAgain(p.builders[i].hooks[k], err) {
      RunAgainStep(p, s, i, k, m, left, err);
      var r := Run(p, s, i, k + 1, m);
      var rest := Answers(p, r.state, i, k, m, left - 1, r.err);
      os := os + rest;
      forall t | 0 < t < |os|
        ensures Follows(p, i, k, m, os[t-1], os[t])
      {
        if t > 1 {
          assert Follows(p, i, k, m, rest[t-2], rest[t-1]);
        }
      }
    }
  }

  ghost function TryOf(p: Plan, o: Outcome): Try
    requires Covers(p, o.state)
  {
    Try(FrontOf(p, o.state), o.err)
  }

  ghost function TriesOf(p: Plan, os: seq<Outcome>): (ts: seq<Try>)
    requires forall t :: 0 <= t < |os| ==> Covers(p, os[t].state)
    ensures |ts| == |os| && forall t :: 0 <= t < |os| ==> ts[t] == TryOf(p, os[t])
  {
    seq(|os|, t requires 0 <= t < |os| => TryOf(p, os[t]))
  }

  /** Each of the calls is a walk. */
  lemma {:induction false} AnswersAreTries(p: Plan, i: nat, k: nat, m: AccountMutation, os: seq<Outcome>)
    requires i < |p.builders| && k < |p.builders[i].hooks| && NoEdit(p.builders) && Distinct(p.builders)
    requires forall t :: 0 <= t < |os| ==> Covers(p, os[t].state)
    requires forall t :: 0 < t < |os| ==> Follows(p, i, k, m, os[t-1], os[t])
    ensures Retries(p, i, k, m, TriesOf(p, os))
    decreases |p.builders| - i, |p.builders[i].hooks| - k, 0, 1
  {
    var ts := TriesOf(p, os);
    forall t | 0 < t < |ts|
      ensures NextTry(p, i, k, m, ts[t-1], ts[t])
    {
      AnswerIsTry(p, i, k, m, os[t-1], os[t]);
    }
  }

  lemma {:induction false} AnswerIsTry(p: Plan, i: nat, k: nat, m: AccountMutation, a: Outcome, b: Outcome)
    requires i < |p.builders| && k < |p.builders[i].hooks| && NoEdit(p.builders) && Distinct(p.builders)
    requires Follows(p, i, k, m, a, b)
    ensures Covers(p, b.state) && NextTry(p, i, k, m, TryOf(p, a), TryOf(p, b))
    decreases |p.builders| - i, |p.builders[i].hooks| - k, 0, 0
  {
    ChainWalks(p, a.state, i, k + 1, m);
  }

  lemma {:induction false} TriesCount(p: Plan, f: Front, i: nat, k: nat, m: AccountMutation, ts: seq<Try>, t: nat)
    requires FrontFits(p.builders, f) && i < |p.builders| && k < |p.builders[i].hooks| && m in f.fields && BuiltTo(f, i)
    requires t < |ts| <= Tries(p.builders[i].hooks[k]) + 1 && Retries(p, i, k, m, ts)
    requires Tried(p, f, i, k, m, 0, ts[0].front, ts[0].err)
    ensures Tried(p, f, i, k, m, t, ts[t].front, ts[t].err)
  {
    if t > 0 {
      TriesCount(p, f, i, k, m, ts, t - 1);
      assert NextTry(p, i, k, m, ts[t-1], ts[t]);
      OneMoreTry(p, f, i, k, m, t - 1, ts[t-1].front, ts[t-1].err, ts[t].front, ts[t].err);
    }
  }

  lemma {:induction false} MutatorIsWalk(p: Plan, s: State, i: nat, m: AccountMutation)
    requires i < |p.builders| && NoEdit(p.builders) && Distinct(p.builders)
    requires Covers(p, s) && m in s.muts && BuiltBelow(s, i)
    ensures var r := RunMutator(p, s, i, m); var k := |p.builders[i].hooks|;
      BuiltTo(FrontOf(p, s), i) && Walked(p, FrontOf(p, s), i, k, m, FrontOf(p, r.state), r.err)
    decreases |p.builders| - i, 0, 1, 0
  {
    var f, own := FrontOf(p, s), MutationOf(p, s, i);
    assert BuiltTo(f, i) && f.own[i] == own;
    var fields := s.muts[own].fields;
    var s0 := s.Log(Checked(i, fields, Check(p.env, fields).None?));
    FrontLog(p, s, Checked(i, fields, Check(p.env, fields).None?));
    if Check(p.env, fields).Some? {
      ClosedMutatorWalks(p, f, i, m, Check(p.env, fields));
    } else {
      FrontBuild(p, s0, i, m);
      var b := Build(p, s0, i, m);
      assert Begin(p, s, i, m) == Outcome(b, None);
      NextIsWalk(p, b, i, f, m);
      var r := RunNext(p, b, i);
      if r.err == None {
        FrontFinish(p, r.state, i, m);
      }
    }
  }

  lemma {:induction false} NextIsWalk(p: Plan, b: State, i: nat, f: Front, m: AccountMutation)
    requires i < |p.builders| && NoEdit(p.builders) && Distinct(p.builders)
    requires Covers(p, b) && BuiltBelow(b, i + 1)
    requires FrontFits(p.builders, f) && m in f.fields && BuiltTo(f, i) && FrontOf(p, b) == BuiltFront(f, i, m)
    requires Check(p.env, f.fields[f.own[i]]) == None
    ensures var r := RunNext(p, b, i);
      Walked(p, f, i, |p.builders[i].hooks|, m, FrontOf(p, r.state), r.err)
    decreases |p.builders| - i - 1, 1 + (if i + 1 < |p.builders| then |p.builders[i+1].hooks| else 0), 0, 0
  {
    if i + 1 == |p.builders| {
      InsertAdds(p, b);
      FrontInsert(p, b);
      LastWalks(p, f, m, Batch(AllSpecs(b), p.db(b.inserts, AllSpecs(b))), Insert(p, b).err);
    } else {
      var next := MutationOf(p, b, i + 1);
      ChainWalks(p, b, i + 1, 0, next);
      var r := Run(p, b, i + 1, 0, next);
      MutatorWalks(p, f, i, m, FrontOf(p, r.state), r.err);
    }
  }
}
