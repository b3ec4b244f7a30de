/** What a run of calls leaves a builder with, told by the calls: the last limit, offset, path and uniqueness,
    the columns selected since the last grouping, and for every edge the last With call on it. */
module BuilderCalls {
  import opened Sequences
  import opened QueryBuilder

  // ------------------------------------------------------------ what a call gives

  function LimitIn(op: Op): Option<int> {
    if op.On? && op.op.Limit? then Some(op.op.n) else None
  }

  function OffsetIn(op: Op): Option<int> {
    if op.On? && op.op.Offset? then Some(op.op.n) else None
  }

  function PathIn(op: Op): Option<Step> {
    if op.On? && op.op.Traverse? then Some(op.op.path) else None
  }

  /** On Postgres a lock gives a uniqueness too. */
  function UniqueIn(postgres: bool): Op -> Option<bool> {
    (op: Op) =>
      if op.On? && op.op.Unique? then Some(op.op.b)
      else if op.On? && op.op.Lock? && postgres then Some(false)
      else None
  }

  /** The columns a grouping starts over with. */
  function GroupingIn(op: Op): Option<seq<string>> {
    if op.On? && op.op.GroupBy? then Some([op.op.field] + op.op.more) else None
  }

  /** The options of a With call on this edge. */
  function OptionsIn(edge: Edge): Op -> Option<seq<Op>> {
    (op: Op) => if op.With? && op.edge == edge then Some(op.calls) else None
  }

  /** The last of the calls below `n` that gives something, or their number. */
  function LastGiving<T>(given: Op -> Option<T>, ops: seq<Op>, n: nat): (k: nat)
    requires n <= |ops|
    ensures k <= n
    ensures k < n ==> given(ops[k]).Some? && forall j :: k < j < n ==> given(ops[j]).None?
    ensures k == n ==> forall j :: 0 <= j < n ==> given(ops[j]).None?
  {
    if n == 0 then 0
    else if given(ops[n-1]).Some? then n - 1
    else
      var k := LastGiving(given, ops, n - 1);
      if k == n - 1 then n else k
  }

  function LastGiven<T>(given: Op -> Option<T>, ops: seq<Op>, n: nat, before: Option<T>): Option<T>
    requires n <= |ops|
  {
    var k := LastGiving(given, ops, n);
    if k == n then before else given(ops[k])
  }

  lemma LastGivenStep<T>(given: Op -> Option<T>, ops: seq<Op>, n: nat, before: Option<T>)
    requires 0 < n <= |ops|
    ensures LastGiven(given, ops, n, before)
         == if given(ops[n-1]).Some? then given(ops[n-1]) else LastGiven(given, ops, n - 1, before)
  {
  }

  function SelectsOf(op: Op): seq<string> {
    if op.On? && op.op.Select? then op.op.fields else []
  }

  /** The columns selected by the calls from `from` up to `n`. */
  function Selects(ops: seq<Op>, from: nat, n: nat): seq<string>
    requires n <= |ops|
  {
    if n <= from then []
    else Selects(ops, from, n - 1) + SelectsOf(ops[n-1])
  }

  /** The modifiers added by the calls below `n`. */
  function Modifiers(ops: seq<Op>, n: nat): seq<Step>
    requires n <= |ops|
  {
    if n == 0 then []
    else Modifiers(ops, n - 1) + if ops[n-1].On? && ops[n-1].op.Lock? then [ops[n-1].op.modifier] else []
  }

  // ------------------------------------------------------------------ one builder

  /** The last call decides the limit, and likewise the offset and the path; without such a call each stays as
      it was. The uniqueness is that of the last Unique call or, on Postgres, of the last lock if that is later. */
  lemma {:induction false} LastCallDecides(c: Config, v: View, ops: seq<Op>, n: nat)
    requires n <= |ops|
    ensures var r := AfterAll(c, v, ops, n).steps;
      && r.limit == LastGiven(LimitIn, ops, n, v.steps.limit)
      && r.offset == LastGiven(OffsetIn, ops, n, v.steps.offset)
      && r.path == LastGiven(PathIn, ops, n, v.steps.path)
      && r.unique == LastGiven(UniqueIn(c.postgres), ops, n, v.steps.unique)
      && r.modifiers == v.steps.modifiers + Modifiers(ops, n)
  {
    if n > 0 {
      LastCallDecides(c, v, ops, n - 1);
      LastGivenStep(LimitIn, ops, n, v.steps.limit);
      LastGivenStep(OffsetIn, ops, n, v.steps.offset);
      LastGivenStep(PathIn, ops, n, v.steps.path);
      LastGivenStep(UniqueIn(c.postgres), ops, n, v.steps.unique);
      CallDecides(c, AfterAll(c, v, ops, n - 1), ops[n-1]);
    }
  }

  lemma CallDecides(c: Config, v: View, op: Op)
    ensures var r := After(c, v, op).steps;
      && r.limit == (if LimitIn(op).Some? then LimitIn(op) else v.steps.limit)
      && r.offset == (if OffsetIn(op).Some? then OffsetIn(op) else v.steps.offset)
      && r.path == (if PathIn(op).Some? then PathIn(op) else v.steps.path)
      && r.unique == (if UniqueIn(c.postgres)(op).Some? then UniqueIn(c.postgres)(op) else v.steps.unique)
      && r.modifiers == v.steps.modifiers + (if op.On? && op.op.Lock? then [op.op.modifier] else [])
  {
  }

  /** The columns of the last grouping, or those before the run if there is none, with the columns of all later
      Select calls appended in order. */
  function ColumnsSince(before: seq<string>, ops: seq<Op>, n: nat): seq<string>
    requires n <= |ops|
  {
    var k := LastGiving(GroupingIn, ops, n);
    if k == n then before + Selects(ops, 0, n) else GroupingIn(ops[k]).value + Selects(ops, k + 1, n)
  }

  lemma ColumnsStep(before: seq<string>, ops: seq<Op>, n: nat)
    requires 0 < n <= |ops|
    ensures ColumnsSince(before, ops, n)
         == if ops[n-1].On? && ops[n-1].op.GroupBy? then [ops[n-1].op.field] + ops[n-1].op.more
            else ColumnsSince(before, ops, n - 1) + SelectsOf(ops[n-1])
  {
    var k := LastGiving(GroupingIn, ops, n);
    if k < n - 1 {
      Regroup(GroupingIn(ops[k]).value, Selects(ops, k + 1, n - 1), SelectsOf(ops[n-1]));
    } else if k == n {
      Regroup(before, Selects(ops, 0, n - 1), SelectsOf(ops[n-1]));
    }
  }

  lemma Regroup<T>(a: seq<T>, b: seq<T>, c: seq<T>)
    ensures a + b + c == a + (b + c)
  {
  }

  lemma {:induction false} SelectedColumnsAre(c: Config, v: View, ops: seq<Op>, n: nat)
    requires n <= |ops|
    ensures AfterAll(c, v, ops, n).steps.fields == ColumnsSince(v.steps.fields, ops, n)
  {
    if n > 0 {
      SelectedColumnsAre(c, v, ops, n - 1);
      CallSelects(c, AfterAll(c, v, ops, n - 1), ops[n-1]);
      ColumnsStep(v.steps.fields, ops, n);
    }
  }

  lemma CallSelects(c: Config, v: View, op: Op)
    ensures After(c, v, op).steps.fields
         == if op.On? && op.op.GroupBy? then [op.op.field] + op.op.more
            else v.steps.fields + SelectsOf(op)
  {
  }

  function PartsOf(op: Op): seq<Step> {
    if op.On? && op.op.Compose? then op.op.parts else []
  }

  /** What adds to the intermediate query, from the call that prepared it on. */
  function Composed(ops: seq<Op>, from: nat, n: nat): seq<Step>
    requires n <= |ops|
  {
    if n <= from then []
    else Composed(ops, from, n - 1) + PartsOf(ops[n-1])
  }

  /** The call at `k` prepares the intermediate query: by then the builder has a path. */
  predicate Prepares(v: View, ops: seq<Op>, k: nat)
    requires k < |ops|
  {
    ops[k].On? && ops[k].op.Prepare? && LastGiven(PathIn, ops, k, v.steps.path).Some?
  }

  /** The last of the calls below `n` that prepares, or their number. */
  function LastPreparing(v: View, ops: seq<Op>, n: nat): (k: nat)
    requires n <= |ops|
    ensures k <= n
    ensures k < n ==> Prepares(v, ops, k) && forall j :: k < j < n ==> !Prepares(v, ops, j)
    ensures k == n ==> forall j :: 0 <= j < n ==> !Prepares(v, ops, j)
  {
    if n == 0 then 0
    else if Prepares(v, ops, n - 1) then n - 1
    else
      var k := LastPreparing(v, ops, n - 1);
      if k == n - 1 then n else k
  }

  /** What the last preparation on a path left, with all later parts; a builder that has no intermediate query
      gets none from parts alone. */
  function QuerySince(v: View, ops: seq<Op>, n: nat): Option<seq<Step>>
    requires n <= |ops|
  {
    var k := LastPreparing(v, ops, n);
    if k < n then Some([ops[k].op.from] + Composed(ops, k + 1, n))
    else if v.steps.sql == None then None
    else Some(v.steps.sql.value + Composed(ops, 0, n))
  }

  lemma QueryStep(v: View, ops: seq<Op>, n: nat)
    requires 0 < n <= |ops|
    ensures var before := QuerySince(v, ops, n - 1);
      QuerySince(v, ops, n)
        == if Prepares(v, ops, n - 1) then Some([ops[n-1].op.from])
           else if before == None then None else Some(before.value + PartsOf(ops[n-1]))
  {
    var k := LastPreparing(v, ops, n);
    if k < n - 1 {
      Regroup([ops[k].op.from], Composed(ops, k + 1, n - 1), PartsOf(ops[n-1]));
    } else if k == n - 1 {
      assert [ops[k].op.from] + [] == [ops[k].op.from];
    } else if k == n && v.steps.sql.Some? {
      Regroup(v.steps.sql.value, Composed(ops, 0, n - 1), PartsOf(ops[n-1]));
    }
  }

  lemma {:induction false} IntermediateQueryIs(c: Config, v: View, ops: seq<Op>, n: nat)
    requires n <= |ops|
    ensures AfterAll(c, v, ops, n).steps.sql == QuerySince(v, ops, n)
  {
    if n > 0 {
      IntermediateQueryIs(c, v, ops, n - 1);
      LastCallDecides(c, v, ops, n - 1);
      CallComposes(c, AfterAll(c, v, ops, n - 1), ops[n-1]);
      QueryStep(v, ops, n);
    } else if v.steps.sql.Some? {
      assert v.steps.sql.value + [] == v.steps.sql.value;
    }
  }

  lemma CallComposes(c: Config, v: View, op: Op)
    ensures After(c, v, op).steps.sql
         == if op.On? && op.op.Prepare? && v.steps.path.Some? then Some([op.op.from])
            else if v.steps.sql == None then None
            else Some(v.steps.sql.value + PartsOf(op))
  {
    if v.steps.sql.Some? {
      assert v.steps.sql.value + [] == v.steps.sql.value;
    }
  }

  // --------------------------------------------------------------------- the edges

  /** The builder at an edge is made by the last With call on it: new, with the interceptors its client has for
      the entity at the edge, and then configured by the options of that call alone. */
  lemma {:induction false} LastWithDecides(c: Config, v: View, ops: seq<Op>, n: nat, edge: Edge)
    requires n <= |ops|
    ensures var k, r := LastGiving(OptionsIn(edge), ops, n), AfterAll(c, v, ops, n).edges;
      Get(r, edge)
        == if k == n then Get(v.edges, edge)
           else Some(Run(c, View(NewSteps(c, edge.Target()), map[]), ops[k].calls))
  {
    if n > 0 {
      LastWithDecides(c, v, ops, n - 1, edge);
      CallAttaches(c, AfterAll(c, v, ops, n - 1), ops[n-1], edge);
    }
  }

  lemma CallAttaches(c: Config, v: View, op: Op, edge: Edge)
    ensures Get(After(c, v, op).edges, edge)
         == if OptionsIn(edge)(op).Some? then Some(Run(c, NewQuery(c, edge.Target()), op.calls))
            else Get(v.edges, edge)
  {
  }

  /** A new builder with nothing but the interceptors of its entity. */
  lemma NewIsBare(c: Config, entity: Entity)
    ensures var v := NewQuery(c, entity);
      && v.steps.inters == c.inters(entity) && v.edges == map[]
      && v.steps.fields == [] && v.steps.order == v.steps.predicates == v.steps.modifiers == []
      && v.steps.limit == v.steps.offset == v.steps.path == None && v.steps.unique == None && v.steps.sql == None
  {
  }

  /** What a With call leaves at the edges of accounts: the interceptors are those of the neighbours' entity,
      whatever the options are. */
  lemma WithIntercepts(c: Config, v: View, edge: Edge, calls: seq<Op>)
    ensures var r := After(c, v, With(edge, calls));
      && edge in r.edges
      && (edge == Groups ==> r.edges[edge].steps.inters == c.inters(GroupEntity))
      && (edge == Proxy ==> r.edges[edge].steps.inters == c.inters(ProxyEntity))
      && (edge == Parent || edge == Children ==> r.edges[edge].steps.inters == c.inters(AccountEntity))
      && (edge == UsageLogs ==> r.edges[edge].steps.inters == c.inters(UsageLogEntity))
      && (edge == AccountGroups ==> r.edges[edge].steps.inters == c.inters(AccountGroupEntity))
      && r.steps == v.steps
  {
    StepsAccumulate(c, NewQuery(c, edge.Target()), calls, |calls|);
  }
}
