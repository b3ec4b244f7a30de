/** Running a whole query again: a run leaves its predicates and foreign keys in the builders of the edges, at
    every level; over an unchanged database the next run of the same query finds the same all the same. */
module WholeRerun {
  import opened Sequences
  import opened AccountEntity
  import opened EagerSpec
  import opened EagerLaws
  import opened LazyLoading
  import opened EagerLimit
  import opened EdgeLimits
  import opened EagerRerun
  import opened Tables

  // ------------------------------------------------------------ spent builders

  /** A builder of accounts that keeps the predicate of its last run. */
  function Narrowed(q: Query, f: InFilter): (r: Query)
    ensures Depth(r) == Depth(q)
  {
    q.(fetch := (g: InFilter) => TableRows(q.fetch(g), f))
  }

  function SpentProxy(p: ProxyQuery, ids: seq<int>): ProxyQuery {
    p.(fetch := (more: seq<int>) => Kept(ProxyKeys(p.fetch(more)), p.fetch(more), ids))
  }

  function SpentLogs(u: UsageLogQuery, ids: seq<int>): UsageLogQuery {
    u.(fields := SelectAlso(u.fields, "account_id"),
       fetch := (more: seq<int>) => Kept(UsageLogKeys(u.fetch(more)), u.fetch(more), ids))
  }

  function SpentAccountGroups(a: AccountGroupQuery, ids: seq<int>): AccountGroupQuery {
    a.(fields := SelectAlso(a.fields, "account_id"),
       fetch := (more: seq<int>) => Kept(AccountGroupKeys(a.fetch(more)), a.fetch(more), ids))
  }

  /** The same columns selected and the same edges requested. */
  ghost predicate SameShape(q: Query, r: Query) {
    r.fields == q.fields && r.withGroups == q.withGroups && Requested(r) == Requested(q)
  }

  lemma SameShapeSameColumns(q: Query, r: Query)
    requires SameShape(q, r)
    ensures SpecColumns(r) == SpecColumns(q)
  {
    assert Requested(r)[1] == Requested(q)[1] && Requested(r)[2] == Requested(q)[2];
  }

  /** The query and its edges after a run with one added filter that went through. */
  function Spent(q: Query, f: InFilter): (r: Query)
    ensures Depth(r) == Depth(q) && r.fetch == Narrowed(q, f).fetch && SameShape(q, r)
    decreases Depth(q), 1
  {
    if q.fetch(f) == [] then Narrowed(q, f)
    else SpentEdges(Narrowed(q, f), Entities(SpecColumns(q), q.fetch(f)))
  }

  function SpentEdges(q: Query, es: seq<Entity>): (r: Query)
    ensures Depth(r) == Depth(q) && r.fetch == q.fetch && SameShape(q, r)
    decreases Depth(q), 0
  {
    q.(withProxy :=
         match q.withProxy
         case None => None
         case Some(p) =>
           var ids := Wanted(ForeignKeys(es, ProxyID));
           Some(if ids == [] then p else SpentProxy(p, ids)),
       withParent :=
         match q.withParent
         case None => None
         case Some(p) =>
           var ids := Wanted(ForeignKeys(es, ParentAccountID));
           Some(if ids == [] then p else Spent(p, IDIn(ids))),
       withChildren :=
         match q.withChildren
         case None => None
         case Some(c) => Some(Spent(WithForeignKey(c), ParentIn(IDs(es)))),
       withUsageLogs :=
         match q.withUsageLogs
         case None => None
         case Some(u) => Some(SpentLogs(u, IDs(es))),
       withAccountGroups :=
         match q.withAccountGroups
         case None => None
         case Some(a) => Some(SpentAccountGroups(a, IDs(es))))
  }

  /** No groups are requested, at any level. */
  predicate NoGroups(q: Query)
    decreases Depth(q)
  {
    && q.withGroups.None?
    && (q.withParent.Some? ==> NoGroups(q.withParent.value))
    && (q.withChildren.Some? ==> NoGroups(q.withChildren.value))
  }

  // ------------------------------------------------------------------- kept rows

  /** Filtering for keys that all rows have keeps all rows. */
  lemma {:induction false} KeptAll<T>(keys: seq<Option<int>>, rows: seq<T>, ids: seq<int>)
    requires |keys| == |rows| && forall k :: 0 <= k < |keys| ==> keys[k].Some? && keys[k].value in ids
    ensures Kept(keys, rows, ids) == rows
  {
    if rows != [] {
      var n := |rows| - 1;
      KeptAll(keys[..n], rows[..n], ids);
      assert rows == rows[..n] + [rows[n]];
    }
  }

  lemma AdmittedRows(rows: seq<Row>, f: InFilter)
    requires forall r :: r in rows ==> Admits(f, r)
    ensures TableRows(rows, f) == rows
  {
    assert forall i :: 0 <= i < |rows| ==> Admits(f, rows[i]);
    match f
    case Everything =>
    case IDIn(ids) => KeptAll(IDKeys(rows), rows, ids);
    case ParentIn(fks) => KeptAll(RowKeys(rows, ParentAccountID), rows, fks);
  }

  // ------------------------------------------------------------------ edge by edge

  lemma SelectAlsoTwice<T>(fields: seq<T>, x: T)
    ensures SelectAlso(SelectAlso(fields, x), x) == SelectAlso(fields, x)
  {
  }

  lemma ProxyAgain(p: ProxyQuery, fks: seq<Option<int>>)
    requires forall n :: n in p.fetch(Wanted(fks)) ==> n.ID in Wanted(fks)
    ensures JoinProxy(SpentProxy(p, Wanted(fks)), fks) == JoinProxy(p, fks)
  {
    var rows := p.fetch(Wanted(fks));
    assert forall i :: 0 <= i < |rows| ==> rows[i] in rows;
    KeptAll(ProxyKeys(rows), rows, Wanted(fks));
    assert Proxies(SpentProxy(p, Wanted(fks)), Wanted(fks)) == Proxies(p, Wanted(fks));
  }

  lemma LogsAgain(u: UsageLogQuery, ids: seq<int>)
    requires forall n :: n in u.fetch(ids) ==> n.AccountID in ids
    ensures JoinUsageLogs(SpentLogs(u, ids), ids) == JoinUsageLogs(u, ids)
  {
    var rows := u.fetch(ids);
    assert forall i :: 0 <= i < |rows| ==> rows[i] in rows;
    KeptAll(UsageLogKeys(rows), rows, ids);
    SelectAlsoTwice(u.fields, "account_id");
  }

  lemma AccountGroupsAgain(a: AccountGroupQuery, ids: seq<int>)
    requires forall n :: n in a.fetch(ids) ==> n.AccountID in ids
    ensures JoinAccountGroups(SpentAccountGroups(a, ids), ids) == JoinAccountGroups(a, ids)
  {
    var rows := a.fetch(ids);
    assert forall i :: 0 <= i < |rows| ==> rows[i] in rows;
    KeptAll(AccountGroupKeys(rows), rows, ids);
    SelectAlsoTwice(a.fields, "account_id");
  }

  lemma {:induction false} ParentsAgain(p: Query, fks: seq<Option<int>>)
    requires Sound(p) && NoGroups(p)
    ensures var ids := Wanted(fks);
      EvalParents(if ids == [] then p else Spent(p, IDIn(ids)), fks) == EvalParents(p, fks)
    decreases Depth(p), 2
  {
    if Wanted(fks) != [] {
      RunsAgain(p, IDIn(Wanted(fks)));
    }
  }

  lemma {:induction false} ChildrenAgain(c: Query, ids: seq<int>)
    requires Sound(c) && NoGroups(c)
    ensures EvalChildren(Spent(WithForeignKey(c), ParentIn(ids)), ids) == EvalChildren(c, ids)
    decreases Depth(c), 2
  {
    var d := WithForeignKey(c);
    SoundWithForeignKey(c);
    RunsAgain(d, ParentIn(ids));
    SelectAlsoTwice(c.fields, ParentAccountID);
    assert WithForeignKey(Spent(d, ParentIn(ids))) == Spent(d, ParentIn(ids));
  }

  lemma {:induction false} EdgesAgain(q: Query, f: InFilter, es: seq<Entity>)
    requires Sound(q) && NoGroups(q)
    ensures Joined(SpentEdges(Narrowed(q, f), es), es) == Joined(q, es)
    decreases Depth(q), 0
  {
    var r := SpentEdges(Narrowed(q, f), es);
    assert ProxyEdge(r, es) == ProxyEdge(q, es) by {
      if q.withProxy.Some? { ProxyAgain(q.withProxy.value, ForeignKeys(es, ProxyID)); }
    }
    assert ParentEdge(r, es) == ParentEdge(q, es) by {
      if q.withParent.Some? { ParentsAgain(q.withParent.value, ForeignKeys(es, ParentAccountID)); }
    }
    assert ChildrenEdge(r, es) == ChildrenEdge(q, es) by {
      if q.withChildren.Some? { ChildrenAgain(q.withChildren.value, IDs(es)); }
    }
    assert UsageLogsEdge(r, es) == UsageLogsEdge(q, es) by {
      if q.withUsageLogs.Some? { LogsAgain(q.withUsageLogs.value, IDs(es)); }
    }
    assert AccountGroupsEdge(r, es) == AccountGroupsEdge(q, es) by {
      if q.withAccountGroups.Some? { AccountGroupsAgain(q.withAccountGroups.value, IDs(es)); }
    }
    SameEdgesSameTrees(q, r, es);
  }

  lemma SameEdgesSameTrees(q: Query, r: Query, es: seq<Entity>)
    requires SameShape(q, r)
    requires ProxyEdge(r, es) == ProxyEdge(q, es) && ParentEdge(r, es) == ParentEdge(q, es)
    requires ChildrenEdge(r, es) == ChildrenEdge(q, es) && UsageLogsEdge(r, es) == UsageLogsEdge(q, es)
    requires AccountGroupsEdge(r, es) == AccountGroupsEdge(q, es)
    ensures Joined(r, es) == Joined(q, es)
  {
    assert GroupsEdge(r, es) == GroupsEdge(q, es);
  }

  /** Running a query without groups again gives the same trees, at every level: each edge's query is asked
      for the same nodes as before, so the predicates left in its builder take nothing away. */
  lemma {:induction false} RunsAgain(q: Query, f: InFilter)
    requires Sound(q) && NoGroups(q)
    ensures Eval(Spent(q, f), f) == Eval(q, f)
    decreases Depth(q), 1
  {
    AdmittedRows(q.fetch(f), f);
    var r := Spent(q, f);
    assert r.fetch(f) == q.fetch(f);
    if q.fetch(f) != [] {
      SameShapeSameColumns(q, r);
      EdgesAgain(q, f, Entities(SpecColumns(q), q.fetch(f)));
    }
  }

  // ------------------------------------------------------------------ any number

  /** Filtering leaves only rows that were there. */
  lemma NarrowedRows(rows: seq<Row>, f: InFilter)
    ensures forall r :: r in TableRows(rows, f) ==> r in rows
  {
    match f
    case Everything =>
    case IDIn(ids) => KeptMembers(IDKeys(rows), rows, ids);
    case ParentIn(fks) => KeptMembers(RowKeys(rows, ParentAccountID), rows, fks);
  }

  lemma NarrowedIsSound(q: Query, f: InFilter)
    requires Sound(q)
    ensures Sound(Narrowed(q, f))
  {
    var r := Narrowed(q, f);
    forall g: InFilter, row | row in r.fetch(g)
      ensures Admits(g, row)
    {
      NarrowedRows(q.fetch(g), f);
    }
  }

  lemma SpentLeavesAreSound(q: Query, es: seq<Entity>)
    requires Sound(q)
    ensures var r := SpentEdges(q, es);
      && (r.withProxy.Some? ==>
            forall ids: seq<int>, p :: p in r.withProxy.value.fetch(ids) ==> p.ID in ids)
      && (r.withUsageLogs.Some? ==>
            forall ids: seq<int>, u :: u in r.withUsageLogs.value.fetch(ids) ==> u.AccountID in ids)
      && (r.withAccountGroups.Some? ==>
            forall ids: seq<int>, a :: a in r.withAccountGroups.value.fetch(ids) ==> a.AccountID in ids)
  {
    if q.withProxy.Some? {
      SpentProxyIsSound(q.withProxy.value, Wanted(ForeignKeys(es, ProxyID)));
    }
    if q.withUsageLogs.Some? {
      SpentLogsAreSound(q.withUsageLogs.value, IDs(es));
    }
    if q.withAccountGroups.Some? {
      SpentAccountGroupsAreSound(q.withAccountGroups.value, IDs(es));
    }
  }

  lemma SpentProxyIsSound(p: ProxyQuery, keys: seq<int>)
    requires forall ids: seq<int>, n :: n in p.fetch(ids) ==> n.ID in ids
    ensures forall ids: seq<int>, n :: n in SpentProxy(p, keys).fetch(ids) ==> n.ID in ids
  {
    forall ids: seq<int> { KeptMembers(ProxyKeys(p.fetch(ids)), p.fetch(ids), keys); }
  }

  lemma SpentLogsAreSound(u: UsageLogQuery, keys: seq<int>)
    requires forall ids: seq<int>, n :: n in u.fetch(ids) ==> n.AccountID in ids
    ensures forall ids: seq<int>, n :: n in SpentLogs(u, keys).fetch(ids) ==> n.AccountID in ids
  {
    forall ids: seq<int> { KeptMembers(UsageLogKeys(u.fetch(ids)), u.fetch(ids), keys); }
  }

  lemma SpentAccountGroupsAreSound(a: AccountGroupQuery, keys: seq<int>)
    requires forall ids: seq<int>, n :: n in a.fetch(ids) ==> n.AccountID in ids
    ensures forall ids: seq<int>, n :: n in SpentAccountGroups(a, keys).fetch(ids) ==> n.AccountID in ids
  {
    forall ids: seq<int> { KeptMembers(AccountGroupKeys(a.fetch(ids)), a.fetch(ids), keys); }
  }

  lemma {:induction false} SpentEdgesAreSound(q: Query, es: seq<Entity>)
    requires Sound(q) && NoGroups(q)
    ensures Sound(SpentEdges(q, es)) && NoGroups(SpentEdges(q, es))
    decreases Depth(q), 0
  {
    SpentLeavesAreSound(q, es);
    if q.withParent.Some? {
      SpentIsSound(q.withParent.value, IDIn(Wanted(ForeignKeys(es, ParentAccountID))));
    }
    if q.withChildren.Some? {
      SoundWithForeignKey(q.withChildren.value);
      SpentIsSound(WithForeignKey(q.withChildren.value), ParentIn(IDs(es)));
    }
  }

  lemma {:induction false} SpentIsSound(q: Query, f: InFilter)
    requires Sound(q) && NoGroups(q)
    ensures Sound(Spent(q, f)) && NoGroups(Spent(q, f))
    decreases Depth(q), 1
  {
    NarrowedIsSound(q, f);
    if q.fetch(f) != [] {
      SpentEdgesAreSound(Narrowed(q, f), Entities(SpecColumns(q), q.fetch(f)));
    }
  }

  /** The query after `n` runs. */
  function SpentTimes(q: Query, f: InFilter, n: nat): Query {
    if n == 0 then q else Spent(SpentTimes(q, f, n - 1), f)
  }

  /** However often a query without groups is run, it gives the same trees. */
  lemma {:induction false} EveryRunIsTheSame(q: Query, f: InFilter, n: nat)
    requires Sound(q) && NoGroups(q)
    ensures Sound(SpentTimes(q, f, n)) && NoGroups(SpentTimes(q, f, n))
    ensures Eval(SpentTimes(q, f, n), f) == Eval(q, f)
  {
    if n > 0 {
      EveryRunIsTheSame(q, f, n - 1);
      OneMoreRun(q, SpentTimes(q, f, n - 1), f);
    }
  }

  lemma OneMoreRun(q: Query, r: Query, f: InFilter)
    requires Sound(r) && NoGroups(r) && Eval(r, f) == Eval(q, f)
    ensures Sound(Spent(r, f)) && NoGroups(Spent(r, f)) && Eval(Spent(r, f), f) == Eval(q, f)
  {
    RunsAgain(r, f);
    SpentIsSound(r, f);
  }

  // ------------------------------------------------------- one run, one predicate

  lemma KeptSnoc<T>(keys: seq<Option<int>>, rows: seq<T>, key: Option<int>, row: T, ids: seq<int>)
    requires |keys| == |rows|
    ensures Kept(keys + [key], rows + [row], ids)
         == Kept(keys, rows, ids) + if key.Some? && key.value in ids then [row] else []
  {
    assert (keys + [key])[..|keys|] == keys && (rows + [row])[..|rows|] == rows;
  }

  lemma KeptBySnoc<T>(filters: seq<seq<int>>, keys: seq<Option<int>>, rows: seq<T>)
    requires |keys| == |rows| > 0
    ensures var n := |rows| - 1;
      KeptBy(filters, keys, rows)
        == KeptBy(filters, keys[..n], rows[..n]) + if Meets(filters, keys[n]) then [rows[n]] else []
  {
  }

  /** Filtering what meets some predicates is meeting one more, wherever it stands. */
  lemma {:induction false} KeptOfKeptBy<T>(before: seq<seq<int>>, now: seq<int>, ids: seq<int>,
                                           keys: seq<Option<int>>, rows: seq<T>)
    requires |keys| == |rows|
    ensures |KeptBy(before + [now], keys, keys)| == |KeptBy(before + [now], keys, rows)|
    ensures Kept(KeptBy(before + [now], keys, keys), KeptBy(before + [now], keys, rows), ids)
         == KeptBy(before + [ids] + [now], keys, rows)
  {
    var few, all := before + [now], before + [ids] + [now];
    KeptByKeys(few, keys, rows);
    if rows != [] {
      var n := |rows| - 1;
      var ks, xs := KeptBy(few, keys[..n], keys[..n]), KeptBy(few, keys[..n], rows[..n]);
      KeptOfKeptBy(before, now, ids, keys[..n], rows[..n]);
      MeetsMore(before, now, ids, keys[n]);
      KeptBySnoc(few, keys, keys);
      KeptBySnoc(few, keys, rows);
      KeptBySnoc(all, keys, rows);
      KeptSnoc(ks, xs, keys[n], rows[n], ids);
      if !Meets(few, keys[n]) {
        assert KeptBy(few, keys, keys) == ks && KeptBy(few, keys, rows) == xs;
      }
    }
  }

  lemma MeetsMore(before: seq<seq<int>>, now: seq<int>, ids: seq<int>, key: Option<int>)
    ensures Meets(before + [ids] + [now], key) <==> Meets(before + [now], key) && key.value in ids
  {
    var few, all := before + [now], before + [ids] + [now];
    assert forall i :: 0 <= i < |before| ==> few[i] == before[i] && all[i] == before[i];
    assert few[|before|] == now && all[|before|] == ids && all[|before| + 1] == now;
    if key.Some? && Meets(few, key) && key.value in ids {
      assert forall i :: 0 <= i < |before| ==> key.value in few[i];
    }
    if Meets(all, key) {
      assert forall i :: 0 <= i < |before| ==> key.value in all[i];
    }
  }

  /** A run over `ids` turns the builder of the logs that earlier runs left into the one with `ids` added. */
  lemma LogsBuilderAfterRun(fields: seq<string>, view: seq<UsageLog>, before: seq<seq<int>>, ids: seq<int>)
    ensures var spent, next := SpentLogs(LogsBuilder(fields, view, before), ids),
                               LogsBuilder(fields, view, before + [ids]);
      spent.fields == next.fields && forall now :: spent.fetch(now) == next.fetch(now)
  {
    var keys := UsageLogKeys(view);
    forall now
      ensures SpentLogs(LogsBuilder(fields, view, before), ids).fetch(now)
           == LogsBuilder(fields, view, before + [ids]).fetch(now)
    {
      KeptByMap(before + [now], keys, view, keys, (r: UsageLog) => Some(r.AccountID));
      KeptOfKeptBy(before, now, ids, keys, view);
      assert UsageLogKeys(KeptBy(before + [now], keys, view)) == KeptBy(before + [now], keys, keys);
    }
    SelectAlsoTwice(fields, "account_id");
  }

  /** The same for account groups. */
  lemma AccountGroupsBuilderAfterRun(fields: seq<string>, unique: bool, view: seq<AccountGroup>,
                                     before: seq<seq<int>>, ids: seq<int>)
    ensures var spent, next := SpentAccountGroups(AccountGroupsBuilder(fields, unique, view, before), ids),
                               AccountGroupsBuilder(fields, unique, view, before + [ids]);
      && spent.fields == next.fields && spent.unique == next.unique
      && forall now :: spent.fetch(now) == next.fetch(now)
  {
    var keys := AccountGroupKeys(view);
    forall now
      ensures SpentAccountGroups(AccountGroupsBuilder(fields, unique, view, before), ids).fetch(now)
           == AccountGroupsBuilder(fields, unique, view, before + [ids]).fetch(now)
    {
      KeptByMap(before + [now], keys, view, keys, (r: AccountGroup) => Some(r.AccountID));
      KeptOfKeptBy(before, now, ids, keys, view);
      assert AccountGroupKeys(KeptBy(before + [now], keys, view)) == KeptBy(before + [now], keys, keys);
    }
    SelectAlsoTwice(fields, "account_id");
  }

  /** The same for proxies. */
  lemma ProxyBuilderAfterRun(fields: seq<string>, view: seq<Proxy>, before: seq<seq<int>>, ids: seq<int>)
    ensures var spent, next := SpentProxy(ProxyBuilder(fields, view, before), ids),
                               ProxyBuilder(fields, view, before + [ids]);
      spent.fields == next.fields && forall now :: spent.fetch(now) == next.fetch(now)
  {
    var keys := ProxyKeys(view);
    forall now
      ensures SpentProxy(ProxyBuilder(fields, view, before), ids).fetch(now)
           == ProxyBuilder(fields, view, before + [ids]).fetch(now)
    {
      KeptByMap(before + [now], keys, view, keys, (r: Proxy) => Some(r.ID));
      KeptOfKeptBy(before, now, ids, keys, view);
      assert ProxyKeys(KeptBy(before + [now], keys, view)) == KeptBy(before + [now], keys, keys);
    }
  }

  /** The same for the accounts a children's builder finds, and a parents' one. */
  lemma AccountBuildersAfterRun(c: Query, view: seq<Row>, before: seq<seq<int>>, ids: seq<int>)
    ensures forall now :: Narrowed(ChildrenBuilder(c, view, before), ParentIn(ids)).fetch(ParentIn(now))
                       == ChildrenBuilder(c, view, before + [ids]).fetch(ParentIn(now))
    ensures forall now :: Narrowed(ParentBuilder(c, view, before), IDIn(ids)).fetch(IDIn(now))
                       == ParentBuilder(c, view, before + [ids]).fetch(IDIn(now))
  {
    var byParent, byID := RowKeys(view, ParentAccountID), IDKeys(view);
    forall now
      ensures Narrowed(ChildrenBuilder(c, view, before), ParentIn(ids)).fetch(ParentIn(now))
           == ChildrenBuilder(c, view, before + [ids]).fetch(ParentIn(now))
      ensures Narrowed(ParentBuilder(c, view, before), IDIn(ids)).fetch(IDIn(now))
           == ParentBuilder(c, view, before + [ids]).fetch(IDIn(now))
    {
      ChildKeysOfRun(c, view, before, now);
      KeptOfKeptBy(before, now, ids, byParent, view);
      ParentKeysOfRun(c, view, before, now);
      KeptOfKeptBy(before, now, ids, byID, view);
    }
  }
}
