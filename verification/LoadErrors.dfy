/** Which error a load returns, told by the rows the database answered: the first one that no node can take. */
module LoadErrors {
  import opened Sequences
  import opened AccountEntity
  import opened EagerSpec
  import opened EagerLaws

  // ------------------------------------------------------------------------ key lists

  /** The first neighbour whose id nobody asked for is the error. */
  lemma {:induction false} FirstStrayIs(fks: seq<Option<int>>, keys: seq<int>, j: nat)
    requires j < |keys| && Some(keys[j]) !in fks && forall i :: 0 <= i < j ==> Some(keys[i]) in fks
    ensures FirstStray(fks, keys) == Some(UnexpectedForeignKey(keys[j]))
  {
    var n := |keys| - 1;
    if j < n {
      FirstStrayIs(fks, keys[..n], j);
    } else {
      NoStrayIff(fks, keys[..n]);
    }
  }

  predicate Taken(ids: seq<int>, key: Option<int>) {
    key.Some? && key.value in ids
  }

  /** The first neighbour without a key, or with one that is no node's id, is the error. */
  lemma {:induction false} FirstBadKeyIs(ids: seq<int>, keys: seq<Option<int>>, labels: seq<int>, j: nat)
    requires j < |keys| == |labels| && !Taken(ids, keys[j]) && forall i :: 0 <= i < j ==> Taken(ids, keys[i])
    ensures FirstBadKey(ids, keys, labels)
         == Some(if keys[j].None? then NilForeignKey(labels[j]) else UnexpectedForeignKey(keys[j].value))
  {
    var n := |keys| - 1;
    if j < n {
      FirstBadKeyIs(ids, keys[..n], labels[..n], j);
    } else {
      NoBadKeyIff(ids, keys[..n], labels[..n]);
      assert forall k :: k in keys[..n] ==> exists i :: 0 <= i < n && k == keys[i];
    }
  }

  predicate Placed(ids: seq<int>, rows: seq<GroupRow>, n: Group) {
    HasGroup(rows, n.ID) && !Dangling(rows, ids, n.ID)
  }

  lemma {:induction false} AllPlaced(ids: seq<int>, rows: seq<GroupRow>, ns: seq<Group>)
    ensures FirstBadGroup(ids, rows, ns) == None <==> forall i :: 0 <= i < |ns| ==> Placed(ids, rows, ns[i])
  {
    if ns != [] {
      AllPlaced(ids, rows, ns[..|ns| - 1]);
    }
  }

  /** The first group that came back without a join row, or with one of another account, is the error. */
  lemma {:induction false} FirstBadGroupIs(ids: seq<int>, rows: seq<GroupRow>, ns: seq<Group>, j: nat)
    requires j < |ns| && !Placed(ids, rows, ns[j]) && forall i :: 0 <= i < j ==> Placed(ids, rows, ns[i])
    ensures FirstBadGroup(ids, rows, ns)
         == Some(if HasGroup(rows, ns[j].ID) then NilNode else UnexpectedGroup(ns[j].ID))
  {
    var n := |ns| - 1;
    if j < n {
      FirstBadGroupIs(ids, rows, ns[..n], j);
    } else {
      AllPlaced(ids, rows, ns[..n]);
    }
  }

  // --------------------------------------------------------------------------- the edges

  /** A proxy nobody asked for. */
  lemma ProxyErrorIs(p: ProxyQuery, fks: seq<Option<int>>, j: nat)
    requires Wanted(fks) != []
    ensures p.failure.Some? ==> JoinProxy(p, fks) == Failure(p.failure.value)
    ensures var rows := p.fetch(Wanted(fks));
      && p.failure.None? && j < |rows| && Some(rows[j].ID) !in fks
      && (forall i :: 0 <= i < j ==> Some(rows[i].ID) in fks) ==>
           JoinProxy(p, fks) == Failure(UnexpectedForeignKey(rows[j].ID))
  {
    var rows, ns := p.fetch(Wanted(fks)), Proxies(p, Wanted(fks));
    assert forall i :: 0 <= i < |rows| ==> ProxyIDs(ns)[i] == rows[i].ID;
    if j < |rows| && Some(rows[j].ID) !in fks && forall i :: 0 <= i < j ==> Some(rows[i].ID) in fks {
      FirstStrayIs(fks, ProxyIDs(ns), j);
    }
  }

  /** A usage log of an account that is not among the nodes. */
  lemma UsageLogErrorIs(u: UsageLogQuery, ids: seq<int>, j: nat)
    ensures u.failure.Some? ==> JoinUsageLogs(u, ids) == Failure(u.failure.value)
    ensures var rows := u.fetch(ids);
      && u.failure.None? && j < |rows| && rows[j].AccountID !in ids
      && (forall i :: 0 <= i < j ==> rows[i].AccountID in ids) ==>
           JoinUsageLogs(u, ids) == Failure(UnexpectedForeignKey(rows[j].AccountID))
  {
    var rows, ns := u.fetch(ids), UsageLogs(u, ids);
    UsageLogKeysKept(u, ids);
    assert forall i :: 0 <= i < |rows| ==> UsageLogKeys(ns)[i] == Some(rows[i].AccountID);
    if j < |rows| && rows[j].AccountID !in ids && forall i :: 0 <= i < j ==> rows[i].AccountID in ids {
      FirstBadKeyIs(ids, UsageLogKeys(ns), UsageLogIDs(ns), j);
    }
  }

  /** An account group of an account that is not among the nodes, if equal rows are not merged. */
  lemma AccountGroupErrorIs(a: AccountGroupQuery, ids: seq<int>, j: nat)
    requires !a.unique
    ensures a.failure.Some? ==> JoinAccountGroups(a, ids) == Failure(a.failure.value)
    ensures var rows := a.fetch(ids);
      && a.failure.None? && j < |rows| && rows[j].AccountID !in ids
      && (forall i :: 0 <= i < j ==> rows[i].AccountID in ids) ==>
           JoinAccountGroups(a, ids) == Failure(UnexpectedForeignKey(rows[j].AccountID))
  {
    var rows, ns := a.fetch(ids), AccountGroups(a, ids);
    AccountGroupKeysKept(a, ids);
    assert forall i :: 0 <= i < |rows| ==> AccountGroupKeys(rows)[i] == Some(rows[i].AccountID);
    if j < |rows| && rows[j].AccountID !in ids && forall i :: 0 <= i < j ==> rows[i].AccountID in ids {
      FirstBadKeyIs(ids, AccountGroupKeys(ns), AccountGroupLabels(ns), j);
    }
  }

  /** A group that interceptors brought in, or one that some join row links to another account. */
  lemma GroupErrorIs(g: GroupQuery, ids: seq<int>, j: nat)
    ensures g.failure.Some? ==> JoinGroups(g, ids) == Failure(g.failure.value)
    ensures var rows := GroupRows(g, ids); var ns := g.intercept(Scanned(rows));
      && g.failure.None? && j < |ns| && !Placed(ids, rows, ns[j])
      && (forall i :: 0 <= i < j ==> Placed(ids, rows, ns[i])) ==>
           JoinGroups(g, ids) == Failure(if HasGroup(rows, ns[j].ID) then NilNode else UnexpectedGroup(ns[j].ID))
  {
    var rows := GroupRows(g, ids);
    var ns := g.intercept(Scanned(rows));
    if j < |ns| && !Placed(ids, rows, ns[j]) && forall i :: 0 <= i < j ==> Placed(ids, rows, ns[i]) {
      FirstBadGroupIs(ids, rows, ns, j);
    }
  }

  /** A child without a parent, or of an account that is not among the nodes. */
  lemma ChildErrorIs(c: Query, ids: seq<int>, j: nat)
    requires Eval(WithForeignKey(c), ParentIn(ids)).Success?
    ensures var rows := c.fetch(ParentIn(ids));
      && j < |rows| && !Taken(ids, rows[j].ForeignKey(ParentAccountID))
      && (forall i :: 0 <= i < j ==> Taken(ids, rows[i].ForeignKey(ParentAccountID))) ==>
           EvalChildren(c, ids)
             == Failure(if rows[j].ForeignKey(ParentAccountID).None? then NilForeignKey(rows[j].ID())
                        else UnexpectedForeignKey(rows[j].ForeignKey(ParentAccountID).value))
  {
    var q, rows := WithForeignKey(c), c.fetch(ParentIn(ids));
    var ts := Eval(q, ParentIn(ids)).value;
    TreesOfRows(q, ParentIn(ids));
    ChildrenHaveKeys(c);
    assert TreeKeys(ts) == RowKeys(rows, ParentAccountID) && TreeIDs(ts) == RowIDs(rows);
    if j < |rows| && !Taken(ids, RowKeys(rows, ParentAccountID)[j])
       && forall i :: 0 <= i < j ==> Taken(ids, RowKeys(rows, ParentAccountID)[i]) {
      FirstBadKeyIs(ids, TreeKeys(ts), TreeIDs(ts), j);
    }
  }

  lemma ChildrenHaveKeys(c: Query)
    ensures ParentAccountID in WithForeignKey(c).fields || WithForeignKey(c).fields == []
  {
    if c.fields != [] {
      assert (c.fields + [ParentAccountID])[|c.fields|] == ParentAccountID;
    }
  }

  /** A parent nobody asked for. */
  lemma ParentErrorIs(p: Query, fks: seq<Option<int>>, j: nat)
    requires Wanted(fks) != []
    ensures Eval(p, IDIn(Wanted(fks))).Failure? ==>
      EvalParents(p, fks) == Failure(Eval(p, IDIn(Wanted(fks))).error)
    ensures var rows := p.fetch(IDIn(Wanted(fks)));
      && Eval(p, IDIn(Wanted(fks))).Success? && j < |rows| && Some(rows[j].ID()) !in fks
      && (forall i :: 0 <= i < j ==> Some(rows[i].ID()) in fks) ==>
           EvalParents(p, fks) == Failure(UnexpectedForeignKey(rows[j].ID()))
  {
    var f, rows := IDIn(Wanted(fks)), p.fetch(IDIn(Wanted(fks)));
    if Eval(p, f).Success? {
      TreesOfRows(p, f);
      assert TreeIDs(Eval(p, f).value) == RowIDs(rows);
      if j < |rows| && Some(RowIDs(rows)[j]) !in fks && forall i :: 0 <= i < j ==> Some(RowIDs(rows)[i]) in fks {
        FirstStrayIs(fks, RowIDs(rows), j);
      }
    }
  }

  // --------------------------------------------------------------------- the whole query

  /** The errors of the six edges, in the order they are loaded. */
  function EdgeErrors(q: Query, es: seq<Entity>): (r: seq<Option<LoadError>>) {
    [ErrorOf(GroupsEdge(q, es)), ErrorOf(ProxyEdge(q, es)), ErrorOf(ParentEdge(q, es)), ErrorOf(ChildrenEdge(q, es)),
     ErrorOf(UsageLogsEdge(q, es)), ErrorOf(AccountGroupsEdge(q, es))]
  }

  function ErrorOf<T>(r: Result<T, LoadError>): Option<LoadError> {
    if r.Failure? then Some(r.error) else None
  }

  /** The first of six errors, or none of them. */
  ghost predicate FirstOfSix<T>(errors: seq<Option<LoadError>>, r: Result<T, LoadError>)
    requires |errors| == 6
  {
    && (errors[0].Some? ==> r == Failure(errors[0].value))
    && (errors[0].None? && errors[1].Some? ==> r == Failure(errors[1].value))
    && (errors[0].None? && errors[1].None? && errors[2].Some? ==> r == Failure(errors[2].value))
    && (errors[0].None? && errors[1].None? && errors[2].None? && errors[3].Some? ==> r == Failure(errors[3].value))
    && (errors[0].None? && errors[1].None? && errors[2].None? && errors[3].None? && errors[4].Some? ==>
          r == Failure(errors[4].value))
    && (errors[0].None? && errors[1].None? && errors[2].None? && errors[3].None? && errors[4].None? ==>
          if errors[5].Some? then r == Failure(errors[5].value) else r.Success?)
  }

  lemma JoinedErrorIs(q: Query, es: seq<Entity>)
    ensures FirstOfSix(EdgeErrors(q, es), Joined(q, es))
  {
  }

  /** The error of a query: an interceptor's comes first, then that of an unknown column, then the query's own;
      after that, if rows were found, the first edge that fails decides. */
  lemma FirstErrorDecides(q: Query, f: InFilter)
    ensures q.refusal.Some? ==> Eval(q, f) == Failure(q.refusal.value)
    ensures q.refusal.None? && FirstInvalid(q.fields).Some? ==>
      Eval(q, f) == Failure(InvalidField(FirstInvalid(q.fields).value))
    ensures q.refusal.None? && FirstInvalid(q.fields).None? && q.failure.Some? ==>
      Eval(q, f) == Failure(q.failure.value)
    ensures q.refusal.None? && FirstInvalid(q.fields).None? && q.failure.None? ==>
      if q.fetch(f) == [] then Eval(q, f) == Success([])
      else FirstOfSix(EdgeErrors(q, Entities(SpecColumns(q), q.fetch(f))), Eval(q, f))
  {
    JoinedErrorIs(q, Entities(SpecColumns(q), q.fetch(f)));
  }
}
