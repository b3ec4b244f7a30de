/** What the loaded edges report to a caller: found, not found or not loaded. */
module EdgeReports {
  import opened Sequences
  import opened AccountEntity
  import opened EagerSpec
  import opened EagerLaws

  lemma {:induction false} LastMatchReports<T>(keys: seq<int>, ns: seq<T>, k: int)
    requires |keys| == |ns|
    ensures LastMatch(keys, ns, k).Some? <==> k in keys
    ensures LastMatch(keys, ns, k).Some? ==>
      exists j :: 0 <= j < |ns| && keys[j] == k && LastMatch(keys, ns, k).value == ns[j]
  {
    if ns != [] {
      var n := |ns| - 1;
      if keys[n] == k {
        assert LastMatch(keys, ns, k).value == ns[n];
      } else {
        LastMatchReports(keys[..n], ns[..n], k);
        assert k in keys <==> k in keys[..n];
        if LastMatch(keys, ns, k).Some? {
          var j :| 0 <= j < n && keys[..n][j] == k && LastMatch(keys, ns, k).value == ns[..n][j];
          assert keys[j] == k && LastMatch(keys, ns, k).value == ns[j];
        }
      }
    }
  }

  lemma ProxyFound(p: ProxyQuery, fks: seq<Option<int>>, i: nat)
    requires i < |fks| && JoinProxy(p, fks).Success?
    ensures var x, rows := JoinProxy(p, fks).value[i], p.fetch(Wanted(fks));
      && (x.Some? <==> exists j :: 0 <= j < |rows| && fks[i] == Some(rows[j].ID))
      && (x.Some? ==>
            exists j :: 0 <= j < |rows| && fks[i] == Some(rows[j].ID) && x.value == ScanProxy(p.fields, rows[j]))
  {
    var rows, ns := p.fetch(Wanted(fks)), Proxies(p, Wanted(fks));
    KeyIsWanted(fks, i);
    if fks[i].Some? {
      var k := fks[i].value;
      LastMatchReports(ProxyIDs(ns), ns, k);
      if j :| 0 <= j < |rows| && fks[i] == Some(rows[j].ID) {
        assert ProxyIDs(ns)[j] == k;
      }
      if k in ProxyIDs(ns) {
        var j :| 0 <= j < |ns| && ProxyIDs(ns)[j] == k && LastMatch(ProxyIDs(ns), ns, k).value == ns[j];
        assert fks[i] == Some(rows[j].ID);
      }
    }
  }

  /** The three answers of the proxy edge, told by the database rows alone: not requested, requested without
      a matching proxy, and the proxy, as scanned, whose id is the row's foreign key. */
  ghost predicate ProxyTold(q: Query, rows: seq<Row>, i: nat, r: Result<Proxy, EdgeError>)
    requires i < |rows|
  {
    var fk := rows[i].ForeignKey(ProxyID);
    if q.withProxy.None? then r == Failure(NotLoaded("proxy"))
    else
      var p := q.withProxy.value;
      var found := p.fetch(Wanted(RowKeys(rows, ProxyID)));
      && (r.Success? <==> exists j :: 0 <= j < |found| && fk == Some(found[j].ID))
      && (r.Success? ==>
            exists j :: 0 <= j < |found| && fk == Some(found[j].ID) && r.value == ScanProxy(p.fields, found[j]))
      && (r.Failure? ==> r.error == NotFound("proxy"))
  }

  lemma JoinedProxyTold(q: Query, es: seq<Entity>, rows: seq<Row>, i: nat)
    requires i < |rows| == |es| && Joined(q, es).Success?
    requires q.withProxy.Some? ==> ForeignKeys(es, ProxyID) == RowKeys(rows, ProxyID)
    ensures var e := Joined(q, es).value[i].edges;
      |e.loadedTypes| == 6 && ProxyTold(q, rows, i, e.ProxyOrErr())
  {
    JoinedNode(q, es, i);
    if q.withProxy.Some? {
      ProxyFound(q.withProxy.value, RowKeys(rows, ProxyID), i);
    }
  }

  lemma ProxyReport(q: Query, f: InFilter, i: nat)
    requires Eval(q, f).Success? && i < |q.fetch(f)|
    ensures i < |Eval(q, f).value| && |Eval(q, f).value[i].edges.loadedTypes| == 6
    ensures ProxyTold(q, q.fetch(f), i, Eval(q, f).value[i].edges.ProxyOrErr())
  {
    JoinKeysAreRowKeys(q, q.fetch(f));
    JoinedProxyTold(q, Entities(SpecColumns(q), q.fetch(f)), q.fetch(f), i);
  }

  lemma ParentFound(p: Query, fks: seq<Option<int>>, i: nat)
    requires i < |fks| && EvalParents(p, fks).Success?
    ensures var x, ns := EvalParents(p, fks).value[i], p.fetch(IDIn(Wanted(fks)));
      && (x.Some? <==> fks[i].Some? && fks[i].value in RowIDs(ns))
      && (x.Some? ==> fks[i] == Some(x.value.entity.ID()))
  {
    KeyIsWanted(fks, i);
    if fks[i].Some? {
      TreesOfRows(p, IDIn(Wanted(fks)));
      var ts := Eval(p, IDIn(Wanted(fks))).value;
      LastMatchReports(TreeIDs(ts), ts, fks[i].value);
    }
  }

  /** The same for the parent edge: the parent found is the account row whose id is the foreign key. */
  ghost predicate ParentTold(q: Query, rows: seq<Row>, i: nat, r: Result<Tree, EdgeError>)
    requires i < |rows|
  {
    var fk := rows[i].ForeignKey(ParentAccountID);
    if q.withParent.None? then r == Failure(NotLoaded("parent"))
    else
      var ns := q.withParent.value.fetch(IDIn(Wanted(RowKeys(rows, ParentAccountID))));
      && (r.Success? <==> fk.Some? && fk.value in RowIDs(ns))
      && (r.Success? ==> fk == Some(r.value.entity.ID()))
      && (r.Failure? ==> r.error == NotFound("account"))
  }

  lemma JoinedParentTold(q: Query, es: seq<Entity>, rows: seq<Row>, i: nat)
    requires i < |rows| == |es| && Joined(q, es).Success?
    requires q.withParent.Some? ==> ForeignKeys(es, ParentAccountID) == RowKeys(rows, ParentAccountID)
    ensures var e := Joined(q, es).value[i].edges;
      |e.loadedTypes| == 6 && ParentTold(q, rows, i, e.ParentOrErr())
  {
    JoinedNode(q, es, i);
    if q.withParent.Some? {
      ParentFound(q.withParent.value, RowKeys(rows, ParentAccountID), i);
    }
  }

  lemma ParentReport(q: Query, f: InFilter, i: nat)
    requires Eval(q, f).Success? && i < |q.fetch(f)|
    ensures i < |Eval(q, f).value| && |Eval(q, f).value[i].edges.loadedTypes| == 6
    ensures ParentTold(q, q.fetch(f), i, Eval(q, f).value[i].edges.ParentOrErr())
  {
    JoinKeysAreRowKeys(q, q.fetch(f));
    JoinedParentTold(q, Entities(SpecColumns(q), q.fetch(f)), q.fetch(f), i);
  }

  /** A list edge is an error exactly when it was not requested. */
  lemma ListReports(q: Query, f: InFilter, i: nat)
    requires Eval(q, f).Success? && i < |Eval(q, f).value|
    ensures |Eval(q, f).value[i].edges.loadedTypes| == 6
    ensures var e := Eval(q, f).value[i].edges;
      && (e.GroupsOrErr() == if q.withGroups.Some? then Success(e.Groups) else Failure(NotLoaded("groups")))
      && (e.ChildrenOrErr() == if q.withChildren.Some? then Success(e.Children) else Failure(NotLoaded("children")))
      && (e.UsageLogsOrErr()
            == if q.withUsageLogs.Some? then Success(e.UsageLogs) else Failure(NotLoaded("usage_logs")))
      && (e.AccountGroupsOrErr()
            == if q.withAccountGroups.Some? then Success(e.AccountGroups) else Failure(NotLoaded("account_groups")))
  {
    TreesOfRows(q, f);
  }
}
