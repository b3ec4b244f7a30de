/** The eager-loading engine: hash joins that index the nodes of a result by id or foreign key, run one
    query per edge, and write the neighbours into the nodes in place. */
module EagerLoad {
  import opened Sequences
  import opened AccountEntity
  import opened EagerSpec

  // ------------------------------------------------------ heap graphs and trees

  /** The edges of a heap node, with neighbouring accounts replaced by the trees `g` gives them. */
  ghost function View(e: Edges<Account>, g: map<Account, Tree>): Edges<Tree>
    requires Closed(e, g)
  {
    Edges(e.Groups, e.Proxy,
          if e.Parent.None? then None else Some(g[e.Parent.value]),
          seq(|e.Children|, i requires 0 <= i < |e.Children| => g[e.Children[i]]),
          e.UsageLogs, e.AccountGroups, e.loadedTypes)
  }

  ghost predicate Closed(e: Edges<Account>, g: map<Account, Tree>) {
    && (e.Parent.Some? ==> e.Parent.value in g)
    && (forall i :: 0 <= i < |e.Children| ==> e.Children[i] in g)
  }

  /** `g` describes a closed part of the heap: every node in it is the tree it is mapped to. */
  ghost predicate Represents(g: map<Account, Tree>)
    reads g.Keys
  {
    forall n :: n in g ==> Closed(n.Edges, g) && g[n] == Tree(n.entity, View(n.Edges, g))
  }

  ghost predicate Holds(nodes: seq<Account>, es: seq<Entity>)
    reads nodes
  {
    |es| == |nodes| && forall i :: 0 <= i < |nodes| ==> nodes[i].entity == es[i]
  }

  // -------------------------------------------------------------- the indexes

  /** Every id maps to the last node that has it. */
  ghost predicate Indexed(byID: map<int, Account>, ids: seq<int>, nodes: seq<Account>)
    requires |ids| <= |nodes|
  {
    && (forall id :: id in byID <==> id in ids)
    && (forall id :: id in byID ==> byID[id] == nodes[LastIndex(ids, id)])
  }

  lemma IndexedSnoc(byID: map<int, Account>, ids: seq<int>, nodes: seq<Account>, id: int)
    requires |ids| < |nodes| && id in byID && byID[id] == nodes[|ids|]
    requires forall k :: k != id ==> (k in byID <==> k in ids)
    requires forall k :: k != id && k in byID ==> byID[k] == nodes[LastIndex(ids, k)]
    ensures Indexed(byID, ids + [id], nodes)
  {
    assert (ids + [id])[..|ids|] == ids;
    forall k | k in byID
      ensures byID[k] == nodes[LastIndex(ids + [id], k)]
    {
      assert (ids + [id])[|ids|] == id;
    }
  }

  /** The id list and the id index that open every load keyed by the nodes' own ids. */
  method IndexByID(nodes: seq<Account>, ghost es: seq<Entity>) returns (ids: seq<int>, byID: map<int, Account>)
    requires Holds(nodes, es)
    ensures ids == IDs(es) && Indexed(byID, ids, nodes)
  {
    ids, byID := [], map[];
    for i := 0 to |nodes|
      invariant ids == IDs(es)[..i]
      invariant Indexed(byID, ids, nodes)
    {
      ids := ids + [nodes[i].entity.ID()];
      byID := byID[nodes[i].entity.ID() := nodes[i]];
      IndexedSnoc(byID, IDs(es)[..i], nodes, nodes[i].entity.ID());
    }
  }

  /** Every foreign key maps to the nodes holding it, in order. */
  ghost predicate Owners(nodeids: map<int, seq<Account>>, fks: seq<Option<int>>, nodes: seq<Account>)
    requires |fks| == |nodes|
  {
    && (forall k :: k in nodeids <==> Some(k) in fks)
    && (forall k :: k in nodeids ==> nodeids[k] == Select(fks, nodes, Some(k)))
  }

  lemma OwnersSnoc(before: map<int, seq<Account>>, after: map<int, seq<Account>>,
                   fks: seq<Option<int>>, nodes: seq<Account>, i: nat)
    requires i < |fks| == |nodes| && Owners(before, fks[..i], nodes[..i])
    requires match fks[i]
      case None => after == before
      case Some(fk) => after == before[fk := (if fk in before then before[fk] else []) + [nodes[i]]]
    ensures Owners(after, fks[..i+1], nodes[..i+1])
  {
    assert fks[..i+1] == fks[..i] + [fks[i]];
    forall k | k in after
      ensures after[k] == Select(fks[..i+1], nodes[..i+1], Some(k))
    {
      SelectSnoc(fks, nodes, i, Some(k));
      SelectAbsent(fks[..i], nodes[..i], Some(k));
    }
  }

  lemma WantedSnoc(fks: seq<Option<int>>, i: nat)
    requires i < |fks|
    ensures Wanted(fks[..i+1])
         == Wanted(fks[..i]) + if fks[i] == None || fks[i] in fks[..i] then [] else [fks[i].value]
  {
    assert fks[..i+1][..i] == fks[..i];
  }

  /** The distinct foreign keys in first-occurrence order, and the nodes holding each of them. */
  method IndexByForeignKey(nodes: seq<Account>, c: Column, ghost es: seq<Entity>)
    returns (ids: seq<int>, nodeids: map<int, seq<Account>>)
    requires Holds(nodes, es)
    ensures ids == Wanted(ForeignKeys(es, c))
    ensures OwnedBy(nodeids, ForeignKeys(es, c), nodes)
  {
    ghost var fks := ForeignKeys(es, c);
    ids, nodeids := [], map[];
    for i := 0 to |nodes|
      invariant ids == Wanted(fks[..i])
      invariant Owners(nodeids, fks[..i], nodes[..i])
    {
      assert fks[i] == nodes[i].entity.ForeignKey(c);
      WantedSnoc(fks, i);
      if nodes[i].entity.ForeignKey(c) == None {
        OwnersSnoc(nodeids, nodeids, fks, nodes, i);
        continue;
      }
      var fk := nodes[i].entity.ForeignKey(c).value;
      if fk !in nodeids {
        ids := ids + [fk];
      }
      var next := nodeids[fk := (if fk in nodeids then nodeids[fk] else []) + [nodes[i]]];
      OwnersSnoc(nodeids, next, fks, nodes, i);
      nodeids := next;
    }
    assert fks[..|nodes|] == fks && nodes[..|nodes|] == nodes;
    OwnersAreOwnedBy(nodeids, nodes, c, es);
  }

  /** Which nodes a key leads to, position by position. */
  ghost predicate OwnedBy(nodeids: map<int, seq<Account>>, fks: seq<Option<int>>, nodes: seq<Account>)
    requires |fks| == |nodes|
  {
    && (forall key :: key in nodeids <==> Some(key) in fks)
    && (forall key :: key in nodeids ==> forall t :: 0 <= t < |nodeids[key]| ==> nodeids[key][t] in nodes)
    && (forall key :: key in nodeids ==>
          forall k :: 0 <= k < |nodes| ==> (nodes[k] in nodeids[key] <==> fks[k] == Some(key)))
  }

  lemma OwnersAreOwnedBy(nodeids: map<int, seq<Account>>, nodes: seq<Account>, c: Column, es: seq<Entity>)
    requires Holds(nodes, es) && Owners(nodeids, ForeignKeys(es, c), nodes)
    ensures OwnedBy(nodeids, ForeignKeys(es, c), nodes)
  {
    var fks := ForeignKeys(es, c);
    assert forall i :: 0 <= i < |nodes| ==> fks[i] == nodes[i].entity.ForeignKey(c);
    forall key | key in nodeids
      ensures forall t :: 0 <= t < |nodeids[key]| ==> nodeids[key][t] in nodes
      ensures forall k :: 0 <= k < |nodes| ==> (nodes[k] in nodeids[key] <==> fks[k] == Some(key))
    {
      SelectMembers(fks, nodes, Some(key));
      assert forall t :: 0 <= t < |nodeids[key]| ==> nodeids[key][t] in nodeids[key];
    }
  }

  // ------------------------------------------------------------- many to many

  method LoadGroups(query: GroupQuery, nodes: seq<Account>, ghost es: seq<Entity>) returns (err: Option<LoadError>)
    requires Holds(nodes, es) && Distinct(nodes)
    modifies nodes`Edges
    ensures var r := JoinGroups(query, IDs(es));
      && (r.Failure? ==> err == Some(r.error))
      && (r.Success? ==> err == None && forall i :: 0 <= i < |nodes| ==>
            nodes[i].Edges == old(nodes[i].Edges).(Groups := r.value[i]))
  {
    ghost var ids := IDs(es);
    var edgeIDs, byID := IndexByID(nodes, es);
    forall i | 0 <= i < |nodes| {
      nodes[i].Edges := nodes[i].Edges.(Groups := []);
    }
    var rows := GroupRows(query, edgeIDs);
    var nids, scanned := ScanGroupRows(rows, byID);
    forall id | id in nids
      ensures null in nids[id] <==> Dangling(rows, ids, id)
      ensures forall k :: 0 <= k < |nodes| ==> (nodes[k] in nids[id] <==> Receives(ids, rows, k, id))
    {
      DanglingIffNull(rows, byID, nids, ids, nodes, id);
      forall k | 0 <= k < |nodes|
        ensures nodes[k] in nids[id] <==> Receives(ids, rows, k, id)
      {
        MemberIffLinked(rows, byID, nids, ids, nodes, id, k);
      }
    }
    if query.failure.Some? {
      return query.failure;
    }
    err := AssignGroups(query.intercept(scanned), nids, nodes, ids, rows);
  }

  ghost predicate Receives(ids: seq<int>, rows: seq<GroupRow>, k: nat, groupID: int)
    requires k < |ids|
  {
    LastIndex(ids, ids[k]) == k && Linked(rows, ids[k], groupID)
  }

  /** The second half of the load: every group goes to the nodes recorded for it. */
  method AssignGroups(neighbors: seq<Group>, nids: map<int, set<Account?>>, nodes: seq<Account>,
                      ghost ids: seq<int>, ghost rows: seq<GroupRow>) returns (err: Option<LoadError>)
    requires |ids| == |nodes|
    requires forall id :: id in nids <==> HasGroup(rows, id)
    requires forall id :: id in nids ==> (null in nids[id] <==> Dangling(rows, ids, id))
    requires forall id, x :: id in nids && x in nids[id] && x != null ==> x in nodes
    requires forall id :: id in nids ==>
      forall k :: 0 <= k < |nodes| ==> (nodes[k] in nids[id] <==> Receives(ids, rows, k, id))
    requires forall k :: 0 <= k < |nodes| ==> nodes[k].Edges.Groups == []
    modifies nodes`Edges
    ensures err == FirstBadGroup(ids, rows, neighbors)
    ensures err == None ==> forall k :: 0 <= k < |nodes| ==>
      nodes[k].Edges == old(nodes[k].Edges).(Groups := GroupShare(ids, rows, neighbors, k))
  {
    for j := 0 to |neighbors|
      invariant FirstBadGroup(ids, rows, neighbors[..j]) == None
      invariant forall k :: 0 <= k < |nodes| ==>
        nodes[k].Edges == old(nodes[k].Edges).(Groups := GroupShare(ids, rows, neighbors[..j], k))
    {
      var n := neighbors[j];
      assert neighbors[..j+1][..j] == neighbors[..j];
      if n.ID !in nids {
        FirstBadGroupStays(ids, rows, neighbors, j + 1);
        return Some(UnexpectedGroup(n.ID));
      }
      var ok := AppendToAll(nids[n.ID], n, nodes);
      if !ok {
        FirstBadGroupStays(ids, rows, neighbors, j + 1);
        return Some(NilNode);
      }
    }
    assert neighbors[..|neighbors|] == neighbors;
    return None;
  }

  /** The scan of the join rows: a set of nodes per group, and each group once. A row of an unknown
      account links a nil node. */
  method ScanGroupRows(rows: seq<GroupRow>, byID: map<int, Account>)
    returns (nids: map<int, set<Account?>>, scanned: seq<Group>)
    ensures scanned == Scanned(rows)
    ensures LinksOf(nids, rows, byID)
  {
    nids, scanned := map[], [];
    for i := 0 to |rows|
      invariant scanned == Scanned(rows[..i])
      invariant LinksOf(nids, rows[..i], byID)
    {
      var outValue, inValue := rows[i].accountID, rows[i].group.ID;
      var node: Account? := if outValue in byID then byID[outValue] else null;
      assert rows[..i+1][..i] == rows[..i];
      ghost var before := nids;
      if inValue !in nids {
        nids := nids[inValue := {node}];
        scanned := scanned + [rows[i].group];
      } else {
        nids := nids[inValue := nids[inValue] + {node}];
      }
      assert {} + {node} == {node};
      LinksOfSnoc(before, nids, rows, i, byID, node);
    }
    assert rows[..|rows|] == rows;
  }

  ghost function NodeOf(byID: map<int, Account>, id: int): Account? {
    if id in byID then byID[id] else null
  }

  ghost function LinkedNodes(rows: seq<GroupRow>, byID: map<int, Account>, groupID: int): set<Account?> {
    set r | r in rows && r.group.ID == groupID :: NodeOf(byID, r.accountID)
  }

  /** `nids` holds, per group id, the nodes of the accounts linked to it. */
  ghost predicate LinksOf(nids: map<int, set<Account?>>, rows: seq<GroupRow>, byID: map<int, Account>) {
    && (forall id :: id in nids <==> HasGroup(rows, id))
    && (forall id :: id in nids ==> nids[id] == LinkedNodes(rows, byID, id))
  }

  lemma LinksOfSnoc(before: map<int, set<Account?>>, after: map<int, set<Account?>>, rows: seq<GroupRow>, i: nat,
                    byID: map<int, Account>, node: Account?)
    requires i < |rows| && LinksOf(before, rows[..i], byID) && node == NodeOf(byID, rows[i].accountID)
    requires var id := rows[i].group.ID;
      after == before[id := (if id in before then before[id] else {}) + {node}]
    ensures LinksOf(after, rows[..i+1], byID)
  {
    var now := rows[..i+1];
    assert forall r :: r in now <==> r in rows[..i] || r == rows[i];
    forall id
      ensures HasGroup(now, id) <==> HasGroup(rows[..i], id) || id == rows[i].group.ID
      ensures LinkedNodes(now, byID, id)
           == LinkedNodes(rows[..i], byID, id) + if id == rows[i].group.ID then {node} else {}
    {
      assert rows[i] in now;
      if HasGroup(rows[..i], id) {
        var r :| r in rows[..i] && r.group.ID == id;
        assert r in now;
      }
    }
    var id := rows[i].group.ID;
    if id !in before {
      assert LinkedNodes(rows[..i], byID, id) == {} by {
        assert forall r :: r in rows[..i] ==> r.group.ID != id;
      }
    }
  }

  lemma DanglingIffNull(rows: seq<GroupRow>, byID: map<int, Account>, nids: map<int, set<Account?>>,
                        ids: seq<int>, nodes: seq<Account>, id: int)
    requires |ids| <= |nodes| && Indexed(byID, ids, nodes) && LinksOf(nids, rows, byID) && id in nids
    ensures null in nids[id] <==> Dangling(rows, ids, id)
  {
    if Dangling(rows, ids, id) {
      var r :| r in rows && r.accountID !in ids && r.group.ID == id;
      assert NodeOf(byID, r.accountID) in LinkedNodes(rows, byID, id);
    }
  }

  lemma MemberIffLinked(rows: seq<GroupRow>, byID: map<int, Account>, nids: map<int, set<Account?>>,
                        ids: seq<int>, nodes: seq<Account>, id: int, k: nat)
    requires |ids| == |nodes| && Indexed(byID, ids, nodes) && LinksOf(nids, rows, byID) && id in nids
    requires Distinct(nodes) && k < |nodes|
    ensures nodes[k] in nids[id] <==> Receives(ids, rows, k, id)
  {
    if LastIndex(ids, ids[k]) == k && Linked(rows, ids[k], id) {
      var r :| r in rows && r.accountID == ids[k] && r.group.ID == id;
      assert ids[k] in ids;
      assert NodeOf(byID, r.accountID) == nodes[k];
      assert NodeOf(byID, r.accountID) in LinkedNodes(rows, byID, id);
    }
    if nodes[k] in nids[id] {
      var r :| r in rows && r.group.ID == id && NodeOf(byID, r.accountID) == nodes[k];
      assert nodes[LastIndex(ids, r.accountID)] == nodes[k];
    }
  }

  lemma {:induction false} FirstBadGroupStays(ids: seq<int>, rows: seq<GroupRow>, ns: seq<Group>, k: nat)
    requires k <= |ns| && FirstBadGroup(ids, rows, ns[..k]).Some?
    ensures FirstBadGroup(ids, rows, ns) == FirstBadGroup(ids, rows, ns[..k])
    decreases |ns|
  {
    if k == |ns| {
      assert ns[..k] == ns;
    } else {
      var n := |ns| - 1;
      assert ns[..n][..k] == ns[..k];
      FirstBadGroupStays(ids, rows, ns[..n], k);
    }
  }

  /** Appends a group to every node of a set, in whatever order the set is traversed; fails on nil. */
  method AppendToAll(targets: set<Account?>, n: Group, nodes: seq<Account>) returns (ok: bool)
    requires forall x :: x in targets && x != null ==> x in nodes
    modifies nodes`Edges
    ensures ok <==> null !in targets
    ensures ok ==> forall x :: x in nodes ==>
      x.Edges == if x in targets then old(x.Edges).(Groups := old(x.Edges).Groups + [n]) else old(x.Edges)
  {
    var todo := targets;
    while todo != {}
      invariant todo <= targets && null !in targets - todo
      invariant forall x :: x in nodes ==>
        x.Edges == if x in targets - todo then old(x.Edges).(Groups := old(x.Edges).Groups + [n]) else old(x.Edges)
    {
      var kn :| kn in todo;
      if kn == null {
        return false;
      }
      kn.Edges := kn.Edges.(Groups := kn.Edges.Groups + [n]);
      todo := todo - {kn};
    }
    return true;
  }

  // --------------------------------------------------------------- many to one

  method LoadProxy(query: ProxyQuery, nodes: seq<Account>, ghost es: seq<Entity>) returns (err: Option<LoadError>)
    requires Holds(nodes, es)
    requires forall i :: 0 <= i < |nodes| ==> nodes[i].Edges.Proxy == None
    modifies nodes`Edges
    ensures var r := JoinProxy(query, ForeignKeys(es, ProxyID));
      && (r.Failure? ==> err == Some(r.error))
      && (r.Success? ==> err == None && forall i :: 0 <= i < |nodes| ==>
            nodes[i].Edges == old(nodes[i].Edges).(Proxy := r.value[i]))
  {
    var ids, nodeids := IndexByForeignKey(nodes, ProxyID, es);
    if |ids| == 0 {
      NothingFound<Proxy>(ForeignKeys(es, ProxyID));
      return None;
    }
    if query.failure.Some? {
      return query.failure;
    }
    err := AssignProxies(Proxies(query, ids), nodeids, nodes, ForeignKeys(es, ProxyID));
  }

  method AssignProxies(neighbors: seq<Proxy>, nodeids: map<int, seq<Account>>, nodes: seq<Account>,
                       ghost fks: seq<Option<int>>) returns (err: Option<LoadError>)
    requires |fks| == |nodes| && OwnedBy(nodeids, fks, nodes)
    requires forall i :: 0 <= i < |nodes| ==> nodes[i].Edges.Proxy == None
    modifies nodes`Edges
    ensures err == FirstStray(fks, ProxyIDs(neighbors))
    ensures err == None ==> forall k :: 0 <= k < |nodes| ==>
      nodes[k].Edges == old(nodes[k].Edges).(Proxy := FoundAll(fks, ProxyIDs(neighbors), neighbors)[k])
  {
    ghost var keys, was := ProxyIDs(neighbors), EdgesOf(nodes);
    ghost var found: seq<Option<Proxy>> := FoundAll(fks, [], []);
    for j := 0 to |neighbors|
      invariant FirstStray(fks, keys[..j]) == None
      invariant found == FoundAll(fks, keys[..j], neighbors[..j]) && ProxiesSet(nodes, was, found)
    {
      var n := neighbors[j];
      StrayStep(nodeids, fks, nodes, keys, j);
      if n.ID !in nodeids {
        return Some(UnexpectedForeignKey(n.ID));
      }
      FoundByOwners(nodeids, fks, nodes, keys, neighbors, j);
      ghost var next := FoundAll(fks, keys[..j+1], neighbors[..j+1]);
      PlaceProxy(nodeids[n.ID], n, nodes, was, found, next);
      found := next;
    }
    assert keys[..|neighbors|] == keys && neighbors[..|neighbors|] == neighbors;
    return None;
  }

  /** Without a single key there is nothing to look up. */
  lemma NothingFound<T>(fks: seq<Option<int>>)
    requires Wanted(fks) == []
    ensures Lookup<T>(fks, [], []).Success?
    ensures forall i :: 0 <= i < |fks| ==> fks[i] == None && Lookup<T>(fks, [], []).value[i] == None
  {
    assert FirstStray(fks, []) == None;
    forall i | 0 <= i < |fks|
      ensures fks[i] == None
    {
      KeyIsWanted(fks, i);
    }
  }

  lemma {:induction false} FirstStrayStays(fks: seq<Option<int>>, keys: seq<int>, k: nat)
    requires k <= |keys| && FirstStray(fks, keys[..k]).Some?
    ensures FirstStray(fks, keys) == FirstStray(fks, keys[..k])
    decreases |keys|
  {
    if k == |keys| {
      assert keys[..k] == keys;
    } else {
      var n := |keys| - 1;
      assert keys[..n][..k] == keys[..k];
      FirstStrayStays(fks, keys[..n], k);
    }
  }

  /** One neighbour, written to all the nodes that own its key. */
  /** The edges of some nodes as they are. */
  ghost function EdgesOf(nodes: seq<Account>): (r: seq<Edges<Account>>)
    reads nodes
    ensures |r| == |nodes| && forall k :: 0 <= k < |nodes| ==> r[k] == nodes[k].Edges
  {
    seq(|nodes|, k requires 0 <= k < |nodes| reads nodes => nodes[k].Edges)
  }

  ghost predicate ProxiesSet(nodes: seq<Account>, was: seq<Edges<Account>>, found: seq<Option<Proxy>>)
    reads nodes
  {
    && |was| == |found| == |nodes|
    && forall k :: 0 <= k < |nodes| ==> nodes[k].Edges == was[k].(Proxy := found[k])
  }

  /** One more neighbour for its owners. */
  method PlaceProxy(owners: seq<Account>, n: Proxy, nodes: seq<Account>, ghost was: seq<Edges<Account>>,
                    ghost found: seq<Option<Proxy>>, ghost next: seq<Option<Proxy>>)
    requires forall t :: 0 <= t < |owners| ==> owners[t] in nodes
    requires ProxiesSet(nodes, was, found) && |next| == |nodes|
    requires forall k :: 0 <= k < |nodes| ==> next[k] == if nodes[k] in owners then Some(n) else found[k]
    modifies nodes`Edges
    ensures ProxiesSet(nodes, was, next)
  {
    SetProxy(owners, n, nodes);
  }

  method SetProxy(owners: seq<Account>, n: Proxy, nodes: seq<Account>)
    requires forall t :: 0 <= t < |owners| ==> owners[t] in nodes
    modifies nodes`Edges
    ensures forall k :: 0 <= k < |nodes| ==>
      nodes[k].Edges == if nodes[k] in owners then old(nodes[k].Edges).(Proxy := Some(n)) else old(nodes[k].Edges)
  {
    for t := 0 to |owners|
      invariant forall x :: x in nodes ==>
        x.Edges == if x in owners[..t] then old(x.Edges).(Proxy := Some(n)) else old(x.Edges)
    {
      assert owners[t] in owners;
      owners[t].Edges := owners[t].Edges.(Proxy := Some(n));
      assert owners[..t+1] == owners[..t] + [owners[t]];
    }
    assert owners[..|owners|] == owners;
  }

  /** The next neighbour is wanted exactly if the index has its id. */
  lemma StrayStep(nodeids: map<int, seq<Account>>, fks: seq<Option<int>>, nodes: seq<Account>, keys: seq<int>, j: nat)
    requires |fks| == |nodes| && OwnedBy(nodeids, fks, nodes) && j < |keys| && FirstStray(fks, keys[..j]) == None
    ensures keys[j] in nodeids ==> FirstStray(fks, keys[..j+1]) == None
    ensures keys[j] !in nodeids ==> FirstStray(fks, keys) == Some(UnexpectedForeignKey(keys[j]))
  {
    assert keys[..j+1][..j] == keys[..j];
    if keys[j] !in nodeids {
      FirstStrayStays(fks, keys, j + 1);
    }
  }

  /** The lookups after one more neighbour, told by the owners the index gives. */
  lemma FoundByOwners<T>(nodeids: map<int, seq<Account>>, fks: seq<Option<int>>, nodes: seq<Account>,
                         keys: seq<int>, ns: seq<T>, j: nat)
    requires |fks| == |nodes| && OwnedBy(nodeids, fks, nodes) && j < |keys| == |ns| && keys[j] in nodeids
    ensures forall t :: 0 <= t < |nodeids[keys[j]]| ==> nodeids[keys[j]][t] in nodes
    ensures var before, after := FoundAll(fks, keys[..j], ns[..j]), FoundAll(fks, keys[..j+1], ns[..j+1]);
      forall k :: 0 <= k < |nodes| ==>
        after[k] == if nodes[k] in nodeids[keys[j]] then Some(ns[j]) else before[k]
  {
    FoundSnoc(fks, keys, ns, j);
    OwnersAre(nodeids, fks, nodes, keys[j]);
  }

  lemma OwnersAre(nodeids: map<int, seq<Account>>, fks: seq<Option<int>>, nodes: seq<Account>, key: int)
    requires |fks| == |nodes| && OwnedBy(nodeids, fks, nodes) && key in nodeids
    ensures forall t :: 0 <= t < |nodeids[key]| ==> nodeids[key][t] in nodes
    ensures forall k :: 0 <= k < |nodes| ==> (nodes[k] in nodeids[key] <==> fks[k] == Some(key))
  {
  }

  /** The lookups after one more neighbour. */
  lemma FoundSnoc<T>(fks: seq<Option<int>>, keys: seq<int>, ns: seq<T>, j: nat)
    requires j < |keys| == |ns|
    ensures var before, after := FoundAll(fks, keys[..j], ns[..j]), FoundAll(fks, keys[..j+1], ns[..j+1]);
      forall k :: 0 <= k < |fks| ==> after[k] == if fks[k] == Some(keys[j]) then Some(ns[j]) else before[k]
  {
    forall k | 0 <= k < |fks| && fks[k].Some?
      ensures Found(fks[k], keys[..j+1], ns[..j+1])
        == if fks[k] == Some(keys[j]) then Some(ns[j]) else Found(fks[k], keys[..j], ns[..j])
    {
      LastMatchSnoc(keys, ns, j, fks[k].value);
    }
  }

  // --------------------------------------------------------------- one to many

  /** The error check after one more neighbour. */
  lemma KeyStep(ids: seq<int>, keys: seq<Option<int>>, labels: seq<int>, j: nat)
    requires j < |keys| == |labels| && FirstBadKey(ids, keys[..j], labels[..j]) == None
    ensures keys[j] == None ==> FirstBadKey(ids, keys, labels) == Some(NilForeignKey(labels[j]))
    ensures keys[j].Some? && keys[j].value !in ids ==>
      FirstBadKey(ids, keys, labels) == Some(UnexpectedForeignKey(keys[j].value))
    ensures keys[j].Some? && keys[j].value in ids ==> FirstBadKey(ids, keys[..j+1], labels[..j+1]) == None
  {
    assert keys[..j+1][..j] == keys[..j] && labels[..j+1][..j] == labels[..j];
    if keys[j] == None || keys[j].value !in ids {
      FirstBadKeyStays(ids, keys, labels, j + 1);
    }
  }

  /** The shares after one more neighbour. */
  lemma SharesSnoc<T>(ids: seq<int>, keys: seq<Option<int>>, ns: seq<T>, j: nat)
    requires j < |keys| == |ns| && keys[j].Some? && keys[j].value in ids
    ensures var at := LastIndex(ids, keys[j].value); var before := Shares(ids, keys[..j], ns[..j]);
      Shares(ids, keys[..j+1], ns[..j+1]) == before[at := before[at] + [ns[j]]]
  {
    forall k | 0 <= k < |ids|
      ensures Share(ids, keys[..j+1], ns[..j+1], k) == Share(ids, keys[..j], ns[..j], k)
        + if LastIndex(ids, keys[j].value) == k then [ns[j]] else []
    {
      SelectSnoc(keys, ns, j, Some(ids[k]));
    }
    var at := LastIndex(ids, keys[j].value);
    var before, after := Shares(ids, keys[..j], ns[..j]), Shares(ids, keys[..j+1], ns[..j+1]);
    assert forall k :: 0 <= k < |ids| ==> after[k] == before[at := before[at] + [ns[j]]][k];
  }

  lemma {:induction false} FirstBadKeyStays(ids: seq<int>, keys: seq<Option<int>>, labels: seq<int>, k: nat)
    requires k <= |keys| == |labels| && FirstBadKey(ids, keys[..k], labels[..k]).Some?
    ensures FirstBadKey(ids, keys, labels) == FirstBadKey(ids, keys[..k], labels[..k])
    decreases |keys|
  {
    if k == |keys| {
      assert keys[..k] == keys && labels[..k] == labels;
    } else {
      var n := |keys| - 1;
      assert keys[..n][..k] == keys[..k] && labels[..n][..k] == labels[..k];
      FirstBadKeyStays(ids, keys[..n], labels[..n], k);
    }
  }

  method LoadUsageLogs(query: UsageLogQuery, nodes: seq<Account>, ghost es: seq<Entity>)
    returns (err: Option<LoadError>)
    requires Holds(nodes, es) && Distinct(nodes)
    modifies nodes`Edges
    ensures var r := JoinUsageLogs(query, IDs(es));
      && (r.Failure? ==> err == Some(r.error))
      && (r.Success? ==> err == None && forall i :: 0 <= i < |nodes| ==>
            nodes[i].Edges == old(nodes[i].Edges).(UsageLogs := r.value[i]))
  {
    var fks, nodeids := IndexByID(nodes, es);
    forall i | 0 <= i < |nodes| {
      nodes[i].Edges := nodes[i].Edges.(UsageLogs := []);
    }
    if query.failure.Some? {
      return query.failure;
    }
    err := AssignUsageLogs(UsageLogs(query, fks), nodeids, nodes, fks);
  }

  method AppendUsageLog(node: Account, n: UsageLog, nodes: seq<Account>, ghost at: nat)
    requires at < |nodes| && nodes[at] == node && Distinct(nodes)
    modifies node`Edges
    ensures forall k :: 0 <= k < |nodes| ==>
      nodes[k].Edges == if k == at then old(nodes[k].Edges).(UsageLogs := old(nodes[k].Edges).UsageLogs + [n])
                        else old(nodes[k].Edges)
  {
    node.Edges := node.Edges.(UsageLogs := node.Edges.UsageLogs + [n]);
  }

  method AssignUsageLogs(neighbors: seq<UsageLog>, nodeids: map<int, Account>, nodes: seq<Account>, ghost ids: seq<int>)
    returns (err: Option<LoadError>)
    requires |ids| == |nodes| && Indexed(nodeids, ids, nodes) && Distinct(nodes)
    requires forall k :: 0 <= k < |nodes| ==> nodes[k].Edges.UsageLogs == []
    modifies nodes`Edges
    ensures err == FirstBadKey(ids, UsageLogKeys(neighbors), UsageLogIDs(neighbors))
    ensures err == None ==> forall k :: 0 <= k < |nodes| ==>
      nodes[k].Edges == old(nodes[k].Edges).(UsageLogs := Shares(ids, UsageLogKeys(neighbors), neighbors)[k])
  {
    ghost var shares: seq<seq<UsageLog>> := Shares(ids, [], []);
    ghost var keys, labels := UsageLogKeys(neighbors), UsageLogIDs(neighbors);
    for j := 0 to |neighbors|
      invariant FirstBadKey(ids, keys[..j], labels[..j]) == None
      invariant shares == Shares(ids, keys[..j], neighbors[..j])
      invariant forall k :: 0 <= k < |nodes| ==> nodes[k].Edges == old(nodes[k].Edges).(UsageLogs := shares[k])
    {
      var n := neighbors[j];
      KeyStep(ids, keys, labels, j);
      var fk := n.AccountID;
      if fk !in nodeids {
        return Some(UnexpectedForeignKey(fk));
      }
      SharesSnoc(ids, keys, neighbors, j);
      ghost var at := LastIndex(ids, fk);
      AppendUsageLog(nodeids[fk], n, nodes, at);
      shares := shares[at := shares[at] + [n]];
    }
    assert keys[..|neighbors|] == keys && labels[..|neighbors|] == labels && neighbors[..|neighbors|] == neighbors;
    return None;
  }

  method LoadAccountGroups(query: AccountGroupQuery, nodes: seq<Account>, ghost es: seq<Entity>)
    returns (err: Option<LoadError>)
    requires Holds(nodes, es) && Distinct(nodes)
    modifies nodes`Edges
    ensures var r := JoinAccountGroups(query, IDs(es));
      && (r.Failure? ==> err == Some(r.error))
      && (r.Success? ==> err == None && forall i :: 0 <= i < |nodes| ==>
            nodes[i].Edges == old(nodes[i].Edges).(AccountGroups := r.value[i]))
  {
    var fks, nodeids := IndexByID(nodes, es);
    forall i | 0 <= i < |nodes| {
      nodes[i].Edges := nodes[i].Edges.(AccountGroups := []);
    }
    if query.failure.Some? {
      return query.failure;
    }
    err := AssignAccountGroups(AccountGroups(query, fks), nodeids, nodes, fks);
  }

  method AppendAccountGroup(node: Account, n: AccountGroup, nodes: seq<Account>, ghost at: nat)
    requires at < |nodes| && nodes[at] == node && Distinct(nodes)
    modifies node`Edges
    ensures forall k :: 0 <= k < |nodes| ==>
      nodes[k].Edges == if k == at then old(nodes[k].Edges).(AccountGroups := old(nodes[k].Edges).AccountGroups + [n])
                        else old(nodes[k].Edges)
  {
    node.Edges := node.Edges.(AccountGroups := node.Edges.AccountGroups + [n]);
  }

  method AssignAccountGroups(neighbors: seq<AccountGroup>, nodeids: map<int, Account>,
                             nodes: seq<Account>, ghost ids: seq<int>)
    returns (err: Option<LoadError>)
    requires |ids| == |nodes| && Indexed(nodeids, ids, nodes) && Distinct(nodes)
    requires forall k :: 0 <= k < |nodes| ==> nodes[k].Edges.AccountGroups == []
    modifies nodes`Edges
    ensures err == FirstBadKey(ids, AccountGroupKeys(neighbors), AccountGroupLabels(neighbors))
    ensures err == None ==> forall k :: 0 <= k < |nodes| ==>
      nodes[k].Edges == old(nodes[k].Edges).(AccountGroups := Shares(ids, AccountGroupKeys(neighbors), neighbors)[k])
  {
    ghost var shares: seq<seq<AccountGroup>> := Shares(ids, [], []);
    ghost var keys, labels := AccountGroupKeys(neighbors), AccountGroupLabels(neighbors);
    for j := 0 to |neighbors|
      invariant FirstBadKey(ids, keys[..j], labels[..j]) == None
      invariant shares == Shares(ids, keys[..j], neighbors[..j])
      invariant forall k :: 0 <= k < |nodes| ==> nodes[k].Edges == old(nodes[k].Edges).(AccountGroups := shares[k])
    {
      var n := neighbors[j];
      KeyStep(ids, keys, labels, j);
      var fk := n.AccountID;
      if fk !in nodeids {
        return Some(UnexpectedForeignKey(fk));
      }
      SharesSnoc(ids, keys, neighbors, j);
      ghost var at := LastIndex(ids, fk);
      AppendAccountGroup(nodeids[fk], n, nodes, at);
      shares := shares[at := shares[at] + [n]];
    }
    assert keys[..|neighbors|] == keys && labels[..|neighbors|] == labels && neighbors[..|neighbors|] == neighbors;
    return None;
  }

  // ------------------------------------------------- edges to other accounts

  /** What `All` returns, heap side: nodes whose trees are `ts`, in a closed and fresh part of the heap. */
  ghost predicate Built(nodes: seq<Account>, g: map<Account, Tree>, ts: seq<Tree>)
    reads g.Keys
  {
    && Represents(g) && Distinct(nodes) && |nodes| == |ts|
    && forall i :: 0 <= i < |nodes| ==> nodes[i] in g && g[nodes[i]] == ts[i]
  }

  method AssignParents(neighbors: seq<Account>, nodeids: map<int, seq<Account>>, nodes: seq<Account>,
                       ghost fks: seq<Option<int>>, ghost nes: seq<Entity>) returns (err: Option<LoadError>)
    requires |fks| == |nodes| && OwnedBy(nodeids, fks, nodes) && Holds(neighbors, nes)
    requires forall i :: 0 <= i < |nodes| ==> nodes[i].Edges.Parent == None
    modifies nodes`Edges
    ensures err == FirstStray(fks, IDs(nes))
    ensures err == None ==> forall k :: 0 <= k < |nodes| ==>
      nodes[k].Edges == old(nodes[k].Edges).(Parent := FoundAll(fks, IDs(nes), neighbors)[k])
  {
    ghost var keys, was := IDs(nes), EdgesOf(nodes);
    ghost var found: seq<Option<Account>> := FoundAll(fks, [], []);
    for j := 0 to |neighbors|
      invariant FirstStray(fks, keys[..j]) == None
      invariant Holds(neighbors, nes)
      invariant found == FoundAll(fks, keys[..j], neighbors[..j]) && ParentsSet(nodes, was, found)
    {
      var n := neighbors[j];
      var fk := n.entity.ID();
      HeldKeys(neighbors, nes, j);
      StrayStep(nodeids, fks, nodes, keys, j);
      if fk !in nodeids {
        return Some(UnexpectedForeignKey(fk));
      }
      found := NextParent(nodeids, n, nodes, fks, keys, neighbors, j, was, found);
    }
    ParentsEnd(nodes, was, fks, keys, neighbors, found);
    return None;
  }

  lemma HeldKeys(neighbors: seq<Account>, nes: seq<Entity>, j: nat)
    requires Holds(neighbors, nes) && j < |neighbors|
    ensures IDs(nes)[j] == neighbors[j].entity.ID()
    ensures ForeignKeys(nes, ParentAccountID)[j] == neighbors[j].entity.ForeignKey(ParentAccountID)
  {
  }

  lemma ParentsEnd(nodes: seq<Account>, was: seq<Edges<Account>>, fks: seq<Option<int>>, keys: seq<int>,
                   neighbors: seq<Account>, found: seq<Option<Account>>)
    requires |keys| == |neighbors| && ParentsSet(nodes, was, found)
    requires found == FoundAll(fks, keys[..|neighbors|], neighbors[..|neighbors|])
    ensures forall k :: 0 <= k < |nodes| ==> nodes[k].Edges == was[k].(Parent := FoundAll(fks, keys, neighbors)[k])
    ensures FirstStray(fks, keys) == FirstStray(fks, keys[..|neighbors|])
  {
    assert keys[..|neighbors|] == keys && neighbors[..|neighbors|] == neighbors;
  }

  ghost predicate ParentsSet(nodes: seq<Account>, was: seq<Edges<Account>>, found: seq<Option<Account>>)
    reads nodes
  {
    && |was| == |found| == |nodes|
    && forall k :: 0 <= k < |nodes| ==> nodes[k].Edges == was[k].(Parent := found[k])
  }

  method NextParent(nodeids: map<int, seq<Account>>, n: Account, nodes: seq<Account>, ghost fks: seq<Option<int>>,
                    ghost keys: seq<int>, ghost neighbors: seq<Account>, ghost j: nat,
                    ghost was: seq<Edges<Account>>, ghost found: seq<Option<Account>>)
    returns (ghost next: seq<Option<Account>>)
    requires |fks| == |nodes| && OwnedBy(nodeids, fks, nodes) && j < |keys| == |neighbors| && n == neighbors[j]
    requires keys[j] == n.entity.ID() && keys[j] in nodeids
    requires found == FoundAll(fks, keys[..j], neighbors[..j]) && ParentsSet(nodes, was, found)
    modifies nodes`Edges
    ensures next == FoundAll(fks, keys[..j+1], neighbors[..j+1]) && ParentsSet(nodes, was, next)
  {
    FoundByOwners(nodeids, fks, nodes, keys, neighbors, j);
    next := FoundAll(fks, keys[..j+1], neighbors[..j+1]);
    PlaceParent(nodeids[n.entity.ID()], n, nodes, was, found, next);
  }

  method PlaceParent(owners: seq<Account>, n: Account, nodes: seq<Account>, ghost was: seq<Edges<Account>>,
                     ghost found: seq<Option<Account>>, ghost next: seq<Option<Account>>)
    requires forall t :: 0 <= t < |owners| ==> owners[t] in nodes
    requires ParentsSet(nodes, was, found) && |next| == |nodes|
    requires forall k :: 0 <= k < |nodes| ==> next[k] == if nodes[k] in owners then Some(n) else found[k]
    modifies nodes`Edges
    ensures ParentsSet(nodes, was, next)
  {
    SetParent(owners, n, nodes);
  }

  method SetParent(owners: seq<Account>, n: Account, nodes: seq<Account>)
    requires forall t :: 0 <= t < |owners| ==> owners[t] in nodes
    modifies nodes`Edges
    ensures forall k :: 0 <= k < |nodes| ==>
      nodes[k].Edges == if nodes[k] in owners then old(nodes[k].Edges).(Parent := Some(n)) else old(nodes[k].Edges)
  {
    for t := 0 to |owners|
      invariant forall x :: x in nodes ==>
        x.Edges == if x in owners[..t] then old(x.Edges).(Parent := Some(n)) else old(x.Edges)
    {
      owners[t].Edges := owners[t].Edges.(Parent := Some(n));
      assert owners[..t+1] == owners[..t] + [owners[t]];
    }
    assert owners[..|owners|] == owners;
  }

  method AssignChildren(neighbors: seq<Account>, nodeids: map<int, Account>, nodes: seq<Account>,
                        ghost ids: seq<int>, ghost nes: seq<Entity>) returns (err: Option<LoadError>)
    requires |ids| == |nodes| && Indexed(nodeids, ids, nodes) && Distinct(nodes) && Holds(neighbors, nes)
    requires forall k :: 0 <= k < |nodes| ==> nodes[k].Edges.Children == []
    modifies nodes`Edges
    ensures err == FirstBadKey(ids, ForeignKeys(nes, ParentAccountID), IDs(nes))
    ensures err == None ==> forall k :: 0 <= k < |nodes| ==>
      nodes[k].Edges
        == old(nodes[k].Edges).(Children := Shares(ids, ForeignKeys(nes, ParentAccountID), neighbors)[k])
  {
    ghost var shares: seq<seq<Account>> := Shares(ids, [], []);
    ghost var keys, labels, was := ForeignKeys(nes, ParentAccountID), IDs(nes), EdgesOf(nodes);
    for j := 0 to |neighbors|
      invariant FirstBadKey(ids, keys[..j], labels[..j]) == None
      invariant shares == Shares(ids, keys[..j], neighbors[..j])
      invariant Holds(neighbors, nes) && ChildrenSet(nodes, was, shares)
    {
      var n := neighbors[j];
      var fk := n.entity.ForeignKey(ParentAccountID);
      HeldKeys(neighbors, nes, j);
      KeyStep(ids, keys, labels, j);
      if fk == None || fk.value !in nodeids {
        return Some(if fk == None then NilForeignKey(n.entity.ID()) else UnexpectedForeignKey(fk.value));
      }
      SharesSnoc(ids, keys, neighbors, j);
      ghost var at := LastIndex(ids, fk.value);
      PlaceChild(nodeids[fk.value], n, nodes, at, was, shares);
      shares := shares[at := shares[at] + [n]];
    }
    ChildrenEnd(nodes, was, ids, keys, labels, neighbors, shares);
    return None;
  }

  lemma ChildrenEnd(nodes: seq<Account>, was: seq<Edges<Account>>, ids: seq<int>, keys: seq<Option<int>>,
                    labels: seq<int>, neighbors: seq<Account>, shares: seq<seq<Account>>)
    requires |keys| == |labels| == |neighbors| && ChildrenSet(nodes, was, shares) && |ids| == |nodes|
    requires shares == Shares(ids, keys[..|neighbors|], neighbors[..|neighbors|])
    ensures forall k :: 0 <= k < |nodes| ==> nodes[k].Edges == was[k].(Children := Shares(ids, keys, neighbors)[k])
    ensures FirstBadKey(ids, keys, labels) == FirstBadKey(ids, keys[..|neighbors|], labels[..|neighbors|])
  {
    assert keys[..|neighbors|] == keys && labels[..|neighbors|] == labels && neighbors[..|neighbors|] == neighbors;
  }

  ghost predicate ChildrenSet(nodes: seq<Account>, was: seq<Edges<Account>>, shares: seq<seq<Account>>)
    reads nodes
  {
    && |was| == |shares| == |nodes|
    && forall k :: 0 <= k < |nodes| ==> nodes[k].Edges == was[k].(Children := shares[k])
  }

  method PlaceChild(node: Account, n: Account, nodes: seq<Account>, ghost at: nat, ghost was: seq<Edges<Account>>,
                    ghost shares: seq<seq<Account>>)
    requires at < |nodes| && nodes[at] == node && Distinct(nodes) && ChildrenSet(nodes, was, shares)
    modifies node`Edges
    ensures ChildrenSet(nodes, was, shares[at := shares[at] + [n]])
  {
    AppendChild(node, n, nodes, at);
  }

  method AppendChild(node: Account, n: Account, nodes: seq<Account>, ghost at: nat)
    requires at < |nodes| && nodes[at] == node && Distinct(nodes)
    modifies node`Edges
    ensures forall k :: 0 <= k < |nodes| ==>
      nodes[k].Edges == if k == at then old(nodes[k].Edges).(Children := old(nodes[k].Edges).Children + [n])
                        else old(nodes[k].Edges)
  {
    node.Edges := node.Edges.(Children := node.Edges.Children + [n]);
  }

  /** Joining nodes and joining their trees is the same. */
  lemma {:induction false} LastMatchThrough(keys: seq<int>, nodes: seq<Account>, ts: seq<Tree>,
                                            g: map<Account, Tree>, k: int)
    requires |keys| == |nodes| == |ts|
    requires forall i :: 0 <= i < |nodes| ==> nodes[i] in g && g[nodes[i]] == ts[i]
    ensures match LastMatch(keys, nodes, k)
      case None => LastMatch(keys, ts, k) == None
      case Some(n) => n in g && LastMatch(keys, ts, k) == Some(g[n])
  {
    if nodes != [] {
      var m := |nodes| - 1;
      LastMatchThrough(keys[..m], nodes[..m], ts[..m], g, k);
    }
  }

  lemma {:induction false} SelectThrough(keys: seq<Option<int>>, nodes: seq<Account>, ts: seq<Tree>,
                                         g: map<Account, Tree>, k: Option<int>)
    requires |keys| == |nodes| == |ts|
    requires forall i :: 0 <= i < |nodes| ==> nodes[i] in g && g[nodes[i]] == ts[i]
    ensures var a, b := Select(keys, nodes, k), Select(keys, ts, k);
      |a| == |b| && forall i :: 0 <= i < |a| ==> a[i] in g && g[a[i]] == b[i]
  {
    if nodes != [] {
      var m := |nodes| - 1;
      SelectThrough(keys[..m], nodes[..m], ts[..m], g, k);
    }
  }

  /** The entities of the nodes, read off their trees. */
  ghost function TreeEntities(ts: seq<Tree>): (es: seq<Entity>)
    ensures |es| == |ts|
    ensures IDs(es) == TreeIDs(ts) && ForeignKeys(es, ParentAccountID) == TreeKeys(ts)
  {
    seq(|ts|, i requires 0 <= i < |ts| => ts[i].entity)
  }

  /** The parents of the nodes are the trees `ps`, position by position. */
  ghost predicate ParentsAre(ps: seq<Option<Tree>>, nodes: seq<Account>, g: map<Account, Tree>)
    reads nodes
  {
    |ps| == |nodes| && forall i :: 0 <= i < |nodes| ==>
      match nodes[i].Edges.Parent
      case None => ps[i] == None
      case Some(p) => p in g && ps[i] == Some(g[p])
  }

  ghost predicate ChildrenAre(css: seq<seq<Tree>>, nodes: seq<Account>, g: map<Account, Tree>)
    reads nodes
  {
    |css| == |nodes| && forall i :: 0 <= i < |nodes| ==>
      var cs := nodes[i].Edges.Children;
      |cs| == |css[i]| && forall j :: 0 <= j < |cs| ==> cs[j] in g && g[cs[j]] == css[i][j]
  }

  method JoinParents(neighbors: seq<Account>, nodeids: map<int, seq<Account>>, nodes: seq<Account>,
                     ghost fks: seq<Option<int>>, ghost ts: seq<Tree>, ghost g: map<Account, Tree>)
    returns (err: Option<LoadError>)
    requires |fks| == |nodes| && OwnedBy(nodeids, fks, nodes) && Built(neighbors, g, ts)
    requires forall i :: 0 <= i < |nodes| ==> nodes[i] !in g && nodes[i].Edges.Parent == None
    modifies nodes`Edges
    ensures Represents(g)
    ensures forall i :: 0 <= i < |nodes| && err == None ==>
      nodes[i].Edges == old(nodes[i].Edges).(Parent := nodes[i].Edges.Parent)
    ensures var r := Lookup(fks, TreeIDs(ts), ts);
      && (r.Failure? ==> err == Some(r.error))
      && (r.Success? ==> err == None && ParentsAre(r.value, nodes, g))
  {
    err := AssignParents(neighbors, nodeids, nodes, fks, TreeEntities(ts));
    forall i | 0 <= i < |nodes| && fks[i].Some?
      ensures match LastMatch(TreeIDs(ts), neighbors, fks[i].value)
        case None => LastMatch(TreeIDs(ts), ts, fks[i].value) == None
        case Some(n) => n in g && LastMatch(TreeIDs(ts), ts, fks[i].value) == Some(g[n])
    {
      LastMatchThrough(TreeIDs(ts), neighbors, ts, g, fks[i].value);
    }
  }

  method LoadParent(query: Query, nodes: seq<Account>, ghost es: seq<Entity>)
    returns (err: Option<LoadError>, ghost g: map<Account, Tree>)
    requires Holds(nodes, es)
    requires forall i :: 0 <= i < |nodes| ==> nodes[i].Edges.Parent == None
    modifies nodes`Edges
    ensures fresh(g.Keys) && Represents(g)
    ensures forall i :: 0 <= i < |nodes| && err == None ==>
      nodes[i].Edges == old(nodes[i].Edges).(Parent := nodes[i].Edges.Parent)
    ensures var r := EvalParents(query, ForeignKeys(es, ParentAccountID));
      && (r.Failure? ==> err == Some(r.error))
      && (r.Success? ==> err == None && ParentsAre(r.value, nodes, g))
    decreases Depth(query), 3
  {
    ghost var fks := ForeignKeys(es, ParentAccountID);
    var ids, nodeids := IndexByForeignKey(nodes, ParentAccountID, es);
    if |ids| == 0 {
      NothingFound<Tree>(fks);
      g := map[];
      return None, g;
    }
    var neighbors;
    neighbors, err, g := All(query, IDIn(ids));
    if err == None {
      err := JoinParents(neighbors, nodeids, nodes, fks, Eval(query, IDIn(ids)).value, g);
    }
  }

  method JoinChildren(neighbors: seq<Account>, nodeids: map<int, Account>, nodes: seq<Account>,
                      ghost ids: seq<int>, ghost ts: seq<Tree>, ghost g: map<Account, Tree>)
    returns (err: Option<LoadError>)
    requires |ids| == |nodes| && Indexed(nodeids, ids, nodes) && Distinct(nodes) && Built(neighbors, g, ts)
    requires forall i :: 0 <= i < |nodes| ==> nodes[i] !in g && nodes[i].Edges.Children == []
    modifies nodes`Edges
    ensures Represents(g)
    ensures forall i :: 0 <= i < |nodes| && err == None ==>
      nodes[i].Edges == old(nodes[i].Edges).(Children := nodes[i].Edges.Children)
    ensures var r := Partition(ids, TreeKeys(ts), TreeIDs(ts), ts);
      && (r.Failure? ==> err == Some(r.error))
      && (r.Success? ==> err == None && ChildrenAre(r.value, nodes, g))
  {
    err := AssignChildren(neighbors, nodeids, nodes, ids, TreeEntities(ts));
    forall i | 0 <= i < |nodes|
      ensures var a, b := Share(ids, TreeKeys(ts), neighbors, i), Share(ids, TreeKeys(ts), ts, i);
        |a| == |b| && forall j :: 0 <= j < |a| ==> a[j] in g && g[a[j]] == b[j]
    {
      SelectThrough(TreeKeys(ts), neighbors, ts, g, Some(ids[i]));
    }
  }

  method LoadChildren(query: Query, nodes: seq<Account>, ghost es: seq<Entity>)
    returns (err: Option<LoadError>, ghost g: map<Account, Tree>)
    requires Holds(nodes, es) && Distinct(nodes)
    modifies nodes`Edges
    ensures fresh(g.Keys) && Represents(g)
    ensures forall i :: 0 <= i < |nodes| && err == None ==>
      nodes[i].Edges == old(nodes[i].Edges).(Children := nodes[i].Edges.Children)
    ensures var r := EvalChildren(query, IDs(es));
      && (r.Failure? ==> err == Some(r.error))
      && (r.Success? ==> err == None && ChildrenAre(r.value, nodes, g))
    decreases Depth(query), 3
  {
    var fks, nodeids := IndexByID(nodes, es);
    forall i | 0 <= i < |nodes| {
      nodes[i].Edges := nodes[i].Edges.(Children := []);
    }
    var neighbors;
    neighbors, err, g := All(WithForeignKey(query), ParentIn(fks));
    if err == None {
      err := JoinChildren(neighbors, nodeids, nodes, fks, Eval(WithForeignKey(query), ParentIn(fks)).value, g);
    }
  }

  // ------------------------------------------------------------ the whole query

  /** Passes on the error of an interceptor, or rejects a selection that names an unknown column. */
  method PrepareQuery(q: Query) returns (err: Option<LoadError>)
    ensures err == Unprepared(q)
  {
    if q.refusal.Some? {
      return q.refusal;
    }
    var fields := q.fields;
    for i := 0 to |fields|
      invariant FirstInvalid(fields[..i]) == None
    {
      assert fields[..i+1][..i] == fields[..i];
      if !ValidColumn(fields[i]) {
        FirstInvalidStays(fields, i + 1);
        return Some(InvalidField(fields[i]));
      }
    }
    assert fields[..|fields|] == fields;
    return None;
  }

  lemma {:induction false} FirstInvalidStays(fields: seq<Column>, k: nat)
    requires k <= |fields| && FirstInvalid(fields[..k]).Some?
    ensures FirstInvalid(fields) == FirstInvalid(fields[..k])
    decreases |fields|
  {
    if k == |fields| {
      assert fields[..k] == fields;
    } else {
      assert fields[..|fields| - 1][..k] == fields[..k];
      FirstInvalidStays(fields[..|fields| - 1], k);
    }
  }

  /** The columns of the SELECT, collected field by field. */
  method QuerySpec(q: Query) returns (columns: seq<Column>)
    ensures columns == SpecColumns(q)
  {
    if |q.fields| == 0 {
      return COLUMNS;
    }
    columns := [Id];
    for i := 0 to |q.fields|
      invariant columns == [Id] + Without(q.fields[..i], Id)
    {
      assert q.fields[..i+1][..i] == q.fields[..i];
      if q.fields[i] != Id {
        columns := columns + [q.fields[i]];
      }
    }
    assert q.fields[..|q.fields|] == q.fields;
    if q.withProxy.Some? {
      columns := AppendOnce(columns, ProxyID);
    }
    if q.withParent.Some? {
      columns := AppendOnce(columns, ParentAccountID);
    }
  }

  /** One fresh node per row, scanned and assigned. */
  method QueryNodes(columns: seq<Column>, rows: seq<Row>, loadedTypes: seq<bool>) returns (nodes: seq<Account>)
    ensures fresh(nodes) && Distinct(nodes) && Holds(nodes, Entities(columns, rows))
    ensures forall i :: 0 <= i < |nodes| ==> nodes[i].Edges == NoEdges(loadedTypes)
  {
    nodes := [];
    for k := 0 to |rows|
      invariant fresh(nodes) && Distinct(nodes) && |nodes| == k
      invariant forall i :: 0 <= i < k ==> nodes[i].entity == EntityOf(columns, rows[i])
      invariant forall i :: 0 <= i < k ==> nodes[i].Edges == NoEdges(loadedTypes)
    {
      var holders := ScanValues(columns);
      var values := seq(|columns|, i requires 0 <= i < |columns| =>
        Scan(NewHolder(columns[i]), Get(rows[k].cells, columns[i])));
      assert values == ScanRow(columns, rows[k]);
      var node := new Account(loadedTypes);
      var err := node.AssignValues(columns, values);
      nodes := nodes + [node];
    }
  }

  /** The edges loaded before the accounts'. */
  method LoadFirstEdges(q: Query, nodes: seq<Account>, ghost es: seq<Entity>) returns (err: Option<LoadError>)
    requires Holds(nodes, es) && Distinct(nodes)
    requires forall i :: 0 <= i < |nodes| ==> nodes[i].Edges == NoEdges(Requested(q))
    modifies nodes`Edges
    ensures var g, p := GroupsEdge(q, es), ProxyEdge(q, es);
      && (g.Failure? ==> err == Some(g.error))
      && (g.Success? && p.Failure? ==> err == Some(p.error))
      && (g.Success? && p.Success? ==> err == None && forall i :: 0 <= i < |nodes| ==>
            nodes[i].Edges == Edges(g.value[i], p.value[i], None, [], [], [], Requested(q)))
  {
    err := None;
    if q.withGroups.Some? {
      err := LoadGroups(q.withGroups.value, nodes, es);
      if err != None { return; }
    }
    if q.withProxy.Some? {
      err := LoadProxy(q.withProxy.value, nodes, es);
    }
  }

  /** The edges loaded after the accounts'. */
  method LoadLastEdges(q: Query, nodes: seq<Account>, ghost es: seq<Entity>) returns (err: Option<LoadError>)
    requires Holds(nodes, es) && Distinct(nodes)
    requires forall i :: 0 <= i < |nodes| ==> nodes[i].Edges.UsageLogs == [] && nodes[i].Edges.AccountGroups == []
    modifies nodes`Edges
    ensures var u, a := UsageLogsEdge(q, es), AccountGroupsEdge(q, es);
      && (u.Failure? ==> err == Some(u.error))
      && (u.Success? && a.Failure? ==> err == Some(a.error))
      && (u.Success? && a.Success? ==> err == None && forall i :: 0 <= i < |nodes| ==>
            nodes[i].Edges == old(nodes[i].Edges).(UsageLogs := u.value[i], AccountGroups := a.value[i]))
  {
    err := None;
    if q.withUsageLogs.Some? {
      err := LoadUsageLogs(q.withUsageLogs.value, nodes, es);
      if err != None { return; }
    }
    if q.withAccountGroups.Some? {
      err := LoadAccountGroups(q.withAccountGroups.value, nodes, es);
    }
  }

  /** The two edges to other accounts. */
  method LoadAccountEdges(q: Query, nodes: seq<Account>, ghost es: seq<Entity>)
    returns (err: Option<LoadError>, ghost g: map<Account, Tree>)
    requires Holds(nodes, es) && Distinct(nodes)
    requires forall i :: 0 <= i < |nodes| ==> nodes[i].Edges.Parent == None && nodes[i].Edges.Children == []
    modifies nodes`Edges
    ensures fresh(g.Keys) && Represents(g)
    ensures forall i :: 0 <= i < |nodes| && err == None ==>
      nodes[i].Edges
        == old(nodes[i].Edges).(Parent := nodes[i].Edges.Parent, Children := nodes[i].Edges.Children)
    ensures var p, c := ParentEdge(q, es), ChildrenEdge(q, es);
      && (p.Failure? ==> err == Some(p.error))
      && (p.Success? && c.Failure? ==> err == Some(c.error))
      && (p.Success? && c.Success? ==>
            err == None && ParentsAre(p.value, nodes, g) && ChildrenAre(c.value, nodes, g))
    decreases Depth(q), 0
  {
    err, g := None, map[];
    if q.withParent.Some? {
      err, g := LoadParent(q.withParent.value, nodes, es);
      if err != None { return; }
    }
    assert ParentEdge(q, es).Success? && ParentsAre(ParentEdge(q, es).value, nodes, g);
    if q.withChildren.Some? {
      err, g := AddChildren(q.withChildren.value, nodes, es, ParentEdge(q, es).value, g);
    }
  }

  /** Loads the children of nodes that have their parents. */
  method AddChildren(query: Query, nodes: seq<Account>, ghost es: seq<Entity>, ghost ps: seq<Option<Tree>>,
                     ghost parents: map<Account, Tree>)
    returns (err: Option<LoadError>, ghost g: map<Account, Tree>)
    requires Holds(nodes, es) && Distinct(nodes)
    requires Represents(parents) && ParentsAre(ps, nodes, parents)
    requires forall n :: n in nodes ==> n !in parents
    modifies nodes`Edges
    ensures fresh(g.Keys - parents.Keys) && Represents(g)
    ensures forall i :: 0 <= i < |nodes| && err == None ==>
      nodes[i].Edges == old(nodes[i].Edges).(Children := nodes[i].Edges.Children)
    ensures var c := EvalChildren(query, IDs(es));
      && (c.Failure? ==> err == Some(c.error))
      && (c.Success? ==> err == None && ParentsAre(ps, nodes, g) && ChildrenAre(c.value, nodes, g))
    decreases Depth(query), 4
  {
    ghost var children;
    err, children := LoadChildren(query, nodes, es);
    g := parents + children;
    RepresentsBoth(parents, children);
    if err == None {
      EdgesOfBoth(ps, EvalChildren(query, IDs(es)).value, nodes, parents, children);
    }
  }

  lemma EdgesOfBoth(ps: seq<Option<Tree>>, css: seq<seq<Tree>>, nodes: seq<Account>, a: map<Account, Tree>,
                    b: map<Account, Tree>)
    requires ParentsAre(ps, nodes, a) && ChildrenAre(css, nodes, b) && a.Keys !! b.Keys
    ensures ParentsAre(ps, nodes, a + b) && ChildrenAre(css, nodes, a + b)
  {
  }

  /** Two disjoint closed graphs make one. */
  lemma RepresentsBoth(a: map<Account, Tree>, b: map<Account, Tree>)
    requires Represents(a) && Represents(b) && a.Keys !! b.Keys
    ensures Represents(a + b)
  {
    var g := a + b;
    forall n | n in g
      ensures Closed(n.Edges, g) && g[n] == Tree(n.entity, View(n.Edges, g))
    {
      if n in b {
        assert View(n.Edges, g) == View(n.Edges, b);
      } else {
        assert View(n.Edges, g) == View(n.Edges, a);
      }
    }
  }

  /** Loads the requested edges one after the other, stopping at the first error. */
  method LoadEdges(q: Query, nodes: seq<Account>, ghost es: seq<Entity>)
    returns (err: Option<LoadError>, ghost g: map<Account, Tree>)
    requires Holds(nodes, es) && Distinct(nodes)
    requires forall i :: 0 <= i < |nodes| ==> nodes[i].Edges == NoEdges(Requested(q))
    modifies nodes`Edges
    ensures fresh(g.Keys) && Represents(g)
    ensures var r := Joined(q, es);
      && (r.Failure? ==> err == Some(r.error))
      && (r.Success? ==> err == None && TreesAre(r.value, nodes, es, g))
    decreases Depth(q), 1
  {
    g := map[];
    err := LoadFirstEdges(q, nodes, es);
    if err != None { return; }
    err, g := LoadAccountEdges(q, nodes, es);
    if err != None { return; }
    err := LoadLastEdges(q, nodes, es);
    if err == None {
      Assembled(q, nodes, es, g);
    }
  }

  /** Six joined edges make the trees. */
  lemma Assembled(q: Query, nodes: seq<Account>, es: seq<Entity>, g: map<Account, Tree>)
    requires |nodes| == |es|
    requires GroupsEdge(q, es).Success? && ProxyEdge(q, es).Success? && ParentEdge(q, es).Success?
    requires ChildrenEdge(q, es).Success? && UsageLogsEdge(q, es).Success? && AccountGroupsEdge(q, es).Success?
    requires ParentsAre(ParentEdge(q, es).value, nodes, g) && ChildrenAre(ChildrenEdge(q, es).value, nodes, g)
    requires forall i :: 0 <= i < |nodes| ==> var e := nodes[i].Edges;
      e == Edges(GroupsEdge(q, es).value[i], ProxyEdge(q, es).value[i], e.Parent, e.Children,
                 UsageLogsEdge(q, es).value[i], AccountGroupsEdge(q, es).value[i], Requested(q))
    ensures Joined(q, es).Success? && TreesAre(Joined(q, es).value, nodes, es, g)
  {
    var ts := Joined(q, es).value;
    forall i | 0 <= i < |nodes|
      ensures Closed(nodes[i].Edges, g) && ts[i] == Tree(es[i], View(nodes[i].Edges, g))
    {
      assert View(nodes[i].Edges, g).Children == ts[i].edges.Children;
    }
  }

  ghost predicate TreesAre(ts: seq<Tree>, nodes: seq<Account>, es: seq<Entity>, g: map<Account, Tree>)
    reads nodes
  {
    |ts| == |nodes| == |es| && forall i :: 0 <= i < |nodes| ==>
      Closed(nodes[i].Edges, g) && ts[i] == Tree(es[i], View(nodes[i].Edges, g))
  }

  /** Runs a query and loads every requested edge into the nodes, in place. The nodes are, as a heap graph,
      exactly the trees `Eval` gives; the first error of any load is the error of the query. */
  method All(q: Query, f: InFilter) returns (nodes: seq<Account>, err: Option<LoadError>, ghost g: map<Account, Tree>)
    ensures fresh(g.Keys) && Represents(g)
    ensures Eval(q, f).Failure? ==> err == Some(Eval(q, f).error) && nodes == []
    ensures Eval(q, f).Success? ==> err == None && Built(nodes, g, Eval(q, f).value)
    decreases Depth(q), 2
  {
    nodes, g := [], map[];
    err := PrepareQuery(q);
    if err != None {
      return;
    }
    if q.failure.Some? {
      return [], q.failure, g;
    }
    var columns := QuerySpec(q);
    var rows := q.fetch(f);
    var found := QueryNodes(columns, rows, Requested(q));
    if |found| == 0 {
      return;
    }
    ghost var es := Entities(columns, rows);
    ghost var below;
    err, below := LoadEdges(q, found, es);
    if err != None {
      return;
    }
    nodes := found;
    g := GraphOnTop(found, es, Eval(q, f).value, below);
  }

  /** The loaded nodes on top of the graph below them. */
  lemma GraphOnTop(nodes: seq<Account>, es: seq<Entity>, ts: seq<Tree>, below: map<Account, Tree>)
    returns (g: map<Account, Tree>)
    requires Holds(nodes, es) && Distinct(nodes) && TreesAre(ts, nodes, es, below) && Represents(below)
    requires forall i :: 0 <= i < |nodes| ==> nodes[i] !in below
    ensures forall n :: n in g ==> n in below || n in nodes
    ensures Built(nodes, g, ts)
  {
    g := below + map n | n in nodes :: Tree(n.entity, View(n.Edges, below));
    forall n | n in g
      ensures Closed(n.Edges, g) && g[n] == Tree(n.entity, View(n.Edges, g))
    {
      assert Closed(n.Edges, below);
      assert View(n.Edges, g) == View(n.Edges, below);
    }
    assert forall i :: 0 <= i < |nodes| ==> g[nodes[i]] == ts[i];
  }
}
