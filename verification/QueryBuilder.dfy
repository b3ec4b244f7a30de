/**
 * The query builders: steps are appended in place to slices, each With call attaches a freshly built
 * sub-builder, and Clone copies the whole tree. Every builder is proved to behave like a value.
 */
module QueryBuilder {
  import opened Sequences
  import opened Slices

  // Predicates, order options, interceptors and modifiers are functions; here they are names.
  type Step = nat

  // --------------------------------------------------------------------- values

  datatype StepsView = StepsView(fields: seq<string>, limit: Option<int>, offset: Option<int>, unique: Option<bool>,
                                 order: seq<Step>, inters: seq<Step>, predicates: seq<Step>, modifiers: seq<Step>,
                                 path: Option<Step>, sql: Option<seq<Step>>)

  /** The edges of an account, and those of the builders beside it. */
  datatype Edge = Groups | Proxy | Parent | Children | UsageLogs | AccountGroups | Other(name: string, target: Entity) {
    function Target(): Entity {
      match this
      case Groups => GroupEntity
      case Proxy => ProxyEntity
      case Parent => AccountEntity
      case Children => AccountEntity
      case UsageLogs => UsageLogEntity
      case AccountGroups => AccountGroupEntity
      case Other(_, target) => target
    }
  }

  datatype Entity = AccountEntity | GroupEntity | ProxyEntity | UsageLogEntity | AccountGroupEntity

  datatype View = View(steps: StepsView, edges: map<Edge, View>)

  /** Calls that configure one builder; Lock stands for ForUpdate and ForShare. Traverse gives a builder the
      path it starts from, Prepare the query that path leads to, and Compose adds to that query. */
  datatype StepOp =
    | Where(ps: seq<Step>) | Order(os: seq<Step>)
    | Select(fields: seq<string>) | GroupBy(field: string, more: seq<string>)
    | Limit(n: int) | Offset(n: int) | Unique(b: bool)
    | Lock(modifier: Step)
    | Traverse(path: Step) | Prepare(from: Step) | Compose(parts: seq<Step>)

  /** Calls on a builder; the options of a With call are calls on the sub-builder it makes. */
  datatype Op = On(op: StepOp) | With(edge: Edge, calls: seq<Op>)

  /** The configuration all builders share: the dialect, and the interceptors a client hands each new builder. */
  datatype Config = Config(postgres: bool, inters: Entity -> seq<Step>)

  function NewSteps(c: Config, entity: Entity): StepsView {
    StepsView([], None, None, None, [], c.inters(entity), [], [], None, None)
  }

  function NewQuery(c: Config, entity: Entity): View {
    View(NewSteps(c, entity), map[])
  }

  function AfterStep(c: Config, v: StepsView, op: StepOp): StepsView {
    match op
    case Where(ps) => v.(predicates := v.predicates + ps)
    case Order(os) => v.(order := v.order + os)
    case Select(fields) => v.(fields := v.fields + fields)
    case GroupBy(field, more) => v.(fields := [field] + more)
    case Limit(n) => v.(limit := Some(n))
    case Offset(n) => v.(offset := Some(n))
    case Unique(b) => v.(unique := Some(b))
    case Lock(m) => v.(modifiers := v.modifiers + [m], unique := if c.postgres then Some(false) else v.unique)
    case Traverse(path) => v.(path := Some(path))
    case Prepare(from) => if v.path == None then v else v.(sql := Some([from]))
    case Compose(parts) => if v.sql == None then v else v.(sql := Some(v.sql.value + parts))
  }

  function After(c: Config, v: View, op: Op): View
    decreases op, 0
  {
    match op
    case On(o) => v.(steps := AfterStep(c, v.steps, o))
    case With(edge, calls) => v.(edges := v.edges[edge := AfterAll(c, NewQuery(c, edge.Target()), calls, |calls|)])
  }

  /** The effect of the first n calls. */
  function AfterAll(c: Config, v: View, ops: seq<Op>, n: nat): View
    requires n <= |ops|
    decreases ops, n
  {
    if n == 0 then v else After(c, AfterAll(c, v, ops, n - 1), ops[n-1])
  }

  /** What Clone keeps: everything but the modifiers, at every level. */
  function ClonedSteps(v: StepsView): StepsView {
    v.(modifiers := [])
  }

  function Cloned(v: View): View {
    View(ClonedSteps(v.steps), map e | e in v.edges :: Cloned(v.edges[e]))
  }

  // -------------------------------------------------------------------- builders

  class QueryContext {
    var Fields: Slice<string>
    var Limit: Option<int>
    var Offset: Option<int>
    var Unique: Option<bool>

    constructor (fields: Slice<string>)
      ensures Fields == fields && Limit == Offset == None && Unique == None
    {
      Fields := fields;
      Limit, Offset, Unique := None, None, None;
    }

    method Clone() returns (r: QueryContext)
      requires Fields.Fits()
      ensures fresh(r) && fresh(r.Fields.buf) && r.Fields.Fits() && r.Fields.Contents() == Fields.Contents()
      ensures r.Limit == Limit && r.Offset == Offset && r.Unique == Unique
    {
      var fields := Copy(Fields);
      r := new QueryContext(fields);
      r.Limit, r.Offset, r.Unique := Limit, Offset, Unique;
    }
  }

  class Query {
    const config: Config
    var path: Option<Step>
    var sql: Option<seq<Step>>
    var ctx: QueryContext
    var order: Slice<Step>
    var inters: seq<Step>
    var predicates: Slice<Step>
    var modifiers: Slice<Step>
    var edges: map<Edge, Query>
    /** The builder with its context and arrays, without the builders at its edges. */
    ghost var Repr: set<object>

    /** The builder holds these steps, in slices that share no array. */
    ghost predicate Holds(v: StepsView)
      reads this, Repr
    {
      && this in Repr && ctx in Repr && ctx.Fields.buf in Repr
      && order.buf in Repr && predicates.buf in Repr && modifiers.buf in Repr
      && order.buf != predicates.buf && order.buf != modifiers.buf && predicates.buf != modifiers.buf
      && ctx.Fields.Fits() && order.Fits() && predicates.Fits() && modifiers.Fits()
      && v == StepsView(ctx.Fields.Contents(), ctx.Limit, ctx.Offset, ctx.Unique,
                        order.Contents(), inters, predicates.Contents(), modifiers.Contents(), path, sql)
    }

    constructor (config: Config, entity: Entity)
      ensures this.config == config && fresh(Repr) && Holds(NewSteps(config, entity)) && edges == map[]
    {
      var fields := Nil<string>();
      var c := new QueryContext(fields);
      var o := Nil<Step>();
      var p := Nil<Step>();
      var m := Nil<Step>();
      this.config, ctx, order, predicates, modifiers := config, c, o, p, m;
      inters := config.inters(entity);
      edges := map[];
      path, sql := None, None;
      Repr := {this, c, fields.buf, o.buf, p.buf, m.buf};
    }

    constructor Of(config: Config, ctx: QueryContext, order: Slice<Step>, inters: seq<Step>, predicates: Slice<Step>,
                   modifiers: Slice<Step>, edges: map<Edge, Query>, path: Option<Step>, sql: Option<seq<Step>>)
      ensures this.path == path && this.sql == sql
      ensures this.config == config && this.ctx == ctx && this.order == order && this.inters == inters
      ensures this.predicates == predicates && this.modifiers == modifiers && this.edges == edges
      ensures Repr == {this, ctx, ctx.Fields.buf, order.buf, predicates.buf, modifiers.buf}
    {
      this.config, this.ctx, this.order, this.inters := config, ctx, order, inters;
      this.predicates, this.modifiers, this.edges := predicates, modifiers, edges;
      this.path, this.sql := path, sql;
      Repr := {this, ctx, ctx.Fields.buf, order.buf, predicates.buf, modifiers.buf};
    }

    method Where(ps: seq<Step>, ghost v: StepsView)
      requires Holds(v)
      modifies Repr
      ensures Holds(v.(predicates := v.predicates + ps)) && edges == old(edges) && fresh(Repr - old(Repr))
    {
      predicates := Append(predicates, ps);
      Repr := Repr + {predicates.buf};
    }

    method Order(os: seq<Step>, ghost v: StepsView)
      requires Holds(v)
      modifies Repr
      ensures Holds(v.(order := v.order + os)) && edges == old(edges) && fresh(Repr - old(Repr))
    {
      order := Append(order, os);
      Repr := Repr + {order.buf};
    }

    method Select(fields: seq<string>, ghost v: StepsView)
      requires Holds(v)
      modifies Repr
      ensures Holds(v.(fields := v.fields + fields)) && edges == old(edges) && fresh(Repr - old(Repr))
    {
      ctx.Fields := Append(ctx.Fields, fields);
      Repr := Repr + {ctx.Fields.buf};
    }

    method GroupBy(field: string, more: seq<string>, ghost v: StepsView)
      requires Holds(v)
      modifies Repr
      ensures Holds(v.(fields := [field] + more)) && edges == old(edges) && fresh(Repr - old(Repr))
    {
      var first := Nil<string>();
      first := Append(first, [field]);
      ctx.Fields := Append(first, more);
      Repr := Repr + {ctx.Fields.buf};
    }

    method Lock(modifier: Step, ghost v: StepsView)
      requires Holds(v)
      modifies Repr
      ensures Holds(v.(modifiers := v.modifiers + [modifier],
                       unique := if config.postgres then Some(false) else v.unique))
      ensures edges == old(edges) && fresh(Repr - old(Repr))
    {
      if config.postgres {
        ctx.Unique := Some(false);
      }
      modifiers := Append(modifiers, [modifier]);
      Repr := Repr + {modifiers.buf};
    }

    method DoStep(op: StepOp, ghost v: StepsView)
      requires Holds(v)
      modifies Repr
      ensures Holds(AfterStep(config, v, op)) && edges == old(edges) && fresh(Repr - old(Repr))
    {
      match op {
        case Where(ps) => Where(ps, v);
        case Order(os) => Order(os, v);
        case Select(fields) => Select(fields, v);
        case GroupBy(field, more) => GroupBy(field, more, v);
        case Limit(n) => ctx.Limit := Some(n);
        case Offset(n) => ctx.Offset := Some(n);
        case Unique(b) => ctx.Unique := Some(b);
        case Lock(modifier) => Lock(modifier, v);
        case Traverse(path) => this.path := Some(path);
        case Prepare(from) => sql := if path == None then sql else Some([from]);
        case Compose(parts) => sql := if sql == None then None else Some(sql.value + parts);
      }
    }

    /** A copy of the builder's own part: what it appends to is new, and the modifiers stay behind. */
    method CloneSteps(ghost v: StepsView, edges: map<Edge, Query>) returns (r: Query)
      requires Holds(v)
      ensures fresh(r.Repr) && r.config == config && r.Holds(ClonedSteps(v)) && r.edges == edges
    {
      var c := ctx.Clone();
      var o := Copy(order);
      var p := Copy(predicates);
      var m := Nil<Step>();
      r := new Query.Of(config, c, o, inters, p, m, edges, path, sql);
    }
  }

  /** What a builder holds, the builders at its edges, and its own cells. */
  datatype Node = Node(view: View, edges: map<Edge, Query>, repr: set<object>)

  /** Builders with all the builders below them; everything they are made of is among the cells. */
  datatype Grove = Grove(nodes: map<Query, Node>, cells: set<object>) {

    /** The heap is as described. */
    ghost predicate Present()
      reads nodes.Keys, cells
    {
      && nodes.Keys <= cells
      && forall n :: n in nodes ==>
        n.edges == nodes[n].edges && n.Repr == nodes[n].repr && n.Repr <= cells && n.Holds(nodes[n].view.steps)
    }

    /** Edges lead to builders of the grove that hold what the edge should. */
    ghost predicate Closed() {
      forall n {:trigger Leads(nodes[n].edges, nodes[n].view.edges)} :: n in nodes ==>
        Leads(nodes[n].edges, nodes[n].view.edges)
    }

    ghost predicate Leads(edges: map<Edge, Query>, views: map<Edge, View>) {
      edges.Keys == views.Keys && forall e :: e in edges ==> edges[e] in nodes && nodes[edges[e]].view == views[e]
    }

    /** No two builders share anything. */
    ghost predicate Apart() {
      forall n, m :: n in nodes && m in nodes && n != m ==> nodes[n].repr !! nodes[m].repr
    }

    /** The builder is in the grove, and at no edge. */
    ghost predicate Top(q: Query) {
      q in nodes && forall n :: n in nodes ==> q !in nodes[n].edges.Values
    }

    ghost predicate Sound(q: Query) {
      Closed() && Apart() && Top(q)
    }

    ghost function View(q: Query): View
      requires q in nodes
    {
      nodes[q].view
    }

    ghost function Plus(other: Grove): Grove {
      Grove(nodes + other.nodes, cells + other.cells)
    }

    /** The grove after the steps of q have changed. */
    ghost function Restep(q: Query, steps: StepsView, repr: set<object>): Grove
      requires q in nodes
    {
      Grove(nodes[q := Node(nodes[q].view.(steps := steps), nodes[q].edges, repr)], cells + repr)
    }

    /** The grove after kid has been put at an edge of q. */
    ghost function Attached(q: Query, edge: Edge, kid: Query): Grove
      requires q in nodes && kid in nodes
    {
      var n := nodes[q];
      var view := n.view.(edges := n.view.edges[edge := nodes[kid].view]);
      Grove(nodes[q := Node(view, n.edges[edge := kid], n.repr)], cells)
    }
  }

  lemma RestepIsSound(g: Grove, q: Query, steps: StepsView, repr: set<object>)
    requires g.Sound(q) && forall n :: n in g.nodes && n != q ==> g.nodes[n].repr !! repr
    ensures g.Restep(q, steps, repr).Sound(q)
  {
    var h := g.Restep(q, steps, repr);
    forall n | n in h.nodes ensures h.Leads(h.nodes[n].edges, h.nodes[n].view.edges) {
      assert g.Leads(g.nodes[n].edges, g.nodes[n].view.edges);
    }
  }

  lemma AttachedIsSound(g: Grove, q: Query, edge: Edge, kid: Query)
    requires g.Sound(q) && kid in g.nodes && kid != q
    ensures g.Attached(q, edge, kid).Sound(q)
  {
    var h := g.Attached(q, edge, kid);
    forall n | n in h.nodes ensures h.Leads(h.nodes[n].edges, h.nodes[n].view.edges) {
      assert g.Leads(g.nodes[n].edges, g.nodes[n].view.edges);
    }
  }

  /** Groves that share nothing make one grove. */
  lemma PlusIsSound(g: Grove, k: Grove)
    requires g.Present() && k.Present() && g.cells !! k.cells
    requires g.Closed() && g.Apart() && k.Closed() && k.Apart()
    ensures g.nodes.Keys !! k.nodes.Keys && g.Plus(k).Closed() && g.Plus(k).Apart()
  {
    PlusIsClosed(g, k);
    assert forall n :: n in g.nodes ==> g.nodes[n].repr <= g.cells;
    assert forall n :: n in k.nodes ==> k.nodes[n].repr <= k.cells;
    PlusIsApart(g, k);
  }

  lemma PlusIsPresent(g: Grove, k: Grove)
    requires g.Present() && k.Present()
    ensures g.Plus(k).Present()
  {
  }

  lemma PlusIsApart(g: Grove, k: Grove)
    requires g.cells !! k.cells && g.Apart() && k.Apart()
    requires forall n :: n in g.nodes ==> g.nodes[n].repr <= g.cells
    requires forall n :: n in k.nodes ==> k.nodes[n].repr <= k.cells
    ensures g.Plus(k).Apart()
  {
  }

  lemma PlusIsClosed(g: Grove, k: Grove)
    requires g.nodes.Keys !! k.nodes.Keys && g.Closed() && k.Closed()
    ensures g.Plus(k).Closed()
  {
    var h := g.Plus(k);
    forall n | n in h.nodes ensures h.Leads(h.nodes[n].edges, h.nodes[n].view.edges) {
      if n in k.nodes {
        assert k.Leads(k.nodes[n].edges, k.nodes[n].view.edges);
      } else {
        assert g.Leads(g.nodes[n].edges, g.nodes[n].view.edges);
      }
    }
  }

  lemma StaysOnTop(q: Query, g: Grove, k: Grove)
    requires g.Top(q) && k.Closed() && g.nodes.Keys !! k.nodes.Keys
    ensures g.Plus(k).Top(q)
  {
    forall n | n in k.nodes ensures q !in k.nodes[n].edges.Values {
      assert k.Leads(k.nodes[n].edges, k.nodes[n].view.edges);
    }
  }

  /** A grove with a new root over it. */
  lemma RootIsSound(g: Grove, q: Query, node: Node)
    requires g.Closed() && g.Apart() && q !in g.nodes && g.Leads(node.edges, node.view.edges)
    requires forall n :: n in g.nodes ==> g.nodes[n].repr !! node.repr
    ensures Grove(g.nodes[q := node], g.cells + node.repr).Sound(q)
  {
    var h := Grove(g.nodes[q := node], g.cells + node.repr);
    forall n | n in h.nodes ensures h.Leads(h.nodes[n].edges, h.nodes[n].view.edges) && q !in h.nodes[n].edges.Values {
      if n != q {
        assert g.Leads(g.nodes[n].edges, g.nodes[n].view.edges);
      }
    }
  }

  // ------------------------------------------------------------------ calls on trees

  method DoStep(q: Query, op: StepOp, ghost g: Grove) returns (ghost h: Grove)
    requires g.Present() && g.Sound(q)
    modifies q.Repr
    ensures h == g.Restep(q, AfterStep(q.config, g.View(q).steps, op), q.Repr)
    ensures h.Present() && h.Sound(q) && fresh(q.Repr - old(q.Repr))
  {
    q.DoStep(op, g.View(q).steps);
    h := g.Restep(q, AfterStep(q.config, g.View(q).steps, op), q.Repr);
    forall n | n in g.nodes && n != q
      ensures n.edges == g.nodes[n].edges && n.Repr == g.nodes[n].repr && n.Holds(g.nodes[n].view.steps)
    {
      assert g.nodes[n].repr !! g.nodes[q].repr && old(n.Holds(g.nodes[n].view.steps));
    }
    RestepIsSound(g, q, AfterStep(q.config, g.View(q).steps, op), q.Repr);
  }

  /** Puts a builder of the grove at an edge of its root. */
  method Attach(q: Query, edge: Edge, kid: Query, ghost g: Grove) returns (ghost h: Grove)
    requires g.Present() && g.Sound(q) && kid in g.nodes && kid != q
    modifies q
    ensures h == g.Attached(q, edge, kid)
    ensures h.Present() && h.Sound(q) && q.Repr == old(q.Repr)
  {
    h := g.Attached(q, edge, kid);
    AttachedIsSound(g, q, edge, kid);
    q.edges := q.edges[edge := kid];
    forall n | n in g.nodes
      ensures (n != q ==> n.edges == g.nodes[n].edges) && n.Repr == g.nodes[n].repr && n.Holds(g.nodes[n].view.steps)
    {
      assert old(n.Holds(g.nodes[n].view.steps));
    }
  }

  /** A new builder, alone. */
  method New(config: Config, entity: Entity) returns (q: Query, ghost g: Grove)
    ensures q.config == config && g == Grove(map[q := Node(NewQuery(config, entity), map[], q.Repr)], q.Repr)
    ensures g.Present() && g.Sound(q) && fresh(g.cells)
  {
    q := new Query(config, entity);
    g := Grove(map[q := Node(NewQuery(config, entity), map[], q.Repr)], q.Repr);
  }

  /** Puts the root of another grove at an edge. */
  method Graft(q: Query, edge: Edge, kid: Query, ghost g: Grove, ghost k: Grove) returns (ghost h: Grove)
    requires g.Present() && g.Sound(q) && k.Present() && k.Sound(kid) && g.cells !! k.cells
    modifies q
    ensures h.Present() && h.Sound(q) && h.cells == g.cells + k.cells && q.Repr == old(q.Repr)
    ensures h.View(q) == g.View(q).(edges := g.View(q).edges[edge := k.View(kid)])
  {
    PlusIsSound(g, k);
    PlusIsPresent(g, k);
    StaysOnTop(q, g, k);
    h := Attach(q, edge, kid, g.Plus(k));
  }

  /** A sub-builder made and configured by the options of a With call. */
  method NewConfigured(config: Config, entity: Entity, calls: seq<Op>) returns (q: Query, ghost g: Grove)
    ensures g.Present() && g.Sound(q) && fresh(g.cells)
    ensures g.View(q) == AfterAll(config, NewQuery(config, entity), calls, |calls|)
    decreases calls, 1
  {
    q, g := New(config, entity);
    g := DoAll(q, calls, g);
  }

  /** A With call: a sub-builder is made, configured, and put at the edge. */
  method With(q: Query, edge: Edge, calls: seq<Op>, ghost g: Grove) returns (ghost h: Grove)
    requires g.Present() && g.Sound(q)
    modifies g.cells
    ensures h.Present() && h.Sound(q) && h.View(q) == After(q.config, g.View(q), Op.With(edge, calls))
    ensures fresh(h.cells - g.cells)
    decreases calls, 2
  {
    var kid, k := NewConfigured(q.config, edge.Target(), calls);
    h := Graft(q, edge, kid, g, k);
  }

  method Do(q: Query, op: Op, ghost g: Grove) returns (ghost h: Grove)
    requires g.Present() && g.Sound(q)
    modifies g.cells
    ensures h.Present() && h.Sound(q) && h.View(q) == After(q.config, g.View(q), op)
    ensures fresh(h.cells - g.cells)
    decreases op, 3
  {
    match op {
      case On(o) =>
        h := DoStep(q, o, g);
      case With(edge, calls) =>
        h := With(q, edge, calls, g);
    }
  }

  /** A run of calls on a builder does to it what they do to its value. */
  method DoAll(q: Query, ops: seq<Op>, ghost g: Grove) returns (ghost h: Grove)
    requires g.Present() && g.Sound(q)
    modifies g.cells
    ensures h.Present() && h.Sound(q) && h.View(q) == AfterAll(q.config, g.View(q), ops, |ops|)
    ensures fresh(h.cells - g.cells)
    decreases ops, 0
  {
    h := g;
    for i := 0 to |ops|
      invariant h.Present() && h.Sound(q) && h.View(q) == AfterAll(q.config, g.View(q), ops, i)
      invariant fresh(h.cells - g.cells)
    {
      ghost var before := h.cells;
      h := Do(q, ops[i], h);
      Further(g.cells, before, h.cells);
    }
  }

  /** Builders at some edges that hold what is wanted there. */
  ghost predicate Filled(nodes: map<Query, Node>, edges: map<Edge, Query>, wanted: map<Edge, View>) {
    forall e :: e in edges ==> e in wanted && edges[e] in nodes && nodes[edges[e]].view == wanted[e]
  }

  lemma FilledPlus(h: Grove, edges: map<Edge, Query>, wanted: map<Edge, View>, e: Edge, kid: Query, k: Grove)
    requires Filled(h.nodes, edges, wanted) && h.nodes.Keys !! k.nodes.Keys
    requires kid in k.nodes && e in wanted && k.nodes[kid].view == wanted[e]
    ensures Filled(h.Plus(k).nodes, edges[e := kid], wanted)
  {
  }

  lemma OneMore(h: Grove, edges: map<Edge, Query>, wanted: map<Edge, View>, e: Edge, kid: Query, k: Grove)
    requires h.Present() && k.Present() && h.cells !! k.cells
    requires h.Closed() && h.Apart() && Filled(h.nodes, edges, wanted) && k.Closed() && k.Apart()
    requires kid in k.nodes && e in wanted && k.nodes[kid].view == wanted[e]
    ensures h.Plus(k).Present() && h.Plus(k).Closed() && h.Plus(k).Apart()
    ensures Filled(h.Plus(k).nodes, edges[e := kid], wanted)
  {
    PlusIsSound(h, k);
    PlusIsPresent(h, k);
    FilledPlus(h, edges, wanted, e, kid, k);
  }

  lemma TakeOne(edges: map<Edge, Query>, all: set<Edge>, todo: set<Edge>, e: Edge, kid: Query)
    requires e in todo && todo <= all && edges.Keys == all - todo
    ensures edges[e := kid].Keys == all - (todo - {e})
  {
  }

  /** A copy of a builder and of everything below it, sharing nothing with it; a finite value ends the recursion. */
  method Clone(q: Query, ghost g: Grove) returns (r: Query, ghost h: Grove)
    requires g.Present() && g.Closed() && q in g.nodes
    ensures h.Present() && h.Sound(r) && h.View(r) == Cloned(g.View(q)) && r.config == q.config
    ensures fresh(h.cells)
    decreases g.View(q), 1
  {
    assert g.Leads(g.nodes[q].edges, g.nodes[q].view.edges);
    var edges;
    edges, h := CloneEdges(q, g, Cloned(g.View(q)).edges);
    r := q.CloneSteps(g.View(q).steps, edges);
    ghost var node := Node(Cloned(g.View(q)), edges, r.Repr);
    RootIsSound(h, r, node);
    h := Grove(h.nodes[r := node], h.cells + r.Repr);
  }

  method CloneEdges(q: Query, ghost g: Grove, ghost wanted: map<Edge, View>)
    returns (edges: map<Edge, Query>, ghost h: Grove)
    requires g.Present() && g.Closed() && q in g.nodes && wanted == Cloned(g.View(q)).edges
    ensures h.Present() && fresh(h.cells) && edges.Keys == q.edges.Keys && h.Closed() && h.Apart()
    ensures Filled(h.nodes, edges, wanted)
    decreases g.View(q), 0
  {
    assert g.Leads(g.nodes[q].edges, g.nodes[q].view.edges);
    edges, h := map[], Grove(map[], {});
    var todo := q.edges.Keys;
    while todo != {}
      invariant todo <= q.edges.Keys && edges.Keys == q.edges.Keys - todo
      invariant h.Present() && fresh(h.cells) && h.Closed() && h.Apart() && Filled(h.nodes, edges, wanted)
    {
      var e :| e in todo;
      var kid, k := Clone(q.edges[e], g);
      assert k.nodes[kid].view == wanted[e];
      assert fresh(h.cells + k.cells) && fresh(h.Plus(k).cells);
      OneMore(h, edges, wanted, e, kid, k);
      TakeOne(edges, q.edges.Keys, todo, e, kid);
      edges, h := edges[e := kid], h.Plus(k);
      todo := todo - {e};
    }
  }

  // ------------------------------------------------------------------- isolation

  /** The calls made on one of two builders, in order. */
  function Made(calls: seq<(bool, Op)>, onFirst: bool): seq<Op> {
    if calls == [] then []
    else
      var n := |calls| - 1;
      Made(calls[..n], onFirst) + if calls[n].0 == onFirst then [calls[n].1] else []
  }

  lemma {:induction false} SameStart(c: Config, v: View, a: seq<Op>, b: seq<Op>, n: nat)
    requires n <= |a| && n <= |b| && a[..n] == b[..n]
    ensures AfterAll(c, v, a, n) == AfterAll(c, v, b, n)
  {
    if n > 0 {
      assert a[..n][..n-1] == b[..n][..n-1] && a[..n-1] == a[..n][..n-1] && b[..n-1] == b[..n][..n-1];
      assert a[n-1] == a[..n][n-1] && b[n-1] == b[..n][n-1];
      SameStart(c, v, a, b, n - 1);
    }
  }

  function Run(c: Config, v: View, ops: seq<Op>): View {
    AfterAll(c, v, ops, |ops|)
  }

  /** The effect of those among the first n calls that are made on one builder. */
  function Used(c: Config, v: View, calls: seq<(bool, Op)>, n: nat, onFirst: bool): View
    requires n <= |calls|
  {
    if n == 0 then v else Next(c, Used(c, v, calls, n - 1, onFirst), calls[n-1], onFirst)
  }

  lemma {:induction false} UsedIsRun(c: Config, v: View, calls: seq<(bool, Op)>, n: nat, onFirst: bool)
    requires n <= |calls|
    ensures Used(c, v, calls, n, onFirst) == Run(c, v, Made(calls[..n], onFirst))
  {
    if n > 0 {
      UsedIsRun(c, v, calls, n - 1, onFirst);
      assert calls[..n][..n-1] == calls[..n-1] && calls[..n][n-1] == calls[n-1];
      var before, after := Made(calls[..n-1], onFirst), Made(calls[..n], onFirst);
      if calls[n-1].0 == onFirst {
        assert after == before + [calls[n-1].1];
        SameStart(c, v, after, before, |before|);
      } else {
        assert after == before;
      }
    }
  }

  function Next(c: Config, v: View, call: (bool, Op), onFirst: bool): View {
    if call.0 == onFirst then After(c, v, call.1) else v
  }

  lemma Further(start: set<object>, before: set<object>, after: set<object>)
    ensures after - start <= (after - before) + (before - start)
  {
  }

  method Turn(a: Query, b: Query, call: (bool, Op), ghost g: Grove, ghost k: Grove)
    returns (ghost g': Grove, ghost k': Grove)
    requires g.Present() && g.Sound(a) && k.Present() && k.Sound(b) && g.cells !! k.cells
    modifies g.cells + k.cells
    ensures g'.Present() && g'.Sound(a) && g'.View(a) == Next(a.config, g.View(a), call, true)
    ensures k'.Present() && k'.Sound(b) && k'.View(b) == Next(b.config, k.View(b), call, false)
    ensures g'.cells !! k'.cells && fresh(g'.cells - g.cells) && fresh(k'.cells - k.cells)
  {
    g', k' := g, k;
    if call.0 {
      g' := DoBeside(a, call.1, g, b, k);
    } else {
      k' := DoBeside(b, call.1, k, a, g);
    }
  }

  /** Calls interleaved on two builders that share nothing: each ends as if it had been used alone. */
  method Interleave(a: Query, b: Query, calls: seq<(bool, Op)>, ghost g: Grove, ghost k: Grove)
    returns (ghost g': Grove, ghost k': Grove)
    requires g.Present() && g.Sound(a) && k.Present() && k.Sound(b) && g.cells !! k.cells
    modifies g.cells + k.cells
    ensures g'.Present() && g'.Sound(a) && g'.View(a) == Used(a.config, g.View(a), calls, |calls|, true)
    ensures k'.Present() && k'.Sound(b) && k'.View(b) == Used(b.config, k.View(b), calls, |calls|, false)
  {
    g', k' := InterleaveFrom(a, b, calls, 0, g, k, g.View(a), k.View(b));
  }

  /** The calls from the `i`-th on; the builders held `v` and `w` before the first. */
  method InterleaveFrom(a: Query, b: Query, calls: seq<(bool, Op)>, i: nat, ghost g: Grove, ghost k: Grove,
                        ghost v: View, ghost w: View)
    returns (ghost g': Grove, ghost k': Grove)
    requires g.Present() && g.Sound(a) && k.Present() && k.Sound(b) && g.cells !! k.cells && i <= |calls|
    requires g.View(a) == Used(a.config, v, calls, i, true) && k.View(b) == Used(b.config, w, calls, i, false)
    modifies g.cells + k.cells
    ensures g'.Present() && g'.Sound(a) && g'.View(a) == Used(a.config, v, calls, |calls|, true)
    ensures k'.Present() && k'.Sound(b) && k'.View(b) == Used(b.config, w, calls, |calls|, false)
    decreases |calls| - i
  {
    g', k' := g, k;
    if i < |calls| {
      g', k' := Turn(a, b, calls[i], g, k);
      g', k' := InterleaveFrom(a, b, calls, i + 1, g', k', v, w);
    }
  }

  /** A call on one builder leaves another one, with which it shares nothing, as it was. */
  method DoBeside(q: Query, op: Op, ghost g: Grove, ghost other: Query, ghost k: Grove) returns (ghost h: Grove)
    requires g.Present() && g.Sound(q) && k.Present() && k.Sound(other) && g.cells !! k.cells
    modifies g.cells
    ensures h.Present() && h.Sound(q) && h.View(q) == After(q.config, g.View(q), op)
    ensures k.Present() && h.cells !! k.cells && fresh(h.cells - g.cells)
  {
    h := Do(q, op, g);
    forall n | n in k.nodes
      ensures n.edges == k.nodes[n].edges && n.Repr == k.nodes[n].repr && n.Holds(k.nodes[n].view.steps)
    {
      assert old(n.Holds(k.nodes[n].view.steps)) && n in k.cells;
    }
  }

  /** A builder and its clone, used in any order after the cloning: neither sees what is done to the other. */
  method CloneAndUse(q: Query, calls: seq<(bool, Op)>, ghost g: Grove)
    returns (r: Query, ghost g': Grove, ghost h: Grove)
    requires g.Present() && g.Sound(q)
    modifies g.cells
    ensures g'.Present() && g'.Sound(q) && g'.View(q) == Used(q.config, g.View(q), calls, |calls|, true)
    ensures h.Present() && h.Sound(r) && h.View(r) == Used(q.config, Cloned(g.View(q)), calls, |calls|, false)
  {
    r, h := Clone(q, g);
    g', h := Interleave(q, r, calls, g, h);
  }

  /** The predicates given to a builder by a run of calls, those given to sub-builders aside. */
  function Wheres(ops: seq<Op>, n: nat): seq<Step>
    requires n <= |ops|
  {
    if n == 0 then []
    else Wheres(ops, n - 1) + if ops[n-1].On? && ops[n-1].op.Where? then ops[n-1].op.ps else []
  }

  function Orders(ops: seq<Op>, n: nat): seq<Step>
    requires n <= |ops|
  {
    if n == 0 then []
    else Orders(ops, n - 1) + if ops[n-1].On? && ops[n-1].op.Order? then ops[n-1].op.os else []
  }

  /** Predicates and order options accumulate in the order given, whatever is called in between. */
  lemma {:induction false} StepsAccumulate(c: Config, v: View, ops: seq<Op>, n: nat)
    requires n <= |ops|
    ensures var r := AfterAll(c, v, ops, n).steps;
      && r.predicates == v.steps.predicates + Wheres(ops, n)
      && r.order == v.steps.order + Orders(ops, n)
      && r.inters == v.steps.inters
  {
    if n > 0 {
      StepsAccumulate(c, v, ops, n - 1);
      CallAccumulates(c, AfterAll(c, v, ops, n - 1), ops[n-1]);
    }
  }

  lemma CallAccumulates(c: Config, v: View, op: Op)
    ensures var r := After(c, v, op).steps;
      && r.predicates == v.steps.predicates + (if op.On? && op.op.Where? then op.op.ps else [])
      && r.order == v.steps.order + (if op.On? && op.op.Order? then op.op.os else [])
      && r.inters == v.steps.inters
  {
  }

  // ------------------------------------------------------------- what a clone keeps

  /** No builder carries a modifier. */
  predicate Lockless(v: View) {
    v.steps.modifiers == [] && forall e :: e in v.edges ==> Lockless(v.edges[e])
  }

  /** A clone is equal to its original exactly when no builder carries a modifier. */
  lemma {:induction false} CloneIsEqualIff(v: View)
    ensures Cloned(v) == v <==> Lockless(v)
  {
    forall e | e in v.edges ensures Cloned(v.edges[e]) == v.edges[e] <==> Lockless(v.edges[e]) {
      CloneIsEqualIff(v.edges[e]);
    }
    if Lockless(v) {
      assert Cloned(v).edges == v.edges;
    }
    if Cloned(v) == v {
      forall e | e in v.edges ensures Lockless(v.edges[e]) {
        assert Cloned(v).edges[e] == v.edges[e];
      }
    }
  }

  /** A call that adds a modifier, to the builder or to the sub-builder it makes. */
  predicate Locks(c: Config, op: Op) {
    match op
    case On(o) => o.Lock?
    case With(edge, calls) => !Lockless(AfterAll(c, NewQuery(c, edge.Target()), calls, |calls|))
  }

  /** Cloning before or after a call gives the same exactly when the call adds no modifier. */
  lemma CloneCommutesIff(c: Config, v: View, op: Op)
    ensures Cloned(After(c, v, op)) == After(c, Cloned(v), op) <==> !Locks(c, op)
  {
    match op
    case On(o) =>
      assert Cloned(After(c, v, op)).edges == After(c, Cloned(v), op).edges;
    case With(edge, calls) =>
      var kid := AfterAll(c, NewQuery(c, edge.Target()), calls, |calls|);
      CloneIsEqualIff(kid);
      var x, y := Cloned(After(c, v, op)), After(c, Cloned(v), op);
      assert x.edges[edge] == Cloned(kid) && y.edges[edge] == kid;
      assert x.edges.Keys == y.edges.Keys && x.steps == y.steps;
      assert forall e :: e in x.edges && e != edge ==> x.edges[e] == y.edges[e];
      assert Cloned(kid) == kid ==> x.edges == y.edges;
  }
}
