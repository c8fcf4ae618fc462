/** The dependency graph: construction, requirements, and the deterministic
    topological order with its cycle witness. */
module DependencyGraph {
  import opened Base
  import opened Order
  import opened Model

  // ---------------------------------------------------------------------
  // Construction.
  // ---------------------------------------------------------------------

  function KindRank(k: DependencyKind): nat {
    match k case Requires => 0 case OrderingAfter => 1 case RequiresCapability => 2
  }

  predicate DependencyLess(a: Dependency, b: Dependency) {
    if a.from != b.from then Less(a.from, b.from)
    else if a.to != b.to then Less(a.to, b.to)
    else if a.kind != b.kind then KindRank(a.kind) < KindRank(b.kind)
    else Less(a.id, b.id)
  }

  function FirstBadEdge(edges: seq<Dependency>): Reason {
    if edges == [] then Nominal
    else if edges[0].id == "" || edges[0].from == "" || edges[0].to == "" then InvalidIdentity
    else if edges[0].from == edges[0].to then SelfDependency
    else FirstBadEdge(edges[1..])
  }

  predicate SameEdge(a: Dependency, b: Dependency) {
    a.from == b.from && a.to == b.to && a.kind == b.kind
  }

  predicate AdjacentDuplicate(edges: seq<Dependency>) {
    exists i :: 0 < i < |edges| && SameEdge(edges[i - 1], edges[i])
  }

  function BuildGraph(edges: seq<Dependency>, maxEdges: nat): Result<seq<Dependency>> {
    if |edges| > maxEdges then Err(BoundExceeded)
    else if FirstBadEdge(edges) != Nominal then Err(FirstBadEdge(edges))
    else
      var sorted := Sort(edges, DependencyLess);
      if AdjacentDuplicate(sorted) then Err(DependencyDuplicate) else Ok(sorted)
  }

  /** Targets that must be present with `from`, each once, in edge order. */
  function Needs(edges: seq<Dependency>, from: Id): seq<Id> {
    if edges == [] then []
    else
      var n := |edges| - 1;
      var rest := Needs(edges[..n], from);
      var e := edges[n];
      if e.from == from && e.kind != OrderingAfter && e.to !in rest then rest + [e.to] else rest
  }

  // ---------------------------------------------------------------------
  // The ordering constraints induced on a set of services.
  // ---------------------------------------------------------------------

  /** `from` needs `to`, so `to` is emitted first. */
  datatype Edge = Edge(from: Id, to: Id)

  predicate EdgeLess(a: Edge, b: Edge) {
    if a.from != b.from then Less(a.from, b.from) else Less(a.to, b.to)
  }

  function Unique(s: seq<Id>): seq<Id> {
    if |s| <= 1 then s
    else
      var n := |s| - 1;
      if s[n] == s[n - 1] then Unique(s[..n]) else Unique(s[..n]) + [s[n]]
  }

  function Nodes(services: seq<Id>): seq<Id> { Unique(Sort(services, Less)) }

  function InducedUnsorted(edges: seq<Dependency>, nodes: seq<Id>): seq<Edge> {
    if edges == [] then []
    else
      var n := |edges| - 1;
      var rest := InducedUnsorted(edges[..n], nodes);
      if edges[n].kind != RequiresCapability && edges[n].from in nodes && edges[n].to in nodes
      then rest + [Edge(edges[n].from, edges[n].to)]
      else rest
  }

  function Induced(edges: seq<Dependency>, nodes: seq<Id>): seq<Edge> {
    Sort(InducedUnsorted(edges, nodes), EdgeLess)
  }

  // ---------------------------------------------------------------------
  // What an order has to be.
  // ---------------------------------------------------------------------

  /** Everything `v` needs has been emitted. */
  predicate Free(v: Id, es: seq<Edge>, done: seq<Id>) {
    forall e :: e in es && e.from == v ==> e.to in done
  }

  ghost predicate Respects(order: seq<Id>, es: seq<Edge>) {
    forall k :: 0 <= k < |order| ==> Free(order[k], es, order[..k])
  }

  ghost predicate Arrangement(order: seq<Id>, nodes: seq<Id>) {
    Distinct(order) && forall v :: v in order <==> v in nodes
  }

  ghost predicate Path(p: seq<Id>, es: seq<Edge>) {
    forall i :: 0 <= i < |p| - 1 ==> Edge(p[i], p[i + 1]) in es
  }

  ghost predicate Cycle(p: seq<Id>, es: seq<Edge>) {
    |p| >= 2 && p[0] == p[|p| - 1] && Path(p, es)
  }

  ghost predicate Acyclic(es: seq<Edge>) {
    forall p :: !Cycle(p, es)
  }

  /** Dictionary order on sequences of identities. */
  ghost predicate LexLeq(a: seq<Id>, b: seq<Id>) {
    a == b || exists k :: 0 <= k < |a| && k < |b| && a[..k] == b[..k] && Less(a[k], b[k])
  }

  // ---------------------------------------------------------------------
  // The simple form: repeatedly emit the least free node.
  // ---------------------------------------------------------------------

  predicate Ready(v: Id, es: seq<Edge>, done: seq<Id>) { v !in done && Free(v, es, done) }

  /** Position of the first node that is ready. */
  function FirstReady(nodes: seq<Id>, es: seq<Edge>, done: seq<Id>): (k: nat)
    ensures k <= |nodes|
    ensures k < |nodes| ==> Ready(nodes[k], es, done)
    ensures forall j :: 0 <= j < k ==> !Ready(nodes[j], es, done)
  {
    if nodes == [] then 0
    else if Ready(nodes[0], es, done) then 0
    else
      assert forall j :: 0 < j < |nodes| ==> nodes[j] == nodes[1..][j - 1];
      1 + FirstReady(nodes[1..], es, done)
  }

  ghost predicate PrefixOk(done: seq<Id>, nodes: seq<Id>, es: seq<Edge>) {
    Distinct(done) && (forall v :: v in done ==> v in nodes) && Respects(done, es)
  }

  lemma SetBound(s: seq<Id>, nodes: seq<Id>)
    requires Distinct(s) && forall v :: v in s ==> v in nodes
    ensures |s| <= |nodes|
    ensures |s| == |nodes| && Distinct(nodes) ==> forall v :: v in nodes ==> v in s
  {
    DistinctCard(s);
    CardLeq(nodes);
    var a, b := set v | v in s, set v | v in nodes;
    assert a <= b;
    SubsetCard(a, b);
    if |s| == |nodes| && Distinct(nodes) {
      DistinctCard(nodes);
      forall v | v in nodes ensures v in s {
        assert v in b && (v in a ==> v in s);
      }
    }
  }

  lemma {:induction false} DistinctCard(s: seq<Id>)
    requires Distinct(s)
    ensures |set v | v in s| == |s|
  {
    if s != [] {
      var n := |s| - 1;
      DistinctCard(s[..n]);
      assert (set v | v in s) == (set v | v in s[..n]) + {s[n]};
      assert s[n] !in s[..n];
    }
  }

  lemma {:induction false} CardLeq(s: seq<Id>)
    ensures |set v | v in s| <= |s|
  {
    if s != [] {
      var n := |s| - 1;
      CardLeq(s[..n]);
      assert (set v | v in s) == (set v | v in s[..n]) + {s[n]};
    }
  }

  lemma SubsetCard<T>(a: set<T>, b: set<T>)
    requires a <= b
    ensures |a| <= |b|
    ensures |a| == |b| ==> a == b
  {
    assert b == a + (b - a);
  }

  /** Emits least ready nodes until none is ready. */
  function Kahn(nodes: seq<Id>, es: seq<Edge>, done: seq<Id>): seq<Id>
    decreases |nodes| - |done|
  {
    var k := FirstReady(nodes, es, done);
    if k == |nodes| || |done| >= |nodes| then done
    else Kahn(nodes, es, done + [nodes[k]])
  }

  function OrderOf(nodes: seq<Id>, es: seq<Edge>): Option<seq<Id>> {
    var order := Kahn(nodes, es, []);
    if |order| == |nodes| then Some(order) else None
  }

  lemma ExtendOk(nodes: seq<Id>, es: seq<Edge>, done: seq<Id>, v: Id)
    requires PrefixOk(done, nodes, es) && v in nodes && Ready(v, es, done)
    ensures PrefixOk(done + [v], nodes, es)
  {
    var r := done + [v];
    forall k | 0 <= k < |r| ensures Free(r[k], es, r[..k]) {
      if k < |done| { assert r[..k] == done[..k]; assert Free(done[k], es, done[..k]); }
      else { assert r[..k] == done; }
    }
  }

  /** Every step took the least ready node. */
  ghost predicate Least(order: seq<Id>, nodes: seq<Id>, es: seq<Edge>, k: nat)
    requires k < |order|
  {
    forall v :: v in nodes && Ready(v, es, order[..k]) ==> v == order[k] || Less(order[k], v)
  }

  lemma {:induction false} KahnExact(nodes: seq<Id>, es: seq<Edge>, done: seq<Id>)
    requires StrictlySorted(nodes) && PrefixOk(done, nodes, es)
    requires forall k :: 0 <= k < |done| ==> Least(done, nodes, es, k)
    ensures var order := Kahn(nodes, es, done);
      && PrefixOk(order, nodes, es)
      && (forall k :: 0 <= k < |order| ==> Least(order, nodes, es, k))
      && Halted(nodes, es, order)
    decreases |nodes| - |done|
  {
    StrictlySortedDistinct(nodes);
    SetBound(done, nodes);
    var k := FirstReady(nodes, es, done);
    if k == |nodes| {
      forall v | v in nodes && v !in done ensures !Free(v, es, done) {
        var j :| 0 <= j < |nodes| && nodes[j] == v;
        assert !Ready(nodes[j], es, done);
      }
    } else if |done| < |nodes| {
      ExtendOk(nodes, es, done, nodes[k]);
      var r := done + [nodes[k]];
      forall i | 0 <= i < |r| ensures Least(r, nodes, es, i) {
        if i < |done| {
          assert r[..i] == done[..i];
          assert Least(done, nodes, es, i);
        } else {
          assert r[..i] == done;
          FirstIsLeast(nodes, es, done);
        }
      }
      KahnExact(nodes, es, r);
    }
  }

  lemma FirstIsLeast(nodes: seq<Id>, es: seq<Edge>, done: seq<Id>)
    requires StrictlySorted(nodes) && FirstReady(nodes, es, done) < |nodes|
    ensures forall v :: v in nodes && Ready(v, es, done) ==>
              v == nodes[FirstReady(nodes, es, done)] || Less(nodes[FirstReady(nodes, es, done)], v)
  {
    var k := FirstReady(nodes, es, done);
    forall v | v in nodes && Ready(v, es, done) ensures v == nodes[k] || Less(nodes[k], v) {
      var j :| 0 <= j < |nodes| && nodes[j] == v;
      assert j >= k;
    }
  }

  // ---------------------------------------------------------------------
  // Exactness: an order exists iff there is no cycle, and it is canonical.
  // ---------------------------------------------------------------------

  /** Along an edge the position in a respecting order strictly falls, so a
      closed path is impossible. */
  lemma {:induction false} PathFalls(order: seq<Id>, es: seq<Edge>, p: seq<Id>, i: nat)
    requires Distinct(order) && Respects(order, es) && Path(p, es) && 0 < i < |p|
    requires forall e :: e in es ==> e.from in order && e.to in order
    ensures p[i] in order && p[0] in order
    ensures IndexOf(order, p[i]) < IndexOf(order, p[0])
  {
    var e := Edge(p[i - 1], p[i]);
    assert e in es;
    var k := IndexOf(order, e.from);
    assert Free(order[k], es, order[..k]);
    var j :| 0 <= j < k && order[j] == e.to;
    assert IndexOf(order, e.to) == j;
    if i > 1 { PathFalls(order, es, p, i - 1); }
  }

  lemma OrderImpliesAcyclic(order: seq<Id>, es: seq<Edge>)
    requires Distinct(order) && Respects(order, es)
    requires forall e :: e in es ==> e.from in order && e.to in order
    ensures Acyclic(es)
  {
    forall p ensures !Cycle(p, es) {
      if Cycle(p, es) {
        PathFalls(order, es, p, |p| - 1);
        assert false;
      }
    }
  }

  /** The order found precedes every other valid order in dictionary order. */
  lemma CanonicalOrder(nodes: seq<Id>, es: seq<Edge>, order: seq<Id>, other: seq<Id>)
    requires Arrangement(order, nodes) && Arrangement(other, nodes)
    requires Respects(other, es) && |order| == |other|
    requires forall k :: 0 <= k < |order| ==> Least(order, nodes, es, k)
    ensures LexLeq(order, other)
  {
    if order != other {
      var k := FirstDifference(order, other);
      assert other[k] in nodes && Free(other[k], es, other[..k]);
      assert other[k] !in order[..k] by {
        assert forall j :: 0 <= j < k ==> other[j] != other[k];
      }
      assert Ready(other[k], es, order[..k]);
      assert Least(order, nodes, es, k);
    }
  }

  function FirstDifference(a: seq<Id>, b: seq<Id>): (k: nat)
    requires |a| == |b| && a != b
    ensures k < |a| && a[..k] == b[..k] && a[k] != b[k]
  {
    if a[0] != b[0] then 0
    else
      assert a == [a[0]] + a[1..] && b == [b[0]] + b[1..];
      var k := FirstDifference(a[1..], b[1..]);
      assert a[..k + 1] == [a[0]] + a[1..][..k] && b[..k + 1] == [b[0]] + b[1..][..k];
      k + 1
  }

  // ---------------------------------------------------------------------
  // Nodes and induced edges are what their names say.
  // ---------------------------------------------------------------------

  lemma {:induction false} UniqueExact(s: seq<Id>)
    requires Column(s)
    ensures StrictlySorted(Unique(s))
    ensures forall v :: v in Unique(s) <==> v in s
    ensures s != [] ==> Unique(s) != [] && Unique(s)[|Unique(s)| - 1] == s[|s| - 1]
  {
    if |s| > 1 {
      var n := |s| - 1;
      var u := Unique(s[..n]);
      assert s[..n][n - 1] == s[n - 1];
      UniqueExact(s[..n]);
      assert s == s[..n] + [s[n]];
      if s[n] != s[n - 1] {
        LessTotal(s[n - 1], s[n]);
        forall i | 0 <= i < |u| ensures Less(u[i], s[n]) {
          if i < |u| - 1 { LessTrans(u[i], u[|u| - 1], s[n]); }
        }
      }
    }
  }

  lemma NodesExact(services: seq<Id>)
    ensures StrictlySorted(Nodes(services))
    ensures forall v :: v in Nodes(services) <==> v in services
  {
    LessStrictWeak();
    SortAscends(services, Less);
    SortKeeps(services, Less);
    UniqueExact(Sort(services, Less));
  }

  lemma {:induction false} InducedMembers(edges: seq<Dependency>, nodes: seq<Id>, e: Edge)
    ensures e in InducedUnsorted(edges, nodes) <==>
            e.from in nodes && e.to in nodes
            && exists d :: d in edges && d.kind != RequiresCapability && d.from == e.from && d.to == e.to
  {
    if edges != [] {
      var n := |edges| - 1;
      InducedMembers(edges[..n], nodes, e);
      assert edges == edges[..n] + [edges[n]];
    }
  }

  lemma EdgeStrictWeak()
    ensures StrictWeak(EdgeLess)
  {
    forall a: Edge, b: Edge ensures !(EdgeLess(a, b) && EdgeLess(b, a)) {
      LessTotal(a.from, b.from);
      LessTotal(a.to, b.to);
    }
    LessStrictWeak();
    forall a: Edge, b: Edge, c: Edge | !EdgeLess(b, a) && !EdgeLess(c, b) ensures !EdgeLess(c, a) {
      LessTotal(a.from, b.from);
      LessTotal(b.from, c.from);
      LessTotal(a.from, c.from);
      if a.from != b.from && b.from != c.from { LessTrans(a.from, b.from, c.from); }
      if a.from == b.from == c.from { assert !Less(b.to, a.to) && !Less(c.to, b.to); }
    }
  }

  /** The induced edges, in order, are the ordering constraints between the nodes. */
  lemma InducedExact(edges: seq<Dependency>, nodes: seq<Id>)
    ensures Ascending(Induced(edges, nodes), EdgeLess)
    ensures forall e :: e in Induced(edges, nodes) <==>
              e.from in nodes && e.to in nodes
              && exists d :: d in edges && d.kind != RequiresCapability && d.from == e.from && d.to == e.to
  {
    EdgeStrictWeak();
    SortAscends(InducedUnsorted(edges, nodes), EdgeLess);
    SortKeeps(InducedUnsorted(edges, nodes), EdgeLess);
    forall e: Edge ensures e in Induced(edges, nodes) <==>
              e.from in nodes && e.to in nodes
              && exists d :: d in edges && d.kind != RequiresCapability && d.from == e.from && d.to == e.to
    {
      InducedMembers(edges, nodes, e);
    }
  }

  // ---------------------------------------------------------------------
  // The fast form: indegree counters and an ordered ready set.
  // ---------------------------------------------------------------------

  /** Constraints of `v` among the first `n` edges still open after emitting
      `done`, where `cur` is also emitted for the first `j` edges only. */
  function OpenEdges(es: seq<Edge>, n: nat, j: nat, v: Id, done: seq<Id>, cur: Id): nat
    requires n <= |es|
  {
    if n == 0 then 0
    else
      OpenEdges(es, n - 1, j, v, done, cur)
      + (if es[n - 1].from == v && es[n - 1].to !in done && !(n - 1 < j && es[n - 1].to == cur) then 1 else 0)
  }

  lemma {:induction false} OpenStep(es: seq<Edge>, n: nat, j: nat, v: Id, done: seq<Id>, cur: Id)
    requires n <= |es| && j < |es|
    ensures OpenEdges(es, n, j, v, done, cur)
            == OpenEdges(es, n, j + 1, v, done, cur)
               + (if j < n && es[j].from == v && es[j].to !in done && es[j].to == cur then 1 else 0)
  {
    if n > 0 { OpenStep(es, n - 1, j, v, done, cur); }
  }

  /** The two ends of the inner loop. */
  lemma {:induction false} OpenEnds(es: seq<Edge>, n: nat, v: Id, done: seq<Id>, cur: Id, other: Id)
    requires n <= |es|
    ensures OpenEdges(es, n, |es|, v, done, cur) == OpenEdges(es, n, 0, v, done + [cur], other)
  {
    if n > 0 { OpenEnds(es, n - 1, v, done, cur, other); }
  }

  lemma {:induction false} OpenFree(es: seq<Edge>, n: nat, v: Id, done: seq<Id>, cur: Id)
    requires n <= |es|
    ensures OpenEdges(es, n, 0, v, done, cur) == 0 <==> Free(v, es[..n], done)
  {
    if n > 0 {
      OpenFree(es, n - 1, v, done, cur);
      assert es[..n] == es[..n - 1] + [es[n - 1]];
    }
  }

  /** Insertion into `std::set`. */
  function SetInsert(ready: seq<Id>, id: Id): seq<Id> {
    var k := LowerBound(ready, id);
    if k < |ready| && ready[k] == id then ready else ready[..k] + [id] + ready[k..]
  }

  lemma SetInsertExact(ready: seq<Id>, id: Id)
    requires StrictlySorted(ready)
    ensures StrictlySorted(SetInsert(ready, id))
    ensures forall v :: v in SetInsert(ready, id) <==> v == id || v in ready
  {
    LowerBoundExact(ready, id);
    var k := LowerBound(ready, id);
    if !Hit(ready, id) {
      InsertSorted(ready, k, id);
      InsertMembers(ready, k, id);
    }
  }

  /** The counters agree with the constraints open at edge `j` of the inner loop. */
  ghost predicate DegreesCounted(indegree: seq<nat>, nodes: seq<Id>, es: seq<Edge>, j: nat, done: seq<Id>, cur: Id) {
    && |indegree| == |nodes|
    && forall i :: 0 <= i < |nodes| ==> indegree[i] == OpenEdges(es, |es|, j, nodes[i], done, cur)
  }

  /** The ready set holds the nodes not yet taken whose counter is zero. */
  ghost predicate ReadySet(ready: seq<Id>, indegree: seq<nat>, nodes: seq<Id>, taken: seq<Id>)
    requires |indegree| == |nodes|
  {
    && StrictlySorted(ready)
    && (forall i :: 0 <= i < |nodes| ==> (nodes[i] in ready <==> nodes[i] !in taken && indegree[i] == 0))
    && (forall v :: v in ready ==> v in nodes)
  }

  /** A service waiting for `cur` has not been emitted. */
  lemma NotTaken(es: seq<Edge>, done: seq<Id>, cur: Id, e: Edge)
    requires e in es && e.to == cur && cur !in done && e.from != cur && Respects(done, es)
    ensures e.from !in done + [cur]
  {
    forall k | 0 <= k < |done| ensures done[k] != e.from {
      assert Free(done[k], es, done[..k]);
    }
  }

  lemma SkipEdge(nodes: seq<Id>, es: seq<Edge>, j: nat, done: seq<Id>, cur: Id, indegree: seq<nat>)
    requires j < |es| && es[j].to != cur && DegreesCounted(indegree, nodes, es, j, done, cur)
    ensures DegreesCounted(indegree, nodes, es, j + 1, done, cur)
  {
    forall i | 0 <= i < |nodes| ensures indegree[i] == OpenEdges(es, |es|, j + 1, nodes[i], done, cur) {
      OpenStep(es, |es|, j, nodes[i], done, cur);
    }
  }

  lemma DropEdge(nodes: seq<Id>, es: seq<Edge>, j: nat, done: seq<Id>, cur: Id, indegree: seq<nat>, d: nat)
    requires j < |es| && es[j].to == cur && cur !in done && d < |nodes| && nodes[d] == es[j].from
    requires Distinct(nodes) && DegreesCounted(indegree, nodes, es, j, done, cur)
    ensures indegree[d] > 0
    ensures DegreesCounted(indegree[d := indegree[d] - 1], nodes, es, j + 1, done, cur)
  {
    forall i | 0 <= i < |nodes|
      ensures indegree[i] == OpenEdges(es, |es|, j + 1, nodes[i], done, cur) + (if i == d then 1 else 0)
    {
      OpenStep(es, |es|, j, nodes[i], done, cur);
    }
  }

  lemma ReleaseNode(nodes: seq<Id>, ready: seq<Id>, indegree: seq<nat>, taken: seq<Id>, d: nat)
    requires Distinct(nodes) && |indegree| == |nodes| && ReadySet(ready, indegree, nodes, taken)
    requires d < |nodes| && indegree[d] > 0 && nodes[d] !in taken
    ensures ReadySet(if indegree[d] == 1 then SetInsert(ready, nodes[d]) else ready,
                     indegree[d := indegree[d] - 1], nodes, taken)
  {
    if indegree[d] == 1 { SetInsertExact(ready, nodes[d]); }
  }

  /** Counters and ready set after `j` edges of the inner loop. */
  ghost predicate Sweep(nodes: seq<Id>, es: seq<Edge>, done: seq<Id>, cur: Id, j: nat,
                        indegree: seq<nat>, ready: seq<Id>) {
    DegreesCounted(indegree, nodes, es, j, done, cur) && ReadySet(ready, indegree, nodes, done + [cur])
  }

  lemma EmitEdge(nodes: seq<Id>, es: seq<Edge>, done: seq<Id>, cur: Id, j: nat, indegree: seq<nat>, ready: seq<Id>)
    requires StrictlySorted(nodes) && cur !in done && Respects(done, es)
    requires j < |es| && es[j].from in nodes && es[j].from != es[j].to
    requires Sweep(nodes, es, done, cur, j, indegree, ready)
    ensures es[j].to != cur ==> Sweep(nodes, es, done, cur, j + 1, indegree, ready)
    ensures |indegree| == |nodes|
    ensures es[j].to == cur ==>
      var d := LowerBound(nodes, es[j].from);
      && d < |nodes| && nodes[d] == es[j].from && indegree[d] > 0
      && Sweep(nodes, es, done, cur, j + 1, indegree[d := indegree[d] - 1],
               if indegree[d] == 1 then SetInsert(ready, es[j].from) else ready)
  {
    if es[j].to == cur {
      StrictlySortedDistinct(nodes);
      LowerBoundExact(nodes, es[j].from);
      var d := LowerBound(nodes, es[j].from);
      NotTaken(es, done, cur, es[j]);
      DropEdge(nodes, es, j, done, cur, indegree, d);
      ReleaseNode(nodes, ready, indegree, done + [cur], d);
    } else {
      SkipEdge(nodes, es, j, done, cur, indegree);
    }
  }

  /** The inner loop: emitting `cur` releases the services that need it. */
  method Emit(nodes: seq<Id>, es: seq<Edge>, ghost done: seq<Id>, cur: Id, indegree: array<nat>, ready0: seq<Id>)
    returns (ready: seq<Id>)
    requires StrictlySorted(nodes) && cur !in done && Respects(done, es)
    requires forall i :: 0 <= i < |es| ==> es[i].from in nodes && es[i].from != es[i].to
    requires Sweep(nodes, es, done, cur, 0, indegree[..], ready0)
    modifies indegree
    ensures Sweep(nodes, es, done, cur, |es|, indegree[..], ready)
  {
    hide Sweep;
    ready := ready0;
    var j := 0;
    while j < |es|
      invariant 0 <= j <= |es|
      invariant Sweep(nodes, es, done, cur, j, indegree[..], ready)
    {
      ghost var before := indegree[..];
      EmitEdge(nodes, es, done, cur, j, before, ready);
      if es[j].to == cur {
        var d := LowerBound(nodes, es[j].from);
        if indegree[d] != 0 {
          indegree[d] := indegree[d] - 1;
          assert indegree[..] == before[d := before[d] - 1];
          if indegree[d] == 0 { ready := SetInsert(ready, es[j].from); }
        }
      }
      j := j + 1;
    }
  }

  /** Between emissions: the order so far is the simple form's, and counters and
      ready set describe it. */
  ghost predicate Steady(nodes: seq<Id>, es: seq<Edge>, order: seq<Id>, indegree: seq<nat>, ready: seq<Id>) {
    && PrefixOk(order, nodes, es)
    && Kahn(nodes, es, []) == Kahn(nodes, es, order)
    && DegreesCounted(indegree, nodes, es, 0, order, "")
    && ReadySet(ready, indegree, nodes, order)
  }

  ghost predicate Proper(nodes: seq<Id>, es: seq<Edge>) {
    && StrictlySorted(nodes)
    && (forall i :: 0 <= i < |es| ==> es[i].from in nodes && es[i].to in nodes && es[i].from != es[i].to)
    && Ascending(es, EdgeLess)
  }

  lemma ReadyMeansReady(nodes: seq<Id>, es: seq<Edge>, order: seq<Id>, indegree: seq<nat>, ready: seq<Id>, v: Id)
    requires Steady(nodes, es, order, indegree, ready) && v in nodes
    ensures v in ready <==> Ready(v, es, order)
  {
    var i :| 0 <= i < |nodes| && nodes[i] == v;
    OpenFree(es, |es|, v, order, "");
    assert es[..|es|] == es;
  }

  lemma {:induction false} OpenIgnores(es: seq<Edge>, n: nat, v: Id, done: seq<Id>, a: Id, b: Id)
    requires n <= |es|
    ensures OpenEdges(es, n, 0, v, done, a) == OpenEdges(es, n, 0, v, done, b)
  {
    if n > 0 { OpenIgnores(es, n - 1, v, done, a, b); }
  }

  /** The front of the ready set is the simple form's choice. */
  lemma FrontIsFirst(nodes: seq<Id>, es: seq<Edge>, order: seq<Id>, indegree: seq<nat>, ready: seq<Id>)
    requires StrictlySorted(nodes) && Steady(nodes, es, order, indegree, ready) && ready != []
    ensures ready[0] in nodes && Ready(ready[0], es, order)
    ensures FirstReady(nodes, es, order) < |nodes| && nodes[FirstReady(nodes, es, order)] == ready[0]
  {
    var cur := ready[0];
    assert cur in ready && StrictlySorted(ready);
    hide Steady, Ready, Less;
    ReadyMeansReady(nodes, es, order, indegree, ready, cur);
    var j :| 0 <= j < |nodes| && nodes[j] == cur;
    var k := FirstReady(nodes, es, order);
    var first := nodes[k];
    ReadyMeansReady(nodes, es, order, indegree, ready, first);
    var m :| 0 <= m < |ready| && ready[m] == first;
    LessTotal(first, cur);
    assert k < j ==> Less(first, cur);
    assert m > 0 ==> Less(cur, first);
  }

  lemma PhaseStarts(nodes: seq<Id>, es: seq<Edge>, order: seq<Id>, indegree: seq<nat>, ready: seq<Id>)
    requires Steady(nodes, es, order, indegree, ready) && ready != []
    ensures Sweep(nodes, es, order, ready[0], 0, indegree, ready[1..])
  {
    var cur := ready[0];
    forall i | 0 <= i < |nodes| ensures indegree[i] == OpenEdges(es, |es|, 0, nodes[i], order, cur) {
      OpenIgnores(es, |es|, nodes[i], order, "", cur);
    }
    StrictlySortedDistinct(ready);
    assert ready == [cur] + ready[1..];
  }

  lemma PickLeast(nodes: seq<Id>, es: seq<Edge>, order: seq<Id>, indegree: seq<nat>, ready: seq<Id>)
    requires Proper(nodes, es) && Steady(nodes, es, order, indegree, ready) && ready != []
    ensures ready[0] in nodes && ready[0] !in order && Free(ready[0], es, order)
    ensures |order| < |nodes|
    ensures Kahn(nodes, es, order) == Kahn(nodes, es, order + [ready[0]])
    ensures Sweep(nodes, es, order, ready[0], 0, indegree, ready[1..])
  {
    FrontIsFirst(nodes, es, order, indegree, ready);
    PhaseStarts(nodes, es, order, indegree, ready);
    hide Sweep;
    StrictlySortedDistinct(nodes);
    SetBound(order, nodes);
  }

  /** After the inner loop the larger order is steady again. */
  lemma Settle(nodes: seq<Id>, es: seq<Edge>, order: seq<Id>, cur: Id, indegree: seq<nat>, ready: seq<Id>)
    requires PrefixOk(order, nodes, es) && cur in nodes && cur !in order && Free(cur, es, order)
    requires Kahn(nodes, es, []) == Kahn(nodes, es, order + [cur])
    requires Sweep(nodes, es, order, cur, |es|, indegree, ready)
    ensures Steady(nodes, es, order + [cur], indegree, ready)
  {
    ExtendOk(nodes, es, order, cur);
    forall i | 0 <= i < |nodes| ensures indegree[i] == OpenEdges(es, |es|, 0, nodes[i], order + [cur], "") {
      OpenEnds(es, |es|, nodes[i], order, cur, "");
    }
  }

  lemma Exhausted(nodes: seq<Id>, es: seq<Edge>, order: seq<Id>, indegree: seq<nat>)
    requires Proper(nodes, es) && Steady(nodes, es, order, indegree, [])
    ensures Kahn(nodes, es, []) == order
  {
    var k := FirstReady(nodes, es, order);
    if k < |nodes| { ReadyMeansReady(nodes, es, order, indegree, [], nodes[k]); }
  }

  lemma {:induction false} FreeCount(es: seq<Edge>, n: nat, v: Id)
    requires n <= |es|
    ensures OpenEdges(es, n, 0, v, [], "") == EdgesFrom(es, n, v)
  {
    if n > 0 { FreeCount(es, n - 1, v); }
  }

  function EdgesFrom(es: seq<Edge>, n: nat, v: Id): nat
    requires n <= |es|
  {
    if n == 0 then 0 else EdgesFrom(es, n - 1, v) + (if es[n - 1].from == v then 1 else 0)
  }

  ghost predicate EdgeCounts(indegree: seq<nat>, nodes: seq<Id>, es: seq<Edge>, j: nat) {
    j <= |es| && |indegree| == |nodes| && forall i :: 0 <= i < |nodes| ==> indegree[i] == EdgesFrom(es, j, nodes[i])
  }

  lemma CountEdge(indegree: seq<nat>, nodes: seq<Id>, es: seq<Edge>, j: nat)
    requires StrictlySorted(nodes) && j < |es| && es[j].from in nodes && EdgeCounts(indegree, nodes, es, j)
    ensures var d := LowerBound(nodes, es[j].from);
      d < |nodes| && EdgeCounts(indegree[d := indegree[d] + 1], nodes, es, j + 1)
  {
    Found(nodes, es[j].from);
    StrictlySortedDistinct(nodes);
  }

  lemma NoCounts(counts: seq<nat>, nodes: seq<Id>, es: seq<Edge>)
    requires |counts| == |nodes| && forall k :: 0 <= k < |counts| ==> counts[k] == 0
    ensures EdgeCounts(counts, nodes, es, 0)
  {
  }

  method CountEdges(nodes: seq<Id>, es: seq<Edge>) returns (indegree: array<nat>)
    requires StrictlySorted(nodes) && forall i :: 0 <= i < |es| ==> es[i].from in nodes
    ensures fresh(indegree) && EdgeCounts(indegree[..], nodes, es, |es|)
  {
    indegree := new nat[|nodes|](_ => 0);
    NoCounts(indegree[..], nodes, es);
    hide *;
    var j := 0;
    while j < |es|
      invariant 0 <= j <= |es| && indegree.Length == |nodes|
      invariant EdgeCounts(indegree[..], nodes, es, j)
    {
      ghost var before := indegree[..];
      CountEdge(before, nodes, es, j);
      var d := LowerBound(nodes, es[j].from);
      indegree[d] := indegree[d] + 1;
      assert indegree[..] == before[d := before[d] + 1];
      j := j + 1;
    }
  }

  method CollectReady(nodes: seq<Id>, indegree: array<nat>) returns (ready: seq<Id>)
    requires Distinct(nodes) && indegree.Length == |nodes|
    ensures ReadySet(ready, indegree[..], nodes, [])
  {
    ready := [];
    var i := 0;
    while i < |nodes|
      invariant 0 <= i <= |nodes|
      invariant StrictlySorted(ready)
      invariant forall k :: 0 <= k < i ==> (nodes[k] in ready <==> indegree[k] == 0)
      invariant forall v :: v in ready ==> v in nodes[..i]
    {
      assert nodes[i] !in nodes[..i];
      assert nodes[..i + 1] == nodes[..i] + [nodes[i]];
      if indegree[i] == 0 {
        SetInsertExact(ready, nodes[i]);
        ready := SetInsert(ready, nodes[i]);
      }
      i := i + 1;
    }
  }

  /** Counts the constraints of every node, then collects the nodes without any. */
  method Prepare(nodes: seq<Id>, es: seq<Edge>) returns (indegree: array<nat>, ready: seq<Id>)
    requires Proper(nodes, es)
    ensures fresh(indegree) && Steady(nodes, es, [], indegree[..], ready)
  {
    StrictlySortedDistinct(nodes);
    indegree := CountEdges(nodes, es);
    ready := CollectReady(nodes, indegree);
    forall i | 0 <= i < |nodes| ensures indegree[i] == OpenEdges(es, |es|, 0, nodes[i], [], "") {
      FreeCount(es, |es|, nodes[i]);
    }
  }

  /** The outer loop computes exactly the simple form. */
  method Run(nodes: seq<Id>, es: seq<Edge>) returns (order: seq<Id>)
    requires Proper(nodes, es)
    ensures order == Kahn(nodes, es, [])
  {
    hide *;
    var indegree, ready := Prepare(nodes, es);
    order := [];
    while ready != []
      invariant Steady(nodes, es, order, indegree[..], ready)
      decreases |nodes| - |order|
    {
      var cur := ready[0];
      PickLeast(nodes, es, order, indegree[..], ready);
      RunStep(nodes, es, order, indegree[..], ready);
      ready := Emit(nodes, es, order, cur, indegree, ready[1..]);
      Settle(nodes, es, order, cur, indegree[..], ready);
      order := order + [cur];
    }
    Exhausted(nodes, es, order, indegree[..]);
  }

  lemma RunStep(nodes: seq<Id>, es: seq<Edge>, order: seq<Id>, indegree: seq<nat>, ready: seq<Id>)
    requires Proper(nodes, es) && Steady(nodes, es, order, indegree, ready)
    ensures StrictlySorted(nodes) && Respects(order, es) && PrefixOk(order, nodes, es)
    ensures Kahn(nodes, es, []) == Kahn(nodes, es, order)
    ensures forall i :: 0 <= i < |es| ==> es[i].from in nodes && es[i].from != es[i].to
  {
  }

  // ---------------------------------------------------------------------
  // The cycle witness.
  // ---------------------------------------------------------------------

  /** Nodes that were never emitted, in order. */
  method Unresolved(nodes: seq<Id>, order: seq<Id>) returns (rest: seq<Id>)
    requires StrictlySorted(nodes)
    ensures StrictlySorted(rest)
    ensures forall v :: v in rest <==> v in nodes && v !in order
  {
    rest := [];
    var i := 0;
    while i < |nodes|
      invariant 0 <= i <= |nodes|
      invariant StrictlySorted(rest)
      invariant forall v :: v in rest <==> v in nodes[..i] && v !in order
    {
      assert nodes[..i + 1] == nodes[..i] + [nodes[i]];
      if nodes[i] !in order {
        forall k | 0 <= k < |rest| ensures Less(rest[k], nodes[i]) { assert rest[k] in nodes[..i]; }
        rest := rest + [nodes[i]];
      }
      i := i + 1;
    }
    assert nodes[..|nodes|] == nodes;
  }

  /** Position of the first edge out of `cursor` that stays inside `rest`. */
  function FirstResidual(es: seq<Edge>, cursor: Id, rest: seq<Id>): (k: nat)
    ensures k <= |es|
    ensures k < |es| ==> es[k].from == cursor && es[k].to in rest
    ensures forall j :: 0 <= j < k ==> !(es[j].from == cursor && es[j].to in rest)
  {
    if es == [] then 0
    else if es[0].from == cursor && es[0].to in rest then 0
    else
      assert forall j :: 0 < j < |es| ==> es[j] == es[1..][j - 1];
      1 + FirstResidual(es[1..], cursor, rest)
  }

  /** `next` is the least target of `cursor` inside the residual graph. */
  ghost predicate LeastStep(es: seq<Edge>, rest: seq<Id>, cursor: Id, next: Id) {
    && Edge(cursor, next) in es && next in rest
    && forall e :: e in es && e.from == cursor && e.to in rest ==> e.to == next || Less(next, e.to)
  }

  lemma FirstResidualLeast(es: seq<Edge>, cursor: Id, rest: seq<Id>)
    requires Ascending(es, EdgeLess)
    requires HasExit(cursor, es, rest)
    ensures var k := FirstResidual(es, cursor, rest);
      k < |es| && LeastStep(es, rest, cursor, es[k].to)
  {
    var k := FirstResidual(es, cursor, rest);
    var w :| w in es && w.from == cursor && w.to in rest;
    assert k < |es|;
    assert es[k] in es && es[k] == Edge(cursor, es[k].to);
    forall e | e in es && e.from == cursor && e.to in rest ensures e.to == es[k].to || Less(es[k].to, e.to) {
      var j :| 0 <= j < |es| && es[j] == e;
      assert j >= k;
      LessTotal(es[k].to, e.to);
      if j > k { assert !EdgeLess(es[j], es[k]); }
    }
  }

  /** Every unresolved node still waits for an unresolved one. */
  ghost predicate Stuck(es: seq<Edge>, rest: seq<Id>) {
    forall v {:trigger HasExit(v, es, rest)} :: v in rest ==> HasExit(v, es, rest)
  }

  ghost predicate HasExit(v: Id, es: seq<Edge>, rest: seq<Id>) {
    exists e :: e in es && e.from == v && e.to in rest
  }

  /** No node outside the order is free. */
  ghost predicate Halted(nodes: seq<Id>, es: seq<Edge>, order: seq<Id>) {
    forall v {:trigger Free(v, es, order)} :: v in nodes && v !in order ==> !Free(v, es, order)
  }

  /** A walk from the least unresolved node along least residual edges. */
  ghost predicate Walk(path: seq<Id>, es: seq<Edge>, rest: seq<Id>) {
    && path != [] && rest != [] && path[0] == rest[0]
    && (forall i :: 0 <= i < |path| - 1 ==> LeastStep(es, rest, path[i], path[i + 1]))
    && (forall v :: v in path ==> v in rest)
  }

  /** The reported path: such a walk that ends on a node it has already visited. */
  ghost predicate Witness(path: seq<Id>, es: seq<Edge>, rest: seq<Id>) {
    Walk(path, es, rest) && |path| >= 2 && path[|path| - 1] in path[..|path| - 1]
  }

  lemma WalkOn(path: seq<Id>, es: seq<Edge>, rest: seq<Id>)
    requires Ascending(es, EdgeLess) && Stuck(es, rest) && Walk(path, es, rest)
    ensures var k := FirstResidual(es, path[|path| - 1], rest);
      k < |es| && Walk(path + [es[k].to], es, rest)
  {
    var cursor := path[|path| - 1];
    assert cursor in path && HasExit(cursor, es, rest);
    FirstResidualLeast(es, cursor, rest);
    var k := FirstResidual(es, cursor, rest);
    var longer := path + [es[k].to];
    forall i | 0 <= i < |longer| - 1 ensures LeastStep(es, rest, longer[i], longer[i + 1]) {
      if i < |path| - 1 { assert LeastStep(es, rest, path[i], path[i + 1]); }
    }
  }

  method CycleWalk(es: seq<Edge>, rest: seq<Id>) returns (path: seq<Id>)
    requires Ascending(es, EdgeLess) && rest != [] && Stuck(es, rest)
    ensures Witness(path, es, rest)
  {
    hide Ascending;
    hide Stuck;
    hide LeastStep;
    var cursor := rest[0];
    path := [cursor];
    var guard, closed := 0, false;
    while guard <= |rest| && !closed
      invariant Walk(path, es, rest) && cursor == path[|path| - 1]
      invariant !closed ==> guard == |path| - 1 && Distinct(path)
      invariant closed ==> |path| >= 2 && path[|path| - 1] in path[..|path| - 1]
      decreases if closed then 0 else |rest| + 1 - guard
    {
      WalkOn(path, es, rest);
      var next := es[FirstResidual(es, cursor, rest)].to;
      closed := next in path;
      assert (path + [next])[..|path|] == path;
      path := path + [next];
      cursor := next;
      guard := guard + 1;
    }
    if !closed { SetBound(path, rest); }
  }

  lemma WalkIsPath(path: seq<Id>, es: seq<Edge>, rest: seq<Id>)
    requires Walk(path, es, rest)
    ensures Path(path, es)
  {
    forall i | 0 <= i < |path| - 1 ensures Edge(path[i], path[i + 1]) in es {
      assert LeastStep(es, rest, path[i], path[i + 1]);
    }
  }

  lemma TailPath(path: seq<Id>, es: seq<Edge>, k: nat)
    requires Path(path, es) && k < |path|
    ensures Path(path[k..], es)
  {
    var c := path[k..];
    forall i | 0 <= i < |c| - 1 ensures Edge(c[i], c[i + 1]) in es {
      assert Edge(path[k + i], path[k + i + 1]) in es;
    }
  }

  lemma WitnessIsCycle(path: seq<Id>, es: seq<Edge>, rest: seq<Id>)
    requires Witness(path, es, rest)
    ensures Path(path, es)
    ensures !Acyclic(es)
  {
    WalkIsPath(path, es, rest);
    hide Walk;
    hide Path;
    var n := |path| - 1;
    var k :| 0 <= k < n && path[k] == path[n];
    TailPath(path, es, k);
    assert Cycle(path[k..], es);
  }

  // ---------------------------------------------------------------------
  // The graph object.
  // ---------------------------------------------------------------------

  ghost predicate Canonical(order: seq<Id>, nodes: seq<Id>, es: seq<Edge>) {
    && Arrangement(order, nodes) && Respects(order, es)
    && forall other :: Arrangement(other, nodes) && Respects(other, es) ==> LexLeq(order, other)
  }

  lemma KahnCanonical(nodes: seq<Id>, es: seq<Edge>)
    requires Proper(nodes, es)
    ensures var order := Kahn(nodes, es, []);
      && PrefixOk(order, nodes, es)
      && Halted(nodes, es, order)
      && (|order| == |nodes| ==> Canonical(order, nodes, es) && Acyclic(es))
  {
    var order := Kahn(nodes, es, []);
    KahnExact(nodes, es, []);
    StrictlySortedDistinct(nodes);
    if |order| == |nodes| {
      SetBound(order, nodes);
      OrderImpliesAcyclic(order, es);
      forall other | Arrangement(other, nodes) && Respects(other, es) ensures LexLeq(order, other) {
        SetBound(other, nodes);
        SetBound(nodes, other);
        CanonicalOrder(nodes, es, order, other);
      }
    }
  }

  /** No self edges: construction refuses them. */
  ghost predicate WellBuilt(edges: seq<Dependency>) {
    forall d :: d in edges ==> d.from != d.to
  }

  lemma InducedProper(edges: seq<Dependency>, nodes: seq<Id>)
    requires WellBuilt(edges) && StrictlySorted(nodes)
    ensures Proper(nodes, Induced(edges, nodes))
  {
    InducedExact(edges, nodes);
    var es := Induced(edges, nodes);
    forall i | 0 <= i < |es| ensures es[i].from in nodes && es[i].to in nodes && es[i].from != es[i].to {
      assert es[i] in es;
    }
  }

  /** A graph that was built has no edge from a service to itself. */
  lemma {:induction false} GoodEdges(edges: seq<Dependency>)
    requires FirstBadEdge(edges) == Nominal
    ensures WellBuilt(edges)
  {
    if edges != [] {
      GoodEdges(edges[1..]);
      assert edges == [edges[0]] + edges[1..];
    }
  }

  lemma BuiltGraph(edges: seq<Dependency>, maxEdges: nat)
    requires BuildGraph(edges, maxEdges).Ok?
    ensures var built := BuildGraph(edges, maxEdges).value;
      WellBuilt(built) && multiset(built) == multiset(edges) && |built| <= maxEdges
  {
    GoodEdges(edges);
    SortKeeps(edges, DependencyLess);
  }

  /** No two edges agree in source, target and kind. */
  ghost predicate NoRepeatedEdges(edges: seq<Dependency>) {
    forall i, j :: 0 <= i < j < |edges| ==> !SameEdge(edges[i], edges[j])
  }

  lemma DependencyTotal(a: Dependency, b: Dependency)
    ensures !(DependencyLess(a, b) && DependencyLess(b, a))
    ensures !DependencyLess(a, b) && !DependencyLess(b, a) ==> a == b
  {
    LessTotal(a.from, b.from);
    LessTotal(a.to, b.to);
    LessTotal(a.id, b.id);
  }

  lemma DependencyTrans(a: Dependency, b: Dependency, c: Dependency)
    requires !DependencyLess(b, a) && !DependencyLess(c, b)
    ensures !DependencyLess(c, a)
    ensures SameEdge(a, c) ==> SameEdge(a, b)
  {
    hide Less;
    IdTrans(a.from, b.from, c.from);
    IdTrans(a.to, b.to, c.to);
    IdTrans(a.id, b.id, c.id);
  }

  lemma IdTrans(a: Id, b: Id, c: Id)
    ensures a == b || Less(a, b) || Less(b, a)
    ensures b == c || Less(b, c) || Less(c, b)
    ensures a == c || Less(a, c) || Less(c, a)
    ensures !(Less(a, b) && Less(b, a)) && !(Less(b, c) && Less(c, b)) && !(Less(a, c) && Less(c, a)) && !Less(a, a)
    ensures Less(a, b) && Less(b, c) ==> Less(a, c)
  {
    LessTotal(a, b);
    LessTotal(b, c);
    LessTotal(a, c);
    if Less(a, b) && Less(b, c) { LessTrans(a, b, c); }
  }

  lemma DependencyStrictWeak()
    ensures StrictWeak(DependencyLess)
  {
    hide DependencyLess;
    forall a, b ensures !(DependencyLess(a, b) && DependencyLess(b, a)) { DependencyTotal(a, b); }
    forall a, b, c | !DependencyLess(b, a) && !DependencyLess(c, b) ensures !DependencyLess(c, a) { DependencyTrans(a, b, c); }
  }

  /** Once sorted, repeats stand next to each other. */
  lemma AdjacentFindsAll(s: seq<Dependency>)
    requires Ascending(s, DependencyLess)
    ensures AdjacentDuplicate(s) <==> !NoRepeatedEdges(s)
  {
    hide DependencyLess;
    forall i, j | 0 <= i < j < |s| && SameEdge(s[i], s[j]) ensures AdjacentDuplicate(s) {
      if i + 1 < j { DependencyTrans(s[i], s[i + 1], s[j]); }
      assert SameEdge(s[i + 1 - 1], s[i + 1]);
    }
  }

  /** Stated without positions. */
  lemma NoRepeatsIs(s: seq<Dependency>)
    ensures NoRepeatedEdges(s) <==> Distinct(s) && forall x, y :: x in s && y in s && SameEdge(x, y) ==> x == y
  {
    if NoRepeatedEdges(s) {
      assert forall i, j :: 0 <= i < |s| && 0 <= j < |s| && SameEdge(s[i], s[j]) ==> i == j;
      forall i, j | 0 <= i < j < |s| ensures s[i] != s[j] { assert !SameEdge(s[i], s[j]); }
    }
  }

  lemma NoRepeatsPermuted(s: seq<Dependency>, t: seq<Dependency>)
    requires multiset(s) == multiset(t)
    ensures NoRepeatedEdges(s) <==> NoRepeatedEdges(t)
  {
    hide NoRepeatedEdges;
    PermutationDistinct(s, t);
    MultisetMembers(s, t);
    NoRepeatsIs(s);
    NoRepeatsIs(t);
  }

  /** Why an edge is refused by itself. */
  function EdgeStatus(e: Dependency): Reason {
    if e.id == "" || e.from == "" || e.to == "" then InvalidIdentity
    else if e.from == e.to then SelfDependency
    else Nominal
  }

  /** The edge at `k` is refused by itself, and none before it. */
  ghost predicate FirstBadAt(edges: seq<Dependency>, k: nat)
    requires k < |edges|
  {
    EdgeStatus(edges[k]) != Nominal && forall i :: 0 <= i < k ==> EdgeStatus(edges[i]) == Nominal
  }

  /** The first edge refused by itself decides. */
  lemma {:induction false} FirstBadIs(edges: seq<Dependency>, k: nat)
    requires k <= |edges| && forall i :: 0 <= i < k ==> EdgeStatus(edges[i]) == Nominal
    ensures FirstBadEdge(edges) == FirstBadEdge(edges[k..])
  {
    if k > 0 {
      FirstBadIs(edges[1..], k - 1);
      assert edges[1..][k - 1..] == edges[k..];
    }
  }

  lemma FirstBadStatus(edges: seq<Dependency>, k: nat)
    requires k < |edges| && FirstBadAt(edges, k)
    ensures FirstBadEdge(edges) == EdgeStatus(edges[k])
  {
    FirstBadIs(edges, k);
    assert edges[k..][0] == edges[k];
  }

  /** A graph is built exactly from a bounded number of complete edges between different
      services without repeats, and holds them in order. */
  lemma BuildGraphExactly(edges: seq<Dependency>, maxEdges: nat)
    ensures BuildGraph(edges, maxEdges).Ok? <==>
      |edges| <= maxEdges && (forall e :: e in edges ==> EdgeStatus(e) == Nominal) && NoRepeatedEdges(edges)
    ensures BuildGraph(edges, maxEdges).Ok? ==>
      var built := BuildGraph(edges, maxEdges).value;
      multiset(built) == multiset(edges) && Ascending(built, DependencyLess) && NoRepeatedEdges(built)
  {
    var sorted := Sort(edges, DependencyLess);
    SortKeeps(edges, DependencyLess);
    DependencyStrictWeak();
    SortAscends(edges, DependencyLess);
    hide Sort, DependencyLess;
    AdjacentFindsAll(sorted);
    NoRepeatsPermuted(sorted, edges);
    hide AdjacentDuplicate, NoRepeatedEdges;
    AllGood(edges);
  }

  lemma AllGood(edges: seq<Dependency>)
    ensures FirstBadEdge(edges) == Nominal <==> forall e :: e in edges ==> EdgeStatus(e) == Nominal
  {
    if k :| 0 <= k < |edges| && FirstBadAt(edges, k) {
      FirstBadIs(edges, k);
      assert edges[k..][0] == edges[k] && edges[k] in edges;
    } else {
      AllNominal(edges, |edges|);
      FirstBadIs(edges, |edges|);
    }
  }

  lemma {:induction false} AllNominal(edges: seq<Dependency>, n: nat)
    requires n <= |edges|
    requires forall k :: 0 <= k < n ==> !FirstBadAt(edges, k)
    ensures forall k :: 0 <= k < n ==> EdgeStatus(edges[k]) == Nominal
  {
    if n > 0 {
      AllNominal(edges, n - 1);
      assert !FirstBadAt(edges, n - 1);
    }
  }

  class Graph {
    var edges: seq<Dependency>

    ghost predicate Valid() reads this { WellBuilt(edges) }

    constructor ()
      ensures Valid() && edges == []
    {
      edges := [];
    }

    /** Either the graph holds the input in order, or the first reason against it is
        returned and the graph is as it was. */
    method Build(input: seq<Dependency>, maxEdges: nat) returns (status: Reason)
      requires Valid()
      modifies this
      ensures Valid()
      ensures status == Nominal <==>
        |input| <= maxEdges && (forall e :: e in input ==> EdgeStatus(e) == Nominal) && NoRepeatedEdges(input)
      ensures status == Nominal ==>
        multiset(edges) == multiset(input) && Ascending(edges, DependencyLess) && NoRepeatedEdges(edges) && BuildGraph(input, maxEdges) == Ok(edges)
      ensures status != Nominal ==> edges == old(edges) && BuildGraph(input, maxEdges) == Err(status)
      ensures |input| > maxEdges ==> status == BoundExceeded
      ensures forall k :: 0 <= k < |input| <= maxEdges && FirstBadAt(input, k) ==> status == EdgeStatus(input[k])
      ensures |input| <= maxEdges && (forall e :: e in input ==> EdgeStatus(e) == Nominal) && !NoRepeatedEdges(input) ==> status == DependencyDuplicate
    {
      hide Sort, DependencyLess, NoRepeatedEdges, Ascending, SameEdge, EdgeStatus;
      BuildGraphExactly(input, maxEdges);
      if |input| > maxEdges { return BoundExceeded; }
      var k := 0;
      while k < |input|
        invariant 0 <= k <= |input| && forall i :: 0 <= i < k ==> EdgeStatus(input[i]) == Nominal
      {
        if EdgeStatus(input[k]) != Nominal {
          FirstBadStatus(input, k);
          assert input[k] in input;
          return EdgeStatus(input[k]);
        }
        k := k + 1;
      }
      FirstBadIs(input, |input|);
      var sorted := Sort(input, DependencyLess);
      k := 1;
      while k < |sorted|
        invariant 1 <= k && forall i :: 0 < i < k && i < |sorted| ==> !SameEdge(sorted[i - 1], sorted[i])
      {
        if SameEdge(sorted[k - 1], sorted[k]) { return DependencyDuplicate; }
        k := k + 1;
      }
      BuiltGraph(input, maxEdges);
      edges := sorted;
      return Nominal;
    }

    /** Succeeds exactly on acyclic induced graphs, with the least of all valid
        orders; otherwise reports a path that runs into itself. */
    method TopologicalOrder(services: seq<Id>) returns (order: Result<seq<Id>>, cyclePath: seq<Id>)
      requires Valid()
      ensures Ordered(edges, services, order, cyclePath)
    {
      var nodes := Nodes(services);
      var es := Induced(edges, nodes);
      NodesExact(services);
      InducedProper(edges, nodes);
      KahnCanonical(nodes, es);
      hide Canonical;
      hide Acyclic;
      hide PrefixOk;
      hide Proper;
      var emitted := Run(nodes, es);
      if |emitted| == |nodes| { return Ok(emitted), []; }
      cyclePath := ReportCycle(nodes, es, emitted);
      return Err(DependencyCycle), cyclePath;
    }
  }

  /** What a call of the ordering promises. */
  ghost predicate Ordered(edges: seq<Dependency>, services: seq<Id>, order: Result<seq<Id>>, cyclePath: seq<Id>) {
    var nodes := Nodes(services);
    var es := Induced(edges, nodes);
    && (order.Ok? <==> Acyclic(es))
    && (order.Ok? ==> Canonical(order.value, nodes, es) && OrderOf(nodes, es) == Some(order.value) && cyclePath == [])
    && (order.Err? ==> order.code == DependencyCycle && OrderOf(nodes, es).None? && RunsIntoItself(cyclePath, es))
  }

  ghost predicate RunsIntoItself(path: seq<Id>, es: seq<Edge>) {
    Path(path, es) && |path| >= 2 && path[|path| - 1] in path[..|path| - 1]
  }

  lemma SomeUnresolved(nodes: seq<Id>, order: seq<Id>)
    requires Distinct(nodes) && Distinct(order) && |order| != |nodes| && forall v :: v in order ==> v in nodes
    ensures exists v :: v in nodes && v !in order
  {
    SetBound(order, nodes);
    if forall v :: v in nodes ==> v in order { SetBound(nodes, order); }
  }

  lemma StuckRest(nodes: seq<Id>, es: seq<Edge>, order: seq<Id>, rest: seq<Id>)
    requires Proper(nodes, es)
    requires forall v :: v in rest <==> v in nodes && v !in order
    requires Halted(nodes, es, order)
    ensures Stuck(es, rest)
  {
    forall v | v in rest ensures HasExit(v, es, rest) {
      assert !Free(v, es, order);
      var e :| e in es && e.from == v && e.to !in order;
      var i :| 0 <= i < |es| && es[i] == e;
    }
  }

  method ReportCycle(nodes: seq<Id>, es: seq<Edge>, order: seq<Id>) returns (path: seq<Id>)
    requires Proper(nodes, es) && PrefixOk(order, nodes, es) && |order| != |nodes|
    requires Halted(nodes, es, order)
    ensures RunsIntoItself(path, es) && !Acyclic(es)
  {
    StrictlySortedDistinct(nodes);
    SomeUnresolved(nodes, order);
    var rest := Unresolved(nodes, order);
    StuckRest(nodes, es, order, rest);
    hide Stuck;
    hide Walk;
    hide Acyclic;
    path := CycleWalk(es, rest);
    WitnessIsCycle(path, es, rest);
  }
}
