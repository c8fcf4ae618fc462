/** Two services that fit together and are refused: placed in order, the first takes the
    only device the second may use. */
module Tangled {
  import opened Base
  import opened Order
  import opened Model
  import opened Eligibility
  import opened DependencyGraph
  import opened Planner
  import opened PlannerSound
  import opened PlannerComplete
  import opened Scenario

  const FIRST := DEVICE.(id := "c", profile := DEVICE.profile.(architecture := Aarch64))
  const SECOND := DEVICE
  const LOOSE := SERVICE.(id := "a", scope := None)
  const PICKY := SERVICE.(id := "b", scope := None, compatibility := Requirement(Some(Aarch64), None, [], None, []))
  const BOTH := Group("g", ["a", "b"], AntiAffinity(1, None, false))
  const WISH := Intent("n", "g", Deploy, 1, [ReplicaIntent("a", 1), ReplicaIntent("b", 1)], Staging(1, 0))

  function Tangle(bounds: Bounds, weights: Weights, hash: string -> string): Request {
    Request([FIRST, SECOND], 1, POLICY, [LOOSE, PICKY], [], BOTH, WISH, [], 0, 1, 1, bounds, weights, hash)
  }

  lemma TwoNodes()
    ensures Nodes(["a", "b"]) == ["a", "b"] && Induced([], ["a", "b"]) == [] && OrderOf(["a", "b"], []) == Some(["a", "b"])
  {
    hide FirstReady, Kahn;
    KahnTwo("a", "b");
    var n := ["a", "b"];
    SortTwo("a", "b", Less);
    hide Sort, Less;
    assert n[..1] == ["a"] && Unique(["a"]) == ["a"];
    assert Unique(n) == ["a"] + ["b"];
    NothingInduced(n);
    hide Induced;
  }

  lemma NothingInduced(n: seq<Id>)
    ensures Induced([], n) == []
  {
    assert InducedUnsorted([], n) == [] && Sort([], EdgeLess) == [];
  }

  lemma KahnTwo(x: Id, y: Id)
    requires x != y
    ensures Kahn([x, y], [], []) == [x, y]
  {
    var n := [x, y];
    assert DependencyGraph.Ready(x, [], []) && FirstReady(n, [], []) == 0;
    assert !DependencyGraph.Ready(x, [], [x]) && DependencyGraph.Ready(y, [], [x]);
    assert n[0] == x && n[1] == y && FirstReady(n, [], [x]) == 1;
    assert [] + [x] == [x] && [x] + [y] == n;
    hide FirstReady;
    assert Kahn(n, [], n) == n;
    assert Kahn(n, [], [x]) == Kahn(n, [], n);
    assert Kahn(n, [], []) == Kahn(n, [], [x]);
  }

  lemma FoundTwo()
    ensures FindService([LOOSE, PICKY], "a") == Some(LOOSE) && FindService([LOOSE, PICKY], "b") == Some(PICKY)
  {
    assert Map(ServiceIdOf, [LOOSE, PICKY]) == ["a", "b"];
    assert ["a", "b"][1..] == ["b"];
  }

  lemma DesiredTwo()
    ensures Desired(WISH.services, "a") == 1 && Desired(WISH.services, "b") == 1
  {
    assert Map(EntryService, WISH.services) == ["a", "b"];
    assert ["a", "b"][1..] == ["b"];
  }

  lemma TangleValid(r: Request)
    requires r == Tangle(r.bounds, r.weights, r.hash) && r.bounds.maxServices >= 2 && r.bounds.maxDpus >= 2 && r.bounds.maxReplicas >= 1
    ensures Validation(r) == Nominal && OrderFor(r) == Some(["a", "b"])
  {
    hide Rejected, Unsatisfied, OrderFor, IntentServices;
    TangleAccepted(r);
    TangleOrdered(r);
  }

  lemma TangleOrdered(r: Request)
    requires r == Tangle(r.bounds, r.weights, r.hash)
    ensures OrderFor(r) == Some(["a", "b"]) && !Unsatisfied(r)
  {
    hide Nodes, Induced, OrderOf, Needs;
    assert IntentServices(r) == ["a", "b"];
    TwoNodes();
    NothingNeeded("a");
    NothingNeeded("b");
  }

  lemma TangleAccepted(r: Request)
    requires r == Tangle(r.bounds, r.weights, r.hash) && r.bounds.maxReplicas >= 1
    ensures !Rejected(r)
  {
    hide EntryOk;
    assert IntentServices(r) == ["a", "b"];
    TangleEntries(r);
    assert !Repeats(IntentServices(r));
    hide Repeats;
  }

  lemma TangleEntries(r: Request)
    requires r == Tangle(r.bounds, r.weights, r.hash) && r.bounds.maxReplicas >= 1
    ensures EntryOk(r, WISH.services[0]) && EntryOk(r, WISH.services[1])
  {
    hide FindService;
    FoundTwo();
  }

  lemma WhoFits()
    ensures Admissible(FIRST, LOOSE, POLICY, 0) && Admissible(SECOND, LOOSE, POLICY, 0)
    ensures Admissible(FIRST, PICKY, POLICY, 0) && !Admissible(SECOND, PICKY, POLICY, 0)
  {
    assert Covers(Resources(1, 1, 1, 1, 1), NO_RESOURCES);
  }

  lemma Chosen2(r: Request, s: Service, u: Usage)
    requires r == Tangle(r.bounds, r.weights, r.hash) && s.scope == None
    ensures Selectable(r, s, u, FIRST) <==> Admissible(FIRST, s, POLICY, 0)
    ensures Selectable(r, s, u, SECOND) <==> Admissible(SECOND, s, POLICY, 0)
  {
    hide Evaluate, Admissible;
    EligibleExact(FIRST, s, POLICY, 0);
    EligibleExact(SECOND, s, POLICY, 0);
  }

  function Worth(r: Request, s: Service, onDpu: nat, inDomain: nat): nat { Score(SECOND, s, onDpu, inDomain, r.weights) }

  lemma SameWorth(r: Request, s: Service, onDpu: nat, inDomain: nat)
    ensures Score(FIRST, s, onDpu, inDomain, r.weights) == Worth(r, s, onDpu, inDomain)
  {
    hide HeadroomPermille;
  }

  /** The candidates of two devices in order, when both or only the first may be chosen. */
  lemma CandidatesTwo(r: Request, s: Service, u: Usage, x: Dpu, y: Dpu)
    requires Selectable(r, s, u, x)
    ensures var c, d := Candidate(x, Score(x, s, Count(u.onDpu, x.id), Count(u.inDomain, x.domain), r.weights)),
                        Candidate(y, Score(y, s, Count(u.onDpu, y.id), Count(u.inDomain, y.domain), r.weights));
      Candidates(r, s, u, [x, y]) == if Selectable(r, s, u, y) then [c, d] else [c]
  {
    hide Selectable, Score;
    var c := Candidate(x, Score(x, s, Count(u.onDpu, x.id), Count(u.inDomain, x.domain), r.weights));
    assert [x, y][..1] == [x] && [x][..0] == [];
    assert Candidates(r, s, u, []) == [];
    assert Candidates(r, s, u, [x]) == [] + [c];
  }

  lemma DevicesInOrder()
    ensures Sort([FIRST, SECOND], DpuLess) == [FIRST, SECOND]
  {
    SortTwo(FIRST, SECOND, DpuLess);
    hide Sort;
  }

  lemma LooseRanked(r: Request, u: Usage)
    requires r == Tangle(r.bounds, r.weights, r.hash) && u == StartUsage(r)
    ensures var w := Worth(r, LOOSE, 0, 0); Ranked(r, LOOSE, u) == [Candidate(FIRST, w), Candidate(SECOND, w)]
  {
    hide Selectable, Admissible, Score, Sort, Candidates;
    WhoFits();
    Chosen2(r, LOOSE, u);
    SameWorth(r, LOOSE, 0, 0);
    DevicesInOrder();
    CandidatesTwo(r, LOOSE, u, FIRST, SECOND);
    var w := Worth(r, LOOSE, 0, 0);
    SortTwo(Candidate(FIRST, w), Candidate(SECOND, w), CandidateLess);
  }

  lemma PickyRanked(r: Request, u: Usage)
    requires r == Tangle(r.bounds, r.weights, r.hash)
    ensures |Ranked(r, PICKY, u)| == 1 && Ranked(r, PICKY, u)[0].dpu == FIRST
  {
    hide Selectable, Admissible, Score, Sort, Candidates;
    WhoFits();
    Chosen2(r, PICKY, u);
    DevicesInOrder();
    CandidatesTwo(r, PICKY, u, FIRST, SECOND);
    SortOne(Candidates(r, PICKY, u, [FIRST, SECOND])[0], CandidateLess);
  }

  lemma LoosePlaced(r: Request, p: Progress)
    requires r == Tangle(r.bounds, r.weights, r.hash) && p.usage == StartUsage(r)
    ensures Count(PlaceService(r, LOOSE, p).usage.onDpu, "c") == 1
  {
    hide Ranked, Allowed, Score, Desired, Place, FreeOn, Subtract;
    var w := Worth(r, LOOSE, 0, 0);
    var c, d := Candidate(FIRST, w), Candidate(SECOND, w);
    LooseRanked(r, p.usage);
    DesiredTwo();
    FirstAllowed(r, p.usage);
    PlaceFirst(BOTH, POLICY, LOOSE, Placing([], p.usage, map[]), c, d);
  }

  lemma FirstAllowed(r: Request, u: Usage)
    requires u == StartUsage(r)
    ensures Allowed(BOTH, POLICY, LOOSE, Placing([], u, map[]), FIRST)
  {
    assert Covers(Resources(1, 1, 1, 1, 1), NO_RESOURCES);
  }

  lemma PlaceFirst(g: Group, p: Policy, s: Service, a: Placing, c: Candidate, d: Candidate)
    requires a.replicas == [] && Allowed(g, p, s, a, c.dpu)
    ensures Place(g, p, s, 1, a, [c, d]) == PlaceOn(s, a, c)
  {
    hide Allowed, Planner.Take;
    var b := PlaceOn(s, a, c);
    assert [c, d][1..] == [d];
    assert Place(g, p, s, 1, b, [d]) == b;
  }

  lemma PickyRefused(r: Request, p: Progress)
    requires r == Tangle(r.bounds, r.weights, r.hash) && Count(p.usage.onDpu, "c") == 1
    ensures PlaceService(r, PICKY, p).failure == InsufficientEligibleDpus
  {
    PickyRanked(r, p.usage);
    DesiredTwo();
    var cs := Ranked(r, PICKY, p.usage);
    var a := Placing([], p.usage, map[]);
    assert !Allowed(BOTH, POLICY, PICKY, a, FIRST);
    hide Ranked, Allowed, Score, Desired;
    assert cs == [cs[0]] && cs[1..] == [];
    assert Place(BOTH, POLICY, PICKY, 1, a, []) == a;
    assert Place(BOTH, POLICY, PICKY, 1, a, cs) == a;
  }

  /** The second service alone could have had the first device, and the first the second:
      together they keep every rule. */
  lemma GreedyMisses(bounds: Bounds, weights: Weights, hash: string -> string)
    requires bounds.maxServices >= 2 && bounds.maxDpus >= 2 && bounds.maxReplicas >= 1
    ensures var r := Tangle(bounds, weights, hash);
      && BuildPlan(r) == Infeasible(InsufficientEligibleDpus)
      && Selection(r, LOOSE, 1, {SECOND}) && Selection(r, PICKY, 1, {FIRST})
      && {SECOND} !! {FIRST} && Spread(r.group, {FIRST, SECOND})
  {
    hide Validation, OrderFor, PlaceServices, Selection, Spread;
    var r := Tangle(bounds, weights, hash);
    TangleValid(r);
    PlacedTwo(r);
    TwoApart(r);
  }

  lemma PlacedTwo(r: Request)
    requires r == Tangle(r.bounds, r.weights, r.hash)
    ensures PlaceServices(r, ["a", "b"], Progress(StartUsage(r), [], Nominal)).failure == InsufficientEligibleDpus
  {
    hide PlaceService, FindService;
    var p := Progress(StartUsage(r), [], Nominal);
    LoosePlaced(r, p);
    var q := PlaceService(r, LOOSE, p);
    PickyRefused(r, q);
    FoundTwo();
    assert ["a", "b"][1..] == ["b"] && ["b"][1..] == [];
    assert PlaceServices(r, ["b"], q) == PlaceServices(r, [], PlaceService(r, PICKY, q)) == PlaceService(r, PICKY, q);
    assert PlaceServices(r, ["a", "b"], p) == PlaceServices(r, ["b"], q);
  }

  lemma TwoApart(r: Request)
    requires r == Tangle(r.bounds, r.weights, r.hash)
    ensures Selection(r, LOOSE, 1, {SECOND}) && Selection(r, PICKY, 1, {FIRST})
    ensures {SECOND} !! {FIRST} && Spread(r.group, {FIRST, SECOND})
  {
    WhoFits();
    hide Admissible;
    assert Owners([]) == map[];
  }
}
