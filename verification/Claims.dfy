/** Claiming the devices of an accepted plan: the registry never refuses what the
    planner placed, and ends up with exactly the planned owners. */
module Claims {
  import opened Base
  import opened Order
  import opened Model
  import opened Authority
  import opened DependencyGraph
  import opened Planner
  import opened PlannerSound
  import opened Reducers

  /** One device a plan claims, and for which scope. */
  datatype Want = Want(dpu: Id, scope: Id)

  function WantsOf(scope: Id, replicas: seq<Replica>): seq<Want> {
    seq(|replicas|, i requires 0 <= i < |replicas| => Want(replicas[i].dpu, scope))
  }

  function Wants(services: seq<Service>, plans: seq<ServicePlan>): seq<Want> {
    if plans == [] then []
    else
      var scope := ScopeOf(services, plans[0].service);
      (if scope.Some? then WantsOf(scope.value, plans[0].replicas) else []) + Wants(services, plans[1..])
  }

  function ClaimAll(grants: seq<Grant>, wants: seq<Want>, group: Id, st: RuntimeState, at: nat, maxGrants: nat): Result<seq<Grant>>
    decreases |wants|
  {
    if wants == [] then Ok(grants)
    else
      var r := Claim(grants, wants[0].scope, group, wants[0].dpu, st.epoch, st.boot, at, maxGrants);
      if r.Err? then r else ClaimAll(r.value, wants[1..], group, st, at, maxGrants)
  }

  lemma {:induction false} ClaimAllSplits(grants: seq<Grant>, a: seq<Want>, b: seq<Want>, group: Id, st: RuntimeState, at: nat, maxGrants: nat)
    ensures var first := ClaimAll(grants, a, group, st, at, maxGrants);
      ClaimAll(grants, a + b, group, st, at, maxGrants)
        == if first.Err? then first else ClaimAll(first.value, b, group, st, at, maxGrants)
    decreases |a|
  {
    hide Claim;
    if a == [] {
      assert a + b == b;
    } else {
      assert (a + b)[1..] == a[1..] + b;
      var r := Claim(grants, a[0].scope, group, a[0].dpu, st.epoch, st.boot, at, maxGrants);
      if r.Ok? { ClaimAllSplits(r.value, a[1..], b, group, st, at, maxGrants); }
    }
  }

  lemma {:induction false} ClaimReplicasIs(grants: seq<Grant>, scope: Id, replicas: seq<Replica>, group: Id, st: RuntimeState, at: nat, maxGrants: nat)
    ensures ClaimReplicas(grants, scope, replicas, group, st, at, maxGrants)
         == ClaimAll(grants, WantsOf(scope, replicas), group, st, at, maxGrants)
    decreases |replicas|
  {
    hide Claim;
    if replicas != [] {
      assert WantsOf(scope, replicas)[1..] == WantsOf(scope, replicas[1..]);
      var r := Claim(grants, scope, group, replicas[0].dpu, st.epoch, st.boot, at, maxGrants);
      if r.Ok? { ClaimReplicasIs(r.value, scope, replicas[1..], group, st, at, maxGrants); }
    }
  }

  lemma {:induction false} ClaimPlansIs(grants: seq<Grant>, plans: seq<ServicePlan>, group: Id, st: RuntimeState, at: nat, maxGrants: nat)
    ensures ClaimPlans(grants, plans, group, st, at, maxGrants)
         == ClaimAll(grants, Wants(st.services, plans), group, st, at, maxGrants)
    decreases |plans|
  {
    hide FindService;
    hide ClaimReplicas;
    hide ClaimAll;
    if plans == [] {
      ClaimNone(grants, group, st, at, maxGrants);
    } else {
      var scope := ScopeOf(st.services, plans[0].service);
      var rest := Wants(st.services, plans[1..]);
      if scope.None? {
        ClaimPlansIs(grants, plans[1..], group, st, at, maxGrants);
        assert Wants(st.services, plans) == rest;
      } else {
        ClaimReplicasIs(grants, scope.value, plans[0].replicas, group, st, at, maxGrants);
        ClaimAllSplits(grants, WantsOf(scope.value, plans[0].replicas), rest, group, st, at, maxGrants);
        var r := ClaimReplicas(grants, scope.value, plans[0].replicas, group, st, at, maxGrants);
        if r.Ok? { ClaimPlansIs(r.value, plans[1..], group, st, at, maxGrants); }
      }
    }
  }

  lemma ClaimNone(grants: seq<Grant>, group: Id, st: RuntimeState, at: nat, maxGrants: nat)
    ensures ClaimAll(grants, [], group, st, at, maxGrants) == Ok(grants)
  {
  }

  // ---------------------------------------------------------------------
  // When every claim goes through.
  // ---------------------------------------------------------------------

  /** The claims agree with each other and with the grants already held. */
  ghost predicate WantsAgree(wants: seq<Want>, grants: seq<Grant>) {
    && (forall v, w :: v in wants && w in wants && v.dpu == w.dpu ==> v.scope == w.scope)
    && (forall w, g :: w in wants && g in grants && g.dpu == w.dpu ==> g.scope == w.scope)
  }

  ghost predicate Wanted(wants: seq<Want>, dpu: Id) { exists w :: w in wants && w.dpu == dpu }

  /** The registry after all claims: every wanted device under its scope, every other
      device as it was. */
  ghost predicate Acquires(before: seq<Grant>, wants: seq<Want>, after: seq<Grant>) {
    && GrantsSorted(after)
    && (forall w :: w in wants ==> Owns(after, w.dpu, w.scope))
    && (forall d :: d in Holders(after) <==> Wanted(wants, d) || d in Holders(before))
    && (forall g: Grant :: !Wanted(wants, g.dpu) ==> (g in after <==> g in before))
  }

  /** Grants on distinct known devices leave room for a device without one. */
  lemma RoomForOne(grants: seq<Grant>, devices: seq<Id>, dpu: Id)
    requires GrantsSorted(grants) && dpu in devices && dpu !in Holders(grants)
    requires forall d :: d in Holders(grants) ==> d in devices
    ensures |grants| < |devices|
  {
    var ids := Holders(grants);
    StrictlySortedDistinct(ids);
    hide StrictlySorted;
    DistinctCard(ids);
    var held, all := set d | d in ids, set d | d in devices;
    SubsetCard(held + {dpu}, all);
    SeqCard(devices);
  }

  lemma {:induction false} SeqCard(s: seq<Id>)
    ensures |set v | v in s| <= |s|
  {
    if s != [] {
      SeqCard(s[1..]);
      assert (set v | v in s) == (set v | v in s[1..]) + {s[0]};
    }
  }

  ghost predicate OnDevices(grants: seq<Grant>, wants: seq<Want>, devices: seq<Id>) {
    && (forall d :: d in Holders(grants) ==> d in devices)
    && (forall w :: w in wants ==> w.dpu in devices)
  }

  /** One claim keeps the remaining claims claimable. */
  lemma AgreeAfter(grants: seq<Grant>, wants: seq<Want>, after: seq<Grant>, devices: seq<Id>)
    requires wants != [] && WantsAgree(wants, grants) && OnDevices(grants, wants, devices)
    requires Claimed(grants, after, wants[0].dpu, wants[0].scope)
    ensures WantsAgree(wants[1..], after) && OnDevices(after, wants[1..], devices)
  {
    var mine :| mine in after && mine.dpu == wants[0].dpu && mine.scope == wants[0].scope;
    forall w, g | w in wants[1..] && g in after && g.dpu == w.dpu ensures g.scope == w.scope {
      if g.dpu == wants[0].dpu { OneOwner(after, g, mine); }
    }
  }

  lemma SettlesAfter(grants: seq<Grant>, wants: seq<Want>, mid: seq<Grant>, after: seq<Grant>)
    requires wants != [] && WantsAgree(wants, grants)
    requires Claimed(grants, mid, wants[0].dpu, wants[0].scope) && Acquires(mid, wants[1..], after)
    ensures Acquires(grants, wants, after)
  {
    hide GrantsSorted;
    forall d ensures Wanted(wants, d) <==> d == wants[0].dpu || Wanted(wants[1..], d) {
      WantedStep(wants, d);
    }
    var mine :| mine in mid && mine.dpu == wants[0].dpu && mine.scope == wants[0].scope;
    forall w | w in wants ensures Owns(after, w.dpu, w.scope) {
      if w !in wants[1..] {
        assert w == wants[0];
        forall v | v in wants[1..] ensures v.dpu != w.dpu { assert v in wants; }
        assert mine in after;
      }
    }
  }

  lemma WantedStep(wants: seq<Want>, d: Id)
    requires wants != []
    ensures Wanted(wants, d) <==> d == wants[0].dpu || Wanted(wants[1..], d)
  {
    if Wanted(wants, d) {
      var w :| w in wants && w.dpu == d;
      assert w == wants[0] || w in wants[1..];
    }
  }

  /** On known devices, agreeing claims are refused only for an unnamed scope. */
  lemma {:induction false} ClaimAllExact(grants: seq<Grant>, wants: seq<Want>, group: Id, st: RuntimeState, at: nat, maxGrants: nat, devices: seq<Id>)
    requires GrantsSorted(grants) && WantsAgree(wants, grants) && OnDevices(grants, wants, devices)
    requires |devices| <= maxGrants && group != "" && "" !in devices
    ensures var r := ClaimAll(grants, wants, group, st, at, maxGrants);
      && (r.Ok? <==> forall w :: w in wants ==> w.scope != "")
      && (r.Ok? ==> Acquires(grants, wants, r.value))
    decreases |wants|
  {
    if wants != [] {
      var dpu := wants[0].dpu;
      ClaimExact(grants, wants[0].scope, group, dpu, st.epoch, st.boot, at, maxGrants);
      if dpu !in Holders(grants) { RoomForOne(grants, devices, dpu); }
      hide Claim;
      hide GrantsSorted;
      var r := Claim(grants, wants[0].scope, group, dpu, st.epoch, st.boot, at, maxGrants);
      assert r.Ok? <==> wants[0].scope != "";
      if r.Ok? {
        AgreeAfter(grants, wants, r.value, devices);
        hide Claimed;
        hide OnDevices;
        ClaimAllExact(r.value, wants[1..], group, st, at, maxGrants, devices);
        var out := ClaimAll(r.value, wants[1..], group, st, at, maxGrants);
        if out.Ok? { SettlesAfter(grants, wants, r.value, out.value); }
        hide Acquires;
        hide WantsAgree;
        assert forall w :: w in wants <==> w == wants[0] || w in wants[1..];
      }
    }
  }

  // ---------------------------------------------------------------------
  // What the planner placed.
  // ---------------------------------------------------------------------

  lemma {:induction false} WantsFrom(services: seq<Service>, plans: seq<ServicePlan>, w: Want)
    ensures w in Wants(services, plans) <==>
      exists a, x :: a in plans && x in a.replicas && x.dpu == w.dpu && ScopeOf(services, a.service) == Some(w.scope)
  {
    hide ScopeOf;
    if plans != [] {
      WantsFrom(services, plans[1..], w);
      var scope := ScopeOf(services, plans[0].service);
      if scope.Some? {
        var mine := WantsOf(scope.value, plans[0].replicas);
        if w in mine {
          var i :| 0 <= i < |mine| && mine[i] == w;
          assert plans[0].replicas[i] in plans[0].replicas;
        }
        forall x | x in plans[0].replicas && x.dpu == w.dpu && scope.value == w.scope ensures w in mine {
          var i :| 0 <= i < |plans[0].replicas| && plans[0].replicas[i] == x;
          assert mine[i] == w;
        }
      }
      assert forall a :: a in plans <==> a == plans[0] || a in plans[1..];
    }
  }

  /** Every planned replica sits on a device of the request. */
  ghost predicate PlacedOn(plans: seq<ServicePlan>, devices: seq<Id>) {
    forall a, x :: a in plans && x in a.replicas ==> x.dpu in devices
  }

  lemma SoundPlaced(r: Request, order: seq<Id>, plans: seq<ServicePlan>)
    requires SoundServices(r, order, plans)
    ensures PlacedOn(plans, DpuIds(r.dpus))
  {
    forall a, x | a in plans && x in a.replicas ensures x.dpu in DpuIds(r.dpus) {
      assert ServicePlanOk(r, a);
      assert OnAdmissible(r, FindService(r.services, a.service).value, x);
      var d :| d in r.dpus && x.dpu == d.id;
      var i :| 0 <= i < |r.dpus| && r.dpus[i] == d;
      assert DpuIds(r.dpus)[i] == x.dpu;
    }
  }

  /** A want and the replica it comes from. */
  lemma WantSource(services: seq<Service>, plans: seq<ServicePlan>, w: Want) returns (a: ServicePlan, x: Replica)
    requires w in Wants(services, plans)
    ensures a in plans && x in a.replicas && x.dpu == w.dpu && ScopeOf(services, a.service) == Some(w.scope)
  {
    WantsFrom(services, plans, w);
    a, x :| a in plans && x in a.replicas && x.dpu == w.dpu && ScopeOf(services, a.service) == Some(w.scope);
  }

  lemma WantPairAgrees(r: Request, plans: seq<ServicePlan>, v: Want, w: Want)
    requires SingleOwner(r, plans)
    requires v in Wants(r.services, plans) && w in Wants(r.services, plans) && v.dpu == w.dpu
    ensures v.scope == w.scope
  {
    hide ScopeOf, Wants;
    var a, x := WantSource(r.services, plans, v);
    var b, y := WantSource(r.services, plans, w);
    assert SameScope(x.dpu == y.dpu, ScopeOf(r.services, a.service), ScopeOf(r.services, b.service));
  }

  lemma WantGranted(r: Request, plans: seq<ServicePlan>, w: Want, g: Grant)
    requires SingleOwner(r, plans)
    requires w in Wants(r.services, plans) && g in r.grants && g.dpu == w.dpu
    ensures g.scope == w.scope
  {
    hide ScopeOf, Wants;
    var a, x := WantSource(r.services, plans, w);
    assert SameScope(g.dpu == x.dpu, ScopeOf(r.services, a.service), Some(g.scope));
  }

  lemma PlannedAgree(r: Request, plans: seq<ServicePlan>, devices: seq<Id>)
    requires SingleOwner(r, plans) && PlacedOn(plans, devices)
    requires forall d :: d in Holders(r.grants) ==> d in devices
    ensures WantsAgree(Wants(r.services, plans), r.grants) && OnDevices(r.grants, Wants(r.services, plans), devices)
  {
    hide ScopeOf, Wants, SingleOwner;
    var wants := Wants(r.services, plans);
    forall w | w in wants ensures w.dpu in devices { var a, x := WantSource(r.services, plans, w); }
    forall v, w | v in wants && w in wants && v.dpu == w.dpu ensures v.scope == w.scope { WantPairAgrees(r, plans, v, w); }
    forall w, g | w in wants && g in r.grants && g.dpu == w.dpu ensures g.scope == w.scope { WantGranted(r, plans, w, g); }
  }

  /** Grants cover devices of the current topology only. */
  ghost predicate GrantsPlaced(st: RuntimeState) {
    forall d :: d in Holders(st.grants) ==> d in DpuIds(st.topology.dpus)
  }

  /** The registry accepts every claim of a plan the planner made, unless a scope has
      no name, and then holds exactly the planned devices under their scopes. */
  lemma PlannedClaimsSucceed(st: RuntimeState, group: Group, intent: Intent, at: nat, cfg: Config)
    requires GrantsSorted(st.grants) && GrantsPlaced(st)
    requires Distinct(DpuIds(st.topology.dpus)) && "" !in DpuIds(st.topology.dpus)
    requires intent.kind != Withdraw && !intent.kind.Rollback? && PlanFor(st, group, intent, at, cfg).Ok?
    ensures var plan := PlanFor(st, group, intent, at, cfg).value;
      var wants := Wants(st.services, plan.services);
      var claimed := ClaimPlans(st.grants, plan.services, group.id, st, at, cfg.bounds.maxDpus);
      && (claimed.Ok? <==> forall w :: w in wants ==> w.scope != "")
      && (claimed.Ok? ==> Acquires(st.grants, wants, claimed.value))
  {
    var edges := BuildGraph(st.dependencies, cfg.bounds.maxDependencies).value;
    var r := RequestOf(st, edges, group, intent, at, cfg);
    PlannedBy(st, group, intent, at, cfg);
    BuiltGraph(st.dependencies, cfg.bounds.maxDependencies);
    hide *;
    HoldersDistinct(st.grants);
    RequestFields(st, edges, group, intent, at, cfg);
    FeasiblePlanSound(r);
    var plans := BuildPlan(r).plan.services;
    SoundPlaced(r, OrderFor(r).value, plans);
    ValidatedBounds(r);
    ClaimPlanned(st, r, plans, group.id, at, cfg.bounds.maxDpus);
  }

  lemma PlannedBy(st: RuntimeState, group: Group, intent: Intent, at: nat, cfg: Config)
    requires intent.kind != Withdraw && !intent.kind.Rollback? && PlanFor(st, group, intent, at, cfg).Ok?
    ensures BuildGraph(st.dependencies, cfg.bounds.maxDependencies).Ok?
    ensures var r := RequestOf(st, BuildGraph(st.dependencies, cfg.bounds.maxDependencies).value, group, intent, at, cfg);
      BuildPlan(r).Feasible? && PlanFor(st, group, intent, at, cfg) == Ok(BuildPlan(r).plan)
  {
    hide BuildPlan;
    hide BuildGraph;
  }

  lemma HoldersDistinct(grants: seq<Grant>)
    requires GrantsSorted(grants)
    ensures Distinct(Map(GrantDpu, grants))
  {
    StrictlySortedDistinct(Holders(grants));
  }

  lemma RequestFields(st: RuntimeState, edges: seq<Dependency>, group: Group, intent: Intent, at: nat, cfg: Config)
    ensures var r := RequestOf(st, edges, group, intent, at, cfg);
      && r.dpus == st.topology.dpus && r.edges == edges && r.services == st.services && r.grants == st.grants
      && r.group == group && r.bounds == cfg.bounds
  {
  }

  lemma ValidatedBounds(r: Request)
    requires BuildPlan(r).Feasible?
    ensures r.group.id != "" && |r.dpus| <= r.bounds.maxDpus
  {
    hide Placed;
    hide OrderFor;
    hide Rejected;
    hide Unsatisfied;
  }

  lemma ClaimPlanned(st: RuntimeState, r: Request, plans: seq<ServicePlan>, group: Id, at: nat, maxGrants: nat)
    requires GrantsSorted(st.grants) && GrantsPlaced(st) && "" !in DpuIds(st.topology.dpus)
    requires r.services == st.services && r.grants == st.grants
    requires SingleOwner(r, plans) && PlacedOn(plans, DpuIds(st.topology.dpus))
    requires group != "" && |st.topology.dpus| <= maxGrants
    ensures var wants := Wants(st.services, plans);
      var claimed := ClaimPlans(st.grants, plans, group, st, at, maxGrants);
      && (claimed.Ok? <==> forall w :: w in wants ==> w.scope != "")
      && (claimed.Ok? ==> Acquires(st.grants, wants, claimed.value))
  {
    var devices := DpuIds(st.topology.dpus);
    assert |devices| == |st.topology.dpus|;
    PlannedAgree(r, plans, devices);
    ClaimPlansIs(st.grants, plans, group, st, at, maxGrants);
    hide *;
    ClaimAllExact(st.grants, Wants(st.services, plans), group, st, at, maxGrants, devices);
  }
}
