/** The planner as it works: loops over entries, devices and candidates that update the
    running totals, each proved to compute the plan a request determines. */
module PlannerRun {
  import opened Base
  import opened Order
  import opened Model
  import opened Eligibility
  import opened DependencyGraph
  import opened Planner
  import opened PlannerSound

  // ---------------------------------------------------------------------
  // Validation loops.
  // ---------------------------------------------------------------------

  lemma RepeatsSnoc(ids: seq<Id>, id: Id)
    ensures Repeats(ids + [id]) <==> Repeats(ids) || id in ids
  {
    var all := ids + [id];
    if Repeats(ids) {
      var i, j :| 0 <= i < j < |ids| && ids[i] == ids[j];
      assert all[i] == all[j];
    }
    if id in ids {
      var i :| 0 <= i < |ids| && ids[i] == id;
      assert all[i] == all[|ids|];
    }
    if Repeats(all) {
      var i, j :| 0 <= i < j < |all| && all[i] == all[j];
      if j == |ids| { assert ids[i] == id; } else { assert ids[i] == ids[j]; }
    }
  }

  /** An entry is refused on its own. */
  predicate AnyBad(r: Request, entries: seq<ReplicaIntent>) { exists e :: e in entries && !EntryOk(r, e) }

  lemma DesiredAt(entries: seq<ReplicaIntent>, k: nat)
    requires k < |entries| && !Repeats(Map(EntryService, entries))
    ensures Desired(entries, entries[k].service) == entries[k].desired
  {
    var ids := Map(EntryService, entries);
    assert ids[k] == entries[k].service;
    var m := IndexOf(ids, ids[k]);
    assert m < |ids| && ids[m] == ids[k];
    assert forall i, j :: 0 <= i < j < |ids| ==> ids[i] != ids[j];
    assert m == k;
  }

  /** The entry loop: refuses bad or repeated entries and records the wanted counts. */
  method CheckEntries(r: Request) returns (rejected: bool, desired: map<Id, nat>)
    ensures rejected <==> Rejected(r)
    ensures !rejected ==> forall s :: s in IntentServices(r) ==> s in desired && desired[s] == Desired(r.intent.services, s)
  {
    hide EntryOk;
    var entries := r.intent.services;
    ghost var ids := IntentServices(r);
    rejected, desired := false, map[];
    var i := 0;
    while i < |entries|
      invariant 0 <= i <= |entries|
      invariant rejected <==> AnyBad(r, entries[..i]) || Repeats(ids[..i])
      invariant !rejected ==> forall s :: s in desired <==> s in ids[..i]
      invariant !rejected ==> forall k :: 0 <= k < i ==> ids[k] in desired && desired[ids[k]] == entries[k].desired
    {
      var e := entries[i];
      assert entries[..i + 1] == entries[..i] + [e] && ids[..i + 1] == ids[..i] + [e.service];
      RepeatsSnoc(ids[..i], e.service);
      hide Repeats;
      AnyBadSnoc(r, entries[..i], e);
      hide AnyBad;
      if !EntryOk(r, e) || e.service in desired {
        rejected := true;
      } else {
        desired := desired[e.service := e.desired];
      }
      i := i + 1;
    }
    assert entries[..|entries|] == entries && ids[..|ids|] == ids;
    if !rejected {
      forall s | s in ids ensures s in desired && desired[s] == Desired(entries, s) {
        var k :| 0 <= k < |ids| && ids[k] == s;
        DesiredAt(entries, k);
      }
    }
  }

  lemma AnyBadSnoc(r: Request, entries: seq<ReplicaIntent>, e: ReplicaIntent)
    ensures AnyBad(r, entries + [e]) <==> AnyBad(r, entries) || !EntryOk(r, e)
  {
    hide EntryOk;
    assert e in entries + [e];
  }

  /** Every requirement of the first `i` services is part of the intent. */
  predicate Closed(r: Request, i: nat)
    requires i <= |r.intent.services|
  {
    forall k :: 0 <= k < i ==> AllIn(Needs(r.edges, IntentServices(r)[k]), IntentServices(r))
  }

  predicate AllIn(needs: seq<Id>, ids: seq<Id>) { forall n :: n in needs ==> n in ids }

  /** The nested requirement loop. */
  method CheckClosure(r: Request) returns (rejected: bool)
    ensures rejected <==> Unsatisfied(r)
  {
    hide Needs;
    var ids := IntentServices(r);
    rejected := false;
    var i := 0;
    while i < |ids|
      invariant 0 <= i <= |ids| && (rejected <==> !Closed(r, i))
    {
      var needs := Needs(r.edges, ids[i]);
      var missing := false;
      var j := 0;
      while j < |needs|
        invariant 0 <= j <= |needs| && (missing <==> !AllIn(needs[..j], ids))
      {
        assert needs[..j + 1] == needs[..j] + [needs[j]];
        if needs[j] !in ids { missing := true; }
        j := j + 1;
      }
      assert needs[..|needs|] == needs;
      if missing { rejected := true; }
      i := i + 1;
    }
    ClosedMeans(r);
  }

  lemma ClosedMeans(r: Request)
    ensures Closed(r, |r.intent.services|) <==> !Unsatisfied(r)
  {
    hide Needs;
    var ids := IntentServices(r);
    if Closed(r, |r.intent.services|) {
      forall s | s in ids ensures AllIn(Needs(r.edges, s), ids) {
        var k :| 0 <= k < |ids| && ids[k] == s;
      }
    } else {
      var k :| 0 <= k < |ids| && !AllIn(Needs(r.edges, ids[k]), ids);
      assert ids[k] in ids;
    }
  }

  /** The order of the intent's services, by the graph's worklist. */
  method SortServices(r: Request) returns (order: Option<seq<Id>>)
    requires WellBuilt(r.edges)
    ensures order == OrderFor(r)
  {
    var graph := new Graph();
    graph.edges := r.edges;
    var sorted, _ := graph.TopologicalOrder(IntentServices(r));
    hide Acyclic, Canonical, Induced, RunsIntoItself;
    return if sorted.Ok? then Some(sorted.value) else None;
  }

  /** All checks before placement, in order. */
  method Validate(r: Request) returns (code: Reason, desired: map<Id, nat>, order: seq<Id>)
    requires WellBuilt(r.edges)
    ensures code == Validation(r)
    ensures code == Nominal ==>
      && OrderFor(r) == Some(order)
      && forall s :: s in IntentServices(r) ==> s in desired && desired[s] == Desired(r.intent.services, s)
  {
    hide Rejected, Unsatisfied, OrderFor;
    desired, order := map[], [];
    if r.intent.id == "" || r.intent.group == "" || r.intent.generation == 0 { return MalformedInput, desired, order; }
    if r.intent.group != r.group.id { return GroupNotDeclared, desired, order; }
    if r.intent.services == [] { return MalformedInput, desired, order; }
    if |r.intent.services| > r.bounds.maxServices { return BoundExceeded, desired, order; }
    var staging := StagingStatus(r.intent.staging, r.policy.maxStageBatch);
    if staging != Nominal { return staging, desired, order; }
    var rejected, counts := CheckEntries(r);
    if rejected { return IntentNotAccepted, desired, order; }
    var sorted := SortServices(r);
    if sorted.None? { return DependencyCycle, desired, order; }
    var open_ := CheckClosure(r);
    if open_ { return DependencyUnsatisfied, desired, order; }
    if |r.dpus| > r.bounds.maxDpus { return BoundExceeded, desired, order; }
    return Nominal, counts, sorted.value;
  }

  // ---------------------------------------------------------------------
  // Placement loops.
  // ---------------------------------------------------------------------

  /** The planner's own view of exclusive ownership; the first grant of a device counts. */
  method CollectOwners(grants: seq<Grant>) returns (owner: map<Id, Id>)
    ensures owner == Owners(grants)
  {
    owner := map[];
    var i := 0;
    while i < |grants|
      invariant 0 <= i <= |grants| && owner == Owners(grants[..i])
    {
      assert grants[..i + 1][..i] == grants[..i];
      if grants[i].dpu !in owner { owner := owner[grants[i].dpu := grants[i].scope]; }
      i := i + 1;
    }
    assert grants[..|grants|] == grants;
  }

  method CollectCandidates(r: Request, s: Service, u: Usage, devices: seq<Dpu>) returns (cs: seq<Candidate>)
    ensures cs == Candidates(r, s, u, devices)
  {
    hide Selectable, Score;
    cs := [];
    var i := 0;
    while i < |devices|
      invariant 0 <= i <= |devices| && cs == Candidates(r, s, u, devices[..i])
    {
      assert devices[..i + 1][..i] == devices[..i];
      var d := devices[i];
      if Selectable(r, s, u, d) {
        cs := cs + [Candidate(d, Score(d, s, Count(u.onDpu, d.id), Count(u.inDomain, d.domain), r.weights))];
      }
      i := i + 1;
    }
    assert devices[..|devices|] == devices;
  }

  /** The candidate loop of one service. */
  method GreedyPlace(g: Group, p: Policy, s: Service, desired: nat, u: Usage, cs: seq<Candidate>)
    returns (replicas: seq<Replica>, usage: Usage)
    ensures var done := Place(g, p, s, desired, Placing([], u, map[]), cs);
      replicas == done.replicas && usage == done.usage
  {
    hide Place, Consider;
    replicas, usage := [], u;
    var domains: map<Id, nat> := map[];
    ghost var whole := Place(g, p, s, desired, Placing([], u, map[]), cs);
    var i := 0;
    assert cs[0..] == cs;
    while i < |cs|
      invariant 0 <= i <= |cs|
      invariant whole == Place(g, p, s, desired, Placing(replicas, usage, domains), cs[i..])
    {
      PlaceStep(g, p, s, desired, Placing(replicas, usage, domains), cs, i);
      if |replicas| >= desired { break; }
      replicas, usage, domains := TryPlace(g, p, s, cs[i], replicas, usage, domains);
      i := i + 1;
    }
    PlaceEnd(g, p, s, desired, Placing(replicas, usage, domains), cs, i);
  }

  /** One candidate: skipped if a cap is reached or it no longer fits, otherwise placed,
      with every running total updated. */
  method TryPlace(g: Group, p: Policy, s: Service, c: Candidate, replicas: seq<Replica>, usage: Usage, domains: map<Id, nat>)
    returns (replicas': seq<Replica>, usage': Usage, domains': map<Id, nat>)
    ensures Placing(replicas', usage', domains') == Consider(g, p, s, Placing(replicas, usage, domains), c)
  {
    hide Covers, Subtract;
    var d := c.dpu;
    if Count(usage.onDpu, d.id) >= MaxPerDpu(g, p) { return replicas, usage, domains; }
    if g.antiAffinity.maxPerDomain.Some? && Count(usage.inDomain, d.domain) >= g.antiAffinity.maxPerDomain.value {
      return replicas, usage, domains;
    }
    if g.antiAffinity.distinctDomains && Count(domains, d.domain) > 0 { return replicas, usage, domains; }
    var free := if d.id in usage.remaining then usage.remaining[d.id] else HeadroomOrNone(d);
    if !Covers(free, s.resources) { return replicas, usage, domains; }
    replicas' := replicas + [Replica(|replicas|, d.id, d.attachment, d.domain, c.score)];
    domains' := domains[d.domain := Count(domains, d.domain) + 1];
    var remaining, owner := usage.remaining, usage.owner;
    var after := Subtract(free, s.resources);
    if after.Ok? { remaining := remaining[d.id := after.value]; }
    if s.scope.Some? { owner := owner[d.id := s.scope.value]; }
    usage' := Usage(usage.onDpu[d.id := Count(usage.onDpu, d.id) + 1],
                    usage.inDomain[d.domain := Count(usage.inDomain, d.domain) + 1], remaining, owner);
  }

  lemma PlaceStep(g: Group, p: Policy, s: Service, desired: nat, a: Placing, cs: seq<Candidate>, i: nat)
    requires i < |cs|
    ensures |a.replicas| < desired ==>
      Place(g, p, s, desired, a, cs[i..]) == Place(g, p, s, desired, Consider(g, p, s, a, cs[i]), cs[i + 1..])
  {
    hide Consider;
    assert cs[i..][0] == cs[i] && cs[i..][1..] == cs[i + 1..];
  }

  lemma PlaceEnd(g: Group, p: Policy, s: Service, desired: nat, a: Placing, cs: seq<Candidate>, i: nat)
    requires i <= |cs| && (i == |cs| || |a.replicas| >= desired)
    ensures Place(g, p, s, desired, a, cs[i..]) == a
  {
    hide Consider;
  }

  /** The service loop, in dependency order. */
  method PlaceAll(r: Request, order: seq<Id>, desired: map<Id, nat>) returns (plans: seq<ServicePlan>, failure: Reason)
    requires forall s :: s in order ==> s in desired && desired[s] == Desired(r.intent.services, s)
    ensures var done := PlaceServices(r, order, Progress(StartUsage(r), [], Nominal));
      plans == done.plans && failure == done.failure
  {
    hide PlaceService, FindService, Ranked, Place;
    var devices := Sort(r.dpus, DpuLess);
    var owner := CollectOwners(r.grants);
    var usage := Usage(map[], map[], map[], owner);
    plans, failure := [], Nominal;
    ghost var whole := PlaceServices(r, order, Progress(StartUsage(r), [], Nominal));
    var i := 0;
    assert order[0..] == order;
    while i < |order|
      invariant 0 <= i <= |order| && whole == PlaceServices(r, order[i..], Progress(usage, plans, failure))
    {
      assert order[i..][0] == order[i] && order[i..][1..] == order[i + 1..];
      var s := FindService(r.services, order[i]);
      if s.Some? {
        FoundService(r.services, order[i]);
        var collected := CollectCandidates(r, s.value, usage, devices);
        var cs := Sort(collected, CandidateLess);
        RankedIs(r, s.value, usage);
        var replicas, after := GreedyPlace(r.group, r.policy, s.value, desired[order[i]], usage, cs);
        PlaceServiceIs(r, s.value, Progress(usage, plans, failure));
        plans := plans + [ServicePlan(s.value.id, s.value.version, desired[order[i]], |replicas|, replicas)];
        if |replicas| < desired[order[i]] {
          failure := if cs == [] then NoEligibleDpu else InsufficientEligibleDpus;
        }
        usage := after;
      }
      i := i + 1;
    }
  }

  lemma RankedIs(r: Request, s: Service, u: Usage)
    ensures Ranked(r, s, u) == Sort(Candidates(r, s, u, Sort(r.dpus, DpuLess)), CandidateLess)
  {
    hide Sort, Candidates;
  }

  lemma PlaceServiceIs(r: Request, s: Service, p: Progress)
    ensures var desired := Desired(r.intent.services, s.id);
      var cs := Ranked(r, s, p.usage);
      var done := Place(r.group, r.policy, s, desired, Placing([], p.usage, map[]), cs);
      PlaceService(r, s, p) == Progress(
        done.usage, p.plans + [ServicePlan(s.id, s.version, desired, |done.replicas|, done.replicas)],
        if |done.replicas| < desired then (if cs == [] then NoEligibleDpu else InsufficientEligibleDpus) else p.failure)
  {
    hide Ranked, Place;
  }

  // ---------------------------------------------------------------------
  // Staging loops.
  // ---------------------------------------------------------------------

  method Rollout(r: Request, plans: seq<ServicePlan>) returns (ids: seq<Id>)
    ensures ids == RolloutOrder(r, plans)
  {
    hide InstanceName;
    ids := [];
    var i := 0;
    while i < |plans|
      invariant 0 <= i <= |plans| && ids == RolloutOrder(r, plans[..i])
    {
      var sp := plans[i];
      ghost var before := ids;
      var j := 0;
      while j < |sp.replicas|
        invariant 0 <= j <= |sp.replicas| && ids == before + ReplicaNames(r, sp.service, sp.replicas)[..j]
      {
        ids := ids + [InstanceName(r.hash, r.group.id, sp.service, sp.replicas[j].index)];
        j := j + 1;
      }
      ghost var names := ReplicaNames(r, sp.service, sp.replicas);
      assert names[..|names|] == names;
      assert plans[..i + 1][..i] == plans[..i];
      i := i + 1;
    }
    assert plans[..|plans|] == plans;
  }

  /** Batches of the rollout order, refused past the stage bound. */
  method MakeStages(ids: seq<Id>, batch: nat, maxUnavailable: nat, maxStages: nat) returns (stages: Option<seq<Stage>>)
    requires batch > 0
    ensures var all := Stages(ids, batch, maxUnavailable, 0);
      stages == if |all| > maxStages then None else Some(all)
  {
    hide Stages;
    var made: seq<Stage> := [];
    var offset := 0;
    ghost var all := Stages(ids, batch, maxUnavailable, 0);
    assert ids[0..] == ids;
    while offset < |ids|
      invariant 0 <= offset <= |ids| && |made| <= maxStages
      invariant all == made + Stages(ids[offset..], batch, maxUnavailable, |made|)
      decreases |ids| - offset
    {
      NextStage(ids, offset, batch, maxUnavailable, made);
      if |made| >= maxStages { return None; }
      var end := Min(offset + batch, |ids|);
      made := made + [Stage(|made|, ids[offset..end], maxUnavailable)];
      offset := end;
    }
    NoStage(batch, maxUnavailable, |made|);
    assert ids[offset..] == [] && made + [] == made;
    return Some(made);
  }

  lemma NoStage(batch: nat, maxUnavailable: nat, index: nat)
    requires batch > 0
    ensures Stages([], batch, maxUnavailable, index) == []
  {
  }

  /** The next batch joins those already made. */
  lemma NextStage(ids: seq<Id>, offset: nat, batch: nat, maxUnavailable: nat, made: seq<Stage>)
    requires batch > 0 && offset < |ids|
    ensures var end := Min(offset + batch, |ids|);
      made + Stages(ids[offset..], batch, maxUnavailable, |made|)
        == made + [Stage(|made|, ids[offset..end], maxUnavailable)] + Stages(ids[end..], batch, maxUnavailable, |made| + 1)
    ensures |made + Stages(ids[offset..], batch, maxUnavailable, |made|)| > |made|
  {
    var rest, end := ids[offset..], Min(offset + batch, |ids|);
    var k := Min(batch, |rest|);
    assert rest[..k] == ids[offset..end] && rest[k..] == ids[end..];
    assert Stages(rest, batch, maxUnavailable, |made|)
        == [Stage(|made|, rest[..k], maxUnavailable)] + Stages(rest[k..], batch, maxUnavailable, |made| + 1);
    hide Stages;
  }

  // ---------------------------------------------------------------------
  // The whole plan.
  // ---------------------------------------------------------------------

  /** `build_plan` */
  method BuildPlanByLoops(r: Request) returns (outcome: PlanOutcome)
    requires WellBuilt(r.edges)
    ensures outcome == BuildPlan(r)
    ensures outcome.Feasible? && Order.Distinct(DpuIds(r.dpus)) ==>
      OrderFor(r).Some? && SoundServices(r, OrderFor(r).value, outcome.plan.services) && SoundStages(r, outcome.plan)
  {
    hide Validation, PlaceServices, RolloutOrder, Stages, OrderFor, SoundServices, SoundStages;
    var code, desired, order := Validate(r);
    if code != Nominal { return Infeasible(code); }
    OrderWithin(r);
    ghost var done := Placed(r);
    var plans, failure := PlaceAll(r, order, desired);
    if failure != Nominal { return Infeasible(failure); }
    var ids := Rollout(r, plans);
    BatchPositive(r);
    var stages := MakeStages(ids, r.intent.staging.batchSize, r.intent.staging.maxUnavailable, r.bounds.maxStages);
    if stages.None? { return Infeasible(BoundExceeded); }
    outcome := Feasible(Plan(r.intent.generation, r.group.id, r.intent.kind, plans, stages.value,
                             r.topologyGeneration, 0, r.policy.generation, r.epoch, r.boot, r.now));
    if Order.Distinct(DpuIds(r.dpus)) { FeasiblePlanSound(r); }
  }

  lemma BatchPositive(r: Request)
    requires Validation(r) == Nominal
    ensures r.intent.staging.batchSize > 0
  {
    hide Rejected, Unsatisfied, OrderFor;
  }

  /** Every ordered service is one of the intent's. */
  lemma OrderWithin(r: Request)
    requires Validation(r) == Nominal && WellBuilt(r.edges)
    ensures OrderFor(r).Some? && forall s :: s in OrderFor(r).value ==> s in IntentServices(r)
  {
    hide Rejected, Unsatisfied;
    OrderForExact(r);
  }
}
