/** The Application reconciler. Between any two of its API calls the rest of the
    cluster moves, and any call may be the last one that takes effect. */
module StrategyMigration {
  import opened Wrappers
  import opened Provenance
  import opened ApplicationStatus
  import opened MigrationRun
  import opened MigrationSteps

  predicate Validates(spec: Spec) {
    spec.wellFormed && spec.tag != "" && (spec.strategy == Canary <==> spec.steps > 0)
  }

  predicate RevisionValid(revision: string) {
    (|revision| == 40 || |revision| == 64) && forall i :: 0 <= i < |revision| ==> IsHex(revision[i])
  }

  function Revision(app: App): string { if app.sourceRevision.Some? then app.sourceRevision.value else "" }

  lemma ValidIsAcceptable(app: App)
    ensures Acceptable(app) <==> Validates(app.spec) && (app.sourceRevision.Some? ==> RevisionValid(app.sourceRevision.value))
  {
    hide IsHex;
    forall c: char ensures IsHex(c) <==> c in "0123456789abcdef" {
      HexIs(c);
    }
  }

  /** Keep the last healthy version serving until the Rollout can take traffic. */
  function ShouldHoldServingDeployment(activeVersion: string, rollout: Option<Rollout>, canaryRouteReady: bool): bool {
    if activeVersion == "" then false
    else if rollout.None? || rollout.value.stableRS == "" then true
    else !canaryRouteReady && !RoutingActive(rollout.value)
  }

  /** What a reconcile of the children hands to the status builders. */
  datatype RuntimeState = RuntimeState(deployment: Option<Deployment>, route: Route, rollout: Option<Rollout>, migrating: bool)

  /** A state of one reconcile. */
  ghost predicate Observed(trace: seq<Snap>, round: nat, app: App, s: Snap) {
    s in trace && s.round == round && s.app == app
  }

  /** Some state of the reconcile had the drain outstanding. */
  ghost predicate UndrainedSeen(trace: seq<Snap>, round: nat, app: App, generation: int) {
    exists s :: Observed(trace, round, app, s) && (Undrained(s.world, Cutover, generation) || Undrained(s.world, Cleanup, generation))
  }

  /** An established Rollout takes over once the canary route is accepted, or goes on when it already has traffic routing. */
  ghost predicate TakesOver(atRollout: World, atRoute: World) { Established(atRollout) && (CanaryReady(atRoute) || Routed(atRollout)) }

  /** The decision to hold the serving version, from a Rollout and a route that were read. */
  ghost predicate HoldSeen(trace: seq<Snap>, round: nat, app: App, hold: bool) {
    exists first, second :: Observed(trace, round, app, first) && Observed(trace, round, app, second)
      && (hold <==> app.status.activeVersion != "" && !TakesOver(first.world, second.world))
  }

  /** While holding, the Deployment is at the active version and the Rollout in its
      bootstrap form; otherwise the Deployment is at the wanted version and the
      Rollout has its steps and traffic routing. */
  ghost predicate Anchored(trace: seq<Snap>, w: World, round: nat, app: App, d: Option<Deployment>) {
    exists hold :: HoldSeen(trace, round, app, hold) && RolledOut(w, app, hold) && w.service == Some(None) && Scaled(trace, round, app, hold)
                   && AtVersion(d, if hold then app.status.activeVersion else app.spec.tag)
                   && AtVersion(w.deployment, if hold then app.status.activeVersion else app.spec.tag)
  }

  /** A step of the reconcile that brought the Deployment to its desired form. */
  ghost predicate WroteDeployment(trace: seq<Snap>, i: nat, round: nat, app: App, tag: string, migration: Option<int>, replicas: int, manageReplicas: bool)
  {
    && 0 < i < |trace| && trace[i].round == round && trace[i].app == app
    && Deployed(trace[i - 1].world, trace[i].world, tag, migration, replicas, manageReplicas)
  }

  /** The replicas of the Deployment are set only while holding without a Rollout; a new Deployment has none unless holding. */
  ghost predicate Scaled(trace: seq<Snap>, round: nat, app: App, hold: bool) {
    exists i: nat, tag, migration, replicas, manage :: WroteDeployment(trace, i, round, app, tag, migration, replicas, manage)
      && tag == (if hold then app.status.activeVersion else app.spec.tag) && migration == None
      && replicas == (if hold then app.spec.minReplicas else 0) && (manage <==> hold && trace[i].world.rollout.None?)
  }

  /** While a Rollout is there, a rolling reconcile isolates the Deployment; it always sets the replicas. */
  ghost predicate Isolated(trace: seq<Snap>, round: nat, app: App) {
    exists i: nat, tag, migration, replicas, manage :: WroteDeployment(trace, i, round, app, tag, migration, replicas, manage)
      && tag == app.spec.tag && replicas == app.spec.minReplicas && manage
      && migration == if trace[i].world.rollout.Some? then Some(app.generation) else None
  }

  /** Some step of the reconcile brought the route to its desired form. */
  ghost predicate WroteRoute(trace: seq<Snap>, round: nat, app: App, canary: bool) {
    exists i: nat :: 0 < i < |trace| && trace[i].round == round && trace[i].app == app && RoutedTo(trace[i - 1].world, trace[i].world, canary)
  }

  /** The Rollout and its Services, as the decision asks for them. */
  ghost predicate RolledOut(w: World, app: App, hold: bool) {
    && w.stable && w.canary && w.rollout.Some? && (w.rollout.value.trafficRouting <==> !hold) && (w.rollout.value.pinned <==> hold)
    && w.rollout.value.steps == if hold then 0 else app.spec.steps
  }

  /** What a canary reconcile of the children has done and found. */
  ghost predicate CanaryState(trace: seq<Snap>, w: World, round: nat, app: App, state: RuntimeState, atRoute: Snap, atRollout: Snap) {
    && Observed(trace, round, app, atRoute) && atRoute.world.route == Some(state.route)
    && Observed(trace, round, app, atRollout) && atRollout.world.rollout == state.rollout && RolloutDrift(state.rollout, w.rollout)
    && (state.migrating <==> !UsesCanary(state.route) || (app.status.activeVersion != "" && !RouteReady(state.route)))
    && (if UsesCanary(state.route) then WroteRoute(trace, round, app, true) else !Settled(atRollout.world, app.spec.minReplicas))
    && Anchored(trace, w, round, app, state.deployment)
  }

  /** What a rolling reconcile of the children has done and found. */
  ghost predicate RollingState(trace: seq<Snap>, w: World, round: nat, app: App, state: RuntimeState, atDeployment: Snap, atRoute: Snap) {
    && Observed(trace, round, app, atDeployment) && atDeployment.world.deployment == state.deployment
    && state.deployment.Some? && state.deployment.value.tag == app.spec.tag && state.deployment.value.replicas == app.spec.minReplicas
    && Observed(trace, round, app, atRoute) && atRoute.world.route == Some(state.route)
    && (!state.migrating ==> UsesBase(state.route) && w.rollout.None?)
    && (WroteRoute(trace, round, app, false) || (!DeploymentReady(state.deployment.value, app.spec.minReplicas) && w.rollout.Some?))
    && (w.rollout.Some? ==> w.rollout.value.pinned && state.deployment.value.migration == Some(app.generation) && w.service == Some(Some(app.generation)))
    && Isolated(trace, round, app) && w.service.Some?
    && (w.service.value.Some? ==> w.service.value == Some(app.generation) == state.deployment.value.migration)
    && (state.migrating ==>
          !DeploymentReady(state.deployment.value, app.spec.minReplicas) || !RouteReady(state.route)
          || UndrainedSeen(trace, round, app, state.route.generation))
    && (state.migrating && RouteReady(state.route) ==> exists s :: Observed(trace, round, app, s) && s.world.rollout == state.rollout)
  }

  // ---------------------------------------------------------------- how a reconcile ends

  datatype Verdict = Failed | Refused | Blocked | Denied | Reported

  /** A well-formed specification, with canary steps exactly for the canary strategy, and a full commit hash if any. */
  ghost predicate Acceptable(app: App) {
    && app.spec.wellFormed && |app.spec.tag| > 0 && (app.spec.strategy == Rolling <==> app.spec.steps == 0)
    && (app.sourceRevision.Some? ==>
          |app.sourceRevision.value| in {40, 64} && forall c <- app.sourceRevision.value :: c in "0123456789abcdef")
  }

  ghost predicate RefusalSeen(trace: seq<Snap>, round: nat, app: App) {
    || !Acceptable(app)
    || exists s :: Observed(trace, round, app, s) && !s.world.checks.tenancy
  }

  ghost predicate BlockSeen(trace: seq<Snap>, round: nat, app: App) {
    app.spec.databaseRef && exists s :: Observed(trace, round, app, s) && !s.world.checks.databaseReady
  }

  ghost predicate DenialSeen(trace: seq<Snap>, round: nat, app: App) {
    exists s :: Observed(trace, round, app, s) && !s.world.checks.admitted
  }

  /** The outcome for the Pods of one listing. */
  ghost predicate DigestSeen(trace: seq<Snap>, round: nat, app: App, digest: Resolution) {
    exists s :: Observed(trace, round, app, s) && Resolves(PodSet(s.world.pods), app.spec.repository + ":" + app.spec.tag, digest)
  }

  ghost predicate RollingReport(app: App, state: RuntimeState, digest: Resolution, s: Status) {
    && Reads(s, DatabaseReady, True)
    && if state.migrating then MigratingFor(app, state.deployment, state.route, state.rollout, s)
       else exists revision :: ReleasedFrom(app, revision) && RollingFor(app, state.deployment, state.route, digest, revision, s)
  }

  ghost predicate CanaryReport(app: App, state: RuntimeState, digest: Resolution, s: Status) {
    && Reads(s, DatabaseReady, True)
    && exists revision :: ReleasedFrom(app, revision)
                          && CanaryFor(app, state.deployment, state.route, state.migrating, state.rollout, digest, revision, s)
  }

  /** The children were reconciled, the Pods were listed, and the status says what was found. */
  ghost predicate RollingReported(trace: seq<Snap>, w: World, round: nat, app: App) {
    exists state, digest, atDeployment, atRoute :: RollingState(trace, w, round, app, state, atDeployment, atRoute)
      && DigestSeen(trace, round, app, digest) && (app.generation < w.app.generation || RollingReport(app, state, digest, w.app.status))
  }

  ghost predicate CanaryReported(trace: seq<Snap>, w: World, round: nat, app: App) {
    exists state, digest, atRoute, atRollout :: CanaryState(trace, w, round, app, state, atRoute, atRollout)
      && DigestSeen(trace, round, app, digest) && (app.generation < w.app.generation || CanaryReport(app, state, digest, w.app.status))
  }

  /** What each way of ending a reconcile says; a status is left out only when the specification moved on. */
  ghost predicate Concluded(trace: seq<Snap>, w: World, round: nat, app: App, end: Verdict) {
    match end
    case Failed => true
    case Refused => RefusalSeen(trace, round, app) && (app.generation < w.app.generation || DegradedFor(app, false, w.app.status))
    case Blocked => Acceptable(app) && BlockSeen(trace, round, app) && (app.generation < w.app.generation || BlockedFor(app, w.app.status))
    case Denied => Acceptable(app) && DenialSeen(trace, round, app) && (app.generation < w.app.generation || DegradedFor(app, true, w.app.status))
    case Reported => Acceptable(app) && if app.spec.strategy == Rolling then RollingReported(trace, w, round, app) else CanaryReported(trace, w, round, app)
  }

  /** Later calls do not unsettle what the children recorded. */
  lemma StatesLast(past: seq<Snap>, longer: seq<Snap>, w: World, v: World, round: nat, app: App, state: RuntimeState, one: Snap, two: Snap)
    requires past <= longer && Drift(w, v)
    ensures RollingState(past, w, round, app, state, one, two) ==> RollingState(longer, v, round, app, state, one, two)
    ensures CanaryState(past, w, round, app, state, one, two) ==> CanaryState(longer, v, round, app, state, one, two)
  {
    hide RouteReady, DeploymentReady, Settled, Undrained, RouteDrift, DeploymentDrift, AppDrift, Anchored, Isolated, Scaled, WroteRoute;
    FindingsLast(past, longer, round, app, state.route.generation);
    WrittenLasts(past, longer, round, app);
    assert forall s <- past :: s in longer;
    assert RolloutDrift(w.rollout, v.rollout) && DeploymentDrift(w.deployment, v.deployment);
    if Anchored(past, w, round, app, state.deployment) {
      AnchorLasts(past, longer, w, v, round, app, state.deployment);
    }
  }

  lemma FindingsLast(past: seq<Snap>, longer: seq<Snap>, round: nat, app: App, generation: int)
    requires past <= longer
    ensures UndrainedSeen(past, round, app, generation) ==> UndrainedSeen(longer, round, app, generation)
    ensures forall hold :: HoldSeen(past, round, app, hold) ==> HoldSeen(longer, round, app, hold)
  {
    hide Undrained, TakesOver;
    assert forall s <- past :: s in longer;
    assert forall s :: Observed(past, round, app, s) ==> Observed(longer, round, app, s);
  }

  lemma WrittenLasts(past: seq<Snap>, longer: seq<Snap>, round: nat, app: App)
    requires past <= longer
    ensures Isolated(past, round, app) ==> Isolated(longer, round, app)
    ensures forall hold :: Scaled(past, round, app, hold) ==> Scaled(longer, round, app, hold)
    ensures forall canary :: WroteRoute(past, round, app, canary) ==> WroteRoute(longer, round, app, canary)
  {
    hide Deployed, RoutedTo;
    forall i: nat, tag, migration, replicas, manage | WroteDeployment(past, i, round, app, tag, migration, replicas, manage)
      ensures WroteDeployment(longer, i, round, app, tag, migration, replicas, manage)
    {
      assert longer[i] == past[i] && longer[i - 1] == past[i - 1];
    }
    forall canary | WroteRoute(past, round, app, canary) ensures WroteRoute(longer, round, app, canary) {
      var i: nat :| 0 < i < |past| && past[i].round == round && past[i].app == app && RoutedTo(past[i - 1].world, past[i].world, canary);
      assert longer[i] == past[i] && longer[i - 1] == past[i - 1];
    }
  }

  /** What the reconcile anchored stays so while others only do what is theirs. */
  lemma AnchorLasts(past: seq<Snap>, longer: seq<Snap>, w: World, v: World, round: nat, app: App, d: Option<Deployment>)
    requires past <= longer && RolloutDrift(w.rollout, v.rollout) && DeploymentDrift(w.deployment, v.deployment) && v.stable == w.stable && v.canary == w.canary
    requires v.service == w.service
    requires Anchored(past, w, round, app, d)
    ensures Anchored(longer, v, round, app, d)
  {
    hide HoldSeen, Scaled, Isolated;
    FindingsLast(past, longer, round, app, 0);
    WrittenLasts(past, longer, round, app);
  }

  class ApplicationController {
    var world: World
    ghost var trace: seq<Snap>
    ghost var round: nat
    var app: App  // as the current reconcile read it
    ghost var faults: nat  // API calls that failed, or after which the reconcile stopped
    ghost var writes: set<nat>  // the steps of the run that are writes of this controller

    ghost predicate Valid()
      reads `world, `trace, `round, `app, `writes
    {
      && trace != [] && Run(trace) && trace[|trace| - 1] == Snap(world, round, app) && MarksHonest(trace, world.route) && Attributed(trace, writes)
      && app.generation <= world.app.generation && (app.generation == world.app.generation ==> app.spec == world.app.spec)
    }

    lemma ValidMeans()
      requires Valid()
      ensures Run(trace) && trace != [] && trace[|trace| - 1] == Snap(world, round, app) && Attributed(trace, writes)
    {
      hide Run, Attributed, MarksHonest;
    }

    /** Inside a reconcile, before its status is written. */
    ghost predicate InRound()
      reads `world, `trace, `round, `app, `writes
    {
      Valid() && world.app.status == app.status
    }

    /** What a reconcile does not undo: the run only grows, and time only passes. */
    twostate predicate Grows()
      reads this
    {
      old(trace) <= trace && old(world.now) <= world.now && round == old(round) && app == old(app)
    }

    constructor (start: World)
      requires Sound(start) && MarksHonest([Snap(start, 0, start.app)], start.route)
      ensures Valid() && world == start && trace == [Snap(start, 0, start.app)]
    {
      world := start;
      trace := [Snap(start, 0, start.app)];
      round := 0;
      app := start.app;
      writes := {};
    }

    /** A write of the controller. */
    method Commit(next: World)
      requires Valid() && Safe(trace, Snap(next, round, app)) && MarksHonest(trace + [Snap(next, round, app)], next.route)
      requires AppDrift(world.app.(status := next.app.status), next.app) && CanaryWeight(next.route) <= CanaryWeight(world.route)
      modifies this`world, this`trace, this`writes
      ensures Valid() && Grows() && world == next && trace == old(trace) + [Snap(next, round, app)]
    {
      hide Run, Attributed, Safe, MarksHonest;
      RunGrows(trace, Snap(next, round, app));
      MonotoneStep(trace, Snap(next, round, app));
      WriteIsAttributed(trace, writes, Snap(next, round, app));
      world := next;
      writes := writes + {|trace|};
      trace := trace + [Snap(next, round, app)];
    }

    /** Everyone else's changes since the previous API call. */
    method Interfere()
      requires Valid()
      modifies this`world, this`trace
      ensures Valid() && Grows() && Drift(old(world), world)
      ensures trace == old(trace) + [Snap(world, round, app)] && Snap(world, round, app) in trace
      ensures old(InRound()) ==> InRound()
    {
      hide Run, Attributed, Safe, MarksHonest, Sound, RouteDrift, DeploymentDrift, RolloutDrift, Drift;
      DriftRefl(world);
      var next :| Drift(world, next);
      LastIsSound(trace);
      DriftIsSafe(trace, Snap(next, round, app));
      DriftKeepsMarks(trace, trace + [Snap(next, round, app)], world, next);
      RunGrows(trace, Snap(next, round, app));
      MonotoneStep(trace, Snap(next, round, app));
      DriftIsAttributed(trace, writes, Snap(next, round, app));
      world := next;
      trace := trace + [Snap(next, round, app)];
      assert trace[|trace| - 1] == Snap(world, round, app);
    }

    /** An API call on an object outside the model, or a read of one. */
    method OtherCall() returns (ok: bool)
      requires InRound()
      modifies this`world, this`trace, this`faults, this`writes
      ensures InRound() && Grows() && Drift(old(world), world) && Snap(world, round, app) in trace && faults == old(faults) + if ok then 0 else 1
    {
      hide Valid;
      Interfere();
      ok := Outcome(true);
    }

    method ReadRollout() returns (ok: bool, rollout: Option<Rollout>)
      requires InRound()
      modifies this`world, this`trace, this`faults, this`writes
      ensures InRound() && Grows() && Drift(old(world), world) && Snap(world, round, app) in trace && rollout == world.rollout
      ensures faults == old(faults) + if ok then 0 else 1
    {
      hide Valid;
      Interfere();
      rollout := world.rollout;
      ok := Outcome(true);
    }

    method ReadRoute() returns (ok: bool, route: Option<Route>)
      requires InRound()
      modifies this`world, this`trace, this`faults, this`writes
      ensures InRound() && Grows() && Drift(old(world), world) && Snap(world, round, app) in trace && route == world.route
      ensures faults == old(faults) + if ok then 0 else 1
    {
      hide Valid;
      Interfere();
      route := world.route;
      ok := Outcome(true);
    }

    /** `ok` implies that the write took effect; a failed call may have, too. */
    method Outcome(applied: bool) returns (ok: bool)
      modifies this`faults
      ensures (ok ==> applied) && faults == old(faults) + if ok then 0 else 1
    {
      ok := *;
      ok := ok && applied;
      if !ok {
        faults := faults + 1;
      }
    }

    method UpsertDeployment(tag: string, migration: Option<int>, replicas: int, manageReplicas: bool) returns (ok: bool, deployment: Option<Deployment>)
      requires InRound() && MayDeploy(trace, world, round, app.spec, tag)
      modifies this`world, this`trace, this`faults, this`writes
      ensures InRound() && Grows() && KeepsRelease(old(world), world) && Snap(world, round, app) in trace
      ensures deployment == world.deployment && faults == old(faults) + if ok then 0 else 1
      ensures |trace| > |old(trace)| && Drift(old(world), trace[|old(trace)|].world)
      ensures world == trace[|old(trace)|].world || Deployed(trace[|old(trace)|].world, world, tag, migration, replicas, manageReplicas)
      ensures ok ==> Deployed(trace[|old(trace)|].world, world, tag, migration, replicas, manageReplicas)
      ensures ok ==> WroteDeployment(trace, |trace| - 1, round, app, tag, migration, replicas, manageReplicas) && trace[|trace| - 1].world == world
    {
      hide Run, Attributed, Safe, MarksHonest, Sound, DeploymentAfter, MayDeploy, RouteDrift, RolloutDrift;
      Interfere();
      PermissionsLast(old(trace), trace, old(world), world, round, app.spec, tag, true);
      var applied, touched: bool := *, *;
      if applied {
        var next := world.(deployment := Some(DeploymentAfter(world.deployment, tag, migration, replicas, manageReplicas, touched)));
        DeploymentStep(trace, Snap(next, round, app), tag);
        MarksStayHonest(trace, trace + [Snap(next, round, app)], world.route, world.route);
        Commit(next);
        assert trace[|trace| - 1] == Snap(world, round, app);
      }
      ok := Outcome(applied);
      deployment := world.deployment;
    }

    method UpsertService(migration: Option<int>) returns (ok: bool)
      requires InRound()
      modifies this`world, this`trace, this`faults, this`writes
      ensures InRound() && Grows() && KeepsRelease(old(world), world) && faults == old(faults) + if ok then 0 else 1
      ensures ok ==> world.service == Some(migration)
      ensures Drift(old(world).(service := world.service), world) && (world.service == old(world).service || world.service == Some(migration))
    {
      hide Run, Attributed, Safe, MarksHonest, Sound, RouteDrift, RolloutDrift, DeploymentDrift;
      Interfere();
      var applied: bool := *;
      if applied {
        var next := world.(service := Some(migration));
        LastIsSound(trace);
        ServiceWriteIsSafe(trace, Snap(next, round, app));
        MarksStayHonest(trace, trace + [Snap(next, round, app)], world.route, world.route);
        Commit(next);
      }
      ok := Outcome(applied);
    }

    method EnsureStableService() returns (ok: bool)
      requires InRound() && app.spec.strategy == Canary
      modifies this`world, this`trace, this`faults, this`writes
      ensures InRound() && Grows() && Drift(old(world).(stable := world.stable), world) && faults == old(faults) + if ok then 0 else 1
      ensures (ok ==> world.stable) && (old(world).stable ==> world.stable)
    {
      hide Run, Attributed, Safe, MarksHonest, Sound, RouteDrift, RolloutDrift, DeploymentDrift;
      Interfere();
      var applied: bool := *;
      if applied {
        var next := world.(stable := true);
        LastIsSound(trace);
        ServiceWriteIsSafe(trace, Snap(next, round, app));
        MarksStayHonest(trace, trace + [Snap(next, round, app)], world.route, world.route);
        Commit(next);
      }
      ok := Outcome(applied);
    }

    method EnsureCanaryService() returns (ok: bool)
      requires InRound() && app.spec.strategy == Canary
      modifies this`world, this`trace, this`faults, this`writes
      ensures InRound() && Grows() && Drift(old(world).(canary := world.canary), world) && faults == old(faults) + if ok then 0 else 1
      ensures (ok ==> world.canary) && (old(world).canary ==> world.canary)
    {
      hide Run, Attributed, Safe, MarksHonest, Sound, RouteDrift, RolloutDrift, DeploymentDrift;
      Interfere();
      var applied: bool := *;
      if applied {
        var next := world.(canary := true);
        LastIsSound(trace);
        ServiceWriteIsSafe(trace, Snap(next, round, app));
        MarksStayHonest(trace, trace + [Snap(next, round, app)], world.route, world.route);
        Commit(next);
      }
      ok := Outcome(applied);
    }

    method UpsertRollout(hold: bool) returns (ok: bool)
      requires InRound() && MayRoll(trace, world, round, hold) && Backed(world) && app.spec.strategy == Canary && app.spec.steps > 0
      modifies this`world, this`trace, this`faults, this`writes
      ensures InRound() && Grows() && Drift(old(world).(rollout := world.rollout), world) && Snap(world, round, app) in trace
      ensures |trace| > |old(trace)| && Drift(old(world), trace[|old(trace)|].world) && faults == old(faults) + if ok then 0 else 1
      ensures world == trace[|old(trace)|].world || Rolled(trace[|old(trace)|].world, world, app.spec, hold)
      ensures ok ==> Rolled(trace[|old(trace)|].world, world, app.spec, hold)
    {
      hide Run, Attributed, Safe, MarksHonest, Sound, RolloutAfter, MayRoll, RouteDrift, DeploymentDrift, CanaryWeight, Established;
      Interfere();
      PermissionsLast(old(trace), trace, old(world), world, round, app.spec, "", hold);
      assert Backed(world) by { BackedAfter(old(world), world); }
      var applied, touched: bool := *, *;
      if applied {
        var next := world.(rollout := Some(RolloutAfter(world.rollout, app.spec, hold, touched)));
        LastIsSound(trace);
        RolloutStep(trace, Snap(next, round, app), hold);
        MarksStayHonest(trace, trace + [Snap(next, round, app)], world.route, world.route);
        Commit(next);
        assert trace[|trace| - 1] == Snap(world, round, app);
      }
      ok := Outcome(applied);
    }

    /** Writing the route needs the Services it refers to. */
    method UpsertRoute(canary: bool) returns (ok: bool, route: Option<Route>)
      requires InRound() && app.spec.strategy == (if canary then Canary else Rolling)
      requires canary && world.route.Some? && UsesBase(world.route.value) ==> SettledSeen(trace, round)
      requires !canary && world.route.Some? && UsesCanary(world.route.value) ==> NoRolloutSeen(trace, round) || ServingSeen(trace, round)
      modifies this`world, this`trace, this`faults, this`writes
      ensures InRound() && Grows() && Drift(old(world).(route := world.route), world) && Snap(world, round, app) in trace
      ensures route == world.route && faults == old(faults) + if ok then 0 else 1
      ensures |trace| > |old(trace)| && Drift(old(world), trace[|old(trace)|].world)
      ensures world == trace[|old(trace)|].world || RoutedTo(trace[|old(trace)|].world, world, canary)
      ensures ok ==> RoutedTo(trace[|old(trace)|].world, world, canary) && route.Some? && (UsesCanary(route.value) <==> canary)
      ensures ok ==> WroteRoute(trace, round, app, canary)
    {
      hide Run, Attributed, Safe, MarksHonest, Sound, RouteAfter, Drift, SettledSeen, NoRolloutSeen, ServingSeen, WroteRoute, CanaryWeight;
      Interfere();
      SeenLasts(old(trace), trace, round);
      var applied, touched: bool := *, *;
      applied := applied && if canary then world.stable && world.canary else world.service.Some?;
      ghost var written := RouteAfter(world.route, canary, touched);
      RouteDrifts(old(world), world, written);
      if applied {
        var next := world.(route := Some(RouteAfter(world.route, canary, touched)));
        LastIsSound(trace);
        RouteStep(trace, Snap(next, round, app), canary, touched);
        RouteKeepsMarks(world.route, canary, touched);
        WritesRaiseNoWeight(world.route, canary, touched);
        MarksStayHonest(trace, trace + [Snap(next, round, app)], world.route, next.route);
        Commit(next);
        assert trace[|trace| - 1] == Snap(world, round, app);
        RouteWritten(canary);
      }
      ok := Outcome(applied);
      route := world.route;
    }

    lemma RouteWritten(canary: bool)
      requires |trace| > 1 && trace[|trace| - 1] == Snap(world, round, app) && RoutedTo(trace[|trace| - 2].world, world, canary)
      ensures WroteRoute(trace, round, app, canary)
    {
      hide RoutedTo;
    }

    /** Pause and pin the Rollout that is about to be replaced. */
    method FreezeRollout() returns (ok: bool)
      requires InRound()
      modifies this`world, this`trace, this`faults, this`writes
      ensures InRound() && Grows() && Drift(old(world).(rollout := world.rollout), world) && faults == old(faults) + if ok then 0 else 1
      ensures world.rollout.Some? <==> old(world).rollout.Some?
      ensures |trace| > |old(trace)| && Drift(old(world), trace[|old(trace)|].world)
      ensures world == trace[|old(trace)|].world || Paused(trace[|old(trace)|].world, world)
      ensures ok && world.rollout.Some? ==> Paused(trace[|old(trace)|].world, world)
    {
      hide Run, Attributed, Safe, MarksHonest, Sound, Frozen, RouteDrift, DeploymentDrift;
      Interfere();
      var applied: bool := *;
      if applied && world.rollout.Some? {
        var next := world.(rollout := Some(Frozen(world.rollout.value)));
        LastIsSound(trace);
        FreezeStep(trace, Snap(next, round, app));
        MarksStayHonest(trace, trace + [Snap(next, round, app)], world.route, world.route);
        Commit(next);
      }
      ok := Outcome(applied);
    }

    /** Whether a drain of the route read earlier has run out; starts it if it has not begun. */
    method WaitForRouteDrain(route: Route, drain: Drain) returns (ok: bool, drained: bool)
      requires InRound() && world.route.Some? && OnBase(world, route.generation)
      requires MarkOf(world.route.value, drain) == MarkOf(route, drain)
      requires drain.Cutover? ==> AcceptedBy(trace, route.generation, world.now)
      requires drain.Cleanup? ==> CleanedBy(trace, route.generation, world.now)
      modifies this`world, this`trace, this`faults, this`writes
      ensures InRound() && Grows() && Drift(old(world).(route := world.route), world)
      ensures OnBase(world, route.generation)
      ensures (drained ==> ok && Drift(old(world), world)) && faults == old(faults) + if ok then 0 else 1
      ensures drained && drain.Cutover? ==> AcceptedBy(trace, route.generation, world.now - CUTOVER_DELAY)
      ensures drained && drain.Cleanup? ==> CleanedBy(trace, route.generation, world.now - CLEANUP_DELAY)
      ensures ok && !drained ==> UndrainedSeen(trace, round, app, route.generation)
                                 && RouteDrainRemaining(world.route.value, drain, world.now).Some?
    {
      hide Valid, Run, Attributed, Safe, Sound, RolloutDrift, DeploymentDrift, AcceptedBy, CleanedBy, MarksHonest, UndrainedSeen;
      Interfere();
      FieldDrift(old(world), world);
      EvidenceLasts(old(trace), trace, route.generation, old(world).now, world.now);
      var remaining := RouteDrainRemaining(route, drain, world.now);
      if remaining.Some? {
        ok, drained := true, remaining.value <= 0;
        if drained {
          MarkHolds();
          DrainEvidence(trace, world.route.value, route, drain, world.now);
        } else {
          UndrainedNow(drain, route.generation);
        }
        return;
      }
      UndrainedNow(drain, route.generation);
      label Clock:
      drained := false;
      ok := MarkDrain(route.generation, drain);
      DriftOfRoute(old(world), old@Clock(world), world);
      FindingsLast(old@Clock(trace), trace, round, app, route.generation);
    }

    lemma MarkHolds()
      requires Valid()
      ensures MarksHonest(trace, world.route)
    {
      hide Run, Attributed, MarksHonest;
    }

    /** Tag the route with its generation and the time at which the drain began. */
    method MarkDrain(generation: int, drain: Drain) returns (ok: bool)
      requires InRound() && OnBase(world, generation)
      requires drain.Cutover? ==> AcceptedBy(trace, generation, world.now)
      requires drain.Cleanup? ==> CleanedBy(trace, generation, world.now)
      modifies this`world, this`trace, this`faults, this`writes
      ensures InRound() && Grows() && Drift(old(world).(route := world.route), world) && OnBase(world, generation)
      ensures ok ==> MarkOf(world.route.value, drain) == Some(Mark(generation, old(world).now))
      ensures faults == old(faults) + if ok then 0 else 1
    {
      hide Run, Attributed, Safe, Sound, RolloutDrift, DeploymentDrift, AcceptedBy, CleanedBy, MarksHonest;
      var now := world.now;
      Interfere();
      FieldDrift(old(world), world);
      EvidenceLasts(old(trace), trace, generation, now, now);
      var applied: bool := *;
      if applied {
        var next := world.(route := Some(WithMark(world.route.value, drain, Mark(generation, now))));
        LastIsSound(trace);
        RouteWriteIsSafe(trace, Snap(next, round, app));
        ghost var longer := trace + [Snap(next, round, app)];
        EvidenceLasts(trace, longer, generation, now, now);
        NewMarkIsHonest(trace, longer, world.route.value, drain, now);
        Commit(next);
      }
      ok := Outcome(applied);
    }

    lemma UndrainedNow(drain: Drain, generation: int)
      requires Snap(world, round, app) in trace && Undrained(world, drain, generation)
      ensures UndrainedSeen(trace, round, app, generation)
    {
    }

    /** Remove one progressive Service, unless it is gone. */
    method DeleteService(stable: bool, ghost generation: int) returns (ok: bool)
      requires InRound() && CutOver(trace, world, round, generation)
      modifies this`world, this`trace, this`faults, this`writes
      ensures InRound() && Grows() && Drift(if stable then old(world).(stable := world.stable) else old(world).(canary := world.canary), world)
      ensures CutOver(trace, world, round, generation) && faults == old(faults) + if ok then 0 else 1
      ensures ok ==> if stable then !world.stable else !world.canary
      ensures !old(world).stable ==> !world.stable
      ensures !old(world).canary ==> !world.canary
    {
      hide Run, Attributed, Safe, Sound, RolloutDrift, DeploymentDrift, RouteDrift, MarksHonest, CutOver;
      Interfere();
      CutOverLasts(old(trace), trace, old(world), world, round, generation);
      var applied: bool := *;
      if applied && if stable then world.stable else world.canary {
        var next := if stable then world.(stable := false) else world.(canary := false);
        LastIsSound(trace);
        ServiceRemovalIsSafe(trace, Snap(next, round, app), generation);
        MarksStayHonest(trace, trace + [Snap(next, round, app)], world.route, world.route);
        RouteDriftRefl(world.route);
        CutOverLasts(trace, trace + [Snap(next, round, app)], world, next, round, generation);
        Commit(next);
      }
      ok := Outcome(applied);
    }

    method DeleteRollout(ghost generation: int) returns (ok: bool)
      requires InRound() && CutOver(trace, world, round, generation) && !world.stable && !world.canary
      requires CleanedBy(trace, generation, world.now - CLEANUP_DELAY)
      modifies this`world, this`trace, this`faults, this`writes
      ensures InRound() && Grows() && Drift(old(world).(rollout := world.rollout), world)
      ensures (ok ==> world.rollout.None?) && faults == old(faults) + if ok then 0 else 1
      ensures RolloutDrift(old(world).rollout, world.rollout) || world.rollout.None?
    {
      hide Run, Attributed, Safe, Sound, DeploymentDrift, RouteDrift, MarksHonest, CutOver, CleanedBy;
      Interfere();
      CutOverLasts(old(trace), trace, old(world), world, round, generation);
      CleanedLasts(old(trace), trace, generation, old(world).now - CLEANUP_DELAY, world.now - CLEANUP_DELAY);
      var applied: bool := *;
      if applied && world.rollout.Some? {
        var next := world.(rollout := None);
        LastIsSound(trace);
        RolloutRemovalIsSafe(trace, Snap(next, round, app), generation);
        MarksStayHonest(trace, trace + [Snap(next, round, app)], world.route, world.route);
        Commit(next);
      }
      ok := Outcome(applied);
    }

    /** The specification was edited since the reconcile read it. */
    ghost predicate MovedOn()
      reads `world, `trace, `round, `app, `writes
    {
      app.generation < world.app.generation
    }

    /** Write the status, unless the specification has moved on; up to five tries on conflict. */
    method PatchStatus(desired: Status) returns (ok: bool)
      requires InRound() && Coherent(desired)
      requires desired.observedGeneration == app.generation && MayReport(trace, round, app, desired)
      requires desired.activeVersion != app.status.activeVersion ==> Established(world) || world.rollout.None?
      modifies this`world, this`trace, this`faults, this`writes
      ensures Valid() && Grows()
      ensures Drift(old(world).(app := old(world).app.(status := world.app.status)), world)
      ensures world.app.status == old(world).app.status || world.app.status == desired
      ensures (ok ==> world.app.status == desired || MovedOn()) && faults == old(faults) + if ok then 0 else 1
    {
      hide Valid, Drift, MayReport, Coherent, Established;
      DriftRefl(world);
      if app.status == desired {
        return true;
      }
      ok := false;
      var conflict, tries := true, 0;
      while conflict && tries < 5
        invariant conflict ==> InRound() && Drift(old(world), world) && MayReport(trace, round, app, desired) && faults == old(faults)
        invariant conflict && desired.activeVersion != app.status.activeVersion ==> Established(world) || world.rollout.None?
        invariant Valid() && Grows() && Drift(old(world).(app := old(world).app.(status := world.app.status)), world)
        invariant world.app.status == old(world).app.status || world.app.status == desired
        invariant !conflict ==> (ok ==> world.app.status == desired || MovedOn()) && faults == old(faults) + if ok then 0 else 1
      {
        label Try:
        conflict, ok := TryPatch(desired);
        TriedDrift(old(world), old@Try(world), world);
        tries := tries + 1;
      }
      if conflict {
        ok := Outcome(false);
      }
    }

    /** One look at the generation, and one patch. */
    method TryPatch(desired: Status) returns (conflict: bool, ok: bool)
      requires InRound() && Coherent(desired)
      requires desired.observedGeneration == app.generation && MayReport(trace, round, app, desired)
      requires desired.activeVersion != app.status.activeVersion ==> Established(world) || world.rollout.None?
      modifies this`world, this`trace, this`faults, this`writes
      ensures Valid() && Grows() && MayReport(trace, round, app, desired)
      ensures Drift(old(world).(app := old(world).app.(status := world.app.status)), world)
      ensures world.app.status == old(world).app.status || world.app.status == desired
      ensures conflict ==> InRound() && faults == old(faults)
      ensures conflict && desired.activeVersion != app.status.activeVersion ==> Established(world) || world.rollout.None?
      ensures !conflict ==> (ok ==> world.app.status == desired || MovedOn()) && faults == old(faults) + if ok then 0 else 1
    {
      hide Run, Attributed, Safe, Sound, DeploymentDrift, RouteDrift, MarksHonest, MayReport, Coherent;
      conflict, ok := false, true;
      Interfere();
      StatusFacts(old(trace), trace, old(world), world, round, app, desired);
      if world.app.generation != desired.observedGeneration || world.app.status == desired {
        return;
      }
      ghost var read := world;
      label Read:
      Interfere();
      DriftTrans(old(world), read, world);
      StatusFacts(old@Read(trace), trace, read, world, round, app, desired);
      conflict := *;
      if conflict {
        return;
      }
      var applied: bool := *;
      if applied {
        ghost var past := trace;
        var next := world.(app := world.app.(status := desired));
        LastIsSound(trace);
        ReportIsSafe(trace, Snap(next, round, app));
        MarksStayHonest(trace, trace + [Snap(next, round, app)], world.route, world.route);
        Commit(next);
        ReportLasts(past, trace, round, app, desired);
      }
      ok := Outcome(applied);
    }

    // -------------------------------------------------------------- the children

    /** `at` is the state in which the Deployment was read back. */
    method ReconcileSharedChildren(tag: string, replicas: int, manageReplicas: bool, isolate: bool)
      returns (ok: bool, deployment: Option<Deployment>, ghost at: Snap)
      requires InRound() && MayDeploy(trace, world, round, app.spec, tag)
      modifies this`world, this`trace, this`faults, this`writes
      ensures InRound() && Grows() && KeepsRelease(old(world), world)
      ensures ok ==> deployment.Some? && deployment.value.tag == tag && Observed(trace, round, app, at) && at.world.deployment == deployment
      ensures ok && isolate ==> deployment.value.migration == Some(app.generation)
      ensures ok && manageReplicas ==> deployment.value.replicas == replicas
      ensures ok ==> exists i: nat :: WroteDeployment(trace, i, round, app, tag, if isolate then Some(app.generation) else None, replicas, manageReplicas)
                                      && (trace[i].world.rollout.Some? <==> old(world).rollout.Some?)
      ensures ok ==> AtVersion(world.deployment, tag)
      ensures (ok ==> world.service == Some(if isolate then Some(app.generation) else None)) && faults == old(faults) + if ok then 0 else 1
    {
      hide Valid, MayDeploy, KeepsRelease, Drift;
      at, deployment := Snap(world, round, app), None;
      ok := OtherCall();
      DriftKeepsRelease(old(world), world);
      if !ok {
        return;
      }
      PermitDeployment(old(trace), trace, old(world), world, tag);
      label Deploy:
      var migration := if isolate then Some(app.generation) else None;
      ok, deployment := UpsertDeployment(tag, migration, replicas, manageReplicas);
      KeepsReleaseTrans(old(world), old@Deploy(world), world);
      at := Snap(world, round, app);
      if !ok {
        return;
      }
      ghost var wrote := |trace| - 1;
      RolloutStays(old(world), world);
      label Serve:
      ok := UpsertService(migration);
      WritesLast(old@Serve(trace), trace, wrote, round, app, tag, migration, replicas, manageReplicas);
      KeepsReleaseTrans(old(world), old@Serve(world), world);
      VersionLasts(old@Serve(world).(service := world.service), world, tag);
    }

    lemma RolloutStays(w: World, v: World)
      requires KeepsRelease(w, v)
      ensures w.rollout.Some? <==> v.rollout.Some?
    {
    }

    lemma WritesLast(past: seq<Snap>, longer: seq<Snap>, i: nat, round: nat, app: App, tag: string, migration: Option<int>, replicas: int, manage: bool)
      requires past <= longer && WroteDeployment(past, i, round, app, tag, migration, replicas, manage)
      ensures WroteDeployment(longer, i, round, app, tag, migration, replicas, manage) && longer[i] == past[i]
    {
      hide Deployed;
      assert longer[i] == past[i] && longer[i - 1] == past[i - 1];
    }

    lemma VersionDrifts(a: Option<Deployment>, b: Option<Deployment>, version: string)
      requires DeploymentDrift(a, b) && AtVersion(a, version)
      ensures AtVersion(b, version)
    {
    }

    lemma VersionLasts(w: World, v: World, version: string)
      requires Drift(w, v) && AtVersion(w.deployment, version)
      ensures AtVersion(v.deployment, version)
    {
      hide RouteDrift, RolloutDrift, AppDrift;
    }

    lemma PermitDeployment(past: seq<Snap>, longer: seq<Snap>, w: World, v: World, tag: string)
      requires past <= longer && Drift(w, v) && MayDeploy(past, w, round, app.spec, tag)
      ensures MayDeploy(longer, v, round, app.spec, tag)
    {
      hide MayDeploy;
      PermissionsLast(past, longer, w, v, round, app.spec, tag, true);
    }

    /** Services first, then the analysis template, then the Rollout. */
    method ReconcileProgressiveResources(hold: bool) returns (ok: bool)
      requires InRound() && MayRoll(trace, world, round, hold) && Backed(world) && app.spec.strategy == Canary && app.spec.steps > 0
      modifies this`world, this`trace, this`faults, this`writes
      ensures InRound() && Grows() && RouteDrift(old(world).route, world.route) && faults == old(faults) + if ok then 0 else 1
      ensures DeploymentDrift(old(world).deployment, world.deployment) && world.service == old(world).service
      ensures ok ==> RolledOut(world, app, hold)
    {
      hide Valid, MayRoll, RouteDrift, RolloutDrift, AppDrift, DeploymentDrift;
      ok := EnsureStableService();
      if !ok {
        return;
      }
      label Stable:
      ok := EnsureCanaryService();
      RouteDriftTrans(old(world).route, old@Stable(world).route, world.route);
      DeploymentDriftTrans(old(world).deployment, old@Stable(world).deployment, world.deployment);
      if !ok {
        return;
      }
      label Canary:
      ok := OtherCall();
      RouteDriftTrans(old(world).route, old@Canary(world).route, world.route);
      DeploymentDriftTrans(old(world).deployment, old@Canary(world).deployment, world.deployment);
      if !ok {
        return;
      }
      label Analysis:
      PermitRollout(old(trace), old@Stable(trace), old(world), old@Stable(world), hold);
      PermitRollout(old@Stable(trace), old@Canary(trace), old@Stable(world), old@Canary(world), hold);
      PermitRollout(old@Canary(trace), old@Analysis(trace), old@Canary(world), old@Analysis(world), hold);
      BackedAfter(old(world).(stable := old@Stable(world).stable), old@Stable(world));
      BackedAfter(old@Stable(world).(canary := old@Canary(world).canary), old@Canary(world));
      BackedAfter(old@Canary(world), world);
      ok := UpsertRollout(hold);
      RouteDriftTrans(old(world).route, old@Analysis(world).route, world.route);
      DeploymentDriftTrans(old(world).deployment, old@Analysis(world).deployment, world.deployment);
    }

    lemma PermitRollout(past: seq<Snap>, longer: seq<Snap>, w: World, v: World, hold: bool)
      requires past <= longer && w.app.status == v.app.status && RolloutDrift(w.rollout, v.rollout) && MayRoll(past, w, round, hold)
      ensures MayRoll(longer, v, round, hold)
    {
      hide MayRoll;
      PermissionsLast(past, longer, w, v, round, app.spec, "", hold);
    }

    method ReconcileCanaryChildren() returns (ok: bool, state: Option<RuntimeState>, ghost atRoute: Snap, ghost atRollout: Snap)
      requires InRound() && app.spec.strategy == Canary && Acceptable(app)
      modifies this`world, this`trace, this`faults, this`writes
      ensures InRound() && Grows()
      ensures (ok ==> state.Some? && CanaryState(trace, world, round, app, state.value, atRoute, atRollout)) && faults == old(faults) + if ok then 0 else 1
    {
      hide Valid, RouteReady, IsHealthy, RouteDrift, MayDeploy, MayRoll, DeploymentDrift, AppDrift, RoutingActive, Sound, CanaryState, HoldSeen, Anchored;
      state, atRoute, atRollout := None, Snap(world, round, app), Snap(world, round, app);
      var rollout, route: Option<Route>;
      ok, rollout := ReadRollout();
      if !ok {
        return;
      }
      ghost var first := Snap(world, round, app);
      ok, route := ReadRoute();
      if !ok {
        return;
      }
      ghost var second := Snap(world, round, app);
      var canaryRouteReady := false;
      if route.Some? && UsesCanary(route.value) {
        var ready, rejected := RouteState(route.value);
        canaryRouteReady := ready && !rejected;
      }
      var hold := ShouldHoldServingDeployment(app.status.activeVersion, rollout, canaryRouteReady);
      HoldNow(first, second, hold);
      Permitted(first, second, rollout, route, hold);
      label Read:
      var deployment;
      ok, deployment := ReconcileAnchoredChildren(hold, rollout.None?);
      if !ok {
        return;
      }
      ok, state, atRoute, atRollout := ReconcileCanaryRoute(deployment, route, old@Read(world).route);
    }

    /** The Deployment at the version that serves, then the Services and the Rollout. */
    method ReconcileAnchoredChildren(hold: bool, first: bool) returns (ok: bool, deployment: Option<Deployment>)
      requires InRound() && app.spec.strategy == Canary && Acceptable(app) && HoldSeen(trace, round, app, hold)
      requires MayRoll(trace, world, round, hold) && MayDeploy(trace, world, round, app.spec, if hold then app.status.activeVersion else app.spec.tag)
      requires first <==> world.rollout.None?
      modifies this`world, this`trace, this`faults, this`writes
      ensures InRound() && Grows() && RouteDrift(old(world).route, world.route) && faults == old(faults) + if ok then 0 else 1
      ensures ok ==> Anchored(trace, world, round, app, deployment)
    {
      hide Valid, RouteReady, RouteDrift, KeepsRelease, MayDeploy, MayRoll, Sound, HoldSeen, RolledOut, Anchored, Deployed, Scaled;
      ghost var at;
      ok, deployment, at := ReconcileSharedChildren(if hold then app.status.activeVersion else app.spec.tag,
                                                    if hold then app.spec.minReplicas else 0, hold && first, false);
      KeepsReleaseMeans(old(world), world);
      if !ok {
        return;
      }
      ghost var i: nat :| WroteDeployment(trace, i, round, app, if hold then app.status.activeVersion else app.spec.tag, if false then Some(app.generation) else None,
                                          if hold then app.spec.minReplicas else 0, hold && first)
                          && (trace[i].world.rollout.Some? <==> old(world).rollout.Some?);
      ScaledNow(i, hold, first);
      PermitRollout(old(trace), trace, old(world), world, hold);
      BackedNow(hold);
      label Shared:
      ok := ReconcileProgressiveResources(hold);
      RouteDriftTrans(old(world).route, old@Shared(world).route, world.route);
      if !ok {
        return;
      }
      FindingsLast(old(trace), trace, round, app, 0);
      WrittenLasts(old@Shared(trace), trace, round, app);
      VersionDrifts(old@Shared(world).deployment, world.deployment, if hold then app.status.activeVersion else app.spec.tag);
      AnchoredNow(deployment, hold);
    }

    lemma BackedNow(hold: bool)
      requires InRound() && MayRoll(trace, world, round, hold) && (hold ==> AtVersion(world.deployment, app.status.activeVersion))
      ensures Backed(world)
    {
      hide Valid, EstablishedSeen, CanaryReadySeen;
    }

    lemma HoldNow(first: Snap, second: Snap, hold: bool)
      requires Observed(trace, round, app, first) && Observed(trace, round, app, second)
      requires hold == ShouldHoldServingDeployment(app.status.activeVersion, first.world.rollout, CanaryReady(second.world))
      ensures (hold <==> app.status.activeVersion != "" && !TakesOver(first.world, second.world)) && HoldSeen(trace, round, app, hold)
    {
      hide RouteReady;
    }

    lemma ScaledNow(i: nat, hold: bool, first: bool)
      requires WroteDeployment(trace, i, round, app, if hold then app.status.activeVersion else app.spec.tag, None,
                               if hold then app.spec.minReplicas else 0, hold && first)
      requires i < |trace| && (first <==> trace[i].world.rollout.None?)
      ensures Scaled(trace, round, app, hold)
    {
      hide WroteDeployment;
    }

    lemma AnchoredNow(d: Option<Deployment>, hold: bool)
      requires HoldSeen(trace, round, app, hold) && RolledOut(world, app, hold) && world.service == Some(None) && Scaled(trace, round, app, hold)
      requires AtVersion(d, if hold then app.status.activeVersion else app.spec.tag)
      requires AtVersion(world.deployment, if hold then app.status.activeVersion else app.spec.tag)
      ensures Anchored(trace, world, round, app, d)
    {
      hide HoldSeen, RolledOut, Scaled;
    }

    /** The cutover to the canary route, once a healthy Rollout backs it. */
    method ReconcileCanaryRoute(deployment: Option<Deployment>, currentRoute: Option<Route>, ghost earlier: Option<Route>)
      returns (ok: bool, state: Option<RuntimeState>, ghost atRoute: Snap, ghost atRollout: Snap)
      requires InRound() && earlier == currentRoute && RouteDrift(earlier, world.route)
      requires app.spec.strategy == Canary
      requires currentRoute.Some? ==> exists s :: Observed(trace, round, app, s) && s.world.route == currentRoute
      requires Anchored(trace, world, round, app, deployment)
      modifies this`world, this`trace, this`faults, this`writes
      ensures InRound() && Grows()
      ensures (ok ==> state.Some? && CanaryState(trace, world, round, app, state.value, atRoute, atRollout)) && faults == old(faults) + if ok then 0 else 1
    {
      hide Valid, RouteReady, Settled, DeploymentDrift, AppDrift, Sound, RolloutDrift, RouteDrift, Anchored, CanaryState, WroteRoute, Established;
      state, atRoute, atRollout := None, Snap(world, round, app), Snap(world, round, app);
      var rollout, route;
      ok, rollout := ReadRollout();
      if !ok {
        return;
      }
      RouteDriftTrans(earlier, old(world).route, world.route);
      atRollout := Snap(world, round, app);
      label Read:
      AnchorLasts(old(trace), trace, old(world), world, round, app, deployment);
      ok, route, atRoute := SwitchToCanary(rollout, currentRoute, earlier);
      AnchorLasts(old@Read(trace), trace, old@Read(world), world, round, app, deployment);
      if !ok {
        return;
      }
      var migrating := StillMigrating(route.value);
      label Routed:
      ok := OtherCall();  // the analysis runs
      RolloutDriftTrans(rollout, old@Routed(world).rollout, world.rollout);
      AnchorLasts(old@Routed(trace), trace, old@Routed(world), world, round, app, deployment);
      WrittenLasts(old@Routed(trace), trace, round, app);
      CanaryStateNow(RuntimeState(deployment, route.value, rollout, migrating), atRoute, atRollout);
      state := Some(RuntimeState(deployment, route.value, rollout, migrating));
    }

    method StillMigrating(route: Route) returns (migrating: bool)
      ensures migrating <==> !UsesCanary(route) || (app.status.activeVersion != "" && !RouteReady(route))
    {
      hide RouteReady, RouteRejected;
      migrating := !UsesCanary(route);
      if app.status.activeVersion != "" {
        var ready, rejected := RouteState(route);
        migrating := migrating || !ready || rejected;
      }
    }

    /** The route is written unless it serves the base Service and the Rollout is not healthy yet. */
    method SwitchToCanary(rollout: Option<Rollout>, currentRoute: Option<Route>, ghost earlier: Option<Route>)
      returns (ok: bool, route: Option<Route>, ghost atRoute: Snap)
      requires InRound() && Snap(world, round, app) in trace && world.rollout == rollout
      requires earlier == currentRoute && RouteDrift(earlier, world.route) && app.spec.strategy == Canary
      requires currentRoute.Some? ==> exists s :: Observed(trace, round, app, s) && s.world.route == currentRoute
      modifies this`world, this`trace, this`faults, this`writes
      ensures InRound() && Grows() && RolloutDrift(rollout, world.rollout) && faults == old(faults) + if ok then 0 else 1
      ensures DeploymentDrift(old(world).deployment, world.deployment) && world.stable == old(world).stable && world.canary == old(world).canary
      ensures world.service == old(world).service
      ensures ok ==> route.Some? && Observed(trace, round, app, atRoute) && atRoute.world.route == route
      ensures ok && !UsesCanary(route.value) ==> route == currentRoute && !Settled(old(world), app.spec.minReplicas)
      ensures ok && UsesCanary(route.value) ==> WroteRoute(trace, round, app, true)
    {
      hide Valid, RouteReady, DeploymentDrift, AppDrift, Sound, RolloutDrift, RoutedTo;
      ok, route, atRoute := true, currentRoute, Snap(world, round, app);
      RolloutDriftRefl(world.rollout);
      DeploymentDriftRefl(world.deployment);
      Witness(trace, atRoute);
      if currentRoute.None? || UsesCanary(currentRoute.value) || (rollout.Some? && IsHealthy(rollout.value, app.spec.minReplicas)) {
        ok, route := UpsertRoute(true);
        atRoute := Snap(world, round, app);
      } else {
        atRoute :| Observed(trace, round, app, atRoute) && atRoute.world.route == currentRoute;
      }
    }

    lemma CanaryStateNow(state: RuntimeState, atRoute: Snap, atRollout: Snap)
      requires Observed(trace, round, app, atRoute) && atRoute.world.route == Some(state.route)
      requires Observed(trace, round, app, atRollout) && atRollout.world.rollout == state.rollout && RolloutDrift(state.rollout, world.rollout)
      requires state.migrating <==> !UsesCanary(state.route) || (app.status.activeVersion != "" && !RouteReady(state.route))
      requires if UsesCanary(state.route) then WroteRoute(trace, round, app, true) else !Settled(atRollout.world, app.spec.minReplicas)
      requires Anchored(trace, world, round, app, state.deployment)
      ensures CanaryState(trace, world, round, app, state, atRoute, atRollout)
    {
      hide Anchored, RouteReady, Settled;
    }

    /** Holding or not, the reconcile has the evidence for what it writes. */
    lemma Permitted(first: Snap, second: Snap, rollout: Option<Rollout>, route: Option<Route>, hold: bool)
      requires InRound() && Observed(trace, round, app, first) && Observed(trace, round, app, second) && second == Snap(world, round, app)
      requires first.world.app.status == app.status
      requires first.world.rollout == rollout && second.world.route == route && RolloutDrift(rollout, world.rollout)
      requires hold <==> app.status.activeVersion != "" && !TakesOver(first.world, second.world)
      ensures MayRoll(trace, world, round, hold)
      ensures MayDeploy(trace, world, round, app.spec, if hold then app.status.activeVersion else app.spec.tag)
    {
      hide RouteReady, Run, MarksHonest, EstablishedSeen, CanaryReadySeen, Coherent;
      var i :| 0 <= i < |trace| && trace[i] == first;
      EveryStateIsSound(trace, i);
      Witness(trace, first);
      Witness(trace, second);
    }

    method ReconcileRollingChildren() returns (ok: bool, state: Option<RuntimeState>, ghost atDeployment: Snap, ghost atRoute: Snap)
      requires InRound() && app.spec.strategy == Rolling
      modifies this`world, this`trace, this`faults, this`writes
      ensures InRound() && Grows()
      ensures (ok ==> state.Some? && RollingState(trace, world, round, app, state.value, atDeployment, atRoute)) && faults == old(faults) + if ok then 0 else 1
    {
      hide Valid, RouteReady, IsHealthy, RouteDrift, MayDeploy, DeploymentDrift, AppDrift, Sound, RoutingActive, KeepsRelease, RollingState;
      state, atDeployment, atRoute := None, Snap(world, round, app), Snap(world, round, app);
      var rollout;
      ok, rollout := ReadRollout();
      if !ok {
        return;
      }
      ghost var first := Snap(world, round, app);
      if rollout.Some? {
        ok := FreezeRollout();
        if !ok {
          return;
        }
      }
      MayRollOut(trace, world, round, app.spec);
      label Frozen:
      var deployment;
      ok, deployment, atDeployment := ReconcileSharedChildren(app.spec.tag, app.spec.minReplicas, true, rollout.Some?);
      if !ok {
        return;
      }
      KeepsReleaseMeans(old@Frozen(world), world);
      label Shared:
      ok, state, atRoute := ReconcileRollingRoute(deployment, atDeployment, rollout, first);
    }

    /** Switch the route to the base Service once the Deployment can carry it. */
    method ReconcileRollingRoute(deployment: Option<Deployment>, ghost atDeployment: Snap, rollout: Option<Rollout>, ghost first: Snap)
      returns (ok: bool, state: Option<RuntimeState>, ghost atRoute: Snap)
      requires InRound() && app.spec.strategy == Rolling && Observed(trace, round, app, atDeployment) && atDeployment.world.deployment == deployment
      requires deployment.Some? && deployment.value.tag == app.spec.tag && deployment.value.replicas == app.spec.minReplicas
      requires Observed(trace, round, app, first) && first.world.rollout == rollout && (world.rollout.Some? <==> rollout.Some?)
      requires world.rollout.Some? ==> world.rollout.value.pinned && deployment.value.migration == Some(app.generation)
      requires Isolated(trace, round, app) && world.service == Some(if rollout.Some? then Some(app.generation) else None)
      modifies this`world, this`trace, this`faults, this`writes
      ensures InRound() && Grows()
      ensures (ok ==> state.Some? && RollingState(trace, world, round, app, state.value, atDeployment, atRoute)) && faults == old(faults) + if ok then 0 else 1
    {
      hide Valid, RouteReady, IsHealthy, DeploymentDrift, AppDrift, Sound, DeploymentReady, UndrainedSeen, RollingState, Isolated, Scaled;
      state := None;
      var deploymentReady, _ := DeploymentState(deployment, app.spec.minReplicas);
      var route;
      ok, route, atRoute := SwitchToBase(deploymentReady, rollout, atDeployment, first);
      if !ok {
        return;
      }
      Witness(trace, atDeployment);
      label Switched:
      var migrating, left := rollout.Some?, rollout;
      var routeReady, routeRejected := RouteState(route.value);
      if rollout.Some? && deploymentReady && UsesBase(route.value) && !routeReady {
        left := None;
      } else if rollout.Some? && deploymentReady && UsesBase(route.value) {
        WitnessBase(trace, atRoute, route.value.generation);
        var retired;
        ok, retired := RetireRollout(route.value);
        if !ok {
          return;
        }
        migrating, left := !retired, if retired then None else rollout;
      }
      assert world.rollout.Some? ==> world.rollout.value.pinned && rollout.Some?;
      WrittenLasts(old(trace), trace, round, app);
      assert migrating && RouteReady(route.value) ==> Observed(trace, round, app, first) && first.world.rollout == left;
      RollingStateNow(RuntimeState(deployment, route.value, left, migrating), atDeployment, atRoute);
      state := Some(RuntimeState(deployment, route.value, left, migrating));
    }

    /** While a Rollout still serves, the route waits for the Deployment. */
    method SwitchToBase(deploymentReady: bool, rollout: Option<Rollout>, ghost atDeployment: Snap, ghost first: Snap)
      returns (ok: bool, route: Option<Route>, ghost atRoute: Snap)
      requires InRound() && app.spec.strategy == Rolling
      requires Observed(trace, round, app, atDeployment) && Observed(trace, round, app, first) && first.world.rollout == rollout
      requires atDeployment.world.deployment.Some? && atDeployment.world.deployment.value.tag == app.spec.tag
      requires deploymentReady ==> DeploymentReady(atDeployment.world.deployment.value, app.spec.minReplicas)
      modifies this`world, this`trace, this`faults, this`writes
      ensures InRound() && Grows() && RolloutDrift(old(world).rollout, world.rollout) && faults == old(faults) + if ok then 0 else 1
      ensures world.service == old(world).service
      ensures ok ==> route.Some? && world.route == route && atRoute == Snap(world, round, app) && atRoute in trace
      ensures ok && UsesCanary(route.value) ==> rollout.Some? && !deploymentReady
      ensures ok ==> WroteRoute(trace, round, app, false) || (rollout.Some? && !deploymentReady)
    {
      hide Valid, RouteReady, DeploymentDrift, AppDrift, Sound, DeploymentReady, RoutedTo, RouteDrift;
      ok, route := ReadRoute();
      atRoute := Snap(world, round, app);
      if !ok {
        return;
      }
      label Read:
      Witness(trace, atDeployment);
      Witness(trace, first);
      if route.None? || rollout.None? || deploymentReady {
        ok, route := UpsertRoute(false);
        atRoute := Snap(world, round, app);
      }
    }

    lemma RollingStateNow(state: RuntimeState, atDeployment: Snap, atRoute: Snap)
      requires Observed(trace, round, app, atDeployment) && atDeployment.world.deployment == state.deployment
      requires state.deployment.Some? && state.deployment.value.tag == app.spec.tag && state.deployment.value.replicas == app.spec.minReplicas
      requires Observed(trace, round, app, atRoute) && atRoute.world.route == Some(state.route)
      requires !state.migrating ==> UsesBase(state.route) && world.rollout.None?
      requires world.rollout.Some? ==> world.rollout.value.pinned && state.deployment.value.migration == Some(app.generation)
      requires world.rollout.Some? ==> world.service == Some(Some(app.generation))
      requires Isolated(trace, round, app) && world.service.Some?
      requires WroteRoute(trace, round, app, false) || (!DeploymentReady(state.deployment.value, app.spec.minReplicas) && world.rollout.Some?)
      requires world.service.value.Some? ==> world.service.value == Some(app.generation) == state.deployment.value.migration
      requires state.migrating ==> !DeploymentReady(state.deployment.value, app.spec.minReplicas) || !RouteReady(state.route)
                                   || UndrainedSeen(trace, round, app, state.route.generation)
      requires state.migrating && RouteReady(state.route) ==> exists s :: Observed(trace, round, app, s) && s.world.rollout == state.rollout
      ensures RollingState(trace, world, round, app, state, atDeployment, atRoute)
    {
      hide UndrainedSeen, RouteReady, DeploymentReady, Isolated;
    }

    /** With both Services gone the cleanup drain may start. */
    lemma CleanedNow(generation: int)
      requires Valid() && CutOver(trace, world, round, generation) && !world.stable && !world.canary
      ensures CleanedBy(trace, generation, world.now)
    {
      hide Run, Attributed, MarksHonest, AcceptedBy, ServingSeen, BaseReadySeen;
      var k := |trace| - 1;
      assert trace[..k + 1] == trace;
      assert Cleaned(trace[k].world, generation);
    }

    /** Drain the accepted cutover, drop the progressive Services, drain again, drop the Rollout. */
    method RetireRollout(route: Route) returns (ok: bool, retired: bool)
      requires InRound() && world.route == Some(route) && UsesBase(route)
      requires ServingSeen(trace, round) && BaseReadySeen(trace, round, route.generation) && AcceptedBy(trace, route.generation, world.now)
      modifies this`world, this`trace, this`faults, this`writes
      ensures InRound() && Grows() && world.service == old(world).service
      ensures (retired ==> ok && world.rollout.None? && !world.stable && !world.canary) && faults == old(faults) + if ok then 0 else 1
      ensures ok && !retired ==> UndrainedSeen(trace, round, app, route.generation)
      ensures RolloutDrift(old(world).rollout, world.rollout) || world.rollout.None?
    {
      hide Valid, RouteReady, DeploymentDrift, AppDrift, Sound, CutOver, ServingSeen, BaseReadySeen, AcceptedBy, CleanedBy, UndrainedSeen;
      var drained;
      retired := false;
      ok, drained := WaitForRouteDrain(route, Cutover);
      if !ok || !drained {
        return;
      }
      CutOverNow(old(trace), trace, world, round, route.generation);
      ok := DeleteService(true, route.generation);
      if !ok {
        return;
      }
      ok := DeleteService(false, route.generation);
      if !ok {
        return;
      }
      CleanedNow(route.generation);
      label Gone:
      ok, drained := WaitForRouteDrain(route, Cleanup);
      if !ok || !drained {
        return;
      }
      CutOverLasts(old@Gone(trace), trace, old@Gone(world), world, round, route.generation);
      ok := DeleteRollout(route.generation);
      if !ok {
        return;
      }
      ok := OtherCall();  // the analysis template
      retired := ok;
    }

    // -------------------------------------------------------------- the reconcile

    /** Read the Application; everything that follows belongs to a new round. */
    method Begin()
      requires Valid()
      modifies this
      ensures InRound() && old(trace) <= trace && round == old(round) + 1 && faults == old(faults)
    {
      hide Run, Attributed, Safe, MarksHonest, Sound, Drift;
      Interfere();
      ghost var next := Snap(world, round + 1, world.app);
      LastIsSound(trace);
      DriftRefl(world);
      DriftIsSafe(trace, next);
      RunGrows(trace, next);
      DriftKeepsMarks(trace, trace + [next], world, world);
      DriftIsAttributed(trace, writes, next);
      trace := trace + [next];
      round := round + 1;
      app := world.app;
    }

    method Degrade(securityRejected: bool) returns (ok: bool)
      requires InRound()
      modifies this`world, this`trace, this`faults, this`writes
      ensures Valid() && Grows() && faults == old(faults) + if ok then 0 else 1
      ensures ok ==> DegradedFor(app, securityRejected, world.app.status) || MovedOn()
    {
      hide Valid, Coherent, Drift;
      var status := DegradedStatus(app, securityRejected);
      ok := PatchStatus(status);
    }

    method ReadPods() returns (ok: bool, pods: seq<Pod>)
      requires InRound()
      modifies this`world, this`trace, this`faults, this`writes
      ensures InRound() && Grows() && Drift(old(world), world) && Snap(world, round, app) in trace && pods == world.pods
      ensures faults == old(faults) + if ok then 0 else 1
    {
      hide Valid;
      Interfere();
      pods := world.pods;
      ok := Outcome(true);
    }

    /** The digest the Pods agree on, seen in this round. */
    method ResolveImageDigest() returns (ok: bool, digest: Resolution)
      requires InRound()
      modifies this`world, this`trace, this`faults, this`writes
      ensures InRound() && Grows() && Drift(old(world), world) && faults == old(faults) + if ok then 0 else 1
      ensures (ok ==> DigestSeen(trace, round, app, digest)) && (ok && digest.Resolved? ==> AgreedSeen(trace, round, digest.digest))
    {
      hide Valid, Drift, Agree, SomeMalformed, Disagree;
      var pods;
      digest := Pending;
      ok, pods := ReadPods();
      if !ok {
        return;
      }
      digest := ResolvePodImageDigest(pods, app.spec.repository + ":" + app.spec.tag);
      ghost var i :| 0 <= i < |trace| && trace[i] == Snap(world, round, app);
    }

    method ReportRolling(state: RuntimeState, digest: Resolution, ghost atDeployment: Snap, ghost atRoute: Snap) returns (ok: bool)
      requires InRound() && RollingState(trace, world, round, app, state, atDeployment, atRoute) && app.spec.strategy == Rolling && app.spec.tag != ""
      requires DigestSeen(trace, round, app, digest) && (digest.Resolved? ==> AgreedSeen(trace, round, digest.digest))
      modifies this`world, this`trace, this`faults, this`writes
      ensures Valid() && Grows() && faults == old(faults) + if ok then 0 else 1
      ensures ok ==> RollingReported(trace, world, round, app)
    {
      hide Valid, Coherent, Drift, AgreedSeen, ServingSeen, BaseSeen, RouteReady, RouteRejected, DeploymentReady, DeploymentFailed, SetCondition;
      hide DigestSeen, UndrainedSeen, RollingReported;
      var status;
      if state.migrating {
        status := StrategyMigrationStatus(app, state.deployment, state.route, state.rollout);
        MigratingCompletes(app, state.deployment, state.route, state.rollout, status);
      } else {
        var rejected;
        status, rejected := WorkloadStatus(app, state.deployment, state.route, digest, Revision(app));
        RollingCompletes(app, state.deployment, state.route, digest, Revision(app), status);
        Witness(trace, atDeployment);
        if RouteReady(state.route) {
          WitnessBase(trace, atRoute, state.route.generation);
        }
      }
      status := SetCondition(status, app.generation, DatabaseReady, True);
      assert RollingReport(app, state, digest, status);
      ok := PatchStatus(status);
      if ok {
        RollingNow(old(trace), old(world), state, digest, atDeployment, atRoute, status);
      }
    }

    lemma RollingNow(past: seq<Snap>, w: World, state: RuntimeState, digest: Resolution, atDeployment: Snap, atRoute: Snap, status: Status)
      requires past <= trace && RollingState(past, w, round, app, state, atDeployment, atRoute) && DigestSeen(past, round, app, digest)
      requires Drift(w.(app := w.app.(status := world.app.status)), world)
      requires RollingReport(app, state, digest, status) && (world.app.status == status || MovedOn())
      ensures RollingReported(trace, world, round, app)
    {
      hide RollingState, RollingReport;
      StatesLast(past, trace, w, world.(app := w.app), round, app, state, atDeployment, atRoute);
      DigestLasts(past, trace, round, app, digest);
      OnlyTheRollout(trace, world.(app := w.app), world, round, app, state, atDeployment, atRoute);
    }

    method ReportCanary(state: RuntimeState, digest: Resolution, ghost atRoute: Snap, ghost atRollout: Snap) returns (ok: bool)
      requires InRound() && CanaryState(trace, world, round, app, state, atRoute, atRollout) && app.spec.strategy == Canary && app.spec.tag != ""
      requires DigestSeen(trace, round, app, digest) && (digest.Resolved? ==> AgreedSeen(trace, round, digest.digest))
      modifies this`world, this`trace, this`faults, this`writes
      ensures Valid() && Grows() && faults == old(faults) + if ok then 0 else 1
      ensures ok ==> CanaryReported(trace, world, round, app)
    {
      hide Valid, Coherent, Drift, AgreedSeen, SettledSeen, CanaryReadySeen, RouteReady, RouteRejected, DeploymentReady, SetCondition, BackOnStable;
      hide DigestSeen, Anchored, CanaryReported;
      var status, _ := CanaryWorkloadStatus(app, state.deployment, state.route, state.migrating, state.rollout, digest, Revision(app));
      CanaryCompletes(app, state.deployment, state.route, state.migrating, state.rollout, digest, Revision(app), status);
      Witness(trace, atRoute);
      Witness(trace, atRollout);
      status := SetCondition(status, app.generation, DatabaseReady, True);
      assert CanaryReport(app, state, digest, status);
      ok := PatchStatus(status);
      if ok {
        CanaryNow(old(trace), old(world), state, digest, atRoute, atRollout, status);
      }
    }

    lemma CanaryNow(past: seq<Snap>, w: World, state: RuntimeState, digest: Resolution, atRoute: Snap, atRollout: Snap, status: Status)
      requires past <= trace && CanaryState(past, w, round, app, state, atRoute, atRollout) && DigestSeen(past, round, app, digest)
      requires Drift(w.(app := w.app.(status := world.app.status)), world)
      requires CanaryReport(app, state, digest, status) && (world.app.status == status || MovedOn())
      ensures CanaryReported(trace, world, round, app)
    {
      hide CanaryState, CanaryReport;
      StatesLast(past, trace, w, world.(app := w.app), round, app, state, atRoute, atRollout);
      DigestLasts(past, trace, round, app, digest);
      OnlyTheRollout(trace, world.(app := w.app), world, round, app, state, atRoute, atRollout);
    }

    /** One reconcile: unless a call fails, it reports on the specification it read. */
    method Reconcile() returns (end: Verdict)
      requires Valid()
      modifies this
      ensures Valid() && old(trace) <= trace && round == old(round) + 1 && Concluded(trace, world, round, app, end)
      ensures faults >= old(faults) && (end.Failed? <==> faults > old(faults))
    {
      hide Valid, Drift, Coherent, DegradedFor, BlockedFor, RollingReported, CanaryReported, Validates, RevisionValid;
      Begin();
      var ok := Outcome(true);
      if !ok {
        return Failed;
      }
      ValidIsAcceptable(app);
      if !Validates(app.spec) || (app.sourceRevision.Some? && !RevisionValid(app.sourceRevision.value)) {
        ok := Degrade(false);
        return if ok then Refused else Failed;
      }
      ok := OtherCall();  // the Namespace and the Team
      if !ok {
        return Failed;
      }
      if !world.checks.tenancy {
        SeenNow();
        label Tenancy:
        ok := Degrade(false);
        ChecksLast(old@Tenancy(trace), trace);
        return if ok then Refused else Failed;
      }
      if app.spec.databaseRef {
        ok := OtherCall();
        if !ok {
          return Failed;
        }
        if !world.checks.databaseReady {
          SeenNow();
          label Database:
          ok := BlockOnDatabase();
          ChecksLast(old@Database(trace), trace);
          return if ok then Blocked else Failed;
        }
      }
      if app.spec.strategy == Canary {
        end := ReconcileCanary();
      } else {
        end := ReconcileRolling();
      }
    }

    /** The state just read is one of this reconcile. */
    lemma SeenNow()
      requires Snap(world, round, app) in trace
      ensures !world.checks.tenancy ==> RefusalSeen(trace, round, app)
      ensures !world.checks.databaseReady && app.spec.databaseRef ==> BlockSeen(trace, round, app)
      ensures !world.checks.admitted ==> DenialSeen(trace, round, app)
    {
      assert Observed(trace, round, app, Snap(world, round, app));
    }

    lemma ChecksLast(past: seq<Snap>, longer: seq<Snap>)
      requires past <= longer
      ensures RefusalSeen(past, round, app) ==> RefusalSeen(longer, round, app)
      ensures BlockSeen(past, round, app) ==> BlockSeen(longer, round, app)
      ensures DenialSeen(past, round, app) ==> DenialSeen(longer, round, app)
    {
      hide Acceptable;
      assert forall s <- past :: s in longer;
      assert forall s :: Observed(past, round, app, s) ==> Observed(longer, round, app, s);
    }

    method BlockOnDatabase() returns (ok: bool)
      requires InRound()
      modifies this`world, this`trace, this`faults, this`writes
      ensures Valid() && Grows() && faults == old(faults) + if ok then 0 else 1
      ensures ok ==> BlockedFor(app, world.app.status) || MovedOn()
    {
      hide Valid, Coherent, Drift;
      var status := DatabaseBlockedStatus(app);
      ok := PatchStatus(status);
    }

    method ReconcileRolling() returns (end: Verdict)
      requires InRound() && app.spec.strategy == Rolling && Acceptable(app)
      modifies this`world, this`trace, this`faults, this`writes
      ensures Valid() && Grows() && Concluded(trace, world, round, app, end) && !end.Refused? && !end.Blocked?
      ensures faults >= old(faults) && (end.Failed? <==> faults > old(faults))
    {
      hide Valid, Coherent, Observed, RollingState, CanaryState, Drift, DegradedFor, RollingReported, CanaryReported, DenialSeen, DigestSeen, AgreedSeen;
      var state, digest, ok;
      ghost var atDeployment, atRoute;
      ok, state, atDeployment, atRoute := ReconcileRollingChildren();
      label Children:
      if ok {
        ok := OtherCall();  // monitoring objects and network policies
        StatesLast(old@Children(trace), trace, old@Children(world), world, round, app, state.value, atDeployment, atRoute);
      }
      if !ok {
        var denied: bool := *;
        var _ := Degrade(denied);
        return Failed;
      }
      label Monitored:
      ok := OtherCall();  // ReplicaSets that admission rejected
      StatesLast(old@Monitored(trace), trace, old@Monitored(world), world, round, app, state.value, atDeployment, atRoute);
      if !ok {
        return Failed;
      }
      label Admission:
      if !world.checks.admitted {
        SeenNow();
        ok := Degrade(true);
        ChecksLast(old@Admission(trace), trace);
        return if ok then Denied else Failed;
      }
      ok, digest := ResolveImageDigest();
      if !ok {
        var _ := Degrade(false);
        return Failed;
      }
      StatesLast(old@Admission(trace), trace, old@Admission(world), world, round, app, state.value, atDeployment, atRoute);
      ok := ReportRolling(state.value, digest, atDeployment, atRoute);
      end := if ok then Reported else Failed;
    }

    method ReconcileCanary() returns (end: Verdict)
      requires InRound() && app.spec.strategy == Canary && Acceptable(app)
      modifies this`world, this`trace, this`faults, this`writes
      ensures Valid() && Grows() && Concluded(trace, world, round, app, end) && !end.Refused? && !end.Blocked?
      ensures faults >= old(faults) && (end.Failed? <==> faults > old(faults))
    {
      hide Valid, Coherent, Observed, RollingState, CanaryState, Drift, DegradedFor, RollingReported, CanaryReported, DenialSeen, DigestSeen, AgreedSeen;
      var state, digest, ok;
      ghost var atRoute, atRollout;
      ok, state, atRoute, atRollout := ReconcileCanaryChildren();
      label Children:
      if ok {
        ok := OtherCall();  // monitoring objects and network policies
        StatesLast(old@Children(trace), trace, old@Children(world), world, round, app, state.value, atRoute, atRollout);
      }
      if !ok {
        var denied: bool := *;
        var _ := Degrade(denied);
        return Failed;
      }
      label Monitored:
      ok := OtherCall();  // ReplicaSets that admission rejected
      StatesLast(old@Monitored(trace), trace, old@Monitored(world), world, round, app, state.value, atRoute, atRollout);
      if !ok {
        return Failed;
      }
      label Admission:
      if !world.checks.admitted {
        SeenNow();
        ok := Degrade(true);
        ChecksLast(old@Admission(trace), trace);
        return if ok then Denied else Failed;
      }
      ok, digest := ResolveImageDigest();
      if !ok {
        var _ := Degrade(false);
        return Failed;
      }
      StatesLast(old@Admission(trace), trace, old@Admission(world), world, round, app, state.value, atRoute, atRollout);
      ok := ReportCanary(state.value, digest, atRoute, atRollout);
      end := if ok then Reported else Failed;
    }
  }

  lemma DigestLasts(past: seq<Snap>, longer: seq<Snap>, round: nat, app: App, digest: Resolution)
    requires past <= longer && DigestSeen(past, round, app, digest)
    ensures DigestSeen(longer, round, app, digest)
  {
    hide Resolves;
    var s :| Observed(past, round, app, s) && Resolves(PodSet(s.world.pods), app.spec.repository + ":" + app.spec.tag, digest);
    assert Observed(longer, round, app, s);
  }

  /** Of the cluster, the findings only concern the Rollout. */
  lemma OnlyTheRollout(trace: seq<Snap>, w: World, v: World, round: nat, app: App, state: RuntimeState, one: Snap, two: Snap)
    requires v.rollout == w.rollout && v.deployment == w.deployment && v.service == w.service && v.stable == w.stable && v.canary == w.canary
    ensures RollingState(trace, w, round, app, state, one, two) ==> RollingState(trace, v, round, app, state, one, two)
    ensures CanaryState(trace, w, round, app, state, one, two) ==> CanaryState(trace, v, round, app, state, one, two)
  {
    hide Observed, UndrainedSeen, HoldSeen, RouteReady, DeploymentReady, Settled, Scaled, Isolated;
  }

  /** A rolling reconcile that reports, and that finds the Deployment ready, the
      route accepted and both drains run out whenever it looks, has finished the migration. */
  lemma NothingLeftToWaitFor(trace: seq<Snap>, w: World, round: nat, app: App)
    requires RollingReported(trace, w, round, app)
    requires forall s :: Observed(trace, round, app, s) ==>
               && (s.world.deployment.Some? ==> DeploymentReady(s.world.deployment.value, app.spec.minReplicas))
               && (s.world.route.Some? ==> RouteReady(s.world.route.value)
                                           && !Undrained(s.world, Cutover, s.world.route.value.generation)
                                           && !Undrained(s.world, Cleanup, s.world.route.value.generation))
    ensures w.rollout.None?
  {
    hide RouteReady, DeploymentReady, RouteDrainRemaining, RollingReport, DigestSeen;
  }

  /** How a canary reconcile that reports has decided: the Rollout has its traffic routing and
      the Deployment is at the wanted version if and only if no version was active yet, or
      the Rollout was seen established and the canary route accepted, or routing was there before;
      otherwise the Deployment serves the active version. */
  lemma CanaryTakesOverExactly(trace: seq<Snap>, w: World, round: nat, app: App) returns (first: Snap, second: Snap)
    requires CanaryReported(trace, w, round, app) && Acceptable(app) && app.spec.strategy == Canary
    ensures Observed(trace, round, app, first) && Observed(trace, round, app, second) && w.rollout.Some? && w.stable && w.canary
    ensures Routed(w) <==> app.status.activeVersion == "" || (first.world.rollout.Some? && first.world.rollout.value.stableRS != ""
                                                             && (CanaryReady(second.world) || Routed(first.world)))
    ensures AtVersion(w.deployment, if Routed(w) then app.spec.tag else app.status.activeVersion)
    ensures w.rollout.value.steps == (if Routed(w) then app.spec.steps else 0) && (w.rollout.value.pinned <==> !Routed(w))
  {
    hide RouteReady, CanaryReport, DigestSeen;
    var state, digest, atRoute, atRollout :| CanaryState(trace, w, round, app, state, atRoute, atRollout) && DigestSeen(trace, round, app, digest);
    var hold :| HoldSeen(trace, round, app, hold) && RolledOut(w, app, hold)
                && AtVersion(w.deployment, if hold then app.status.activeVersion else app.spec.tag);
    first, second :| Observed(trace, round, app, first) && Observed(trace, round, app, second)
      && (hold <==> app.status.activeVersion != "" && !TakesOver(first.world, second.world));
  }

  /** A canary reconcile that reports, and that finds the Rollout established and the
      canary route accepted whenever it looks, gives the Rollout its steps and its
      traffic routing and moves the Deployment to the wanted version. */
  lemma NothingLeftToHold(trace: seq<Snap>, w: World, round: nat, app: App)
    requires CanaryReported(trace, w, round, app) && Acceptable(app) && app.spec.strategy == Canary
    requires forall s :: Observed(trace, round, app, s) ==>
               s.world.rollout.Some? && s.world.rollout.value.stableRS != "" && s.world.route.Some? && UsesCanary(s.world.route.value) && RouteReady(s.world.route.value)
    ensures Routed(w) && w.rollout.value.steps == app.spec.steps && AtVersion(w.deployment, app.spec.tag)
  {
    hide RouteReady, CanaryReported, Acceptable;
    var first, second := CanaryTakesOverExactly(trace, w, round, app);
  }

  lemma DeploymentStep(past: seq<Snap>, next: Snap, tag: string)
    requires past != [] && Run(past) && MayDeploy(past, past[|past| - 1].world, next.round, next.app.spec, tag)
    requires next.world == past[|past| - 1].world.(deployment := next.world.deployment)
    requires next.world.deployment.Some? && next.world.deployment.value.tag == tag
    ensures Safe(past, next)
  {
    hide Run, Sound, Safe, EstablishedSeen, CanaryReadySeen;
    LastIsSound(past);
    DeploymentWriteIsSafe(past, next);
  }

  lemma RolloutStep(past: seq<Snap>, next: Snap, hold: bool)
    requires past != [] && Sound(past[|past| - 1].world) && MayRoll(past, past[|past| - 1].world, next.round, hold)
    requires Backed(past[|past| - 1].world) && next.app.spec.strategy == Canary
    requires next.world == past[|past| - 1].world.(rollout := next.world.rollout) && next.world.rollout.Some?
    requires Routed(next.world) <==> !hold
    requires past[|past| - 1].world.rollout.Some? ==> next.world.rollout.value.stableRS == past[|past| - 1].world.rollout.value.stableRS
    ensures Safe(past, next)
  {
    hide Coherent, Safe, EstablishedSeen, CanaryReadySeen, RoutingActive;
    RolloutWriteIsSafe(past, next);
  }

  /** The others' changes around a write of the route. */
  lemma RouteDrifts(u: World, w: World, r: Route)
    requires Drift(u, w)
    ensures Drift(u.(route := Some(r)), w.(route := Some(r))) && Drift(u.(route := w.route), w) && w.app.status == u.app.status
    ensures u.route.Some? <==> w.route.Some?
    ensures u.route.Some? ==> (UsesBase(u.route.value) <==> UsesBase(w.route.value))
  {
    hide DeploymentDrift, RolloutDrift, AppDrift;
    AppDriftKeeps(u.app, w.app);
  }

  lemma AppDriftKeeps(a: App, b: App)
    ensures AppDrift(a, b) ==> b.status == a.status
  {
  }

  lemma RouteKeepsMarks(route: Option<Route>, canary: bool, touched: bool)
    ensures var r := RouteAfter(route, canary, touched);
            && (UsesCanary(r) <==> canary)
            && (route.Some? ==> r.generation >= route.value.generation && r.cutover == route.value.cutover && r.cleanup == route.value.cleanup)
            && (route.None? ==> r.cutover.None? && r.cleanup.None?)
  {
    hide RouteAfter;
  }

  lemma RouteStep(past: seq<Snap>, next: Snap, canary: bool, touched: bool)
    requires past != [] && Sound(past[|past| - 1].world) && next.app.spec.strategy == (if canary then Canary else Rolling)
    requires next.world == past[|past| - 1].world.(route := Some(RouteAfter(past[|past| - 1].world.route, canary, touched)))
    requires canary ==> next.world.stable && next.world.canary
    requires var route := past[|past| - 1].world.route;
             && (canary && route.Some? && UsesBase(route.value) ==> SettledSeen(past, next.round))
             && (!canary && route.Some? && UsesCanary(route.value) ==> NoRolloutSeen(past, next.round) || ServingSeen(past, next.round))
    ensures Safe(past, next)
  {
    hide Coherent, Safe, Sound, SettledSeen, NoRolloutSeen, ServingSeen, RouteAfter;
    RouteWriteIsSafe(past, next);
  }

  lemma FreezeStep(past: seq<Snap>, next: Snap)
    requires past != [] && Sound(past[|past| - 1].world) && past[|past| - 1].world.rollout.Some?
    requires next.world == past[|past| - 1].world.(rollout := next.world.rollout) && next.world.rollout.Some?
    requires Routed(next.world) <==> Routed(past[|past| - 1].world)
    requires next.world.rollout.value.stableRS == past[|past| - 1].world.rollout.value.stableRS
    ensures Safe(past, next)
  {
    hide Coherent, Safe, EstablishedSeen, CanaryReadySeen, RoutingActive;
    RolloutWriteIsSafe(past, next);
  }

  /** The Deployment was created or brought to its desired form. */
  ghost predicate Deployed(w: World, v: World, tag: string, migration: Option<int>, replicas: int, manageReplicas: bool) {
    || v == w.(deployment := Some(DeploymentAfter(w.deployment, tag, migration, replicas, manageReplicas, false)))
    || v == w.(deployment := Some(DeploymentAfter(w.deployment, tag, migration, replicas, manageReplicas, true)))
  }

  ghost predicate Rolled(w: World, v: World, spec: Spec, hold: bool) {
    || v == w.(rollout := Some(RolloutAfter(w.rollout, spec, hold, false)))
    || v == w.(rollout := Some(RolloutAfter(w.rollout, spec, hold, true)))
  }

  ghost predicate RoutedTo(w: World, v: World, canary: bool) {
    || v == w.(route := Some(RouteAfter(w.route, canary, false)))
    || v == w.(route := Some(RouteAfter(w.route, canary, true)))
  }

  ghost predicate Paused(w: World, v: World) { w.rollout.Some? && v == w.(rollout := Some(Frozen(w.rollout.value))) }

  /** The Rollout, its Services and the route moved only by drift. */
  ghost predicate KeepsRelease(w: World, v: World) {
    && w.now <= v.now && v.app.status == w.app.status
    && RolloutDrift(w.rollout, v.rollout) && RouteDrift(w.route, v.route) && v.stable == w.stable && v.canary == w.canary
  }

  lemma DriftKeepsRelease(w: World, v: World)
    requires Drift(w, v)
    ensures KeepsRelease(w, v)
  {
    hide RolloutDrift, RouteDrift;
  }

  lemma KeepsReleaseTrans(u: World, v: World, w: World)
    requires KeepsRelease(u, v) && KeepsRelease(v, w)
    ensures KeepsRelease(u, w)
  {
  }

  lemma EvidenceLasts(past: seq<Snap>, longer: seq<Snap>, generation: int, until: int, later: int)
    requires past <= longer && until <= later
    ensures AcceptedBy(past, generation, until) ==> AcceptedBy(longer, generation, later)
    ensures CleanedBy(past, generation, until) ==> CleanedBy(longer, generation, later)
  {
    hide AcceptedBy, CleanedBy;
    if AcceptedBy(past, generation, until) {
      AcceptedLasts(past, longer, generation, until, later);
    }
    if CleanedBy(past, generation, until) {
      CleanedLasts(past, longer, generation, until, later);
    }
  }

  /** A drain that has run out proves its delay. */
  lemma DrainEvidence(trace: seq<Snap>, route: Route, read: Route, drain: Drain, now: int)
    requires MarksHonest(trace, Some(route)) && route.generation == read.generation && MarkOf(route, drain) == MarkOf(read, drain)
    requires RouteDrainRemaining(read, drain, now).Some? && RouteDrainRemaining(read, drain, now).value <= 0
    ensures drain.Cutover? ==> AcceptedBy(trace, read.generation, now - CUTOVER_DELAY)
    ensures drain.Cleanup? ==> CleanedBy(trace, read.generation, now - CLEANUP_DELAY)
  {
    hide AcceptedBy, CleanedBy;
    EvidenceLasts(trace, trace, read.generation, MarkOf(read, drain).value.at, now - Delay(drain));
  }

  lemma RouteDriftTrans(a: Option<Route>, b: Option<Route>, c: Option<Route>)
    requires RouteDrift(a, b) && RouteDrift(b, c)
    ensures RouteDrift(a, c)
  {
  }

  lemma DeploymentDriftTrans(a: Option<Deployment>, b: Option<Deployment>, c: Option<Deployment>)
    requires DeploymentDrift(a, b) && DeploymentDrift(b, c)
    ensures DeploymentDrift(a, c)
  {
  }

  lemma KeepsReleaseMeans(w: World, v: World)
    requires KeepsRelease(w, v)
    ensures RouteDrift(w.route, v.route) && RolloutDrift(w.rollout, v.rollout) && v.app.status == w.app.status
  {
  }

  lemma RolloutDriftRefl(rollout: Option<Rollout>)
    ensures RolloutDrift(rollout, rollout)
  {
  }

  lemma DeploymentDriftRefl(d: Option<Deployment>)
    ensures DeploymentDrift(d, d)
  {
  }

  lemma RolloutDriftTrans(a: Option<Rollout>, b: Option<Rollout>, c: Option<Rollout>)
    requires RolloutDrift(a, b) && RolloutDrift(b, c)
    ensures RolloutDrift(a, c)
  {
  }

  lemma MayRollOut(trace: seq<Snap>, w: World, round: nat, spec: Spec)
    requires spec.strategy == Rolling
    ensures MayDeploy(trace, w, round, spec, spec.tag)
  {
  }

  lemma CutOverNow(past: seq<Snap>, longer: seq<Snap>, w: World, round: nat, generation: int)
    requires past <= longer && OnBase(w, generation) && AcceptedBy(longer, generation, w.now - CUTOVER_DELAY)
    requires ServingSeen(past, round) && BaseReadySeen(past, round, generation)
    ensures CutOver(longer, w, round, generation)
  {
    hide ServingSeen, BaseReadySeen, AcceptedBy;
    SeenLasts(past, longer, round);
    BaseReadySeenLasts(past, longer, round, generation);
  }

  lemma RouteDriftRefl(route: Option<Route>)
    ensures RouteDrift(route, route)
  {
  }

  lemma RolloutRemovalIsSafe(past: seq<Snap>, next: Snap, generation: int)
    requires past != [] && Sound(past[|past| - 1].world) && CutOver(past, past[|past| - 1].world, next.round, generation)
    requires !next.world.stable && !next.world.canary
    requires next.world == past[|past| - 1].world.(rollout := None)
    requires CleanedBy(past, generation, next.world.now - CLEANUP_DELAY)
    ensures Safe(past, next)
  {
    hide Coherent, Safe, ServingSeen, BaseReadySeen, AcceptedBy, CleanedBy, CanaryReadySeen, EstablishedSeen;
    RolloutWriteIsSafe(past, next);
  }

  /** A status this reconcile has the evidence for. */
  ghost predicate MayReport(trace: seq<Snap>, round: nat, app: App, s: Status) {
    && (s.phase != Healthy ==> Triple(s) == Triple(app.status))
    && (s.phase == Healthy ==>
          && s.activeVersion == app.spec.tag && s.activeVersion != "" && ReleasedFrom(app, s.revision) && s.candidateVersion == ""
          && AgreedSeen(trace, round, s.digest) && WorkloadSeen(trace, round, app.spec.strategy))
  }

  lemma StatusFacts(past: seq<Snap>, longer: seq<Snap>, w: World, v: World, round: nat, app: App, s: Status)
    requires past <= longer && MayReport(past, round, app, s) && Drift(w, v)
    ensures MayReport(longer, round, app, s)
    ensures Established(w) || w.rollout.None? ==> Established(v) || v.rollout.None?
  {
    hide MayReport, RouteDrift, DeploymentDrift;
    ReportLasts(past, longer, round, app, s);
  }

  lemma ReportLasts(past: seq<Snap>, longer: seq<Snap>, round: nat, app: App, s: Status)
    requires past <= longer && MayReport(past, round, app, s)
    ensures MayReport(longer, round, app, s)
  {
    hide AgreedSeen, ServingSeen, BaseSeen, SettledSeen, CanaryReadySeen;
    SeenLasts(past, longer, round);
    if s.phase == Healthy {
      AgreedSeenLasts(past, longer, round, s.digest);
    }
  }

  lemma TriedDrift(u: World, w: World, v: World)
    requires Drift(u, w) && Drift(w.(app := w.app.(status := v.app.status)), v)
    ensures Drift(u.(app := u.app.(status := v.app.status)), v) && (v.app.status == w.app.status ==> Drift(u, v))
  {
  }

  lemma ReportIsSafe(past: seq<Snap>, next: Snap)
    requires past != [] && Sound(past[|past| - 1].world)
    requires var w := past[|past| - 1].world;
             && next.world == w.(app := w.app.(status := next.world.app.status))
             && next.app.status == w.app.status && next.app.generation <= w.app.generation
             && (next.app.generation == w.app.generation ==> next.app.spec == w.app.spec)
             && (next.world.app.status.activeVersion != w.app.status.activeVersion ==> Established(w) || w.rollout.None?)
    requires Coherent(next.world.app.status) && next.world.app.status.observedGeneration == next.app.generation
    requires MayReport(past, next.round, next.app, next.world.app.status) && LookedCurrent(past, next)
    ensures Safe(past, next)
  {
    hide Coherent, Safe, AgreedSeen, WorkloadSeen, LookedCurrent;
    StatusWriteIsSafe(past, next);
  }

  lemma BackedAfter(w: World, v: World)
    requires Backed(w) && Drift(w, v)
    ensures Backed(v)
  {
    hide Backed, DeploymentDrift;
    BackedLasts(w, v);
  }

  lemma DriftOfRoute(u: World, v: World, w: World)
    requires Drift(u, v) && Drift(v.(route := w.route), w)
    ensures Drift(u.(route := w.route), w)
  {
  }

  /** Drift around a field that the controller itself rewrote. */
  lemma FieldDrift(w: World, v: World)
    ensures Drift(w, v) ==> Drift(w.(deployment := v.deployment), v) && Drift(w.(route := v.route), v) && Drift(w.(rollout := v.rollout), v)
  {
  }

  lemma MonotoneStep(past: seq<Snap>, next: Snap)
    requires past != [] && Safe(past, next)
    ensures past[|past| - 1].world.now <= next.world.now && past[|past| - 1].world.app.generation <= next.world.app.generation
    ensures past[|past| - 1].world.app.generation == next.world.app.generation ==> next.world.app.spec == past[|past| - 1].world.app.spec
  {
    hide Sound, ServicesRule, RolloutRule, DeploymentRule, RouteRule, StatusRule;
  }

  lemma DriftKeepsMarks(past: seq<Snap>, longer: seq<Snap>, w: World, v: World)
    requires MarksHonest(past, w.route) && past <= longer && Drift(w, v)
    ensures MarksHonest(longer, v.route) && AppDrift(w.app, v.app) && w.now <= v.now
  {
    hide MarksHonest;
    MarksStayHonest(past, longer, w.route, v.route);
  }

  /** Any number of reconciles, each stopping where it may, makes a run. */
  method Operate(start: World, reconciles: nat) returns (c: ApplicationController)
    requires Sound(start) && start.route.None?
    ensures fresh(c) && c.Valid() && Run(c.trace) && Attributed(c.trace, c.writes) && c.trace[0].world == start && c.round == reconciles
  {
    hide Sound, Run, Attributed, MarksHonest, ApplicationController.Valid;
    NoMarks(start);
    c := new ApplicationController(start);
    var i := 0;
    while i < reconciles
      invariant 0 <= i <= reconciles && fresh(c) && c.Valid() && c.round == i
      invariant c.trace != [] && c.trace[0].world == start
    {
      var _ := c.Reconcile();
      i := i + 1;
    }
    c.ValidMeans();
  }

  lemma NoMarks(w: World)
    requires w.route.None?
    ensures MarksHonest([Snap(w, 0, w.app)], w.route)
  {
  }
}
