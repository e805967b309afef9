/** The objects an Application reconcile observes, and the status it derives from them. */
module ApplicationStatus {
  import opened Wrappers
  import opened Provenance

  datatype Strategy = Rolling | Canary

  /** `wellFormed` stands for the validation rules that the model does not refine. */
  datatype Spec = Spec(strategy: Strategy, repository: string, tag: string, steps: nat, automaticRollback: bool,
                       minReplicas: int, databaseRef: bool, requireSignedImage: bool, networkIsolation: bool, wellFormed: bool)

  datatype Phase = Unset | PendingPhase | Progressing | Healthy | Degraded | RollingBack
  datatype ConditionType = ConfigurationReady | SecurityPolicyReady | ServiceHealth | DatabaseReady | RolloutHealthy | Ready
  datatype Truth = True | False | Unknown
  datatype StatusCondition = StatusCondition(truth: Truth, observedGeneration: int)

  datatype Status = Status(phase: Phase, observedGeneration: int, activeVersion: string, candidateVersion: string,
                           digest: string, revision: string, conditions: map<ConditionType, StatusCondition>)

  datatype App = App(generation: int, spec: Spec, sourceRevision: Option<string>, status: Status)

  // ---------------------------------------------------------------- observed objects

  datatype DeploymentCondition = Available(holds: bool) | DeadlineExceeded | OtherCondition
  datatype Deployment = Deployment(generation: int, tag: string, replicas: int, migration: Option<int>,
                                   observedGeneration: int, available: int, updated: int, conditions: seq<DeploymentCondition>)

  datatype ParentCondition = ParentCondition(truth: Truth, observedGeneration: int)
  datatype Parent = Parent(ours: bool, accepted: Option<ParentCondition>, resolved: Option<ParentCondition>)
  datatype Backends = BaseService | StableAndCanary(stable: nat, canary: nat)

  /** A drain mark: the route generation it was written for and the instant. */
  datatype Mark = Mark(generation: int, at: int)
  datatype Route = Route(generation: int, backends: Backends, inProgress: bool,
                         cutover: Option<Mark>, cleanup: Option<Mark>, parents: seq<Parent>)

  datatype RolloutPhase = RolloutHealthyPhase | RolloutDegraded | RolloutOther
  datatype Rollout = Rollout(generation: int, trafficRouting: bool, steps: nat, paused: bool, pinned: bool,
                             observedGeneration: int, phase: RolloutPhase, stableRS: string, available: int,
                             abort: bool, inconclusive: bool)

  /** Ready when available at the current generation and no deadline was exceeded. */
  predicate DeploymentReady(d: Deployment, desired: int) {
    && DeadlineExceeded !in d.conditions && Available(true) in d.conditions
    && d.observedGeneration >= d.generation && d.available >= desired && d.updated >= desired
  }

  predicate DeploymentFailed(d: Deployment) { DeadlineExceeded in d.conditions }

  method DeploymentState(deployment: Option<Deployment>, desired: int) returns (ready: bool, failed: bool)
    ensures ready <==> deployment.Some? && DeploymentReady(deployment.value, desired)
    ensures (failed <==> deployment.Some? && DeploymentFailed(deployment.value)) && !(ready && failed)
  {
    ready := false;
    if deployment.None? {
      return false, false;
    }
    var d := deployment.value;
    var i := 0;
    while i < |d.conditions|
      invariant 0 <= i <= |d.conditions| && DeadlineExceeded !in d.conditions[..i]
      invariant ready <==> Available(true) in d.conditions[..i] && d.observedGeneration >= d.generation
                           && d.available >= desired && d.updated >= desired
    {
      assert d.conditions[..i + 1] == d.conditions[..i] + [d.conditions[i]];
      if d.conditions[i] == DeadlineExceeded {
        return false, true;
      }
      if d.conditions[i] == Available(true) && d.observedGeneration >= d.generation && d.available >= desired && d.updated >= desired {
        ready := true;
      }
      i := i + 1;
    }
    assert d.conditions[..i] == d.conditions;
    return ready, false;
  }

  ghost predicate Says(c: Option<ParentCondition>, generation: int, truth: Truth) {
    c.Some? && c.value.truth == truth && generation <= c.value.observedGeneration
  }

  /** A parent of our Gateway that turns the route down, or lets it in, at its generation. */
  ghost predicate Denies(p: Parent, generation: int) { p.ours && (Says(p.accepted, generation, False) || Says(p.resolved, generation, False)) }
  ghost predicate Admits(p: Parent, generation: int) { p.ours && Says(p.accepted, generation, True) && Says(p.resolved, generation, True) }

  /** Some parent admits the route, and none before it denies it. */
  ghost predicate RouteReady(route: Route) {
    exists i :: 0 <= i < |route.parents| && Admits(route.parents[i], route.generation)
                && forall j :: 0 <= j < i ==> !Denies(route.parents[j], route.generation)
  }

  /** Some parent denies the route, and none before it admits it. */
  ghost predicate RouteRejected(route: Route) {
    exists i :: 0 <= i < |route.parents| && Denies(route.parents[i], route.generation)
                && forall j :: 0 <= j < i ==> !Admits(route.parents[j], route.generation)
  }

  /** The first decisive status of our Gateway decides. */
  method RouteState(route: Route) returns (ready: bool, rejected: bool)
    ensures (ready <==> RouteReady(route)) && (rejected <==> RouteRejected(route)) && !(ready && rejected)
  {
    for i := 0 to |route.parents|
      invariant forall j :: 0 <= j < i ==> !Denies(route.parents[j], route.generation) && !Admits(route.parents[j], route.generation)
    {
      var parent := route.parents[i];
      if !parent.ours {
        continue;
      }
      var accepted, resolved := parent.accepted, parent.resolved;
      if (accepted.Some? && accepted.value.observedGeneration >= route.generation && accepted.value.truth == False)
         || (resolved.Some? && resolved.value.observedGeneration >= route.generation && resolved.value.truth == False)
      {
        return false, true;
      }
      if accepted.Some? && accepted.value.observedGeneration >= route.generation && accepted.value.truth == True
         && resolved.Some? && resolved.value.observedGeneration >= route.generation && resolved.value.truth == True
      {
        return true, false;
      }
    }
    return false, false;
  }

  predicate UsesCanary(route: Route) { route.backends.StableAndCanary? }
  predicate UsesBase(route: Route) { route.backends.BaseService? }
  predicate StableOnly(route: Route) { UsesCanary(route) && !route.inProgress && route.backends == StableAndCanary(100, 0) }
  predicate RoutingActive(r: Rollout) { r.trafficRouting && r.steps > 0 }

  predicate IsHealthy(r: Rollout, desired: int) {
    r.observedGeneration == r.generation && r.phase == RolloutHealthyPhase && r.stableRS != "" && r.available >= desired
  }

  predicate IsAvailable(r: Option<Rollout>, desired: int) { r.Some? && r.value.available >= desired }

  // ---------------------------------------------------------------- status invariants

  function Triple(s: Status): (string, string, string) { (s.activeVersion, s.digest, s.revision) }

  predicate Holds(s: Status, c: ConditionType, truth: Truth) { c in s.conditions && s.conditions[c].truth == truth }

  predicate AllTrueAt(s: Status, types: set<ConditionType>, generation: int) {
    forall c <- types :: c in s.conditions && s.conditions[c] == StatusCondition(True, generation)
  }

  const WORKLOAD_CONDITIONS := {ConfigurationReady, SecurityPolicyReady, ServiceHealth, RolloutHealthy, Ready}
  const ALL_CONDITIONS := WORKLOAD_CONDITIONS + {DatabaseReady}

  /** Healthy exactly when Ready is True, and then every condition is True at
      the generation the status was computed for. */
  ghost predicate Coherent(s: Status) {
    && (s.phase == Healthy <==> Holds(s, Ready, True))
    && (s.phase == Healthy ==> AllTrueAt(s, ALL_CONDITIONS, s.observedGeneration))
  }

  /** What a reconcile that read `app` may write: the last healthy triple is
      replaced as a whole, by a Healthy status for the spec that was read. */
  ghost predicate StatusFor(app: App, digest: Resolution, revision: string, s: Status) {
    && s.observedGeneration == app.generation
    && (s.phase != Healthy ==> Triple(s) == Triple(app.status))
    && (s.phase == Healthy ==> digest.Resolved? && Triple(s) == (app.spec.tag, digest.digest, revision) && s.candidateVersion == "")
  }

  /** The condition as a status of the current generation has it. */
  predicate Reads(s: Status, c: ConditionType, truth: Truth) {
    c in s.conditions && s.conditions[c] == StatusCondition(truth, s.observedGeneration)
  }

  predicate SameCondition(a: Status, b: Status, c: ConditionType) {
    (c in a.conditions <==> c in b.conditions) && (c in a.conditions ==> a.conditions[c] == b.conditions[c])
  }

  function SetCondition(s: Status, generation: int, c: ConditionType, truth: Truth): Status {
    s.(conditions := s.conditions[c := StatusCondition(truth, generation)])
  }

  function BaseStatus(app: App): Status { app.status.(observedGeneration := app.generation) }

  // ---------------------------------------------------------------- what the reports say

  ghost predicate DegradedFor(app: App, securityRejected: bool, s: Status) {
    && s.observedGeneration == app.generation && Triple(s) == Triple(app.status) && s.phase == Degraded && s.candidateVersion == ""
    && Reads(s, ConfigurationReady, False) && Reads(s, SecurityPolicyReady, if securityRejected then False else Unknown)
    && Reads(s, RolloutHealthy, Unknown) && Reads(s, DatabaseReady, if app.spec.databaseRef then Unknown else True) && Reads(s, Ready, False)
    && SameCondition(app.status, s, ServiceHealth)
  }

  ghost predicate BlockedFor(app: App, s: Status) {
    && s.observedGeneration == app.generation && Triple(s) == Triple(app.status) && s.candidateVersion == ""
    && s.phase == (if app.status.activeVersion == "" then PendingPhase else Degraded)
    && Reads(s, ConfigurationReady, False) && Reads(s, DatabaseReady, False) && Reads(s, RolloutHealthy, Unknown) && Reads(s, Ready, False)
    && SameCondition(app.status, s, ServiceHealth) && SameCondition(app.status, s, SecurityPolicyReady)
  }

  ghost predicate ServesAt(d: Option<Deployment>, minReplicas: int) { d.Some? && DeploymentReady(d.value, minReplicas) }

  /** The phase a ready workload is in, by what its Pods say. */
  ghost function DigestPhase(digest: Resolution): Phase {
    match digest case Invalid => Degraded case Conflict => Degraded case Pending => Progressing case Resolved(_) => Healthy
  }

  /** A failed Deployment first, then a rejected route, then what is still to come. */
  ghost function RollingPhase(app: App, d: Option<Deployment>, route: Route, digest: Resolution): Phase {
    if (d.Some? && DeploymentFailed(d.value)) || RouteRejected(route) then Degraded
    else if ServesAt(d, app.spec.minReplicas) && RouteReady(route) then DigestPhase(digest) else Progressing
  }

  ghost predicate RollingFor(app: App, d: Option<Deployment>, route: Route, digest: Resolution, revision: string, s: Status) {
    var serves := ServesAt(d, app.spec.minReplicas);
    && StatusFor(app, digest, revision, s) && s.phase == RollingPhase(app, d, route, digest)
    && s.candidateVersion == (if s.phase == Progressing then app.spec.tag else "")
    && Reads(s, ConfigurationReady, True) && Reads(s, SecurityPolicyReady, True)
    && Reads(s, ServiceHealth, if serves && RouteReady(route) then True else False)
    && Reads(s, RolloutHealthy, if s.phase == Healthy then True else if s.phase == Progressing then Unknown
                                else if serves && RouteRejected(route) then True
                                else if RouteRejected(route) && !(d.Some? && DeploymentFailed(d.value)) then Unknown else False)
    && Reads(s, Ready, if s.phase == Healthy then True else False)
  }

  /** Behind the route either the Deployment or the Rollout can serve. */
  ghost predicate CanServe(app: App, d: Option<Deployment>, route: Route, rollout: Option<Rollout>) {
    RouteReady(route) && (ServesAt(d, app.spec.minReplicas) || (rollout.Some? && app.spec.minReplicas <= rollout.value.available))
  }

  /** The new version, until it is the active one. */
  ghost predicate Candidacy(app: App, s: Status) {
    s.candidateVersion == if app.status.activeVersion == app.spec.tag && app.spec.tag != "" then "" else app.spec.tag
  }

  /** All traffic is on the stable release and stays there. */
  ghost predicate BackOnStable(route: Route) { route.backends == StableAndCanary(100, 0) && !route.inProgress }

  ghost predicate FullyRolledOut(r: Rollout, desired: int) {
    desired <= r.available && r.phase.RolloutHealthyPhase? && |r.stableRS| > 0 && r.generation == r.observedGeneration
  }

  /** The phase of a canary reconcile; a failed analysis is Degraded only once
      all traffic is back on the stable release. */
  ghost function CanaryPhase(app: App, route: Route, migrating: bool, rollout: Option<Rollout>, digest: Resolution): Phase {
    if RouteRejected(route) then Degraded
    else if migrating || rollout.None? then Progressing
    else
      var r := rollout.value;
      if r.abort || (r.phase.RolloutDegraded? && (!r.inconclusive || app.spec.automaticRollback)) then
        if BackOnStable(route) then Degraded else RollingBack
      else if r.inconclusive && !app.spec.automaticRollback then Progressing
      else if FullyRolledOut(r, app.spec.minReplicas) && RouteReady(route) then DigestPhase(digest)
      else Progressing
  }

  ghost function RolloutTruth(phase: Phase): Truth {
    match phase case Healthy => True case Degraded => False case RollingBack => False case _ => Unknown
  }

  ghost predicate CanaryFor(app: App, d: Option<Deployment>, route: Route, migrating: bool, rollout: Option<Rollout>, digest: Resolution, revision: string, s: Status) {
    && StatusFor(app, digest, revision, s) && s.phase == CanaryPhase(app, route, migrating, rollout, digest)
    && (s.phase != Healthy ==> Candidacy(app, s))
    && Reads(s, ConfigurationReady, True) && Reads(s, SecurityPolicyReady, True)
    && Reads(s, ServiceHealth, if CanServe(app, d, route, rollout) then True else False)
    && Reads(s, RolloutHealthy, RolloutTruth(s.phase)) && Reads(s, Ready, if s.phase == Healthy then True else False)
  }

  ghost predicate MigratingFor(app: App, d: Option<Deployment>, route: Route, rollout: Option<Rollout>, s: Status) {
    && s.observedGeneration == app.generation && Triple(s) == Triple(app.status) && s.phase == Progressing && Candidacy(app, s)
    && Reads(s, ConfigurationReady, True) && Reads(s, SecurityPolicyReady, True)
    && Reads(s, ServiceHealth, if CanServe(app, d, route, rollout) then True else False)
    && Reads(s, RolloutHealthy, Unknown) && Reads(s, Ready, False)
  }

  /** A new image is a candidate until it is the active version. */
  function Candidate(status: Status, tag: string): string {
    if status.activeVersion == "" || status.activeVersion != tag then tag else ""
  }

  // ---------------------------------------------------------------- status builders

  method DegradedStatus(app: App, securityRejected: bool) returns (status: Status)
    ensures DegradedFor(app, securityRejected, status) && Coherent(status)
  {
    status := BaseStatus(app);
    status := status.(phase := Degraded, candidateVersion := "");
    status := SetCondition(status, app.generation, ConfigurationReady, False);
    status := SetCondition(status, app.generation, SecurityPolicyReady, if securityRejected then False else Unknown);
    status := SetCondition(status, app.generation, RolloutHealthy, Unknown);
    if !app.spec.databaseRef {
      status := SetCondition(status, app.generation, DatabaseReady, True);
    } else {
      status := SetCondition(status, app.generation, DatabaseReady, Unknown);
    }
    status := SetCondition(status, app.generation, Ready, False);
  }

  method DatabaseBlockedStatus(app: App) returns (status: Status)
    ensures BlockedFor(app, status) && Coherent(status)
  {
    status := BaseStatus(app);
    status := status.(phase := if status.activeVersion == "" then PendingPhase else Degraded, candidateVersion := "");
    status := SetCondition(status, app.generation, ConfigurationReady, False);
    status := SetCondition(status, app.generation, DatabaseReady, False);
    status := SetCondition(status, app.generation, RolloutHealthy, Unknown);
    status := SetCondition(status, app.generation, Ready, False);
  }

  /** What every workload reconcile has recorded before it decides the phase. */
  ghost predicate Recorded(app: App, s: Status, health: Truth) {
    && s.observedGeneration == app.generation && Triple(s) == Triple(app.status)
    && Reads(s, ConfigurationReady, True) && Reads(s, SecurityPolicyReady, True) && Reads(s, ServiceHealth, health)
  }

  /** A phase that is not Healthy, with Ready False beside the rollout condition. */
  method Settle(app: App, recorded: Status, ghost health: Truth, phase: Phase, candidate: string, truth: Truth) returns (status: Status)
    requires Recorded(app, recorded, health)
    ensures Recorded(app, status, health) && status.phase == phase && status.candidateVersion == candidate
    ensures Reads(status, RolloutHealthy, truth) && Reads(status, Ready, False)
  {
    status := recorded.(phase := phase, candidateVersion := candidate);
    status := SetCondition(status, app.generation, RolloutHealthy, truth);
    status := SetCondition(status, app.generation, Ready, False);
  }

  /** The promotion of the version that was read. */
  method Promote(app: App, recorded: Status, ghost health: Truth, digest: string, revision: string) returns (status: Status)
    requires Recorded(app, recorded, health)
    ensures status.phase == Healthy && status.observedGeneration == app.generation && Triple(status) == (app.spec.tag, digest, revision)
    ensures status.candidateVersion == "" && Reads(status, RolloutHealthy, True) && Reads(status, Ready, True)
    ensures Reads(status, ConfigurationReady, True) && Reads(status, SecurityPolicyReady, True) && Reads(status, ServiceHealth, health)
  {
    status := recorded.(phase := Healthy, activeVersion := app.spec.tag, candidateVersion := "", digest := digest, revision := revision);
    status := SetCondition(status, app.generation, RolloutHealthy, True);
    status := SetCondition(status, app.generation, Ready, True);
  }

  /** The records every workload reconcile starts from. */
  method Record(app: App, available: bool) returns (status: Status)
    ensures Recorded(app, status, if available then True else False)
    ensures status.candidateVersion == app.status.candidateVersion
  {
    status := BaseStatus(app);
    status := SetCondition(status, app.generation, ConfigurationReady, True);
    status := SetCondition(status, app.generation, SecurityPolicyReady, True);
    status := SetCondition(status, app.generation, ServiceHealth, if available then True else False);
  }

  method WorkloadStatus(app: App, deployment: Option<Deployment>, route: Route, digest: Resolution, revision: string)
    returns (status: Status, rejected: bool)
    ensures (rejected <==> RouteRejected(route)) && RollingFor(app, deployment, route, digest, revision, status)
  {
    hide RouteReady, RouteRejected, DeploymentReady, DeploymentFailed, Recorded;
    hide Reads;
    var ready, failed := DeploymentState(deployment, app.spec.minReplicas);
    var routeReady;
    routeReady, rejected := RouteState(route);
    var recorded := Record(app, ready && routeReady);
    ghost var health := if ready && routeReady then True else False;
    if failed {
      status := Settle(app, recorded, health, Degraded, "", False);
    } else if rejected {
      status := Settle(app, recorded, health, Degraded, "", if ready then True else Unknown);
    } else if ready && routeReady && (digest.Invalid? || digest.Conflict?) {
      status := Settle(app, recorded, health, Degraded, "", False);
    } else if ready && routeReady && !digest.Resolved? {
      status := Settle(app, recorded, health, Progressing, app.spec.tag, Unknown);
    } else if ready && routeReady {
      status := Promote(app, recorded, health, digest.digest, revision);
    } else {
      status := Settle(app, recorded, health, Progressing, app.spec.tag, Unknown);
    }
    if status.phase != Healthy {
      RecordedMeans(app, status, health);
    }
  }

  lemma RecordedMeans(app: App, s: Status, health: Truth)
    requires Recorded(app, s, health)
    ensures s.observedGeneration == app.generation && Triple(s) == Triple(app.status)
    ensures Reads(s, ConfigurationReady, True) && Reads(s, SecurityPolicyReady, True) && Reads(s, ServiceHealth, health)
  {
  }

  /** What a canary reconcile writes, whatever the phase. */
  ghost predicate Decided(app: App, s: Status, health: Truth, candidate: string, digest: Resolution, revision: string) {
    && Reads(s, RolloutHealthy, RolloutTruth(s.phase)) && Reads(s, Ready, if s.phase == Healthy then True else False)
    && (s.phase != Healthy ==> Recorded(app, s, health) && s.candidateVersion == candidate)
    && (s.phase == Healthy ==> StatusFor(app, digest, revision, s) && Reads(s, ConfigurationReady, True) && Reads(s, SecurityPolicyReady, True)
                               && Reads(s, ServiceHealth, health))
  }

  lemma DecidedIsReported(app: App, d: Option<Deployment>, route: Route, migrating: bool, rollout: Option<Rollout>, digest: Resolution, revision: string,
                          s: Status, available: bool)
    requires available <==> CanServe(app, d, route, rollout)
    requires Decided(app, s, if available then True else False, Candidate(app.status, app.spec.tag), digest, revision)
    requires s.phase == CanaryPhase(app, route, migrating, rollout, digest)
    ensures CanaryFor(app, d, route, migrating, rollout, digest, revision, s)
  {
    hide RouteReady, RouteRejected, DeploymentReady, CanaryPhase, CanServe;
  }

  method CanaryWorkloadStatus(app: App, deployment: Option<Deployment>, route: Route, migrating: bool, rollout: Option<Rollout>,
                              digest: Resolution, revision: string)
    returns (status: Status, rejected: bool)
    ensures (rejected <==> RouteRejected(route)) && CanaryFor(app, deployment, route, migrating, rollout, digest, revision, status)
  {
    hide RouteReady, RouteRejected, DeploymentReady, Recorded, Reads, Candidate, CanaryFor, Decided;
    var routeReady;
    routeReady, rejected := RouteState(route);
    var deploymentReady, _ := DeploymentState(deployment, app.spec.minReplicas);
    var available := routeReady && (deploymentReady || IsAvailable(rollout, app.spec.minReplicas));
    var recorded := Record(app, available);
    var candidate := Candidate(app.status, app.spec.tag);
    ghost var health := if available then True else False;
    if rejected {
      status := SettleCanary(app, recorded, health, candidate, Degraded, False, digest, revision);
    } else if migrating {
      status := SettleCanary(app, recorded, health, candidate, Progressing, Unknown, digest, revision);
    } else if rollout.None? {
      status := SettleCanary(app, recorded, health, candidate, Progressing, Unknown, digest, revision);
    } else if rollout.value.inconclusive && !app.spec.automaticRollback && !rollout.value.abort {
      status := SettleCanary(app, recorded, health, candidate, Progressing, Unknown, digest, revision);
    } else if rollout.value.abort || rollout.value.phase == RolloutDegraded {
      if StableOnly(route) {
        status := SettleCanary(app, recorded, health, candidate, Degraded, False, digest, revision);
      } else {
        status := SettleCanary(app, recorded, health, candidate, RollingBack, False, digest, revision);
      }
    } else {
      status := DecideCanary(app, recorded, health, candidate, IsHealthy(rollout.value, app.spec.minReplicas) && routeReady, digest, revision);
    }
    DecidedIsReported(app, deployment, route, migrating, rollout, digest, revision, status, available);
  }

  method SettleCanary(app: App, recorded: Status, ghost health: Truth, candidate: string, phase: Phase, truth: Truth,
                      ghost digest: Resolution, ghost revision: string)
    returns (status: Status)
    requires Recorded(app, recorded, health) && phase != Healthy && truth == RolloutTruth(phase)
    ensures status.phase == phase && Decided(app, status, health, candidate, digest, revision)
  {
    hide Recorded, Reads;
    status := Settle(app, recorded, health, phase, candidate, truth);
  }

  /** A healthy Rollout behind a ready route is promoted once its digest is known. */
  method DecideCanary(app: App, recorded: Status, ghost health: Truth, candidate: string, ready: bool, digest: Resolution, revision: string)
    returns (status: Status)
    requires Recorded(app, recorded, health)
    ensures status.phase == (if ready then DigestPhase(digest) else Progressing) && Decided(app, status, health, candidate, digest, revision)
  {
    hide Recorded, Reads;
    if ready && (digest.Invalid? || digest.Conflict?) {
      status := SettleCanary(app, recorded, health, candidate, Degraded, False, digest, revision);
    } else if ready && !digest.Resolved? {
      status := SettleCanary(app, recorded, health, candidate, Progressing, Unknown, digest, revision);
    } else if ready {
      status := Promote(app, recorded, health, digest.digest, revision);
    } else {
      status := SettleCanary(app, recorded, health, candidate, Progressing, Unknown, digest, revision);
    }
  }

  method StrategyMigrationStatus(app: App, deployment: Option<Deployment>, route: Route, rollout: Option<Rollout>) returns (status: Status)
    ensures MigratingFor(app, deployment, route, rollout, status)
  {
    hide RouteReady, RouteRejected, DeploymentReady, Recorded, Reads;
    var deploymentReady, _ := DeploymentState(deployment, app.spec.minReplicas);
    var routeReady, _ := RouteState(route);
    var available := routeReady && (deploymentReady || IsAvailable(rollout, app.spec.minReplicas));
    status := Record(app, available);
    status := Settle(app, status, if available then True else False, Progressing, Candidate(app.status, app.spec.tag), Unknown);
    RecordedMeans(app, status, if available then True else False);
  }

  /** Recording the database condition completes a workload status and disturbs nothing else. */
  lemma RollingCompletes(app: App, d: Option<Deployment>, route: Route, digest: Resolution, revision: string, s: Status)
    requires RollingFor(app, d, route, digest, revision, s)
    ensures var t := SetCondition(s, app.generation, DatabaseReady, True);
            Coherent(t) && Reads(t, DatabaseReady, True) && RollingFor(app, d, route, digest, revision, t)
  {
    hide RouteReady, RouteRejected, DeploymentReady;
  }

  lemma CanaryCompletes(app: App, d: Option<Deployment>, route: Route, migrating: bool, rollout: Option<Rollout>, digest: Resolution, revision: string, s: Status)
    requires CanaryFor(app, d, route, migrating, rollout, digest, revision, s)
    ensures var t := SetCondition(s, app.generation, DatabaseReady, True);
            Coherent(t) && Reads(t, DatabaseReady, True) && CanaryFor(app, d, route, migrating, rollout, digest, revision, t)
  {
    hide RouteReady, RouteRejected, DeploymentReady;
  }

  lemma MigratingCompletes(app: App, d: Option<Deployment>, route: Route, rollout: Option<Rollout>, s: Status)
    requires MigratingFor(app, d, route, rollout, s)
    ensures var t := SetCondition(s, app.generation, DatabaseReady, True);
            Coherent(t) && Reads(t, DatabaseReady, True) && MigratingFor(app, d, route, rollout, t)
  {
    hide RouteReady, RouteRejected, DeploymentReady;
  }
}
