/** Runs of the Application controller against a cluster that changes between its
    API calls, the safety rule of every step, and what the rule gives whole runs. */
module MigrationRun {
  import opened Wrappers
  import opened Provenance
  import opened ApplicationStatus

  const SECOND := 1_000_000_000
  const CUTOVER_DELAY := 15 * SECOND
  const CLEANUP_DELAY := 30 * SECOND

  /** What a look at the Namespace and the Team, at the Database and at the ReplicaSets would say. */
  datatype Checks = Checks(tenancy: bool, databaseReady: bool, admitted: bool)

  /** `service` is the migration label the base Service selects on, once it exists. */
  datatype World = World(now: int, app: App, deployment: Option<Deployment>, service: Option<Option<int>>, stable: bool, canary: bool,
                         route: Option<Route>, rollout: Option<Rollout>, pods: seq<Pod>, checks: Checks)

  /** The cluster at one instant, the reconcile it belongs to and the Application that reconcile read. */
  datatype Snap = Snap(world: World, round: nat, app: App)

  // ---------------------------------------------------------------- what others may change

  predicate AppDrift(a: App, b: App) {
    b.status == a.status && a.generation <= b.generation && (a.generation == b.generation ==> b.spec == a.spec)
  }

  predicate DeploymentDrift(a: Option<Deployment>, b: Option<Deployment>) {
    && (a.Some? <==> b.Some?)
    && (a.Some? ==> b.value.tag == a.value.tag && b.value.migration == a.value.migration && a.value.generation <= b.value.generation)
  }

  /** Traffic weights belong to the Gateway plugin; a route to the base Service is left alone. */
  predicate RouteDrift(a: Option<Route>, b: Option<Route>) {
    && (a.Some? <==> b.Some?)
    && (a.Some? ==>
          && b.value.cutover == a.value.cutover && b.value.cleanup == a.value.cleanup && a.value.generation <= b.value.generation
          && (UsesBase(a.value) <==> UsesBase(b.value))
          && (UsesBase(a.value) ==> b.value.generation == a.value.generation)
          && (a.value.generation == b.value.generation ==> b.value.backends == a.value.backends))
  }

  /** Argo Rollouts never clears a stable ReplicaSet. */
  predicate RolloutDrift(a: Option<Rollout>, b: Option<Rollout>) {
    && (a.Some? <==> b.Some?)
    && (a.Some? ==>
          && b.value.trafficRouting == a.value.trafficRouting && b.value.steps == a.value.steps && b.value.pinned == a.value.pinned
          && a.value.generation <= b.value.generation && (a.value.stableRS != "" ==> b.value.stableRS != ""))
  }

  predicate Drift(w: World, v: World) {
    && w.now <= v.now && AppDrift(w.app, v.app) && DeploymentDrift(w.deployment, v.deployment) && v.service == w.service
    && v.stable == w.stable && v.canary == w.canary && RouteDrift(w.route, v.route) && RolloutDrift(w.rollout, v.rollout)
  }

  lemma DriftRefl(w: World)
    ensures Drift(w, w)
  {
  }

  lemma DriftTrans(u: World, v: World, w: World)
    requires Drift(u, v) && Drift(v, w)
    ensures Drift(u, w)
  {
  }

  // ---------------------------------------------------------------- evidence gathered by a run

  predicate OnBase(w: World, generation: int) {
    w.route.Some? && w.route.value.generation == generation && UsesBase(w.route.value)
  }

  ghost predicate BaseReady(w: World, generation: int) { OnBase(w, generation) && RouteReady(w.route.value) }

  ghost predicate CanaryReady(w: World) { w.route.Some? && UsesCanary(w.route.value) && RouteReady(w.route.value) }

  predicate Serving(s: Snap) {
    && s.world.deployment.Some? && s.world.deployment.value.tag == s.app.spec.tag
    && DeploymentReady(s.world.deployment.value, s.app.spec.minReplicas)
  }

  ghost predicate Settled(w: World, minReplicas: int) { w.rollout.Some? && FullyRolledOut(w.rollout.value, minReplicas) }

  predicate Established(w: World) { w.rollout.Some? && w.rollout.value.stableRS != "" }

  predicate Routed(w: World) { w.rollout.Some? && w.rollout.value.trafficRouting && w.rollout.value.steps > 0 }

  /** The share of the traffic that the route gives to the canary. */
  function CanaryWeight(route: Option<Route>): nat { if route.Some? && UsesCanary(route.value) then route.value.backends.canary else 0 }

  ghost predicate ServingSeen(past: seq<Snap>, round: nat) {
    exists i :: 0 <= i < |past| && past[i].round == round && Serving(past[i])
  }

  ghost predicate BaseReadySeen(past: seq<Snap>, round: nat, generation: int) {
    exists i :: 0 <= i < |past| && past[i].round == round && BaseReady(past[i].world, generation)
  }

  ghost predicate CanaryReadySeen(past: seq<Snap>, round: nat) {
    exists i :: 0 <= i < |past| && past[i].round == round && CanaryReady(past[i].world)
  }

  ghost predicate SettledSeen(past: seq<Snap>, round: nat) {
    exists i :: 0 <= i < |past| && past[i].round == round && Settled(past[i].world, past[i].app.spec.minReplicas)
  }

  ghost predicate BaseSeen(past: seq<Snap>, round: nat) {
    exists i :: 0 <= i < |past| && past[i].round == round && past[i].world.route.Some?
                && BaseReady(past[i].world, past[i].world.route.value.generation)
  }

  /** Some listing of this reconcile had every ready Pod of the image report `digest`. */
  ghost predicate AgreedSeen(past: seq<Snap>, round: nat, digest: string) {
    exists i :: 0 <= i < |past| && past[i].round == round && Agree(PodSet(past[i].world.pods), past[i].app.spec.repository + ":" + past[i].app.spec.tag, digest)
  }

  /** The workload and the route a reconcile must have seen ready to report Healthy. */
  ghost predicate WorkloadSeen(past: seq<Snap>, round: nat, strategy: Strategy) {
    match strategy
    case Rolling => ServingSeen(past, round) && BaseSeen(past, round)
    case Canary => SettledSeen(past, round) && CanaryReadySeen(past, round)
  }

  ghost predicate NoRolloutSeen(past: seq<Snap>, round: nat) {
    exists i :: 0 <= i < |past| && past[i].round == round && past[i].world.rollout.None?
  }

  ghost predicate EstablishedSeen(past: seq<Snap>, round: nat) {
    exists i :: 0 <= i < |past| && past[i].round == round && Established(past[i].world)
  }

  /** The route at `generation` pointed at the base Service and was accepted at some instant up to `until`. */
  ghost predicate AcceptedBy(past: seq<Snap>, generation: int, until: int) {
    exists i :: 0 <= i < |past| && past[i].world.now <= until && BaseReady(past[i].world, generation)
  }

  predicate Cleaned(w: World, generation: int) { OnBase(w, generation) && !w.stable && !w.canary }

  /** Both progressive Services were gone at some instant up to `until`, a full
      cutover delay after the acceptance. */
  ghost predicate CleanedBy(past: seq<Snap>, generation: int, until: int) {
    exists k :: 0 <= k < |past| && past[k].world.now <= until && Cleaned(past[k].world, generation)
                && AcceptedBy(past[..k + 1], generation, past[k].world.now - CUTOVER_DELAY)
  }

  // ---------------------------------------------------------------- the rule of every step

  ghost predicate Monotone(w: World, v: World) {
    && w.now <= v.now && w.app.generation <= v.app.generation
    && (w.app.generation == v.app.generation ==> v.app.spec == w.app.spec)
    && (w.route.Some? ==> v.route.Some? && w.route.value.generation <= v.route.value.generation
                          && (w.route.value.generation == v.route.value.generation ==> v.route.value.backends == w.route.value.backends))
    && (Established(w) && v.rollout.Some? ==> Established(v))
  }

  predicate RemovesService(w: World, v: World) { (w.stable && !v.stable) || (w.canary && !v.canary) }

  ghost predicate ServicesRule(past: seq<Snap>, w: World, next: Snap) {
    && (RemovesService(w, next.world) ==>
          && w.route.Some? && UsesBase(w.route.value)
          && ServingSeen(past, next.round) && BaseReadySeen(past, next.round, w.route.value.generation)
          && AcceptedBy(past, w.route.value.generation, w.now - CUTOVER_DELAY))
    && (RemovesService(next.world, w) ==> next.app.spec.strategy == Canary)
  }

  predicate AtVersion(d: Option<Deployment>, version: string) { d.Some? && d.value.tag == version }

  ghost predicate RolloutRule(past: seq<Snap>, w: World, next: Snap) {
    var v := next.world;
    && (w.rollout.Some? && v.rollout.None? ==>
          && w.route.Some? && Cleaned(w, w.route.value.generation)
          && ServingSeen(past, next.round) && BaseReadySeen(past, next.round, w.route.value.generation)
          && CleanedBy(past, w.route.value.generation, w.now - CLEANUP_DELAY))
    && (w.rollout.None? && v.rollout.Some? && w.app.status.activeVersion != "" ==>
          !Routed(v) && AtVersion(w.deployment, w.app.status.activeVersion) && next.app.spec.strategy == Canary)
    && (w.rollout.Some? && v.rollout.Some? && !Routed(w) && Routed(v) ==>
          w.app.status.activeVersion == "" || (CanaryReadySeen(past, next.round) && EstablishedSeen(past, next.round)))
    && (Routed(w) && v.rollout.Some? ==> Routed(v))
  }

  ghost predicate DeploymentRule(past: seq<Snap>, w: World, next: Snap) {
    var v := next.world;
    && (w.deployment.Some? ==> v.deployment.Some?)
    && (v.deployment.Some? && (w.deployment.None? || v.deployment.value.tag != w.deployment.value.tag) ==>
          if next.app.spec.strategy == Canary && w.app.status.activeVersion != "" && v.deployment.value.tag != w.app.status.activeVersion then
            v.deployment.value.tag == next.app.spec.tag && EstablishedSeen(past, next.round)
            && (CanaryReadySeen(past, next.round) || Routed(w))
          else v.deployment.value.tag == next.app.spec.tag || v.deployment.value.tag == w.app.status.activeVersion)
  }

  ghost predicate RouteRule(past: seq<Snap>, w: World, next: Snap) {
    w.route.Some? && next.world.route.Some? ==>
      && (UsesBase(w.route.value) && UsesCanary(next.world.route.value) ==>
            w.stable && w.canary && SettledSeen(past, next.round) && next.app.spec.strategy == Canary)
      && (UsesCanary(w.route.value) && UsesBase(next.world.route.value) ==>
            (NoRolloutSeen(past, next.round) || ServingSeen(past, next.round)) && next.app.spec.strategy == Rolling)
  }

  /** The source revision an Application was released from, empty when it names none. */
  ghost predicate ReleasedFrom(app: App, revision: string) { app.sourceRevision == Some(revision) || (app.sourceRevision.None? && |revision| == 0) }

  /** The look at the generation that a status patch follows; what others do in between is one step. */
  predicate LookedCurrent(past: seq<Snap>, next: Snap) {
    && |past| >= 2
    && var look := past[|past| - 2];
       look.round == next.round && look.app == next.app && look.world.app.generation == next.app.generation
  }

  ghost predicate StatusRule(past: seq<Snap>, w: World, next: Snap) {
    var s := next.world.app.status;
    s != w.app.status ==>
      && LookedCurrent(past, next)
      && next.app.generation == s.observedGeneration <= w.app.generation
      && (next.app.generation == w.app.generation ==> next.app.spec == w.app.spec)
      && (s.phase != Healthy ==> Triple(s) == Triple(w.app.status))
      && (s.phase == Healthy ==>
            && s.activeVersion == next.app.spec.tag && s.activeVersion != "" && ReleasedFrom(next.app, s.revision) && s.candidateVersion == ""
            && AgreedSeen(past, next.round, s.digest) && WorkloadSeen(past, next.round, next.app.spec.strategy))
  }

  /** What holds of the cluster after every step. */
  ghost predicate Sound(w: World) {
    && (w.route.Some? && UsesCanary(w.route.value) ==> w.stable && w.canary)
    && (Routed(w) && !Established(w) ==> w.app.status.activeVersion == "")
    && Coherent(w.app.status)
  }

  ghost predicate Safe(past: seq<Snap>, next: Snap)
    requires past != []
  {
    var w := past[|past| - 1].world;
    && Monotone(w, next.world) && Sound(next.world)
    && ServicesRule(past, w, next) && RolloutRule(past, w, next) && DeploymentRule(past, w, next)
    && RouteRule(past, w, next) && StatusRule(past, w, next)
  }

  /** A run: a sound start, and only safe steps. */
  ghost predicate Run(trace: seq<Snap>) {
    trace != [] && (if |trace| == 1 then Sound(trace[0].world) else Run(trace[..|trace| - 1]) && Safe(trace[..|trace| - 1], trace[|trace| - 1]))
  }

  // ---------------------------------------------------------------- evidence lasts

  lemma AcceptedLasts(past: seq<Snap>, longer: seq<Snap>, generation: int, until: int, later: int)
    requires past <= longer && until <= later && AcceptedBy(past, generation, until)
    ensures AcceptedBy(longer, generation, later)
  {
    hide BaseReady;
    var i :| 0 <= i < |past| && past[i].world.now <= until && BaseReady(past[i].world, generation);
    assert longer[i] == past[i];
  }

  lemma CleanedLasts(past: seq<Snap>, longer: seq<Snap>, generation: int, until: int, later: int)
    requires past <= longer && until <= later && CleanedBy(past, generation, until)
    ensures CleanedBy(longer, generation, later)
  {
    hide Cleaned, AcceptedBy;
    var k :| 0 <= k < |past| && past[k].world.now <= until && Cleaned(past[k].world, generation)
             && AcceptedBy(past[..k + 1], generation, past[k].world.now - CUTOVER_DELAY);
    assert longer[k] == past[k] && longer[..k + 1] == past[..k + 1];
  }

  // ---------------------------------------------------------------- whole runs

  lemma {:induction false} EveryStepIsSafe(trace: seq<Snap>, k: nat)
    requires Run(trace) && 0 < k < |trace|
    ensures Safe(trace[..k], trace[k]) && Run(trace[..k])
    decreases |trace|
  {
    hide Safe, Sound;
    if k < |trace| - 1 {
      EveryStepIsSafe(trace[..|trace| - 1], k);
      assert trace[..|trace| - 1][..k] == trace[..k];
    }
  }

  lemma {:induction false} EveryStateIsSound(trace: seq<Snap>, k: nat)
    requires Run(trace) && k < |trace|
    ensures Sound(trace[k].world)
  {
    hide Sound, Monotone, ServicesRule, RolloutRule, DeploymentRule, RouteRule, StatusRule;
    if k > 0 {
      EveryStepIsSafe(trace, k);
    } else {
      StartIsSound(trace);
    }
  }

  lemma {:induction false} StartIsSound(trace: seq<Snap>)
    requires Run(trace)
    ensures Sound(trace[0].world)
  {
    hide Sound, Safe;
    if |trace| > 1 {
      StartIsSound(trace[..|trace| - 1]);
    }
  }

  lemma StepIsMonotone(trace: seq<Snap>, k: nat)
    requires Run(trace) && 0 < k < |trace|
    ensures Monotone(trace[k - 1].world, trace[k].world)
  {
    hide Run, Monotone, Sound, ServicesRule, RolloutRule, DeploymentRule, RouteRule, StatusRule;
    EveryStepIsSafe(trace, k);
    assert trace[..k][k - 1] == trace[k - 1];
  }

  lemma {:induction false} TimeAndRouteAdvance(trace: seq<Snap>, i: nat, j: nat)
    requires Run(trace) && i <= j < |trace|
    ensures trace[i].world.now <= trace[j].world.now
    ensures trace[i].world.route.Some? ==> trace[j].world.route.Some?
                                           && trace[i].world.route.value.generation <= trace[j].world.route.value.generation
    decreases j - i
  {
    hide Run, Established;
    if i < j {
      TimeAndRouteAdvance(trace, i, j - 1);
      StepIsMonotone(trace, j);
    }
  }

  /** A route seen twice at one generation had one set of backends in between. */
  lemma {:induction false} RouteHeld(trace: seq<Snap>, i: nat, j: nat, k: nat)
    requires Run(trace) && i <= j <= k < |trace|
    requires trace[i].world.route.Some? && trace[k].world.route.Some?
    requires trace[i].world.route.value.generation == trace[k].world.route.value.generation
    ensures trace[j].world.route.Some? && trace[j].world.route.value.generation == trace[i].world.route.value.generation
    ensures trace[j].world.route.value.backends == trace[i].world.route.value.backends
    decreases j - i
  {
    hide Run, Established;
    TimeAndRouteAdvance(trace, i, j);
    TimeAndRouteAdvance(trace, j, k);
    if i < j {
      TimeAndRouteAdvance(trace, j - 1, j);
      TimeAndRouteAdvance(trace, i, j - 1);
      RouteHeld(trace, i, j - 1, k);
      StepIsMonotone(trace, j);
    }
  }

  /** From step i up to (but not including) step k the route pointed at the base
      Service at one generation, which was accepted at i. */
  ghost predicate HeldOnBase(trace: seq<Snap>, i: nat, k: nat, generation: int)
    requires i < k <= |trace|
  {
    && BaseReady(trace[i].world, generation)
    && forall j :: i <= j < k ==> OnBase(trace[j].world, generation)
  }

  lemma HeldSince(trace: seq<Snap>, i: nat, k: nat, generation: int)
    requires Run(trace) && i < k <= |trace|
    requires BaseReady(trace[i].world, generation) && OnBase(trace[k - 1].world, generation)
    ensures HeldOnBase(trace, i, k, generation)
  {
    hide Run, RouteReady;
    forall j | i <= j < k ensures OnBase(trace[j].world, generation) {
      RouteHeld(trace, i, j, k - 1);
    }
  }

  /** A progressive Service is removed only after the route has pointed at the
      base Service, at one accepted generation, for the whole cutover delay, and
      in a reconcile that saw the rolling Deployment ready and the route accepted. */
  lemma ServicesOutliveTheCutover(trace: seq<Snap>, k: nat) returns (since: nat, generation: int)
    requires Run(trace) && 0 < k < |trace| && RemovesService(trace[k - 1].world, trace[k].world)
    ensures since < k && HeldOnBase(trace, since, k, generation)
    ensures trace[since].world.now + 15 * SECOND <= trace[k - 1].world.now
    ensures ServingSeen(trace[..k], trace[k].round) && BaseReadySeen(trace[..k], trace[k].round, generation)
  {
    hide Run, Monotone, Sound, BaseReady, RolloutRule, DeploymentRule, RouteRule, StatusRule, HeldOnBase, ServingSeen, BaseReadySeen;
    EveryStepIsSafe(trace, k);
    var past := trace[..k];
    assert past[k - 1] == trace[k - 1];
    generation := trace[k - 1].world.route.value.generation;
    since :| 0 <= since < |past| && past[since].world.now <= trace[k - 1].world.now - CUTOVER_DELAY && BaseReady(past[since].world, generation);
    HeldSince(trace, since, k, generation);
  }

  /** The Rollout is removed only after both progressive Services, a cleanup delay
      after a state without them that came a cutover delay after the acceptance. */
  lemma RolloutOutlivesTheCleanup(trace: seq<Snap>, k: nat) returns (since: nat, cleaned: nat, generation: int)
    requires Run(trace) && 0 < k < |trace| && trace[k - 1].world.rollout.Some? && trace[k].world.rollout.None?
    ensures since <= cleaned < k && HeldOnBase(trace, since, k, generation)
    ensures Cleaned(trace[cleaned].world, generation) && Cleaned(trace[k - 1].world, generation)
    ensures trace[since].world.now + 15 * SECOND <= trace[cleaned].world.now
    ensures trace[cleaned].world.now + 30 * SECOND <= trace[k - 1].world.now
    ensures trace[since].world.now + 45 * SECOND <= trace[k - 1].world.now
    ensures ServingSeen(trace[..k], trace[k].round) && BaseReadySeen(trace[..k], trace[k].round, generation)
    ensures GoneSince(trace, cleaned, k) <==> forall j :: cleaned < j < k ==> !Recreates(trace, j)
  {
    hide Run, Monotone, Sound, BaseReady, AcceptedBy, GoneSince, Recreates, ServicesRule, DeploymentRule, RouteRule, StatusRule, HeldOnBase, ServingSeen, BaseReadySeen;
    EveryStepIsSafe(trace, k);
    var past := trace[..k];
    assert past[k - 1] == trace[k - 1];
    generation := trace[k - 1].world.route.value.generation;
    cleaned :| 0 <= cleaned < |past| && past[cleaned].world.now <= trace[k - 1].world.now - CLEANUP_DELAY && Cleaned(past[cleaned].world, generation)
               && AcceptedBy(past[..cleaned + 1], generation, past[cleaned].world.now - CUTOVER_DELAY);
    since := AcceptedAt(past[..cleaned + 1], generation, past[cleaned].world.now - CUTOVER_DELAY);
    HeldSince(trace, since, k, generation);
    GoneUnlessRecreated(trace, cleaned, k);
  }

  // ---------------------------------------------------------------- how long the Services have been gone

  predicate Gone(w: World) { !w.stable && !w.canary }

  /** Both progressive Services are absent in every state from `c` up to the one before `k`. */
  ghost predicate GoneSince(trace: seq<Snap>, c: nat, k: nat)
    requires k <= |trace|
  {
    c < k && forall j :: c <= j < k ==> Gone(trace[j].world)
  }

  /** A canary reconcile brings a progressive Service back. */
  predicate Recreates(trace: seq<Snap>, j: nat) {
    0 < j < |trace| && trace[j].app.spec.strategy == Canary && RemovesService(trace[j].world, trace[j - 1].world)
  }

  /** Services that are gone stay gone exactly as long as no canary reconcile brings one back. */
  lemma {:induction false} GoneUnlessRecreated(trace: seq<Snap>, c: nat, k: nat)
    requires Run(trace) && c < k <= |trace| && Gone(trace[c].world)
    ensures GoneSince(trace, c, k) <==> forall j :: c < j < k ==> !Recreates(trace, j)
    decreases k
  {
    hide Run, Monotone, Sound, RolloutRule, DeploymentRule, RouteRule, StatusRule;
    if c < k - 1 {
      GoneUnlessRecreated(trace, c, k - 1);
      EveryStepIsSafe(trace, k - 1);
      assert trace[..k - 1][k - 2] == trace[k - 2];
      assert Gone(trace[k - 2].world) ==> (Gone(trace[k - 1].world) <==> !Recreates(trace, k - 1));
      if GoneSince(trace, c, k - 1) {
        assert Gone(trace[k - 2].world);
      }
    }
  }

  /** The Services had been gone for a whole cleanup delay when the Rollout went. */
  ghost predicate GoneForTheDelay(trace: seq<Snap>, k: nat)
    requires 0 < k <= |trace|
  {
    exists c: nat :: GoneSince(trace, c, k) && trace[c].world.now + 30 * SECOND <= trace[k - 1].world.now
  }

  /** The last state before `k` that still has a progressive Service, if one does. */
  lemma {:induction false} LastWithService(trace: seq<Snap>, k: nat) returns (p: int)
    requires k <= |trace|
    ensures -1 <= p < k && (p >= 0 ==> !Gone(trace[p].world)) && forall j :: p < j < k ==> Gone(trace[j].world)
  {
    if k == 0 || !Gone(trace[k - 1].world) {
      p := k - 1;
    } else {
      p := LastWithService(trace, k - 1);
    }
  }

  /** Every removal of a progressive Service lies a whole cleanup delay back. */
  ghost predicate NoLateRemoval(trace: seq<Snap>, k: nat)
    requires 0 < k <= |trace|
  {
    forall j :: 0 < j < k && RemovesService(trace[j - 1].world, trace[j].world) ==> trace[j].world.now + 30 * SECOND <= trace[k - 1].world.now
  }

  lemma FullDelayShows(trace: seq<Snap>, k: nat)
    requires Run(trace) && 0 < k <= |trace| && GoneForTheDelay(trace, k)
    ensures NoLateRemoval(trace, k)
  {
    hide Run;
    var c: nat :| GoneSince(trace, c, k) && trace[c].world.now + 30 * SECOND <= trace[k - 1].world.now;
    forall j | 0 < j < k && RemovesService(trace[j - 1].world, trace[j].world) ensures trace[j].world.now + 30 * SECOND <= trace[k - 1].world.now {
      assert c < j ==> Gone(trace[j - 1].world);
      TimeAndRouteAdvance(trace, j, c);
    }
  }

  lemma NoLateRemovalSuffices(trace: seq<Snap>, k: nat, cleaned: nat)
    requires 0 < k <= |trace| && cleaned < k && Gone(trace[cleaned].world) && Gone(trace[k - 1].world)
    requires trace[cleaned].world.now + 30 * SECOND <= trace[k - 1].world.now && NoLateRemoval(trace, k)
    ensures GoneForTheDelay(trace, k)
  {
    var p := LastWithService(trace, k);
    var c := if p < cleaned then cleaned else p + 1;
    assert cleaned <= p ==> RemovesService(trace[c - 1].world, trace[c].world);
    assert GoneSince(trace, c, k);
  }

  /** The delay is counted in full exactly when no progressive Service was removed
      within it, as one can be that a canary reconcile had brought back. */
  lemma CleanupIsCountedInFull(trace: seq<Snap>, k: nat)
    requires Run(trace) && 0 < k < |trace| && trace[k - 1].world.rollout.Some? && trace[k].world.rollout.None?
    ensures GoneForTheDelay(trace, k) <==> NoLateRemoval(trace, k)
  {
    hide Run, HeldOnBase, ServingSeen, BaseReadySeen, Recreates, GoneForTheDelay, NoLateRemoval, GoneSince;
    var _, cleaned, _ := RolloutOutlivesTheCleanup(trace, k);
    if GoneForTheDelay(trace, k) {
      FullDelayShows(trace, k);
    }
    if NoLateRemoval(trace, k) {
      NoLateRemovalSuffices(trace, k, cleaned);
    }
  }

  lemma AcceptedAt(past: seq<Snap>, generation: int, until: int) returns (i: nat)
    requires AcceptedBy(past, generation, until)
    ensures i < |past| && past[i].world.now <= until && BaseReady(past[i].world, generation)
  {
    hide BaseReady;
    i :| 0 <= i < |past| && past[i].world.now <= until && BaseReady(past[i].world, generation);
  }

  /** Services return only in canary reconciles: between rolling ones they stay gone. */
  lemma {:induction false} ServicesStayGone(trace: seq<Snap>, m: nat, k: nat)
    requires Run(trace) && m <= k < |trace| && !trace[m].world.stable && !trace[m].world.canary
    requires forall j :: m < j <= k ==> trace[j].app.spec.strategy == Rolling
    ensures forall j :: m <= j <= k ==> !trace[j].world.stable && !trace[j].world.canary
    decreases k
  {
    hide Run, Monotone, Sound, RolloutRule, DeploymentRule, RouteRule, StatusRule;
    if m < k {
      ServicesStayGone(trace, m, k - 1);
      EveryStepIsSafe(trace, k);
      assert trace[..k][k - 1] == trace[k - 1];
    }
  }

  /** Once traffic routing was written, no reconcile returns a Rollout to its bootstrap form. */
  lemma {:induction false} RoutingIsKept(trace: seq<Snap>, i: nat, k: nat)
    requires Run(trace) && i <= k < |trace| && Routed(trace[i].world)
    requires forall j :: i <= j <= k ==> trace[j].world.rollout.Some?
    ensures Routed(trace[k].world)
    decreases k
  {
    hide Run, Monotone, Sound, ServicesRule, DeploymentRule, RouteRule, StatusRule;
    if i < k {
      RoutingIsKept(trace, i, k - 1);
      EveryStepIsSafe(trace, k);
      assert trace[..k][k - 1] == trace[k - 1];
    }
  }

  /** Once an active version is recorded there is always one. */
  lemma {:induction false} ActiveVersionLasts(trace: seq<Snap>, i: nat, k: nat)
    requires Run(trace) && i <= k < |trace| && trace[i].world.app.status.activeVersion != ""
    ensures trace[k].world.app.status.activeVersion != ""
    decreases k
  {
    hide Run, Monotone, Sound, ServicesRule, RolloutRule, DeploymentRule, RouteRule;
    if i < k {
      ActiveVersionLasts(trace, i, k - 1);
      EveryStepIsSafe(trace, k);
      assert trace[..k][k - 1] == trace[k - 1];
    }
  }

  /** A Rollout created beside an active version starts without traffic routing
      and gains it in a reconcile that saw it established and the canary route accepted. */
  lemma {:induction false} RoutingAwaitsTheCanaryRoute(trace: seq<Snap>, i: nat, k: nat) returns (j: nat)
    requires Run(trace) && 0 < i <= k < |trace| && trace[i - 1].world.app.status.activeVersion != ""
    requires trace[i - 1].world.rollout.None? && forall l :: i <= l <= k ==> trace[l].world.rollout.Some?
    requires Routed(trace[k].world)
    ensures i < j <= k && !Routed(trace[j - 1].world) && Routed(trace[j].world)
    ensures CanaryReadySeen(trace[..j], trace[j].round) && EstablishedSeen(trace[..j], trace[j].round)
    decreases k
  {
    hide Run, Monotone, Sound, ServicesRule, DeploymentRule, RouteRule, StatusRule, CanaryReadySeen, EstablishedSeen, Routed;
    EveryStepIsSafe(trace, k);
    assert trace[..k][k - 1] == trace[k - 1];
    ActiveVersionLasts(trace, i - 1, k - 1);
    if i == k {
      assert false;
    } else if Routed(trace[k - 1].world) {
      j := RoutingAwaitsTheCanaryRoute(trace, i, k - 1);
    } else {
      j := k;
    }
  }

  /** Nothing ends the hold: no rolling reconcile, and none that saw the canary route accepted. */
  ghost predicate HeldOver(trace: seq<Snap>, i: nat, k: nat)
    requires k < |trace|
  {
    forall l :: i <= l <= k ==> trace[l].world.rollout.Some? && trace[l].app.spec.strategy == Canary && !CanaryReadySeen(trace[..l], trace[l].round)
  }

  /** From the creation of a Rollout beside an active version, until a rolling
      reconcile or one that saw the canary route accepted: the version stays active,
      the Deployment stays at it, and the Rollout is not routed. */
  lemma {:induction false} ServingVersionIsHeld(trace: seq<Snap>, i: nat, k: nat)
    requires Run(trace) && 0 < i <= k < |trace| && trace[i - 1].world.app.status.activeVersion != "" && trace[i - 1].world.rollout.None?
    requires HeldOver(trace, i, k)
    ensures trace[k].world.app.status.activeVersion == trace[i - 1].world.app.status.activeVersion
    ensures AtVersion(trace[k].world.deployment, trace[i - 1].world.app.status.activeVersion) && !Routed(trace[k].world)
    decreases k
  {
    hide Run, Monotone, Sound, ServicesRule, RouteRule, CanaryReadySeen, EstablishedSeen, SettledSeen, AgreedSeen, Routed;
    EveryStepIsSafe(trace, k);
    assert trace[..k][k - 1] == trace[k - 1];
    if i < k {
      ServingVersionIsHeld(trace, i, k - 1);
    }
  }

  /** While it is held, the route is switched to the canary Services only in a
      reconcile that saw the Rollout healthy, and to the base Service not at all. */
  lemma RouteWaitsForTheRollout(trace: seq<Snap>, i: nat, k: nat)
    requires Run(trace) && 0 < i < k < |trace| && trace[i - 1].world.app.status.activeVersion != "" && trace[i - 1].world.rollout.None?
    requires HeldOver(trace, i, k) && trace[k - 1].world.route.Some? && trace[k].world.route.Some?
    ensures UsesBase(trace[k - 1].world.route.value) && UsesCanary(trace[k].world.route.value) ==>
              SettledSeen(trace[..k], trace[k].round) && trace[k - 1].world.stable && trace[k - 1].world.canary
    ensures UsesCanary(trace[k - 1].world.route.value) ==> UsesCanary(trace[k].world.route.value)
  {
    hide Run, Monotone, Sound, ServicesRule, RolloutRule, DeploymentRule, StatusRule, SettledSeen, NoRolloutSeen, ServingSeen;
    EveryStepIsSafe(trace, k);
    assert trace[..k][k - 1] == trace[k - 1];
  }

  /** The last healthy version, digest and revision change only together, in a
      step that reports Healthy for the version that was read, whose reconcile saw
      the workload and its route ready and all ready Pods agree on the digest. */
  lemma {:induction false} HealthyTripleIsReplacedWhole(trace: seq<Snap>, i: nat, k: nat) returns (j: nat)
    requires Run(trace) && i <= k < |trace| && Triple(trace[i].world.app.status) != Triple(trace[k].world.app.status)
    ensures i < j <= k && Triple(trace[j].world.app.status) == Triple(trace[k].world.app.status)
    ensures var s := trace[j].world.app.status;
            && s.phase == Healthy && Holds(s, Ready, True) && AllTrueAt(s, ALL_CONDITIONS, s.observedGeneration)
            && s.activeVersion == trace[j].app.spec.tag && ReleasedFrom(trace[j].app, s.revision)
            && s.observedGeneration == trace[j].app.generation
            && AgreedSeen(trace[..j], trace[j].round, s.digest) && WorkloadSeen(trace[..j], trace[j].round, trace[j].app.spec.strategy)
    decreases k
  {
    hide Run, Monotone, ServicesRule, RolloutRule, DeploymentRule, RouteRule, AllTrueAt, AgreedSeen, WorkloadSeen;
    EveryStepIsSafe(trace, k);
    assert trace[..k][k - 1] == trace[k - 1];
    if Triple(trace[k - 1].world.app.status) == Triple(trace[k].world.app.status) {
      j := HealthyTripleIsReplacedWhole(trace, i, k - 1);
    } else {
      j := k;
    }
  }

  // ---------------------------------------------------------------- statuses of earlier generations

  /** The specification was edited after `g` and up to `k`. */
  predicate Edited(trace: seq<Snap>, g: nat, k: nat)
    requires k < |trace|
  {
    exists j :: g < j <= k && trace[j - 1].world.app.generation < trace[j].world.app.generation
  }

  lemma {:induction false} GenerationTells(trace: seq<Snap>, g: nat, k: nat)
    requires Run(trace) && g <= k < |trace|
    ensures trace[g].world.app.generation <= trace[k].world.app.generation
    ensures trace[g].world.app.generation == trace[k].world.app.generation <==> !Edited(trace, g, k)
    decreases k - g
  {
    hide Run, Established;
    if g < k {
      GenerationTells(trace, g, k - 1);
      StepIsMonotone(trace, k);
    }
  }

  /** A status is written right after a look that found its generation current. It
      is current when it arrives if and only if nobody edited the specification
      since that look, and then it is about the specification there is. */
  lemma StatusIsCurrentUnlessEdited(trace: seq<Snap>, k: nat)
    requires Run(trace) && 0 < k < |trace| && trace[k].world.app.status != trace[k - 1].world.app.status
    ensures k >= 2 && trace[k - 2].round == trace[k].round && trace[k - 2].app == trace[k].app
    ensures trace[k - 2].world.app.generation == trace[k].world.app.status.observedGeneration == trace[k].app.generation
    ensures trace[k].world.app.status.observedGeneration == trace[k].world.app.generation <==> !Edited(trace, k - 2, k)
    ensures trace[k].world.app.status.observedGeneration == trace[k].world.app.generation ==> trace[k].app.spec == trace[k].world.app.spec
  {
    hide Run, Sound, ServicesRule, RolloutRule, DeploymentRule, RouteRule, AgreedSeen, WorkloadSeen, Established;
    EveryStepIsSafe(trace, k);
    assert trace[..k][k - 1] == trace[k - 1];
    assert trace[..k][k - 2] == trace[k - 2];
    GenerationTells(trace, k - 2, k);
    StepIsMonotone(trace, k);
  }
}
