/** What each write of the controller does to the cluster, and why it is a safe step of a run. */
module MigrationSteps {
  import opened Wrappers
  import opened Provenance
  import opened ApplicationStatus
  import opened MigrationRun

  // ---------------------------------------------------------------- effects of the writes

  /** `touched` says that a field outside the model differs as well. */
  function DeploymentAfter(d: Option<Deployment>, tag: string, migration: Option<int>, replicas: int, manageReplicas: bool, touched: bool): (r: Deployment)
    ensures r.tag == tag && r.migration == (if migration.Some? || d.None? then migration else d.value.migration)
    ensures r.replicas == if d.None? || manageReplicas then replicas else d.value.replicas
    ensures d.Some? ==> r.generation >= d.value.generation && (r.generation == d.value.generation <==> r == d.value)
                        && r.available == d.value.available && r.updated == d.value.updated && r.conditions == d.value.conditions
  {
    match d
    case None => Deployment(1, tag, replicas, migration, 0, 0, 0, [])
    case Some(current) =>
      var wanted := current.(tag := tag, replicas := if manageReplicas then replicas else current.replicas,
                         migration := if migration.Some? then migration else current.migration);
      if wanted == current && !touched then current else wanted.(generation := current.generation + 1)
  }

  /** The plugin's weights survive while its step is in progress; otherwise the route is idle. */
  function DesiredBackends(route: Option<Route>, canary: bool): Backends {
    if !canary then BaseService
    else if route.Some? && route.value.inProgress && UsesCanary(route.value) then route.value.backends
    else StableAndCanary(100, 0)
  }

  function RouteAfter(route: Option<Route>, canary: bool, touched: bool): (r: Route)
    ensures UsesCanary(r) <==> canary
    ensures canary && route.Some? && UsesCanary(route.value) && route.value.inProgress ==> r.backends == route.value.backends
    ensures canary && (route.None? || UsesBase(route.value) || !route.value.inProgress) ==> r.backends == StableAndCanary(100, 0)
    ensures route.Some? ==> r.generation >= route.value.generation && r.cutover == route.value.cutover && r.cleanup == route.value.cleanup
                            && (r.generation == route.value.generation ==> r == route.value)
                            && r.inProgress == route.value.inProgress && r.parents == route.value.parents
    ensures route.None? ==> r.cutover.None? && r.cleanup.None? && r.parents == []
  {
    match route
    case None => Route(1, DesiredBackends(route, canary), false, None, None, [])
    case Some(current) =>
      if current.backends == DesiredBackends(route, canary) && !touched then current
      else current.(generation := current.generation + 1, backends := DesiredBackends(route, canary))
  }

  /** Writing the route never gives the canary more traffic. */
  lemma WritesRaiseNoWeight(route: Option<Route>, canary: bool, touched: bool)
    ensures CanaryWeight(Some(RouteAfter(route, canary, touched))) <= CanaryWeight(route)
  {
    hide RouteAfter;
  }

  /** A held Rollout has no steps and no traffic routing; writing the spec also lifts a pause. */
  function RolloutAfter(rollout: Option<Rollout>, spec: Spec, hold: bool, touched: bool): (r: Rollout)
    ensures (r.trafficRouting <==> !hold) && (r.pinned <==> hold) && !r.paused && r.steps == if hold then 0 else spec.steps
    ensures rollout.None? ==> r.stableRS == "" && r.available == 0 && !r.abort
    ensures rollout.Some? ==> r.available == rollout.value.available && r.phase == rollout.value.phase && r.abort == rollout.value.abort
    ensures rollout.Some? ==> (r.generation == rollout.value.generation ==> r == rollout.value) && r.stableRS == rollout.value.stableRS && r.generation >= rollout.value.generation
  {
    match rollout
    case None => Rollout(1, !hold, if hold then 0 else spec.steps, false, hold, 0, RolloutOther, "", 0, false, false)
    case Some(current) =>
      var wanted := current.(trafficRouting := !hold, steps := if hold then 0 else spec.steps, paused := false, pinned := hold);
      if wanted == current && !touched then current else wanted.(generation := current.generation + 1)
  }

  function Frozen(rollout: Rollout): (r: Rollout)
    ensures r.stableRS == rollout.stableRS && r.trafficRouting == rollout.trafficRouting && r.steps == rollout.steps && r.paused && r.pinned
    ensures r.generation >= rollout.generation && (r.generation == rollout.generation <==> r == rollout)
  {
    if rollout.paused && rollout.pinned then rollout
    else rollout.(paused := true, pinned := true, generation := rollout.generation + 1)
  }

  /** A created object has generation 1 and no status yet. */
  lemma CreatedIsNew(tag: string, migration: Option<int>, replicas: int, manage: bool, canary: bool, spec: Spec, hold: bool, touched: bool)
    ensures DeploymentAfter(None, tag, migration, replicas, manage, touched) == Deployment(1, tag, replicas, migration, 0, 0, 0, [])
    ensures RouteAfter(None, canary, touched) == Route(1, if canary then StableAndCanary(100, 0) else BaseService, false, None, None, [])
    ensures var r := RolloutAfter(None, spec, hold, touched);
            r.generation == 1 && r.observedGeneration == 0 && r.available == 0 && r.phase == RolloutOther && !r.inconclusive
  {
  }

  /** A write counts one generation, exactly when it changes a field of the model or outside it. */
  lemma WritesCountGenerations(d: Deployment, route: Route, rollout: Rollout, tag: string, migration: Option<int>, replicas: int, manage: bool, canary: bool,
                               spec: Spec, hold: bool, touched: bool)
    ensures var r := DeploymentAfter(Some(d), tag, migration, replicas, manage, touched);
            r.generation == d.generation + if touched || r.tag != d.tag || r.replicas != d.replicas || r.migration != d.migration then 1 else 0
    ensures var r := RouteAfter(Some(route), canary, touched); r.generation == route.generation + if touched || r.backends != route.backends then 1 else 0
    ensures var r := RolloutAfter(Some(rollout), spec, hold, touched);
            var same := rollout.trafficRouting == !hold && rollout.steps == (if hold then 0 else spec.steps) && !rollout.paused && rollout.pinned == hold;
            r.generation == rollout.generation + if touched || !same then 1 else 0
    ensures Frozen(rollout).generation == rollout.generation + if rollout.paused && rollout.pinned then 0 else 1
  {
    hide DesiredBackends;
  }

  datatype Drain = Cutover | Cleanup

  function Delay(drain: Drain): int { if drain.Cutover? then CUTOVER_DELAY else CLEANUP_DELAY }

  function MarkOf(route: Route, drain: Drain): Option<Mark> { if drain.Cutover? then route.cutover else route.cleanup }

  function WithMark(route: Route, drain: Drain, mark: Mark): Route {
    if drain.Cutover? then route.(cutover := Some(mark)) else route.(cleanup := Some(mark))
  }

  /** How long a mark of the route's own generation still has to run; None when there is no such mark. */
  function RouteDrainRemaining(route: Route, drain: Drain, now: int): (r: Option<int>)
    ensures r.Some? <==> MarkOf(route, drain).Some? && MarkOf(route, drain).value.generation == route.generation
    ensures r.Some? ==> r.value >= 0 && (r.value == 0 <==> MarkOf(route, drain).value.at + Delay(drain) <= now)
  {
    var mark := MarkOf(route, drain);
    if mark.None? || mark.value.generation != route.generation then None
    else
      var remaining := Delay(drain) - (now - mark.value.at);
      Some(if remaining < 0 then 0 else remaining)
  }

  /** The drain has not run out: it has not begun for this generation of the route, or is still running. */
  predicate Undrained(w: World, drain: Drain, generation: int) {
    && w.route.Some? && w.route.value.generation == generation
    && var remaining := RouteDrainRemaining(w.route.value, drain, w.now);
       remaining.None? || remaining.value > 0
  }

  // ---------------------------------------------------------------- what the marks of the current route prove

  ghost predicate CutoverMarkHonest(trace: seq<Snap>, r: Route) {
    r.cutover.Some? ==>
      && r.cutover.value.generation <= r.generation
      && (r.cutover.value.generation == r.generation ==> AcceptedBy(trace, r.generation, r.cutover.value.at))
  }

  ghost predicate CleanupMarkHonest(trace: seq<Snap>, r: Route) {
    r.cleanup.Some? ==>
      && r.cleanup.value.generation <= r.generation
      && (r.cleanup.value.generation == r.generation ==> CleanedBy(trace, r.generation, r.cleanup.value.at))
  }

  ghost predicate MarksHonest(trace: seq<Snap>, route: Option<Route>) {
    route.Some? ==> CutoverMarkHonest(trace, route.value) && CleanupMarkHonest(trace, route.value)
  }

  lemma MarksStayHonest(past: seq<Snap>, longer: seq<Snap>, before: Option<Route>, after: Option<Route>)
    requires MarksHonest(past, before) && past <= longer
    requires before.Some? && after.Some? ==> after.value.generation >= before.value.generation
                                             && after.value.cutover == before.value.cutover && after.value.cleanup == before.value.cleanup
    requires before.None? && after.Some? ==> after.value.cutover.None? && after.value.cleanup.None?
    ensures MarksHonest(longer, after)
  {
    hide AcceptedBy, CleanedBy;
    if before.Some? && after.Some? {
      var r := after.value;
      if r.cutover.Some? && r.cutover.value.generation == r.generation {
        AcceptedLasts(past, longer, r.generation, r.cutover.value.at, r.cutover.value.at);
      }
      if r.cleanup.Some? && r.cleanup.value.generation == r.generation {
        CleanedLasts(past, longer, r.generation, r.cleanup.value.at, r.cleanup.value.at);
      }
    }
  }

  lemma NewMarkIsHonest(past: seq<Snap>, longer: seq<Snap>, route: Route, drain: Drain, at: int)
    requires MarksHonest(past, Some(route)) && past <= longer
    requires if drain.Cutover? then AcceptedBy(longer, route.generation, at) else CleanedBy(longer, route.generation, at)
    ensures MarksHonest(longer, Some(WithMark(route, drain, Mark(route.generation, at))))
  {
    hide AcceptedBy, CleanedBy;
    MarksStayHonest(past, longer, Some(route), Some(route));
  }

  // ---------------------------------------------------------------- who takes a step

  /** Every step is a write of the controller, at one of `writes`, or a change by others. */
  ghost predicate Attributed(trace: seq<Snap>, writes: set<nat>) {
    (forall k <- writes :: k < |trace|) && forall k :: 0 < k < |trace| ==>
      if k in writes then CanaryWeight(trace[k].world.route) <= CanaryWeight(trace[k - 1].world.route)
      else Drift(trace[k - 1].world, trace[k].world)
  }

  lemma WriteIsAttributed(trace: seq<Snap>, writes: set<nat>, next: Snap)
    requires trace != [] && Attributed(trace, writes) && CanaryWeight(next.world.route) <= CanaryWeight(trace[|trace| - 1].world.route)
    ensures Attributed(trace + [next], writes + {|trace|})
  {
    hide Drift;
    assert forall k :: 0 <= k < |trace| ==> (trace + [next])[k] == trace[k];
  }

  lemma DriftIsAttributed(trace: seq<Snap>, writes: set<nat>, next: Snap)
    requires trace != [] && Attributed(trace, writes) && Drift(trace[|trace| - 1].world, next.world)
    ensures Attributed(trace + [next], writes)
  {
    hide Drift;
    assert forall k :: 0 <= k < |trace| ==> (trace + [next])[k] == trace[k];
  }

  /** The canary gets more traffic only where others change weights of a route that
      already has both backends, and never by a write of the controller. */
  lemma OnlyThePluginRaisesWeight(trace: seq<Snap>, writes: set<nat>, k: nat)
    requires Attributed(trace, writes) && 0 < k < |trace|
    requires CanaryWeight(trace[k - 1].world.route) < CanaryWeight(trace[k].world.route)
    ensures k !in writes && Drift(trace[k - 1].world, trace[k].world)
    ensures trace[k - 1].world.route.Some? && UsesCanary(trace[k - 1].world.route.value)
  {
  }

  // ---------------------------------------------------------------- evidence of one observation

  /** What one state of a reconcile shows is seen by it from then on. */
  lemma Witness(trace: seq<Snap>, s: Snap)
    requires s in trace
    ensures Serving(s) ==> ServingSeen(trace, s.round)
    ensures CanaryReady(s.world) ==> CanaryReadySeen(trace, s.round)
    ensures Settled(s.world, s.app.spec.minReplicas) ==> SettledSeen(trace, s.round)
    ensures s.world.rollout.None? ==> NoRolloutSeen(trace, s.round)
    ensures Established(s.world) ==> EstablishedSeen(trace, s.round)
  {
    hide Serving, CanaryReady, Settled, Established;
    var i :| 0 <= i < |trace| && trace[i] == s;
  }

  lemma WitnessBase(trace: seq<Snap>, s: Snap, generation: int)
    requires s in trace && BaseReady(s.world, generation)
    ensures BaseSeen(trace, s.round) && BaseReadySeen(trace, s.round, generation) && AcceptedBy(trace, generation, s.world.now)
  {
    hide RouteReady;
    var i :| 0 <= i < |trace| && trace[i] == s;
  }

  lemma SeenLasts(past: seq<Snap>, longer: seq<Snap>, round: nat)
    requires past <= longer
    ensures ServingSeen(past, round) ==> ServingSeen(longer, round)
    ensures CanaryReadySeen(past, round) ==> CanaryReadySeen(longer, round)
    ensures SettledSeen(past, round) ==> SettledSeen(longer, round)
    ensures NoRolloutSeen(past, round) ==> NoRolloutSeen(longer, round)
    ensures EstablishedSeen(past, round) ==> EstablishedSeen(longer, round)
    ensures BaseSeen(past, round) ==> BaseSeen(longer, round)
  {
    hide Serving, CanaryReady, Settled, Established, BaseReady;
    assert forall i :: 0 <= i < |past| ==> longer[i] == past[i];
  }

  lemma BaseReadySeenLasts(past: seq<Snap>, longer: seq<Snap>, round: nat, generation: int)
    requires past <= longer && BaseReadySeen(past, round, generation)
    ensures BaseReadySeen(longer, round, generation)
  {
    hide BaseReady;
    assert forall i :: 0 <= i < |past| ==> longer[i] == past[i];
  }

  lemma AgreedSeenLasts(past: seq<Snap>, longer: seq<Snap>, round: nat, digest: string)
    requires past <= longer && AgreedSeen(past, round, digest)
    ensures AgreedSeen(longer, round, digest)
  {
    hide Agree;
    assert forall i :: 0 <= i < |past| ==> longer[i] == past[i];
  }

  /** The route is on the base Service, accepted, and has been for the cutover
      delay; this reconcile saw it so, and saw the Deployment serve. */
  ghost predicate CutOver(trace: seq<Snap>, w: World, round: nat, generation: int) {
    && OnBase(w, generation) && ServingSeen(trace, round) && BaseReadySeen(trace, round, generation)
    && AcceptedBy(trace, generation, w.now - CUTOVER_DELAY)
  }

  lemma CutOverLasts(past: seq<Snap>, longer: seq<Snap>, w: World, v: World, round: nat, generation: int)
    requires CutOver(past, w, round, generation) && past <= longer && w.now <= v.now && RouteDrift(w.route, v.route)
    ensures CutOver(longer, v, round, generation)
  {
    hide ServingSeen, BaseReadySeen, AcceptedBy;
    SeenLasts(past, longer, round);
    BaseReadySeenLasts(past, longer, round, generation);
    AcceptedLasts(past, longer, generation, w.now - CUTOVER_DELAY, v.now - CUTOVER_DELAY);
  }

  /** The versions a reconcile may put on the Deployment. */
  ghost predicate MayDeploy(trace: seq<Snap>, w: World, round: nat, spec: Spec, tag: string) {
    if spec.strategy == Canary && w.app.status.activeVersion != "" && tag != w.app.status.activeVersion then
      tag == spec.tag && EstablishedSeen(trace, round) && (CanaryReadySeen(trace, round) || Routed(w))
    else tag == spec.tag || tag == w.app.status.activeVersion
  }

  /** The form of the Rollout a reconcile may write. */
  ghost predicate MayRoll(trace: seq<Snap>, w: World, round: nat, hold: bool) {
    if hold then !Routed(w)
    else
      || w.app.status.activeVersion == ""
      || (Established(w) && EstablishedSeen(trace, round) && (CanaryReadySeen(trace, round) || Routed(w)))
  }

  /** Beside an active version a Rollout is created only with the Deployment at that version. */
  predicate Backed(w: World) { w.rollout.None? && w.app.status.activeVersion != "" ==> AtVersion(w.deployment, w.app.status.activeVersion) }

  lemma BackedLasts(w: World, v: World)
    requires Backed(w) && v.app.status == w.app.status && (v.rollout.None? ==> w.rollout.None?) && DeploymentDrift(w.deployment, v.deployment)
    ensures Backed(v)
  {
  }

  lemma PermissionsLast(past: seq<Snap>, longer: seq<Snap>, w: World, v: World, round: nat, spec: Spec, tag: string, hold: bool)
    requires past <= longer && w.app.status == v.app.status && RolloutDrift(w.rollout, v.rollout)
    ensures MayDeploy(past, w, round, spec, tag) ==> MayDeploy(longer, v, round, spec, tag)
    ensures MayRoll(past, w, round, hold) ==> MayRoll(longer, v, round, hold)
  {
    hide EstablishedSeen, CanaryReadySeen;
    SeenLasts(past, longer, round);
  }

  // ---------------------------------------------------------------- every write is a safe step

  lemma DriftIsSafe(past: seq<Snap>, next: Snap)
    requires past != [] && Sound(past[|past| - 1].world) && Drift(past[|past| - 1].world, next.world)
    ensures Safe(past, next)
  {
    hide Coherent, ServingSeen, BaseReadySeen, CanaryReadySeen, SettledSeen, NoRolloutSeen, EstablishedSeen, AcceptedBy, CleanedBy, WorkloadSeen, AgreedSeen;
  }

  lemma DeploymentWriteIsSafe(past: seq<Snap>, next: Snap)
    requires past != [] && Sound(past[|past| - 1].world)
    requires next.world == past[|past| - 1].world.(deployment := next.world.deployment) && DeploymentRule(past, past[|past| - 1].world, next)
    ensures Safe(past, next)
  {
    hide Coherent, DeploymentRule, ServingSeen, BaseReadySeen, CanaryReadySeen, SettledSeen, NoRolloutSeen, EstablishedSeen, AcceptedBy, CleanedBy, WorkloadSeen, AgreedSeen;
  }

  lemma ServiceWriteIsSafe(past: seq<Snap>, next: Snap)
    requires past != [] && Sound(past[|past| - 1].world)
    requires next.world == past[|past| - 1].world.(service := next.world.service)
             || (next.world == past[|past| - 1].world.(stable := true) && next.app.spec.strategy == Canary)
             || (next.world == past[|past| - 1].world.(canary := true) && next.app.spec.strategy == Canary)
    ensures Safe(past, next)
  {
    hide Coherent, ServingSeen, BaseReadySeen, CanaryReadySeen, SettledSeen, NoRolloutSeen, EstablishedSeen, AcceptedBy, CleanedBy, WorkloadSeen, AgreedSeen;
  }

  lemma RolloutWriteIsSafe(past: seq<Snap>, next: Snap)
    requires past != [] && Sound(past[|past| - 1].world) && next.world == past[|past| - 1].world.(rollout := next.world.rollout)
    requires var w := past[|past| - 1].world;
             && (Established(w) && next.world.rollout.Some? ==> Established(next.world))
             && (Routed(next.world) && !Established(next.world) ==> w.app.status.activeVersion == "")
    requires RolloutRule(past, past[|past| - 1].world, next)
    ensures Safe(past, next)
  {
    hide Coherent, RolloutRule, ServingSeen, BaseReadySeen, CanaryReadySeen, SettledSeen, NoRolloutSeen, EstablishedSeen, AcceptedBy, CleanedBy, WorkloadSeen, AgreedSeen;
  }

  lemma RouteWriteIsSafe(past: seq<Snap>, next: Snap)
    requires past != [] && Sound(past[|past| - 1].world) && next.world == past[|past| - 1].world.(route := next.world.route)
    requires next.world.route.Some? && (UsesCanary(next.world.route.value) ==> next.world.stable && next.world.canary)
    requires var before := past[|past| - 1].world.route;
             before.Some? ==>
               && next.world.route.value.generation >= before.value.generation
               && (next.world.route.value.generation == before.value.generation ==> next.world.route.value.backends == before.value.backends)
    requires RouteRule(past, past[|past| - 1].world, next)
    ensures Safe(past, next)
  {
    hide Coherent, RouteRule, ServingSeen, BaseReadySeen, CanaryReadySeen, SettledSeen, NoRolloutSeen, EstablishedSeen, AcceptedBy, CleanedBy, WorkloadSeen, AgreedSeen;
  }

  lemma ServiceRemovalIsSafe(past: seq<Snap>, next: Snap, generation: int)
    requires past != [] && Sound(past[|past| - 1].world) && CutOver(past, past[|past| - 1].world, next.round, generation)
    requires next.world == past[|past| - 1].world.(stable := false) || next.world == past[|past| - 1].world.(canary := false)
    ensures Safe(past, next)
  {
    hide Coherent, ServingSeen, BaseReadySeen, CanaryReadySeen, SettledSeen, NoRolloutSeen, EstablishedSeen, AcceptedBy, CleanedBy, WorkloadSeen, AgreedSeen;
  }

  lemma StatusWriteIsSafe(past: seq<Snap>, next: Snap)
    requires past != [] && Sound(past[|past| - 1].world)
    requires next.world == past[|past| - 1].world.(app := past[|past| - 1].world.app.(status := next.world.app.status))
    requires Coherent(next.world.app.status) && StatusRule(past, past[|past| - 1].world, next)
    requires Routed(next.world) && !Established(next.world) ==> next.world.app.status.activeVersion == ""
    ensures Safe(past, next)
  {
    hide Coherent, StatusRule, ServingSeen, BaseReadySeen, CanaryReadySeen, SettledSeen, NoRolloutSeen, EstablishedSeen, AcceptedBy, CleanedBy;
  }

  lemma RunGrows(trace: seq<Snap>, next: Snap)
    requires Run(trace) && Safe(trace, next)
    ensures Run(trace + [next])
  {
    hide Safe, Sound;
    assert (trace + [next])[..|trace|] == trace;
  }

  lemma LastIsSound(trace: seq<Snap>)
    requires Run(trace)
    ensures Sound(trace[|trace| - 1].world)
  {
    hide Sound;
    EveryStateIsSound(trace, |trace| - 1);
  }
}
