/** The delays of a migration are reached, and what they do not promise: runs of the
    reconciler step by step, with its own drain marks. States that only repeat the one
    before are left out, and each reconcile stops before its report. */
module MigrationBounds {
  import opened Wrappers
  import opened ApplicationStatus
  import opened MigrationRun
  import opened MigrationSteps
  import opened StrategyMigration

  // ---------------------------------------------------------------- what the reconciler does to a state it has just read

  /** A drain is marked when the route has no mark of its own generation. */
  predicate Marks(w: World, v: World, drain: Drain) {
    && w.route.Some? && RouteDrainRemaining(w.route.value, drain, w.now).None?
    && v == w.(route := Some(WithMark(w.route.value, drain, Mark(w.route.value.generation, w.now))))
  }

  ghost predicate Drained(w: World, drain: Drain) {
    w.route.Some? && UsesBase(w.route.value) && RouteReady(w.route.value) && RouteDrainRemaining(w.route.value, drain, w.now) == Some(0)
  }

  ghost predicate RollingCall(w: World, v: World, app: App) {
    || Paused(w, v)
    || Deployed(w, v, app.spec.tag, Some(app.generation), app.spec.minReplicas, true)
    || v == w.(service := Some(Some(app.generation)))
    || (Serving(Snap(w, 0, app)) && w.route.Some? && UsesBase(w.route.value) && RouteReady(w.route.value) && Marks(w, v, Cutover))
    || (Serving(Snap(w, 0, app)) && Drained(w, Cutover) && (v == w.(stable := false) || (!w.stable && v == w.(canary := false))))
    || (Serving(Snap(w, 0, app)) && Drained(w, Cutover) && !w.stable && !w.canary && Marks(w, v, Cleanup))
    || (Serving(Snap(w, 0, app)) && Drained(w, Cutover) && Drained(w, Cleanup) && !w.stable && !w.canary && v == w.(rollout := None))
  }

  ghost predicate CanaryCall(w: World, v: World, app: App) {
    var hold := app.status.activeVersion != "" && !TakesOver(w, w);
    || Deployed(w, v, if hold then app.status.activeVersion else app.spec.tag, None, app.spec.minReplicas, hold && w.rollout.None?)
    || v == w.(service := Some(None))
    || v == w.(stable := true) || (w.stable && v == w.(canary := true))
    || (w.stable && w.canary && Rolled(w, v, app.spec, hold))
    || (Settled(w, app.spec.minReplicas) && RoutedTo(w, v, true))
  }

  ghost predicate Taken(w: World, next: Snap) {
    Drift(w, next.world) || if next.app.spec.strategy == Rolling then RollingCall(w, next.world, next.app) else CanaryCall(w, next.world, next.app)
  }

  /** A safe run of such calls, whose marks are truthful in every state. */
  ghost predicate Credible(trace: seq<Snap>) {
    && Run(trace)
    && (forall k :: 0 < k < |trace| ==> Taken(trace[k - 1].world, trace[k]))
    && (forall k :: 0 <= k < |trace| ==> MarksHonest(trace[..k + 1], trace[k].world.route))
  }

  lemma Follow(trace: seq<Snap>, next: Snap) returns (longer: seq<Snap>)
    requires Credible(trace) && trace != [] && Safe(trace, next)
    requires Taken(trace[|trace| - 1].world, next) && MarksHonest(trace + [next], next.world.route)
    ensures Credible(longer) && longer == trace + [next] && Sound(next.world)
  {
    hide Run, Safe, Taken, MarksHonest, Sound;
    RunGrows(trace, next);
    longer := trace + [next];
    EveryStateIsSound(longer, |trace|);
    forall k | 0 <= k < |longer| ensures MarksHonest(longer[..k + 1], longer[k].world.route) {
      if k < |trace| {
        assert longer[..k + 1] == trace[..k + 1];
      } else {
        assert longer[..k + 1] == longer;
      }
    }
  }

  lemma CredibleMeans(trace: seq<Snap>)
    requires Credible(trace)
    ensures Run(trace)
  {
    hide Run, Taken, MarksHonest;
  }

  /** A step that leaves the marks alone. */
  lemma Keep(trace: seq<Snap>, next: Snap) returns (longer: seq<Snap>)
    requires Credible(trace) && trace != [] && Safe(trace, next) && Taken(trace[|trace| - 1].world, next)
    requires next.world.route == trace[|trace| - 1].world.route
    ensures Credible(longer) && longer == trace + [next] && Sound(next.world)
  {
    hide Run, Safe, Taken, MarksHonest, Sound;
    assert trace[..|trace|] == trace;
    MarksStayHonest(trace, trace + [next], next.world.route, next.world.route);
    longer := Follow(trace, next);
  }

  lemma Wait(trace: seq<Snap>, next: Snap) returns (longer: seq<Snap>)
    requires Credible(trace) && trace != [] && Drift(trace[|trace| - 1].world, next.world) && next.world.route == trace[|trace| - 1].world.route
    ensures Credible(longer) && longer == trace + [next] && Sound(next.world)
  {
    hide Run, Safe, Drift, MarksHonest, Sound, RollingCall, CanaryCall;
    LastIsSound(trace);
    DriftIsSafe(trace, next);
    longer := Keep(trace, next);
  }

  // ---------------------------------------------------------------- 45 seconds

  const ACCEPTANCE := Some(ParentCondition(True, 1))
  const APP := App(1, Spec(Rolling, "registry", "v1", 0, false, 0, false, false, false, true), None, Status(Progressing, 1, "v1", "", "", "", map[]))
  const ROUTE := Route(1, BaseService, false, None, None, [Parent(true, ACCEPTANCE, ACCEPTANCE)])
  const MARK := WithMark(ROUTE, Cutover, Mark(1, 0))
  const MARKS := WithMark(MARK, Cleanup, Mark(1, CUTOVER_DELAY))
  const DEPLOYMENT := Deployment(1, "v1", 0, Some(1), 1, 0, 0, [Available(true)])
  const ROLLOUT := Rollout(1, false, 0, true, true, 1, RolloutHealthyPhase, "stable", 0, false, false)

  const START := World(0, APP, Some(DEPLOYMENT), Some(Some(1)), true, true, Some(ROUTE), Some(ROLLOUT), [], Checks(true, true, true))
  const BEGUN := START.(route := Some(MARK))
  const CUT := BEGUN.(now := CUTOVER_DELAY)
  const HALF := CUT.(stable := false)
  const CLEAN := HALF.(canary := false)
  const NOTED := CLEAN.(route := Some(MARKS))
  const DRAINED := NOTED.(now := CUTOVER_DELAY + CLEANUP_DELAY)
  const DONE := DRAINED.(rollout := None)

  const SHARED := [Snap(START, 0, APP), Snap(START, 1, APP), Snap(BEGUN, 1, APP), Snap(CUT, 2, APP), Snap(HALF, 2, APP), Snap(CLEAN, 2, APP), Snap(NOTED, 2, APP)]
  const FASTEST := SHARED + [Snap(DRAINED, 3, APP), Snap(DONE, 3, APP)]

  /** The route is accepted at 0 s, the Services go at 15 s and the Rollout at 45 s. */
  lemma BoundsAreReached()
    ensures Credible(FASTEST) && BaseReady(FASTEST[0].world, 1)
    ensures FASTEST[3].world.stable && FASTEST[3].world.canary && !FASTEST[5].world.stable && !FASTEST[5].world.canary
    ensures FASTEST[5].world.now == FASTEST[0].world.now + 15 * SECOND
    ensures FASTEST[7].world.rollout.Some? && FASTEST[8].world.rollout.None? && FASTEST[8].world.now == FASTEST[0].world.now + 45 * SECOND
    ensures Drained(FASTEST[3].world, Cutover) && Drained(FASTEST[7].world, Cutover) && Drained(FASTEST[7].world, Cleanup)
  {
    hide Credible, Drift, CutOver, CleanedBy, ServingSeen, BaseReadySeen, Serving, RollingCall, RouteReady;
    var trace := TheServicesGo();
    Facts();
    assert Drift(NOTED, DRAINED) by { Waiting(); }
    trace := Wait(trace, Snap(DRAINED, 3, APP));
    Seen(trace, 3, 7);
    assert Taken(DRAINED, Snap(DONE, 3, APP)) by { Calls(); }
    assert trace[5] == Snap(CLEAN, 2, APP);
    CleanAt(trace);
    RolloutRemovalIsSafe(trace, Snap(DONE, 3, APP), 1);
    trace := Keep(trace, Snap(DONE, 3, APP));
    assert trace == FASTEST;
    Remaining();
  }

  /** The first 15 seconds. */
  lemma TheServicesGo() returns (trace: seq<Snap>)
    ensures Credible(trace) && trace == SHARED
  {
    hide Run, Safe, Drift, CutOver, CleanedBy, AcceptedBy, ServingSeen, BaseReadySeen, Taken, MarksHonest, Sound, Serving, BaseReady;
    trace := [Snap(START, 0, APP)];
    StartAlone();
    Waiting();
    Facts();
    Calls();
    trace := Wait(trace, Snap(START, 1, APP));
    trace := CutoverIsMarked(trace);
    trace := Wait(trace, Snap(CUT, 2, APP));
    Seen(trace, 2, 3);
    ServiceRemovalIsSafe(trace, Snap(HALF, 2, APP), 1);
    trace := Keep(trace, Snap(HALF, 2, APP));
    Seen(trace, 2, 3);
    ServiceRemovalIsSafe(trace, Snap(CLEAN, 2, APP), 1);
    trace := Keep(trace, Snap(CLEAN, 2, APP));
    trace := CleanupIsMarked(trace);
    assert trace == SHARED;
  }

  lemma CutoverIsMarked(trace: seq<Snap>) returns (longer: seq<Snap>)
    requires Credible(trace) && trace == [Snap(START, 0, APP), Snap(START, 1, APP)]
    ensures Credible(longer) && longer == trace + [Snap(BEGUN, 1, APP)]
  {
    hide Run, Safe, Taken, MarksHonest, Sound, BaseReady, AcceptedBy, CleanedBy;
    Facts();
    Calls();
    var next := Snap(BEGUN, 1, APP);
    assert Sound(START) by { LastIsSound(trace); }
    RouteWriteIsSafe(trace, next);
    assert trace[..2] == trace && MarksHonest(trace[..2], trace[1].world.route);
    assert AcceptedBy(trace + [next], 1, 0) by { WitnessBase(trace + [next], trace[0], 1); assert (trace + [next])[0] == trace[0]; }
    NewMarkIsHonest(trace, trace + [next], ROUTE, Cutover, 0);
    longer := Follow(trace, next);
  }

  lemma CleanupIsMarked(trace: seq<Snap>) returns (longer: seq<Snap>)
    requires Credible(trace) && |trace| == 6 && trace[0] == Snap(START, 0, APP) && trace[5] == Snap(CLEAN, 2, APP)
    ensures Credible(longer) && longer == trace + [Snap(NOTED, 2, APP)]
  {
    hide Run, Safe, Taken, MarksHonest, Sound, BaseReady, AcceptedBy, CleanedBy;
    Facts();
    Calls();
    var next := Snap(NOTED, 2, APP);
    assert Sound(CLEAN) by { LastIsSound(trace); }
    RouteWriteIsSafe(trace, next);
    assert trace[..6] == trace && MarksHonest(trace[..6], trace[5].world.route);
    CleanAt(trace + [next]);
    NewMarkIsHonest(trace, trace + [next], MARK, Cleanup, CUTOVER_DELAY);
    longer := Follow(trace, next);
  }

  lemma StartAlone()
    ensures Credible([Snap(START, 0, APP)])
  {
  }

  lemma Waiting()
    ensures Drift(START, START) && Drift(BEGUN, CUT) && Drift(NOTED, DRAINED)
  {
  }

  lemma OneParentAdmits(route: Route)
    requires |route.parents| == 1 && Admits(route.parents[0], route.generation)
    ensures RouteReady(route)
  {
  }

  lemma Facts()
    ensures BaseReady(START, 1) && BaseReady(CUT, 1) && BaseReady(DRAINED, 1) && Cleaned(CLEAN, 1)
    ensures Serving(Snap(CUT, 2, APP)) && Serving(Snap(DRAINED, 3, APP))
  {
    OneParentAdmits(START.route.value);
    OneParentAdmits(CUT.route.value);
    OneParentAdmits(DRAINED.route.value);
  }

  lemma Calls()
    ensures Taken(START, Snap(BEGUN, 1, APP)) && Taken(CUT, Snap(HALF, 2, APP)) && Taken(HALF, Snap(CLEAN, 2, APP))
    ensures Taken(CLEAN, Snap(NOTED, 2, APP)) && Taken(DRAINED, Snap(DONE, 3, APP))
  {
    hide Drift;
    OneParentAdmits(ROUTE);
    OneParentAdmits(MARK);
    OneParentAdmits(MARKS);
    Remaining();
  }

  /** The marks have run out at 15 and 45 seconds. */
  lemma Remaining()
    ensures RouteDrainRemaining(MARK, Cutover, CUTOVER_DELAY) == Some(0) && RouteDrainRemaining(MARK, Cleanup, CUTOVER_DELAY) == None
    ensures RouteDrainRemaining(MARKS, Cutover, CUTOVER_DELAY + CLEANUP_DELAY) == Some(0)
    ensures RouteDrainRemaining(MARKS, Cleanup, CUTOVER_DELAY + CLEANUP_DELAY) == Some(0)
  {
  }

  /** With what its reconcile saw at k the cutover is done in the last state. */
  lemma Seen(trace: seq<Snap>, round: nat, k: nat)
    requires k < |trace| && trace[0] == Snap(START, 0, APP) && trace[k].round == round && Serving(trace[k]) && BaseReady(trace[k].world, 1)
    requires OnBase(trace[|trace| - 1].world, 1) && trace[|trace| - 1].world.now >= CUTOVER_DELAY
    ensures CutOver(trace, trace[|trace| - 1].world, round, 1)
  {
    hide Serving, RouteReady;
    assert BaseReady(START, 1) by { Facts(); }
  }

  /** The Services were gone at 15 s. */
  lemma CleanAt(trace: seq<Snap>)
    requires |trace| > 5 && trace[0] == Snap(START, 0, APP) && trace[5] == Snap(CLEAN, 2, APP)
    ensures CleanedBy(trace, 1, CUTOVER_DELAY)
  {
    hide BaseReady, Cleaned;
    Facts();
    assert trace[..6][0] == trace[0];
    assert AcceptedBy(trace[..6], 1, 0);
  }

  // ---------------------------------------------------------------- a migration that is reverted and repeated

  const CANARY_APP := APP.(generation := 2, spec := APP.spec.(strategy := Canary, steps := 1))
  const BACK_APP := APP.(generation := 3)

  const FLIPPED := DRAINED.(app := CANARY_APP)
  const RESELECTED := FLIPPED.(service := Some(None))
  const ONE_BACK := RESELECTED.(stable := true)
  const BOTH_BACK := ONE_BACK.(canary := true)
  const HELD := BOTH_BACK.(rollout := Some(ROLLOUT.(generation := 2, paused := false)))
  const REVERTED := HELD.(app := BACK_APP)
  const FROZEN := REVERTED.(rollout := Some(ROLLOUT.(generation := 3)))
  const ISOLATED := FROZEN.(deployment := Some(DEPLOYMENT.(generation := 2, migration := Some(3))))
  const SELECTED := ISOLATED.(service := Some(Some(3)))
  const READY := SELECTED.(deployment := Some(DEPLOYMENT.(generation := 2, migration := Some(3), observedGeneration := 2)))
  const ONE_GONE := READY.(stable := false)
  const BOTH_GONE := ONE_GONE.(canary := false)
  const ALL_GONE := BOTH_GONE.(rollout := None)

  /** The canary reconcile leaves the route alone: the Rollout it rewrote is not healthy yet. */
  const REVERSAL := [Snap(FLIPPED, 3, CANARY_APP), Snap(RESELECTED, 3, CANARY_APP), Snap(ONE_BACK, 3, CANARY_APP),
                     Snap(BOTH_BACK, 3, CANARY_APP), Snap(HELD, 3, CANARY_APP)]
  const RETURN := [Snap(REVERTED, 4, BACK_APP), Snap(FROZEN, 4, BACK_APP), Snap(ISOLATED, 4, BACK_APP), Snap(SELECTED, 4, BACK_APP)]
  const REMOVAL := [Snap(READY, 5, BACK_APP), Snap(ONE_GONE, 5, BACK_APP), Snap(BOTH_GONE, 5, BACK_APP), Snap(ALL_GONE, 5, BACK_APP)]
  const REPEATED := SHARED + REVERSAL + RETURN + REMOVAL

  /** The drains are not counted afresh when a migration is reverted and repeated at
      one route generation: here the Services and the Rollout go at one instant. */
  lemma OldMarksStillCount()
    ensures Credible(REPEATED) && |REPEATED| == 20
    ensures !REPEATED[6].world.stable && !REPEATED[6].world.canary
    ensures REPEATED[16].world.stable && REPEATED[16].world.canary && REPEATED[16].world.rollout.Some?
    ensures REPEATED[16].world.now == REPEATED[19].world.now && REPEATED[19].world.rollout.None?
    ensures Drained(REPEATED[16].world, Cutover) && Drained(REPEATED[18].world, Cleanup)
    ensures !GoneForTheDelay(REPEATED, 19)
  {
    hide Credible, Drift, CutOver, CleanedBy, ServingSeen, BaseReadySeen, Serving, RollingCall, RouteReady, GoneForTheDelay;
    var trace := TheServicesGo();
    trace := TheServicesReturn(trace);
    trace := TheMigrationRestarts(trace);
    trace := AllGoesAtOnce(trace);
    assert trace == REPEATED;
    CredibleMeans(REPEATED);
    Remaining();
    StillReady();
    assert RemovesService(REPEATED[16].world, REPEATED[17].world);
    assert !NoLateRemoval(REPEATED, 19);
    if GoneForTheDelay(REPEATED, 19) {
      FullDelayShows(REPEATED, 19);
    }
  }

  lemma TheServicesReturn(trace: seq<Snap>) returns (longer: seq<Snap>)
    requires Credible(trace) && trace == SHARED
    ensures Credible(longer) && longer == trace + REVERSAL
  {
    hide Credible, Run, Safe, Taken, Drift, Sound;
    assert Drift(NOTED, FLIPPED) by { Editing(); }
    CanaryCalls();
    longer := Wait(trace, Snap(FLIPPED, 3, CANARY_APP));
    ServiceWriteIsSafe(longer, Snap(RESELECTED, 3, CANARY_APP));
    longer := Keep(longer, Snap(RESELECTED, 3, CANARY_APP));
    ServiceWriteIsSafe(longer, Snap(ONE_BACK, 3, CANARY_APP));
    longer := Keep(longer, Snap(ONE_BACK, 3, CANARY_APP));
    ServiceWriteIsSafe(longer, Snap(BOTH_BACK, 3, CANARY_APP));
    longer := Keep(longer, Snap(BOTH_BACK, 3, CANARY_APP));
    RolloutStep(longer, Snap(HELD, 3, CANARY_APP), true);
    longer := Keep(longer, Snap(HELD, 3, CANARY_APP));
  }

  lemma TheMigrationRestarts(trace: seq<Snap>) returns (longer: seq<Snap>)
    requires Credible(trace) && trace == SHARED + REVERSAL
    ensures Credible(longer) && longer == trace + RETURN
  {
    hide Credible, Run, Safe, Taken, Drift, Sound;
    assert Drift(HELD, REVERTED) by { Editing(); }
    RollingCalls();
    longer := Wait(trace, Snap(REVERTED, 4, BACK_APP));
    FreezeStep(longer, Snap(FROZEN, 4, BACK_APP));
    longer := Keep(longer, Snap(FROZEN, 4, BACK_APP));
    CredibleMeans(longer);
    MayRollOut(longer, FROZEN, 4, BACK_APP.spec);
    DeploymentStep(longer, Snap(ISOLATED, 4, BACK_APP), "v1");
    longer := Keep(longer, Snap(ISOLATED, 4, BACK_APP));
    ServiceWriteIsSafe(longer, Snap(SELECTED, 4, BACK_APP));
    longer := Keep(longer, Snap(SELECTED, 4, BACK_APP));
  }

  lemma AllGoesAtOnce(trace: seq<Snap>) returns (longer: seq<Snap>)
    requires Credible(trace) && trace == SHARED + REVERSAL + RETURN
    ensures Credible(longer) && longer == trace + REMOVAL
  {
    hide Credible, Run, Safe, Taken, Drift, Sound, Serving, RouteReady, CutOver, CleanedBy;
    assert Drift(SELECTED, READY) by { Editing(); }
    LastCalls();
    longer := Wait(trace, Snap(READY, 5, BACK_APP));
    StillReady();
    Seen(longer, 5, 16);
    ServiceRemovalIsSafe(longer, Snap(ONE_GONE, 5, BACK_APP), 1);
    longer := Keep(longer, Snap(ONE_GONE, 5, BACK_APP));
    Seen(longer, 5, 16);
    ServiceRemovalIsSafe(longer, Snap(BOTH_GONE, 5, BACK_APP), 1);
    longer := Keep(longer, Snap(BOTH_GONE, 5, BACK_APP));
    Seen(longer, 5, 16);
    CleanAt(longer);
    RolloutRemovalIsSafe(longer, Snap(ALL_GONE, 5, BACK_APP), 1);
    longer := Keep(longer, Snap(ALL_GONE, 5, BACK_APP));
  }

  lemma Editing()
    ensures Drift(NOTED, FLIPPED) && Drift(HELD, REVERTED) && Drift(SELECTED, READY)
  {
  }

  lemma StillReady()
    ensures Serving(Snap(READY, 5, BACK_APP)) && BaseReady(READY, 1)
  {
    OneParentAdmits(READY.route.value);
  }

  lemma CanaryCalls()
    ensures Taken(FLIPPED, Snap(RESELECTED, 3, CANARY_APP)) && Taken(RESELECTED, Snap(ONE_BACK, 3, CANARY_APP))
    ensures Taken(ONE_BACK, Snap(BOTH_BACK, 3, CANARY_APP)) && Taken(BOTH_BACK, Snap(HELD, 3, CANARY_APP))
  {
    hide Drift, RouteReady;
  }

  lemma RollingCalls()
    ensures Taken(REVERTED, Snap(FROZEN, 4, BACK_APP)) && Taken(FROZEN, Snap(ISOLATED, 4, BACK_APP)) && Taken(ISOLATED, Snap(SELECTED, 4, BACK_APP))
  {
    hide Drift, RouteReady, Serving;
  }

  lemma LastCalls()
    ensures Taken(READY, Snap(ONE_GONE, 5, BACK_APP)) && Taken(ONE_GONE, Snap(BOTH_GONE, 5, BACK_APP)) && Taken(BOTH_GONE, Snap(ALL_GONE, 5, BACK_APP))
  {
    hide Drift;
    OneParentAdmits(ROUTE);
    OneParentAdmits(MARK);
    OneParentAdmits(MARKS);
    Remaining();
  }
}
