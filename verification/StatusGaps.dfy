/** A status that is out of date when it arrives: the reconcile looks at the
    generation, the specification is edited, and the patch goes through. */
module StatusGaps {
  import opened Wrappers
  import opened ApplicationStatus
  import opened MigrationRun
  import opened MigrationSteps
  import opened StrategyMigration

  const REFUSED := App(1, Spec(Rolling, "registry", "v1", 0, false, 1, false, false, false, false), None, Status(Unset, 0, "", "", "", "", map[]))
  const CORRECTED := REFUSED.(generation := 2, spec := REFUSED.spec.(wellFormed := true))
  const REPORT := Status(Degraded, 1, "", "", "", "", map[ConfigurationReady := StatusCondition(False, 1), SecurityPolicyReady := StatusCondition(Unknown, 1),
                                                          RolloutHealthy := StatusCondition(Unknown, 1), DatabaseReady := StatusCondition(True, 1),
                                                          Ready := StatusCondition(False, 1)])

  const BEFORE := World(0, REFUSED, None, None, false, false, None, None, [], Checks(true, true, true))
  const EDITED := BEFORE.(app := CORRECTED)
  const REPORTED := EDITED.(app := CORRECTED.(status := REPORT))

  /** The reconcile reads the Application, looks at it again, and writes its status after the edit. */
  const LATE := [Snap(BEFORE, 0, REFUSED), Snap(BEFORE, 1, REFUSED), Snap(BEFORE, 1, REFUSED), Snap(EDITED, 1, REFUSED), Snap(REPORTED, 1, REFUSED)]

  lemma Starts()
    ensures Run([Snap(BEFORE, 0, REFUSED)]) && Drift(BEFORE, BEFORE) && Drift(BEFORE, EDITED)
  {
  }

  lemma ReportIsTheirs()
    ensures DegradedFor(REFUSED, false, REPORT) && Coherent(REPORT) && !Validates(REFUSED.spec) && Validates(CORRECTED.spec)
  {
  }

  lemma Drifts(trace: seq<Snap>, next: Snap) returns (longer: seq<Snap>)
    requires Run(trace) && trace != [] && Drift(trace[|trace| - 1].world, next.world)
    ensures Run(longer) && longer == trace + [next]
  {
    hide Run, Safe, Drift, Sound;
    LastIsSound(trace);
    DriftIsSafe(trace, next);
    RunGrows(trace, next);
    longer := trace + [next];
  }

  /** A run whose last step says Degraded of a specification that is already corrected. */
  lemma AStatusArrivesLate()
    ensures Run(LATE) && RefusalSeen(LATE, 1, REFUSED) && DegradedFor(REFUSED, false, LATE[4].world.app.status)
    ensures LATE[4].world.app.status != LATE[3].world.app.status && Edited(LATE, 2, 4)
    ensures LATE[4].world.app.status.observedGeneration < LATE[4].world.app.generation && Validates(LATE[4].world.app.spec)
  {
    hide Run, Safe, Drift, Coherent, DegradedFor, Validates;
    Starts();
    ReportIsTheirs();
    var trace := Drifts([Snap(BEFORE, 0, REFUSED)], Snap(BEFORE, 1, REFUSED));
    trace := Drifts(trace, Snap(BEFORE, 1, REFUSED));
    trace := Drifts(trace, Snap(EDITED, 1, REFUSED));
    LastIsSound(trace);
    ReportIsSafe(trace, Snap(REPORTED, 1, REFUSED));
    RunGrows(trace, Snap(REPORTED, 1, REFUSED));
    assert trace + [Snap(REPORTED, 1, REFUSED)] == LATE;
    assert LATE[2].world.app.generation < LATE[3].world.app.generation;
  }
}
