/** A Database created while its Team is being deleted: two reconciles, each as its
    code allows it, and a Cluster that is lost with no backup. */
module DeletionGaps {
  import opened Wrappers
  import opened DeletionRun
  import opened Deletion

  lemma Extend(trace: seq<Entry>, e: Entry) returns (longer: seq<Entry>)
    requires Run(trace) && Step(trace, e)
    ensures Run(longer) && longer == trace + [e]
  {
    hide Step, Protected, Housed;
    longer := trace + [e];
    assert longer[..|trace|] == trace;
  }

  lemma LateMoves(w: World, databases: map<string, Database>, clusters: map<string, bool>)
    requires Active(w.namespace) || databases == w.databases
    requires clusters == w.clusters || (!Active(w.namespace) && clusters == map[])
    requires w.databases == map[] || databases == w.databases
    requires databases == w.databases || forall d <- databases :: !databases[d].terminating && !databases[d].finalizer
    ensures Moves(w, w.(databases := databases, clusters := clusters))
  {
    var v := w.(databases := databases, clusters := clusters);
    forall d ensures DatabaseMoves(w, v, d) {
    }
    forall d ensures ClusterMoves(w, v, d) {
    }
  }

  lemma StartRun(w: World)
    requires Protected(w) && Housed(w)
    ensures Run([Entry(w, Others, 0, Look)])
  {
  }

  const LATE := "late"
  const BEFORE := World(Some(Team(1, true, true, false, true)), Some(Namespace(true, 1, false)), map[], map[], map[], map[])
  const CREATED := BEFORE.(databases := map[LATE := Database(false, false, true, false, true)])
  const HELD := BEFORE.(databases := map[LATE := Database(false, true, true, false, true)])
  const RUNNING := HELD.(clusters := map[LATE := false])
  const DYING := RUNNING.(namespace := Some(Namespace(true, 1, true)))
  const LOST := DYING.(clusters := map[])

  /** The reconcile of the Team: the Team, its Namespace, no Applications, no Databases. */
  const LISTED := [Entry(BEFORE, Others, 0, Look), Entry(BEFORE, TeamController, 1, Look), Entry(BEFORE, TeamController, 1, Look),
                   Entry(BEFORE, TeamController, 1, Look), Entry(BEFORE, TeamController, 1, Look)]
  /** A Database appears, and its own reconcile gives it a Cluster. */
  const SERVED := LISTED + [Entry(CREATED, Others, 0, Look), Entry(CREATED, DatabaseController(LATE), 6, Look),
                            Entry(HELD, DatabaseController(LATE), 6, AddDatabaseFinalizer), Entry(HELD, DatabaseController(LATE), 6, Look),
                            Entry(RUNNING, DatabaseController(LATE), 6, WriteCluster)]
  /** The reconcile of the Team goes on and deletes the Namespace. */
  const ENDED := SERVED + [Entry(DYING, TeamController, 1, DeleteNamespace)]
  const LOSS := ENDED + [Entry(LOST, Others, 0, Look)]

  lemma TeamListsNothing()
    ensures Run(LISTED)
  {
    hide Run, Moves;
    StartRun(BEFORE);
    var trace := [Entry(BEFORE, Others, 0, Look)];
    trace := Extend(trace, Entry(BEFORE, TeamController, 1, Look));
    trace := Extend(trace, Entry(BEFORE, TeamController, 1, Look));
    trace := Extend(trace, Entry(BEFORE, TeamController, 1, Look));
    trace := Extend(trace, Entry(BEFORE, TeamController, 1, Look));
    assert trace == LISTED;
  }

  lemma DatabaseIsServed()
    ensures Run(SERVED) && DatabaseOutcome(SERVED, LATE, 6, Serving)
  {
    hide Run, Moves;
    TeamListsNothing();
    var trace := LISTED;
    LateMoves(BEFORE, CREATED.databases, map[]);
    trace := Extend(trace, Entry(CREATED, Others, 0, Look));
    trace := Extend(trace, Entry(CREATED, DatabaseController(LATE), 6, Look));
    trace := Extend(trace, Entry(HELD, DatabaseController(LATE), 6, AddDatabaseFinalizer));
    trace := Extend(trace, Entry(HELD, DatabaseController(LATE), 6, Look));
    assert trace[6] == Entry(CREATED, DatabaseController(LATE), 6, Look);
    trace := Extend(trace, Entry(RUNNING, DatabaseController(LATE), 6, WriteCluster));
    assert trace == SERVED;
  }

  lemma NothingWasListed(trace: seq<Entry>)
    requires |trace| >= 5 && trace[..5] == LISTED
    ensures ManagedSeen(trace, 1) && EmptySeen(trace, 1)
  {
    assert trace[1] == LISTED[1] && trace[2] == LISTED[2] && trace[3] == LISTED[3] && trace[4] == LISTED[4];
    assert trace[..4][3] == trace[3];
  }

  lemma TeamAwaitsItsNamespace()
    ensures Run(ENDED) && TeamOutcome(ENDED, 1, AwaitingNamespace)
  {
    hide Run, Moves, EmptySeen, ManagedSeen, DatabaseOutcome;
    DatabaseIsServed();
    NothingWasListed(SERVED);
    var trace := Extend(SERVED, Entry(DYING, TeamController, 1, DeleteNamespace));
    assert trace == ENDED;
    NothingWasListed(ENDED);
  }

  lemma ClusterGoes()
    ensures Run(LOSS)
  {
    hide Run, Moves, TeamOutcome;
    TeamAwaitsItsNamespace();
    LateMoves(DYING, DYING.databases, map[]);
    var trace := Extend(ENDED, Entry(LOST, Others, 0, Look));
    assert trace == LOSS;
  }

  /** The condition is needed: both reconciles end as they should, and the Database
      created between them loses its Cluster, with its finalizer held and no backup. */
  lemma LateDatabaseIsLost()
    ensures Run(LOSS) && LeftToTheTeam(LOSS) && |LOSS| == 12
    ensures DatabaseOutcome(LOSS[..10], LATE, 6, Serving) && TeamOutcome(LOSS[..11], 1, AwaitingNamespace)
    ensures Kept(LOSS[10].world, LATE) && LATE !in LOSS[11].world.clusters && LOSS[11].actor.Others?
    ensures forall i :: 0 <= i < 12 ==> LOSS[i].world.backups == map[]
    ensures LATE in LOSS[11].world.databases && LOSS[11].world.databases[LATE] == Database(false, true, true, false, true)
  {
    hide Run, DatabaseOutcome, TeamOutcome;
    DatabaseIsServed();
    TeamAwaitsItsNamespace();
    ClusterGoes();
    assert LOSS[..11] == ENDED && LOSS[..10] == SERVED;
  }
}
