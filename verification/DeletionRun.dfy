/** Runs in which the Team controller, one Database controller per name and everyone
    else take turns, one API call at a time, on the objects of one Team. */
module DeletionRun {
  import opened Wrappers

  /** `valid` is what the checks before the first write would say now. */
  datatype Team = Team(uid: nat, terminating: bool, finalizer: bool, force: bool, valid: bool)
  datatype Namespace = Namespace(labelled: bool, owner: nat, terminating: bool)
  datatype Database = Database(terminating: bool, finalizer: bool, backups: bool, force: bool, valid: bool)
  datatype BackupPhase = Running | Completed | Failed

  /** Applications and Clusters map to whether they are terminating; a Cluster and a
      final Backup carry the name of their Database. */
  datatype World = World(team: Option<Team>, namespace: Option<Namespace>, applications: map<string, bool>,
                         databases: map<string, Database>, clusters: map<string, bool>, backups: map<string, BackupPhase>)

  datatype Actor = Others | TeamController | DatabaseController(name: string)

  datatype Call = Look | AddDatabaseFinalizer | WriteCluster | WriteFinalBackup | DeleteFinalBackup | DeleteCluster | DropDatabaseFinalizer
    | AddTeamFinalizer | WriteNamespace(owner: nat) | DeleteApplication(application: string) | ForceDatabase(database: string)
    | DeleteDatabase(database: string) | DeleteNamespace | DropTeamFinalizer

  /** The state after one call, and the reconcile it was part of. */
  datatype Entry = Entry(world: World, actor: Actor, round: nat, call: Call)

  predicate Active(n: Option<Namespace>) { n.Some? && !n.value.terminating }

  predicate Managed(n: Option<Namespace>, uid: nat) { n.Some? && n.value.labelled && n.value.owner == uid }

  // ---------------------------------------------------------------- users, Kubernetes and the other operators

  /** Kubernetes removes an object when it carries no finalizer; nobody else touches the platform's. */
  predicate TeamMoves(a: Option<Team>, b: Option<Team>) {
    && (a.None? && b.Some? ==> !b.value.terminating && !b.value.finalizer)
    && (a.Some? && b.None? ==> !a.value.finalizer)
    && (a.Some? && b.Some? ==> b.value.uid == a.value.uid && b.value.finalizer == a.value.finalizer && (a.value.terminating ==> b.value.terminating))
  }

  /** A Namespace disappears only when it is terminating and empty. */
  predicate NamespaceMoves(w: World, v: World) {
    && (w.namespace.None? && v.namespace.Some? ==> !v.namespace.value.terminating)
    && (w.namespace.Some? && v.namespace.None? ==> w.namespace.value.terminating && w.databases == map[] == v.databases)
    && (w.namespace.Some? && v.namespace.Some? && w.namespace.value.terminating ==> v.namespace.value.terminating)
  }

  /** Nothing is created in a terminating Namespace. */
  predicate DatabaseMoves(w: World, v: World, d: string) {
    && (d !in w.databases && d in v.databases ==> Active(w.namespace) && v.namespace.Some? && !v.databases[d].terminating && !v.databases[d].finalizer)
    && (d in w.databases && d !in v.databases ==> !w.databases[d].finalizer)
    && (d in w.databases && d in v.databases ==>
          v.databases[d].finalizer == w.databases[d].finalizer && (w.databases[d].terminating ==> v.databases[d].terminating))
  }

  /** The Cluster runs and nobody has asked for its deletion. */
  predicate Kept(w: World, d: string) { d in w.clusters && !w.clusters[d] }

  /** Clusters are deleted with their Database or with the Namespace; a terminating one disappears at some point. */
  predicate ClusterMoves(w: World, v: World, d: string) {
    && (d in v.clusters ==> d in w.clusters && (w.clusters[d] ==> v.clusters[d]))
    && (Kept(w, d) && !Kept(v, d) ==> d !in w.databases || !Active(w.namespace))
  }

  predicate Moves(w: World, v: World) {
    && TeamMoves(w.team, v.team) && NamespaceMoves(w, v)
    && (forall a <- v.applications :: a in w.applications || Active(w.namespace))
    && (forall d <- w.databases.Keys + v.databases.Keys :: DatabaseMoves(w, v, d)) && (forall d <- w.clusters.Keys + v.clusters.Keys :: ClusterMoves(w, v, d))
  }

  // ---------------------------------------------------------------- the controllers' calls

  function NameOf(actor: Actor): string { if actor.DatabaseController? then actor.name else "" }

  function WithFinalizer(w: World, d: string, finalizer: bool): World {
    if d in w.databases then w.(databases := w.databases[d := w.databases[d].(finalizer := finalizer)]) else w
  }

  function WithTeamFinalizer(w: World, finalizer: bool): World {
    if w.team.Some? then w.(team := Some(w.team.value.(finalizer := finalizer))) else w
  }

  /** What a call does to the cluster. */
  function Effect(w: World, actor: Actor, call: Call): World {
    match call
    case Look => w
    case AddDatabaseFinalizer => WithFinalizer(w, NameOf(actor), true)
    case DropDatabaseFinalizer => WithFinalizer(w, NameOf(actor), false)
    case WriteCluster => if NameOf(actor) in w.clusters then w else w.(clusters := w.clusters[NameOf(actor) := false])
    case DeleteCluster => if NameOf(actor) in w.clusters then w.(clusters := w.clusters[NameOf(actor) := true]) else w
    case WriteFinalBackup => if NameOf(actor) in w.backups then w else w.(backups := w.backups[NameOf(actor) := Running])
    case DeleteFinalBackup => w.(backups := w.backups - {NameOf(actor)})
    case AddTeamFinalizer => WithTeamFinalizer(w, true)
    case DropTeamFinalizer => WithTeamFinalizer(w, false)
    case WriteNamespace(owner) =>
      w.(namespace := Some(if w.namespace.Some? then w.namespace.value.(labelled := true, owner := owner) else Namespace(true, owner, false)))
    case DeleteNamespace => if w.namespace.Some? then w.(namespace := Some(w.namespace.value.(terminating := true))) else w
    case DeleteApplication(a) => if a in w.applications then w.(applications := w.applications[a := true]) else w
    case ForceDatabase(d) => if d in w.databases then w.(databases := w.databases[d := w.databases[d].(force := true)]) else w
    case DeleteDatabase(d) => if d in w.databases then w.(databases := w.databases[d := w.databases[d].(terminating := true)]) else w
  }

  /** The calls of a Database controller bring about what they ask for, and touch nothing of any other Database. */
  lemma DatabaseCallsTakeEffect(w: World, d: string, call: Call)
    requires call in {AddDatabaseFinalizer, DropDatabaseFinalizer, WriteCluster, DeleteCluster, WriteFinalBackup, DeleteFinalBackup}
    ensures var v := Effect(w, DatabaseController(d), call);
            && (call == WriteFinalBackup ==> d in v.backups && v.backups[d] == if d in w.backups then w.backups[d] else Running)
            && (call == DeleteFinalBackup ==> d !in v.backups)
            && (call == WriteCluster ==> d in v.clusters && (v.clusters[d] <==> d in w.clusters && w.clusters[d]))
            && (call == DeleteCluster && d in w.clusters ==> d in v.clusters && v.clusters[d])
            && (call == AddDatabaseFinalizer && d in w.databases ==> d in v.databases && v.databases[d] == w.databases[d].(finalizer := true))
            && (call == DropDatabaseFinalizer && d in w.databases ==> d in v.databases && v.databases[d] == w.databases[d].(finalizer := false))
            && v.team == w.team && v.namespace == w.namespace && v.applications == w.applications
            && v.databases - {d} == w.databases - {d} && v.clusters - {d} == w.clusters - {d} && v.backups - {d} == w.backups - {d}
  {
  }

  /** So do those of the Team controller on the Databases, */
  lemma TeamCallsTakeEffect(w: World, name: string, call: Call)
    requires call == ForceDatabase(name) || call == DeleteDatabase(name)
    ensures var v := Effect(w, TeamController, call);
            && v.databases - {name} == w.databases - {name}
            && (name in w.databases && call.ForceDatabase? ==> name in v.databases && v.databases[name] == w.databases[name].(force := true))
            && (name in w.databases && call.DeleteDatabase? ==> name in v.databases && v.databases[name] == w.databases[name].(terminating := true))
  {
  }

  /** on the Applications, */
  lemma ApplicationsAreDeleted(w: World, name: string)
    ensures var v := Effect(w, TeamController, DeleteApplication(name));
            (name in w.applications ==> name in v.applications && v.applications[name]) && v.applications - {name} == w.applications - {name}
  {
  }

  /** and on the Namespace and the Team. */
  lemma NamespaceCallsTakeEffect(w: World, owner: nat)
    ensures var v := Effect(w, TeamController, WriteNamespace(owner));
            Managed(v.namespace, owner) && (v.namespace.value.terminating <==> w.namespace.Some? && w.namespace.value.terminating)
    ensures w.namespace.Some? ==> Effect(w, TeamController, DeleteNamespace).namespace == Some(w.namespace.value.(terminating := true))
    ensures w.team.Some? ==> Effect(w, TeamController, AddTeamFinalizer).team == Some(w.team.value.(finalizer := true))
                             && Effect(w, TeamController, DropTeamFinalizer).team == Some(w.team.value.(finalizer := false))
  {
  }

  // ---------------------------------------------------------------- what a reconcile has seen

  predicate Mine(e: Entry, actor: Actor, round: nat) { e.actor == actor && e.round == round }

  predicate Saw(e: Entry, actor: Actor, round: nat) { Mine(e, actor, round) && e.call.Look? }

  /** The read a reconcile begins with. */
  predicate FirstRead(past: seq<Entry>, i: nat, actor: Actor, round: nat) {
    i < |past| && Saw(past[i], actor, round) && forall h :: 0 <= h < i ==> !Mine(past[h], actor, round)
  }

  /** The reconcile read a terminating Database with backups disabled or forced, or
      requested the final Backup and after that saw it completed. */
  predicate Released(past: seq<Entry>, d: string, round: nat) { ForgoneSeen(past, d, round) || CompletedSeen(past, d, round) }

  predicate Forgoes(w: World, d: string) { d in w.databases && w.databases[d].terminating && (!w.databases[d].backups || w.databases[d].force) }

  predicate ForgoneSeen(past: seq<Entry>, d: string, round: nat) {
    exists i :: 0 <= i < |past| && FirstRead(past, i, DatabaseController(d), round) && Forgoes(past[i].world, d)
  }

  predicate CompletedSeen(past: seq<Entry>, d: string, round: nat) {
    exists i, j :: 0 <= i < j < |past| && Mine(past[i], DatabaseController(d), round) && past[i].call == WriteFinalBackup
                   && Saw(past[j], DatabaseController(d), round) && d in past[j].world.backups && past[j].world.backups[d] == Completed
  }

  /** The reconcile saw its Database while it was not terminating. */
  predicate LiveSeen(past: seq<Entry>, d: string, round: nat) {
    exists i :: 0 <= i < |past| && Mine(past[i], DatabaseController(d), round) && d in past[i].world.databases && !past[i].world.databases[d].terminating
  }

  predicate ManagedSeen(past: seq<Entry>, round: nat) {
    exists i, j :: 0 <= i <= j < |past| && Mine(past[i], TeamController, round) && Mine(past[j], TeamController, round)
                   && past[i].world.team.Some? && past[i].world.team.value.terminating
                   && Managed(past[j].world.namespace, past[i].world.team.value.uid)
  }

  predicate NoApplicationsSeen(past: seq<Entry>, round: nat) {
    exists i :: 0 <= i < |past| && Mine(past[i], TeamController, round) && past[i].world.applications == map[]
  }

  /** No Applications were listed, and after that no Databases. */
  predicate EmptySeen(past: seq<Entry>, round: nat) {
    exists j :: 0 <= j < |past| && Mine(past[j], TeamController, round) && past[j].world.databases == map[] && NoApplicationsSeen(past[..j], round)
  }

  predicate ForceSeen(past: seq<Entry>, round: nat) {
    exists i :: 0 <= i < |past| && Mine(past[i], TeamController, round) && past[i].world.team.Some? && past[i].world.team.value.force
  }

  predicate NamespaceAbsentSeen(past: seq<Entry>, round: nat) {
    exists i :: 0 <= i < |past| && Mine(past[i], TeamController, round) && past[i].world.namespace.None?
  }

  predicate LiveTeamSeen(past: seq<Entry>, round: nat, uid: nat) {
    exists i :: 0 <= i < |past| && Mine(past[i], TeamController, round)
                && past[i].world.team.Some? && !past[i].world.team.value.terminating && past[i].world.team.value.uid == uid
  }

  /** A terminating Database that still holds the finalizer. */
  predicate Leaving(w: World, d: string) { d in w.databases && w.databases[d].finalizer && w.databases[d].terminating }

  /** When a controller may make a call. */
  predicate Guard(past: seq<Entry>, w: World, actor: Actor, round: nat, call: Call) {
    var d := NameOf(actor);
    match call
    case Look => true
    case AddDatabaseFinalizer => actor.DatabaseController? && d in w.databases && !w.databases[d].terminating
    case WriteCluster =>
      actor.DatabaseController? && LiveSeen(past, d, round) && d in w.databases && w.databases[d].finalizer && (d in w.clusters || Active(w.namespace))
    case WriteFinalBackup => actor.DatabaseController? && Leaving(w, d) && (d in w.backups || Active(w.namespace))
    case DeleteFinalBackup => actor.DatabaseController? && Released(past, d, round)
    case DeleteCluster =>
      actor.DatabaseController? && Released(past, d, round) && d in w.databases && w.databases[d].terminating && w.databases[d].finalizer
    case DropDatabaseFinalizer =>
      actor.DatabaseController? && Released(past, d, round) && d in w.databases && w.databases[d].terminating && !Kept(w, d)
    case AddTeamFinalizer => actor.TeamController? && w.team.Some? && !w.team.value.terminating
    case DropTeamFinalizer => actor.TeamController? && w.team.Some? && w.team.value.terminating && NamespaceAbsentSeen(past, round)
    case WriteNamespace(owner) => actor.TeamController? && LiveTeamSeen(past, round, owner)
    case DeleteApplication(_) => actor.TeamController? && ManagedSeen(past, round)
    case ForceDatabase(_) => actor.TeamController? && ManagedSeen(past, round) && NoApplicationsSeen(past, round) && ForceSeen(past, round)
    case DeleteDatabase(_) => actor.TeamController? && ManagedSeen(past, round) && NoApplicationsSeen(past, round)
    case DeleteNamespace => actor.TeamController? && ManagedSeen(past, round) && EmptySeen(past, round)
  }

  predicate Step(past: seq<Entry>, e: Entry)
    requires past != []
  {
    var w := past[|past| - 1].world;
    && e.round <= |past|
    && if e.actor.Others? then e.call.Look? && Moves(w, e.world)
       else Guard(past, w, e.actor, e.round, e.call) && e.world == Effect(w, e.actor, e.call)
  }

  /** The Database of a Cluster that is to stay is still there and holds its finalizer. */
  predicate Protected(w: World) { forall d <- w.clusters :: Kept(w, d) ==> d in w.databases && w.databases[d].finalizer }

  predicate Housed(w: World) { w.databases != map[] ==> w.namespace.Some? }

  predicate Run(trace: seq<Entry>) {
    && trace != []
    && if |trace| == 1 then trace[0].actor.Others? && trace[0].round == 0 && Protected(trace[0].world) && Housed(trace[0].world)
       else Run(trace[..|trace| - 1]) && Step(trace[..|trace| - 1], trace[|trace| - 1])
  }

  // ---------------------------------------------------------------- runs

  lemma {:induction false} StepAt(trace: seq<Entry>, k: nat)
    requires Run(trace) && 0 < k < |trace|
    ensures Run(trace[..k]) && Step(trace[..k], trace[k]) && trace[..k][k - 1] == trace[k - 1]
    decreases |trace|
  {
    hide Step, Protected, Housed;
    if k < |trace| - 1 {
      StepAt(trace[..|trace| - 1], k);
      assert trace[..|trace| - 1][..k] == trace[..k];
    }
  }

  /** The number of a reconcile is how long the run was when it began. */
  lemma RoundsStart(trace: seq<Entry>, k: nat)
    requires Run(trace) && k < |trace|
    ensures trace[k].round <= k
  {
    hide Run, Guard, Moves, Effect;
    if k > 0 {
      StepAt(trace, k);
    } else {
      StartsOutside(trace);
    }
  }

  lemma {:induction false} StartsOutside(trace: seq<Entry>)
    requires Run(trace)
    ensures trace[0].actor.Others? && trace[0].round == 0
    decreases |trace|
  {
    hide Step, Protected, Housed;
    if |trace| > 1 { StartsOutside(trace[..|trace| - 1]); }
  }

  lemma MovesKeep(w: World, v: World)
    requires Moves(w, v) && Protected(w) && Housed(w)
    ensures Protected(v) && Housed(v)
  {
    hide TeamMoves;
    forall d <- v.clusters | Kept(v, d) ensures d in v.databases && v.databases[d].finalizer {
      assert ClusterMoves(w, v, d) && DatabaseMoves(w, v, d);
    }
    if v.databases != map[] {
      var d :| d in v.databases;
      assert DatabaseMoves(w, v, d);
      assert d in w.databases ==> w.databases != map[];
    }
  }

  lemma EffectKeeps(past: seq<Entry>, w: World, actor: Actor, round: nat, call: Call)
    requires Guard(past, w, actor, round, call) && Protected(w) && Housed(w)
    ensures Protected(Effect(w, actor, call)) && Housed(Effect(w, actor, call))
  {
    hide Released, LiveSeen, ManagedSeen, NoApplicationsSeen, EmptySeen, ForceSeen, NamespaceAbsentSeen, LiveTeamSeen;
    var v := Effect(w, actor, call);
    assert v.databases.Keys == w.databases.Keys;
    if v.databases != map[] {
      var d :| d in v.databases;
      assert d in w.databases;
      assert w.databases != map[];
    }
  }

  /** In every state of every run, the Database of a Cluster whose deletion nobody
      has asked for exists and holds the finalizer; and Databases live in a Namespace. */
  lemma {:induction false} ClustersAreProtected(trace: seq<Entry>, k: nat)
    requires Run(trace) && k < |trace|
    ensures Protected(trace[k].world) && Housed(trace[k].world)
    decreases |trace|
  {
    hide Guard, Effect, Moves, Protected, Housed;
    if |trace| == 1 {
    } else if k < |trace| - 1 {
      ClustersAreProtected(trace[..|trace| - 1], k);
    } else {
      ClustersAreProtected(trace[..|trace| - 1], k - 1);
      StepAt(trace, k);
      if trace[k].actor.Others? {
        MovesKeep(trace[k - 1].world, trace[k].world);
      } else {
        EffectKeeps(trace[..k], trace[k - 1].world, trace[k].actor, trace[k].round, trace[k].call);
      }
    }
  }

  /** A Cluster is given up only by its own controller, in a reconcile that read its
      Database with backups off or force set, or that saw the final Backup it requested
      completed; or with a terminating Namespace. */
  lemma ClusterIsLostOnlyTo(trace: seq<Entry>, k: nat, d: string)
    requires Run(trace) && 0 < k < |trace| && Kept(trace[k - 1].world, d) && !Kept(trace[k].world, d)
    ensures if trace[k].actor.Others? then trace[k - 1].world.namespace.Some? && trace[k - 1].world.namespace.value.terminating
            else trace[k].actor == DatabaseController(d) && trace[k].call == DeleteCluster && Released(trace[..k], d, trace[k].round)
                 && d in trace[k - 1].world.databases && trace[k - 1].world.databases[d].terminating
  {
    hide Run, TeamMoves, NamespaceMoves, Released, LiveSeen, ManagedSeen, NoApplicationsSeen, EmptySeen, ForceSeen, NamespaceAbsentSeen, LiveTeamSeen;
    StepAt(trace, k);
    ClustersAreProtected(trace, k - 1);
    if trace[k].actor.Others? {
      assert ClusterMoves(trace[k - 1].world, trace[k].world, d);
    }
  }

  /** A Database that held its finalizer is gone only after its controller dropped
      it in a reconcile with that evidence, when the Cluster was gone or going. */
  lemma {:induction false} DatabaseOutlivesItsCluster(trace: seq<Entry>, i: nat, k: nat, d: string) returns (j: nat)
    requires Run(trace) && i <= k < |trace|
    requires d in trace[i].world.databases && trace[i].world.databases[d].finalizer && d !in trace[k].world.databases
    ensures i < j <= k && trace[j].actor == DatabaseController(d) && trace[j].call == DropDatabaseFinalizer
    ensures Released(trace[..j], d, trace[j].round) && !Kept(trace[j - 1].world, d)
    decreases k - i
  {
    hide Run, TeamMoves, NamespaceMoves, ClusterMoves, Released, LiveSeen, ManagedSeen, NoApplicationsSeen, EmptySeen, ForceSeen, NamespaceAbsentSeen, LiveTeamSeen;
    StepAt(trace, i + 1);
    if trace[i + 1].actor.Others? {
      assert DatabaseMoves(trace[i].world, trace[i + 1].world, d);
    }
    if trace[i + 1].actor == DatabaseController(d) && trace[i + 1].call == DropDatabaseFinalizer {
      j := i + 1;
    } else {
      j := DatabaseOutlivesItsCluster(trace, i + 1, k, d);
    }
  }

  /** A Team that held its finalizer is gone only after its controller dropped it
      in a reconcile that saw the Namespace absent. */
  lemma {:induction false} TeamOutlivesItsNamespace(trace: seq<Entry>, i: nat, k: nat) returns (j: nat)
    requires Run(trace) && i <= k < |trace|
    requires trace[i].world.team.Some? && trace[i].world.team.value.finalizer && trace[k].world.team.None?
    ensures i < j <= k && trace[j].actor == TeamController && trace[j].call == DropTeamFinalizer
    ensures trace[j - 1].world.team.Some? && trace[j - 1].world.team.value.terminating && NamespaceAbsentSeen(trace[..j], trace[j].round)
    decreases k - i
  {
    hide Run, NamespaceMoves, DatabaseMoves, ClusterMoves, Released, LiveSeen, ManagedSeen, NoApplicationsSeen, EmptySeen, ForceSeen, NamespaceAbsentSeen, LiveTeamSeen;
    StepAt(trace, i + 1);
    if trace[i + 1].call == DropTeamFinalizer {
      j := i + 1;
    } else {
      j := TeamOutlivesItsNamespace(trace, i + 1, k);
    }
  }

  /** Only the Team controller asks for Databases to go, once it has listed no
      Applications, unless somebody else does. */
  lemma DatabasesGoAfterApplications(trace: seq<Entry>, k: nat, d: string)
    requires Run(trace) && 0 < k < |trace| && !trace[k].actor.Others?
    requires d in trace[k - 1].world.databases && !trace[k - 1].world.databases[d].terminating
    requires d in trace[k].world.databases && trace[k].world.databases[d].terminating
    ensures trace[k].actor == TeamController && ManagedSeen(trace[..k], trace[k].round) && NoApplicationsSeen(trace[..k], trace[k].round)
  {
    hide Run, Released, LiveSeen, ManagedSeen, NoApplicationsSeen, EmptySeen, ForceSeen, NamespaceAbsentSeen, LiveTeamSeen;
    StepAt(trace, k);
  }

  // ---------------------------------------------------------------- the Namespace and late Databases

  predicate Dying(w: World) { w.namespace.Some? && w.namespace.value.terminating }

  /** Nobody but the Team controller deletes the Namespace. */
  predicate LeftToTheTeam(trace: seq<Entry>) {
    trace != [] && !Dying(trace[0].world)
    && forall t :: 0 < t < |trace| && trace[t].actor.Others? && !Dying(trace[t - 1].world) ==> !Dying(trace[t].world)
  }

  lemma FellBy(past: seq<Entry>, e: Entry)
    requires past != [] && Step(past, e) && !e.actor.Others? && !Dying(past[|past| - 1].world) && Dying(e.world)
    ensures e.actor == TeamController && e.call == DeleteNamespace && ManagedSeen(past, e.round) && EmptySeen(past, e.round)
  {
    hide Moves, Released, LiveSeen, ManagedSeen, NoApplicationsSeen, EmptySeen, ForceSeen, NamespaceAbsentSeen, LiveTeamSeen;
  }

  lemma {:induction false} NamespaceFell(trace: seq<Entry>, k: nat) returns (m: nat)
    requires Run(trace) && LeftToTheTeam(trace) && k < |trace| && Dying(trace[k].world)
    ensures 0 < m <= k && trace[m].actor == TeamController && trace[m].call == DeleteNamespace
    ensures ManagedSeen(trace[..m], trace[m].round) && EmptySeen(trace[..m], trace[m].round)
    ensures forall t :: m <= t <= k ==> Dying(trace[t].world)
    decreases k
  {
    hide Run, Step, ManagedSeen, EmptySeen;
    StepAt(trace, k);
    if Dying(trace[k - 1].world) {
      m := NamespaceFell(trace, k - 1);
    } else {
      FellBy(trace[..k], trace[k]);
      m := k;
    }
  }

  lemma CallsCreateNoDatabase(w: World, actor: Actor, call: Call)
    ensures Effect(w, actor, call).databases.Keys == w.databases.Keys
  {
  }

  lemma AppearedBy(past: seq<Entry>, e: Entry, d: string)
    requires past != [] && Step(past, e) && d !in past[|past| - 1].world.databases && d in e.world.databases
    ensures e.actor.Others? && !Dying(past[|past| - 1].world)
  {
    hide TeamMoves, NamespaceMoves, ClusterMoves, Guard, Effect;
    if e.actor.Others? {
      assert DatabaseMoves(past[|past| - 1].world, e.world, d);
    } else {
      CallsCreateNoDatabase(past[|past| - 1].world, e.actor, e.call);
    }
  }

  lemma {:induction false} DatabaseAppeared(trace: seq<Entry>, j: nat, k: nat, d: string) returns (c: nat)
    requires Run(trace) && j <= k < |trace| && d !in trace[j].world.databases && d in trace[k].world.databases
    ensures j < c <= k && d !in trace[c - 1].world.databases && d in trace[c].world.databases
    ensures trace[c].actor.Others? && !Dying(trace[c - 1].world)
    decreases k
  {
    hide Run, Step;
    StepAt(trace, k);
    if d in trace[k - 1].world.databases {
      c := DatabaseAppeared(trace, j, k - 1, d);
    } else {
      c := k;
      AppearedBy(trace[..k], trace[k], d);
    }
  }

  /** A Cluster that goes with the Namespace belongs to a Database created after
      the Team controller listed none and before it deleted the Namespace. */
  lemma ClustersLostToTheNamespaceAreLate(trace: seq<Entry>, k: nat, d: string) returns (listed: nat, created: nat, deleted: nat)
    requires Run(trace) && LeftToTheTeam(trace) && 0 < k < |trace| && trace[k].actor.Others?
    requires Kept(trace[k - 1].world, d) && !Kept(trace[k].world, d)
    ensures listed < created <= deleted < k
    ensures Mine(trace[listed], TeamController, trace[deleted].round) && trace[listed].world.databases == map[]
    ensures trace[deleted].actor == TeamController && trace[deleted].call == DeleteNamespace
    ensures d !in trace[created - 1].world.databases && d in trace[created].world.databases
  {
    hide Run, NoApplicationsSeen, ManagedSeen, Released, Moves, Guard, Effect;
    ClusterIsLostOnlyTo(trace, k, d);
    ClustersAreProtected(trace, k - 1);
    deleted := NamespaceFell(trace, k - 1);
    listed :| 0 <= listed < |trace[..deleted]| && Mine(trace[..deleted][listed], TeamController, trace[deleted].round)
              && trace[..deleted][listed].world.databases == map[] && NoApplicationsSeen(trace[..deleted][..listed], trace[deleted].round);
    created := DatabaseAppeared(trace, listed, k - 1, d);
  }
}
