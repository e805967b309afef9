/** The Database and Team reconcilers. Before each of their API calls every other
    actor may have taken any number of steps, and any call may fail. */
module Deletion {
  import opened Wrappers
  import opened DeletionRun

  /** The run went on without calls of one controller. */
  predicate WentOn(past: seq<Entry>, longer: seq<Entry>, me: Actor) {
    past != [] && past <= longer && Run(longer) && forall i :: |past| <= i < |longer| ==> longer[i].actor != me
  }

  /** From an entry on, the Database controller made only such calls. */
  ghost predicate OnlyCalls(trace: seq<Entry>, from: nat, d: string, calls: set<Call>) {
    forall k :: from <= k < |trace| && trace[k].actor == DatabaseController(d) ==> trace[k].call in calls
  }

  lemma NoCalls(past: seq<Entry>, longer: seq<Entry>, d: string)
    requires WentOn(past, longer, DatabaseController(d))
    ensures past <= longer && OnlyCalls(longer, |past|, d, {})
  {
    hide Run;
  }

  lemma MoreCalls(past: seq<Entry>, longer: seq<Entry>, from: nat, d: string, calls: set<Call>, more: set<Call>)
    requires past <= longer && OnlyCalls(past, from, d, calls) && OnlyCalls(longer, |past|, d, more)
    ensures OnlyCalls(longer, from, d, calls + more)
  {
    assert forall k :: 0 <= k < |past| ==> longer[k] == past[k];
  }

  lemma OneOther(past: seq<Entry>, e: Entry, d: string)
    requires past != [] && Step(past, e) && e.actor != DatabaseController(d)
    ensures var w, v := past[|past| - 1].world, e.world;
            && (d in w.databases && w.databases[d].finalizer ==>
                  d in v.databases && v.databases[d].finalizer && (w.databases[d].terminating ==> v.databases[d].terminating))
            && (!Kept(w, d) ==> !Kept(v, d))
  {
    hide TeamMoves, NamespaceMoves, Released, LiveSeen, ManagedSeen, NoApplicationsSeen, EmptySeen, ForceSeen, NamespaceAbsentSeen, LiveTeamSeen;
    if e.actor.Others? {
      assert DatabaseMoves(past[|past| - 1].world, e.world, d) && ClusterMoves(past[|past| - 1].world, e.world, d);
    }
  }

  /** Only its own controller takes a Database's finalizer or brings its Cluster back. */
  lemma {:induction false} OthersRespect(past: seq<Entry>, longer: seq<Entry>, d: string)
    requires WentOn(past, longer, DatabaseController(d))
    ensures var w, v := past[|past| - 1].world, longer[|longer| - 1].world;
            && (d in w.databases && w.databases[d].finalizer ==>
                  d in v.databases && v.databases[d].finalizer && (w.databases[d].terminating ==> v.databases[d].terminating))
            && (!Kept(w, d) ==> !Kept(v, d))
    decreases |longer|
  {
    hide Run, Step, Kept;
    if |longer| > |past| {
      var k := |longer| - 1;
      StepAt(longer, k);
      OthersRespect(past, longer[..k], d);
      OneOther(longer[..k], longer[k], d);
    }
  }

  /** Only the Team controller takes the Team's finalizer. */
  lemma {:induction false} OthersKeepTheTeam(past: seq<Entry>, longer: seq<Entry>)
    requires WentOn(past, longer, TeamController)
    ensures var w, v := past[|past| - 1].world, longer[|longer| - 1].world;
            w.team.Some? && w.team.value.finalizer ==>
              v.team.Some? && v.team.value.finalizer && (w.team.value.terminating ==> v.team.value.terminating)
    decreases |longer|
  {
    hide Run, NamespaceMoves, DatabaseMoves, ClusterMoves, Released, LiveSeen, ManagedSeen, NoApplicationsSeen, EmptySeen, ForceSeen, NamespaceAbsentSeen, LiveTeamSeen;
    if |longer| > |past| {
      var k := |longer| - 1;
      StepAt(longer, k);
      OthersKeepTheTeam(past, longer[..k]);
    }
  }

  lemma EvidenceLasts(past: seq<Entry>, longer: seq<Entry>, d: string, round: nat)
    requires past <= longer
    ensures Released(past, d, round) ==> Released(longer, d, round)
    ensures LiveSeen(past, d, round) ==> LiveSeen(longer, d, round)
    ensures NoApplicationsSeen(past, round) ==> NoApplicationsSeen(longer, round)
    ensures NamespaceAbsentSeen(past, round) ==> NamespaceAbsentSeen(longer, round)
    ensures ForceSeen(past, round) ==> ForceSeen(longer, round)
    ensures ManagedSeen(past, round) ==> ManagedSeen(longer, round)
  {
    hide Forgoes, Managed;
    assert forall i :: 0 <= i < |past| ==> longer[i] == past[i];
  }

  lemma EmptyLasts(past: seq<Entry>, longer: seq<Entry>, round: nat)
    requires past <= longer && EmptySeen(past, round)
    ensures EmptySeen(longer, round)
  {
    hide NoApplicationsSeen;
    var j :| 0 <= j < |past| && Mine(past[j], TeamController, round) && past[j].world.databases == map[] && NoApplicationsSeen(past[..j], round);
    assert longer[j] == past[j] && longer[..j] == past[..j];
  }

  lemma LiveTeamLasts(past: seq<Entry>, longer: seq<Entry>, round: nat, uid: nat)
    requires past <= longer && LiveTeamSeen(past, round, uid)
    ensures LiveTeamSeen(longer, round, uid)
  {
    assert forall i :: 0 <= i < |past| ==> longer[i] == past[i];
  }

  // ---------------------------------------------------------------- how a reconcile ends

  datatype DatabaseEnd = Faulted | Gone | Rejected | Serving | Waiting | Finalized
  datatype TeamEnd = TeamFaulted | TeamGone | Invalid | Foreign | Owned
    | AwaitingApplications | AwaitingDatabases | AwaitingNamespace | TeamReleased

  predicate Ended(trace: seq<Entry>, me: Actor, round: nat, call: Call) {
    trace != [] && Mine(trace[|trace| - 1], me, round) && trace[|trace| - 1].call == call
  }

  /** The reconcile made the call after entry `from`. */
  predicate Called(trace: seq<Entry>, from: nat, round: nat, call: Call) {
    exists k :: from < k < |trace| && Mine(trace[k], TeamController, round) && trace[k].call == call
  }

  predicate AwaitsBackup(w: World, d: string) { Leaving(w, d) && !(d in w.backups && w.backups[d] == Completed) }

  /** The reconcile wanted a final Backup, requested it, and then saw that it was not completed. */
  predicate BackupPending(trace: seq<Entry>, d: string, round: nat) {
    exists h, i, j :: 0 <= h < i < j < |trace| && FirstRead(trace, h, DatabaseController(d), round)
      && Leaving(trace[h].world, d) && !Forgoes(trace[h].world, d)
      && Mine(trace[i], DatabaseController(d), round) && trace[i].call == WriteFinalBackup
      && Saw(trace[j], DatabaseController(d), round) && AwaitsBackup(trace[j].world, d)
  }

  /** What each way of ending a Database reconcile says. */
  predicate DatabaseOutcome(trace: seq<Entry>, d: string, round: nat, end: DatabaseEnd) {
    var me := DatabaseController(d);
    match end
    case Faulted => true
    case Gone => exists i :: 0 <= i < |trace| && Saw(trace[i], me, round) && DatabaseGone(trace[i].world, d)
    case Rejected => exists i :: 0 <= i < |trace| && Saw(trace[i], me, round) && DatabaseRefused(trace[i].world, d)
    case Serving => Ended(trace, me, round, WriteCluster)
    case Waiting => BackupPending(trace, d, round)
    case Finalized => Ended(trace, me, round, DropDatabaseFinalizer)
  }

  /** A reconcile whose calls succeed, and which finds the deletion under way and
      the final Backup completed whenever it looks, drops the finalizer. */
  lemma CompletedBackupIsEnough(trace: seq<Entry>, d: string, round: nat, end: DatabaseEnd)
    requires Run(trace) && DatabaseOutcome(trace, d, round, end) && !end.Faulted?
    requires forall i :: 0 <= i < |trace| && Mine(trace[i], DatabaseController(d), round) ==>
               d in trace[i].world.databases && trace[i].world.databases[d].terminating
    requires forall i :: 0 <= i < |trace| && Saw(trace[i], DatabaseController(d), round) ==>
               trace[i].world.databases[d].finalizer && trace[i].world.databases[d].valid
               && d in trace[i].world.backups && trace[i].world.backups[d] == Completed
    ensures end.Finalized?
  {
    hide Run, Effect, Forgoes;
    if end.Serving? {
      StartsOutside(trace);
      StepAt(trace, |trace| - 1);
    }
  }

  predicate DatabaseGone(w: World, d: string) { d !in w.databases || (w.databases[d].terminating && !w.databases[d].finalizer) }

  predicate DatabaseRefused(w: World, d: string) { d in w.databases && w.databases[d].finalizer && !w.databases[d].valid }

  /** A listed Database was sent on its way: force first, when the Team says so, then deletion. */
  predicate Requested(trace: seq<Entry>, from: nat, round: nat, d: string, listed: Database, force: bool) {
    if force && !listed.force then
      exists k :: from < k < |trace| && Mine(trace[k], TeamController, round) && trace[k].call == ForceDatabase(d)
                  && (listed.terminating || Called(trace, k, round, DeleteDatabase(d)))
    else listed.terminating || Called(trace, from, round, DeleteDatabase(d))
  }

  predicate ApplicationsRequested(trace: seq<Entry>, round: nat) {
    exists j :: 0 <= j < |trace| && Saw(trace[j], TeamController, round) && trace[j].world.applications != map[]
      && forall a <- trace[j].world.applications :: trace[j].world.applications[a] || Called(trace, j, round, DeleteApplication(a))
  }

  predicate DatabasesRequested(trace: seq<Entry>, round: nat) {
    exists i, j :: 0 <= i < j < |trace| && Saw(trace[i], TeamController, round) && trace[i].world.team.Some?
      && Saw(trace[j], TeamController, round) && trace[j].world.databases != map[] && NoApplicationsSeen(trace[..j], round)
      && forall d <- trace[j].world.databases :: Requested(trace, j, round, d, trace[j].world.databases[d], trace[i].world.team.value.force)
  }

  /** The Namespace that was seen is not the Team's. */
  predicate ForeignSeen(trace: seq<Entry>, round: nat) {
    exists i, j :: 0 <= i < j < |trace| && Saw(trace[i], TeamController, round) && Saw(trace[j], TeamController, round)
      && trace[i].world.team.Some? && trace[j].world.namespace.Some?
      && if trace[i].world.team.value.terminating then !Managed(trace[j].world.namespace, trace[i].world.team.value.uid)
         else trace[j].world.namespace.value.owner != trace[i].world.team.value.uid
  }

  predicate TeamIsGone(w: World) { w.team.None? || (w.team.value.terminating && !w.team.value.finalizer) }

  predicate TeamIsInvalid(w: World) { w.team.Some? && w.team.value.finalizer && !w.team.value.valid }

  /** What each way of ending a Team reconcile says. */
  predicate TeamOutcome(trace: seq<Entry>, round: nat, end: TeamEnd) {
    match end
    case TeamFaulted => true
    case TeamGone => exists i :: 0 <= i < |trace| && Saw(trace[i], TeamController, round) && TeamIsGone(trace[i].world)
    case Invalid => exists i :: 0 <= i < |trace| && Mine(trace[i], TeamController, round) && TeamIsInvalid(trace[i].world)
    case Foreign => ForeignSeen(trace, round)
    case Owned => trace != [] && Mine(trace[|trace| - 1], TeamController, round) && trace[|trace| - 1].call.WriteNamespace?
    case AwaitingApplications => ApplicationsRequested(trace, round)
    case AwaitingDatabases => DatabasesRequested(trace, round)
    case AwaitingNamespace => EmptySeen(trace, round) && (Ended(trace, TeamController, round, DeleteNamespace) || DyingSeen(trace, round))
    case TeamReleased => Ended(trace, TeamController, round, DropTeamFinalizer)
  }

  predicate DyingSeen(trace: seq<Entry>, round: nat) {
    exists i :: 0 <= i < |trace| && Saw(trace[i], TeamController, round) && Dying(trace[i].world)
  }

  lemma CalledLasts(past: seq<Entry>, longer: seq<Entry>, from: nat, round: nat, call: Call)
    requires past <= longer && Called(past, from, round, call)
    ensures Called(longer, from, round, call)
  {
    var k :| from < k < |past| && Mine(past[k], TeamController, round) && past[k].call == call;
    assert longer[k] == past[k];
  }

  lemma RequestedLasts(past: seq<Entry>, longer: seq<Entry>, from: nat, round: nat, d: string, listed: Database, force: bool)
    requires past <= longer && Requested(past, from, round, d, listed, force)
    ensures Requested(longer, from, round, d, listed, force)
  {
    hide Called;
    if force && !listed.force {
      var k :| from < k < |past| && Mine(past[k], TeamController, round) && past[k].call == ForceDatabase(d)
               && (listed.terminating || Called(past, k, round, DeleteDatabase(d)));
      assert longer[k] == past[k];
      if !listed.terminating { CalledLasts(past, longer, k, round, DeleteDatabase(d)); }
    } else if !listed.terminating {
      CalledLasts(past, longer, from, round, DeleteDatabase(d));
    }
  }

  class Controllers {
    var world: World
    var trace: seq<Entry>
    ghost var faults: nat  // API calls that failed, or after which the reconcile stopped

    ghost predicate Valid()
      reads this
    {
      Run(trace) && trace != [] && trace[|trace| - 1].world == world
    }

    constructor (start: World)
      requires Protected(start) && Housed(start)
      ensures Valid() && world == start && trace == [Entry(start, Others, 0, Look)]
    {
      world, trace := start, [Entry(start, Others, 0, Look)];
    }

    /** Everyone but `me` goes on. */
    method Interfere(me: Actor)
      requires Valid()
      modifies this`world, this`trace
      ensures Valid() && WentOn(old(trace), trace, me)
    {
      hide Run;
      assert WentOn(trace, trace, me);
      var longer: seq<Entry> :| WentOn(trace, longer, me);
      assert WentOn(trace, longer, me);
      trace := longer;
      world := trace[|trace| - 1].world;
    }

    /** One call that takes effect. */
    method Perform(me: Actor, round: nat, call: Call)
      requires Valid() && !me.Others? && round <= |trace| && Guard(trace, world, me, round, call)
      modifies this`world, this`trace
      ensures Valid() && trace == old(trace) + [Entry(world, me, round, call)] && world == Effect(old(world), me, call)
    {
      hide Guard, Effect, Protected, Housed;
      var e := Entry(Effect(world, me, call), me, round, call);
      assert (trace + [e])[..|trace|] == trace;
      trace := trace + [e];
      world := e.world;
    }

    /** Whether the caller learns that its call succeeded; it may have failed, or be the last of the reconcile. */
    method Answer(applied: bool) returns (ok: bool)
      modifies this`faults
      ensures (ok ==> applied) && faults == old(faults) + if ok then 0 else 1
    {
      ok := *;
      ok := ok && applied;
      if !ok {
        faults := faults + 1;
      }
    }

    /** A read: what it returns is in the run as seen by this reconcile. */
    method See(me: Actor, round: nat) returns (ok: bool)
      requires Valid() && !me.Others? && round <= |trace|
      modifies this
      ensures Valid() && old(trace) <= trace && |trace| > |old(trace)| && faults == old(faults) + if ok then 0 else 1
      ensures trace[|trace| - 1] == Entry(world, me, round, Look)
      ensures WentOn(old(trace), trace[..|trace| - 1], me) && trace[|trace| - 2].world == world
    {
      hide Run, Moves;
      Interfere(me);
      label Now:
      Perform(me, round, Look);
      assert trace[..|trace| - 1] == old@Now(trace);
      ok := Answer(true);
    }

    // -------------------------------------------------------------- Database reconciler

    /** Keep the finalizer in place before the Cluster is first written. */
    method ReconcileDatabase(d: string) returns (end: DatabaseEnd)
      requires Valid()
      modifies this
      ensures Valid() && old(trace) <= trace && DatabaseOutcome(trace, d, |old(trace)|, end)
      ensures faults >= old(faults) && (end.Faulted? <==> faults > old(faults))
    {
      hide Run, Guard, BackupPending, Ended;
      var me := DatabaseController(d);
      var round := |trace|;
      var ok := See(me, round);
      if !ok {
        return Faulted;
      }
      if d !in world.databases {
        assert DatabaseGone(trace[|trace| - 1].world, d);
        return Gone;
      }
      var database := world.databases[d];
      ghost var read := trace;
      FirstNow(old(trace), trace, me);
      if database.terminating {
        end := ReconcileDatabaseDeletion(d, database, round);
        return;
      }
      assert LiveSeen(read, d, round) by { LiveDatabaseNow(d, round); }
      if !database.finalizer {
        ok := AddFinalizer(d, round);
        if !ok {
          return Faulted;
        }
      }
      EvidenceLasts(read, trace, d, round);
      end := WriteChildren(d, round);
    }

    /** What a new reconcile looks at first is its first entry. */
    lemma FirstNow(past: seq<Entry>, longer: seq<Entry>, me: Actor)
      requires Run(past) && |longer| > |past| && WentOn(past, longer[..|longer| - 1], me) && Saw(longer[|longer| - 1], me, |past|)
      ensures FirstRead(longer, |longer| - 1, me, |past|)
    {
      hide Run;
      forall h | 0 <= h < |longer| - 1 ensures !Mine(longer[h], me, |past|) {
        assert longer[..|longer| - 1][h] == longer[h];
        if h < |past| {
          RoundsStart(past, h);
          assert longer[h] == past[h];
        }
      }
    }

    lemma LiveDatabaseNow(d: string, round: nat)
      requires Valid() && trace[|trace| - 1] == Entry(world, DatabaseController(d), round, Look) && d in world.databases && !world.databases[d].terminating
      ensures LiveSeen(trace, d, round)
    {
      hide Run;
    }

    method AddFinalizer(d: string, round: nat) returns (ok: bool)
      requires Valid() && round <= |trace|
      modifies this
      ensures Valid() && old(trace) <= trace && faults == old(faults) + if ok then 0 else 1
      ensures ok ==> d in world.databases && world.databases[d].finalizer
                     && Ended(trace, DatabaseController(d), round, AddDatabaseFinalizer)
    {
      hide Run, Moves;
      Interfere(DatabaseController(d));
      var applied: bool := *;
      applied := applied && d in world.databases && !world.databases[d].terminating;
      if applied {
        Perform(DatabaseController(d), round, AddDatabaseFinalizer);
      }
      ok := Answer(applied);
    }

    /** The checks, the backup objects, then the Cluster. */
    method WriteChildren(d: string, round: nat) returns (end: DatabaseEnd)
      requires Valid() && round <= |trace| && d in world.databases && world.databases[d].finalizer && LiveSeen(trace, d, round)
      modifies this
      ensures Valid() && old(trace) <= trace && DatabaseOutcome(trace, d, round, end) && (end.Faulted? || end.Rejected? || end.Serving?)
      ensures faults >= old(faults) && (end.Faulted? <==> faults > old(faults))
    {
      hide Run, Moves, WentOn, LiveSeen, Effect, Released, Kept;
      var ok := See(DatabaseController(d), round);  // what validation, tenancy and the credential say
      OthersRespect(old(trace), trace[..|trace| - 1], d);
      if !ok {
        return Faulted;
      }
      if !world.databases[d].valid {
        assert DatabaseRefused(trace[|trace| - 1].world, d);
        return Rejected;
      }
      ok := Answer(true);  // credential, object store and schedule
      if !ok {
        return Faulted;
      }
      Stay(d);
      EvidenceLasts(old(trace), trace, d, round);
      var applied: bool := *;
      applied := applied && (d in world.clusters || Active(world.namespace));
      if applied {
        Perform(DatabaseController(d), round, WriteCluster);
      }
      ok := Answer(applied);
      end := if ok then Serving else Faulted;
    }

    /** What others leave of a Database this controller works on. */
    method Stay(d: string)
      requires Valid()
      modifies this`world, this`trace
      ensures Valid() && old(trace) <= trace && WentOn(old(trace), trace, DatabaseController(d))
      ensures d in old(world).databases && old(world).databases[d].finalizer ==>
                d in world.databases && world.databases[d].finalizer && (old(world).databases[d].terminating ==> world.databases[d].terminating)
      ensures !Kept(old(world), d) ==> !Kept(world, d)
      ensures forall round :: Released(old(trace), d, round) ==> Released(trace, d, round)
    {
      hide Run, Moves, Released, LiveSeen;
      Interfere(DatabaseController(d));
      OthersRespect(old(trace), trace, d);
      forall round | Released(old(trace), d, round) ensures Released(trace, d, round) {
        EvidenceLasts(old(trace), trace, d, round);
      }
    }

    /** Final Backup, then the Cluster, then the finalizer; force skips the wait. */
    method ReconcileDatabaseDeletion(d: string, database: Database, round: nat) returns (end: DatabaseEnd)
      requires Valid() && trace[|trace| - 1] == Entry(world, DatabaseController(d), round, Look) && round <= |trace|
      requires FirstRead(trace, |trace| - 1, DatabaseController(d), round)
      requires d in world.databases && database == world.databases[d] && database.terminating
      modifies this
      ensures Valid() && old(trace) <= trace && DatabaseOutcome(trace, d, round, end)
      ensures faults >= old(faults) && (end.Faulted? <==> faults > old(faults))
      ensures end.Gone? <==> !database.finalizer
      ensures end.Waiting? ==> database.backups && !database.force
      ensures !database.backups && !database.force ==> OnlyCalls(trace, |old(trace)|, d, {DeleteCluster, DropDatabaseFinalizer})
      ensures database.force ==> OnlyCalls(trace, |old(trace)|, d, {DeleteFinalBackup, DeleteCluster, DropDatabaseFinalizer})
      ensures database.force && end.Finalized? ==> exists k :: |old(trace)| <= k + 1 <= |trace| && d !in trace[k].world.backups
      ensures end.Faulted? || end.Gone? || end.Waiting? || end.Finalized?
    {
      hide Run, Released, WentOn, Effect, Ended, BackupPending;
      if !database.finalizer {
        assert DatabaseGone(trace[|trace| - 1].world, d);
        return Gone;
      }
      var ok := true;
      if database.backups && !database.force {
        var completed;
        ok, completed := CompleteFinalBackup(d, round);
        if ok && !completed {
          return Waiting;
        }
      } else {
        ForgoneNow(d, round);
        if database.force {
          ok := RemoveFinalBackup(d, round);
        }
      }
      if !ok {
        return Faulted;
      }
      ghost var at := |trace| - 1;
      label Released:
      ok := RemoveCluster(d, round);
      ghost var freed := if database.force then {DeleteFinalBackup} else {};
      if !database.backups || database.force {
        MoreCalls(old@Released(trace), trace, |old(trace)|, d, freed, {DeleteCluster});
      }
      if !ok {
        return Faulted;
      }
      label Removed:
      ok := DropFinalizer(d, round);
      if !database.backups || database.force {
        MoreCalls(old@Removed(trace), trace, |old(trace)|, d, freed + {DeleteCluster}, {DropDatabaseFinalizer});
      }
      assert trace[at] == old@Released(trace)[at];
      end := if ok then Finalized else Faulted;
    }

    lemma ForgoneNow(d: string, round: nat)
      requires Valid() && trace[|trace| - 1].world == world && FirstRead(trace, |trace| - 1, DatabaseController(d), round) && Forgoes(world, d)
      ensures Released(trace, d, round)
    {
      hide Run, Forgoes, FirstRead;
    }

    lemma CompletedNow(d: string, round: nat, i: nat)
      requires Valid() && trace[|trace| - 1] == Entry(world, DatabaseController(d), round, Look) && d in world.backups && world.backups[d] == Completed
      requires i < |trace| - 1 && Mine(trace[i], DatabaseController(d), round) && trace[i].call == WriteFinalBackup
      ensures Released(trace, d, round)
    {
      hide Run;
      var j := |trace| - 1;
      assert Saw(trace[j], DatabaseController(d), round);
    }

    /** Request the deterministic final Backup and look at it; only a completed one lets the deletion go on. */
    method CompleteFinalBackup(d: string, round: nat) returns (ok: bool, completed: bool)
      requires Valid() && trace[|trace| - 1] == Entry(world, DatabaseController(d), round, Look) && round <= |trace|
      requires FirstRead(trace, |trace| - 1, DatabaseController(d), round)
      requires Leaving(world, d) && world.databases[d].backups && !world.databases[d].force
      modifies this
      ensures Valid() && old(trace) <= trace && Leaving(world, d) && faults == old(faults) + if ok then 0 else 1
      ensures ok && completed ==> Released(trace, d, round) && d !in world.backups
      ensures ok && !completed ==> BackupPending(trace, d, round)
    {
      hide Run, Released, WentOn, BackupPending;
      completed := false;
      ghost var h := |trace| - 1;
      Stay(d);
      var applied: bool := *;
      applied := applied && (d in world.backups || Active(world.namespace));
      ghost var i := |trace|;
      if applied {
        Perform(DatabaseController(d), round, WriteFinalBackup);
      }
      ok := Answer(applied);
      if !ok {
        return;
      }
      label Requested:
      ok := Reread(d, round);
      if !ok {
        return;
      }
      assert trace[h] == old(trace)[h] && trace[i] == old@Requested(trace)[i];
      if d !in world.backups || world.backups[d] != Completed {
        PendingNow(d, round, h, i);
        return;
      }
      CompletedNow(d, round, i);
      completed := true;
      ok := RemoveFinalBackup(d, round);
    }

    lemma PendingNow(d: string, round: nat, h: nat, i: nat)
      requires Valid() && trace[|trace| - 1] == Entry(world, DatabaseController(d), round, Look) && AwaitsBackup(world, d)
      requires h < i < |trace| - 1 && FirstRead(trace, h, DatabaseController(d), round) && Leaving(trace[h].world, d)
      requires trace[h].world.databases[d].backups && !trace[h].world.databases[d].force
      requires Mine(trace[i], DatabaseController(d), round) && trace[i].call == WriteFinalBackup
      ensures BackupPending(trace, d, round)
    {
      hide Run;
      var j := |trace| - 1;
      assert Saw(trace[j], DatabaseController(d), round) && AwaitsBackup(trace[j].world, d);
      assert !Forgoes(trace[h].world, d);
    }

    method Reread(d: string, round: nat) returns (ok: bool)
      requires Valid() && round <= |trace| && Leaving(world, d)
      modifies this
      ensures Valid() && old(trace) <= trace && |trace| > |old(trace)| && Leaving(world, d) && faults == old(faults) + if ok then 0 else 1
      ensures trace[|trace| - 1] == Entry(world, DatabaseController(d), round, Look)
    {
      hide Run;
      ok := See(DatabaseController(d), round);
      OthersRespect(old(trace), trace[..|trace| - 1], d);
    }

    method RemoveFinalBackup(d: string, round: nat) returns (ok: bool)
      requires Valid() && round <= |trace| && Leaving(world, d) && Released(trace, d, round)
      modifies this
      ensures Valid() && old(trace) <= trace && Leaving(world, d) && Released(trace, d, round) && faults == old(faults) + if ok then 0 else 1
      ensures ok ==> d !in world.backups
      ensures OnlyCalls(trace, |old(trace)|, d, {DeleteFinalBackup}) && world == trace[|trace| - 1].world
    {
      hide Run, Released, WentOn;
      Stay(d);
      NoCalls(old(trace), trace, d);
      var applied: bool := *;
      if applied && d in world.backups {
        ghost var past := trace;
        Perform(DatabaseController(d), round, DeleteFinalBackup);
        EvidenceLasts(past, trace, d, round);
      }
      ok := Answer(applied);
    }

    method RemoveCluster(d: string, round: nat) returns (ok: bool)
      requires Valid() && round <= |trace| && Leaving(world, d) && Released(trace, d, round)
      modifies this
      ensures Valid() && old(trace) <= trace && Leaving(world, d) && Released(trace, d, round) && faults == old(faults) + if ok then 0 else 1
      ensures ok ==> !Kept(world, d)
      ensures OnlyCalls(trace, |old(trace)|, d, {DeleteCluster})
    {
      hide Run, Released, WentOn;
      Stay(d);
      NoCalls(old(trace), trace, d);
      var applied: bool := *;
      if applied && d in world.clusters {
        ghost var past := trace;
        Perform(DatabaseController(d), round, DeleteCluster);
        EvidenceLasts(past, trace, d, round);
      }
      ok := Answer(applied);
    }

    method DropFinalizer(d: string, round: nat) returns (ok: bool)
      requires Valid() && round <= |trace| && Leaving(world, d) && Released(trace, d, round) && !Kept(world, d)
      modifies this
      ensures Valid() && old(trace) <= trace && faults == old(faults) + if ok then 0 else 1
      ensures ok ==> Ended(trace, DatabaseController(d), round, DropDatabaseFinalizer)
      ensures OnlyCalls(trace, |old(trace)|, d, {DropDatabaseFinalizer})
    {
      hide Run, Released, WentOn;
      Stay(d);
      NoCalls(old(trace), trace, d);
      var applied: bool := *;
      if applied {
        Perform(DatabaseController(d), round, DropDatabaseFinalizer);
      }
      ok := Answer(applied);
    }

    // -------------------------------------------------------------- Team reconciler

    method ReconcileTeam() returns (end: TeamEnd)
      requires Valid()
      modifies this
      ensures Valid() && old(trace) <= trace && TeamOutcome(trace, |old(trace)|, end)
      ensures faults >= old(faults) && (end.TeamFaulted? <==> faults > old(faults))
    {
      hide Run, Guard, WentOn, Effect, Ended, ForeignSeen, ApplicationsRequested, DatabasesRequested, EmptySeen, DyingSeen;
      var round := |trace|;
      var ok := See(TeamController, round);
      if !ok {
        return TeamFaulted;
      }
      if world.team.None? {
        assert TeamIsGone(trace[|trace| - 1].world);
        return TeamGone;
      }
      var team := world.team.value;
      if team.terminating {
        end := ReconcileTeamDeletion(team, round);
      } else {
        end := ReconcileNamespace(team, round);
      }
    }

    /** Take the finalizer, then own the Namespace unless it belongs to another Team. */
    method ReconcileNamespace(team: Team, round: nat) returns (end: TeamEnd)
      requires Valid() && round <= |trace| && trace[|trace| - 1] == Entry(world, TeamController, round, Look)
      requires world.team == Some(team) && !team.terminating
      modifies this
      ensures Valid() && old(trace) <= trace && TeamOutcome(trace, round, end) && (end.TeamFaulted? || end.Invalid? || end.Foreign? || end.Owned?)
      ensures faults >= old(faults) && (end.TeamFaulted? <==> faults > old(faults))
    {
      hide Run, WentOn, Effect, LiveTeamSeen, Moves, ForeignSeen;
      assert LiveTeamSeen(trace, round, team.uid) by { LiveNow(round, team.uid); }
      var ok := true;
      if !team.finalizer {
        ok := AddTeamFinalizer(round);
        LiveTeamLasts(old(trace), trace, round, team.uid);
        if !ok {
          return TeamFaulted;
        }
      }
      label Held:
      if !world.team.value.valid {
        assert TeamIsInvalid(trace[|trace| - 1].world);
        return Invalid;
      }
      ok := See(TeamController, round);
      if !ok {
        return TeamFaulted;
      }
      if world.namespace.Some? && world.namespace.value.owner != team.uid {
        ForeignNow(old(trace), round);
        return Foreign;
      }
      label Owned:
      Interfere(TeamController);
      MeansLonger(old@Owned(trace), trace);
      LiveTeamLasts(old(trace), trace, round, team.uid);
      var applied: bool := *;
      if applied {
        Perform(TeamController, round, WriteNamespace(team.uid));
      }
      ok := Answer(applied);
      end := if ok then TeamEnd.Owned else TeamFaulted;
    }

    method AddTeamFinalizer(round: nat) returns (ok: bool)
      requires Valid() && round <= |trace|
      modifies this
      ensures Valid() && old(trace) <= trace && faults == old(faults) + if ok then 0 else 1
      ensures ok ==> Ended(trace, TeamController, round, Call.AddTeamFinalizer) && world.team.Some? && world.team.value.finalizer
    {
      hide Run, Moves, WentOn;
      Interfere(TeamController);
      MeansLonger(old(trace), trace);
      var applied: bool := *;
      applied := applied && world.team.Some? && !world.team.value.terminating;
      if applied {
        Perform(TeamController, round, Call.AddTeamFinalizer);
      }
      ok := Answer(applied);
    }

    lemma MeansLonger(past: seq<Entry>, longer: seq<Entry>)
      requires WentOn(past, longer, TeamController)
      ensures past <= longer
    {
      hide Run;
    }

    lemma LiveNow(round: nat, uid: nat)
      requires Valid() && trace[|trace| - 1] == Entry(world, TeamController, round, Look)
      requires world.team.Some? && !world.team.value.terminating && world.team.value.uid == uid
      ensures LiveTeamSeen(trace, round, uid)
    {
      hide Run;
    }

    lemma ForeignNow(past: seq<Entry>, round: nat)
      requires Valid() && trace[|trace| - 1] == Entry(world, TeamController, round, Look)
      requires past != [] && past <= trace && |past| < |trace| && Saw(past[|past| - 1], TeamController, round)
      requires past[|past| - 1].world.team.Some? && world.namespace.Some?
      requires var team := past[|past| - 1].world.team.value;
               if team.terminating then !Managed(world.namespace, team.uid) else world.namespace.value.owner != team.uid
      ensures ForeignSeen(trace, round)
    {
      hide Run;
      var i, j := |past| - 1, |trace| - 1;
      assert trace[i] == past[i] && Saw(trace[i], TeamController, round) && Saw(trace[j], TeamController, round);
    }

    /** Applications first, then Databases, then the Namespace, then the Team. */
    method ReconcileTeamDeletion(team: Team, round: nat) returns (end: TeamEnd)
      requires Valid() && round <= |trace| && trace[|trace| - 1] == Entry(world, TeamController, round, Look)
      requires world.team == Some(team) && team.terminating
      modifies this
      ensures Valid() && old(trace) <= trace && TeamOutcome(trace, round, end)
      ensures faults >= old(faults) && (end.TeamFaulted? <==> faults > old(faults))
      ensures (end.TeamGone? <==> !team.finalizer) && !end.Invalid? && !end.Owned?
    {
      hide Run, WentOn, ManagedSeen, EmptySeen, NamespaceAbsentSeen, ForeignSeen, Ended, DyingSeen, ApplicationsRequested, DatabasesRequested;
      if !team.finalizer {
        assert TeamIsGone(trace[|trace| - 1].world);
        return TeamGone;
      }
      var ok := See(TeamController, round);
      OthersKeepTheTeam(old(trace), trace[..|trace| - 1]);
      if !ok {
        return TeamFaulted;
      }
      if world.namespace.None? {
        ok := DropTeam(round);
        return if ok then TeamReleased else TeamFaulted;
      }
      if !Managed(world.namespace, team.uid) {
        ForeignNow(old(trace), round);
        return Foreign;
      }
      ManagedNow(old(trace), round);
      end := DeleteContents(team, world.namespace.value.terminating, round, |old(trace)| - 1);
    }

    /** What is left in the Team's own Namespace, tier by tier. */
    method DeleteContents(team: Team, terminating: bool, round: nat, ghost i: nat) returns (end: TeamEnd)
      requires Valid() && round <= |trace| && trace[|trace| - 1] == Entry(world, TeamController, round, Look)
      requires ManagedSeen(trace, round) && (terminating ==> Dying(world))
      requires i < |trace| - 1 && Saw(trace[i], TeamController, round) && trace[i].world.team == Some(team)
      modifies this
      ensures Valid() && old(trace) <= trace && TeamOutcome(trace, round, end)
      ensures faults >= old(faults) && (end.TeamFaulted? <==> faults > old(faults))
      ensures end.TeamFaulted? || end.AwaitingApplications? || end.AwaitingDatabases? || end.AwaitingNamespace?
    {
      hide Run, WentOn, ManagedSeen, NoApplicationsSeen, EmptySeen, ForceSeen, Ended, DyingSeen, ApplicationsRequested, DatabasesRequested;
      if terminating {
        DyingNow(round);
      }
      var ok := See(TeamController, round);
      EvidenceLasts(old(trace), trace, "", round);
      DyingLasts(old(trace), trace, round);
      if !ok {
        return TeamFaulted;
      }
      if world.applications != map[] {
        ok := DeleteApplications(world.applications, round);
        return if ok then AwaitingApplications else TeamFaulted;
      }
      NoApplicationsNow(round);
      end := DeleteDatabasesAndNamespace(team, terminating, round, i);
    }

    method DeleteDatabasesAndNamespace(team: Team, terminating: bool, round: nat, ghost i: nat) returns (end: TeamEnd)
      requires Valid() && round <= |trace| && ManagedSeen(trace, round) && NoApplicationsSeen(trace, round) && (terminating ==> DyingSeen(trace, round))
      requires i < |trace| && Saw(trace[i], TeamController, round) && trace[i].world.team == Some(team)
      modifies this
      ensures Valid() && old(trace) <= trace && TeamOutcome(trace, round, end)
      ensures faults >= old(faults) && (end.TeamFaulted? <==> faults > old(faults))
      ensures end.TeamFaulted? || end.AwaitingDatabases? || end.AwaitingNamespace?
    {
      hide Run, WentOn, ManagedSeen, NoApplicationsSeen, EmptySeen, ForceSeen, Ended, DyingSeen, ApplicationsRequested, DatabasesRequested;
      var ok := See(TeamController, round);
      EvidenceLasts(old(trace), trace, "", round);
      DyingLasts(old(trace), trace, round);
      if !ok {
        return TeamFaulted;
      }
      assert trace[i] == old(trace)[i];
      if world.databases != map[] {
        if team.force {
          ForceIn(trace[..i + 1], trace, round);
        }
        NoApplicationsBefore(old(trace), round);
        ok := DeleteDatabases(world.databases, team.force, round, i);
        return if ok then AwaitingDatabases else TeamFaulted;
      }
      EmptyNow(old(trace), round);
      if !terminating {
        ok := RemoveNamespace(round);
      }
      end := if ok then AwaitingNamespace else TeamFaulted;
    }

    method DropTeam(round: nat) returns (ok: bool)
      requires Valid() && round <= |trace| && trace[|trace| - 1] == Entry(world, TeamController, round, Look)
      requires world.namespace.None? && world.team.Some? && world.team.value.finalizer && world.team.value.terminating
      modifies this
      ensures Valid() && old(trace) <= trace && faults == old(faults) + if ok then 0 else 1
      ensures ok ==> Ended(trace, TeamController, round, DropTeamFinalizer)
    {
      hide Run, NamespaceAbsentSeen;
      assert NamespaceAbsentSeen(trace, round) by { AbsentNow(round); }
      Interfere(TeamController);
      OthersKeepTheTeam(old(trace), trace);
      EvidenceLasts(old(trace), trace, "", round);
      var applied: bool := *;
      if applied {
        Perform(TeamController, round, DropTeamFinalizer);
      }
      ok := Answer(applied);
    }

    /** Delete every listed Application that is not terminating yet. */
    method DeleteApplications(listed: map<string, bool>, round: nat) returns (ok: bool)
      requires Valid() && round <= |trace| && ManagedSeen(trace, round)
      requires trace[|trace| - 1] == Entry(world, TeamController, round, Look) && listed == world.applications != map[]
      modifies this
      ensures Valid() && old(trace) <= trace && faults == old(faults) + if ok then 0 else 1
      ensures ok ==> ApplicationsRequested(trace, round)
    {
      hide Run, ManagedSeen, WentOn, Called, TeamMoves, NamespaceMoves, Ended;
      ghost var j := |trace| - 1;
      var names := listed.Keys;
      ok := true;
      while names != {}
        invariant Valid() && old(trace) <= trace && names <= listed.Keys && ManagedSeen(trace, round) && faults == old(faults) && ok
        invariant forall a <- listed.Keys - names :: listed[a] || Called(trace, j, round, DeleteApplication(a))
        decreases |names|
      {
        var a :| a in names;
        names := names - {a};
        if !listed[a] {
          ghost var past := trace;
          ok := RequestTeamCall(DeleteApplication(a), round);
          if !ok {
            return;
          }
          CalledNow(j, round, DeleteApplication(a));
          forall b | b in listed.Keys - names - {a} && !listed[b] ensures Called(trace, j, round, DeleteApplication(b)) {
            CalledLasts(past, trace, j, round, DeleteApplication(b));
          }
        }
      }
      assert trace[j] == old(trace)[j] && listed.Keys - names == listed.Keys;
    }

    lemma CalledNow(from: nat, round: nat, call: Call)
      requires Ended(trace, TeamController, round, call) && from < |trace| - 1
      ensures Called(trace, from, round, call)
    {
    }

    /** Delete every listed Database, passing the Team's force on first. */
    method DeleteDatabases(listed: map<string, Database>, force: bool, round: nat, ghost i: nat) returns (ok: bool)
      requires Valid() && round <= |trace| && ManagedSeen(trace, round) && NoApplicationsSeen(trace, round) && (force ==> ForceSeen(trace, round))
      requires trace[|trace| - 1] == Entry(world, TeamController, round, Look) && listed == world.databases != map[]
      requires NoApplicationsSeen(trace[..|trace| - 1], round)
      requires i < |trace| - 1 && Saw(trace[i], TeamController, round) && trace[i].world.team.Some? && trace[i].world.team.value.force == force
      modifies this
      ensures Valid() && old(trace) <= trace && faults == old(faults) + if ok then 0 else 1
      ensures ok ==> DatabasesRequested(trace, round)
    {
      hide Run, ManagedSeen, NoApplicationsSeen, ForceSeen, WentOn, Requested, TeamMoves, NamespaceMoves;
      ghost var j := |trace| - 1;
      var names := listed.Keys;
      ok := true;
      while names != {}
        invariant Valid() && old(trace) <= trace && names <= listed.Keys && faults == old(faults) && ok
        invariant ManagedSeen(trace, round) && NoApplicationsSeen(trace, round) && (force ==> ForceSeen(trace, round))
        invariant forall d <- listed.Keys - names :: Requested(trace, j, round, d, listed[d], force)
        decreases |names|
      {
        var d :| d in names;
        names := names - {d};
        ghost var past := trace;
        ok := SendOff(d, listed[d], force, round, j);
        if !ok {
          return;
        }
        forall b | b in listed.Keys - names - {d} ensures Requested(trace, j, round, b, listed[b], force) {
          RequestedLasts(past, trace, j, round, b, listed[b], force);
        }
      }
      assert trace[j] == old(trace)[j] && trace[i] == old(trace)[i] && trace[..j] == old(trace)[..j] && listed.Keys - names == listed.Keys;
    }

    /** Force first, then deletion. */
    method SendOff(d: string, listed: Database, force: bool, round: nat, ghost j: nat) returns (ok: bool)
      requires Valid() && round <= |trace| && j < |trace|
      requires ManagedSeen(trace, round) && NoApplicationsSeen(trace, round) && (force ==> ForceSeen(trace, round))
      modifies this
      ensures Valid() && old(trace) <= trace && faults == old(faults) + if ok then 0 else 1
      ensures ManagedSeen(trace, round) && NoApplicationsSeen(trace, round) && (force ==> ForceSeen(trace, round))
      ensures ok ==> Requested(trace, j, round, d, listed, force)
    {
      hide Run, ManagedSeen, NoApplicationsSeen, ForceSeen, TeamMoves, NamespaceMoves, Called;
      ok := true;
      ghost var k := j;
      if force && !listed.force {
        ok := RequestTeamCall(ForceDatabase(d), round);
        if !ok {
          return;
        }
        k := |trace| - 1;
      }
      label Forced:
      if !listed.terminating {
        ok := RequestTeamCall(DeleteDatabase(d), round);
        if !ok {
          return;
        }
        CalledNow(k, round, DeleteDatabase(d));
        assert trace[k] == old@Forced(trace)[k];
      }
    }

    method RequestTeamCall(call: Call, round: nat) returns (ok: bool)
      requires Valid() && round <= |trace| && ManagedSeen(trace, round)
      requires call.DeleteApplication? || (call.DeleteDatabase? && NoApplicationsSeen(trace, round))
               || (call.ForceDatabase? && NoApplicationsSeen(trace, round) && ForceSeen(trace, round))
      modifies this
      ensures Valid() && old(trace) <= trace && ManagedSeen(trace, round) && faults == old(faults) + if ok then 0 else 1
      ensures old(NoApplicationsSeen(trace, round)) ==> NoApplicationsSeen(trace, round)
      ensures old(ForceSeen(trace, round)) ==> ForceSeen(trace, round)
      ensures ok ==> |trace| > |old(trace)| && Ended(trace, TeamController, round, call)
    {
      hide Run, ManagedSeen, NoApplicationsSeen, ForceSeen, Effect;
      Interfere(TeamController);
      EvidenceLasts(old(trace), trace, "", round);
      var applied: bool := *;
      if applied {
        ghost var past := trace;
        Perform(TeamController, round, call);
        EvidenceLasts(past, trace, "", round);
      }
      ok := Answer(applied);
    }

    method RemoveNamespace(round: nat) returns (ok: bool)
      requires Valid() && round <= |trace| && ManagedSeen(trace, round) && EmptySeen(trace, round)
      modifies this
      ensures Valid() && old(trace) <= trace && faults == old(faults) + if ok then 0 else 1
      ensures EmptySeen(trace, round) && (ok ==> Ended(trace, TeamController, round, DeleteNamespace))
    {
      hide Run, ManagedSeen, EmptySeen;
      Interfere(TeamController);
      EvidenceLasts(old(trace), trace, "", round);
      EmptyLasts(old(trace), trace, round);
      var applied: bool := *;
      if applied {
        ghost var past := trace;
        Perform(TeamController, round, DeleteNamespace);
        EmptyLasts(past, trace, round);
      }
      ok := Answer(applied);
    }

    lemma DyingNow(round: nat)
      requires Valid() && trace[|trace| - 1] == Entry(world, TeamController, round, Look) && Dying(world)
      ensures DyingSeen(trace, round)
    {
      hide Run;
    }

    lemma DyingLasts(past: seq<Entry>, longer: seq<Entry>, round: nat)
      requires past <= longer
      ensures DyingSeen(past, round) ==> DyingSeen(longer, round)
    {
      assert forall i :: 0 <= i < |past| ==> longer[i] == past[i];
    }

    lemma NoApplicationsBefore(past: seq<Entry>, round: nat)
      requires past <= trace && |past| < |trace| && NoApplicationsSeen(past, round)
      ensures NoApplicationsSeen(trace[..|trace| - 1], round)
    {
      EvidenceLasts(past, trace[..|trace| - 1], "", round);
    }

    lemma AbsentNow(round: nat)
      requires Valid() && trace[|trace| - 1] == Entry(world, TeamController, round, Look) && world.namespace.None?
      ensures NamespaceAbsentSeen(trace, round)
    {
      hide Run;
    }

    lemma ManagedNow(past: seq<Entry>, round: nat)
      requires Valid() && trace[|trace| - 1] == Entry(world, TeamController, round, Look)
      requires past != [] && past <= trace && Mine(past[|past| - 1], TeamController, round)
      requires past[|past| - 1].world.team.Some? && past[|past| - 1].world.team.value.terminating
      requires Managed(world.namespace, past[|past| - 1].world.team.value.uid)
      ensures ManagedSeen(trace, round)
    {
      hide Run;
      var i, j := |past| - 1, |trace| - 1;
      assert trace[i] == past[i] && Mine(trace[i], TeamController, round) && Mine(trace[j], TeamController, round);
    }

    lemma NoApplicationsNow(round: nat)
      requires Valid() && trace[|trace| - 1] == Entry(world, TeamController, round, Look) && world.applications == map[]
      ensures NoApplicationsSeen(trace, round)
    {
      hide Run;
    }

    lemma EmptyNow(past: seq<Entry>, round: nat)
      requires Valid() && trace[|trace| - 1] == Entry(world, TeamController, round, Look) && world.databases == map[]
      requires past <= trace && |past| < |trace| && NoApplicationsSeen(past, round)
      ensures EmptySeen(trace, round)
    {
      hide Run, NoApplicationsSeen;
      var j := |trace| - 1;
      EvidenceLasts(past, trace[..j], "", round);
      assert Mine(trace[j], TeamController, round);
    }

    lemma ForceIn(past: seq<Entry>, longer: seq<Entry>, round: nat)
      requires past != [] && past <= longer && Mine(past[|past| - 1], TeamController, round)
      requires past[|past| - 1].world.team.Some? && past[|past| - 1].world.team.value.force
      ensures ForceSeen(longer, round)
    {
      assert longer[|past| - 1] == past[|past| - 1];
    }
  }

  /** However the two reconcilers are scheduled, and wherever each stops, the result is a run. */
  method Operate(start: World, schedule: seq<Actor>) returns (c: Controllers)
    requires Protected(start) && Housed(start)
    ensures fresh(c) && Run(c.trace) && c.trace != [] && c.trace[0].world == start
  {
    hide Run, Protected, Housed;
    c := new Controllers(start);
    var i := 0;
    while i < |schedule|
      invariant fresh(c) && c.Valid() && c.trace[0].world == start
    {
      match schedule[i] {
        case Others =>
        case TeamController => var _ := c.ReconcileTeam();
        case DatabaseController(d) => var _ := c.ReconcileDatabase(d);
      }
      i := i + 1;
    }
  }
}
