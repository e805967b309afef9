/** What the Database controller concludes from the Backups of a Cluster. */
module DatabaseStatus {
  import opened Wrappers

  datatype Phase = Pending | Running | Completed | Failed | Other

  /** `at` is when the attempt stopped, started or was created; 0 is the zero time. */
  datatype Backup = Backup(cluster: string, phase: Phase, at: nat)

  datatype BackupState = BackupState(lastSuccessful: Option<nat>, latestPhase: Option<Phase>)

  datatype DatabasePhase = Provisioning | Restoring | BackingUp | Healthy | Degraded
  datatype Truth = True | False | Unknown
  datatype Status = Status(phase: DatabasePhase, clusterReady: Truth, backupHealthy: Truth, ready: Truth)

  // ---------------------------------------------------------------- specification

  /** The newest completed backup of the cluster. */
  ghost predicate IsLastSuccess(backups: seq<Backup>, cluster: string, last: Option<nat>) {
    match last
    case None => forall b <- backups :: b.cluster == cluster ==> b.phase != Completed
    case Some(at) =>
      && (exists b <- backups :: b.cluster == cluster && b.phase == Completed && b.at == at)
      && forall b <- backups :: b.cluster == cluster && b.phase == Completed ==> b.at <= at
  }

  /** Attempt `i` is no older than any other and, unless undated, the first of its date. */
  ghost predicate IsLatest(backups: seq<Backup>, cluster: string, i: int) {
    && 0 <= i < |backups| && backups[i].cluster == cluster
    && (forall j :: 0 <= j < |backups| && backups[j].cluster == cluster ==> backups[j].at <= backups[i].at)
    && (forall j :: 0 <= j < i && backups[j].cluster == cluster && backups[i].at > 0 ==> backups[j].at < backups[i].at)
    && (forall j :: i < j < |backups| && backups[j].cluster == cluster ==> backups[i].at > 0)
  }

  ghost predicate Observes(backups: seq<Backup>, cluster: string, state: BackupState) {
    && IsLastSuccess(backups, cluster, state.lastSuccessful)
    && (state.latestPhase.None? <==> forall b <- backups :: b.cluster != cluster)
    && (state.latestPhase.Some? ==> exists i :: IsLatest(backups, cluster, i) && backups[i].phase == state.latestPhase.value)
  }

  // ---------------------------------------------------------------- the running maxima

  method ObserveDatabaseBackups(backups: seq<Backup>, cluster: string) returns (state: BackupState)
    ensures Observes(backups, cluster, state)
  {
    hide IsLastSuccess;
    state := BackupState(None, None);
    var latestAttempt: nat := 0;
    ghost var latest := -1;
    var i := 0;
    LastSuccessStart(cluster);
    assert backups[..0] == [];
    while i < |backups|
      invariant 0 <= i <= |backups| && IsLastSuccess(backups[..i], cluster, state.lastSuccessful)
      invariant latest == -1 ==> state.latestPhase.None? && latestAttempt == 0 && forall j :: 0 <= j < i ==> backups[j].cluster != cluster
      invariant latest != -1 ==> IsLatest(backups[..i], cluster, latest) && latestAttempt == backups[latest].at
                                 && state.latestPhase == Some(backups[latest].phase)
    {
      var backup := backups[i];
      assert backups[..i + 1] == backups[..i] + [backup];
      LastSuccessStep(backups[..i], backup, cluster, state.lastSuccessful);
      i := i + 1;
      if backup.cluster != cluster {
        continue;
      }
      if latestAttempt == 0 || backup.at > latestAttempt {
        latestAttempt, latest := backup.at, i - 1;
        state := state.(latestPhase := Some(backup.phase));
      }
      if backup.phase == Completed && (state.lastSuccessful.None? || backup.at > state.lastSuccessful.value) {
        state := state.(lastSuccessful := Some(backup.at));
      }
    }
    assert backups[..i] == backups;
  }

  lemma LastSuccessStart(cluster: string)
    ensures IsLastSuccess([], cluster, None)
  {
  }

  lemma LastSuccessStep(backups: seq<Backup>, backup: Backup, cluster: string, last: Option<nat>)
    requires IsLastSuccess(backups, cluster, last)
    ensures IsLastSuccess(backups + [backup], cluster,
                          if backup.cluster == cluster && backup.phase == Completed && (last.None? || backup.at > last.value) then Some(backup.at) else last)
  {
    var longer := backups + [backup];
    assert backup in longer && forall b <- backups :: b in longer;
  }

  lemma LatestOf(backups: seq<Backup>, cluster: string, state: BackupState) returns (latest: Backup)
    requires Observes(backups, cluster, state) && state.latestPhase.Some?
    ensures latest in backups && latest.cluster == cluster && latest.phase == state.latestPhase.value
    ensures forall b <- backups :: b.cluster == cluster ==> b.at <= latest.at
  {
    hide IsLastSuccess;
    var i :| IsLatest(backups, cluster, i) && backups[i].phase == state.latestPhase.value;
    latest := backups[i];
  }

  lemma SameSuccess(a: seq<Backup>, b: seq<Backup>, cluster: string, x: Option<nat>, y: Option<nat>)
    requires (forall p :: p in a <==> p in b) && IsLastSuccess(a, cluster, x) && IsLastSuccess(b, cluster, y)
    ensures x == y
  {
  }

  /** Listing order does not matter while attempts on one cluster have distinct dates. */
  lemma SameForAnyOrder(a: seq<Backup>, b: seq<Backup>, cluster: string, x: BackupState, y: BackupState)
    requires multiset(a) == multiset(b) && Observes(a, cluster, x) && Observes(b, cluster, y)
    requires forall p <- a, q <- a :: p.cluster == q.cluster == cluster && p.at == q.at ==> p == q
    ensures x == y
  {
    hide IsLastSuccess, IsLatest;
    assert forall p :: p in a <==> p in multiset(a);
    assert forall p :: p in b <==> p in multiset(b);
    SameSuccess(a, b, cluster, x.lastSuccessful, y.lastSuccessful);
    if x.latestPhase.Some? {
      var p := LatestOf(a, cluster, x);
      var q := LatestOf(b, cluster, y);
      assert p.at == q.at;
    }
  }

  // ---------------------------------------------------------------- the status

  method StatusFromCluster(clusterReady: bool, backups: bool, recovering: bool, state: BackupState) returns (status: Status)
    ensures status.ready == True <==> clusterReady && (!backups || (state.latestPhase != Some(Failed) && state.lastSuccessful.Some?))
    ensures status.ready != Unknown && status.clusterReady == if clusterReady then True else False
    ensures status.backupHealthy == True <==> status.ready == True
    ensures status.backupHealthy == False <==> status.phase == Degraded
    ensures status.phase == Degraded <==> clusterReady && backups && state.latestPhase == Some(Failed)
    ensures status.phase == Restoring <==> recovering && !clusterReady
    ensures status.phase == Provisioning <==> !recovering && !clusterReady
    ensures status.phase == Healthy <==> status.ready == True && (backups ==> state.latestPhase !in {Some(Phase.Pending), Some(Running)})
  {
    if clusterReady {
      if !backups {
        status := Status(Healthy, True, True, True);
      } else if state.latestPhase == Some(Failed) {
        status := Status(Degraded, True, False, False);
      } else if state.lastSuccessful.None? {
        status := Status(BackingUp, True, Unknown, False);
      } else if state.latestPhase == Some(Phase.Pending) || state.latestPhase == Some(Running) {
        status := Status(BackingUp, True, True, True);
      } else {
        status := Status(Healthy, True, True, True);
      }
    } else {
      status := Status(if recovering then Restoring else Provisioning, False, Unknown, False);
    }
  }
}
