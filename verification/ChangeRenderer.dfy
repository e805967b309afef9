/** The renderer: it mutates its copy of the catalog and collects an overlay of
    file changes, and computes exactly the plan of the request. */
module ChangeRenderer {
  import opened Wrappers
  import opened Catalog
  import opened ChangePlan
  import opened CatalogFacts
  import Compaction

  datatype Outcome = Done | Stopped(code: ExitCode)

  lemma ExecuteOne(repo: Repository, a: Action)
    ensures Execute(repo, [a]) == if Blocked(repo, a).Some? then Err(Blocked(repo, a).value) else Ok(Effect(repo, a))
  {
    hide Blocked, Effect;
    assert [a][..0] == [];
    if Blocked(repo, a).None? {
      assert map[] + Effect(repo, a) == Effect(repo, a);
    }
  }

  /** Actions do not see each other's changes, so runs compose. */
  lemma {:induction false} ExecuteSplit(repo: Repository, a: seq<Action>, b: seq<Action>)
    ensures Execute(repo, a + b) ==
            if Execute(repo, a).Err? then Execute(repo, a)
            else if Execute(repo, b).Err? then Execute(repo, b)
            else Ok(Execute(repo, a).value + Execute(repo, b).value)
    decreases |b|
  {
    hide Blocked, Effect;
    if b == [] {
      assert a + b == a;
      if Execute(repo, a).Ok? {
        assert Execute(repo, a).value + map[] == Execute(repo, a).value;
      }
    } else {
      var init, last := b[..|b| - 1], b[|b| - 1];
      assert (a + b)[..|a + b| - 1] == a + init;
      ExecuteSplit(repo, a, init);
      if Execute(repo, a).Ok? && Execute(repo, b).Ok? {
        var x, y, z := Execute(repo, a).value, Execute(repo, init).value, Effect(repo, last);
        assert (x + y) + z == x + (y + z);
      }
    }
  }

  /** The overlay grew by the actions, or the first blocked one is the outcome. */
  predicate Ran(repo: Repository, before: Changes, after: Changes, actions: seq<Action>, r: Outcome) {
    match Execute(repo, actions)
    case Ok(done) => r.Done? && after == before + done
    case Err(code) => r == Stopped(code)
  }

  /** The next actions, after some that went through. */
  lemma Then(repo: Repository, before: Changes, middle: Changes, after: Changes, a: seq<Action>, b: seq<Action>, r: Outcome)
    requires Ran(repo, before, middle, a, Done) && Ran(repo, middle, after, b, r)
    ensures Ran(repo, before, after, a + b, r)
  {
    hide Execute;
    ExecuteSplit(repo, a, b);
    if Execute(repo, b).Ok? {
      var x, y := Execute(repo, a).value, Execute(repo, b).value;
      assert (before + x) + y == before + (x + y);
    }
  }

  /** Teams, and the services of a team, have names of their own, as in a valid catalog. */
  predicate NamesDiffer(tenants: seq<Tenant>) { DistinctBy(tenants, TenantName) && forall t <- tenants :: DistinctBy(t.services, ServiceName) }

  /** No action follows one that failed. */
  lemma Halt(repo: Repository, before: Changes, after: Changes, a: seq<Action>, b: seq<Action>, r: Outcome)
    requires Ran(repo, before, after, a, r) && r.Stopped?
    ensures Ran(repo, before, after, a + b, r)
  {
    hide Execute;
    ExecuteSplit(repo, a, b);
  }

  lemma NothingDone(repo: Repository, changes: Changes)
    ensures Ran(repo, changes, changes, [], Done)
  {
    assert changes + map[] == changes;
  }

  class ChangeRenderer {
    const repository: Repository
    const request: Request
    var tenants: seq<Tenant>
    var changes: Changes

    constructor (repository: Repository, request: Request, tenants: seq<Tenant>)
      ensures this.repository == repository && this.request == request && this.tenants == tenants && changes == map[]
    {
      this.repository, this.request, this.tenants, this.changes := repository, request, tenants, map[];
    }

    predicate Matches(plan: Plan, r: Outcome)
      reads this
    {
      match Execute(repository, plan.actions)
      case Ok(done) => r.Done? && changes == done && tenants == plan.tenants
      case Err(code) => r == Stopped(code)
    }

    // -------------------------------------------------------------- the overlay

    method Set(path: Path, file: File) returns (r: Outcome)
      modifies this`changes
      ensures if Allowed(path) then r.Done? && changes == old(changes) + SetChange(repository, path, file)
              else r == Stopped(Usage) && changes == old(changes)
    {
      if !Allowed(path) {
        return Stopped(Usage);
      }
      var before, action := None, Create;
      if path in repository {
        before, action := Some(repository[path]), Update;
      }
      r := Done;
      if before != Some(file) {
        changes := changes[path := FileChange(action, Some(file), before)];
        assert changes == old(changes) + SetChange(repository, path, file);
      } else {
        assert old(changes) + map[] == changes;
      }
    }

    method Remove(path: Path) returns (r: Outcome)
      modifies this`changes
      ensures if !Allowed(path) then r == Stopped(Usage) && changes == old(changes)
              else if path !in repository then r == Stopped(NotFound) && changes == old(changes)
              else r.Done? && changes == old(changes) + RemoveChange(repository, path)
    {
      if !Allowed(path) {
        return Stopped(Usage);
      }
      if path !in repository {
        return Stopped(NotFound);
      }
      changes := changes[path := FileChange(Delete, None, Some(repository[path]))];
      assert changes == old(changes) + RemoveChange(repository, path);
      return Done;
    }

    method WriteLeaf(leaf: Leaf, manifest: File) returns (r: Outcome)
      modifies this`changes
      ensures Ran(repository, old(changes), changes, [Action.WriteLeaf(leaf, manifest)], r)
    {
      hide SetChange;
      ExecuteOne(repository, Action.WriteLeaf(leaf, manifest));
      r := Set(Manifest(leaf), manifest);
      if r.Stopped? {
        return;
      }
      r := Set(Kustomization(leaf), KustomizationFile(leaf));
      var a, b := SetChange(repository, Manifest(leaf), manifest), SetChange(repository, Kustomization(leaf), KustomizationFile(leaf));
      assert (old(changes) + a) + b == old(changes) + (a + b);
    }

    method ApproveManifest(leaf: Leaf, force: bool) returns (r: Outcome)
      modifies this`changes
      ensures Ran(repository, old(changes), changes, [Approve(leaf, request.id, force)], r)
    {
      hide SetChange;
      ExecuteOne(repository, Approve(leaf, request.id, force));
      if !Allowed(Manifest(leaf)) {
        return Stopped(Usage);
      }
      if Manifest(leaf) !in repository {
        return Stopped(NotFound);
      }
      if !repository[Manifest(leaf)].ManifestFile? {
        return Stopped(Internal);
      }
      var manifest := repository[Manifest(leaf)];
      var annotations := manifest.metadata.annotations.(syncOptions := None, deletionRequest := Some(request.id));
      if force {
        annotations := annotations.(forceDelete := Some("true"));
      }
      r := Set(Manifest(leaf), manifest.(metadata := manifest.metadata.(annotations := annotations)));
    }

    method DeleteLeaf(leaf: Leaf) returns (r: Outcome)
      modifies this`changes
      ensures Ran(repository, old(changes), changes, [DropLeaf(leaf)], r)
    {
      hide RemoveChange;
      ExecuteOne(repository, DropLeaf(leaf));
      if !Allowed(Manifest(leaf)) {
        return Stopped(Usage);
      }
      if !LeafExists(repository.Keys, leaf) {
        return Stopped(NotFound);
      }
      if !OnlyGenerated(repository, leaf) {
        return Stopped(Conflict);
      }
      r := Remove(Manifest(leaf));
      if r.Stopped? {
        return;
      }
      r := Remove(Kustomization(leaf));
      if r.Done? {
        var a, b := RemoveChange(repository, Manifest(leaf)), RemoveChange(repository, Kustomization(leaf));
        assert (old(changes) + a) + b == old(changes) + (a + b);
      }
    }

    method SetSource(s: Service, files: seq<SourceFile>) returns (r: Outcome)
      modifies this`changes
      ensures if AllAllowed(s.path, files) then r.Done? && changes == old(changes) + SetFiles(repository, s, files) else r == Stopped(Usage)
    {
      hide SetChange, SourceContent, Allowed;
      var i := 0;
      assert old(changes) + map[] == changes;
      while i < |files|
        invariant 0 <= i <= |files| && changes == old(changes) + SetFiles(repository, s, files[..i]) && AllAllowed(s.path, files[..i])
      {
        assert files[..i + 1][..i] == files[..i] && files[..i + 1][i] == files[i];
        r := Set(Source(s.path, files[i]), SourceContent(repository, s, files[i]));
        if r.Stopped? {
          return;
        }
        var a, b := SetFiles(repository, s, files[..i]), SetChange(repository, Source(s.path, files[i]), SourceContent(repository, s, files[i]));
        assert (old(changes) + a) + b == old(changes) + (a + b);
        i := i + 1;
      }
      assert files[..i] == files;
      r := Done;
    }

    method WriteServiceSource(s: Service) returns (r: Outcome)
      modifies this`changes
      ensures Ran(repository, old(changes), changes, [WriteSource(s)], r)
    {
      hide SourceFiles, AllAllowed, SetFiles;
      ExecuteOne(repository, WriteSource(s));
      if !GoldenReadable(repository, s.template) {
        return Stopped(Internal);
      }
      r := SetSource(s, SourceFiles(s.template));
    }

    method WriteServiceVersion(s: Service) returns (r: Outcome)
      modifies this`changes
      ensures Ran(repository, old(changes), changes, [WriteVersion(s)], r)
    {
      hide AllAllowed, SetFiles;
      ExecuteOne(repository, WriteVersion(s));
      r := SetSource(s, [VersionFile, Descriptor]);
    }

    method DeleteServiceSource(s: Service) returns (r: Outcome)
      modifies this`changes
      ensures Ran(repository, old(changes), changes, [DropSource(s)], r)
    {
      hide SourceFiles, RemoveFiles, AllAllowed;
      ExecuteOne(repository, DropSource(s));
      if !GoldenReadable(repository, s.template) {
        return Stopped(Internal);
      }
      if !ExactSource(repository, s.path, SourceFiles(s.template)) {
        return Stopped(Conflict);
      }
      r := RemoveSource(s.path, SourceFiles(s.template));
    }

    method RemoveSource(service: string, files: seq<SourceFile>) returns (r: Outcome)
      requires AllPresent(repository, service, files)
      modifies this`changes
      ensures if AllAllowed(service, files) then r.Done? && changes == old(changes) + RemoveFiles(repository, service, files) else r == Stopped(Usage)
    {
      hide RemoveChange, Allowed;
      var i := 0;
      assert old(changes) + map[] == changes;
      while i < |files|
        invariant 0 <= i <= |files| && AllPresent(repository, service, files[..i]) && AllAllowed(service, files[..i])
        invariant changes == old(changes) + RemoveFiles(repository, service, files[..i])
      {
        assert files[..i + 1][..i] == files[..i] && files[..i + 1][i] == files[i] && files[i] in files;
        r := Remove(Source(service, files[i]));
        if r.Stopped? {
          return;
        }
        var a, b := RemoveFiles(repository, service, files[..i]), RemoveChange(repository, Source(service, files[i]));
        assert (old(changes) + a) + b == old(changes) + (a + b);
        i := i + 1;
      }
      assert files[..i] == files;
      r := Done;
    }

    // -------------------------------------------------------------- outcomes

    lemma Start(plan: Plan, r: Outcome)
      requires Ran(repository, map[], changes, plan.actions, r) && (r.Done? ==> tenants == plan.tenants)
      ensures Matches(plan, r)
    {
      hide Execute;
      if Execute(repository, plan.actions).Ok? {
        assert map[] + Execute(repository, plan.actions).value == Execute(repository, plan.actions).value;
      }
    }

    lemma Refused(before: seq<Tenant>, code: ExitCode)
      ensures Matches(Refuse(before, code), Stopped(code))
    {
      ExecuteOne(repository, Fail(code));
    }

    // -------------------------------------------------------------- teams

    method CreateTeam() returns (r: Outcome)
      requires changes == map[]
      modifies this
      ensures Matches(PlanTeamCreate(old(tenants), request), r)
    {
      hide Execute, TeamFile, NewTenant;
      var p := request.p;
      if Index(tenants, TenantName, p.name) >= 0 {
        Refused(tenants, Conflict);
        return Stopped(Conflict);
      }
      tenants := tenants + [NewTenant(p.name, p.owners)];
      r := WriteLeaf(TeamLeaf(p.name), TeamFile(p.name, p));
      Start(PlanTeamCreate(old(tenants), request), r);
    }

    method UpdateTeam(i: nat) returns (r: Outcome)
      requires changes == map[] && i < |tenants|
      modifies this
      ensures Matches(PlanTeamUpdate(old(tenants), i, request), r)
    {
      hide Execute, TeamFile, Normalize;
      var p := request.p;
      tenants := tenants[i := tenants[i].(owners := Normalize(p.owners))];
      r := WriteLeaf(TeamLeaf(p.name), TeamFile(p.name, p));
      Start(PlanTeamUpdate(old(tenants), i, request), r);
    }

    /** Retire one application or database in place and mark its manifest. */
    method RetireOne(i: nat, databases: bool, k: nat) returns (r: Outcome)
      requires i < |tenants| && k < |EntriesOf(tenants[i], databases)|
      modifies this
      ensures var entries := EntriesOf(old(tenants)[i], databases);
              && tenants == old(tenants)[i := WithEntries(old(tenants)[i], databases, entries[k := Retired(entries[k], request.id)])]
              && Ran(repository, old(changes), changes, [Approvals(entries, databases, request)[k]], r)
    {
      hide Execute, Ran;
      var entries := EntriesOf(tenants[i], databases);
      tenants := tenants[i := WithEntries(tenants[i], databases, entries[k := Retired(entries[k], request.id)])];
      r := ApproveManifest(if databases then DatabaseLeaf(entries[k].name) else AppLeaf(entries[k].name), request.p.force);
    }

    /** Retire every application of a tenant, or every database. */
    method RetireEach(i: nat, databases: bool) returns (r: Outcome)
      requires i < |tenants|
      modifies this
      ensures Ran(repository, old(changes), changes, Approvals(EntriesOf(old(tenants)[i], databases), databases, request), r)
      ensures r.Done? ==> tenants == old(tenants)[i := WithEntries(old(tenants)[i], databases,
                                                                RetireEntries(EntriesOf(old(tenants)[i], databases), request.id))]
    {
      hide Execute, Ran, RetireEntries, Retired, WithEntries, EntriesOf, Approvals;
      var entries := EntriesOf(tenants[i], databases);
      ghost var all, now := Approvals(entries, databases, request), entries;
      var k := 0;
      NothingDone(repository, changes);
      RetireNone(entries, request.id);
      WithSame(tenants[i], databases);
      assert all[..0] == [] && tenants[i := tenants[i]] == tenants;
      while k < |entries|
        invariant 0 <= k <= |entries| && Ran(repository, old(changes), changes, all[..k], Done)
        invariant now == RetireEntries(entries[..k], request.id) + entries[k..] && tenants == old(tenants)[i := WithEntries(old(tenants)[i], databases, now)]
      {
        WithTwice(old(tenants)[i], databases, now, now[k := Retired(now[k], request.id)]);
        RetireOneMore(entries, databases, request, k, now);
        ghost var middle := changes;
        r := RetireOne(i, databases, k);
        now := now[k := Retired(now[k], request.id)];
        assert all[..k + 1] == all[..k] + [all[k]];
        Then(repository, old(changes), middle, changes, all[..k], [all[k]], r);
        if r.Stopped? {
          assert all == all[..k + 1] + all[k + 1..];
          Halt(repository, old(changes), changes, all[..k + 1], all[k + 1..], r);
          return;
        }
        k := k + 1;
      }
      assert all[..k] == all && entries[..k] == entries;
      assert now == RetireEntries(entries, request.id);
      r := Done;
    }

    method DeleteTeam(i: nat) returns (r: Outcome)
      requires changes == map[] && i < |tenants|
      modifies this
      ensures Matches(PlanTeamDelete(old(tenants), i, request), r)
    {
      hide Execute, Ran, RetireEntries, Approvals, Retired;
      var p := request.p;
      var t := tenants[i];
      ghost var first, apps, databases := [Approve(TeamLeaf(p.name), request.id, p.force)], Approvals(t.applications, false, request), Approvals(t.databases, true, request);
      ghost var plan := PlanTeamDelete(tenants, i, request);
      tenants := tenants[i := t.(lifecycle := Retiring, request := request.id)];
      r := ApproveManifest(TeamLeaf(p.name), p.force);
      if r.Stopped? {
        Halt(repository, map[], changes, first, apps, r);
        Halt(repository, map[], changes, first + apps, databases, r);
        Start(plan, r);
        return;
      }
      ghost var middle := changes;
      r := RetireEach(i, false);
      Then(repository, map[], middle, changes, first, apps, r);
      if r.Stopped? {
        Halt(repository, map[], changes, first + apps, databases, r);
        Start(plan, r);
        return;
      }
      middle := changes;
      r := RetireEach(i, true);
      Then(repository, map[], middle, changes, first + apps, databases, r);
      if r.Done? {
        var retiring := tenants[i];
        tenants := tenants[i := retiring.(services := RetireServices(retiring.services, request.id))];
        assert tenants == plan.tenants;
      }
      Start(plan, r);
    }

    method DropEach(entries: seq<Entry>) returns (r: Outcome)
      modifies this`changes
      ensures Ran(repository, old(changes), changes, Drops(entries), r)
    {
      hide Execute, Ran;
      ghost var all := Drops(entries);
      NothingDone(repository, changes);
      assert all[..0] == [];
      var k := 0;
      while k < |entries|
        invariant 0 <= k <= |entries| && Ran(repository, old(changes), changes, all[..k], Done)
      {
        ghost var middle := changes;
        r := DeleteLeaf(entries[k].path);
        assert all[..k + 1] == all[..k] + [all[k]];
        Then(repository, old(changes), middle, changes, all[..k], [all[k]], r);
        if r.Stopped? {
          assert all == all[..k + 1] + all[k + 1..];
          Halt(repository, old(changes), changes, all[..k + 1], all[k + 1..], r);
          return;
        }
        k := k + 1;
      }
      assert all[..k] == all;
      r := Done;
    }

    method DropSources(services: seq<Service>) returns (r: Outcome)
      modifies this`changes
      ensures Ran(repository, old(changes), changes, SourceDrops(services), r)
    {
      hide Execute, Ran;
      ghost var all := SourceDrops(services);
      NothingDone(repository, changes);
      assert all[..0] == [];
      var k := 0;
      while k < |services|
        invariant 0 <= k <= |services| && Ran(repository, old(changes), changes, all[..k], Done)
      {
        ghost var middle := changes;
        r := DeleteServiceSource(services[k]);
        assert all[..k + 1] == all[..k] + [all[k]];
        Then(repository, old(changes), middle, changes, all[..k], [all[k]], r);
        if r.Stopped? {
          assert all == all[..k + 1] + all[k + 1..];
          Halt(repository, old(changes), changes, all[..k + 1], all[k + 1..], r);
          return;
        }
        k := k + 1;
      }
      assert all[..k] == all;
      r := Done;
    }

    method FinalizeTeam(i: nat) returns (r: Outcome)
      requires changes == map[] && i < |tenants|
      modifies this
      ensures Matches(PlanTeamFinalize(old(tenants), i, request), r)
    {
      hide Execute, Ran, Drops, SourceDrops, Without;
      var p := request.p;
      var t := tenants[i];
      ghost var plan := PlanTeamFinalize(tenants, i, request);
      if !IsRetiringUnder(t.lifecycle, t.request, p) {
        Refused(tenants, Conflict);
        return Stopped(Conflict);
      }
      ghost var a, b, c, d := [DropLeaf(TeamLeaf(p.name))], Drops(t.applications), Drops(t.databases), SourceDrops(t.services);
      r := DeleteLeaf(TeamLeaf(p.name));
      if r.Stopped? {
        Halt(repository, map[], changes, a, b, r);
        Halt(repository, map[], changes, a + b, c, r);
        Halt(repository, map[], changes, a + b + c, d, r);
        Start(plan, r);
        return;
      }
      ghost var middle := changes;
      r := DropEach(t.applications);
      Then(repository, map[], middle, changes, a, b, r);
      if r.Stopped? {
        Halt(repository, map[], changes, a + b, c, r);
        Halt(repository, map[], changes, a + b + c, d, r);
        Start(plan, r);
        return;
      }
      middle := changes;
      r := DropEach(t.databases);
      Then(repository, map[], middle, changes, a + b, c, r);
      if r.Stopped? {
        Halt(repository, map[], changes, a + b + c, d, r);
        Start(plan, r);
        return;
      }
      middle := changes;
      r := DropSources(t.services);
      Then(repository, map[], middle, changes, a + b + c, d, r);
      if r.Done? {
        tenants := Compaction.RemoveNames(tenants, TenantName, [p.name]);
      }
      Start(plan, r);
    }

    // -------------------------------------------------------------- applications

    method CreateApplication(i: nat) returns (r: Outcome)
      requires changes == map[] && i < |tenants|
      modifies this
      ensures Matches(PlanAppCreate(old(tenants), i, request), r)
    {
      hide Execute, Ran, AppFile, SortBy, AnyApplication, DatabaseActive;
      var p := request.p;
      if AnyApplication(tenants, p.name) {
        Refused(tenants, Conflict);
        return Stopped(Conflict);
      }
      if p.databaseRef != "" && !DatabaseActive(tenants[i], p.databaseRef) {
        Refused(tenants, NotFound);
        return Stopped(NotFound);
      }
      ghost var plan := PlanAppCreate(tenants, i, request);
      var applications := tenants[i].applications + [Entry(p.name, AppLeaf(p.name), p.databaseRef, Active, "")];
      tenants := tenants[i := tenants[i].(applications := SortBy(applications, EntryName))];
      r := WriteLeaf(AppLeaf(p.name), AppFile(p.team, p, true));
      Start(plan, r);
    }

    method UpdateApplication(i: nat) returns (r: Outcome)
      requires changes == map[] && i < |tenants|
      modifies this
      ensures Matches(PlanAppUpdate(old(tenants), i, request), r)
    {
      hide Execute, Ran, AppFile, DatabaseActive;
      var p := request.p;
      var j := Index(tenants[i].applications, EntryName, p.name);
      if j < 0 {
        Refused(tenants, NotFound);
        return Stopped(NotFound);
      }
      var application := tenants[i].applications[j];
      if !application.lifecycle.Active? {
        Refused(tenants, Conflict);
        return Stopped(Conflict);
      }
      if p.databaseRef != "" && !DatabaseActive(tenants[i], p.databaseRef) {
        Refused(tenants, NotFound);
        return Stopped(NotFound);
      }
      ghost var plan := PlanAppUpdate(tenants, i, request);
      tenants := tenants[i := tenants[i].(applications := tenants[i].applications[j := application.(databaseRef := p.databaseRef)])];
      r := WriteLeaf(AppLeaf(p.name), AppFile(p.team, p, true));
      Start(plan, r);
    }

    method DeleteApplication(i: nat) returns (r: Outcome)
      requires changes == map[] && i < |tenants|
      modifies this
      ensures Matches(PlanAppDelete(old(tenants), i, request), r)
    {
      hide Execute, Ran;
      var p := request.p;
      var j := Index(tenants[i].applications, EntryName, p.name);
      if j < 0 {
        Refused(tenants, NotFound);
        return Stopped(NotFound);
      }
      if !tenants[i].applications[j].lifecycle.Active? {
        Refused(tenants, Conflict);
        return Stopped(Conflict);
      }
      ghost var plan := PlanAppDelete(tenants, i, request);
      var retired := tenants[i].applications[j].(lifecycle := Retiring, request := request.id);
      tenants := tenants[i := tenants[i].(applications := tenants[i].applications[j := retired])];
      r := ApproveManifest(AppLeaf(p.name), p.force);
      Start(plan, r);
    }

    method FinalizeApplication(i: nat) returns (r: Outcome)
      requires changes == map[] && i < |tenants|
      modifies this
      ensures Matches(PlanAppFinalize(old(tenants), i, request), r)
    {
      hide Execute, Ran, Without;
      var p := request.p;
      var j := Index(tenants[i].applications, EntryName, p.name);
      if j < 0 {
        Refused(tenants, NotFound);
        return Stopped(NotFound);
      }
      var application := tenants[i].applications[j];
      if !IsRetiringUnder(application.lifecycle, application.request, p) {
        Refused(tenants, Conflict);
        return Stopped(Conflict);
      }
      ghost var plan := PlanAppFinalize(tenants, i, request);
      r := DeleteLeaf(application.path);
      if r.Done? {
        var kept := Compaction.RemoveNames(tenants[i].applications, EntryName, [p.name]);
        tenants := tenants[i := tenants[i].(applications := kept)];
      }
      Start(plan, r);
    }

    // -------------------------------------------------------------- databases

    method CreateDatabase(i: nat) returns (r: Outcome)
      requires changes == map[] && i < |tenants|
      modifies this
      ensures Matches(PlanDatabaseCreate(old(tenants), i, request), r)
    {
      hide Execute, Ran, DatabaseManifest, SortBy, AnyDatabase;
      var p := request.p;
      if AnyDatabase(tenants, p.name) {
        Refused(tenants, Conflict);
        return Stopped(Conflict);
      }
      ghost var plan := PlanDatabaseCreate(tenants, i, request);
      var databases := tenants[i].databases + [Entry(p.name, DatabaseLeaf(p.name), "", Active, "")];
      tenants := tenants[i := tenants[i].(databases := SortBy(databases, EntryName))];
      var recovery := if request.operation.DatabaseRestore? then Some(Recovery(p.source, p.target)) else None;
      r := WriteLeaf(DatabaseLeaf(p.name), DatabaseManifest(p.team, p, Storage(Some(p.size), LOCAL_PATH), recovery));
      Start(plan, r);
    }

    method UpdateDatabase(i: nat) returns (r: Outcome)
      requires changes == map[] && i < |tenants|
      modifies this
      ensures Matches(PlanDatabaseUpdate(repository, old(tenants), i, request), r)
    {
      hide Execute, Ran, UpdatedDatabase;
      var p := request.p;
      var j := Index(tenants[i].databases, EntryName, p.name);
      if j < 0 {
        Refused(tenants, NotFound);
        return Stopped(NotFound);
      }
      if !tenants[i].databases[j].lifecycle.Active? {
        Refused(tenants, Conflict);
        return Stopped(Conflict);
      }
      ghost var plan := PlanDatabaseUpdate(repository, tenants, i, request);
      var file := UpdatedDatabase(repository, p);
      if file.Err? {
        Refused(tenants, file.error);
        return Stopped(file.error);
      }
      r := WriteLeaf(DatabaseLeaf(p.name), file.value);
      Start(plan, r);
    }

    method DeleteDatabase(i: nat) returns (r: Outcome)
      requires changes == map[] && i < |tenants|
      modifies this
      ensures Matches(PlanDatabaseDelete(old(tenants), i, request), r)
    {
      hide Execute, Ran, DatabaseInUse;
      var p := request.p;
      if DatabaseInUse(tenants[i], p.name) {
        Refused(tenants, Conflict);
        return Stopped(Conflict);
      }
      var j := Index(tenants[i].databases, EntryName, p.name);
      if j < 0 {
        Refused(tenants, NotFound);
        return Stopped(NotFound);
      }
      if !tenants[i].databases[j].lifecycle.Active? {
        Refused(tenants, Conflict);
        return Stopped(Conflict);
      }
      ghost var plan := PlanDatabaseDelete(tenants, i, request);
      var retired := tenants[i].databases[j].(lifecycle := Retiring, request := request.id);
      tenants := tenants[i := tenants[i].(databases := tenants[i].databases[j := retired])];
      r := ApproveManifest(DatabaseLeaf(p.name), p.force);
      Start(plan, r);
    }

    method FinalizeDatabase(i: nat) returns (r: Outcome)
      requires changes == map[] && i < |tenants|
      modifies this
      ensures Matches(PlanDatabaseFinalize(old(tenants), i, request), r)
    {
      hide Execute, Ran, Without;
      var p := request.p;
      var j := Index(tenants[i].databases, EntryName, p.name);
      if j < 0 {
        Refused(tenants, NotFound);
        return Stopped(NotFound);
      }
      var database := tenants[i].databases[j];
      if !IsRetiringUnder(database.lifecycle, database.request, p) {
        Refused(tenants, Conflict);
        return Stopped(Conflict);
      }
      ghost var plan := PlanDatabaseFinalize(tenants, i, request);
      r := DeleteLeaf(database.path);
      if r.Done? {
        var kept := Compaction.RemoveNames(tenants[i].databases, EntryName, [p.name]);
        tenants := tenants[i := tenants[i].(databases := kept)];
      }
      Start(plan, r);
    }

    // -------------------------------------------------------------- services

    /** The database, the entry and the source of a new service. */
    method ScaffoldIn(i: nat, ghost before: seq<Action>, ghost plan: Plan) returns (r: Outcome)
      requires i < |tenants| && Ran(repository, map[], changes, before, Done) && plan == PlanScaffoldIn(tenants, i, request.p, before)
      modifies this
      ensures Matches(plan, r)
    {
      hide Execute, Ran, SortBy, DatabaseManifest, DatabaseActive, TemplateComponents;
      var p := request.p;
      if !tenants[i].lifecycle.Active? || (p.withDatabase && DatabaseActive(tenants[i], p.name)) {
        Refusal(before);
        return Stopped(Conflict);
      }
      ghost var middle := changes;
      ghost var database := if p.withDatabase then [ScaffoldActions(p)[0]] else [];
      if p.withDatabase {
        var q := ServiceDatabase(p);
        tenants := tenants[i := tenants[i].(databases := SortBy(tenants[i].databases + [Entry(p.name, DatabaseLeaf(p.name), "", Active, "")], EntryName))];
        r := WriteLeaf(DatabaseLeaf(p.name), DatabaseManifest(p.team, q, Storage(Some(q.size), LOCAL_PATH), None));
      } else {
        NothingDone(repository, changes);
        r := Done;
      }
      var service := Service(p.name, p.name, p.template, p.version, TemplateComponents(p.name, p.template), if p.withDatabase then p.name else "",
                             p.createTeam, p.withDatabase, Scaffolded, "");
      assert before + ScaffoldActions(p) == before + database + [WriteSource(service)];
      Then(repository, map[], middle, changes, before, database, r);
      if r.Stopped? {
        Halt(repository, map[], changes, before + database, [WriteSource(service)], r);
        Start(plan, r);
        return;
      }
      tenants := tenants[i := tenants[i].(services := SortBy(tenants[i].services + [service], ServiceName))];
      middle := changes;
      r := WriteServiceSource(service);
      Then(repository, map[], middle, changes, before + database, [WriteSource(service)], r);
      Start(plan, r);
    }

    lemma Refusal(before: seq<Action>)
      requires Ran(repository, map[], changes, before, Done)
      ensures Execute(repository, before + [Fail(Conflict)]) == Err(Conflict)
    {
      hide Execute;
      ExecuteOne(repository, Fail(Conflict));
      ExecuteSplit(repository, before, [Fail(Conflict)]);
    }

    method ScaffoldService() returns (r: Outcome)
      requires changes == map[]
      modifies this
      ensures Matches(PlanServiceScaffold(old(tenants), request), r)
    {
      hide Execute, Ran, PlanScaffoldIn, AnyService, TeamFile, Normalize, SortBy;
      var p := request.p;
      if AnyService(tenants, p.name) {
        Refused(tenants, Conflict);
        return Stopped(Conflict);
      }
      ghost var plan := PlanServiceScaffold(tenants, request);
      var i := Index(tenants, TenantName, p.team);
      if i < 0 {
        if !p.createTeam || p.team != p.name {
          Refused(tenants, NotFound);
          return Stopped(NotFound);
        }
        var team := NewTenant(p.team, ServiceTeam(p).owners);
        tenants := SortBy(tenants + [team], TenantName);
        assert team in multiset(tenants);
        i := Index(tenants, TenantName, p.team);
        r := WriteLeaf(TeamLeaf(p.team), TeamFile(p.team, ServiceTeam(p)));
        ghost var first := [Action.WriteLeaf(TeamLeaf(p.team), TeamFile(p.team, ServiceTeam(p)))];
        if r.Stopped? {
          ScaffoldBegins(tenants, i, p, first);
          assert plan.actions == first + plan.actions[1..];
          Halt(repository, map[], changes, first, plan.actions[1..], r);
          Start(plan.(tenants := tenants), r);
          return;
        }
        r := ScaffoldIn(i, first, plan);
      } else if p.createTeam {
        Refused(tenants, Conflict);
        return Stopped(Conflict);
      } else {
        NothingDone(repository, map[]);
        r := ScaffoldIn(i, [], plan);
      }
    }

    /** One component: its entry, then its manifest. */
    method ActivateComponent(i: nat, s: Service, component: string) returns (r: Outcome)
      requires i < |tenants|
      modifies this
      ensures Ran(repository, old(changes), changes, [ComponentAction(request.p.team, old(tenants)[i].applications, s, component)], r)
      ensures r.Done? ==> tenants == old(tenants)[i := old(tenants)[i].(applications := WithComponent(old(tenants)[i].applications, s, component))]
    {
      hide Execute, ComponentFile, ComponentRef;
      var t := tenants[i];
      var j := Index(t.applications, EntryName, component);
      if j < 0 {
        tenants := tenants[i := t.(applications := t.applications + [Entry(component, AppLeaf(component), ComponentRef(s, component), Active, "")])];
      } else if !t.applications[j].lifecycle.Active? {
        ExecuteOne(repository, Fail(Conflict));
        return Stopped(Conflict);
      } else {
        tenants := tenants[i := t.(applications := t.applications[j := t.applications[j].(databaseRef := ComponentRef(s, component))])];
      }
      r := WriteLeaf(AppLeaf(component), ComponentFile(request.p.team, s, component));
    }

    method ActivateComponents(i: nat, s: Service) returns (r: Outcome)
      requires i < |tenants|
      modifies this
      ensures Ran(repository, old(changes), changes, ComponentActions(request.p.team, old(tenants)[i].applications, s, s.components), r)
      ensures r.Done? ==> tenants == old(tenants)[i := old(tenants)[i].(applications := WithComponents(old(tenants)[i].applications, s, s.components))]
    {
      hide Execute, Ran, WithComponent, ComponentAction;
      var k := 0;
      ghost var t, team := tenants[i], request.p.team;
      NothingDone(repository, changes);
      assert tenants[i := t.(applications := t.applications)] == tenants;
      while k < |s.components|
        invariant 0 <= k <= |s.components|
        invariant Ran(repository, old(changes), changes, ComponentActions(team, t.applications, s, s.components[..k]), Done)
        invariant tenants == old(tenants)[i := t.(applications := WithComponents(t.applications, s, s.components[..k]))]
      {
        ghost var middle, done := changes, s.components[..k];
        assert s.components[..k + 1][..k] == done;
        r := ActivateComponent(i, s, s.components[k]);
        Then(repository, old(changes), middle, changes, ComponentActions(team, t.applications, s, done),
             [ComponentAction(team, WithComponents(t.applications, s, done), s, s.components[k])], r);
        if r.Stopped? {
          ghost var rest := ComponentActionsBegin(team, t.applications, s, s.components, k + 1);
          Halt(repository, old(changes), changes, ComponentActions(team, t.applications, s, s.components[..k + 1]), rest, r);
          return;
        }
        k := k + 1;
      }
      assert s.components[..k] == s.components;
      r := Done;
    }

    method ActivateService(i: nat) returns (r: Outcome)
      requires changes == map[] && i < |tenants|
      modifies this
      ensures Matches(PlanServiceActivate(old(tenants), i, request), r)
    {
      hide Execute, Ran, ComponentActions, WithComponents, SortBy;
      var p := request.p;
      var j := Index(tenants[i].services, ServiceName, p.name);
      if j < 0 {
        Refused(tenants, NotFound);
        return Stopped(NotFound);
      }
      if tenants[i].services[j].lifecycle.Retiring? {
        Refused(tenants, Conflict);
        return Stopped(Conflict);
      }
      ghost var plan := PlanServiceActivate(tenants, i, request);
      ghost var applications := tenants[i].applications;
      var s := tenants[i].services[j].(version := p.version);
      tenants := tenants[i := tenants[i].(services := tenants[i].services[j := s])];
      r := ActivateComponents(i, s);
      ghost var first := ComponentActions(p.team, applications, s, s.components);
      if r.Stopped? {
        Halt(repository, map[], changes, first, [WriteVersion(s.(lifecycle := Active))], r);
        Start(plan, r);
        return;
      }
      var t := tenants[i];
      var active := s.(lifecycle := Active);
      assert t.services[j := active] == old(tenants)[i].services[j := active];
      tenants := tenants[i := t.(applications := SortBy(t.applications, EntryName), services := t.services[j := active])];
      ghost var middle := changes;
      r := WriteServiceVersion(active);
      Then(repository, map[], middle, changes, first, [WriteVersion(active)], r);
      assert tenants == plan.tenants;
      Start(plan, r);
    }

    method RetireComponents(i: nat, components: seq<string>) returns (r: Outcome)
      requires i < |tenants|
      modifies this
      ensures Ran(repository, old(changes), changes, ApproveNamed(old(tenants)[i].applications, components, request), r)
      ensures r.Done? ==> tenants == old(tenants)[i := old(tenants)[i].(applications := RetireNamed(old(tenants)[i].applications, components, request.id))]
    {
      hide Execute, Ran, Retired;
      var k := 0;
      ghost var t := tenants[i];
      NothingDone(repository, changes);
      assert tenants[i := t.(applications := t.applications)] == tenants;
      while k < |components|
        invariant 0 <= k <= |components|
        invariant Ran(repository, old(changes), changes, ApproveNamed(t.applications, components[..k], request), Done)
        invariant tenants == old(tenants)[i := t.(applications := RetireNamed(t.applications, components[..k], request.id))]
      {
        ghost var middle, done := changes, components[..k];
        assert components[..k + 1][..k] == done;
        RetireKeepsIndex(t.applications, done, request.id, components[k]);
        r := RetireComponent(i, components[k]);
        ghost var step := if Index(t.applications, EntryName, components[k]) < 0 then [] else [Approve(AppLeaf(components[k]), request.id, request.p.force)];
        Then(repository, old(changes), middle, changes, ApproveNamed(t.applications, done, request), step, r);
        if r.Stopped? {
          ghost var rest := ApproveNamedBegins(t.applications, components, request, k + 1);
          Halt(repository, old(changes), changes, ApproveNamed(t.applications, components[..k + 1], request), rest, r);
          return;
        }
        k := k + 1;
      }
      assert components[..k] == components;
      r := Done;
    }

    method RetireComponent(i: nat, component: string) returns (r: Outcome)
      requires i < |tenants|
      modifies this
      ensures var t, j := old(tenants)[i], Index(old(tenants)[i].applications, EntryName, component);
              if j < 0 then r.Done? && tenants == old(tenants) && Ran(repository, old(changes), changes, [], r)
              else tenants == old(tenants)[i := t.(applications := t.applications[j := Retired(t.applications[j], request.id)])]
                   && Ran(repository, old(changes), changes, [Approve(AppLeaf(component), request.id, request.p.force)], r)
    {
      hide Execute, Ran;
      var j := Index(tenants[i].applications, EntryName, component);
      if j < 0 {
        NothingDone(repository, changes);
        return Done;
      }
      var retired := tenants[i].applications[j].(lifecycle := Retiring, request := request.id);
      tenants := tenants[i := tenants[i].(applications := tenants[i].applications[j := retired])];
      r := ApproveManifest(AppLeaf(component), request.p.force);
    }

    method RetireService(i: nat) returns (r: Outcome)
      requires changes == map[] && i < |tenants|
      modifies this
      ensures Matches(PlanServiceRetire(old(tenants), i, request), r)
    {
      hide Execute, Ran, ApproveNamed, RetireNamed;
      var p := request.p;
      var j := Index(tenants[i].services, ServiceName, p.name);
      if j < 0 {
        Refused(tenants, NotFound);
        return Stopped(NotFound);
      }
      var s := tenants[i].services[j];
      if s.lifecycle.Retiring? {
        Refused(tenants, Conflict);
        return Stopped(Conflict);
      }
      ghost var plan, t := PlanServiceRetire(tenants, i, request), tenants[i];
      tenants := tenants[i := tenants[i].(services := tenants[i].services[j := s.(lifecycle := Retiring, request := request.id)])];
      r := RetireComponents(i, s.components);
      ghost var first := ApproveNamed(t.applications, s.components, request);
      ghost var second := if OwnedDatabase(t, s) < 0 then [] else [Approve(DatabaseLeaf(t.databases[OwnedDatabase(t, s)].name), request.id, p.force)];
      ghost var third := if s.ownsTeam then [Approve(TeamLeaf(t.name), request.id, p.force)] else [];
      if r.Stopped? {
        Halt(repository, map[], changes, first, second, r);
        Halt(repository, map[], changes, first + second, third, r);
        Start(plan, r);
        return;
      }
      ghost var middle := changes;
      r := RetireOwnedDatabase(i, s);
      Then(repository, map[], middle, changes, first, second, r);
      if r.Stopped? {
        Halt(repository, map[], changes, first + second, third, r);
        Start(plan, r);
        return;
      }
      middle := changes;
      if s.ownsTeam {
        tenants := tenants[i := tenants[i].(lifecycle := Retiring, request := request.id)];
        r := ApproveManifest(TeamLeaf(tenants[i].name), p.force);
      } else {
        NothingDone(repository, changes);
      }
      Then(repository, map[], middle, changes, first + second, third, r);
      Start(plan, r);
    }

    method RetireOwnedDatabase(i: nat, s: Service) returns (r: Outcome)
      requires i < |tenants|
      modifies this
      ensures var t, k := old(tenants)[i], OwnedDatabase(old(tenants)[i], s);
              && tenants == old(tenants)[i := t.(databases := if k < 0 then t.databases else t.databases[k := Retired(t.databases[k], request.id)])]
              && Ran(repository, old(changes), changes, if k < 0 then [] else [Approve(DatabaseLeaf(t.databases[k].name), request.id, request.p.force)], r)
    {
      hide Execute, Ran;
      NothingDone(repository, changes);
      r := Done;
      assert tenants[i := tenants[i].(databases := tenants[i].databases)] == tenants;
      if s.ownsDatabase && s.databaseRef != "" {
        var k := Index(tenants[i].databases, EntryName, s.databaseRef);
        if k >= 0 {
          var database := tenants[i].databases[k];
          tenants := tenants[i := tenants[i].(databases := tenants[i].databases[k := database.(lifecycle := Retiring, request := request.id)])];
          r := ApproveManifest(DatabaseLeaf(database.name), request.p.force);
        }
      }
    }

    method DropRetiring(e: Entry) returns (r: Outcome)
      modifies this`changes
      ensures Ran(repository, old(changes), changes, [DropIfRetiring(e, request.p)], r)
    {
      hide Execute;
      if !IsRetiringUnder(e.lifecycle, e.request, request.p) {
        ExecuteOne(repository, Fail(Conflict));
        return Stopped(Conflict);
      }
      r := DeleteLeaf(e.path);
    }

    method DropComponents(entries: seq<Entry>, components: seq<string>) returns (r: Outcome)
      modifies this`changes
      ensures Ran(repository, old(changes), changes, DropNamed(entries, components, request.p), r)
    {
      hide Execute, Ran, DropIfRetiring;
      var k := 0;
      NothingDone(repository, changes);
      while k < |components|
        invariant 0 <= k <= |components| && Ran(repository, old(changes), changes, DropNamed(entries, components[..k], request.p), Done)
      {
        ghost var middle, done := changes, components[..k];
        assert components[..k + 1][..k] == done;
        var j := Index(entries, EntryName, components[k]);
        r := Done;
        ghost var step := if j < 0 then [] else [DropIfRetiring(entries[j], request.p)];
        NothingDone(repository, changes);
        if j >= 0 {
          r := DropRetiring(entries[j]);
        }
        Then(repository, old(changes), middle, changes, DropNamed(entries, done, request.p), step, r);
        if r.Stopped? {
          ghost var rest := DropNamedBegins(entries, components, request.p, k + 1);
          Halt(repository, old(changes), changes, DropNamed(entries, components[..k + 1], request.p), rest, r);
          return;
        }
        k := k + 1;
      }
      assert components[..k] == components;
      r := Done;
    }

    method FinalizeService(i: nat) returns (r: Outcome)
      requires changes == map[] && i < |tenants| && NamesDiffer(tenants)
      modifies this
      ensures Matches(PlanServiceFinalize(old(tenants), i, request), r)
    {
      hide Execute, Ran, DropNamed, DropIfRetiring, Without, DistinctBy;
      var p := request.p;
      var t := tenants[i];
      var j := Index(t.services, ServiceName, p.name);
      if j < 0 {
        Refused(tenants, NotFound);
        return Stopped(NotFound);
      }
      var s := t.services[j];
      if !IsRetiringUnder(s.lifecycle, s.request, p) {
        Refused(tenants, Conflict);
        return Stopped(Conflict);
      }
      ghost var plan := PlanServiceFinalize(tenants, i, request);
      r := DropChildren(t, s);
      ghost var first := DropNamed(t.applications, s.components, p)
        + (if OwnedDatabase(t, s) < 0 then [] else [DropIfRetiring(t.databases[OwnedDatabase(t, s)], p)]) + [DropSource(s)];
      if s.ownsTeam {
        ghost var last := [if IsRetiringUnder(t.lifecycle, t.request, p) then DropLeaf(t.path) else Fail(Conflict)];
        if r.Stopped? {
          Halt(repository, map[], changes, first, last, r);
          Start(plan, r);
          return;
        }
        ghost var middle := changes;
        r := DropTeamIfRetiring(t);
        Then(repository, map[], middle, changes, first, last, r);
        if r.Done? {
          tenants := Compaction.RemoveItem(tenants, TenantName, i);
        }
        Start(plan, r);
        return;
      }
      if r.Done? {
        tenants := RemoveServiceFrom(i, j);
      }
      Start(plan, r);
    }

    /** What belongs to the service goes out of its team, list by list. */
    method RemoveServiceFrom(i: nat, j: nat) returns (after: seq<Tenant>)
      requires i < |tenants| && j < |tenants[i].services| && NamesDiffer(tenants)
      ensures after == tenants[i := ChangePlan.FinalizeService(tenants[i], tenants[i].services[j])]
    {
      hide Without, DistinctBy;
      var t := tenants[i];
      var s := t.services[j];
      var applications := Compaction.RemoveNames(t.applications, EntryName, s.components);
      t := t.(applications := applications);
      if s.ownsDatabase {
        var databases := Compaction.RemoveNames(t.databases, EntryName, [s.databaseRef]);
        t := t.(databases := databases);
      }
      var services := Compaction.RemoveItem(t.services, ServiceName, j);
      after := tenants[i := t.(services := services)];
    }

    method DropTeamIfRetiring(t: Tenant) returns (r: Outcome)
      modifies this`changes
      ensures Ran(repository, old(changes), changes, [if IsRetiringUnder(t.lifecycle, t.request, request.p) then DropLeaf(t.path) else Fail(Conflict)], r)
    {
      hide Execute;
      if !IsRetiringUnder(t.lifecycle, t.request, request.p) {
        ExecuteOne(repository, Fail(Conflict));
        return Stopped(Conflict);
      }
      r := DeleteLeaf(t.path);
    }

    /** The components, the owned database and the source of a service. */
    method DropChildren(t: Tenant, s: Service) returns (r: Outcome)
      modifies this`changes
      ensures Ran(repository, old(changes), changes, DropNamed(t.applications, s.components, request.p)
                  + (if OwnedDatabase(t, s) < 0 then [] else [DropIfRetiring(t.databases[OwnedDatabase(t, s)], request.p)]) + [DropSource(s)], r)
    {
      hide Execute, Ran, DropNamed, DropIfRetiring;
      ghost var k := OwnedDatabase(t, s);
      ghost var first, second := DropNamed(t.applications, s.components, request.p), if k < 0 then [] else [DropIfRetiring(t.databases[k], request.p)];
      r := DropComponents(t.applications, s.components);
      if r.Stopped? {
        Halt(repository, old(changes), changes, first, second, r);
        Halt(repository, old(changes), changes, first + second, [DropSource(s)], r);
        return;
      }
      ghost var middle := changes;
      NothingDone(repository, changes);
      if s.ownsDatabase && s.databaseRef != "" {
        var j := Index(t.databases, EntryName, s.databaseRef);
        if j >= 0 {
          r := DropRetiring(t.databases[j]);
        }
      }
      Then(repository, old(changes), middle, changes, first, second, r);
      if r.Stopped? {
        Halt(repository, old(changes), changes, first + second, [DropSource(s)], r);
        return;
      }
      middle := changes;
      r := DeleteServiceSource(s);
      Then(repository, old(changes), middle, changes, first + second, [DropSource(s)], r);
    }

    // -------------------------------------------------------------- dispatch

    method Render() returns (r: Outcome)
      requires changes == map[] && NamesDiffer(tenants)
      modifies this
      ensures Matches(PlanOf(repository, old(tenants), request), r)
    {
      hide Matches, PlanTeamCreate, PlanServiceScaffold, PlanIn;
      if request.operation.TeamCreate? {
        r := CreateTeam();
        return;
      }
      if request.operation.ServiceScaffold? {
        r := ScaffoldService();
        return;
      }
      var i := Index(tenants, TenantName, Target(request));
      if i < 0 {
        Refused(tenants, NotFound);
        return Stopped(NotFound);
      }
      if !AllowsRetiring(request.operation) && !tenants[i].lifecycle.Active? {
        Refused(tenants, Conflict);
        return Stopped(Conflict);
      }
      r := RenderIn(i);
    }

    method RenderIn(i: nat) returns (r: Outcome)
      requires changes == map[] && NamesDiffer(tenants) && i < |tenants| && !request.operation.TeamCreate? && !request.operation.ServiceScaffold?
      modifies this
      ensures Matches(PlanIn(repository, old(tenants), i, request), r)
    {
      hide Matches, PlanTeamUpdate, PlanTeamDelete, PlanTeamFinalize, PlanAppCreate, PlanAppUpdate, PlanAppDelete, PlanAppFinalize,
           PlanDatabaseCreate, PlanDatabaseUpdate, PlanDatabaseDelete, PlanDatabaseFinalize, PlanServiceActivate, PlanServiceRetire, PlanServiceFinalize;
      match request.operation {
        case TeamUpdate => r := UpdateTeam(i);
        case TeamDelete => r := DeleteTeam(i);
        case TeamFinalize => r := FinalizeTeam(i);
        case AppCreate => r := CreateApplication(i);
        case AppUpdate => r := UpdateApplication(i);
        case AppDelete => r := DeleteApplication(i);
        case AppFinalize => r := FinalizeApplication(i);
        case DatabaseCreate => r := CreateDatabase(i);
        case DatabaseRestore => r := CreateDatabase(i);
        case DatabaseUpdate => r := UpdateDatabase(i);
        case DatabaseDelete => r := DeleteDatabase(i);
        case DatabaseFinalize => r := FinalizeDatabase(i);
        case ServiceActivate => r := ActivateService(i);
        case ServiceRetire => r := RetireService(i);
        case ServiceFinalize => r := FinalizeService(i);
      }
    }
  }

  lemma ScaffoldBegins(tenants: seq<Tenant>, i: nat, p: Parameters, before: seq<Action>)
    requires i < |tenants|
    ensures before <= PlanScaffoldIn(tenants, i, p, before).actions
  {
  }

  lemma {:induction false} ComponentActionsBegin(team: string, applications: seq<Entry>, s: Service, components: seq<string>, k: nat) returns (rest: seq<Action>)
    requires k <= |components|
    ensures ComponentActions(team, applications, s, components) == ComponentActions(team, applications, s, components[..k]) + rest
    decreases |components|
  {
    hide ComponentAction, WithComponents;
    if k == |components| {
      assert components[..k] == components;
      rest := [];
    } else {
      var init := components[..|components| - 1];
      assert init[..k] == components[..k];
      rest := ComponentActionsBegin(team, applications, s, init, k);
      rest := rest + [ComponentAction(team, WithComponents(applications, s, init), s, components[|components| - 1])];
    }
  }

  lemma {:induction false} ApproveNamedBegins(entries: seq<Entry>, names: seq<string>, q: Request, k: nat) returns (rest: seq<Action>)
    requires k <= |names|
    ensures ApproveNamed(entries, names, q) == ApproveNamed(entries, names[..k], q) + rest
    decreases |names|
  {
    if k == |names| {
      assert names[..k] == names;
      rest := [];
    } else {
      assert names[..|names| - 1][..k] == names[..k];
      rest := ApproveNamedBegins(entries, names[..|names| - 1], q, k);
      rest := rest + if Index(entries, EntryName, names[|names| - 1]) < 0 then [] else [Approve(AppLeaf(names[|names| - 1]), q.id, q.p.force)];
    }
  }

  lemma {:induction false} DropNamedBegins(entries: seq<Entry>, names: seq<string>, p: Parameters, k: nat) returns (rest: seq<Action>)
    requires k <= |names|
    ensures DropNamed(entries, names, p) == DropNamed(entries, names[..k], p) + rest
    decreases |names|
  {
    hide DropIfRetiring;
    if k == |names| {
      assert names[..k] == names;
      rest := [];
    } else {
      assert names[..|names| - 1][..k] == names[..k];
      rest := DropNamedBegins(entries, names[..|names| - 1], p, k);
      var j := Index(entries, EntryName, names[|names| - 1]);
      rest := rest + if j < 0 then [] else [DropIfRetiring(entries[j], p)];
    }
  }

  lemma IndexByName(a: seq<Entry>, b: seq<Entry>, name: string)
    requires |a| == |b| && forall i :: 0 <= i < |a| ==> a[i].name == b[i].name
    ensures Index(a, EntryName, name) == Index(b, EntryName, name)
  {
    var i, j := Index(a, EntryName, name), Index(b, EntryName, name);
    assert i >= 0 ==> EntryName(b[i]) == name;
    assert j >= 0 ==> EntryName(a[j]) == name;
  }

  lemma {:induction false} RetireKeepsIndex(entries: seq<Entry>, names: seq<string>, id: string, name: string)
    ensures Index(RetireNamed(entries, names, id), EntryName, name) == Index(entries, EntryName, name)
    ensures forall i :: 0 <= i < |entries| ==> RetireNamed(entries, names, id)[i].name == entries[i].name
    decreases |names|
  {
    if names != [] {
      RetireKeepsIndex(entries, names[..|names| - 1], id, name);
    }
    IndexByName(RetireNamed(entries, names, id), entries, name);
  }

  lemma RetireNone(entries: seq<Entry>, id: string)
    ensures entries == RetireEntries(entries[..0], id) + entries[0..]
  {
  }

  lemma WithSame(t: Tenant, databases: bool)
    ensures WithEntries(t, databases, EntriesOf(t, databases)) == t
  {
  }

  lemma WithTwice(t: Tenant, databases: bool, a: seq<Entry>, b: seq<Entry>)
    ensures EntriesOf(WithEntries(t, databases, a), databases) == a
    ensures WithEntries(WithEntries(t, databases, a), databases, b) == WithEntries(t, databases, b)
  {
  }

  lemma RetireOneMore(entries: seq<Entry>, databases: bool, q: Request, k: nat, now: seq<Entry>)
    requires k < |entries| && now == RetireEntries(entries[..k], q.id) + entries[k..]
    ensures now[k := Retired(now[k], q.id)] == RetireEntries(entries[..k + 1], q.id) + entries[k + 1..]
    ensures Approvals(now, databases, q)[k] == Approvals(entries, databases, q)[k]
  {
    assert now[k] == entries[k];
  }
}
