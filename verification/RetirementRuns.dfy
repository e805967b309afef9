/** Nothing that retires comes back: whatever is retiring stays so, under the request
    that retired it or a later one, for as long as the catalog lists it. */
module RetirementRuns {
  import opened Catalog
  import opened CatalogFacts
  import opened ChangePlan
  import opened ChangeSets
  import opened OverlayFacts
  import opened RenderSafety
  import opened RenderAccounting
  import opened ServiceAccounting
  import opened CatalogPreserved
  import opened OperationSoundness
  import opened ServiceSoundness
  import opened RenderRuns
  import opened ServiceLifecycle
  import opened RequestEffects

  // ---------------------------------------------------------------- services of one plan

  /** What a service was before: itself, not retiring, retired under the request, or not listed. */
  predicate Descends(tenants: seq<Tenant>, r: Service, id: string) {
    || !AnyService(tenants, r.name)
    || exists t <- tenants :: exists s <- t.services :: s.name == r.name && (r == s || r == RetiredService(s, id) || !s.lifecycle.Retiring?)
  }

  ghost predicate Descended(tenants: seq<Tenant>, after: seq<Tenant>, id: string) {
    forall u <- after :: forall r <- u.services :: Descends(tenants, r, id)
  }

  lemma SameDescends(tenants: seq<Tenant>, t: Tenant, s: Service, r: Service, id: string)
    requires t in tenants && s in t.services && s.name == r.name && (r == s || r == RetiredService(s, id) || !s.lifecycle.Retiring?)
    ensures Descends(tenants, r, id)
  {
  }

  lemma FewerDescend(tenants: seq<Tenant>, after: seq<Tenant>, id: string)
    requires forall u <- after :: u in tenants
    ensures Descended(tenants, after, id)
  {
    hide Descends;
    forall u, r | u in after && r in u.services ensures Descends(tenants, r, id) {
      SameDescends(tenants, u, r, r, id);
    }
  }

  lemma InPlaceDescends(tenants: seq<Tenant>, i: nat, t: Tenant, id: string)
    requires i < |tenants| && forall r <- t.services :: Descends(tenants, r, id)
    ensures Descended(tenants, tenants[i := t], id)
  {
    hide Descends;
    forall u, r | u in tenants[i := t] && r in u.services ensures Descends(tenants, r, id) {
      var k :| 0 <= k < |tenants| && tenants[i := t][k] == u;
      if k != i {
        SameDescends(tenants, tenants[k], r, r, id);
      }
    }
  }

  /** The services of the target are among those it had. */
  lemma SubsetDescends(tenants: seq<Tenant>, i: nat, t: Tenant, id: string)
    requires i < |tenants| && forall r <- t.services :: r in tenants[i].services
    ensures Descended(tenants, tenants[i := t], id)
  {
    hide Descends, Descended;
    forall r | r in t.services ensures Descends(tenants, r, id) {
      SameDescends(tenants, tenants[i], r, r, id);
    }
    InPlaceDescends(tenants, i, t, id);
  }

  /** Service by service the target keeps, retires, or rewrites one that is not retiring. */
  lemma RewrittenDescends(tenants: seq<Tenant>, i: nat, t: Tenant, id: string)
    requires i < |tenants| && |t.services| == |tenants[i].services|
    requires forall k :: 0 <= k < |t.services| ==>
               var s, r := tenants[i].services[k], t.services[k];
               r.name == s.name && (r == s || r == RetiredService(s, id) || !s.lifecycle.Retiring?)
    ensures Descended(tenants, tenants[i := t], id)
  {
    hide Descends, Descended;
    forall r | r in t.services ensures Descends(tenants, r, id) {
      var k :| 0 <= k < |t.services| && t.services[k] == r;
      SameDescends(tenants, tenants[i], tenants[i].services[k], r, id);
    }
    InPlaceDescends(tenants, i, t, id);
  }

  lemma ScaffoldDescends(tenants: seq<Tenant>, base: seq<Tenant>, k: nat, p: Parameters, id: string)
    requires k < |base| && !AnyService(tenants, p.name) && forall u <- base :: u in tenants || u.services == []
    ensures Descended(tenants, base[k := WithService(base[k], p)], id)
  {
    hide AnyService, WithService;
    var after := base[k := WithService(base[k], p)];
    forall u, r | u in after && r in u.services ensures Descends(tenants, r, id) {
      var m :| 0 <= m < |after| && after[m] == u;
      if m == k {
        ScaffoldedServices(base[k], p, r);
      }
      if r in base[m].services {
        SameDescends(tenants, base[m], r, r, id);
      }
    }
  }

  lemma ServiceScaffoldDescends(tenants: seq<Tenant>, q: Request)
    requires UniqueNames(AllNames(tenants)) && AllWrites(PlanServiceScaffold(tenants, q).actions)
    ensures Descended(tenants, PlanServiceScaffold(tenants, q).tenants, q.id)
  {
    hide UniqueNames, AllNames, Index, AnyService, SortBy, DatabaseActive, ScaffoldActions, WithService, TeamFile, ServiceTeam, Descended;
    var p, i := q.p, Index(tenants, TenantName, q.p.team);
    RefusalFails(tenants, Conflict);
    RefusalFails(tenants, NotFound);
    if i >= 0 {
      FailsLast([]);
      ScaffoldDescends(tenants, tenants, i, p, q.id);
    } else {
      var team := NewTenant(p.team, ServiceTeam(p).owners);
      var longer := SortBy(tenants + [team], TenantName);
      var k := NewTeamAt(tenants, team);
      FailsLast([WriteLeaf(TeamLeaf(p.team), TeamFile(p.team, ServiceTeam(p)))]);
      forall u | u in longer ensures u in tenants || u.services == [] {
        SortedMembers(tenants + [team], TenantName, u);
      }
      ScaffoldDescends(tenants, longer, k, p, q.id);
    }
  }

  lemma PlanDescends(repo: Repository, tenants: seq<Tenant>, i: nat, q: Request)
    requires i < |tenants| && !q.operation.TeamCreate? && !q.operation.ServiceScaffold? && AllWrites(PlanIn(repo, tenants, i, q).actions)
    ensures Descended(tenants, PlanIn(repo, tenants, i, q).tenants, q.id)
  {
    hide Index, SortBy, Without, ComponentActions, WithComponents, DropNamed, UpdatedDatabase, AnyApplication, AnyDatabase,
         DatabaseActive, DatabaseInUse, Approvals, Drops, SourceDrops, OwnedDatabase, RetireNamed, ApproveNamed, Descends, Descended, Normalize;
    RefusalFails(tenants, Conflict);
    RefusalFails(tenants, NotFound);
    var after, t := PlanIn(repo, tenants, i, q).tenants, tenants[i];
    if q.operation.TeamDelete? || q.operation.ServiceActivate? || q.operation.ServiceRetire? {
      RewrittenDescends(tenants, i, after[i], q.id);
    } else if forall u <- after :: u in tenants {
      FewerDescend(tenants, after, q.id);
    } else {
      assert forall r <- after[i].services :: r in t.services;
      SubsetDescends(tenants, i, after[i], q.id);
    }
  }

  // ---------------------------------------------------------------- one step

  ghost predicate HasService(repo: Repository, s: Service) { Loads(repo) && exists t <- TenantsOf(repo) :: s in t.services }

  lemma StepDescends(repo: Repository, q: Request, next: Repository)
    requires Healthy(repo) && Step(repo, q, next)
    ensures Loads(next) && Descended(TenantsOf(repo), TenantsOf(next), q.id)
  {
    hide Execute, Consistent, RequestOk, FilesAfter, GapFree, Rendered, View, Valid, Unanimous, PlanIn, Step, UniqueNames, AllNames,
         PlanServiceScaffold, Index, Separate, Derived, Shape, Descends;
    StepPlanned(repo, q, next);
    var tenants := TenantsOf(repo);
    if q.operation.TeamCreate? {
      CreateDescends(tenants, q);
    } else if q.operation.ServiceScaffold? {
      UniqueTenants(repo);
      ServiceScaffoldDescends(tenants, q);
    } else {
      var i := PlanOfTarget(repo, q, next);
      PlanDescends(repo, tenants, i, q);
    }
  }

  lemma CreateDescends(tenants: seq<Tenant>, q: Request)
    ensures Descended(tenants, PlanTeamCreate(tenants, q).tenants, q.id)
  {
    hide Index, Normalize, Descends;
    forall u, r | u in PlanTeamCreate(tenants, q).tenants && r in u.services ensures Descends(tenants, r, q.id) {
      SameDescends(tenants, u, r, r, q.id);
    }
  }

  /** A retiring service that is still listed after a request is as it was, or
      retiring under that request; nothing activates it. */
  lemma StepKeepsServiceRetired(repo: Repository, q: Request, next: Repository, was: Service, now: Service)
    requires Healthy(repo) && Step(repo, q, next) && HasService(repo, was) && was.lifecycle.Retiring? && HasService(next, now) && now.name == was.name
    ensures now == was || now == RetiredService(was, q.id)
  {
    hide Healthy, Step, UniqueNames, AllNames, TenantOk, Separate;
    StepDescends(repo, q, next);
    UniqueTenants(repo);
    var tenants := TenantsOf(repo);
    var t :| t in tenants && was in t.services;
    assert AnyService(tenants, was.name);
    assert Descends(tenants, now, q.id);
    var u :| u in tenants && exists s <- u.services :: s.name == now.name && (now == s || now == RetiredService(s, q.id) || !s.lifecycle.Retiring?);
    var s :| s in u.services && s.name == now.name && (now == s || now == RetiredService(s, q.id) || !s.lifecycle.Retiring?);
    OneService(tenants, t, u, was, s);
  }

  lemma OneService(tenants: seq<Tenant>, t: Tenant, u: Tenant, a: Service, b: Service)
    requires Separate(tenants) && t in tenants && u in tenants && a in t.services && b in u.services && a.name == b.name
    ensures a == b
  {
    hide TenantHas;
    var i :| 0 <= i < |tenants| && tenants[i] == t;
    var k :| 0 <= k < |tenants| && tenants[k] == u;
    assert TenantHasService(tenants[i], a.name) && TenantHasService(tenants[k], a.name);
    var m :| 0 <= m < |t.services| && t.services[m] == a;
    var n :| 0 <= n < |t.services| && t.services[n] == b;
    assert ServiceName(t.services[m]) == ServiceName(t.services[n]);
  }

  // ---------------------------------------------------------------- whole runs

  /** One of the requests with these numbers. */
  ghost predicate RequestedIn(requests: seq<Request>, i: nat, k: nat, id: string) { exists j :: i <= j < k && j < |requests| && requests[j].id == id }

  /** A retiring service stays retiring, under the request it had or a later one, while it is listed. */
  lemma {:induction false} RetiredServicesStayRetired(repos: seq<Repository>, requests: seq<Request>, i: nat, k: nat, was: Service, now: Service)
    requires Run(repos, requests) && Healthy(repos[0]) && i <= k < |repos| && HasService(repos[i], was) && was.lifecycle.Retiring? && HasService(repos[k], now)
    requires now.name == was.name && forall j :: i <= j <= k ==> exists s :: HasService(repos[j], s) && s.name == was.name
    ensures now.lifecycle.Retiring? && (now == was || (now == RetiredService(was, now.request) && RequestedIn(requests, i, k, now.request)))
    decreases k - i
  {
    hide Healthy, Step, HasService;
    RunsStayHealthy(repos, requests, i);
    if i == k {
      SameService(repos[i], was, now);
    } else {
      RunsStayHealthy(repos, requests, k - 1);
      assert Step(repos[k - 1], requests[k - 1], repos[k]);
      var middle :| HasService(repos[k - 1], middle) && middle.name == was.name;
      RetiredServicesStayRetired(repos, requests, i, k - 1, was, middle);
      StepKeepsServiceRetired(repos[k - 1], requests[k - 1], repos[k], middle, now);
    }
  }

  lemma SameService(repo: Repository, a: Service, b: Service)
    requires Healthy(repo) && HasService(repo, a) && HasService(repo, b) && a.name == b.name
    ensures a == b
  {
    hide Valid, Consistent, Separate;
    UniqueTenants(repo);
    var t :| t in TenantsOf(repo) && a in t.services;
    var u :| u in TenantsOf(repo) && b in u.services;
    OneService(TenantsOf(repo), t, u, a, b);
  }

  ghost predicate Lists(repo: Repository, l: Listed) { Loads(repo) && CatalogLists(TenantsOf(repo), l) }

  /** The same of teams, applications and databases. */
  lemma {:induction false} RetiredLeavesStayRetired(repos: seq<Repository>, requests: seq<Request>, i: nat, k: nat, was: Listed, now: Listed)
    requires Run(repos, requests) && Healthy(repos[0]) && i <= k < |repos| && Lists(repos[i], was) && was.lifecycle.Retiring? && Lists(repos[k], now)
    requires now.leaf == was.leaf && forall j :: i <= j <= k ==> exists l :: Lists(repos[j], l) && l.leaf == was.leaf
    ensures now.lifecycle.Retiring? && (now.request == was.request || RequestedIn(requests, i, k, now.request))
    decreases k - i
  {
    hide Healthy, Step, Lists;
    RunsStayHealthy(repos, requests, i);
    if i == k {
      SameListing(repos[i], was, now);
    } else {
      RunsStayHealthy(repos, requests, k - 1);
      assert Step(repos[k - 1], requests[k - 1], repos[k]);
      var middle :| Lists(repos[k - 1], middle) && middle.leaf == was.leaf;
      RetiredLeavesStayRetired(repos, requests, i, k - 1, was, middle);
      StepKeepsListed(repos[k - 1], requests[k - 1], repos[k], middle, now);
    }
  }

  lemma StepKeepsListed(repo: Repository, q: Request, next: Repository, was: Listed, now: Listed)
    requires Healthy(repo) && Step(repo, q, next) && Lists(repo, was) && was.lifecycle.Retiring? && Lists(next, now) && now.leaf == was.leaf
    ensures now.lifecycle.Retiring? && (now.request == was.request || now.request == q.id)
  {
    hide Healthy, Step, CatalogLists;
    StepKeepsRetirement(repo, q, next, was, now);
  }

  lemma SameListing(repo: Repository, a: Listed, b: Listed)
    requires Healthy(repo) && Lists(repo, a) && Lists(repo, b) && a.leaf == b.leaf
    ensures a == b
  {
    hide Valid, Consistent, Separate, CatalogLists;
    UniqueTenants(repo);
    RenderSafety.ListedOnce(TenantsOf(repo), a, b);
  }
}
