# SteadyState, verified

SteadyState is a Kubernetes operator with a command line tool and a portal. This project models its four stateful
components in Dafny and proves what they keep over every run. The cluster, the repository, the clock and the other
actors are explicit state; whatever the program does not control is nondeterministic.

`dafny verify dfyconfig.toml` checks everything.

## The four components

**Strategy migration** (`ApplicationStatus`, `MigrationRun`, `MigrationSteps`, `StrategyMigration`, `MigrationBounds`, `StatusGaps`, `Provenance`). The Application
reconciler moves an application between a rolling Deployment and a canary Rollout. Each API call is one step of a run. Between
any two calls the rest of the cluster moves (clock, edits of the specification, route acceptance, traffic weights, Deployment and
Rollout status), every call may fail after taking effect, and a reconcile may stop after any call. `MigrationRun` gives the rule
of a step and the theorems about whole runs; `StrategyMigration` is the reconciler as a class whose methods are proved to take only
such steps; `MigrationBounds` has runs that take no longer than the delays ask for, and `StatusGaps` one whose status arrives late. A ghost counter of failed calls lets each method
also say what it must have done when no call failed, so a reconcile cannot meet its contract by doing nothing.

**Deletion** (`DeletionRun`, `Deletion`, `DeletionGaps`, `DatabaseStatus`). The Database and Team reconcilers, everyone else and the finalizer rules of
Kubernetes, as a transition system whose two controllers are again a class with methods that end in an account of what they saw and did.

**Change renderer** (`Catalog`, `CatalogValidation`, `CatalogFacts`, `CatalogRules`, `CatalogPreserved`, `ChangePlan`, `ChangeRenderer`, `ChangeSets`, `ChangePaths`,
`OverlayFacts`, `RenderSafety`, `RenderAccounting`, `ServiceAccounting`, `OperationSoundness`, `ServiceSoundness`, `RenderRuns`, `RenderGaps`, `RenderGuards`,
`ManifestFields`, `RequestEffects`, `RequestOutcomes`, `RequestFrame`, `RetirementRuns`, `TrackedFiles`, `ScaffoldRoundTrip`, `ServiceLifecycle`, `ServiceInTeam`,
`Compaction`). Seventeen operations edit a tenant catalog and collect an
overlay of file changes, which is then applied with a comparison before each write. `ChangePlan` says what each operation plans; `ChangeRenderer`
is the class that edits its copy of the catalog, field by field, and is proved to carry out exactly that plan. What the plans mean is said without
them: `RenderGuards` says which requests go through and how the others are refused, `RequestEffects` with `ManifestFields` what the files then say, field by
field, `RequestOutcomes` what the catalog then lists, `RequestFrame` that nothing else changes, and `TrackedFiles` what is left behind. `CatalogRules` states the
rules of catalogs and requests in plain terms. `RenderRuns` and `RetirementRuns` have the theorems over sequences of requests, and `RenderGaps` the requests that break a catalog;
`ScaffoldRoundTrip`, `ServiceLifecycle` and `ServiceInTeam`, `Compaction` and `ChangePaths` treat the life of a service, the loops that overwrite the lists they
filter, and the path allowlist.

**Portal and log writer** (`StageLog`, `PortalWrites`, `PortalEvents`, `EventRuns`, `PortalPlans`, `PlanRuns`). The lock-protected objects of the
command line tool and the portal, each a class with a ghost history that its invariant ties to the real fields. `EventRuns` and `PlanRuns`
run any calls of the handlers in any order and say what is true afterwards.

The first rows of the table below are the main results.

## Where the code and its promises differ

- Four operations do not check everything that catalog validation will ask for afterwards: `service.scaffold` looks for active
  databases of its own team only, `service.activate` for components in its own team only, and `database.finalize` and the owned database of
  `service.finalize` ignore references that are left. `RenderRuns.OperationIsSafe` shows that these are all the gaps: the catalog
  is valid afterwards if and only if none of them is hit. Each can be hit: `RenderGaps.AScaffoldBreaks`, `RenderGaps.AnActivationBreaks`,
  `RenderGaps.ADatabaseFinalizationBreaks` and `RenderGaps.AServiceFinalizationBreaks` are healthy repositories and requests that go through.
- The Team controller lists Databases and then deletes the Namespace. `DeletionGaps.LateDatabaseIsLost` is a run of two reconciles in which a Database
  created in between loses its Cluster without a backup; `DeletionRun.ClustersLostToTheNamespaceAreLate` shows that this window is the only one.
- A drain mark is tagged with the route generation, not with the migration. After rolling, canary and rolling again without a route change
  in between, the old marks still count, so the 30 s before the Rollout goes run from the first cleanup: `MigrationBounds.OldMarksStillCount` is
  such a run, with its marks. `MigrationRun.RolloutOutlivesTheCleanup` gives the exact condition: the Services stay gone from that cleanup until
  the Rollout goes if and only if no canary reconcile re-creates one; and `MigrationRun.CleanupIsCountedInFull` says when they have been gone for
  30 s all the same.
- A status may be written for a generation that was current when the reconcile looked and is not when the patch arrives:
  `StatusGaps.AStatusArrivesLate` is such a run. `MigrationRun.StatusIsCurrentUnlessEdited` gives the exact condition over every run: a status is
  current when it arrives if and only if nobody edited the specification since that look.
- The break-glass audit says Failed after any error of the patch, also when the patch took effect and only its answer was lost:
  `PlanRuns.AFailureThatPatched` is such an execution. `PlanRuns.FailedIsTrueOfDeniedCalls` gives the exact condition, and `PlanRuns.Serve` has it over
  every run: a recorded failure is the truth if and only if the call had no effect. Completed is said only after a patch.
- The filter in `service.finalize` reads its key through a pointer into the slice it overwrites. `Compaction.CompactionFilters` gives the exact
  condition under which it removes the named element only; unique names suffice.
- `service.finalize` of a service that owns its team drops the whole tenant, whatever else the tenant still lists. `TrackedFiles.StepTracks` shows
  that, the gaps above aside, this is the only way a file loses its owner in the catalog, with the exact condition; `TrackedFiles.OrphanedLeafStays` says what becomes of
  the files, and `TrackedFiles.AnApplicationIsLeftBehind` is a case.

## Model

| member | source | states |
|---|---|---|
| `StrategyMigration.Operate` | internal/controller/application_controller.go:76-221 | From any sound start, any number of reconciles with anything in between, each failing or stopping at any call, is a run in which every step is a write of the controller or a change by others, so the theorems about runs apply to all of them |
| `MigrationRun.ServicesOutliveTheCutover` | internal/controller/application_progressive.go:210-231 | In every run, when the stable or canary Service goes, the route has pointed at the base Service without a break since an accepted observation at its present generation at least 15 s earlier, and the same reconcile saw the Deployment ready and the route accepted |
| `MigrationRun.RolloutOutlivesTheCleanup` | internal/controller/application_progressive.go:210-241 | In every run, when the Rollout goes, both Services were gone at an instant at least 30 s before, and are gone now, at the same route generation, which at that instant was at least 15 s after its acceptance: 45 s in all with the route on the base Service; they were gone throughout if and only if no canary reconcile re-created one in between |
| `MigrationRun.CleanupIsCountedInFull` | internal/controller/application_progressive.go:215-241 | The Services had been gone for 30 s without a break when the Rollout goes if and only if none of them was removed within those 30 s |
| `MigrationRun.ServingVersionIsHeld` | internal/controller/application_progressive.go:80-105 | From the creation of a Rollout beside an active version, until a rolling reconcile or one that saw the canary route accepted, the active version does not change, the Deployment is at it, and the Rollout is not routed |
| `MigrationRun.RouteWaitsForTheRollout` | internal/controller/application_progressive.go:110-122 | Until then the route is switched to the canary Services only in a reconcile that saw the Rollout healthy, with both Services there, and is not switched back |
| `MigrationRun.RoutingAwaitsTheCanaryRoute` | internal/controller/application_progressive.go:72-155 | A Rollout created while a version is active is first given traffic routing in a reconcile that saw the canary route accepted at its current generation and a stable ReplicaSet |
| `MigrationRun.RoutingIsKept` | internal/controller/application_progressive.go:143-162 | Once traffic routing was written to a Rollout, no later state of that Rollout is back in its bootstrap form, whatever the route status does |
| `MigrationRun.HealthyTripleIsReplacedWhole` | internal/controller/application_controller.go:189-220 | When active version, digest and revision differ between two states of a run, one reconcile between them wrote all three, with phase Healthy, for the spec it read, after seeing the Pods agree on that digest and the workload and route of its strategy ready; every condition is True at that generation |
| `MigrationRun.ActiveVersionLasts` | internal/controller/application_progressive.go:723-827 | An active version, once recorded, is never cleared |
| `MigrationRun.EveryStateIsSound` | internal/controller/application_controller.go:379-492 | In every state of every run Healthy means Ready is True with all conditions True at the observed generation; a canary route has both its Services; and an unestablished Rollout is routed only before any version was active |
| `MigrationRun.StatusIsCurrentUnlessEdited` | internal/controller/application_controller.go:542-566 | In every run a status is written one step after the same reconcile last looked at the generation and found it the one it reports; when it arrives it is of the present generation if and only if nobody edited the specification since that look, and then it was decided from the specification there is |
| `StatusGaps.AStatusArrivesLate` | internal/controller/application_controller.go:548-561 | A run in which the specification is corrected between that look and the patch: the last step writes Degraded for the generation before |
| `MigrationBounds.BoundsAreReached` | internal/controller/application_progressive.go:199-241 | The two bounds are reached by three reconciles that write and read their own drain marks: acceptance at 0 s, Services gone at 15 s, Rollout gone at 45 s; every step is one their branches allow, every mark is truthful in every state, and each removal finds its drain run out |
| `MigrationBounds.OldMarksStillCount` | internal/controller/application_progressive.go:316-356 | The drains are not counted afresh when a migration is reverted and repeated at one route generation: a run of such steps, marks and all, in which a canary reconcile re-creates the Services after their cleanup and a later rolling one removes them and the Rollout at the same instant, because both old marks have run out |
| `StrategyMigration.NothingLeftToWaitFor` | internal/controller/application_progressive.go:164-245 | A rolling reconcile that reports, and that found the Deployment ready, the route accepted and both drains run out whenever it looked, leaves no Rollout |
| `StrategyMigration.NothingLeftToHold` | internal/controller/application_progressive.go:72-155 | A canary reconcile that reports, and that found the Rollout established and the canary route accepted whenever it looked, leaves the Rollout with its steps and traffic routing and the Deployment at the new version |
| `StrategyMigration.CanaryTakesOverExactly` | internal/controller/application_progressive.go:86-155 | What a canary reconcile leaves, decided by the states it read: with an active version, the old version is held at exactly when the Rollout was not established, or the canary route not accepted and the Rollout not routed; otherwise the Deployment is at the new version and the Rollout routed |
| `MigrationSteps.OnlyThePluginRaisesWeight` | internal/controller/application_progressive.go:515-584 | Over a run whose steps are told apart as writes of the controller and changes by others, the canary gets more traffic only in a change by others, on a route that already has both backends |
| `StrategyMigration.ApplicationController.Reconcile` | internal/controller/application_controller.go:76-221 | Ends as Failed exactly when a call failed; otherwise as refused, blocked, denied or reported, each with what the reconcile saw to justify it and the status it then wrote for the spec it read, unless that moved on |
| `Provenance.ResolvePodImageDigest` | internal/controller/application_provenance.go:58-101 | Over the Pods that are not terminating, have Ready True and whose first container of the application runs the desired image: invalid if one answers with an image that ends in no digest, else conflict if two say different digests, else resolved with d exactly when there is such a Pod and all of them say d, else pending |
| `Deletion.Operate` | internal/controller/database_controller.go:77-200 | However the two reconcilers are scheduled, and wherever each of them stops, the result is a run |
| `DeletionRun.ClustersAreProtected` | internal/controller/database_controller.go:77-91 | In every state of every run a Cluster whose deletion nobody has requested has its Database, and that Database holds the finalizer, so the finalizer was there before the Cluster was |
| `DeletionRun.ClusterIsLostOnlyTo` | internal/controller/database_controller.go:312-351 | A Cluster is given up only by its own controller, on a terminating Database, in a reconcile that read that Database with backups disabled or forced, or that requested the final Backup and after that saw it completed; or with a terminating Namespace |
| `DeletionRun.DatabaseOutlivesItsCluster` | internal/controller/database_controller.go:338-351 | A Database that held the finalizer is gone only after its controller dropped it, with that evidence, when the Cluster was gone or its deletion requested |
| `DeletionRun.TeamOutlivesItsNamespace` | internal/controller/team_controller.go:273-290 | A Team that held its finalizer is gone only after its controller dropped it in a reconcile that saw the Namespace absent |
| `DeletionRun.ClustersLostToTheNamespaceAreLate` | internal/controller/team_controller.go:320-353 | A Cluster that goes with the Namespace belongs to a Database created after that listing and before the deletion: the exact window |
| `DeletionGaps.LateDatabaseIsLost` | internal/controller/team_controller.go:320-353 | The window is real: a run in which the Team reconcile ends awaiting its Namespace and the Database reconcile ends serving, each as its contract says, and the Cluster created between them is lost with no backup |
| `Deletion.CompletedBackupIsEnough` | internal/controller/database_controller.go:312-365 | A reconcile whose calls succeed, and which finds the deletion under way and the final Backup completed whenever it looks, drops the finalizer |
| `CatalogValidation.Validate` | internal/platformctl/catalog.go:80-196 | Accepts exactly the catalogs in which every name is used once per kind across all tenants and every entry has a valid name, the derived path, an existing directory, a matching lifecycle and request, and a database reference within its tenant |
| `CatalogRules.ValidExactly` | internal/platformctl/catalog.go:80-242 | A catalog is valid exactly when every name is that of one entry of its kind in the whole catalog, and every team, database, application and service has a label of its length, its derived path with a directory, an allowed lifecycle with or without a request ID, a database of its own team if it refers to one, and for a service a supported template, its components and its source |
| `ChangeRenderer.ChangeRenderer.Render` | internal/platformctl/render.go:90-138 | The dispatch refines the plan of the request: same tenants, same overlay, same refusal |
| `RenderRuns.OperationIsSafe` | internal/platformctl/render.go:90-593 | From a valid and consistent repository, the catalog an operation leaves is valid if and only if the operation avoids the four unchecked gaps (a scaffolded database name in use, an activated component name in use elsewhere, a finalized database still referred to), and then it is consistent too |
| `RenderGaps.FurnishedIsHealthy` | internal/platformctl/catalog.go:80-196 | Every catalog with unique names and well-formed entries is that of some healthy repository, so the theorems about healthy repositories are about every such catalog |
| `RenderGaps.AScaffoldBreaks` | internal/platformctl/render.go:166-177 | A healthy repository with a database of another team, and a well-formed request to scaffold a service of that name with a database, which goes through and leaves a catalog that does not load |
| `RenderGaps.AnActivationBreaks` | internal/platformctl/render.go:186-220 | The same for an activation, with an application of another team named like a component |
| `RenderGaps.ADatabaseFinalizationBreaks` | internal/platformctl/render.go:570-593 | The same for a database that is finalized before the application that retires with it and refers to it |
| `RenderGaps.AServiceFinalizationBreaks` | internal/platformctl/render.go:292-337 | The same for a service that takes its database along while another application refers to it |
| `RenderRuns.RunsStayHealthy` | internal/platformctl/render.go:90-593 | Over every sequence of rendered and applied requests without a gap the catalog stays valid and agrees with the manifests |
| `RenderGuards.RequestIsDecided` | internal/platformctl/render.go:90-593 | From a healthy repository it is decided by catalog and files alone whether a well-formed request goes through, and the code of every refusal, for all seventeen operations: teams and entries missing, taken, retiring or under another request, databases in use by an active application, references to inactive databases, shrinking storage, directories with anything foreign |
| `RequestEffects.RequestIsCarriedOut` | internal/platformctl/render.go:90-721 | After any of the seventeen operations that goes through without a gap, every manifest, kustomization and source it is about says, field by field, what the request asked for: names, namespaces, waves and protection, owners in order, image tags spelled from the version, storage class and recovery kept; or the mark in place of the protection with all else kept; or nothing is left |
| `RequestOutcomes.CatalogIsAsAsked` | internal/platformctl/render.go:90-593 | And the catalog lists exactly what it was asked to: the team of the request with exactly the entries, references, lifecycles and services that follow from the operation, and every other team as it was |
| `RequestFrame.OnlyWhatItConcerns` | internal/platformctl/render.go:90-593 | And no other file changes: a deletion touches manifests only, an activation the two version files only, and nothing touches a leaf or a source that the request is not about |
| `TrackedFiles.StepTracks` | internal/platformctl/render.go:262-337 | A request that goes through leaves every manifest, kustomization and source file with an owner in the catalog if and only if it does not finalize a service that owns its team while the team holds an application, a database or a service besides |
| `TrackedFiles.RunsStayTracked` | internal/platformctl/render.go:262-337 | Over every sequence of requests no file is ever left without an owner if and only if no request is of that kind |
| `TrackedFiles.AnApplicationIsLeftBehind` | internal/platformctl/render.go:262-311 | Such a request goes through: a healthy repository in which it leaves an active, protected application that nobody lists |
| `RenderRuns.StorageGrowsOverRuns` | internal/platformctl/render.go:408-443 | From the moment a database is listed until it is not, over any sequence of requests, its storage never shrinks and its class and recovery stanza stay |
| `RenderRuns.RetiredTeamsStayRetired` | internal/platformctl/render.go:445-470 | After team.delete, over any sequence of requests, whatever is left of the team retires under that request and nothing was added |
| `RetirementRuns.RetiredLeavesStayRetired` | internal/platformctl/render.go:445-600 | Over any sequence of requests a retiring team, application or database stays retiring while it is listed, under its request or one of the sequence |
| `RetirementRuns.RetiredServicesStayRetired` | internal/platformctl/render.go:186-260 | The same for services, of any team: nothing activates one that retires, and nothing else of it changes |
| `ServiceLifecycle.ServiceComesAndGoes` | internal/platformctl/render.go:140-337 | From any healthy repository in which the name is unused and the template can be generated, well-formed requests to scaffold a service with its team, optionally activate it, retire it and finalize it under the retirement all go through, and leave every file and every tenant as it was, up to order |
| `ServiceInTeam.ServiceComesAndGoesInTeam` | internal/platformctl/render.go:140-337 | From any healthy repository with an active team in which no file is of the service and the template can be generated, well-formed requests to scaffold it in that team, with or without a database, optionally activate it, retire it and finalize it under the retirement all go through, and leave every file and every other tenant as it was, and the team as it was up to the order of its entries |
| `ScaffoldRoundTrip.ServiceRoundTrip` | internal/platformctl/render.go:140-337 | Scaffold with a new team, optionally activate, retire, finalize: all files are as before and the tenants are as before up to order |
| `ChangeSets.WorkingTree.ApplyChangeSet` | internal/platformctl/render.go:830-871 | On any repository exactly a prefix of the set is applied, it stops at the first file that is not as it was rendered, and it reports success exactly when all went in |
| `ChangeSets.ApplyRendered` | internal/platformctl/render.go:830-871 | On the repository it was rendered from, a set always applies and yields exactly the overlay; a refused request changes nothing |
| `ChangeSets.ReapplyIsRefused` | internal/platformctl/render.go:840-856 | Applying an applied set again is refused at its first file and changes nothing |
| `Compaction.CompactionFilters` | internal/platformctl/render.go:304-310 | Its result is the filter by the name it started with if and only if neither that name nor the name of the first survivor comes again behind that survivor |
| `ChangePaths.AllowedIsAccepted` | internal/platformctl/render.go:794-828 | The text of every allowed path passes the path check |
| `ChangePaths.AcceptedIsAllowed` | internal/platformctl/render.go:794-828 | Every text that passes the path check is the text of an allowed path |
| `ChangePaths.TextIsInjective` | internal/platformctl/render.go:907-914 | Different paths of the model have different texts |
| `StageLog.Stream` | internal/platformctl/platform_lifecycle.go:48-90 | However an input is cut into writes, the lines shown after the flush are the non-blank redacted trimmed lines of the whole input cut at every CR and LF, the tail is its last 20, and redacting the tail again changes nothing |
| `StageLog.NoSecretIsShown` | internal/platformctl/platform_lifecycle.go:78-90 | In what is shown of any input, a line that names a secret and has a separator shows nothing of what followed it |
| `PortalWrites.Serve` | internal/platformctl/portal.go:282-298 | Over any requests with a clock that does not go back, every verdict is the one that counting over the full history gives, and no half-open minute holds more than ten accepted writes |
| `EventRuns.Serve` | internal/platformctl/portal_api.go:591-657 | After any broadcasts, connections, replays, deliveries, heartbeats and disconnections in any order: the hub has broadcast what was published, in order, keeps the last 128, has a listener for exactly the connections that are still open, and has sent each of them, besides heartbeats, an initial part of the retained events that this connection had not seen when it was made followed by every later one, and all of it when idle, unless the channel of the connection was ever full |
| `PlanRuns.Serve` | internal/platformctl/portal_api.go:439-786 | After any calls of the plan handlers in any order: no plan was dispatched twice, and every dispatch is of the request that was planned, after a confirmation before the plan expired, and after a check that the base is unchanged, the new rendering has the reviewed digest and a finalization is verified; every break-glass patch is the only one of its token and of its request ID, hits the object and version that was planned, claimed in time with reason and exact name, and then looked at, and follows its own audit record and event; every patch is the effect of its own call; the audit says Completed only after a patch, and Failed only under a request whose one patch call erred, which is the truth if and only if that call had no effect; at most 100 plans are stored |
| `PlanRuns.FailedIsTrueOfDeniedCalls` | internal/platformctl/portal_api.go:763-771 | Whatever reply the patch call of a request had: a recorded failure means that it erred, and nothing is patched under the request if and only if the call was denied rather than its answer lost |
| `PlanRuns.AFailureThatPatched` | internal/platformctl/portal_api.go:709-771 | An execution whose patch takes effect and loses its answer, with the records it leaves: Attempted twice, the patch, and Failed |
| `MigrationRun.GoneUnlessRecreated` | internal/controller/application_progressive.go:358-402 | Services that are gone stay gone over any stretch of a run if and only if no canary reconcile creates one again in it |
| `MigrationRun.RouteHeld` | internal/controller/application_progressive.go:338-356 | A route seen twice at one generation had the same backends at every instant between, which is what tagging the marks with the generation relies on |
| `MigrationRun.ServicesStayGone` | internal/controller/application_progressive.go:358-402 | Over any stretch of rolling reconciles the progressive Services, once both are gone, stay gone |
| `MigrationRun.TimeAndRouteAdvance` | internal/controller/application_progressive.go:316-356 | Along a run neither the clock nor the route generation goes back, and the route does not disappear |
| `MigrationSteps.DeploymentAfter` | internal/controller/application_controller.go:334-364 | The written Deployment has the wanted tag and migration label, keeps its replicas unless they are managed, keeps its status, and gets a new generation exactly when it differs from what it was |
| `MigrationSteps.RouteAfter` | internal/controller/application_progressive.go:515-553 | A written canary route keeps the weights exactly when the plugin was in progress on a canary route, and otherwise is 100 to 0; a written base route has no weights; drain marks and parents stay, and the generation stays only when the route does |
| `MigrationSteps.WritesCountGenerations` | internal/controller/application_progressive.go:477-622 | Each write counts one generation of its object exactly when it changes a field of it, in the model or outside it |
| `MigrationSteps.CreatedIsNew` | internal/controller/application_progressive.go:477-553 | A created Deployment, route or Rollout has generation 1 and no status yet; a created canary route has all traffic on the stable side |
| `MigrationSteps.WritesRaiseNoWeight` | internal/controller/application_progressive.go:515-553 | No write of the route gives the canary more traffic than it had |
| `MigrationSteps.RolloutAfter` | internal/controller/application_progressive.go:477-513 | A held Rollout has no steps and no traffic routing and is pinned; an unheld one has the steps of the specification and traffic routing and is not; a write lifts a pause and leaves status and stable ReplicaSet alone |
| `MigrationSteps.Frozen` | internal/controller/application_progressive.go:603-622 | Freezing pauses and pins the Rollout and leaves its routing and stable ReplicaSet alone |
| `MigrationSteps.RouteDrainRemaining` | internal/controller/application_progressive.go:338-356 | There is a remainder exactly for a mark of the current generation, and it is zero exactly when the delay has run out |
| `MigrationSteps.MarksStayHonest` | internal/controller/application_progressive.go:316-356 | A mark tagged with the current generation keeps proving the acceptance or the cleanup it was written for, through every change of the route |
| `MigrationSteps.NewMarkIsHonest` | internal/controller/application_progressive.go:316-332 | Writing a mark when its evidence holds keeps all marks truthful |
| `StrategyMigration.DrainEvidence` | internal/controller/application_progressive.go:316-356 | A mark that has run out proves that the delay lies between its evidence and now |
| `StrategyMigration.ApplicationController.Interfere` | internal/controller/application_progressive.go:53-70 | Between two calls the others may change what they own, and the result is still a run |
| `StrategyMigration.ApplicationController.UpsertDeployment` | internal/controller/application_progressive.go:260-278 | The Deployment of the new state is its desired form computed from the state the write found, or it is untouched; a reported success means it was written |
| `StrategyMigration.ApplicationController.UpsertService` | internal/controller/application_progressive.go:280-295 | The base Service selects the wanted migration label after a success |
| `StrategyMigration.ApplicationController.EnsureStableService` | internal/controller/application_progressive.go:358-376 | After a success the stable Service exists; nothing else changes |
| `StrategyMigration.ApplicationController.EnsureCanaryService` | internal/controller/application_progressive.go:358-376 | After a success the canary Service exists; nothing else changes |
| `StrategyMigration.ApplicationController.UpsertRollout` | internal/controller/application_progressive.go:388-402 | The Rollout of the new state is its held or full form computed from the state the write found, or untouched, and the write is a step the rule of runs allows |
| `StrategyMigration.ApplicationController.UpsertRoute` | internal/controller/application_progressive.go:515-584 | The route of the new state is the wanted one computed from the state the write found, or untouched, and gives the canary no more traffic; it is not written while a backend Service is missing; leaving one set of backends needs the evidence for it |
| `StrategyMigration.ApplicationController.FreezeRollout` | internal/controller/application_progressive.go:603-622 | An existing Rollout is frozen after a success; none is created or removed |
| `StrategyMigration.ApplicationController.WaitForRouteDrain` | internal/controller/application_progressive.go:316-332 | Drained means the delay lies between truthful evidence at the same generation and now, and nothing was written; not drained means the delay was outstanding when looked at and a mark of this generation is now running |
| `StrategyMigration.ApplicationController.MarkDrain` | internal/controller/application_progressive.go:321-332 | The mark carries the route generation and the time read before the patch, and the route stays where it is |
| `StrategyMigration.ApplicationController.DeleteService` | internal/controller/application_progressive.go:624-654 | A success means the Service is gone; the other one never comes back, and the cutover stays drained |
| `StrategyMigration.ApplicationController.DeleteRollout` | internal/controller/application_progressive.go:631-654 | A success means the Rollout is gone, and it may be called only with both drains proved |
| `StrategyMigration.ApplicationController.PatchStatus` | internal/controller/application_controller.go:537-570 | After a success the status is the wanted one or the specification moved on; otherwise it is the old one or the wanted one; nothing else changes |
| `StrategyMigration.ApplicationController.TryPatch` | internal/controller/application_controller.go:542-566 | One look at the generation and one patch: nothing is written unless the generation looked at is that of the wanted status; a conflict writes nothing and is tried again |
| `StrategyMigration.ApplicationController.ReconcileSharedChildren` | internal/controller/application_progressive.go:247-306 | After a success the Deployment was read back at the wanted tag, with the migration label when isolating and the replicas when managing them, and the Service selects the same label |
| `StrategyMigration.ApplicationController.ReconcileProgressiveResources` | internal/controller/application_progressive.go:358-402 | After a success both Services existed together with a Rollout that is in bootstrap form exactly when the reconcile holds |
| `StrategyMigration.ApplicationController.ReconcileAnchoredChildren` | internal/controller/application_progressive.go:86-105 | After a success the reconcile holds exactly when a version is active and the Rollout it read was not established, or the route it read not accepted and the Rollout not routed; holding leaves the Deployment at the active version and the Rollout in bootstrap form, not holding the Deployment at the new version and the Rollout with its steps and routing; replicas are set only while holding without a Rollout, and the base Service selects no migration label |
| `StrategyMigration.ApplicationController.ReconcileCanaryChildren` | internal/controller/application_progressive.go:72-141 | A canary reconcile is migrating exactly when the route is not a canary route or, with an active version, is not accepted; a route it leaves on the base Service goes with an unhealthy Rollout and any other was written in this reconcile; Deployment, Service and Rollout are as its decision to hold asks |
| `StrategyMigration.ApplicationController.SwitchToCanary` | internal/controller/application_progressive.go:110-122 | The route stays off the canary backends only when it was there already and the Rollout is not healthy |
| `StrategyMigration.ApplicationController.SwitchToBase` | internal/controller/application_progressive.go:183-197 | A route left on canary backends means a Rollout exists and the Deployment is not ready |
| `StrategyMigration.ApplicationController.ReconcileRollingChildren` | internal/controller/application_progressive.go:164-245 | Not migrating means the route uses the base Service and the Rollout is gone; migrating means the Deployment was not ready, the route not accepted, or a drain outstanding; a Rollout that is left is pinned, and the Deployment carries the migration label that the Service selects; the Deployment was written with its replicas, and the base route was written unless the Deployment is not ready beside a Rollout |
| `StrategyMigration.ApplicationController.RetireRollout` | internal/controller/application_progressive.go:199-241 | Retired means Rollout and both Services are gone; a success that does not retire saw a drain outstanding |
| `StrategyMigration.ApplicationController.Degrade` | internal/controller/application_controller.go:430-449 | After a success the status is Degraded for the spec that was read, keeps the last healthy triple and names a security rejection, unless the specification moved on |
| `StrategyMigration.ApplicationController.BlockOnDatabase` | internal/controller/application_controller.go:451-464 | After a success the status is Pending without and Degraded with an active version and DatabaseReady is False, unless the specification moved on |
| `StrategyMigration.ApplicationController.ResolveImageDigest` | internal/controller/application_provenance.go:50-56 | The outcome is the one the specification gives for Pods that were listed in this reconcile |
| `StrategyMigration.ApplicationController.ReportRolling` | internal/controller/application_controller.go:199-220 | After a success the status has the phase that deployment, route, drains and digest call for, unless the specification moved on |
| `StrategyMigration.ApplicationController.ReportCanary` | internal/controller/application_progressive.go:723-812 | After a success the status has the phase that route, Rollout, analysis and digest call for, unless the specification moved on |
| `StrategyMigration.ApplicationController.ReconcileRolling` | internal/controller/application_controller.go:157-221 | Ends as Failed exactly when a call failed; otherwise it was denied by an admission it saw, or it reported on the children and the Pods it saw |
| `StrategyMigration.ApplicationController.ReconcileCanary` | internal/controller/application_controller.go:157-221 | The same for a canary reconcile |
| `ApplicationStatus.DeploymentState` | internal/controller/application_controller.go:498-511 | Ready exactly when current, updated, available and Available with no exceeded deadline, whatever the order of the conditions; failed exactly when a deadline was exceeded |
| `ApplicationStatus.RouteState` | internal/controller/application_controller.go:513-528 | Over all parent statuses: rejected exactly when some parent of our Gateway says Accepted False or ResolvedRefs False at the current generation and none before it says both True; ready exactly when some parent of ours says both True and none before it says either False; never both |
| `ApplicationStatus.DegradedStatus` | internal/controller/application_controller.go:430-449 | Every field: Degraded with the last healthy triple kept and no candidate, Ready and ConfigurationReady False, SecurityPolicyReady False exactly on a security rejection, the rest Unknown or as nothing was asked for; service health is left as it was |
| `ApplicationStatus.DatabaseBlockedStatus` | internal/controller/application_controller.go:451-464 | Every field: Pending without an active version and Degraded with one, DatabaseReady, ConfigurationReady and Ready False, RolloutHealthy Unknown, no candidate, the last healthy triple and the other conditions kept |
| `ApplicationStatus.WorkloadStatus` | internal/controller/application_controller.go:379-428 | Every field: a failed Deployment or a rejected route is Degraded, before anything else; a ready Deployment behind a ready route is what its digest makes it, Healthy exactly when resolved; else Progressing. The candidate is the new tag exactly while Progressing, RolloutHealthy tells a rejected route over a ready workload from one over an unready one, and the triple changes exactly when Healthy |
| `ApplicationStatus.CanaryWorkloadStatus` | internal/controller/application_progressive.go:723-812 | Every field: rejection, then migration, then a failed or aborted analysis (Degraded only once all traffic is back on the stable release, RollingBack until then, Progressing while an inconclusive one waits for a person), then a full rollout behind a ready route with the digest of its Pods; a candidate is shown until it is the active version |
| `ApplicationStatus.StrategyMigrationStatus` | internal/controller/application_progressive.go:814-835 | Every field: Progressing and not Ready, the triple kept, service health from a ready route with either workload available, the candidate until it is active |
| `ApplicationStatus.RollingCompletes` | internal/controller/application_controller.go:207-209 | Recording the database condition completes a workload status: Healthy exactly when Ready is True, and then every condition is True at one generation; nothing else of it changes |
| `ApplicationStatus.CanaryCompletes` | internal/controller/application_controller.go:207-209 | The same for a canary status |
| `ApplicationStatus.MigratingCompletes` | internal/controller/application_controller.go:207-209 | The same for the status of a migration |
| `Provenance.ResolutionIsUnique` | internal/controller/application_provenance.go:58-101 | The four outcomes exclude one another, so the specification fixes state and digest |
| `Provenance.SameForAnyOrder` | internal/controller/application_provenance.go:58-101 | Any listing of the same Pods gives the same state and digest |
| `Provenance.EndsInIs` | internal/controller/application_provenance.go:142-148 | A digest is found in an image exactly when it is sha256 and 64 lower-case hexadecimal digits and the image is it, or ends with it after an at sign or a slash |
| `Provenance.WantsIs` | internal/controller/application_provenance.go:103-113 | An image is the desired one exactly when it equals it, or is its repository pinned to a digest |
| `Provenance.PodIs` | internal/controller/application_provenance.go:114-140 | Readiness, image and answer of a Pod are those of its conditions and of the first container and the first status of the application |
| `DeletionRun.DatabasesGoAfterApplications` | internal/controller/team_controller.go:305-346 | The controllers delete a Database only in a Team reconcile that saw its own Namespace and listed no Applications |
| `DeletionRun.DatabaseCallsTakeEffect` | internal/controller/database_controller.go:312-351 | The calls of a Database controller bring about what they ask for and touch nothing of any other Database |
| `DeletionRun.TeamCallsTakeEffect` | internal/controller/team_controller.go:301-353 | So do those of the Team controller on Databases |
| `DeletionRun.ApplicationsAreDeleted` | internal/controller/team_controller.go:305-318 | A Delete makes that one Application terminate |
| `DeletionRun.NamespaceCallsTakeEffect` | internal/controller/team_controller.go:205-225 | A write leaves the Namespace managed by that Team, and finalizers come and go as asked |
| `DeletionRun.NamespaceFell` | internal/controller/team_controller.go:320-353 | A Namespace left to the Team controller is terminating only since a reconcile that listed no Applications and after that no Databases |
| `Deletion.OthersRespect` | internal/controller/database_controller.go:77-91 | Nobody but its controller takes the finalizer off a Database or brings a Cluster back that is gone or going |
| `Deletion.Controllers.ReconcileDatabase` | internal/controller/database_controller.go:77-200 | Ends as faulted exactly when a call failed; otherwise it saw the Database gone, saw its checks refuse, wrote the Cluster last, waits for a final Backup it requested and saw unfinished, or dropped the finalizer last; all its calls keep their guards |
| `Deletion.Controllers.AddFinalizer` | internal/controller/database_controller.go:85-91 | After a success the Database holds the finalizer |
| `Deletion.Controllers.WriteChildren` | internal/controller/database_controller.go:92-153 | The Cluster is written only with the finalizer held, and only if the checks pass |
| `Deletion.Controllers.ReconcileDatabaseDeletion` | internal/controller/database_controller.go:312-365 | Waits only with backups enabled and no force, after requesting the Backup and seeing it unfinished; otherwise drops the finalizer unless a call fails; with force it first gets rid of the final Backup, and with backups disabled it makes no call but the two; does nothing without the finalizer |
| `Deletion.Controllers.CompleteFinalBackup` | internal/controller/database_controller.go:317-334 | Completed means a completed Backup was seen after the request and is removed again |
| `Deletion.Controllers.RemoveCluster` | internal/controller/database_controller.go:342-345 | A success means the Cluster is gone or its deletion requested, and it needs the release evidence |
| `Deletion.Controllers.DropFinalizer` | internal/controller/database_controller.go:346-351 | Only with the release evidence and with the deletion of the Cluster requested |
| `Deletion.Controllers.ReconcileTeam` | internal/controller/team_controller.go:68-125 | Ends as faulted exactly when a call failed; otherwise with what it saw to justify each other end, down to a Delete for every listed object |
| `Deletion.Controllers.ReconcileNamespace` | internal/controller/team_controller.go:205-225 | The Namespace is written only for a live Team that holds its finalizer, and never when it was seen to belong to another |
| `Deletion.Controllers.ReconcileTeamDeletion` | internal/controller/team_controller.go:273-353 | Never skips a tier: the finalizer goes only with the Namespace seen absent, and a foreign Namespace is left alone |
| `Deletion.Controllers.DeleteContents` | internal/controller/team_controller.go:301-353 | With Applications listed, each is terminating or was sent a Delete, and nothing else is deleted |
| `Deletion.Controllers.DeleteDatabasesAndNamespace` | internal/controller/team_controller.go:320-353 | With Databases listed, each is terminating or was sent a Delete, after force was passed on if the Team has it; the Namespace is deleted only with both lists empty |
| `Deletion.Controllers.DeleteApplications` | internal/controller/team_controller.go:309-318 | Every listed Application is terminating or was sent a Delete |
| `Deletion.Controllers.DeleteDatabases` | internal/controller/team_controller.go:324-345 | Every listed Database was sent force first, when the Team has it and the Database has not, and is terminating or was sent a Delete |
| `Deletion.Controllers.RemoveNamespace` | internal/controller/team_controller.go:347-352 | The Delete is the last call, with both lists seen empty in order |
| `DatabaseStatus.ObserveDatabaseBackups` | internal/controller/database_controller.go:400-431 | The last success is the newest completed Backup of the cluster, and the latest phase that of a newest attempt, the first of them when they are dated |
| `DatabaseStatus.SameForAnyOrder` | internal/controller/database_controller.go:400-431 | The result does not depend on listing order while attempts have distinct dates |
| `DatabaseStatus.StatusFromCluster` | internal/controller/database_controller.go:461-508 | Every phase and condition exactly: Degraded on a ready cluster whose latest backup failed, BackingUp before the first backup, Restoring and Provisioning before readiness, Ready otherwise |
| `CatalogRules.RequestOkExactly` | internal/platformctl/change.go:132-265 | A request is taken exactly when it has a UUID, a label and, for each of the seventeen operations, what that operation asks for |
| `CatalogValidation.SeeTenant` | internal/platformctl/catalog.go:88-194 | The seen-maps accept a tenant exactly when its names repeat none before it |
| `ChangeRenderer.ChangeRenderer.Set` | internal/platformctl/render.go:764-780 | Records a change exactly when the repository does not hold that content already, and refuses a path off the allowlist |
| `ChangeRenderer.ChangeRenderer.Remove` | internal/platformctl/render.go:782-792 | Records a deletion of a file that exists, with its previous content; refuses one that does not |
| `ChangeRenderer.ChangeRenderer.WriteLeaf` | internal/platformctl/render.go:725-735 | Manifest and kustomization, or the reason why not |
| `ChangeRenderer.ChangeRenderer.ApproveManifest` | internal/platformctl/render.go:602-634 | Swaps the prune protection for the deletion request and keeps every other annotation and the spec |
| `ChangeRenderer.ChangeRenderer.DeleteLeaf` | internal/platformctl/render.go:737-762 | Drops the two generated files of a leaf and refuses one with anything else in it |
| `ChangeRenderer.ChangeRenderer.WriteServiceSource` | internal/platformctl/service_templates.go:37-53 | Every file of the template is recorded unless it is there already |
| `ChangeRenderer.ChangeRenderer.WriteServiceVersion` | internal/platformctl/service_templates.go:55-64 | The version and the descriptor follow the service |
| `ChangeRenderer.ChangeRenderer.DeleteServiceSource` | internal/platformctl/service_templates.go:66-104 | All files go, and only if the directory holds exactly the generated ones |
| `ChangeRenderer.ChangeRenderer.CreateTeam` | internal/platformctl/render.go:93-99 | The edits of team.create, made one after the other on the loaded catalog, end with exactly the tenants and the overlay of its plan, or with the first reason it cannot be carried out |
| `ChangeRenderer.ChangeRenderer.UpdateTeam` | internal/platformctl/render.go:100-106 | The edits of team.update, made one after the other on the loaded catalog, end with exactly the tenants and the overlay of its plan, or with the first reason it cannot be carried out |
| `ChangeRenderer.ChangeRenderer.DeleteTeam` | internal/platformctl/render.go:445-470 | The edits of team.delete, made one after the other on the loaded catalog, end with exactly the tenants and the overlay of its plan, or with the first reason it cannot be carried out |
| `ChangeRenderer.ChangeRenderer.FinalizeTeam` | internal/platformctl/render.go:509-543 | The edits of team.finalize, made one after the other on the loaded catalog, end with exactly the tenants and the overlay of its plan, or with the first reason it cannot be carried out, with the loops that overwrite the lists they filter |
| `ChangeRenderer.ChangeRenderer.CreateApplication` | internal/platformctl/render.go:364-387 | The edits of app.create, made one after the other on the loaded catalog, end with exactly the tenants and the overlay of its plan, or with the first reason it cannot be carried out |
| `ChangeRenderer.ChangeRenderer.UpdateApplication` | internal/platformctl/render.go:389-406 | The edits of app.update, made one after the other on the loaded catalog, end with exactly the tenants and the overlay of its plan, or with the first reason it cannot be carried out |
| `ChangeRenderer.ChangeRenderer.DeleteApplication` | internal/platformctl/render.go:472-486 | The edits of app.delete, made one after the other on the loaded catalog, end with exactly the tenants and the overlay of its plan, or with the first reason it cannot be carried out |
| `ChangeRenderer.ChangeRenderer.FinalizeApplication` | internal/platformctl/render.go:545-568 | The edits of app.finalize, made one after the other on the loaded catalog, end with exactly the tenants and the overlay of its plan, or with the first reason it cannot be carried out, with the loops that overwrite the lists they filter |
| `ChangeRenderer.ChangeRenderer.CreateDatabase` | internal/platformctl/render.go:408-428 | The edits of database.create and database.restore, made one after the other on the loaded catalog, end with exactly the tenants and the overlay of its plan, or with the first reason it cannot be carried out |
| `ChangeRenderer.ChangeRenderer.UpdateDatabase` | internal/platformctl/render.go:430-443 | The edits of database.update, made one after the other on the loaded catalog, end with exactly the tenants and the overlay of its plan, or with the first reason it cannot be carried out |
| `ChangeRenderer.ChangeRenderer.DeleteDatabase` | internal/platformctl/render.go:488-507 | The edits of database.delete, made one after the other on the loaded catalog, end with exactly the tenants and the overlay of its plan, or with the first reason it cannot be carried out |
| `ChangeRenderer.ChangeRenderer.FinalizeDatabase` | internal/platformctl/render.go:570-593 | The edits of database.finalize, made one after the other on the loaded catalog, end with exactly the tenants and the overlay of its plan, or with the first reason it cannot be carried out, with the loops that overwrite the lists they filter |
| `ChangeRenderer.ChangeRenderer.ScaffoldService` | internal/platformctl/render.go:140-184 | The edits of service.scaffold, made one after the other on the loaded catalog, end with exactly the tenants and the overlay of its plan, or with the first reason it cannot be carried out |
| `ChangeRenderer.ChangeRenderer.ActivateService` | internal/platformctl/render.go:186-220 | The edits of service.activate, made one after the other on the loaded catalog, end with exactly the tenants and the overlay of its plan, or with the first reason it cannot be carried out |
| `ChangeRenderer.ChangeRenderer.RetireService` | internal/platformctl/render.go:222-260 | The edits of service.retire, made one after the other on the loaded catalog, end with exactly the tenants and the overlay of its plan, or with the first reason it cannot be carried out |
| `ChangeRenderer.ChangeRenderer.FinalizeService` | internal/platformctl/render.go:262-337 | The edits of service.finalize, made one after the other on the loaded catalog, end with exactly the tenants and the overlay of its plan, or with the first reason it cannot be carried out, with the loops that overwrite the lists they filter |
| `ChangeRenderer.ChangeRenderer.RemoveServiceFrom` | internal/platformctl/render.go:312-335 | The loops over applications, databases and services, which overwrite the lists they filter, leave the team of the plan |
| `ChangeSets.RenderChange` | internal/platformctl/render.go:40-88 | Lists each change of the rendered overlay once, in the order of the paths, never nothing; or gives the reason for the refusal |
| `ChangeSets.OverlayIsWellFormed` | internal/platformctl/render.go:764-792 | Every recorded change stays on the allowlist and differs from the repository: a create is of a missing file, an update and a delete carry what is there |
| `RenderSafety.StaysConsistent` | internal/platformctl/render.go:602-721 | Every operation that accounts for its leaves keeps catalog and manifests in agreement: active entries protected and unmarked, retiring ones marked with the catalog's request |
| `RenderSafety.RetirementIsFinal` | internal/platformctl/render.go:445-600 | A leaf that retires is never active again while it is listed, and keeps its request unless this operation renews it |
| `RenderSafety.StorageOnlyGrows` | internal/platformctl/render.go:430-443 | While a database is listed, no operation shrinks its storage or changes its class or its recovery stanza |
| `CatalogPreserved.SoundIsValid` | internal/platformctl/catalog.go:80-196 | A sound operation that accounts for its leaves takes a valid catalog to a valid one |
| `CatalogFacts.UniqueIsSeparate` | internal/platformctl/catalog.go:92-195 | Unique names give every leaf and every service at most one tenant |
| `RenderRuns.GapsShow` | internal/platformctl/render.go:140-337 | Each of the gaps, when it is hit, leaves a catalog that validation refuses |
| `RenderRuns.StepIsHealthy` | internal/platformctl/render.go:40-88 | A rendered and applied request takes a healthy repository to a healthy one whose catalog is the planned one |
| `RenderRuns.RetiringTeamOnlyShrinks` | internal/platformctl/render.go:353-362 | Once a team retires, an operation on it removes it or only removes entries: nothing is added or changed |
| `RetirementRuns.StepKeepsServiceRetired` | internal/platformctl/render.go:186-260 | A retiring service that is still listed after a request is as it was, or retiring under that request |
| `TrackedFiles.OrphanedLeafStays` | internal/platformctl/render.go:297-311 | A leaf that goes with such a team keeps its manifest exactly as it was, and nobody lists it |
| `TrackedFiles.OrphanedSourceStays` | internal/platformctl/render.go:297-311 | So does the source of another service of the team |
| `RenderRuns.DeletionRetiresAll` | internal/platformctl/render.go:445-470 | team.delete leaves the team and every entry in it retiring under the request |
| `RenderRuns.OnlyTheTargetChanges` | internal/platformctl/render.go:339-362 | An operation leaves every other tenant exactly as it was |
| `RenderAccounting.UpdatedGrows` | internal/platformctl/render.go:668-713 | An updated database manifest keeps class and recovery and is refused if it would shrink |
| `OperationSoundness.ScaffoldUnique` | internal/platformctl/render.go:166-184 | A scaffold leaves names unique if and only if its database name is unused anywhere |
| `ServiceSoundness.ActivationUnique` | internal/platformctl/render.go:204-206 | An activation leaves names unique if and only if no other tenant has an application named like a component |
| `ManifestFields.TemplateGenerates` | internal/platformctl/service_templates.go:106-149 | The files of a template are exactly the listed ones |
| `ManifestFields.TeamFileSays` | internal/platformctl/render.go:636-643 | Each parameter of a team is in its field, owners and repositories as often as given and in the order of their text |
| `ManifestFields.UpdatedDatabaseSays` | internal/platformctl/render.go:676-707 | An updated database keeps class and recovery and is refused exactly when it would shrink |
| `ManifestFields.ComponentFileSays` | internal/platformctl/service_templates.go:226-232 | The application of a component runs the image of its service, of its role and version |
| `ManifestFields.DigitsAreNumeral` | internal/platformctl/service_templates.go:226-232 | The digits of a version number are its decimal numeral, without leading zeros |
| `ManifestFields.MarkedIsMarked` | internal/platformctl/render.go:602-634 | The mark takes the protection away and names the request; spec, names and every other annotation stay |
| `ManifestFields.BeforePrecedes` | internal/platformctl/render.go:156-182 | Names are ordered by the first place where they differ, a prefix first |
| `RenderRuns.EmptyIsHealthy` | internal/platformctl/catalog.go:80-196 | An empty catalog is healthy, which is where runs start |
| `TrackedFiles.EmptyIsTracked` | internal/platformctl/catalog.go:80-196 | And every file has an owner in it, which is where tracked runs start |
| `Compaction.CompactInPlace` | internal/platformctl/render.go:304-310 | The loop that overwrites the slice it reads its key from keeps exactly the elements that the changing key says, for every input |
| `Compaction.UniqueNamesSuffice` | internal/platformctl/render.go:329-335 | With unique names it removes exactly the named element and keeps the order of the rest |
| `Compaction.RemoveItem` | internal/platformctl/render.go:304-335 | On a list with unique names that loop removes the item of that name, as the plans say |
| `Compaction.RemoveNames` | internal/platformctl/render.go:313-327 | The loop that compares with fixed names leaves the items of other names, in order |
| `ChangePaths.LeafTexts` | internal/platformctl/render.go:907-912 | Every leaf has its directory under gitops, with a manifest of its kind and a kustomization in it |
| `ChangePaths.SourceTexts` | internal/platformctl/service_templates.go:106-149 | Every generated file has its place in the directory of its service |
| `ChangePaths.RelativeIsInjective` | internal/platformctl/service_templates.go:106-149 | No two files of the templates have the same relative path |
| `StageLog.StageLogWriter.Write` | internal/platformctl/platform_lifecycle.go:48-61 | Consumes the whole chunk; lines, pending text and tail are those of all input so far |
| `StageLog.StageLogWriter.Flush` | internal/platformctl/platform_lifecycle.go:63-70 | Everything since the last flush has been shown as its transcript, and nothing is pending |
| `StageLog.StageLogWriter.Tail` | internal/platformctl/platform_lifecycle.go:72-76 | The last 20 shown lines, joined |
| `StageLog.StageLogWriter.Emit` | internal/platformctl/platform_lifecycle.go:78-90 | A non-blank line goes to the destination with its prefix and into the bounded tail, redacted |
| `StageLog.Redact` | internal/platformctl/output.go:60-75 | The loop over the lines computes the line-by-line redaction |
| `StageLog.ScanAppend` | internal/platformctl/platform_lifecycle.go:48-61 | Scanning two chunks one after the other is scanning them together |
| `StageLog.ScanIsTranscript` | internal/platformctl/platform_lifecycle.go:48-70 | Scanning and then flushing shows the lines of the pieces |
| `StageLog.ScanNormalized` | internal/platformctl/platform_lifecycle.go:51-52 | Turning CR LF and CR into LF does not change what is shown |
| `StageLog.RedactTwice` | internal/platformctl/output.go:60-75 | A shown line is left alone by a second redaction |
| `StageLog.TailIsStable` | internal/platformctl/platform_lifecycle.go:72-76 | So is a remembered tail |
| `StageLog.RedactionHides` | internal/platformctl/output.go:60-75 | A line that names a secret, in any case, with a separator behind it, is shown up to the separator and then masked; any other line is shown as it is |
| `StageLog.RedactedByLine` | internal/platformctl/output.go:60-75 | Redaction goes line by line, and joining and splitting the lines gives the text |
| `StageLog.TrimStrips` | internal/platformctl/platform_lifecycle.go:78-90 | Trimming strips exactly the white space at both ends |
| `PortalWrites.WriteLimiter.Prune` | internal/platformctl/portal.go:285-290 | The in-place pass leaves exactly the entries after the cutoff, in order |
| `PortalWrites.WriteLimiter.AllowWrite` | internal/platformctl/portal.go:282-298 | Accepts exactly when fewer than ten writes of the whole accept history lie in the last minute; the slice is the recent part of that history |
| `PortalWrites.AtMostTenAMinute` | internal/platformctl/portal.go:282-298 | Eleven writes a minute apart leave at most ten in every half-open minute |
| `PortalEvents.EventHub.Broadcast` | internal/platformctl/portal_api.go:642-657 | The log is the last 128 broadcasts, and every listener with room is offered the event |
| `PortalEvents.EventHub.Retain` | internal/platformctl/portal_api.go:645-650 | The event takes the next ID and the log is the last 128 broadcasts |
| `PortalEvents.EventHub.FanOut` | internal/platformctl/portal_api.go:651-656 | One event for every listener whose channel has room, and none for the others, which are recorded |
| `PortalEvents.EventHub.Subscribe` | internal/platformctl/portal_api.go:604-610 | Registration and the copy of the log are one step, so nothing falls between them |
| `PortalEvents.EventHub.ReplayNext` | internal/platformctl/portal_api.go:611-615 | Passes over one copied event or writes it, and loses nothing that is owed |
| `PortalEvents.EventHub.Replay` | internal/platformctl/portal_api.go:610-616 | Writes the copied events after the client's last ID and loses nothing that is owed |
| `PortalEvents.EventHub.Deliver` | internal/platformctl/portal_api.go:619-625 | Moves one event from channel to stream |
| `PortalEvents.EventHub.Heartbeat` | internal/platformctl/portal_api.go:626-632 | Takes an event ID and reaches one stream; the log does not change |
| `PortalEvents.EventHub.Disconnect` | internal/platformctl/portal_api.go:609-622 | Only that listener goes |
| `EventRuns.ConnectedOnce` | internal/platformctl/portal_api.go:603-611 | A listener is that of one connection, with one last event ID and one moment at which it was made |
| `PortalEvents.StreamIsFaithful` | internal/platformctl/portal_api.go:604-657 | Whatever the interleaving, what a listener received besides heartbeats is in increasing ID order; while its channel never overflowed it is a prefix of what it is owed, and all of it once drained |
| `PortalEvents.OwedIsExact` | internal/platformctl/portal_api.go:604-657 | Owed are exactly the retained events after the last ID and every later broadcast |
| `PlanRuns.DispatchIsVerified` | internal/platformctl/portal_api.go:512-532 | A dispatched plan whose operation is any stem followed by .finalize was checked with its verification passed |
| `PlanRuns.OnePatchCall` | internal/platformctl/portal_api.go:752-763 | A request has one patch call, by one token, with one reply |
| `PortalPlans.PlanStore.ExpirePlans` | internal/platformctl/portal_api.go:542-554 | Exactly the used and the expired plans go |
| `PortalPlans.PlanStore.StorePlan` | internal/platformctl/portal_api.go:467-488 | Stores the reviewed request and digest under a fresh ID exactly when fewer than 100 live plans are left |
| `PortalPlans.PlanStore.ClaimPlan` | internal/platformctl/portal_api.go:491-509 | Succeeds exactly for a confirmed, stored, unused and unexpired plan, and then for nobody else ever |
| `PortalPlans.PlanStore.CheckPlan` | internal/platformctl/portal_api.go:512-532 | Goes on exactly when the base is unchanged, the new rendering has the reviewed digest, a finalization is verified and the request encodes |
| `PortalPlans.PlanStore.DispatchPlan` | internal/platformctl/portal_api.go:533-540 | Dispatches a checked plan, once |
| `PortalPlans.PlanStore.StoreBreakPlan` | internal/platformctl/portal_api.go:697-705 | Stores the reviewed object identity under a fresh token |
| `PortalPlans.PlanStore.ClaimBreakPlan` | internal/platformctl/portal_api.go:719-731 | Succeeds exactly with a reason and the exact name, for an unused unexpired plan for this application and action, and then for nobody else ever |
| `PortalPlans.PlanStore.Inspect` | internal/platformctl/portal_api.go:739-751 | Goes on exactly when the Rollout is the reviewed one at the reviewed version, under a new request ID |
| `PortalPlans.PlanStore.AuditAttempt` | internal/platformctl/portal_api.go:752-757 | Goes on exactly when the write of the attempt was answered; the record is there unless the write was denied, also when its answer was lost |
| `PortalPlans.PlanStore.RecordAttempt` | internal/platformctl/portal_api.go:758-762 | Goes on exactly when the event was answered; the event is there unless it was denied, also when its answer was lost |
| `PortalPlans.PlanStore.PatchRollout` | internal/platformctl/portal_api.go:763-764 | Patches at the reviewed version unless the call is denied, and takes any other answer than success, a lost one too, for an error |
| `PortalPlans.PlanStore.AuditOutcome` | internal/platformctl/portal_api.go:764-776 | After an answered patch the audit says Completed and after any error Failed, unless its write is denied; without an answer an execution that completed ends here, and a failed one goes on |
| `PortalPlans.PlanStore.RecordOutcome` | internal/platformctl/portal_api.go:768-785 | The event of the outcome is there unless it was denied, and the operation is complete exactly when the patch and every record of it was answered |

## Left out

- StageLog.StageLogWriter.Write: works on characters; UTF-8 decoding of byte chunks, and the interleaving of standard output and error, are not modelled.
- StageLog.Redact: case folding is that of ASCII.
- PortalEvents.EventHub.Broadcast: event IDs do not wrap around at 64 bits, and JSON, HTTP and the framing of server-sent events (section 9.2 of the WHATWG HTML Standard) are left out.
- EventRuns.Serve: says nothing about the IDs of heartbeats or about what follows an overflow, which the code does not guarantee; a heartbeat takes its ID and is written in one step.
- PortalPlans.PlanStore.CheckPlan: base, rendering, verification and encoding are inputs; equal digests are not claimed to mean equal content.
- PlanRuns.Serve: plan IDs, tokens and request IDs are random and assumed not to repeat; the reason of a break-glass operation is one flag.
- PortalPlans.PlanStore.AuditOutcome: the audit keeps every record, where the code replaces the file of its request; a write that stops half-way is not modelled.
- ApplicationStatus.CanaryWorkloadStatus: condition reasons, messages and transition times are left out.
- ApplicationStatus.RouteState: takes the first decisive parent status, as the code does; it is not claimed to be independent of their order.
- StrategyMigration.ApplicationController.UpsertDeployment: fields other than image, replicas and migration label are one flag that says whether anything else differs.
- StrategyMigration.ApplicationController.Reconcile: the Application's own finalizer and deletion, the check for installed definitions, monitoring objects, network policies, the ConfigMap and the AnalysisTemplate appear only as checks and calls that may fail; reads return the current state, not a cache.
- StrategyMigration.ApplicationController.Interfere: assumes that nobody else creates or deletes the Application's objects or edits the base route, that the Gateway plugin edits only canary weights, that Argo Rollouts never clears a stable ReplicaSet, and that the clock does not go back.
- MigrationBounds.OldMarksStillCount: states that only repeat the one before, and the status each reconcile reports at its end, are left out of the run.
- MigrationRun.ServicesOutliveTheCutover: is about the route, the Deployment and the marks; that the base Service has endpoints at every instant is not claimed, since its selector changes before the relabelled Pods are ready.
- Deletion.Controllers.ReconcileDatabase: network policies, secrets, object stores and schedules are one call that may fail; nobody else deletes a Cluster of a live Database or removes the platform's finalizers.
- Deletion.Controllers.ReconcileDatabaseDeletion: eventual completion is not claimed, and neither is that a leftover final Backup belongs to the present lifetime of the Database: the code decides neither.
- Deletion.Controllers.RemoveCluster: requests the deletion, as the code does; when the Cluster disappears is up to the others.
- Deletion.Controllers.ReconcileNamespace: quotas, roles and policies that follow the Namespace are left out.
- ChangeSets.RenderChange: YAML, digests, diffs and generated text are opaque; empty directories are not part of the file map.
- ChangeSets.WorkingTree.ApplyChangeSet: input and output errors are left out.
- CatalogValidation.Validate: white space other than blank, tab and line ends in owners, and request IDs in other notations than the canonical 36 characters, are left out.
- ChangeRenderer.ChangeRenderer.Render: the loaded catalog is one value that each edit replaces; of the pointers into its lists only the ones that a filter reads through while it overwrites are modelled.
- ChangeRenderer.ChangeRenderer.ScaffoldService: the sort of equal names is an insertion sort; validation rules equal names out.
- RequestOutcomes.CatalogIsAsAsked: says what the catalog lists, each entry once since its names are unique, not in which order.
- StrategyMigration.ApplicationController.PatchStatus: how often a conflict is tried again is not part of its contract.
- ChangePaths.AcceptedIsAllowed: path cleaning is stated on components with forward slashes.
- Request checks whose outcome no operation depends on are one flag of the request.
- Process trees, PowerShell, Git and GitHub calls, command line flags, doctor checks, the web page and the static resource builders: input and output, constants or easy members.
