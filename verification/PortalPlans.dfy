/** Single-use plans of the portal: a change is planned, reviewed, claimed under
    the lock and dispatched outside it; break-glass operations work the same way.
    The entries of `submitting` and `executing` are the local variables of the
    request handlers that are past their claim. Every call of theirs that others
    can see is a step of its own, so any handlers interleave. */
module PortalPlans {
  import opened Wrappers

  const CAPACITY := 100
  const PLAN_LIFETIME := 600_000_000_000   // nanoseconds
  const BREAK_LIFETIME := 120_000_000_000

  datatype Request = Request(requestID: string, baseSHA: string, operation: string)
  datatype Plan = Plan(request: Request, digest: string, expires: int, used: bool)
  datatype Progress = Claimed | Checked(base: string, digest: string)
  datatype Submission = Submission(plan: Plan, at: int, progress: Progress)
  datatype Dispatch = Dispatch(planID: string, request: Request, base: string, digest: string, claimedAt: int)

  datatype BreakPlan = BreakPlan(namespace: string, application: string, action: string,
                                 uid: string, resourceVersion: string, expires: int, used: bool)

  /** How a remote or disk call ends for its caller: it took effect and said so, it
      took effect and an error came back, or it had no effect. */
  datatype Reply = Answered | Lost | Denied

  /** How far an execution got; each stage but the first carries its request ID. */
  datatype Stage = Taken | Inspected(id: string) | Audited(id: string) | Recorded(id: string)
    | Patched(id: string) | Completing(id: string) | Erred(id: string) | Failing(id: string)
  datatype Execution = Execution(plan: BreakPlan, stage: Stage)

  datatype AuditResult = Attempted | Failed | Completed

  /** Durable effects of break-glass execution, in the order they happen. */
  datatype Effect =
    | AuditWritten(requestID: string, uid: string, resourceVersion: string, result: AuditResult)
    | EventRecorded(requestID: string, result: AuditResult)
    | StatusPatched(requestID: string, uid: string, resourceVersion: string, token: string)

  predicate HasSuffix(s: string, suffix: string) {
    |suffix| <= |s| && s[|s| - |suffix|..] == suffix
  }

  /** The operation removes what was retired. */
  ghost predicate Finalizes(operation: string) { exists stem :: operation == stem + ".finalize" }

  lemma SuffixMeans(s: string, suffix: string)
    ensures HasSuffix(s, suffix) <==> exists stem :: s == stem + suffix
  {
    if HasSuffix(s, suffix) {
      assert s == s[..|s| - |suffix|] + suffix;
    }
  }

  function LivePlans(plans: map<string, Plan>, now: int): map<string, Plan> {
    map id | id in plans && !plans[id].used && now <= plans[id].expires :: plans[id]
  }

  function LiveBreaks(plans: map<string, BreakPlan>, now: int): map<string, BreakPlan> {
    map id | id in plans && !plans[id].used && now <= plans[id].expires :: plans[id]
  }

  /** The new rendering on the new base is what was reviewed. */
  ghost predicate Unchanged(plan: Plan, base: Option<string>, rendered: Option<string>, verified: bool, encoded: bool) {
    && base == Some(plan.request.baseSHA) && rendered == Some(plan.digest)
    && (Finalizes(plan.request.operation) ==> verified) && encoded
  }

  /** A dispatch that the reviewed plan and its claim justify. */
  predicate Justified(d: Dispatch, reviewed: map<string, Plan>, claimed: map<string, int>) {
    && d.planID in reviewed && d.planID in claimed
    && d.request == reviewed[d.planID].request && d.digest == reviewed[d.planID].digest && d.base == d.request.baseSHA
    && d.claimedAt == claimed[d.planID] <= reviewed[d.planID].expires
  }

  predicate DistinctDispatches(ds: seq<Dispatch>) {
    forall i, j :: 0 <= i < j < |ds| ==> ds[i].planID != ds[j].planID
  }

  // ---------------------------------------------------------------- what the records say of the patches

  /** The attempt is on record, in the audit first and then as an event. */
  predicate Announced(effects: seq<Effect>, id: string, uid: string, resourceVersion: string) {
    exists a, e :: 0 <= a < e < |effects| && effects[a] == AuditWritten(id, uid, resourceVersion, Attempted) && effects[e] == EventRecorded(id, Attempted)
  }

  predicate PatchedUnder(effects: seq<Effect>, id: string) { exists e <- effects :: e.StatusPatched? && e.requestID == id }

  /** Patches are announced and hit what was reviewed, one for a token. */
  ghost predicate OrderlyPatches(effects: seq<Effect>, reviewed: map<string, BreakPlan>, issued: map<string, string>) {
    && (forall i :: 0 <= i < |effects| && effects[i].StatusPatched? ==>
         && effects[i].token in reviewed && effects[i].uid == reviewed[effects[i].token].uid
         && effects[i].resourceVersion == reviewed[effects[i].token].resourceVersion
         && effects[i].requestID in issued && issued[effects[i].requestID] == effects[i].token
         && Announced(effects[..i], effects[i].requestID, effects[i].uid, effects[i].resourceVersion))
    && (forall i, j :: 0 <= i < j < |effects| && effects[i].StatusPatched? && effects[j].StatusPatched? ==> effects[i].token != effects[j].token)
  }

  /** The audit says Completed only after the patch. */
  ghost predicate CompletedHonestly(effects: seq<Effect>) {
    forall i :: 0 <= i < |effects| && effects[i].AuditWritten? && effects[i].result.Completed? ==> PatchedUnder(effects[..i], effects[i].requestID)
  }

  /** What a stage of an execution rests on. */
  ghost predicate StageHolds(token: string, e: Execution, effects: seq<Effect>, issued: map<string, string>) {
    && (!e.stage.Taken? ==> e.stage.id in issued && issued[e.stage.id] == token)
    && (e.stage.Audited? ==> AuditWritten(e.stage.id, e.plan.uid, e.plan.resourceVersion, Attempted) in effects)
    && (e.stage.Recorded? ==> Announced(effects, e.stage.id, e.plan.uid, e.plan.resourceVersion))
    && (e.stage.Patched? || e.stage.Completing? ==> PatchedUnder(effects, e.stage.id))
    && (e.stage.Taken? || e.stage.Inspected? || e.stage.Audited? || e.stage.Recorded? ==> forall x <- effects :: x.StatusPatched? ==> x.token != token)
  }

  /** A request whose failure is on record does not patch any more. */
  predicate FailuresFinal(effects: seq<Effect>, executing: map<string, Execution>, issued: map<string, string>) {
    forall e <- effects :: e.AuditWritten? && e.result.Failed? ==>
      e.requestID in issued && (issued[e.requestID] in executing ==> executing[issued[e.requestID]].stage == Failing(e.requestID))
  }

  class PlanStore {
    var plans: map<string, Plan>
    var breakPlans: map<string, BreakPlan>
    var submitting: map<string, Submission>
    var executing: map<string, Execution>
    var effects: seq<Effect>

    ghost var reviewed: map<string, Plan>            // every plan ever stored
    ghost var claimed: map<string, int>              // every plan ever claimed, and when
    ghost var dispatches: seq<Dispatch>              // every workflow dispatch
    ghost var reviewedBreaks: map<string, BreakPlan>
    ghost var claimedBreaks: set<string>
    ghost var issued: map<string, string>            // request IDs of executions, with their tokens

    ghost predicate ValidPlans()
      reads this`plans, this`submitting, this`reviewed, this`claimed
    {
      && |plans| <= CAPACITY
      && claimed.Keys <= reviewed.Keys
      && (forall id :: id in reviewed ==> !reviewed[id].used)
      && (forall id :: id in plans ==> id in reviewed && plans[id] == reviewed[id].(used := id in claimed))
      && (forall id :: id in submitting ==>
           && id in claimed && submitting[id].plan == reviewed[id].(used := true) && submitting[id].at == claimed[id] <= reviewed[id].expires
           && (submitting[id].progress.Checked? ==> submitting[id].progress == Checked(reviewed[id].request.baseSHA, reviewed[id].digest)))
    }

    ghost predicate ValidDispatches()
      reads this`dispatches, this`submitting, this`reviewed, this`claimed
    {
      && DistinctDispatches(dispatches)
      && forall i :: 0 <= i < |dispatches| ==> Justified(dispatches[i], reviewed, claimed) && dispatches[i].planID !in submitting
    }

    ghost predicate ValidTokens()
      reads this`breakPlans, this`executing, this`effects, this`reviewedBreaks, this`claimedBreaks, this`issued
    {
      && claimedBreaks <= reviewedBreaks.Keys
      && (forall id :: id in reviewedBreaks ==> !reviewedBreaks[id].used)
      && (forall id :: id in breakPlans ==> id in reviewedBreaks && breakPlans[id] == reviewedBreaks[id].(used := id in claimedBreaks))
      && (forall id :: id in executing ==> id in claimedBreaks && executing[id].plan == reviewedBreaks[id].(used := true))
      && (forall e <- effects :: e.StatusPatched? ==> e.token in claimedBreaks) && forall r :: r in issued ==> issued[r] in claimedBreaks
    }

    ghost predicate ValidEffects()
      reads this`executing, this`effects, this`reviewedBreaks, this`issued
    {
      && OrderlyPatches(effects, reviewedBreaks, issued) && CompletedHonestly(effects) && FailuresFinal(effects, executing, issued)
      && forall id :: id in executing ==> StageHolds(id, executing[id], effects, issued)
    }

    ghost predicate ValidBreaks()
      reads this`breakPlans, this`executing, this`effects, this`reviewedBreaks, this`claimedBreaks, this`issued
    {
      ValidTokens() && ValidEffects()
    }

    ghost predicate Valid()
      reads this
    {
      ValidPlans() && ValidDispatches() && ValidBreaks()
    }

    constructor ()
      ensures Valid() && plans == map[] && breakPlans == map[] && submitting == map[] && executing == map[] && dispatches == [] && effects == []
      ensures reviewed == map[] && claimed == map[] && reviewedBreaks == map[] && claimedBreaks == {} && issued == map[]
    {
      plans, breakPlans, submitting, executing, effects := map[], map[], map[], map[], [];
      reviewed, claimed, dispatches, reviewedBreaks, claimedBreaks, issued := map[], map[], [], map[], {}, map[];
    }

    /** Drops used and expired plans of both kinds. */
    method ExpirePlans(now: int)
      requires Valid()
      modifies this`plans, this`breakPlans
      ensures Valid()
      ensures plans == LivePlans(old(plans), now) && breakPlans == LiveBreaks(old(breakPlans), now)
    {
      ExpireChanges(now);
      ExpireBreaks(now);
    }

    method ExpireChanges(now: int)
      requires ValidPlans()
      modifies this`plans
      ensures ValidPlans() && plans == LivePlans(old(plans), now)
    {
      ghost var before := plans;
      var todo := plans.Keys;
      while todo != {}
        invariant todo <= plans.Keys <= before.Keys && |plans| <= |before|
        invariant forall id :: id in plans ==> plans[id] == before[id]
        invariant forall id :: id in before ==> (id in plans <==> id in todo || id in LivePlans(before, now))
        decreases |todo|
      {
        var id :| id in todo;
        if plans[id].used || now > plans[id].expires {
          DropShrinks(plans, id);
          plans := plans - {id};
        }
        todo := todo - {id};
      }
      assert plans == LivePlans(before, now);
    }

    method ExpireBreaks(now: int)
      requires ValidBreaks()
      modifies this`breakPlans
      ensures ValidBreaks() && breakPlans == LiveBreaks(old(breakPlans), now)
    {
      hide OrderlyPatches, CompletedHonestly, StageHolds;
      ghost var before := breakPlans;
      var todo := breakPlans.Keys;
      while todo != {}
        invariant todo <= breakPlans.Keys <= before.Keys
        invariant forall id :: id in breakPlans ==> breakPlans[id] == before[id]
        invariant forall id :: id in before ==> (id in breakPlans <==> id in todo || id in LiveBreaks(before, now))
        decreases |todo|
      {
        var id :| id in todo;
        if breakPlans[id].used || now > breakPlans[id].expires {
          breakPlans := breakPlans - {id};
        }
        todo := todo - {id};
      }
      assert breakPlans == LiveBreaks(before, now);
    }

    /** Stores a freshly rendered plan under a new random ID, if there is room. */
    method StorePlan(planID: string, request: Request, renderDigest: string, planned: int, locked: int) returns (stored: bool)
      requires Valid() && planID !in reviewed
      modifies this`plans, this`breakPlans, this`reviewed
      ensures Valid()
      ensures stored <==> |LivePlans(old(plans), locked)| < 100
      ensures var plan := Plan(request, renderDigest, planned + 600_000_000_000, false);
              if stored then plans == LivePlans(old(plans), locked)[planID := plan] && reviewed == old(reviewed)[planID := plan]
              else plans == LivePlans(old(plans), locked) && reviewed == old(reviewed)
      ensures breakPlans == LiveBreaks(old(breakPlans), locked)
    {
      hide ValidBreaks, ValidPlans, ValidDispatches, LivePlans;
      var expires := planned + PLAN_LIFETIME;
      ExpirePlans(locked);
      if |plans| >= CAPACITY {
        return false;
      }
      Insert(planID, Plan(request, renderDigest, expires, false));
      return true;
    }

    method Insert(planID: string, plan: Plan)
      requires ValidPlans() && ValidDispatches() && planID !in reviewed && !plan.used && |plans| < CAPACITY
      modifies this`plans, this`reviewed
      ensures ValidPlans() && ValidDispatches()
      ensures plans == old(plans)[planID := plan] && reviewed == old(reviewed)[planID := plan]
    {
      plans := plans[planID := plan];
      reviewed := reviewed[planID := plan];
    }

    /** The critical section of a submission: at most one handler gets past it. */
    method ClaimPlan(planID: string, confirm: bool, now: int) returns (ok: bool)
      requires Valid()
      modifies this`plans, this`submitting, this`claimed
      ensures Valid()
      ensures ok <==> confirm && planID in old(plans) && !old(plans)[planID].used && now <= old(plans)[planID].expires
      ensures ok ==> planID !in old(claimed) && claimed == old(claimed)[planID := now]
                     && plans == old(plans)[planID := old(plans)[planID].(used := true)]
                     && submitting == old(submitting)[planID := Submission(plans[planID], now, Claimed)]
      ensures !ok ==> unchanged(this)
    {
      hide ValidPlans, ValidBreaks, Justified, DistinctDispatches;
      if !confirm || planID !in plans || plans[planID].used || now > plans[planID].expires {
        return false;
      }
      TakePlan(planID, now);
      ClaimKeepsDispatches(dispatches, reviewed, old(claimed), planID, now);
      return true;
    }

    method TakePlan(planID: string, now: int)
      requires ValidPlans() && planID in plans && !plans[planID].used && now <= plans[planID].expires
      modifies this`plans, this`submitting, this`claimed
      ensures ValidPlans() && planID !in old(claimed) && claimed == old(claimed)[planID := now]
      ensures plans == old(plans)[planID := old(plans)[planID].(used := true)]
      ensures submitting == old(submitting)[planID := Submission(plans[planID], now, Claimed)]
    {
      plans := plans[planID := plans[planID].(used := true)];
      submitting := submitting[planID := Submission(plans[planID], now, Claimed)];
      claimed := claimed[planID := now];
    }

    /** The checks after the claim; `base` and `rendered` are None when reading the
        base revision or rendering again fails. */
    method CheckPlan(planID: string, base: Option<string>, rendered: Option<string>, verified: bool, encoded: bool) returns (ok: bool)
      requires Valid() && planID in submitting && submitting[planID].progress.Claimed?
      modifies this`submitting
      ensures Valid() && (ok <==> Unchanged(old(submitting)[planID].plan, base, rendered, verified, encoded))
      ensures submitting == if ok then old(submitting)[planID := old(submitting)[planID].(progress := Checked(base.value, rendered.value))]
                            else old(submitting) - {planID}
    {
      hide ValidBreaks;
      var plan := submitting[planID].plan;
      SuffixMeans(plan.request.operation, ".finalize");
      ok := false;
      if base.Some? && base.value == plan.request.baseSHA {
        if rendered.Some? && rendered.value == plan.digest {
          ok := if HasSuffix(plan.request.operation, ".finalize") && !verified then false else encoded;
        }
      }
      if ok {
        submitting := submitting[planID := submitting[planID].(progress := Checked(base.value, rendered.value))];
      } else {
        submitting := submitting - {planID};
      }
    }

    /** The one dispatch of a claimed plan. */
    method DispatchPlan(planID: string)
      requires Valid() && planID in submitting && submitting[planID].progress.Checked?
      modifies this`submitting, this`dispatches
      ensures Valid() && submitting == old(submitting) - {planID}
      ensures var s := old(submitting)[planID];
              dispatches == old(dispatches) + [Dispatch(planID, s.plan.request, s.progress.base, s.progress.digest, s.at)]
    {
      hide ValidBreaks;
      var s := submitting[planID];
      submitting := submitting - {planID};
      dispatches := dispatches + [Dispatch(planID, s.plan.request, s.progress.base, s.progress.digest, s.at)];
    }

    // -------------------------------------------------------------- break-glass operations

    method StoreBreakPlan(token: string, namespace: string, application: string, action: string, uid: string, resourceVersion: string, planned: int)
      requires Valid() && token !in reviewedBreaks
      modifies this`breakPlans, this`reviewedBreaks
      ensures Valid()
      ensures var plan := BreakPlan(namespace, application, action, uid, resourceVersion, planned + 120_000_000_000, false);
              breakPlans == old(breakPlans)[token := plan] && reviewedBreaks == old(reviewedBreaks)[token := plan]
    {
      hide ValidPlans, ValidDispatches, OrderlyPatches, CompletedHonestly, FailuresFinal, StageHolds;
      TokenKeepsOrder(effects, reviewedBreaks, issued, token, BreakPlan(namespace, application, action, uid, resourceVersion, planned + BREAK_LIFETIME, false));
      var plan := BreakPlan(namespace, application, action, uid, resourceVersion, planned + BREAK_LIFETIME, false);
      breakPlans := breakPlans[token := plan];
      reviewedBreaks := reviewedBreaks[token := plan];
    }

    /** The critical section of an execution, for a given reason and the Application's exact name. */
    method ClaimBreakPlan(token: string, namespace: string, application: string, action: string, reasoned: bool, confirmation: string, now: int)
      returns (ok: bool)
      requires Valid()
      modifies this`breakPlans, this`executing, this`claimedBreaks
      ensures Valid()
      ensures ok <==> reasoned && confirmation == application
                      && token in old(breakPlans) && !old(breakPlans)[token].used && now <= old(breakPlans)[token].expires
                      && old(breakPlans)[token].application == application && old(breakPlans)[token].namespace == namespace
                      && old(breakPlans)[token].action == action
      ensures ok ==> token !in old(claimedBreaks) && claimedBreaks == old(claimedBreaks) + {token}
                     && breakPlans == old(breakPlans)[token := old(breakPlans)[token].(used := true)]
                     && executing == old(executing)[token := Execution(breakPlans[token], Taken)]
      ensures !ok ==> unchanged(this)
    {
      hide ValidPlans, ValidDispatches, ValidEffects, ValidTokens;
      if !reasoned || confirmation != application {
        return false;
      }
      if token !in breakPlans || breakPlans[token].used || now > breakPlans[token].expires
        || breakPlans[token].application != application || breakPlans[token].namespace != namespace || breakPlans[token].action != action {
        return false;
      }
      TakeBreak(token);
      return true;
    }

    method TakeBreak(token: string)
      requires ValidBreaks() && token in breakPlans && !breakPlans[token].used
      modifies this`breakPlans, this`executing, this`claimedBreaks
      ensures ValidBreaks() && token !in old(claimedBreaks) && claimedBreaks == old(claimedBreaks) + {token}
      ensures breakPlans == old(breakPlans)[token := old(breakPlans)[token].(used := true)]
      ensures executing == old(executing)[token := Execution(breakPlans[token], Taken)]
    {
      hide OrderlyPatches, CompletedHonestly, StageHolds, FailuresFinal;
      TakenHolds(token, breakPlans[token].(used := true), effects, executing, issued, claimedBreaks);
      breakPlans := breakPlans[token := breakPlans[token].(used := true)];
      executing := executing[token := Execution(breakPlans[token], Taken)];
      claimedBreaks := claimedBreaks + {token};
    }

    /** Compares the Rollout with the reviewed one; the execution gets a new request ID. */
    method Inspect(token: string, uid: string, resourceVersion: string, patchable: bool, requestID: string) returns (ok: bool)
      requires Valid() && token in executing && executing[token].stage.Taken? && requestID !in issued
      modifies this`executing, this`issued
      ensures Valid()
      ensures var plan := old(executing)[token].plan; ok <==> resourceVersion == plan.resourceVersion && uid == plan.uid && patchable
      ensures executing == if ok then old(executing)[token := Execution(old(executing)[token].plan, Inspected(requestID))] else old(executing) - {token}
      ensures issued == if ok then old(issued)[requestID := token] else old(issued)
    {
      hide ValidPlans, ValidDispatches, ValidEffects, ValidTokens;
      if resourceVersion != executing[token].plan.resourceVersion || uid != executing[token].plan.uid || !patchable {
        Release(token);
        return false;
      }
      Identify(token, requestID);
      return true;
    }

    method Identify(token: string, requestID: string)
      requires ValidBreaks() && token in executing && executing[token].stage.Taken? && requestID !in issued
      modifies this`executing, this`issued
      ensures ValidBreaks() && issued == old(issued)[requestID := token]
      ensures executing == old(executing)[token := Execution(old(executing)[token].plan, Inspected(requestID))]
    {
      hide CompletedHonestly, OrderlyPatches, FailuresFinal, StageHolds;
      IdentifiedHolds(token, requestID, effects, executing, reviewedBreaks, issued);
      issued := issued[requestID := token];
      executing := executing[token := executing[token].(stage := Inspected(requestID))];
    }

    /** A handler returning. */
    method Release(token: string)
      requires ValidBreaks()
      modifies this`executing
      ensures ValidBreaks() && executing == old(executing) - {token}
    {
      hide OrderlyPatches, CompletedHonestly, StageHolds;
      executing := executing - {token};
    }

    /** A record may be written although the call for it errs; the handler goes on only without an error. */
    method AuditAttempt(token: string, reply: Reply)
      requires Valid() && token in executing && executing[token].stage.Inspected?
      modifies this`executing, this`effects
      ensures Valid()
      ensures var e := old(executing)[token];
              && effects == old(effects) + (if reply.Denied? then [] else [AuditWritten(e.stage.id, e.plan.uid, e.plan.resourceVersion, Attempted)])
              && executing == if reply.Answered? then old(executing)[token := e.(stage := Audited(e.stage.id))] else old(executing) - {token}
    {
      hide ValidPlans, ValidDispatches, ValidBreaks;
      var e := executing[token];
      if !reply.Denied? {
        Note(token, AuditWritten(e.stage.id, e.plan.uid, e.plan.resourceVersion, Attempted), Audited(e.stage.id));
      }
      if !reply.Answered? {
        Release(token);
      }
    }

    method RecordAttempt(token: string, reply: Reply)
      requires Valid() && token in executing && executing[token].stage.Audited?
      modifies this`executing, this`effects
      ensures Valid()
      ensures var e := old(executing)[token];
              && effects == old(effects) + (if reply.Denied? then [] else [EventRecorded(e.stage.id, Attempted)])
              && executing == if reply.Answered? then old(executing)[token := e.(stage := Recorded(e.stage.id))] else old(executing) - {token}
    {
      hide ValidPlans, ValidDispatches, ValidBreaks;
      var e := executing[token];
      if !reply.Denied? {
        Note(token, EventRecorded(e.stage.id, Attempted), Recorded(e.stage.id));
      }
      if !reply.Answered? {
        Release(token);
      }
    }

    /** The patch, at the reviewed version. An error does not say that nothing was patched. */
    method PatchRollout(token: string, reply: Reply)
      requires Valid() && token in executing && executing[token].stage.Recorded?
      modifies this`executing, this`effects
      ensures Valid()
      ensures var e := old(executing)[token];
              && effects == old(effects) + (if reply.Denied? then [] else [StatusPatched(e.stage.id, e.plan.uid, e.plan.resourceVersion, token)])
              && executing == old(executing)[token := e.(stage := if reply.Answered? then Patched(e.stage.id) else Erred(e.stage.id))]
    {
      hide ValidPlans, ValidDispatches, ValidBreaks;
      var id := executing[token].stage.id;
      if !reply.Denied? {
        ApplyPatch(token);
      }
      if !reply.Answered? {
        Move(token, Erred(id));
      }
    }

    /** The audit of the outcome, Failed after any error of the patch; failing to
        write it stops an operation that was answered. */
    method AuditOutcome(token: string, reply: Reply)
      requires Valid() && token in executing && (executing[token].stage.Patched? || executing[token].stage.Erred?)
      modifies this`executing, this`effects
      ensures Valid()
      ensures var e := old(executing)[token];
              && effects == old(effects) + (if reply.Denied? then []
                                            else [AuditWritten(e.stage.id, e.plan.uid, e.plan.resourceVersion, if e.stage.Patched? then Completed else Failed)])
              && executing == if e.stage.Erred? then old(executing)[token := e.(stage := Failing(e.stage.id))]
                              else if reply.Answered? then old(executing)[token := e.(stage := Completing(e.stage.id))] else old(executing) - {token}
    {
      hide ValidPlans, ValidDispatches, ValidBreaks;
      var e := executing[token];
      if e.stage.Erred? {
        if reply.Denied? {
          Move(token, Failing(e.stage.id));
        } else {
          NoteFailure(token);
        }
      } else {
        if !reply.Denied? {
          Note(token, AuditWritten(e.stage.id, e.plan.uid, e.plan.resourceVersion, Completed), Completing(e.stage.id));
        }
        if !reply.Answered? {
          Release(token);
        }
      }
    }

    /** The last record; complete when the patch and all records were answered. */
    method RecordOutcome(token: string, reply: Reply) returns (completed: bool)
      requires Valid() && token in executing && (executing[token].stage.Completing? || executing[token].stage.Failing?)
      modifies this`executing, this`effects
      ensures Valid() && executing == old(executing) - {token}
      ensures var e := old(executing)[token];
              && effects == old(effects) + (if reply.Denied? then [] else [EventRecorded(e.stage.id, if e.stage.Completing? then Completed else Failed)])
              && (completed <==> e.stage.Completing? && reply.Answered?)
    {
      hide ValidPlans, ValidDispatches, ValidBreaks;
      var stage := executing[token].stage;
      if !reply.Denied? {
        Note(token, EventRecorded(stage.id, if stage.Completing? then Completed else Failed), stage);
      }
      Release(token);
      return reply.Answered? && stage.Completing?;
    }

    // -------------------------------------------------------------- steps of the record

    /** A record other than a failure, and the stage it leads to. */
    method Note(token: string, effect: Effect, stage: Stage)
      requires ValidBreaks() && token in executing && !executing[token].stage.Taken? && !stage.Taken? && stage.id == executing[token].stage.id
      requires !effect.StatusPatched? && effect.requestID == stage.id
      requires effect.AuditWritten? ==> !effect.result.Failed? && (effect.result.Completed? ==> executing[token].stage.Patched?)
      requires stage.Audited? ==> effect == AuditWritten(stage.id, executing[token].plan.uid, executing[token].plan.resourceVersion, Attempted)
      requires stage.Recorded? ==> executing[token].stage.Audited? && effect == EventRecorded(stage.id, Attempted)
      requires stage.Patched? || stage.Completing? <==> executing[token].stage.Patched? || executing[token].stage.Completing?
      requires (stage.Failing? <==> executing[token].stage.Failing?) && !stage.Erred? && !executing[token].stage.Erred?
      modifies this`executing, this`effects
      ensures ValidBreaks() && effects == old(effects) + [effect] && executing == old(executing)[token := old(executing)[token].(stage := stage)]
    {
      hide Announced, PatchedUnder, OrderlyPatches, CompletedHonestly;
      RecordIsOrderly(effects, effect, reviewedBreaks, issued);
      RecordIsHonest(effects, effect);
      StagesLast(executing, effects, effect, issued);
      NextStage(executing[token].(stage := stage), executing[token], effects, effect);
      effects := effects + [effect];
      executing := executing[token := executing[token].(stage := stage)];
    }

    method NoteFailure(token: string)
      requires ValidBreaks() && token in executing && executing[token].stage.Erred?
      modifies this`executing, this`effects
      ensures ValidBreaks()
      ensures var e := old(executing)[token];
              && effects == old(effects) + [AuditWritten(e.stage.id, e.plan.uid, e.plan.resourceVersion, Failed)]
              && executing == old(executing)[token := e.(stage := Failing(e.stage.id))]
    {
      hide Announced, PatchedUnder, OrderlyPatches, CompletedHonestly;
      var e := executing[token];
      var effect := AuditWritten(e.stage.id, e.plan.uid, e.plan.resourceVersion, Failed);
      RecordIsOrderly(effects, effect, reviewedBreaks, issued);
      RecordIsHonest(effects, effect);
      StagesLast(executing, effects, effect, issued);
      effects := effects + [effect];
      executing := executing[token := e.(stage := Failing(e.stage.id))];
    }

    /** On to the handling of an error, which makes no call. */
    method Move(token: string, stage: Stage)
      requires ValidBreaks() && token in executing
      requires stage.Erred? || stage.Failing?
      requires !executing[token].stage.Taken? && stage.id == executing[token].stage.id
      requires if stage.Erred? then executing[token].stage.Recorded? || executing[token].stage.Patched? else executing[token].stage.Erred?
      modifies this`executing
      ensures ValidBreaks() && executing == old(executing)[token := old(executing)[token].(stage := stage)]
    {
      hide Announced, PatchedUnder, OrderlyPatches, CompletedHonestly;
      executing := executing[token := executing[token].(stage := stage)];
    }

    method ApplyPatch(token: string)
      requires ValidBreaks() && token in executing && executing[token].stage.Recorded?
      modifies this`executing, this`effects
      ensures ValidBreaks()
      ensures var e := old(executing)[token];
              && effects == old(effects) + [StatusPatched(e.stage.id, e.plan.uid, e.plan.resourceVersion, token)]
              && executing == old(executing)[token := e.(stage := Patched(e.stage.id))]
    {
      hide Announced, PatchedUnder, OrderlyPatches, CompletedHonestly;
      var e := executing[token];
      var patch := StatusPatched(e.stage.id, e.plan.uid, e.plan.resourceVersion, token);
      PatchIsOrderly(effects, patch, reviewedBreaks, issued);
      RecordIsHonest(effects, patch);
      StagesLast(executing, effects, patch, issued);
      NewPatch(effects, patch);
      effects := effects + [patch];
      executing := executing[token := e.(stage := Patched(e.stage.id))];
    }
  }

  /** A plan that is only now claimed has not been dispatched. */
  lemma ClaimKeepsDispatches(ds: seq<Dispatch>, reviewed: map<string, Plan>, claimed: map<string, int>, planID: string, now: int)
    requires planID !in claimed && forall i :: 0 <= i < |ds| ==> Justified(ds[i], reviewed, claimed)
    ensures forall i :: 0 <= i < |ds| ==> Justified(ds[i], reviewed, claimed[planID := now]) && ds[i].planID != planID
  {
  }

  lemma TokenKeepsOrder(effects: seq<Effect>, reviewed: map<string, BreakPlan>, issued: map<string, string>, token: string, plan: BreakPlan)
    requires OrderlyPatches(effects, reviewed, issued) && token !in reviewed
    ensures OrderlyPatches(effects, reviewed[token := plan], issued)
  {
    hide Announced;
  }

  /** A token that is only now claimed has patched nothing and failed nothing. */
  lemma TakenHolds(token: string, plan: BreakPlan, effects: seq<Effect>, executing: map<string, Execution>, issued: map<string, string>, claimed: set<string>)
    requires token !in claimed && (forall e <- effects :: e.StatusPatched? ==> e.token in claimed) && forall r :: r in issued ==> issued[r] in claimed
    requires FailuresFinal(effects, executing, issued) && forall id :: id in executing ==> StageHolds(id, executing[id], effects, issued)
    ensures var more := executing[token := Execution(plan, Taken)];
            FailuresFinal(effects, more, issued) && forall id :: id in more ==> StageHolds(id, more[id], effects, issued)
  {
    hide Announced, PatchedUnder;
  }

  /** A request ID that is only now given out is in no record. */
  lemma IdentifiedHolds(token: string, requestID: string, effects: seq<Effect>, executing: map<string, Execution>, reviewed: map<string, BreakPlan>,
                        issued: map<string, string>)
    requires OrderlyPatches(effects, reviewed, issued) && FailuresFinal(effects, executing, issued) && requestID !in issued
    requires token in executing && executing[token].stage.Taken? && forall id :: id in executing ==> StageHolds(id, executing[id], effects, issued)
    ensures var more, stages := issued[requestID := token], executing[token := executing[token].(stage := Inspected(requestID))];
            OrderlyPatches(effects, reviewed, more) && FailuresFinal(effects, stages, more) && forall id :: id in stages ==> StageHolds(id, stages[id], effects, more)
  {
    hide Announced, PatchedUnder;
  }

  lemma DropShrinks(plans: map<string, Plan>, id: string)
    requires id in plans
    ensures |plans - {id}| <= |plans|
  {
    assert (plans - {id}).Keys == plans.Keys - {id};
    assert |(plans - {id}).Keys| <= |plans.Keys|;
  }

  // ---------------------------------------------------------------- records and patches

  lemma AnnouncedLasts(effects: seq<Effect>, more: seq<Effect>, id: string, uid: string, resourceVersion: string)
    requires Announced(effects, id, uid, resourceVersion)
    ensures Announced(effects + more, id, uid, resourceVersion)
  {
    var a, e :| 0 <= a < e < |effects| && effects[a] == AuditWritten(id, uid, resourceVersion, Attempted) && effects[e] == EventRecorded(id, Attempted);
    assert (effects + more)[a] == effects[a] && (effects + more)[e] == effects[e];
  }

  lemma RecordIsOrderly(effects: seq<Effect>, effect: Effect, reviewed: map<string, BreakPlan>, issued: map<string, string>)
    requires OrderlyPatches(effects, reviewed, issued) && !effect.StatusPatched?
    ensures OrderlyPatches(effects + [effect], reviewed, issued)
  {
    hide Announced;
    assert forall i :: 0 <= i < |effects| ==> (effects + [effect])[..i] == effects[..i];
  }

  /** A patch after its own announcement keeps the order of records and patches. */
  lemma PatchIsOrderly(effects: seq<Effect>, patch: Effect, reviewed: map<string, BreakPlan>, issued: map<string, string>)
    requires OrderlyPatches(effects, reviewed, issued) && patch.StatusPatched?
    requires Announced(effects, patch.requestID, patch.uid, patch.resourceVersion) && patch.requestID in issued && issued[patch.requestID] == patch.token
    requires patch.token in reviewed && patch.uid == reviewed[patch.token].uid && patch.resourceVersion == reviewed[patch.token].resourceVersion
    requires forall e <- effects :: e.StatusPatched? ==> e.token != patch.token
    ensures OrderlyPatches(effects + [patch], reviewed, issued)
  {
    hide Announced;
    assert forall i :: 0 <= i < |effects| ==> (effects + [patch])[..i] == effects[..i];
    assert (effects + [patch])[..|effects|] == effects;
  }

  lemma RecordIsHonest(effects: seq<Effect>, effect: Effect)
    requires CompletedHonestly(effects) && (effect.AuditWritten? && effect.result.Completed? ==> PatchedUnder(effects, effect.requestID))
    ensures CompletedHonestly(effects + [effect])
  {
    hide PatchedUnder;
    assert forall i :: 0 <= i < |effects| ==> (effects + [effect])[..i] == effects[..i];
    assert (effects + [effect])[..|effects|] == effects;
  }

  /** One more record, and no patch under another token, unsettles no stage. */
  lemma StagesLast(executing: map<string, Execution>, effects: seq<Effect>, effect: Effect, issued: map<string, string>)
    requires forall id :: id in executing ==> StageHolds(id, executing[id], effects, issued)
    ensures forall id :: id in executing && !(effect.StatusPatched? && effect.token == id) ==> StageHolds(id, executing[id], effects + [effect], issued)
  {
    hide Announced, PatchedUnder;
    forall id | id in executing && !(effect.StatusPatched? && effect.token == id) ensures StageHolds(id, executing[id], effects + [effect], issued) {
      var e := executing[id];
      assert StageHolds(id, e, effects, issued);
      if e.stage.Recorded? {
        AnnouncedLasts(effects, [effect], e.stage.id, e.plan.uid, e.plan.resourceVersion);
      }
      if e.stage.Patched? || e.stage.Completing? {
        PatchLasts(effects, effect, e.stage.id);
      }
    }
  }

  lemma PatchLasts(effects: seq<Effect>, effect: Effect, id: string)
    requires PatchedUnder(effects, id)
    ensures PatchedUnder(effects + [effect], id)
  {
    var e :| e in effects && e.StatusPatched? && e.requestID == id;
    assert e in effects + [effect];
  }

  lemma NewPatch(effects: seq<Effect>, patch: Effect)
    requires patch.StatusPatched?
    ensures PatchedUnder(effects + [patch], patch.requestID)
  {
    assert patch in effects + [patch];
  }

  /** The event after the audit completes the announcement. */
  lemma NextStage(next: Execution, e: Execution, effects: seq<Effect>, effect: Effect)
    requires next.stage.Recorded? ==>
               e.stage == Audited(next.stage.id) && e.plan == next.plan && effect == EventRecorded(next.stage.id, Attempted)
               && AuditWritten(e.stage.id, e.plan.uid, e.plan.resourceVersion, Attempted) in effects
    ensures next.stage.Recorded? ==> Announced(effects + [effect], next.stage.id, next.plan.uid, next.plan.resourceVersion)
  {
    if next.stage.Recorded? {
      var a :| 0 <= a < |effects| && effects[a] == AuditWritten(e.stage.id, e.plan.uid, e.plan.resourceVersion, Attempted);
      assert (effects + [effect])[a] == effects[a] && (effects + [effect])[|effects|] == effect;
    }
  }
}
