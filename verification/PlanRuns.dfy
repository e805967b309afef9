/** Runs of the portal's plan handlers: any calls of any handlers in any order, and
    what led to every workflow dispatch and every break-glass patch. */
module PlanRuns {
  import opened Wrappers
  import opened PortalPlans

  /** What one handler does next. The random IDs and the results of remote calls come with it. */
  datatype Call =
    | Store(planID: string, request: Request, digest: string, planned: int, locked: int)
    | Claim(planID: string, confirm: bool, now: int)
    | Check(planID: string, base: Option<string>, rendered: Option<string>, verified: bool, encoded: bool)
    | Submit(planID: string)
    | StoreBreak(token: string, namespace: string, application: string, action: string, uid: string, resourceVersion: string, planned: int)
    | ClaimBreak(token: string, namespace: string, application: string, action: string, reasoned: bool, confirmation: string, now: int)
    | Look(token: string, uid: string, resourceVersion: string, patchable: bool, requestID: string)
    | Go(token: string, reply: Reply)  // the next call of an execution after its look, and how it ends

  const MINUTE := 60_000_000_000  // nanoseconds

  /** Random IDs do not repeat. */
  predicate FreshIDs(calls: seq<Call>) {
    forall i, j :: 0 <= i < j < |calls| ==>
      && (calls[i].Store? && calls[j].Store? ==> calls[i].planID != calls[j].planID)
      && (calls[i].StoreBreak? && calls[j].StoreBreak? ==> calls[i].token != calls[j].token)
      && (calls[i].Look? && calls[j].Look? ==> calls[i].requestID != calls[j].requestID)
  }

  // ---------------------------------------------------------------- what led to a dispatch

  ghost predicate PlannedIn(past: seq<Call>, id: string, plan: Plan) {
    exists s :: 0 <= s < |past| && past[s].Store? && past[s].planID == id
                && plan == Plan(past[s].request, past[s].digest, past[s].planned + 10 * MINUTE, false)
  }

  /** It was planned, and then confirmed before it expired. */
  ghost predicate ConfirmedIn(past: seq<Call>, id: string, plan: Plan, at: int) {
    exists c :: 0 <= c < |past| && past[c] == Claim(id, true, at) && at <= plan.expires && PlannedIn(past[..c], id, plan)
  }

  /** It was confirmed, and then found unchanged. */
  ghost predicate CheckedIn(past: seq<Call>, id: string, plan: Plan, at: int) {
    exists k :: 0 <= k < |past| && past[k].Check? && past[k].planID == id
                && Unchanged(plan, past[k].base, past[k].rendered, past[k].verified, past[k].encoded) && ConfirmedIn(past[..k], id, plan, at)
  }

  /** The dispatch is of a reviewed request that was checked just before. */
  ghost predicate DispatchedIn(past: seq<Call>, d: Dispatch) {
    exists m, expires :: 0 <= m < |past| && past[m] == Submit(d.planID) && d.base == d.request.baseSHA
                         && CheckedIn(past[..m], d.planID, Plan(d.request, d.digest, expires, false), d.claimedAt)
  }

  /** A finalization among the dispatches was verified in the check of its plan. */
  ghost predicate FinalizedAsVerified(calls: seq<Call>, d: Dispatch) {
    forall stem :: d.request.operation == stem + ".finalize" ==>
      exists k :: 0 <= k < |calls| && calls[k].Check? && calls[k].planID == d.planID && calls[k].verified
  }

  lemma DispatchIsVerified(calls: seq<Call>, d: Dispatch)
    requires DispatchedIn(calls, d)
    ensures FinalizedAsVerified(calls, d)
  {
    hide ConfirmedIn;
    var m, expires :| 0 <= m < |calls| && calls[m] == Submit(d.planID) && d.base == d.request.baseSHA
                      && CheckedIn(calls[..m], d.planID, Plan(d.request, d.digest, expires, false), d.claimedAt);
    var k :| 0 <= k < m && calls[..m][k].Check? && calls[..m][k].planID == d.planID
             && Unchanged(Plan(d.request, d.digest, expires, false), calls[..m][k].base, calls[..m][k].rendered, calls[..m][k].verified, calls[..m][k].encoded);
    assert calls[..m][k] == calls[k];
  }

  /** A longer past has the same story to tell. */
  lemma PlanStoryLasts(past: seq<Call>, longer: seq<Call>, id: string, plan: Plan, at: int)
    requires past <= longer
    ensures PlannedIn(past, id, plan) ==> PlannedIn(longer, id, plan)
    ensures ConfirmedIn(past, id, plan, at) ==> ConfirmedIn(longer, id, plan, at)
    ensures CheckedIn(past, id, plan, at) ==> CheckedIn(longer, id, plan, at)
  {
    hide Unchanged;
    assert forall k :: 0 <= k < |past| ==> longer[k] == past[k] && longer[..k] == past[..k];
  }

  lemma DispatchStoryLasts(past: seq<Call>, longer: seq<Call>, d: Dispatch)
    requires past <= longer && DispatchedIn(past, d)
    ensures DispatchedIn(longer, d)
  {
    hide CheckedIn;
    var m, expires :| 0 <= m < |past| && past[m] == Submit(d.planID) && d.base == d.request.baseSHA
                      && CheckedIn(past[..m], d.planID, Plan(d.request, d.digest, expires, false), d.claimedAt);
    assert longer[m] == past[m] && longer[..m] == past[..m];
  }

  ghost predicate PlansExplained(past: seq<Call>, reviewed: map<string, Plan>, claimed: map<string, int>, submitting: map<string, Submission>, ds: seq<Dispatch>) {
    && (forall id :: id in reviewed ==> PlannedIn(past, id, reviewed[id]))
    && (forall id :: id in claimed ==> id in reviewed && ConfirmedIn(past, id, reviewed[id], claimed[id]))
    && (forall id :: id in submitting && submitting[id].progress.Checked? ==>
         id in claimed && id in reviewed && CheckedIn(past, id, reviewed[id], claimed[id]))
    && (forall d <- ds :: DispatchedIn(past, d))
  }

  lemma PlansStayExplained(past: seq<Call>, call: Call, reviewed: map<string, Plan>, claimed: map<string, int>, submitting: map<string, Submission>, ds: seq<Dispatch>)
    requires PlansExplained(past, reviewed, claimed, submitting, ds)
    ensures PlansExplained(past + [call], reviewed, claimed, submitting, ds)
  {
    hide PlannedIn, ConfirmedIn, CheckedIn, DispatchedIn;
    forall id | id in reviewed ensures PlannedIn(past + [call], id, reviewed[id]) {
      PlanStoryLasts(past, past + [call], id, reviewed[id], 0);
    }
    forall id | id in claimed ensures ConfirmedIn(past + [call], id, reviewed[id], claimed[id]) {
      PlanStoryLasts(past, past + [call], id, reviewed[id], claimed[id]);
    }
    forall id | id in submitting && submitting[id].progress.Checked? ensures CheckedIn(past + [call], id, reviewed[id], claimed[id]) {
      PlanStoryLasts(past, past + [call], id, reviewed[id], claimed[id]);
    }
    forall d | d in ds ensures DispatchedIn(past + [call], d) {
      DispatchStoryLasts(past, past + [call], d);
    }
  }

  // ---------------------------------------------------------------- what led to a patch

  ghost predicate BreakPlannedIn(past: seq<Call>, token: string, plan: BreakPlan) {
    exists s :: 0 <= s < |past| && past[s].StoreBreak? && past[s].token == token
                && plan == BreakPlan(past[s].namespace, past[s].application, past[s].action, past[s].uid, past[s].resourceVersion,
                                     past[s].planned + 2 * MINUTE, false)
  }

  /** It was planned, and then claimed in time, for what was planned, with a reason and the exact name. */
  ghost predicate BreakClaimedIn(past: seq<Call>, token: string, plan: BreakPlan) {
    exists c, now :: 0 <= c < |past| && past[c] == ClaimBreak(token, plan.namespace, plan.application, plan.action, true, plan.application, now)
                     && now <= plan.expires && BreakPlannedIn(past[..c], token, plan)
  }

  /** It was claimed, and then the Rollout was found to be the reviewed one. */
  ghost predicate LookedIn(past: seq<Call>, token: string, plan: BreakPlan, requestID: string) {
    exists k :: 0 <= k < |past| && past[k] == Look(token, plan.uid, plan.resourceVersion, true, requestID) && BreakClaimedIn(past[..k], token, plan)
  }

  lemma BreakStoryLasts(past: seq<Call>, longer: seq<Call>, token: string, plan: BreakPlan, requestID: string)
    requires past <= longer
    ensures BreakPlannedIn(past, token, plan) ==> BreakPlannedIn(longer, token, plan)
    ensures BreakClaimedIn(past, token, plan) ==> BreakClaimedIn(longer, token, plan)
    ensures LookedIn(past, token, plan, requestID) ==> LookedIn(longer, token, plan, requestID)
  {
    assert forall k :: 0 <= k < |past| ==> longer[k] == past[k] && longer[..k] == past[..k];
  }

  ghost predicate BreaksExplained(past: seq<Call>, reviewed: map<string, BreakPlan>, claimed: set<string>, issued: map<string, string>) {
    && (forall token :: token in reviewed ==> BreakPlannedIn(past, token, reviewed[token]))
    && (forall token :: token in claimed ==> token in reviewed && BreakClaimedIn(past, token, reviewed[token]))
    && (forall id :: id in issued ==> issued[id] in reviewed && LookedIn(past, issued[id], reviewed[issued[id]], id))
  }

  lemma BreaksStayExplained(past: seq<Call>, call: Call, reviewed: map<string, BreakPlan>, claimed: set<string>, issued: map<string, string>)
    requires BreaksExplained(past, reviewed, claimed, issued)
    ensures BreaksExplained(past + [call], reviewed, claimed, issued)
  {
    hide BreakPlannedIn, BreakClaimedIn, LookedIn;
    forall token | token in reviewed ensures BreakPlannedIn(past + [call], token, reviewed[token]) {
      BreakStoryLasts(past, past + [call], token, reviewed[token], "");
    }
    forall token | token in claimed ensures BreakClaimedIn(past + [call], token, reviewed[token]) {
      BreakStoryLasts(past, past + [call], token, reviewed[token], "");
    }
    forall id | id in issued ensures LookedIn(past + [call], issued[id], reviewed[issued[id]], id) {
      BreakStoryLasts(past, past + [call], issued[id], reviewed[issued[id]], id);
    }
  }

  // ---------------------------------------------------------------- what the calls of an execution came to

  function Turns(past: seq<Call>, token: string): nat {
    if past == [] then 0
    else Turns(past[..|past| - 1], token) + if past[|past| - 1].Go? && past[|past| - 1].token == token then 1 else 0
  }

  predicate LookAt(past: seq<Call>, k: nat, token: string, id: string) {
    k < |past| && past[k].Look? && past[k].token == token && past[k].requestID == id
  }

  /** So many calls of the execution since the look that gave it its request ID. */
  ghost predicate TurnsSince(past: seq<Call>, token: string, id: string, n: nat) {
    exists k: nat :: LookAt(past, k, token, id) && Turns(past[k + 1..], token) == n
  }

  /** The third call of an execution, after the audit and the event, is its patch. */
  ghost predicate PatchCalled(past: seq<Call>, token: string, id: string, reply: Reply) {
    exists k: nat, m: nat :: k < m < |past| && LookAt(past, k, token, id) && past[m] == Go(token, reply) && Turns(past[k + 1..m], token) == 2
  }

  /** The patch call of the request erred, and it is patched if and only if the call took effect. */
  ghost predicate ErredAs(past: seq<Call>, token: string, id: string, effects: seq<Effect>) {
    exists reply: Reply :: !reply.Answered? && PatchCalled(past, token, id, reply) && (reply.Denied? <==> !PatchedUnder(effects, id))
  }

  ghost predicate StageTold(past: seq<Call>, token: string, stage: Stage, effects: seq<Effect>) {
    match stage
    case Taken => true
    case Inspected(id) => TurnsSince(past, token, id, 0)
    case Audited(id) => TurnsSince(past, token, id, 1)
    case Recorded(id) => TurnsSince(past, token, id, 2)
    case Patched(id) => PatchCalled(past, token, id, Answered)
    case Completing(id) => PatchCalled(past, token, id, Answered)
    case Erred(id) => ErredAs(past, token, id, effects)
    case Failing(id) => ErredAs(past, token, id, effects)
  }

  /** A patch is the effect of its call, and a recorded failure of a call that erred. */
  ghost predicate EffectTold(past: seq<Call>, e: Effect, effects: seq<Effect>) {
    && (e.StatusPatched? ==> exists reply: Reply :: !reply.Denied? && PatchCalled(past, e.token, e.requestID, reply))
    && (e.AuditWritten? && e.result.Failed? ==> exists token :: ErredAs(past, token, e.requestID, effects))
  }

  ghost predicate ExecutionsExplained(past: seq<Call>, executing: map<string, Execution>, effects: seq<Effect>) {
    && (forall token :: token in executing ==> StageTold(past, token, executing[token].stage, effects))
    && (forall e <- effects :: EffectTold(past, e, effects))
  }

  lemma TurnsMore(past: seq<Call>, call: Call, token: string)
    ensures Turns(past + [call], token) == Turns(past, token) + if call.Go? && call.token == token then 1 else 0
  {
    assert (past + [call])[..|past|] == past;
  }

  lemma TurnsGoOn(past: seq<Call>, call: Call, token: string, id: string, n: nat)
    requires TurnsSince(past, token, id, n)
    ensures TurnsSince(past + [call], token, id, n + if call.Go? && call.token == token then 1 else 0)
  {
    hide Turns;
    var k: nat :| LookAt(past, k, token, id) && Turns(past[k + 1..], token) == n;
    assert (past + [call])[k + 1..] == past[k + 1..] + [call];
    TurnsMore(past[k + 1..], call, token);
    assert LookAt(past + [call], k, token, id);
  }

  lemma PatchCallLasts(past: seq<Call>, call: Call, token: string, id: string, reply: Reply)
    requires PatchCalled(past, token, id, reply)
    ensures PatchCalled(past + [call], token, id, reply)
  {
    hide Turns;
    var k: nat, m: nat :| k < m < |past| && LookAt(past, k, token, id) && past[m] == Go(token, reply) && Turns(past[k + 1..m], token) == 2;
    var longer := past + [call];
    assert longer[k + 1..m] == past[k + 1..m] && LookAt(longer, k, token, id) && longer[m] == past[m];
  }

  lemma PatchIsCalled(past: seq<Call>, token: string, id: string, reply: Reply)
    requires TurnsSince(past, token, id, 2)
    ensures PatchCalled(past + [Go(token, reply)], token, id, reply)
  {
    hide Turns;
    var k: nat :| LookAt(past, k, token, id) && Turns(past[k + 1..], token) == 2;
    var longer := past + [Go(token, reply)];
    assert longer[k + 1..|past|] == past[k + 1..] && LookAt(longer, k, token, id) && longer[|past|] == Go(token, reply);
  }

  /** Which call it was, and how it ended, is fixed by the calls. */
  lemma OnePatchCall(past: seq<Call>, token: string, other: string, id: string, a: Reply, b: Reply)
    requires FreshIDs(past) && PatchCalled(past, token, id, a) && PatchCalled(past, other, id, b)
    ensures token == other && a == b
  {
    hide Turns;
    var k: nat, m: nat :| k < m < |past| && LookAt(past, k, token, id) && past[m] == Go(token, a) && Turns(past[k + 1..m], token) == 2;
    var l: nat, n: nat :| l < n < |past| && LookAt(past, l, other, id) && past[n] == Go(other, b) && Turns(past[l + 1..n], other) == 2;
    assert k == l;
    if m < n {
      TurnsGrow(past, k + 1, m, n, token);
    } else if n < m {
      TurnsGrow(past, k + 1, n, m, token);
    }
  }

  /** A later call of the execution comes after more calls. */
  lemma {:induction false} TurnsGrow(past: seq<Call>, from: nat, m: nat, n: nat, token: string)
    requires from <= m < n <= |past| && past[m].Go? && past[m].token == token
    ensures Turns(past[from..n], token) > Turns(past[from..m], token)
    decreases n
  {
    assert past[from..n] == past[from..n - 1] + [past[n - 1]];
    TurnsMore(past[from..n - 1], past[n - 1], token);
    if m < n - 1 {
      TurnsGrow(past, from, m, n - 1, token);
    }
  }

  lemma ErredLasts(past: seq<Call>, call: Call, token: string, id: string, effects: seq<Effect>, more: seq<Effect>)
    requires ErredAs(past, token, id, effects) && forall x <- more :: x.StatusPatched? ==> x.requestID != id
    ensures ErredAs(past + [call], token, id, effects + more)
  {
    hide PatchCalled;
    var reply: Reply :| !reply.Answered? && PatchCalled(past, token, id, reply) && (reply.Denied? <==> !PatchedUnder(effects, id));
    PatchCallLasts(past, call, token, id, reply);
    assert PatchedUnder(effects + more, id) <==> PatchedUnder(effects, id) by {
      assert forall x :: x in effects + more <==> x in effects || x in more;
    }
  }

  /** What was told of an execution is still so after a call that is not its own. */
  lemma StageStaysTold(past: seq<Call>, call: Call, token: string, stage: Stage, effects: seq<Effect>, more: seq<Effect>)
    requires StageTold(past, token, stage, effects) && !(call.Go? && call.token == token)
    requires !stage.Taken? ==> forall x <- more :: x.StatusPatched? ==> x.requestID != stage.id
    ensures StageTold(past + [call], token, stage, effects + more)
  {
    hide TurnsSince, PatchCalled, ErredAs;
    match stage {
      case Taken =>
      case Inspected(id) => TurnsGoOn(past, call, token, id, 0);
      case Audited(id) => TurnsGoOn(past, call, token, id, 1);
      case Recorded(id) => TurnsGoOn(past, call, token, id, 2);
      case Patched(id) => PatchCallLasts(past, call, token, id, Answered);
      case Completing(id) => PatchCallLasts(past, call, token, id, Answered);
      case Erred(id) => ErredLasts(past, call, token, id, effects, more);
      case Failing(id) => ErredLasts(past, call, token, id, effects, more);
    }
  }

  lemma EffectStaysTold(past: seq<Call>, call: Call, e: Effect, effects: seq<Effect>, more: seq<Effect>)
    requires EffectTold(past, e, effects)
    requires e.AuditWritten? && e.result.Failed? ==> forall x <- more :: x.StatusPatched? ==> x.requestID != e.requestID
    ensures EffectTold(past + [call], e, effects + more)
  {
    hide PatchCalled, ErredAs;
    if e.StatusPatched? {
      var reply: Reply :| !reply.Denied? && PatchCalled(past, e.token, e.requestID, reply);
      PatchCallLasts(past, call, e.token, e.requestID, reply);
    }
    if e.AuditWritten? && e.result.Failed? {
      var token :| ErredAs(past, token, e.requestID, effects);
      ErredLasts(past, call, token, e.requestID, effects, more);
    }
  }

  lemma ExecutionsStayExplained(past: seq<Call>, call: Call, executing: map<string, Execution>, effects: seq<Effect>)
    requires ExecutionsExplained(past, executing, effects)
    ensures forall token :: token in executing && !(call.Go? && call.token == token) ==> StageTold(past + [call], token, executing[token].stage, effects)
    ensures forall e <- effects :: EffectTold(past + [call], e, effects)
  {
    hide StageTold, EffectTold;
    assert effects + [] == effects;
    forall token | token in executing && !(call.Go? && call.token == token) ensures StageTold(past + [call], token, executing[token].stage, effects) {
      StageStaysTold(past, call, token, executing[token].stage, effects, []);
    }
    forall e | e in effects ensures EffectTold(past + [call], e, effects) {
      EffectStaysTold(past, call, e, effects, []);
    }
  }

  // ---------------------------------------------------------------- one call of an execution

  /** The records and the patch that a call leaves, and the execution after it, if its handler goes on. */
  function Turn(e: Execution, token: string, reply: Reply): (seq<Effect>, Option<Execution>)
    requires !e.stage.Taken?
  {
    var id, uid, version := e.stage.id, e.plan.uid, e.plan.resourceVersion;
    match e.stage
    case Inspected(_) =>
      (if reply.Denied? then [] else [AuditWritten(id, uid, version, Attempted)], if reply.Answered? then Some(e.(stage := Audited(id))) else None)
    case Audited(_) => (if reply.Denied? then [] else [EventRecorded(id, Attempted)], if reply.Answered? then Some(e.(stage := Recorded(id))) else None)
    case Recorded(_) =>
      (if reply.Denied? then [] else [StatusPatched(id, uid, version, token)], Some(e.(stage := if reply.Answered? then Patched(id) else Erred(id))))
    case Patched(_) =>
      (if reply.Denied? then [] else [AuditWritten(id, uid, version, Completed)], if reply.Answered? then Some(e.(stage := Completing(id))) else None)
    case Erred(_) => (if reply.Denied? then [] else [AuditWritten(id, uid, version, Failed)], Some(e.(stage := Failing(id))))
    case Completing(_) => (if reply.Denied? then [] else [EventRecorded(id, Completed)], None)
    case Failing(_) => (if reply.Denied? then [] else [EventRecorded(id, Failed)], None)
  }

  function With(executing: map<string, Execution>, token: string, e: Option<Execution>): map<string, Execution> {
    if e.Some? then executing[token := e.value] else executing - {token}
  }

  method TakeTurn(store: PlanStore, token: string, reply: Reply)
    requires store.Valid() && token in store.executing && !store.executing[token].stage.Taken?
    modifies store`executing, store`effects
    ensures store.Valid()
    ensures var turn := Turn(old(store.executing)[token], token, reply);
            store.effects == old(store.effects) + turn.0 && store.executing == With(old(store.executing), token, turn.1)
  {
    hide PlanStore.ValidPlans, PlanStore.ValidDispatches, PlanStore.ValidBreaks;
    match store.executing[token].stage {
      case Inspected(_) => store.AuditAttempt(token, reply);
      case Audited(_) => store.RecordAttempt(token, reply);
      case Recorded(_) => store.PatchRollout(token, reply);
      case Patched(_) => store.AuditOutcome(token, reply);
      case Erred(_) => store.AuditOutcome(token, reply);
      case Completing(_) => var _ := store.RecordOutcome(token, reply);
      case Failing(_) => var _ := store.RecordOutcome(token, reply);
    }
  }

  /** The call of an execution, as its own story goes on. */
  lemma OwnTurnTold(past: seq<Call>, token: string, reply: Reply, e: Execution, effects: seq<Effect>)
    requires !e.stage.Taken? && StageTold(past, token, e.stage, effects) && (e.stage.Recorded? ==> !PatchedUnder(effects, e.stage.id))
    ensures var turn, longer := Turn(e, token, reply), past + [Go(token, reply)];
            && (turn.1.Some? ==> StageTold(longer, token, turn.1.value.stage, effects + turn.0))
            && forall x <- turn.0 :: EffectTold(longer, x, effects + turn.0)
  {
    hide TurnsSince, PatchCalled, PatchedUnder;
    var id, call, turn := e.stage.id, Go(token, reply), Turn(e, token, reply);
    match e.stage {
      case Inspected(_) => TurnsGoOn(past, call, token, id, 0);
      case Audited(_) => TurnsGoOn(past, call, token, id, 1);
      case Recorded(_) =>
        PatchIsCalled(past, token, id, reply);
        PatchedNow(effects, turn.0, id);
      case Patched(_) => PatchCallLasts(past, call, token, id, Answered);
      case Completing(_) =>
      case Erred(_) => ErredLasts(past, call, token, id, effects, turn.0);
      case Failing(_) =>
    }
  }

  lemma PatchedNow(effects: seq<Effect>, more: seq<Effect>, id: string)
    requires !PatchedUnder(effects, id) && |more| <= 1 && forall x <- more :: x.StatusPatched? && x.requestID == id
    ensures PatchedUnder(effects + more, id) <==> more != []
  {
    if more != [] {
      assert more[0] in effects + more;
    } else {
      assert effects + more == effects;
    }
  }

  /** A patch of the call is not under the request of another execution, nor under one whose failure is on record. */
  lemma OthersKeepTheirRequests(token: string, executing: map<string, Execution>, effects: seq<Effect>, reviewed: map<string, BreakPlan>, issued: map<string, string>)
    requires token in executing && executing[token].stage.Recorded? && OrderlyPatches(effects, reviewed, issued) && FailuresFinal(effects, executing, issued)
    requires forall t :: t in executing ==> StageHolds(t, executing[t], effects, issued)
    ensures !PatchedUnder(effects, executing[token].stage.id)
    ensures forall t :: t in executing && t != token && !executing[t].stage.Taken? ==> executing[t].stage.id != executing[token].stage.id
    ensures forall e <- effects :: e.AuditWritten? && e.result.Failed? ==> e.requestID != executing[token].stage.id
  {
    hide Announced;
    assert StageHolds(token, executing[token], effects, issued);
    forall x | x in effects && x.StatusPatched? ensures x.requestID != executing[token].stage.id {
      var i :| 0 <= i < |effects| && effects[i] == x;
    }
  }

  lemma TurnExplains(past: seq<Call>, token: string, reply: Reply, executing: map<string, Execution>, effects: seq<Effect>,
                     reviewed: map<string, BreakPlan>, issued: map<string, string>)
    requires ExecutionsExplained(past, executing, effects) && token in executing && !executing[token].stage.Taken?
    requires OrderlyPatches(effects, reviewed, issued) && FailuresFinal(effects, executing, issued)
    requires forall t :: t in executing ==> StageHolds(t, executing[t], effects, issued)
    ensures var turn := Turn(executing[token], token, reply);
            ExecutionsExplained(past + [Go(token, reply)], With(executing, token, turn.1), effects + turn.0)
  {
    hide StageTold, EffectTold, OrderlyPatches, FailuresFinal, StageHolds, PatchedUnder, Turn;
    var call, turn := Go(token, reply), Turn(executing[token], token, reply);
    if executing[token].stage.Recorded? {
      OthersKeepTheirRequests(token, executing, effects, reviewed, issued);
    }
    TurnsEffects(executing[token], token, reply);
    OwnTurnTold(past, token, reply, executing[token], effects);
    forall t | t in executing && t != token ensures StageTold(past + [call], t, executing[t].stage, effects + turn.0) {
      StageStaysTold(past, call, t, executing[t].stage, effects, turn.0);
    }
    forall e | e in effects ensures EffectTold(past + [call], e, effects + turn.0) {
      EffectStaysTold(past, call, e, effects, turn.0);
    }
  }

  lemma TurnsEffects(e: Execution, token: string, reply: Reply)
    requires !e.stage.Taken?
    ensures forall x <- Turn(e, token, reply).0 :: x.requestID == e.stage.id && (x.StatusPatched? ==> e.stage.Recorded?)
  {
  }

  // ---------------------------------------------------------------- the story of a store

  ghost predicate Explained(past: seq<Call>, store: PlanStore)
    reads store
  {
    && PlansExplained(past, store.reviewed, store.claimed, store.submitting, store.dispatches)
    && BreaksExplained(past, store.reviewedBreaks, store.claimedBreaks, store.issued)
  }

  /** One call. A handler that is not at the point of the call does not make it. */
  method Step(store: PlanStore, call: Call, ghost past: seq<Call>)
    requires store.Valid() && Explained(past, store) && ExecutionsExplained(past, store.executing, store.effects) && FreshIDs(past + [call])
    modifies store
    ensures store.Valid() && Explained(past + [call], store) && ExecutionsExplained(past + [call], store.executing, store.effects)
  {
    hide PlanStore.ValidPlans, PlanStore.ValidDispatches, PlanStore.ValidBreaks, PlansExplained, BreaksExplained, FreshIDs, StageTold, EffectTold;
    PlansStayExplained(past, call, store.reviewed, store.claimed, store.submitting, store.dispatches);
    BreaksStayExplained(past, call, store.reviewedBreaks, store.claimedBreaks, store.issued);
    ExecutionsStayExplained(past, call, store.executing, store.effects);
    match call {
      case Store(_, _, _, _, _) => StoreStep(store, call, past);
      case Claim(_, _, _) => ClaimStep(store, call, past);
      case Check(_, _, _, _, _) => CheckStep(store, call, past);
      case Submit(_) => SubmitStep(store, call, past);
      case StoreBreak(_, _, _, _, _, _, _) => StoreBreakStep(store, call, past);
      case ClaimBreak(_, _, _, _, _, _, _) =>
        NothingToTell(past + [call], store.effects);
        ClaimBreakStep(store, call, past);
      case Look(_, _, _, _, _) =>
        LookTold(past, call, store.effects);
        LookStep(store, call, past);
      case Go(_, _) => GoStep(store, call, past);
    }
  }

  lemma NothingToTell(past: seq<Call>, effects: seq<Effect>)
    ensures forall token :: StageTold(past, token, Taken, effects)
  {
  }

  /** Since the look just made there was no call of the execution. */
  lemma LookTold(past: seq<Call>, call: Call, effects: seq<Effect>)
    requires call.Look?
    ensures StageTold(past + [call], call.token, Inspected(call.requestID), effects)
  {
    var longer := past + [call];
    assert LookAt(longer, |past|, call.token, call.requestID) && longer[|past| + 1..] == [];
  }

  lemma NewPlanID(past: seq<Call>, call: Call, id: string, plan: Plan)
    requires FreshIDs(past + [call]) && call.Store? && PlannedIn(past, id, plan)
    ensures id != call.planID
  {
    var s :| 0 <= s < |past| && past[s].Store? && past[s].planID == id;
    assert (past + [call])[s] == past[s] && (past + [call])[|past|] == call;
  }

  lemma NewToken(past: seq<Call>, call: Call, token: string, plan: BreakPlan)
    requires FreshIDs(past + [call]) && call.StoreBreak? && BreakPlannedIn(past, token, plan)
    ensures token != call.token
  {
    var s :| 0 <= s < |past| && past[s].StoreBreak? && past[s].token == token;
    assert (past + [call])[s] == past[s] && (past + [call])[|past|] == call;
  }

  lemma NewRequestID(past: seq<Call>, call: Call, token: string, plan: BreakPlan, id: string)
    requires FreshIDs(past + [call]) && call.Look? && LookedIn(past, token, plan, id)
    ensures id != call.requestID
  {
    hide BreakClaimedIn;
    var k :| 0 <= k < |past| && past[k] == Look(token, plan.uid, plan.resourceVersion, true, id);
    assert (past + [call])[k] == past[k] && (past + [call])[|past|] == call;
  }

  lemma StoreExplains(past: seq<Call>, call: Call, reviewed: map<string, Plan>, claimed: map<string, int>, submitting: map<string, Submission>, ds: seq<Dispatch>)
    requires PlansExplained(past + [call], reviewed, claimed, submitting, ds) && call.Store? && call.planID !in reviewed
    ensures PlansExplained(past + [call], reviewed[call.planID := Plan(call.request, call.digest, call.planned + 10 * MINUTE, false)], claimed, submitting, ds)
  {
    hide ConfirmedIn, CheckedIn, DispatchedIn;
    assert (past + [call])[|past|] == call;
    assert PlannedIn(past + [call], call.planID, Plan(call.request, call.digest, call.planned + 10 * MINUTE, false));
  }

  lemma SubmitExplains(past: seq<Call>, call: Call, reviewed: map<string, Plan>, claimed: map<string, int>, submitting: map<string, Submission>,
                       ds: seq<Dispatch>, d: Dispatch)
    requires PlansExplained(past + [call], reviewed, claimed, submitting, ds) && call == Submit(d.planID) && d.base == d.request.baseSHA
    requires exists expires :: CheckedIn(past, d.planID, Plan(d.request, d.digest, expires, false), d.claimedAt)
    ensures PlansExplained(past + [call], reviewed, claimed, submitting - {d.planID}, ds + [d])
  {
    hide PlannedIn, ConfirmedIn, CheckedIn;
    var longer := past + [call];
    assert longer[..|past|] == past && longer[|past|] == call;
    assert DispatchedIn(longer, d);
  }

  lemma StoreBreakExplains(past: seq<Call>, call: Call, reviewed: map<string, BreakPlan>, claimed: set<string>, issued: map<string, string>, plan: BreakPlan)
    requires BreaksExplained(past + [call], reviewed, claimed, issued) && call.StoreBreak? && call.token !in reviewed
    requires plan == BreakPlan(call.namespace, call.application, call.action, call.uid, call.resourceVersion, call.planned + 2 * MINUTE, false)
    ensures BreaksExplained(past + [call], reviewed[call.token := plan], claimed, issued)
  {
    hide BreakClaimedIn, LookedIn;
    assert (past + [call])[|past|] == call;
    assert BreakPlannedIn(past + [call], call.token, plan);
  }

  lemma LookExplains(past: seq<Call>, call: Call, reviewed: map<string, BreakPlan>, claimed: set<string>, issued: map<string, string>)
    requires BreaksExplained(past + [call], reviewed, claimed, issued) && call.Look? && call.patchable && call.requestID !in issued
    requires call.token in reviewed && BreakClaimedIn(past, call.token, reviewed[call.token])
    requires call.uid == reviewed[call.token].uid && call.resourceVersion == reviewed[call.token].resourceVersion
    ensures BreaksExplained(past + [call], reviewed, claimed, issued[call.requestID := call.token])
  {
    hide BreakClaimedIn, BreakPlannedIn;
    var longer := past + [call];
    assert longer[..|past|] == past && longer[|past|] == call;
    assert LookedIn(longer, call.token, reviewed[call.token], call.requestID);
  }

  lemma ClaimExplains(past: seq<Call>, reviewed: map<string, Plan>, claimed: map<string, int>, submitting: map<string, Submission>, ds: seq<Dispatch>,
                      id: string, at: int, plan: Plan)
    requires PlansExplained(past + [Claim(id, true, at)], reviewed, claimed, submitting, ds)
    requires id in reviewed && PlannedIn(past, id, reviewed[id]) && at <= reviewed[id].expires && id !in claimed
    ensures PlansExplained(past + [Claim(id, true, at)], reviewed, claimed[id := at], submitting[id := Submission(plan, at, Claimed)], ds)
  {
    hide PlannedIn, CheckedIn, DispatchedIn;
    var longer := past + [Claim(id, true, at)];
    assert longer[..|past|] == past && longer[|past|] == Claim(id, true, at);
    assert ConfirmedIn(longer, id, reviewed[id], at);
  }

  method StoreStep(store: PlanStore, call: Call, ghost past: seq<Call>)
    requires store.Valid() && Explained(past, store) && Explained(past + [call], store) && FreshIDs(past + [call]) && call.Store?
    modifies store`plans, store`breakPlans, store`reviewed
    ensures store.Valid() && Explained(past + [call], store)
  {
    hide PlanStore.ValidPlans, PlanStore.ValidDispatches, PlanStore.ValidBreaks, BreaksExplained, PlannedIn, ConfirmedIn, CheckedIn, DispatchedIn;
    forall id | id in store.reviewed ensures id != call.planID {
      NewPlanID(past, call, id, store.reviewed[id]);
    }
    ghost var reviewed := store.reviewed;
    var stored := store.StorePlan(call.planID, call.request, call.digest, call.planned, call.locked);
    if stored {
      StoreExplains(past, call, reviewed, store.claimed, store.submitting, store.dispatches);
    }
  }

  method ClaimStep(store: PlanStore, call: Call, ghost past: seq<Call>)
    requires store.Valid() && Explained(past, store) && Explained(past + [call], store) && call.Claim?
    modifies store`plans, store`submitting, store`claimed
    ensures store.Valid() && Explained(past + [call], store)
  {
    hide PlanStore.ValidDispatches, PlanStore.ValidBreaks, BreaksExplained, PlannedIn, ConfirmedIn, CheckedIn, DispatchedIn;
    ghost var reviewed, claimed, submitting := store.reviewed, store.claimed, store.submitting;
    assert call.planID in store.plans ==> PlannedIn(past, call.planID, reviewed[call.planID]) && store.plans[call.planID].expires == reviewed[call.planID].expires;
    var ok := store.ClaimPlan(call.planID, call.confirm, call.now);
    if ok {
      ClaimExplains(past, reviewed, claimed, submitting, store.dispatches, call.planID, call.now, store.plans[call.planID]);
    }
  }

  method CheckStep(store: PlanStore, call: Call, ghost past: seq<Call>)
    requires store.Valid() && Explained(past, store) && Explained(past + [call], store) && call.Check?
    modifies store`submitting
    ensures store.Valid() && Explained(past + [call], store)
  {
    hide PlanStore.ValidDispatches, PlanStore.ValidBreaks, BreaksExplained, PlannedIn, ConfirmedIn, DispatchedIn;
    ghost var longer := past + [call];
    assert longer[..|past|] == past && longer[|past|] == call;
    if call.planID in store.submitting && store.submitting[call.planID].progress.Claimed? {
      assert ConfirmedIn(past, call.planID, store.reviewed[call.planID], store.claimed[call.planID]);
      var _ := store.CheckPlan(call.planID, call.base, call.rendered, call.verified, call.encoded);
    }
  }

  method SubmitStep(store: PlanStore, call: Call, ghost past: seq<Call>)
    requires store.Valid() && Explained(past, store) && Explained(past + [call], store) && call.Submit?
    modifies store`submitting, store`dispatches
    ensures store.Valid() && Explained(past + [call], store)
  {
    hide PlanStore.ValidDispatches, PlanStore.ValidBreaks, BreaksExplained, PlannedIn, ConfirmedIn, CheckedIn, DispatchedIn;
    if call.planID in store.submitting && store.submitting[call.planID].progress.Checked? {
      assert CheckedIn(past, call.planID, store.reviewed[call.planID], store.claimed[call.planID]);
      ghost var submitting, ds := store.submitting, store.dispatches;
      store.DispatchPlan(call.planID);
      SubmitExplains(past, call, store.reviewed, store.claimed, submitting, ds, store.dispatches[|ds|]);
    }
  }

  method StoreBreakStep(store: PlanStore, call: Call, ghost past: seq<Call>)
    requires store.Valid() && Explained(past, store) && Explained(past + [call], store) && FreshIDs(past + [call]) && call.StoreBreak?
    modifies store`breakPlans, store`reviewedBreaks
    ensures store.Valid() && Explained(past + [call], store)
  {
    hide PlanStore.ValidPlans, PlanStore.ValidDispatches, PlanStore.ValidBreaks, PlansExplained, BreakPlannedIn, BreakClaimedIn, LookedIn;
    ghost var reviewed := store.reviewedBreaks;
    forall token | token in store.reviewedBreaks ensures token != call.token {
      NewToken(past, call, token, store.reviewedBreaks[token]);
    }
    store.StoreBreakPlan(call.token, call.namespace, call.application, call.action, call.uid, call.resourceVersion, call.planned);
    StoreBreakExplains(past, call, reviewed, store.claimedBreaks, store.issued, store.reviewedBreaks[call.token]);
  }

  method ClaimBreakStep(store: PlanStore, call: Call, ghost past: seq<Call>)
    requires store.Valid() && Explained(past, store) && Explained(past + [call], store) && call.ClaimBreak?
    modifies store`breakPlans, store`executing, store`claimedBreaks
    ensures store.Valid() && Explained(past + [call], store)
    ensures forall t :: t in store.executing ==> (t in old(store.executing) && store.executing[t] == old(store.executing)[t]) || store.executing[t].stage == Taken
  {
    hide PlanStore.ValidPlans, PlanStore.ValidDispatches, PlanStore.ValidEffects, PlansExplained, BreakPlannedIn, LookedIn;
    ghost var longer := past + [call];
    assert longer[..|past|] == past && longer[|past|] == call;
    assert call.token in store.breakPlans ==> BreakPlannedIn(past, call.token, store.reviewedBreaks[call.token]);
    var _ := store.ClaimBreakPlan(call.token, call.namespace, call.application, call.action, call.reasoned, call.confirmation, call.now);
  }

  method LookStep(store: PlanStore, call: Call, ghost past: seq<Call>)
    requires store.Valid() && Explained(past, store) && Explained(past + [call], store) && FreshIDs(past + [call]) && call.Look?
    modifies store`executing, store`issued
    ensures store.Valid() && Explained(past + [call], store)
    ensures forall t :: t in store.executing ==>
              (t in old(store.executing) && store.executing[t] == old(store.executing)[t])
              || (t == call.token && store.executing[t].stage == Inspected(call.requestID))
  {
    hide PlanStore.ValidPlans, PlanStore.ValidDispatches, PlanStore.ValidEffects, PlansExplained, BreakPlannedIn, BreakClaimedIn, LookedIn;
    forall id | id in store.issued ensures id != call.requestID {
      NewRequestID(past, call, store.issued[id], store.reviewedBreaks[store.issued[id]], id);
    }
    if call.token in store.executing && store.executing[call.token].stage.Taken? {
      assert BreakClaimedIn(past, call.token, store.reviewedBreaks[call.token]);
      ghost var issued := store.issued;
      var ok := store.Inspect(call.token, call.uid, call.resourceVersion, call.patchable, call.requestID);
      if ok {
        LookExplains(past, call, store.reviewedBreaks, store.claimedBreaks, issued);
      }
    }
  }

  /** The records and the patch of an execution. */
  method GoStep(store: PlanStore, call: Call, ghost past: seq<Call>)
    requires store.Valid() && call.Go? && ExecutionsExplained(past, store.executing, store.effects)
    requires forall t :: t in store.executing && t != call.token ==> StageTold(past + [call], t, store.executing[t].stage, store.effects)
    requires forall e <- store.effects :: EffectTold(past + [call], e, store.effects)
    modifies store`executing, store`effects
    ensures store.Valid() && ExecutionsExplained(past + [call], store.executing, store.effects)
  {
    hide PlanStore.ValidPlans, PlanStore.ValidDispatches, PlanStore.ValidTokens, StageTold, EffectTold, OrderlyPatches, FailuresFinal, StageHolds,
         CompletedHonestly, ExecutionsExplained;
    if call.token in store.executing && !store.executing[call.token].stage.Taken? {
      TurnExplains(past, call.token, call.reply, store.executing, store.effects, store.reviewedBreaks, store.issued);
      TakeTurn(store, call.token, call.reply);
    } else {
      NoTurn(past, call, store.executing, store.effects);
    }
  }

  lemma NoTurn(past: seq<Call>, call: Call, executing: map<string, Execution>, effects: seq<Effect>)
    requires call.Go? && (call.token in executing ==> executing[call.token].stage.Taken?)
    requires forall t :: t in executing && t != call.token ==> StageTold(past + [call], t, executing[t].stage, effects)
    requires forall e <- effects :: EffectTold(past + [call], e, effects)
    ensures ExecutionsExplained(past + [call], executing, effects)
  {
    hide EffectTold, TurnsSince, PatchCalled, ErredAs;
  }

  // ---------------------------------------------------------------- every run

  /** What is true of the dispatches after any calls. */
  ghost predicate DispatchedOnceAsReviewed(calls: seq<Call>, ds: seq<Dispatch>) {
    DistinctDispatches(ds) && forall d <- ds :: DispatchedIn(calls, d) && FinalizedAsVerified(calls, d)
  }

  /** The patch at `i` is the first of its token and of its request ID, of what was
      reviewed and looked at, and announced before. */
  ghost predicate PatchedAsReviewed(calls: seq<Call>, effects: seq<Effect>, i: nat)
    requires i < |effects|
  {
    effects[i].StatusPatched? ==>
      && (exists plan: BreakPlan :: plan.uid == effects[i].uid && plan.resourceVersion == effects[i].resourceVersion
                         && LookedIn(calls, effects[i].token, plan, effects[i].requestID))
      && Announced(effects[..i], effects[i].requestID, effects[i].uid, effects[i].resourceVersion)
      && forall j :: 0 <= j < i && effects[j].StatusPatched? ==> effects[j].token != effects[i].token && effects[j].requestID != effects[i].requestID
  }

  /** A recorded failure is of one execution, whose patch call erred; nothing is patched
      under it if and only if that call had no effect. */
  ghost predicate FailedAsRecorded(calls: seq<Call>, effects: seq<Effect>, i: nat)
    requires i < |effects|
  {
    effects[i].AuditWritten? && effects[i].result.Failed? ==> exists token :: ErredAs(calls, token, effects[i].requestID, effects)
  }

  /** A patch is the effect of a patch call. */
  ghost predicate PatchedByCall(calls: seq<Call>, effects: seq<Effect>, i: nat)
    requires i < |effects|
  {
    effects[i].StatusPatched? ==> exists reply: Reply :: !reply.Denied? && PatchCalled(calls, effects[i].token, effects[i].requestID, reply)
  }

  /** For the reply of the one patch call a request has made: the recorded failure is
      the truth if and only if the call was denied. */
  lemma FailedIsTrueOfDeniedCalls(calls: seq<Call>, effects: seq<Effect>, i: nat, token: string, reply: Reply)
    requires FreshIDs(calls) && i < |effects| && FailedAsRecorded(calls, effects, i) && effects[i].AuditWritten? && effects[i].result.Failed?
    requires PatchCalled(calls, token, effects[i].requestID, reply)
    ensures !reply.Answered? && (!PatchedUnder(effects, effects[i].requestID) <==> reply.Denied?)
  {
    hide FreshIDs, PatchCalled, PatchedUnder;
    var id := effects[i].requestID;
    var other :| ErredAs(calls, other, id, effects);
    var known: Reply :| !known.Answered? && PatchCalled(calls, other, id, known) && (known.Denied? <==> !PatchedUnder(effects, id));
    OnePatchCall(calls, token, other, id, reply, known);
  }

  lemma PatchesExplained(calls: seq<Call>, effects: seq<Effect>, reviewed: map<string, BreakPlan>, claimed: set<string>, issued: map<string, string>)
    requires OrderlyPatches(effects, reviewed, issued) && BreaksExplained(calls, reviewed, claimed, issued)
    ensures forall i :: 0 <= i < |effects| ==> PatchedAsReviewed(calls, effects, i)
  {
    hide Announced, LookedIn, BreakClaimedIn, BreakPlannedIn;
    forall i | 0 <= i < |effects| && effects[i].StatusPatched? ensures PatchedAsReviewed(calls, effects, i) {
      assert LookedIn(calls, effects[i].token, reviewed[effects[i].token], effects[i].requestID);
    }
  }

  /** After any calls in any order: every dispatch is of a plan that was reviewed,
      confirmed in time and found unchanged, and the only one of that plan; every patch
      is of an object that was reviewed, claimed in time and looked at, and the only one
      of its token; the audit says Completed only after a patch, and Failed only where
      the patch call erred, which is the truth if and only if it had no effect. */
  method Serve(calls: seq<Call>) returns (store: PlanStore)
    requires FreshIDs(calls)
    ensures fresh(store) && |store.plans| <= 100
    ensures DispatchedOnceAsReviewed(calls, store.dispatches)
    ensures forall i :: 0 <= i < |store.effects| ==> PatchedAsReviewed(calls, store.effects, i) && PatchedByCall(calls, store.effects, i)
    ensures forall i :: 0 <= i < |store.effects| ==> FailedAsRecorded(calls, store.effects, i)
    ensures CompletedHonestly(store.effects)
  {
    hide PlansExplained, BreaksExplained, PlanStore.Valid, DispatchedOnceAsReviewed, PatchedAsReviewed, CompletedHonestly, ExecutionsExplained,
         PatchedByCall, FailedAsRecorded;
    store := Start();
    var n := 0;
    while n < |calls|
      invariant 0 <= n <= |calls| && fresh(store) && store.Valid() && Explained(calls[..n], store)
      invariant ExecutionsExplained(calls[..n], store.executing, store.effects)
    {
      FreshPrefix(calls, n);
      Step(store, calls[n], calls[..n]);
      n := n + 1;
    }
    assert calls[..n] == calls;
    Results(store, calls);
    ExecutionResults(store.executing, store.effects, calls);
  }

  lemma FreshPrefix(calls: seq<Call>, n: nat)
    requires FreshIDs(calls) && n < |calls|
    ensures FreshIDs(calls[..n] + [calls[n]]) && calls[..n + 1] == calls[..n] + [calls[n]]
  {
  }

  method Start() returns (store: PlanStore)
    ensures fresh(store) && store.Valid() && Explained([], store) && ExecutionsExplained([], store.executing, store.effects)
    ensures store.effects == [] && store.reviewedBreaks == map[] && store.issued == map[]
  {
    store := new PlanStore();
  }

  lemma Results(store: PlanStore, calls: seq<Call>)
    requires store.Valid() && Explained(calls, store)
    ensures |store.plans| <= 100 && DispatchedOnceAsReviewed(calls, store.dispatches) && CompletedHonestly(store.effects)
    ensures forall i :: 0 <= i < |store.effects| ==> PatchedAsReviewed(calls, store.effects, i)
  {
    hide DispatchedIn, PlannedIn, ConfirmedIn, CheckedIn, Justified, CompletedHonestly, OrderlyPatches, StageHolds, BreaksExplained, PatchedAsReviewed;
    PatchesExplained(calls, store.effects, store.reviewedBreaks, store.claimedBreaks, store.issued);
    forall d | d in store.dispatches ensures FinalizedAsVerified(calls, d) {
      DispatchIsVerified(calls, d);
    }
  }

  lemma ExecutionResults(executing: map<string, Execution>, effects: seq<Effect>, calls: seq<Call>)
    requires ExecutionsExplained(calls, executing, effects)
    ensures forall i :: 0 <= i < |effects| ==> PatchedByCall(calls, effects, i) && FailedAsRecorded(calls, effects, i)
  {
    hide StageTold, PatchCalled, ErredAs;
    forall i | 0 <= i < |effects| ensures PatchedByCall(calls, effects, i) && FailedAsRecorded(calls, effects, i) {
      assert EffectTold(calls, effects[i], effects);
    }
  }

  /** A break-glass operation that was planned, claimed and looked at. */
  method Reviewed() returns (store: PlanStore)
    ensures fresh(store) && store.Valid() && store.effects == []
    ensures "token" in store.executing && store.executing["token"].stage == Inspected("id")
    ensures store.executing["token"].plan.uid == "uid" && store.executing["token"].plan.resourceVersion == "7"
  {
    hide PlanStore.Valid;
    store := Start();
    store.StoreBreakPlan("token", "team-shop", "web", "promote", "uid", "7", 0);
    var ok := store.ClaimBreakPlan("token", "team-shop", "web", "promote", true, "web", 1);
    ok := store.Inspect("token", "uid", "7", true, "id");
  }

  /** The condition is needed: the answer to a patch that took effect is lost, and the
      audit says Failed of an object that was patched. */
  method AFailureThatPatched() returns (store: PlanStore)
    ensures store.effects == [AuditWritten("id", "uid", "7", Attempted), EventRecorded("id", Attempted), StatusPatched("id", "uid", "7", "token"),
                              AuditWritten("id", "uid", "7", Failed)]
    ensures PatchedUnder(store.effects, "id")
  {
    hide PlanStore.Valid, PatchedUnder;
    store := Reviewed();
    store.AuditAttempt("token", Answered);
    store.RecordAttempt("token", Answered);
    store.PatchRollout("token", Lost);
    store.AuditOutcome("token", Answered);
    PatchIsThere(store.effects, "id", 2);
  }

  lemma PatchIsThere(effects: seq<Effect>, id: string, i: nat)
    requires i < |effects| && effects[i].StatusPatched? && effects[i].requestID == id
    ensures PatchedUnder(effects, id)
  {
  }
}
