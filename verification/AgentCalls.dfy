/** Sequences of calls on one loop object, and the exact limits of what the loop promises. */
module AgentCalls {
  import opened Collections
  import opened AgentSteps
  import opened AgentEffects
  import opened AgentRuns
  import opened AgentRunSafety
  import Tiers = ApprovalTier
  import Config
  import V = Validation

  // ------------------------------------------------------------------
  // Calls
  // ------------------------------------------------------------------

  /** What happens to a loop object: a step or a run, or a change from outside between two of them, by
      which the user approves or discards the pending patch, a command rewrites the session, or an
      interruption is recorded in it. */
  datatype Call =
    | StepCall(goal: Option<string>, json: JsonInputs)
    | NativeCall(goal: Option<string>, json: JsonInputs, native: NativeInputs)
    | WholeRun(run: RunCall)
    | Outside(session: Option<Session>, pendingPatch: Option<Proposal>)

  function Called(o: Options, s: LoopState, c: Call): LoopState {
    match c
    case StepCall(goal, json) => JsonStep(o, s, goal, json).state
    case NativeCall(goal, json, native) => Advance(o, s, goal, json, native).state
    case WholeRun(run) => Run(o, s, run).state
    case Outside(session, pendingPatch) => s.(session := session, pendingPatch := pendingPatch)
  }

  function CalledAll(o: Options, s: LoopState, calls: seq<Call>): LoopState
    decreases |calls|
  {
    if calls == [] then s else CalledAll(o, Called(o, s, calls[0]), calls[1..])
  }

  /** A new loop object over whatever is stored. */
  function Fresh(session: Option<Session>, pendingPatch: Option<Proposal>): LoopState {
    LoopState(session, None, 0, false, 0, pendingPatch, [], [], [], [], [], [])
  }

  ghost predicate TaskOpenIn(c: Call) {
    match c
    case StepCall(_, json) => json.hasTask
    case NativeCall(_, json, _) => json.hasTask
    case WholeRun(run) => TaskOpen(run.world)
    case Outside(_, _) => true
  }

  ghost predicate TasksOpen(calls: seq<Call>) {
    forall k :: 0 <= k < |calls| ==> TaskOpenIn(calls[k])
  }

  predicate StoredWithinPlan(session: Option<Session>) {
    session.Some? ==> session.value.currentStep <= |session.value.plan|
  }

  /** Whoever writes the session leaves its position within its plan. */
  predicate Plausible(c: Call) {
    c.Outside? ==> StoredWithinPlan(c.session)
  }

  predicate AllPlausible(calls: seq<Call>) {
    forall k :: 0 <= k < |calls| ==> Plausible(calls[k])
  }

  lemma CallSound(o: Options, s: LoopState, c: Call)
    requires Sound(o, s) && Plausible(c)
    ensures Sound(o, Called(o, s, c))
    ensures TaskOpenIn(c) && DispatchFollows(s) ==> DispatchFollows(Called(o, s, c))
  {
    match c
    case StepCall(goal, json) => JsonStepSound(o, s, goal, json);
    case NativeCall(goal, json, native) => AdvanceSound(o, s, goal, json, native);
    case WholeRun(run) =>
      RunIsSound(o, s, run);
      if TaskOpen(run.world) && DispatchFollows(s) {
        RunKeepsDispatch(o, s, run);
      }
    case Outside(session, pendingPatch) =>
      OutsideSound(o, s, session, pendingPatch);
  }

  lemma OutsideSound(o: Options, s: LoopState, session: Option<Session>, pendingPatch: Option<Proposal>)
    requires Sound(o, s) && StoredWithinPlan(session)
    ensures var t := s.(session := session, pendingPatch := pendingPatch);
            Sound(o, t) && (DispatchFollows(s) ==> DispatchFollows(t))
  {
  }

  lemma {:induction false} CallsSound(o: Options, s: LoopState, calls: seq<Call>)
    requires Sound(o, s) && AllPlausible(calls)
    ensures Sound(o, CalledAll(o, s, calls))
    ensures TasksOpen(calls) && DispatchFollows(s) ==> DispatchFollows(CalledAll(o, s, calls))
    decreases |calls|
  {
    if calls != [] {
      assert Plausible(calls[0]);
      CallSound(o, s, calls[0]);
      assert TasksOpen(calls) ==> TaskOpenIn(calls[0]);
      assert forall k :: 0 <= k < |calls| - 1 ==> calls[1..][k] == calls[k + 1];
      CallsSound(o, Called(o, s, calls[0]), calls[1..]);
    }
  }

  /** Whatever is called on a loop object, in whatever order, and whatever the user and other commands do
      to its session and pending patch in between: the plan position stays within the plan, the stuck
      counter is exact, every applied patch was allowed, counted writes stay bounded, and with a task open
      throughout no intent is dispatched three times in a row. */
  lemma EveryReachableState(o: Options, session: Option<Session>, pendingPatch: Option<Proposal>, calls: seq<Call>)
    requires StoredWithinPlan(session) && AllPlausible(calls)
    ensures var s := CalledAll(o, Fresh(session, pendingPatch), calls);
            && StoredWithinPlan(s.session)
            && s.intentCount == TailRun(s.routed)
            && (forall k :: 0 <= k < |s.applied| ==> PatchSafe(o, s.applied[k]))
            && (!o.autoEdit && !o.fullAuto ==> s.applied == [])
            && (o.autoEdit ==> s.nativeWrites <= 29)
            && (TasksOpen(calls) ==> NoTriple(s.dispatched))
  {
    var start := Fresh(session, pendingPatch);
    assert Sound(o, start) && DispatchFollows(start);
    CallsSound(o, start, calls);
    var s := CalledAll(o, start, calls);
    if s.applied != [] {
      assert PatchSafe(o, s.applied[0]);
    }
  }

  // ------------------------------------------------------------------
  // Where the promises end
  // ------------------------------------------------------------------

  function Proposing(identity: Identity, route: Route, hasTask: bool, writeApproved: bool): JsonInputs {
    var choice := Intent(RoutedIntent(identity, route, false));
    JsonInputs([], choice, choice, hasTask, writeApproved, NoError, EditFailed(None), NotApplied, false)
  }

  /** Without an open task the same intent is dispatched a third time. */
  lemma WithoutTaskThriceInARow(o: Options, identity: Identity)
    ensures var call := StepCall(None, Proposing(identity, OtherRoute, false, false));
            var session := Session("g", ["a", "b", "c"], 0, NoAction, Active, NoError, 0);
            CalledAll(o, Fresh(Some(session), None), [call, call, call]).dispatched == [identity, identity, identity]
  {
    var call := StepCall(None, Proposing(identity, OtherRoute, false, false));
    var session := Session("g", ["a", "b", "c"], 0, NoAction, Active, NoError, 0);
    var s0 := Fresh(Some(session), None);
    assert [call, call, call] == [call] + [call, call] && [call, call] == [call] + [call] && [call] == [call] + [];
    var s1 := UntaskedCall(o, s0, identity, [call, call]);
    var s2 := UntaskedCall(o, s1, identity, [call]);
    var s3 := UntaskedCall(o, s2, identity, []);
    assert s1.dispatched == [identity] && s2.dispatched == [identity, identity];
  }

  /** Without a task, an intent that matches no other route is dispatched and moves the plan on. */
  lemma UntaskedCall(o: Options, s: LoopState, identity: Identity, rest: seq<Call>) returns (t: LoopState)
    requires s.session.Some? && s.session.value.currentStep < |s.session.value.plan|
    ensures CalledAll(o, s, [StepCall(None, Proposing(identity, OtherRoute, false, false))] + rest) == CalledAll(o, t, rest)
    ensures t.dispatched == s.dispatched + [identity]
    ensures t.session.Some? && t.session.value.plan == s.session.value.plan
    ensures t.session.value.currentStep == s.session.value.currentStep + 1
  {
    var call := StepCall(None, Proposing(identity, OtherRoute, false, false));
    t := Called(o, s, call);
    assert ([call] + rest)[1..] == rest;
  }

  /** A step after which the loop validates, in terms of what goes into it: an approved write is
      dispatched, or a stuck intent aborts and leaves the mark of the write before. */
  predicate Validates(o: Options, s: LoopState, goal: Option<string>, i: JsonInputs) {
    && !o.noValidate && !o.nativeTools
    && var p := Prepared(s, goal, i.plan);
    && p.Some? && p.value.session.Some?
    && p.value.session.value.currentStep < |p.value.session.value.plan|
    && Answer(i).Intent?
    && var intent := Answer(i).routed;
    && if Stuck(s, intent, i) then s.lastIsApply else ApprovedWrite(intent, i) && !i.interrupted
  }

  lemma ValidatesIff(o: Options, s: LoopState, goal: Option<string>, json: JsonInputs, native: NativeInputs)
    ensures var r := Advance(o, s, goal, json, native);
            r.Stepped? && ShouldValidate(o, r.state) <==> Validates(o, s, goal, json)
  {
    var prepared := Prepared(s, goal, if o.nativeTools then native.plan else json.plan);
    if prepared.Some? && prepared.value.session.Some? {
      var p, x := prepared.value, prepared.value.session.value;
      if o.nativeTools {
        ReplyIsNoApply(o, p, x, native);
      } else if x.currentStep < |x.plan| {
        if ChoiceStep(o, p, x, json).Stepped? {
          JsonStepMovesIff(o, p, x, json);
        } else if Answer(json).Intent? {
          RaisedDispatch(o, p, x, Answer(json).routed, json);
        }
      }
    }
  }

  /** A stuck intent never raises, and an approved write only when it is interrupted. */
  lemma RaisedDispatch(o: Options, s: LoopState, x: Session, intent: RoutedIntent, i: JsonInputs)
    ensures IntentStep(o, s, x, intent, i).Raised? ==>
              !Stuck(s, intent, i) && (ApprovedWrite(intent, i) ==> i.interrupted)
  {
  }

  /** An iteration replaces an existing pending patch exactly when it validates and a repair patch
      lands in the same file. */
  lemma PendingReplacedIff(o: Options, s: LoopState, goal: Option<string>, timed: bool, i: RunInputs)
    requires Sound(o, s) && s.pendingPatch.Some?
    ensures Iterate(o, s, goal, timed, i).state.pendingPatch != s.pendingPatch <==>
              && !(timed && i.timeUp) && Validates(o, s, goal, i.json)
              && o.sharedPatchPath && i.validation.saved.Some? && i.validation.saved != s.pendingPatch
  {
    AdvanceSound(o, s, goal, i.json, i.native);
    ValidatesIff(o, s, goal, i.json, i.native);
    var r := Advance(o, s, goal, i.json, i.native);
    if !(timed && i.timeUp) {
      AfterStepPending(o, r, i.validation, i.newPlan);
    }
  }

  lemma AfterStepPending(o: Options, r: StepResult, v: V.Result, newPlan: seq<string>)
    requires r.Stepped? ==> r.state.session.Some?
    ensures var landed := r.Stepped? && ShouldValidate(o, r.state) && o.sharedPatchPath && v.saved.Some?;
            var t := AfterStep(o, r, v, newPlan).state;
            && t.pendingPatch == (if landed then v.saved else r.state.pendingPatch)
            && t.repairs == (if landed then r.state.repairs + [v.saved.value] else r.state.repairs)
  {
  }

  predicate RepairElsewhere(o: Options, world: nat -> RunInputs, k: nat) {
    o.noValidate || !o.sharedPatchPath || world(k).validation.saved.None?
  }

  ghost predicate RepairsElsewhere(o: Options, world: nat -> RunInputs) {
    forall k: nat :: RepairElsewhere(o, world, k)
  }

  /** A run whose repairs go elsewhere never touches an existing pending patch. */
  lemma RunKeepsPending(o: Options, s: LoopState, c: RunCall)
    requires Sound(o, s) && s.pendingPatch.Some? && RepairsElsewhere(o, c.world)
    ensures Run(o, s, c).state.pendingPatch == s.pendingPatch
  {
    var inv := (t: LoopState) => Sound(o, t) && t.pendingPatch == s.pendingPatch;
    forall t: LoopState, g: Option<string>, j: nat | inv(t)
      ensures inv(BodyOf(o, c.budget.Some?, c.world)(t, g, j).state)
    {
      assert RepairElsewhere(o, c.world, j);
      IterateSound(o, t, g, c.budget.Some?, c.world(j));
      PendingReplacedIff(o, t, g, c.budget.Some?, c.world(j));
    }
    LoopEndKeeps(inv, o, s, c);
    LoopEndFrames(o, s, c);
  }

  /** The pending patch is the first one, or the last repair that came to its file since. */
  ghost predicate PendingFollowsRepairs(s: LoopState, t: LoopState) {
    && s.repairs <= t.repairs
    && t.pendingPatch == if t.repairs == s.repairs then s.pendingPatch else Some(t.repairs[|t.repairs| - 1])
  }

  lemma IteratePending(o: Options, s: LoopState, t: LoopState, goal: Option<string>, timed: bool, i: RunInputs)
    requires Sound(o, t) && s.pendingPatch.Some? && PendingFollowsRepairs(s, t)
    ensures PendingFollowsRepairs(s, Iterate(o, t, goal, timed, i).state)
  {
    AdvanceSound(o, t, goal, i.json, i.native);
    AdvanceKeepsRepairs(o, t, goal, i.json, i.native);
    AfterStepPending(o, Advance(o, t, goal, i.json, i.native), i.validation, i.newPlan);
  }

  lemma AdvanceKeepsRepairs(o: Options, s: LoopState, goal: Option<string>, json: JsonInputs, native: NativeInputs)
    ensures Advance(o, s, goal, json, native).state.repairs == s.repairs
  {
    var prepared := Prepared(s, goal, if o.nativeTools then native.plan else json.plan);
    if prepared.Some? && prepared.value.session.Some? {
      ChoiceEffect(o, prepared.value, prepared.value.session.value, json);
      ReplyEffect(o, prepared.value, prepared.value.session.value, native);
    }
  }

  lemma BodyPendingFollows(o: Options, s: LoopState, inv: LoopState -> bool, timed: bool, world: nat -> RunInputs)
    requires s.pendingPatch.Some?
    requires forall t: LoopState :: inv(t) <==> Sound(o, t) && PendingFollowsRepairs(s, t)
    ensures forall t: LoopState, g: Option<string>, j: nat :: inv(t) ==> inv(BodyOf(o, timed, world)(t, g, j).state)
  {
    forall t: LoopState, g: Option<string>, j: nat | inv(t) ensures inv(BodyOf(o, timed, world)(t, g, j).state) {
      IterateSound(o, t, g, timed, world(j));
      IteratePending(o, s, t, g, timed, world(j));
    }
  }

  lemma RunPendingFollows(o: Options, s: LoopState, c: RunCall)
    requires Sound(o, s) && s.pendingPatch.Some?
    ensures PendingFollowsRepairs(s, Run(o, s, c).state)
  {
    LoopEndFrames(o, s, c);
    LoopPendingFollows(o, s, c);
  }

  lemma LoopPendingFollows(o: Options, s: LoopState, c: RunCall)
    requires Sound(o, s) && s.pendingPatch.Some?
    ensures PendingFollowsRepairs(s, LoopEnd(o, s, c))
  {
    var inv := (t: LoopState) => Sound(o, t) && PendingFollowsRepairs(s, t);
    BodyPendingFollows(o, s, inv, c.budget.Some?, c.world);
    LoopEndKeeps(inv, o, s, c);
  }

  /** Over a whole run an existing pending patch is replaced exactly when a repair patch landed in its
      file, and the last one that did is not the same. */
  lemma RunReplacesPendingIff(o: Options, s: LoopState, c: RunCall)
    requires Sound(o, s) && s.pendingPatch.Some?
    ensures var t := Run(o, s, c).state;
            && s.repairs <= t.repairs
            && (t.pendingPatch != s.pendingPatch <==>
                t.repairs != s.repairs && s.pendingPatch != Some(t.repairs[|t.repairs| - 1]))
  {
    RunPendingFollows(o, s, c);
  }

  /** An approved MCP write followed by a failing suite replaces the user's pending patch. */
  lemma RepairReplacesPending(o: Options, identity: Identity, mine: Proposal, repair: Proposal)
    requires !o.nativeTools && !o.noValidate && o.sharedPatchPath && mine != repair
    ensures var session := Session("g", ["a"], 0, NoAction, Active, NoError, 0);
            var native := NativeInputs([], NativeFailure, NativeFailure, [], None, false, NoError);
            var inputs := RunInputs(false, Proposing(identity, McpPropose, true, true), native,
                                    V.Result(V.RepairProposed, 1, Some(repair)), []);
            Iterate(o, Fresh(Some(session), Some(mine)), None, false, inputs).state.pendingPatch == Some(repair)
  {
  }

  predicate Writes(apply: ApplyOutcome) {
    match apply
    case AppliedCleanly => true
    case NotApplied => false
    case AppliedThenRaised(_) => true
    case ApplyInterrupted(written, _) => written
  }

  /** The patch step writes to the tree exactly when nothing is pending, the edit succeeds, the tier
      rule allows it without the user, and the applier writes. */
  lemma AppliesIff(o: Options, s: LoopState, x: Session, i: JsonInputs)
    ensures PatchStep(o, s, x, i).state.applied != s.applied <==>
              && s.pendingPatch.None? && i.edit.Edited? && Writes(i.apply)
              && MayApply(o, i.edit.proposal)
    ensures PatchStep(o, s, x, i).state.applied != s.applied ==>
              PatchStep(o, s, x, i).state.applied == s.applied + [i.edit.proposal]
  {
  }

  /** The tier rule in terms of the proposal alone. */
  lemma MayApplyIff(o: Options, p: Proposal)
    ensures MayApply(o, p) <==>
              || ((o.autoEdit || o.fullAuto) && Tiers.AutoEligible(p, o.approval, o.logic))
              || (o.fullAuto && !(exists i :: Tiers.FirstSettling(p, o.approval, i) && Tiers.Dangerous(p[i])))
  {
    Tiers.AutoIff(p, o.approval, o.logic);
    Tiers.GateIff(p, o.approval, o.logic);
  }

  /** Under full-auto a deletion is applied unattended when a protected path comes before it, and
      waits for the user when the same two blocks come the other way round. */
  lemma HiddenDeletionIsApplied(o: Options) returns (p: Proposal)
    requires o.fullAuto && o.approval == Config.DEFAULTS.approval
    ensures |p| == 2 && p[1].operation == Tiers.Delete
    ensures MayApply(o, p) && !MayApply(o, [p[1], p[0]])
  {
    p := Tiers.DeletionBehindProtectedPath(o.logic);
  }

  // ------------------------------------------------------------------
  // Stuck right after an approved write
  // ------------------------------------------------------------------

  /** A stuck intent ends an iteration as `loop_stuck` exactly when validation is off, the step before was
      no approved write, or the validation that follows passes. Otherwise the aborted session is validated,
      and a repair patch makes it wait for the user. */
  lemma StuckEndsIff(o: Options, s: LoopState, goal: Option<string>, timed: bool, i: RunInputs)
    requires !o.nativeTools && !(timed && i.timeUp)
    requires var p := Prepared(s, goal, i.json.plan);
             p.Some? && p.value.session.Some? && p.value.session.value.currentStep < |p.value.session.value.plan|
    requires Answer(i.json).Intent? && Stuck(s, Answer(i.json).routed, i.json)
    ensures var it := Iterate(o, s, goal, timed, i);
            && (it.Done? && it.reason == LoopStuckReason <==>
                o.noValidate || !s.lastIsApply || i.validation.status == V.Passed)
            && (!o.noValidate && s.lastIsApply && i.validation.status == V.RepairProposed ==>
                it.Done? && it.reason == ApprovalRequired && it.state.session.Some? &&
                it.state.session.value.status == WaitingForUser)
  {
    var p := Prepared(s, goal, i.json.plan).value;
    var aborted := StuckAbort(Counted(p, Answer(i.json).routed.identity), p.session.value);
    assert Advance(o, s, goal, i.json, i.native) == Stepped(aborted, false);
    AbortConcludedIff(o, aborted, i.validation, i.newPlan);
  }

  lemma AbortConcludedIff(o: Options, t: LoopState, v: V.Result, newPlan: seq<string>)
    requires t.session.Some? && t.session.value.status == Aborted && t.session.value.lastError == ErrorText(true)
    ensures var it := AfterStep(o, Stepped(t, false), v, newPlan);
            && (it.Done? && it.reason == LoopStuckReason <==> !ShouldValidate(o, t) || v.status == V.Passed)
            && (ShouldValidate(o, t) && v.status == V.RepairProposed ==>
                  it.Done? && it.reason == ApprovalRequired && it.state.session.Some? &&
                  it.state.session.value.status == WaitingForUser)
  {
  }

  /** An approved write three times in a row, with a task open and a failing suite: the third one is stuck,
      and the run ends waiting for the user, not as stuck. */
  lemma StuckWriteWaitsForUser(o: Options, identity: Identity, repair: Proposal)
    requires !o.nativeTools && !o.noValidate
    ensures var write := Proposing(identity, McpPropose, true, true);
            var session := Session("g", ["a", "b", "c"], 0, NoAction, Active, NoError, 0);
            var s := CalledAll(o, Fresh(Some(session), None), [StepCall(None, write), StepCall(None, write)]);
            var native := NativeInputs([], NativeFailure, NativeFailure, [], None, false, NoError);
            var inputs := RunInputs(false, write, native, V.Result(V.RepairProposed, 1, Some(repair)), []);
            var it := Iterate(o, s, None, false, inputs);
            && Stuck(s, Answer(write).routed, write)
            && it.Done? && it.reason == ApprovalRequired
            && it.state.session.Some? && it.state.session.value.status == WaitingForUser
            && it.state.session.value.pending == PatchAction(ValidationRepair)
  {
    var write := Proposing(identity, McpPropose, true, true);
    var session := Session("g", ["a", "b", "c"], 0, NoAction, Active, NoError, 0);
    var s0 := Fresh(Some(session), None);
    var call := StepCall(None, write);
    var s1 := Called(o, s0, call);
    var s2 := Called(o, s1, call);
    assert [call, call][1..] == [call] && [call][1..] == [];
    assert s1.intentCount == 1 && s1.lastIdentity == Some(identity);
    assert s1.session == Some(session.(currentStep := 1, pending := McpApprovedWrite));
    assert s2.intentCount == 2 && s2.lastIdentity == Some(identity) && s2.lastIsApply;
    assert s2.session == Some(session.(currentStep := 2, pending := McpApprovedWrite));
    assert CalledAll(o, s0, [call, call]) == CalledAll(o, s1, [call]) == CalledAll(o, s2, []) == s2;
  }

  // ------------------------------------------------------------------
  // Replanning
  // ------------------------------------------------------------------

  /** Every iteration gets its validation result from a fresh validation loop. */
  ghost predicate FreshWorld(world: nat -> RunInputs) {
    forall k: nat :: V.FreshResult(world(k).validation)
  }

  predicate Unreachable(reason: Reason) {
    reason in {Replanned, AbortedReason, ValidationStopped(V.NoProgress), ValidationStopped(V.MaxRepairs)}
  }

  predicate NeverReplansAt(it: Iteration) {
    (it.Next? ==> !it.replanned) && (it.Done? ==> !Unreachable(it.reason))
  }

  lemma FreshIterationKeepsPlan(o: Options, s: LoopState, goal: Option<string>, timed: bool, i: RunInputs)
    requires Sound(o, s) && V.FreshResult(i.validation)
    ensures NeverReplansAt(Iterate(o, s, goal, timed, i))
  {
    IterateSound(o, s, goal, timed, i);
    FreshValidationKeepsPlan(o, Advance(o, s, goal, i.json, i.native), i.validation, i.newPlan);
  }

  lemma FreshValidationKeepsPlan(o: Options, r: StepResult, v: V.Result, newPlan: seq<string>)
    requires V.FreshResult(v)
    ensures var it := AfterStep(o, r, v, newPlan);
            (it.Next? ==> !it.replanned) && (it.Done? && it.reason != AbortedReason ==> !Unreachable(it.reason))
  {
  }

  lemma {:induction false} RunFromNeverReplans(o: Options, body: Body, s: LoopState, goal: Option<string>, k: nat,
                                               limit: nat)
    requires BodySound(o, body)
    requires forall t: LoopState, g: Option<string>, j: nat :: Sound(o, t) ==> NeverReplansAt(body(t, g, j))
    requires Sound(o, s) && k <= limit
    ensures var r := RunFrom(body, s, goal, k, limit, MaxSteps); r.RunEnded? ==> !Unreachable(r.reason)
    decreases limit - k
  {
    if k < limit {
      var it := body(s, goal, k);
      assert IterationSound(o, it) && NeverReplansAt(it);
      if it.Next? {
        RunFromNeverReplans(o, body, it.state, None, k + 1, limit);
      }
    }
  }

  predicate ReplansBounded(s: LoopState) {
    s.session.Some? ==> s.session.value.replanCount <= 2
  }

  lemma AdvanceKeepsReplans(o: Options, s: LoopState, goal: Option<string>, json: JsonInputs, native: NativeInputs)
    requires ReplansBounded(s)
    ensures ReplansBounded(Advance(o, s, goal, json, native).state)
  {
    var prepared := Prepared(s, goal, if o.nativeTools then native.plan else json.plan);
    if prepared.Some? && prepared.value.session.Some? {
      var p, x := prepared.value, prepared.value.session.value;
      if x.currentStep < |x.plan| {
        ChoiceEffect(o, p, x, json);
        ReplyEffect(o, p, x, native);
      }
    }
  }

  /** Whatever validation reports, a session is replanned at most twice, over any run. */
  lemma ReplannedAtMostTwice(o: Options, s: LoopState, c: RunCall)
    requires ReplansBounded(s)
    ensures ReplansBounded(Run(o, s, c).state)
  {
    var timed, body := c.budget.Some?, BodyOf(o, c.budget.Some?, c.world);
    forall t: LoopState, g: Option<string>, j: nat | ReplansBounded(t) ensures ReplansBounded(body(t, g, j).state) {
      AdvanceKeepsReplans(o, t, g, c.world(j).json, c.world(j).native);
    }
    LoopEndKeeps(ReplansBounded, o, s, c);
  }

  /** With the validation results the loop really gets, replanning is dead code: no run is replanned,
      and none stops for lack of progress or for too many repairs. */
  lemma FreshRunsNeverReplan(o: Options, s: LoopState, c: RunCall)
    requires Sound(o, s) && FreshWorld(c.world)
    ensures Run(o, s, c).RunEnded? ==> !Unreachable(Run(o, s, c).reason)
  {
    var body := BodyOf(o, c.budget.Some?, c.world);
    forall t: LoopState, g: Option<string>, j: nat | Sound(o, t) ensures NeverReplansAt(body(t, g, j)) {
      assert V.FreshResult(c.world(j).validation);
      FreshIterationKeepsPlan(o, t, g, c.budget.Some?, c.world(j));
    }
    BodyOfIsSound(o, c.budget.Some?, c.world);
    if c.maxSteps >= 1 {
      RunFromNeverReplans(o, body, s, WithMemory(c.memory, c.goal), 0, StepBudget(c.maxSteps, c.budget));
    }
  }

  /** A JSON run that reports completion made one iteration for every step its plan had left, and one
      more. */
  lemma CompletedRunTookAllSteps(o: Options, s: LoopState, c: RunCall)
    requires !o.nativeTools && FreshWorld(c.world)
    requires Run(o, s, c).RunEnded? && Run(o, s, c).reason == CompletedReason
    ensures var p := Prepared(s, WithMemory(c.memory, c.goal), c.world(0).json.plan);
            p.Some? && p.value.session.Some? && Run(o, s, c).iterations >= Left(p.value.session.value) + 1
  {
    forall k: nat ensures NoReplan(o, c.world, k) {
      assert V.FreshResult(c.world(k).validation);
    }
    BodyOfMovesOne(o, c.budget.Some?, c.world);
    CompletionTakesAllSteps(BodyOf(o, c.budget.Some?, c.world), PlansOf(c.world), s,
                            WithMemory(c.memory, c.goal), 0, StepBudget(c.maxSteps, c.budget), MaxSteps);
  }

  // ------------------------------------------------------------------
  // Resuming
  // ------------------------------------------------------------------

  /** A run without a goal continues the stored session exactly when nothing is remembered, or when
      what is remembered is the stored goal; otherwise the memory becomes the goal of a new session. */
  lemma ResumeContinuesIff(s: LoopState, memory: string, plan: seq<string>)
    requires s.session.Some? && s.session.value.plan != []
    ensures Prepared(s, WithMemory(memory, None), plan) == Some(s) <==>
            memory == "" || memory == s.session.value.goal
  {
  }

  /** Naming the stored goal again continues the session exactly when nothing is remembered. */
  lemma SameGoalContinuesIff(s: LoopState, memory: string, plan: seq<string>)
    requires s.session.Some? && s.session.value.plan != [] && s.session.value.goal != ""
    ensures Prepared(s, WithMemory(memory, Some(s.session.value.goal)), plan) == Some(s) <==> memory == ""
  {
    var goal := s.session.value.goal;
    assert |memory + "\n\n" + goal| == |memory| + 2 + |goal|;
  }
}
