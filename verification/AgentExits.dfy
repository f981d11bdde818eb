/** Exactly when a step, an iteration and a run raise, wait, complete, go on or end, and with which session. */
module AgentExits {
  import opened Collections
  import opened AgentSteps
  import opened AgentEffects
  import opened AgentRuns
  import V = Validation

  // ------------------------------------------------------------------
  // The session a step works on
  // ------------------------------------------------------------------

  predicate Named(goal: Option<string>) {
    goal.Some? && goal.value != ""
  }

  /** The step begins a session: there is none, or the caller names another goal. */
  predicate Restarts(s: LoopState, goal: Option<string>) {
    Named(goal) && (s.session.None? || goal.value != s.session.value.goal)
  }

  /** Without a session a goal is needed. A new session has the given plan and nothing done; a stored one is
      kept, with its plan filled in exactly when it is empty. Nothing but the session changes. */
  lemma PreparedIff(s: LoopState, goal: Option<string>, plan: seq<string>)
    ensures var p := Prepared(s, goal, plan);
            && (p.None? <==> s.session.None? && !Named(goal))
            && (p.Some? ==> (p.value.session.Some? && p.value == s.(session := p.value.session) &&
                  var x := p.value.session.value;
                  if Restarts(s, goal) then
                    x.goal == goal.value && x.plan == plan && x.currentStep == 0 && x.replanCount == 0 &&
                    x.status == Active && x.pending == NoAction && x.lastError == NoError
                  else
                    var stored := s.session.value;
                    && (stored.plan != [] ==> x == stored)
                    && (stored.plan == [] ==> (x.plan == plan && x.currentStep == 0 &&
                          x.(plan := [], currentStep := stored.currentStep) == stored))))
  {
  }

  // ------------------------------------------------------------------
  // The native step
  // ------------------------------------------------------------------

  /** The reply acted on holds a command that needs the user. */
  predicate HoldsCommand(o: Options, i: NativeInputs) {
    NativeAnswer(i).NativeCalls? && "run_command" in NativeAnswer(i).calls && !o.fullAuto
  }

  predicate RunsTurn(o: Options, i: NativeInputs) {
    NativeAnswer(i).NativeCalls? && !HoldsCommand(o, i)
  }

  /** The model's closing answer, at once or at the end of a turn, and whether it needs approval. */
  function Closing(o: Options, i: NativeInputs): Option<bool> {
    match NativeAnswer(i)
    case NativeStop(requiresApproval) => Some(requiresApproval)
    case NativeCalls(_) =>
      if RunsTurn(o, i) && TurnOf(i).end.FinalStop? then Some(TurnOf(i).end.requiresApproval) else None
    case _ => None
  }

  /** A command without a secret is put to the user, and one with a secret to nobody. The step waits for that
      or for a closing answer that needs approval, completes with one that does not, moves on exactly when a
      turn ran, and raises exactly when the model call or the turn did. */
  lemma ReplyEndsIff(o: Options, s: LoopState, x: Session, i: NativeInputs)
    ensures var r := ReplyStep(o, s, x, i);
            && (r.Raised? <==> NativeAnswer(i).NativeRaised? || (RunsTurn(o, i) && TurnOf(i).end == TurnRaised))
            && (r.Stepped? ==> (r.state.session.Some? &&
                  var y := r.state.session.value;
                  && (y.pending == CommandProposal <==> HoldsCommand(o, i) && !i.commandHasSecret)
                  && (y.pending == StopForUser(true) <==> Closing(o, i) == Some(true))
                  && (y.pending == NativeTurn <==> RunsTurn(o, i) && Closing(o, i).None?)
                  && y.pending in {CommandProposal, StopForUser(true), NativeTurn, NoAction}
                  && (r.stopped <==> y.pending in {CommandProposal, StopForUser(true)})
                  && (y.status == WaitingForUser <==> r.stopped)
                  && (y.status == Completed <==> Closing(o, i) == Some(false))
                  && y.status in {Active, WaitingForUser, Completed}
                  && y == x.(currentStep := y.currentStep, pending := y.pending, status := y.status, lastError := y.lastError)
                  && y.currentStep == (if RunsTurn(o, i) then x.currentStep + 1 else x.currentStep)
                  && y.lastError == if NativeAnswer(i).NativeFailure? then i.error else NoError))
  {
  }

  /** The same for the whole step: below the guard and on an unfinished plan, and only there, a reply is acted
      on. A finished plan completes the session, and the guard stops for the user. */
  lemma NativeStepEndsIff(o: Options, s: LoopState, goal: Option<string>, i: NativeInputs)
    requires Prepared(s, goal, i.plan).Some? && Prepared(s, goal, i.plan).value.session.Some?
    ensures var x := Prepared(s, goal, i.plan).value.session.value;
            var finished, guarded := x.currentStep >= |x.plan|, Guarded(o, ToolsOf(s));
            var r := NativeStep(o, s, goal, i);
            && (r.Raised? <==>
                !finished && !guarded &&
                (NativeAnswer(i).NativeRaised? || (RunsTurn(o, i) && TurnOf(i).end == TurnRaised)))
            && (r.Stepped? ==> (r.state.session.Some? &&
                  var y := r.state.session.value;
                  && (y.pending == CommandProposal <==>
                      !finished && !guarded && HoldsCommand(o, i) && !i.commandHasSecret)
                  && (y.pending == StopForUser(true) <==> !finished && (guarded || Closing(o, i) == Some(true)))
                  && (!finished && guarded ==> y.status == WaitingForUser && y.lastError == NoError)
                  && (y.status == Completed <==> finished || (!guarded && Closing(o, i) == Some(false)))
                  && (r.stopped <==>
                      !finished && (guarded || (HoldsCommand(o, i) && !i.commandHasSecret) || Closing(o, i) == Some(true)))
                  && y.currentStep ==
                     (if !finished && !guarded && RunsTurn(o, i) then x.currentStep + 1 else x.currentStep)))
  {
    var p := Prepared(s, goal, i.plan).value;
    ReplyEndsIff(o, p, p.session.value, i);
  }

  /** The same for the native protocol. */
  lemma SecondReplyOnlyAfterFailure(o: Options, s: LoopState, goal: Option<string>, i: NativeInputs, other: NativeReply)
    ensures i.first != NativeFailure ==>
              NativeStep(o, s, goal, i) == NativeStep(o, s, goal, i.(second := other))
    ensures i.first == NativeFailure ==>
              NativeStep(o, s, goal, i) == NativeStep(o, s, goal, i.(first := i.second, second := NativeFailure))
  {
    assert i.first != NativeFailure ==> NativeAnswer(i.(second := other)) == NativeAnswer(i);
    assert i.first == NativeFailure ==> NativeAnswer(i.(first := i.second, second := NativeFailure)) == NativeAnswer(i);
  }

  // ------------------------------------------------------------------
  // The JSON step
  // ------------------------------------------------------------------

  /** The answer acted on is an intent that is not stuck. */
  predicate Dispatches(s: LoopState, i: JsonInputs) {
    Answer(i).Intent? && !Stuck(s, Answer(i).routed, i)
  }

  predicate PatchRouted(intent: RoutedIntent) {
    intent.route == PatchPropose && !intent.executableNow
  }

  predicate PatchInterrupted(o: Options, s: LoopState, i: JsonInputs) {
    && s.pendingPatch.None?
    && (i.edit.EditInterrupted? || (i.edit.Edited? && MayApply(o, i.edit.proposal) && i.apply.ApplyInterrupted?))
  }

  predicate AppliesCleanly(o: Options, i: JsonInputs) {
    i.edit.Edited? && MayApply(o, i.edit.proposal) && i.apply.AppliedCleanly?
  }

  /** An edited patch reaches the files: applying it is tried and gets that far. */
  predicate WritesFiles(o: Options, i: JsonInputs) {
    && i.edit.Edited? && MayApply(o, i.edit.proposal)
    && match i.apply {
         case NotApplied => false
         case ApplyInterrupted(written, _) => written
         case _ => true
       }
  }

  /** And is then taken out of the pending-patch file again. */
  predicate ClearsPending(o: Options, i: JsonInputs) {
    && WritesFiles(o, i)
    && match i.apply {
         case AppliedThenRaised(removed) => removed
         case ApplyInterrupted(_, removed) => removed
         case _ => true
       }
  }

  /** Nothing is written over a pending patch. An edited patch is recorded as applied exactly when the files were
      written, and stays pending exactly unless it was taken out again after that, also when the step raises. */
  lemma PatchStepFiles(o: Options, s: LoopState, x: Session, i: JsonInputs)
    ensures var t := PatchStep(o, s, x, i).state;
            && (s.pendingPatch.Some? ==> t.pendingPatch == s.pendingPatch && t.applied == s.applied)
            && (s.pendingPatch.None? ==>
                  && t.applied == (if WritesFiles(o, i) then s.applied + [i.edit.proposal] else s.applied)
                  && t.pendingPatch == if !i.edit.Edited? then i.edit.saved
                                       else if ClearsPending(o, i) then None else Some(i.edit.proposal))
  {
  }

  /** The exits of the patch step: a patch pending before, a failed proposal, a patch applied, or one that
      waits. */
  lemma PatchStepEndsIff(o: Options, s: LoopState, x: Session, i: JsonInputs)
    ensures var r := PatchStep(o, s, x, i);
            && (r.Raised? <==> PatchInterrupted(o, s, i))
            && (r.Stepped? ==> (r.state.session.Some? &&
                  var y := r.state.session.value;
                  && (y.pending == PatchAction(AlreadyPending) <==> s.pendingPatch.Some?)
                  && (y.pending == PatchAction(ProposalFailed) <==> s.pendingPatch.None? && i.edit.EditFailed?)
                  && (y.pending == PatchAction(AutoApplied) <==> s.pendingPatch.None? && AppliesCleanly(o, i))
                  && (y.pending == PatchAction(AwaitingApproval) <==>
                      s.pendingPatch.None? && i.edit.Edited? && !AppliesCleanly(o, i))
                  && (r.stopped <==> y.pending in {PatchAction(AlreadyPending), PatchAction(AwaitingApproval)})
                  && y.lastError ==
                     if s.pendingPatch.Some? then ErrorText(false) else if i.edit.EditFailed? then i.error else NoError))
  {
  }

  /** The kind of action a dispatched intent leaves tells its route, and the other way round. */
  lemma DispatchEndsIff(o: Options, s: LoopState, x: Session, intent: RoutedIntent, i: JsonInputs)
    ensures var r := DispatchIntent(o, s, x, intent, i);
            && (r.Raised? <==> if PatchRouted(intent) then PatchInterrupted(o, s, i) else i.interrupted)
            && (r.Stepped? ==> (r.state.session.Some? &&
                  var y := r.state.session.value;
                  && (y.pending.PatchAction? <==> PatchRouted(intent))
                  && (y.pending == McpCall <==> intent.executableNow && intent.route == McpReadonly)
                  && (y.pending == SubagentDispatch <==> intent.executableNow && intent.route == SubagentRoute)
                  && (y.pending == McpApprovedWrite <==>
                      intent.route == McpPropose && !intent.executableNow && i.writeApproved)
                  && (y.pending in {McpCall, SubagentDispatch, McpApprovedWrite} ==> y.lastError == i.error)
                  && (y.pending == ToolProposal ==> y.lastError == NoError)
                  && (y.pending.PatchAction? || y.pending in {McpCall, SubagentDispatch, McpApprovedWrite, ToolProposal})
                  && (!y.pending.PatchAction? ==> !r.stopped && y.status == Active)))
  {
    PatchStepEndsIff(o, s, x, i);
  }

  /** The step waits exactly for a stop of the model, a patch that was pending before, or a patch that is not
      applied cleanly; it raises exactly on an unsupported answer and on an interrupted dispatch; and two
      contract failures leave an active session that has not moved. */
  lemma ChoiceEndsIff(o: Options, s: LoopState, x: Session, i: JsonInputs)
    ensures var r := ChoiceStep(o, s, x, i);
            && (r.Raised? <==>
                Answer(i).Unsupported? ||
                (Dispatches(s, i) &&
                 if PatchRouted(Answer(i).routed) then PatchInterrupted(o, s, i) else i.interrupted))
            && (r.Stepped? ==> (r.state.session.Some? &&
                  var y := r.state.session.value;
                  && (forall b :: y.pending == StopForUser(b) <==> Answer(i) == Stop(b))
                  && (y.pending == NoAction <==> Answer(i) == ContractFailure || y.status == Aborted)
                  && (Answer(i) == ContractFailure ==>
                        y.status == Active && y.lastError == i.error && y.currentStep == x.currentStep)
                  && (Answer(i).Stop? ==>
                        y.status == WaitingForUser && y.lastError == NoError && y.currentStep == x.currentStep)
                  && (r.stopped <==>
                      Answer(i).Stop? ||
                      (Dispatches(s, i) && PatchRouted(Answer(i).routed) &&
                       (s.pendingPatch.Some? || (i.edit.Edited? && !AppliesCleanly(o, i)))))))
  {
    if Dispatches(s, i) {
      var intent := Answer(i).routed;
      var counted := Counted(s, intent.identity).(dispatched := s.dispatched + [intent.identity]);
      DispatchEndsIff(o, counted, x, intent, i);
      PatchStepEndsIff(o, counted, x, i);
    }
  }

  /** The model is asked again exactly after a contract failure: otherwise a second answer has no effect, and
      after one it has the effect it would have had as the first. */
  lemma SecondAnswerOnlyAfterFailure(o: Options, s: LoopState, goal: Option<string>, i: JsonInputs, other: ToolChoice)
    ensures i.first != ContractFailure ==>
              JsonStep(o, s, goal, i) == JsonStep(o, s, goal, i.(second := other))
    ensures i.first == ContractFailure ==>
              JsonStep(o, s, goal, i) == JsonStep(o, s, goal, i.(first := i.second, second := ContractFailure))
  {
    var j := i.(second := other);
    var k := i.(first := i.second, second := ContractFailure);
    if i.first != ContractFailure {
      assert Answer(j) == Answer(i);
    } else {
      assert Answer(k) == Answer(i);
    }
  }

  /** A finished plan completes the session without looking at any answer; otherwise an answer is acted on. */
  lemma JsonStepCompletesIff(o: Options, s: LoopState, goal: Option<string>, i: JsonInputs)
    requires Prepared(s, goal, i.plan).Some? && Prepared(s, goal, i.plan).value.session.Some?
    ensures var x := Prepared(s, goal, i.plan).value.session.value;
            var r := JsonStep(o, s, goal, i);
            && (x.currentStep >= |x.plan| ==>
                  r.Stepped? && !r.stopped && r.state.session.Some? &&
                  r.state.session.value == x.(status := Completed, pending := NoAction))
            && (r.Stepped? && r.state.session.Some? ==>
                  (r.state.session.value.status == Completed <==> x.currentStep >= |x.plan|))
  {
    var p := Prepared(s, goal, i.plan).value;
    if p.session.value.currentStep < |p.session.value.plan| {
      ChoiceEffect(o, p, p.session.value, i);
    }
  }

  // ------------------------------------------------------------------
  // An iteration of a run
  // ------------------------------------------------------------------

  /** The fields of the session an abort or a wait leaves alone. */
  predicate SamePlan(x: Session, y: Session) {
    y.goal == x.goal && y.plan == x.plan && y.currentStep == x.currentStep && y.replanCount == x.replanCount
  }

  /** The time budget is looked at first, and used up it aborts the session without a step. */
  lemma TimeBudgetEndsIff(o: Options, s: LoopState, goal: Option<string>, timed: bool, i: RunInputs)
    ensures var it := Iterate(o, s, goal, timed, i);
            && (it.Done? && it.reason == BudgetExceeded <==> timed && i.timeUp && s.session.Some?)
            && (timed && i.timeUp && s.session.None? ==> it == Failed(s))
            && (it.Done? && it.reason == BudgetExceeded ==>
                  && it.results == 0 && it.state == s.(session := it.state.session) && it.state.session.Some?
                  && var y := it.state.session.value;
                  && SamePlan(s.session.value, y)
                  && y.pending == NoAction && y.status == Aborted && y.lastError == ErrorText(false))
  {
  }

  /** Where an iteration goes after a step that is not validated: it raises with the step, breaks off when the
      step waits, aborts or completes, and goes on when the session is still active. */
  lemma UnvalidatedEndsIff(o: Options, r: StepResult, v: V.Result, newPlan: seq<string>)
    requires r.Stepped? ==> ReportsTruly(r) && !ShouldValidate(o, r.state)
    ensures var it := AfterStep(o, r, v, newPlan);
            && it.state == r.state
            && (it.Failed? <==> r.Raised?)
            && (r.Stepped? ==>
                  var status := r.state.session.value.status;
                  && it.results == 1
                  && (it.Next? <==> status == Active) && (it.Next? ==> !it.replanned)
                  && (it.Done? && it.reason == ApprovalRequired <==> status == WaitingForUser)
                  && (it.Done? && it.reason == CompletedReason <==> status == Completed)
                  && (it.Done? && it.reason == LoopStuckReason <==> status == Aborted))
  {
  }

  /** An abort that was not a stuck intent would be reported as plain `aborted`. */
  lemma AbortReasonTellsCause(s: LoopState, results: nat)
    requires s.session.Some? && s.session.value.status == Aborted
    ensures Concluded(s, false, results) ==
            Done(s, results, if s.session.value.lastError == ErrorText(true) then LoopStuckReason else AbortedReason)
  {
  }

  /** A new plan is made exactly under full-auto, after two repairs, fewer than twice before, and when the model
      offers one. */
  predicate Replans(o: Options, x: Session, v: V.Result, newPlan: seq<string>) {
    && v.status !in {V.Passed, V.RepairProposed}
    && o.fullAuto && v.repairIterations > 1 && x.replanCount <= 1 && |newPlan| > 0
  }

  predicate Fails(status: V.Status) {
    status in {V.RepairFailed, V.NoProgress, V.MaxRepairs}
  }

  /** And after one that is: a pass changes nothing, a repair waits for the user, and a failure is replanned or
      ends the run, aborted unless validation was only skipped. */
  lemma ValidatedEndsIff(o: Options, r: StepResult, v: V.Result, newPlan: seq<string>)
    requires r.Stepped? && r.state.session.Some? && ShouldValidate(o, r.state)
    ensures var it := AfterStep(o, r, v, newPlan);
            var x := r.state.session.value;
            && it.state.session.Some?
            && var y := it.state.session.value;
            && (v.status == V.Passed ==> it.results == 1 && y == x)
            && (v.status != V.Passed ==> it.results == 2)
            && (it.Next? && it.replanned <==> Replans(o, x, v, newPlan))
            && (it.Next? && it.replanned ==>
                  y.goal == x.goal && y.plan == newPlan && y.currentStep == 0 && y.replanCount == x.replanCount + 1 &&
                  y.status == Active && y.pending == NoAction && y.lastError == NoError)
            && (v.status == V.RepairProposed ==>
                  it.Done? && it.reason == ApprovalRequired && SamePlan(x, y) && y.status == WaitingForUser &&
                  y.pending == PatchAction(ValidationRepair) && y.lastError == NoError)
            && (it.Done? && it.reason.ValidationStopped? <==>
                v.status !in {V.Passed, V.RepairProposed} && !Replans(o, x, v, newPlan))
            && (it.Done? && it.reason.ValidationStopped? ==>
                  it.reason.status == v.status &&
                  if Fails(v.status) then
                    SamePlan(x, y) && y.status == Aborted && y.pending == NoAction && y.lastError == ErrorText(false)
                  else y == x)
  {
  }

  // ------------------------------------------------------------------
  // A run
  // ------------------------------------------------------------------

  /** Some iteration of the loop makes a new plan. */
  ghost predicate ReplansWithin(body: Body, s: LoopState, goal: Option<string>, k: nat, limit: nat)
    requires k <= limit
    decreases limit - k
  {
    k < limit && var it := body(s, goal, k);
    it.Next? && (it.replanned || ReplansWithin(body, it.state, None, k + 1, limit))
  }

  /** A loop that uses up its iterations reports a new plan exactly when one of them made one: the reason
      stays, whatever comes after. */
  lemma {:induction false} ReplannedIsSticky(body: Body, s: LoopState, goal: Option<string>, k: nat, limit: nat,
                                             reason: Reason)
    requires k <= limit && RanOut(reason)
    requires forall t: LoopState, g: Option<string>, j: nat :: body(t, g, j).Done? ==> !RanOut(body(t, g, j).reason)
    ensures var r := RunFrom(body, s, goal, k, limit, reason);
            r.RunEnded? && RanOut(r.reason) ==>
              (r.reason == Replanned <==> reason == Replanned || ReplansWithin(body, s, goal, k, limit))
    decreases limit - k
  {
    if k < limit {
      var it := body(s, goal, k);
      if it.Next? {
        ReplannedIsSticky(body, it.state, None, k + 1, limit, if it.replanned then Replanned else reason);
      }
    }
  }

  function GoalAt(goal: Option<string>, j: nat): Option<string> {
    if j == 0 then goal else None
  }

  /** Iteration `k + j` of the loop leads from one state to the next and goes on. Only the first of them is given
      the goal. */
  ghost predicate GoesOn(body: Body, states: seq<LoopState>, goal: Option<string>, k: nat, j: nat)
    requires j + 1 < |states|
  {
    var it := body(states[j], GoalAt(goal, j), k + j);
    it.Next? && it.state == states[j + 1]
  }

  ghost predicate IsTrace(body: Body, states: seq<LoopState>, goal: Option<string>, k: nat) {
    |states| > 0 && forall j: nat :: j + 1 < |states| ==> GoesOn(body, states, goal, k, j)
  }

  /** The results recorded by the iterations of a trace. */
  ghost function ResultsOf(body: Body, states: seq<LoopState>, goal: Option<string>, k: nat): nat {
    if |states| <= 1 then 0
    else
      var it := body(states[0], goal, k);
      (if it.Failed? then 0 else it.results) + ResultsOf(body, states[1..], None, k + 1)
  }

  /** The run stands at the end of the trace: at the limit, or with the iteration that did not go on. */
  ghost predicate EndsTrace(body: Body, states: seq<LoopState>, goal: Option<string>, k: nat, limit: nat, r: RunResult)
    requires |states| > 0
  {
    var n := |states| - 1;
    var results := ResultsOf(body, states, goal, k);
    if k + n >= limit then
      k + n == limit && r.RunEnded? && r.state == states[n] && r.iterations == n && r.results == results
    else
      match body(states[n], GoalAt(goal, n), k + n)
      case Failed(t) => r == RunRaised(t)
      case Done(t, m, reason) => r == RunEnded(t, reason, n + 1, results + m)
      case Next(_, _, _) => false
  }

  /** A run is the chain of its iterations: each starts where the one before it ended, up to the limit or to the
      first that breaks off or raises, whose state, reason and result are then the run's. */
  lemma {:induction false} RunFollowsTrace(body: Body, s: LoopState, goal: Option<string>, k: nat, limit: nat,
                                           reason: Reason) returns (states: seq<LoopState>)
    requires k <= limit
    ensures |states| > 0 && states[0] == s && IsTrace(body, states, goal, k)
    ensures EndsTrace(body, states, goal, k, limit, RunFrom(body, s, goal, k, limit, reason))
    decreases limit - k
  {
    states := [s];
    if k < limit {
      var it := body(s, goal, k);
      if it.Next? {
        var rest := RunFollowsTrace(body, it.state, None, k + 1, limit, if it.replanned then Replanned else reason);
        states := [s] + rest;
        assert states[1..] == rest;
        forall j: nat | j + 1 < |states| ensures GoesOn(body, states, goal, k, j) {
          if j > 0 {
            assert GoesOn(body, rest, None, k + 1, j - 1);
          }
        }
      }
    }
  }

  /** The loop makes as many iterations as both limits allow. */
  lemma StepBudgetIsSmaller(maxSteps: nat, budget: Option<nat>)
    ensures StepBudget(maxSteps, budget) <= maxSteps
    ensures budget.Some? ==> StepBudget(maxSteps, budget) <= budget.value
    ensures StepBudget(maxSteps, budget) == maxSteps || Some(StepBudget(maxSteps, budget)) == budget
  {
  }

  function LoopOf(o: Options, s: LoopState, c: RunCall): RunResult
    requires c.maxSteps >= 1
  {
    RunFrom(BodyOf(o, c.budget.Some?, c.world), s, WithMemory(c.memory, c.goal), 0, StepBudget(c.maxSteps, c.budget), MaxSteps)
  }

  /** A run raises without a positive step limit, or when its loop does or leaves no session. It asks for
      clarification exactly for an ambiguous goal that is named. A loop that uses up a task's step budget below
      the caller's limit, and only that, turns into a budget failure; otherwise the loop's end is the run's. */
  lemma RunEndsIff(o: Options, s: LoopState, c: RunCall)
    ensures var r := Run(o, s, c);
            && (c.maxSteps < 1 ==> r == RunRaised(s))
            && (c.maxSteps >= 1 && Named(c.goal) && !o.noClarify && c.ambiguous ==>
                  r.RunEnded? && r.reason == NeedsClarification && r.iterations == 0 && r.results == 1 &&
                  r.state == s.(session := r.state.session) && r.state.session.Some? &&
                  var y := r.state.session.value;
                  && y.status == WaitingForUser && y.pending == Clarification
                  && (s.session.Some? ==> SamePlan(s.session.value, y) && y.lastError == s.session.value.lastError)
                  && (s.session.None? ==> y.goal == c.goal.value && y.plan == c.clarifyPlan && y.currentStep == 0))
            && (c.maxSteps >= 1 && !(Named(c.goal) && !o.noClarify && c.ambiguous) ==>
                  var l := LoopOf(o, s, c);
                  && (r.RunRaised? <==> l.RunRaised? || l.state.session.None?)
                  && (r.RunEnded? ==>
                        if RanOut(l.reason) && c.budget.Some? && c.budget.value < c.maxSteps then
                          r.reason == BudgetExceeded && r.iterations == l.iterations && r.results == l.results &&
                          r.state == l.state.(session := r.state.session) && r.state.session.Some? &&
                          SamePlan(l.state.session.value, r.state.session.value) &&
                          r.state.session.value.status == Aborted && r.state.session.value.pending == NoAction
                        else r == l))
  {
  }

  /** What is remembered comes first and the goal last, with nothing of either lost. */
  lemma MemoryComesFirst(memory: string, goal: Option<string>)
    ensures memory == "" ==> WithMemory(memory, goal) == goal
    ensures memory != "" ==>
              && WithMemory(memory, goal).Some?
              && var whole := WithMemory(memory, goal).value;
              && memory <= whole
              && (Named(goal) ==> |whole| == |memory| + 2 + |goal.value| && whole[|memory| + 2..] == goal.value
                                  && whole[|memory|..|memory| + 2] == "\n\n")
              && (!Named(goal) ==> whole == memory)
  {
  }
}
