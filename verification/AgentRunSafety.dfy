/** What holds over every run of the agent loop and over every sequence of calls on one loop object. */
module AgentRunSafety {
  import opened Collections
  import opened AgentSteps
  import opened AgentEffects
  import opened AgentRuns
  import V = Validation

  // ------------------------------------------------------------------
  // Reasons and final states
  // ------------------------------------------------------------------

  predicate Running(s: LoopState) {
    s.session.Some? && s.session.value.status == Active
  }

  /** The state of the session that goes with each reason a run can report. */
  predicate ReasonMatches(reason: Reason, x: Session) {
    match reason
    case MaxSteps => x.status == Active
    case Replanned => x.status == Active
    case ApprovalRequired => x.status == WaitingForUser
    case NeedsClarification => x.status == WaitingForUser && x.pending == Clarification
    case CompletedReason => x.status == Completed
    case LoopStuckReason => x.status == Aborted && x.lastError == ErrorText(true)
    case AbortedReason => false
    case BudgetExceeded => x.status == Aborted && x.lastError == ErrorText(false)
    case ValidationStopped(v) =>
      if v == V.Skipped then x.status in {Active, Aborted}
      else v in {V.RepairFailed, V.NoProgress, V.MaxRepairs} && x.status == Aborted && x.lastError == ErrorText(false)
  }

  /** Only an executed write leaves the apply mark, and it keeps the session active; an abort keeps
      the mark of the step before. */
  predicate ApplyGoesOn(r: StepResult) {
    r.Stepped? && r.state.lastIsApply ==>
      !r.stopped && r.state.session.Some? && r.state.session.value.status in {Active, Aborted}
  }

  lemma PatchStepIsNoApply(o: Options, s: LoopState, x: Session, i: JsonInputs)
    ensures PatchStep(o, s, x, i).Stepped? ==> !PatchStep(o, s, x, i).state.lastIsApply
  {
  }

  lemma DispatchApplyGoesOn(o: Options, s: LoopState, x: Session, intent: RoutedIntent, i: JsonInputs)
    ensures ApplyGoesOn(DispatchIntent(o, s, x, intent, i))
  {
    PatchStepIsNoApply(o, s, x, i);
  }

  lemma ChoiceApplyGoesOn(o: Options, s: LoopState, x: Session, i: JsonInputs)
    ensures ApplyGoesOn(ChoiceStep(o, s, x, i))
  {
    if Answer(i).Intent? {
      var intent := Answer(i).routed;
      DispatchApplyGoesOn(o, Counted(s, intent.identity).(dispatched := s.dispatched + [intent.identity]), x, intent, i);
    }
  }

  lemma ReplyIsNoApply(o: Options, s: LoopState, x: Session, i: NativeInputs)
    ensures ReplyStep(o, s, x, i).Stepped? ==> !ReplyStep(o, s, x, i).state.lastIsApply
  {
  }

  lemma AdvanceApplyGoesOn(o: Options, s: LoopState, goal: Option<string>, json: JsonInputs, native: NativeInputs)
    ensures ApplyGoesOn(Advance(o, s, goal, json, native))
  {
    var prepared := Prepared(s, goal, if o.nativeTools then native.plan else json.plan);
    if prepared.Some? && prepared.value.session.Some? {
      ChoiceApplyGoesOn(o, prepared.value, prepared.value.session.value, json);
      ReplyIsNoApply(o, prepared.value, prepared.value.session.value, native);
    }
  }

  /** What an iteration reports fits the state it leaves. */
  predicate Reports(it: Iteration) {
    && (it.Next? ==> 1 <= it.results <= 2 && Running(it.state))
    && (it.Done? ==>
          it.results <= 2 && !RanOut(it.reason) && it.state.session.Some? && ReasonMatches(it.reason, it.state.session.value))
  }

  ghost predicate IterationSound(o: Options, it: Iteration) {
    Sound(o, it.state) && Reports(it)
  }

  lemma AdvanceSound(o: Options, s: LoopState, goal: Option<string>, json: JsonInputs, native: NativeInputs)
    requires Sound(o, s)
    ensures StepSound(o, s, Advance(o, s, goal, json, native))
    ensures json.hasTask && DispatchFollows(s) ==> DispatchFollows(Advance(o, s, goal, json, native).state)
  {
    if o.nativeTools {
      NativeStepSound(o, s, goal, native);
    } else {
      JsonStepSound(o, s, goal, json);
    }
  }

  lemma ConcludedSound(o: Options, t: LoopState, stopped: bool)
    requires Sound(o, t) && ReportsTruly(Stepped(t, stopped))
    ensures IterationSound(o, Concluded(t, stopped, 1))
  {
  }

  lemma AfterValidationSound(o: Options, t: LoopState, stopped: bool, v: V.Result, newPlan: seq<string>)
    requires Sound(o, t) && ReportsTruly(Stepped(t, stopped)) && !stopped
    requires t.session.value.status in {Active, Aborted}
    ensures IterationSound(o, AfterValidation(o, t, stopped, v, newPlan))
  {
    var after := Validated(o, t, v);
    assert Sound(o, after);
    if v.status == V.Passed {
      ConcludedSound(o, after, stopped);
    }
  }

  lemma AfterStepSound(o: Options, r: StepResult, v: V.Result, newPlan: seq<string>)
    requires Sound(o, r.state) && (r.Stepped? ==> ReportsTruly(r)) && ApplyGoesOn(r)
    ensures IterationSound(o, AfterStep(o, r, v, newPlan))
  {
    if r.Stepped? {
      if ShouldValidate(o, r.state) {
        AfterValidationSound(o, r.state, r.stopped, v, newPlan);
      } else {
        ConcludedSound(o, r.state, r.stopped);
      }
    }
  }

  /** Only steps touch the intent history. */
  lemma AfterStepKeepsIntents(o: Options, r: StepResult, v: V.Result, newPlan: seq<string>)
    ensures IntentsUnchanged(r.state, AfterStep(o, r, v, newPlan).state)
  {
  }

  lemma IterateSound(o: Options, s: LoopState, goal: Option<string>, timed: bool, i: RunInputs)
    requires Sound(o, s)
    ensures IterationSound(o, Iterate(o, s, goal, timed, i))
  {
    AdvanceSound(o, s, goal, i.json, i.native);
    AdvanceApplyGoesOn(o, s, goal, i.json, i.native);
    AfterStepSound(o, Advance(o, s, goal, i.json, i.native), i.validation, i.newPlan);
  }

  lemma IterateDispatch(o: Options, s: LoopState, goal: Option<string>, timed: bool, i: RunInputs)
    requires Sound(o, s) && i.json.hasTask && DispatchFollows(s)
    ensures DispatchFollows(Iterate(o, s, goal, timed, i).state)
  {
    AdvanceSound(o, s, goal, i.json, i.native);
    var r := Advance(o, s, goal, i.json, i.native);
    AfterStepKeepsIntents(o, r, i.validation, i.newPlan);
    var t := Iterate(o, s, goal, timed, i).state;
    SameIntentsSameDispatch(s, t);
    SameIntentsSameDispatch(r.state, t);
  }

  lemma SameIntentsSameDispatch(s: LoopState, t: LoopState)
    requires DispatchFollows(s)
    ensures IntentsUnchanged(s, t) ==> DispatchFollows(t)
  {
  }

  // ------------------------------------------------------------------
  // Runs
  // ------------------------------------------------------------------

  /** A run's counts are bounded and its reason fits the state it leaves; one that was not broken off
      used every iteration. */
  predicate RunReports(r: RunResult, limit: nat) {
    r.RunEnded? ==>
      && r.iterations <= limit && r.results <= 2 * r.iterations
      && r.state.session.Some? && ReasonMatches(r.reason, r.state.session.value)
      && (RanOut(r.reason) ==> r.iterations == limit)
  }

  ghost predicate TaskOpen(world: nat -> RunInputs) {
    forall k: nat :: world(k).json.hasTask
  }

  lemma ExtendedReports(rest: RunResult, results: nat, limit: nat)
    requires RunReports(rest, limit) && results <= 2
    ensures RunReports(Extended(rest, results), limit + 1)
  {
  }

  ghost predicate BodySound(o: Options, body: Body) {
    forall s: LoopState, goal: Option<string>, k: nat :: Sound(o, s) ==> IterationSound(o, body(s, goal, k))
  }

  ghost predicate BodyDispatches(o: Options, body: Body) {
    forall s: LoopState, goal: Option<string>, k: nat ::
      Sound(o, s) && DispatchFollows(s) ==> DispatchFollows(body(s, goal, k).state)
  }

  lemma BodyOfIsSound(o: Options, timed: bool, world: nat -> RunInputs)
    ensures BodySound(o, BodyOf(o, timed, world))
    ensures TaskOpen(world) ==> BodyDispatches(o, BodyOf(o, timed, world))
  {
    var body := BodyOf(o, timed, world);
    forall s: LoopState, goal: Option<string>, k: nat | Sound(o, s)
      ensures IterationSound(o, body(s, goal, k))
      ensures TaskOpen(world) && DispatchFollows(s) ==> DispatchFollows(body(s, goal, k).state)
    {
      IterateSound(o, s, goal, timed, world(k));
      if TaskOpen(world) && DispatchFollows(s) {
        IterateDispatch(o, s, goal, timed, world(k));
      }
    }
  }

  lemma {:induction false} RunFromReports(o: Options, body: Body, s: LoopState, goal: Option<string>, k: nat,
                                          limit: nat, reason: Reason)
    requires BodySound(o, body) && Sound(o, s) && k <= limit && RanOut(reason)
    requires k < limit || Running(s)
    ensures RunReports(RunFrom(body, s, goal, k, limit, reason), limit - k)
    decreases limit - k
  {
    if k < limit {
      var it := body(s, goal, k);
      assert IterationSound(o, it);
      if it.Next? {
        var next := if it.replanned then Replanned else reason;
        RunFromReports(o, body, it.state, None, k + 1, limit, next);
        ExtendedReports(RunFrom(body, it.state, None, k + 1, limit, next), it.results, limit - k - 1);
      }
    }
  }

  /** What the body keeps, a run keeps. */
  lemma {:induction false} RunFromKeeps(inv: LoopState -> bool, body: Body, s: LoopState, goal: Option<string>, k: nat,
                                        limit: nat, reason: Reason)
    requires forall t: LoopState, g: Option<string>, j: nat :: inv(t) ==> inv(body(t, g, j).state)
    requires inv(s) && k <= limit
    ensures inv(RunFrom(body, s, goal, k, limit, reason).state)
    decreases limit - k
  {
    if k < limit {
      var it := body(s, goal, k);
      assert inv(it.state);
      if it.Next? {
        RunFromKeeps(inv, body, it.state, None, k + 1, limit, if it.replanned then Replanned else reason);
      }
    }
  }

  /** The state in which the loop of a run ends; a run that does not get to its loop ends it at once. */
  function LoopEnd(o: Options, s: LoopState, c: RunCall): LoopState {
    if c.maxSteps < 1 || Clarifies(o, c) then s
    else
      RunFrom(BodyOf(o, c.budget.Some?, c.world), s, WithMemory(c.memory, c.goal), 0,
              StepBudget(c.maxSteps, c.budget), MaxSteps).state
  }

  /** Outside its loop a run changes nothing but the session. */
  lemma LoopEndFrames(o: Options, s: LoopState, c: RunCall)
    ensures Run(o, s, c).state == LoopEnd(o, s, c).(session := Run(o, s, c).state.session)
  {
  }

  lemma LoopEndKeeps(inv: LoopState -> bool, o: Options, s: LoopState, c: RunCall)
    requires forall t: LoopState, g: Option<string>, j: nat ::
               inv(t) ==> inv(BodyOf(o, c.budget.Some?, c.world)(t, g, j).state)
    requires inv(s)
    ensures inv(LoopEnd(o, s, c))
  {
    if c.maxSteps >= 1 && !Clarifies(o, c) {
      RunFromKeeps(inv, BodyOf(o, c.budget.Some?, c.world), s, WithMemory(c.memory, c.goal), 0,
                   StepBudget(c.maxSteps, c.budget), MaxSteps);
    }
  }

  lemma RunFromSound(o: Options, body: Body, s: LoopState, goal: Option<string>, limit: nat)
    requires BodySound(o, body) && Sound(o, s)
    ensures Sound(o, RunFrom(body, s, goal, 0, limit, MaxSteps).state)
  {
    var inv := (t: LoopState) => Sound(o, t);
    forall t: LoopState, g: Option<string>, j: nat | inv(t) ensures inv(body(t, g, j).state) {
      assert IterationSound(o, body(t, g, j));
    }
    RunFromKeeps(inv, body, s, goal, 0, limit, MaxSteps);
  }

  /** While a task is open, no run dispatches an intent three times in a row. */
  lemma RunFromDispatch(o: Options, body: Body, s: LoopState, goal: Option<string>, limit: nat)
    requires BodySound(o, body) && BodyDispatches(o, body) && Sound(o, s) && DispatchFollows(s)
    ensures DispatchFollows(RunFrom(body, s, goal, 0, limit, MaxSteps).state)
  {
    var inv := (t: LoopState) => Sound(o, t) && DispatchFollows(t);
    forall t: LoopState, g: Option<string>, j: nat | inv(t) ensures inv(body(t, g, j).state) {
      assert IterationSound(o, body(t, g, j));
    }
    RunFromKeeps(inv, body, s, goal, 0, limit, MaxSteps);
  }

  lemma BudgetFailureSound(o: Options, s: LoopState)
    requires Sound(o, s) && s.session.Some?
    ensures Sound(o, BudgetFailure(s))
    ensures DispatchFollows(s) ==> DispatchFollows(BudgetFailure(s))
    ensures ReasonMatches(BudgetExceeded, BudgetFailure(s).session.value)
  {
  }

  lemma ClarifyingSound(o: Options, s: LoopState, goal: string, plan: seq<string>)
    requires Sound(o, s)
    ensures Sound(o, Clarifying(s, goal, plan))
    ensures DispatchFollows(s) ==> DispatchFollows(Clarifying(s, goal, plan))
    ensures ReasonMatches(NeedsClarification, Clarifying(s, goal, plan).session.value)
  {
  }

  /** Every run keeps the invariant, makes at most the smaller of the two step limits iterations,
      records at most two results per iteration, and reports a reason that fits the stored session. */
  lemma RunIsSound(o: Options, s: LoopState, c: RunCall)
    requires Sound(o, s)
    ensures var r := Run(o, s, c);
            && Sound(o, r.state)
            && (r.RunEnded? ==>
                  && c.maxSteps >= 1 && r.state.session.Some? && ReasonMatches(r.reason, r.state.session.value)
                  && r.iterations <= StepBudget(c.maxSteps, c.budget)
                  && (r.results <= 2 * r.iterations || (r.reason == NeedsClarification && r.results == 1)))
  {
    if c.maxSteps >= 1 {
      if Clarifies(o, c) {
        ClarifyingSound(o, s, c.goal.value, c.clarifyPlan);
      } else {
        var limit := StepBudget(c.maxSteps, c.budget);
        var body, goal := BodyOf(o, c.budget.Some?, c.world), WithMemory(c.memory, c.goal);
        var r := RunFrom(body, s, goal, 0, limit, MaxSteps);
        BodyOfIsSound(o, c.budget.Some?, c.world);
        RunFromSound(o, body, s, goal, limit);
        if limit > 0 {
          RunFromReports(o, body, s, goal, 0, limit, MaxSteps);
        }
        if r.state.session.Some? {
          BudgetFailureSound(o, r.state);
        }
      }
    }
  }

  lemma RunKeepsDispatch(o: Options, s: LoopState, c: RunCall)
    requires Sound(o, s) && TaskOpen(c.world) && DispatchFollows(s)
    ensures DispatchFollows(Run(o, s, c).state)
  {
    var t := Run(o, s, c).state;
    if c.maxSteps < 1 || Clarifies(o, c) {
      SameIntentsSameDispatch(s, t);
    } else {
      var body, goal, limit := BodyOf(o, c.budget.Some?, c.world), WithMemory(c.memory, c.goal), StepBudget(c.maxSteps, c.budget);
      BodyOfIsSound(o, c.budget.Some?, c.world);
      RunFromDispatch(o, body, s, goal, limit);
      SameIntentsSameDispatch(RunFrom(body, s, goal, 0, limit, MaxSteps).state, t);
    }
  }

  /** The final status and the reason determine each other, and no run reports plain `aborted`. */
  lemma ReasonTellsStatus(o: Options, s: LoopState, c: RunCall)
    requires Sound(o, s) && Run(o, s, c).RunEnded?
    ensures var r := Run(o, s, c);
            var x := r.state.session.value;
            && (x.status == Completed <==> r.reason == CompletedReason)
            && (x.status == WaitingForUser <==> r.reason in {ApprovalRequired, NeedsClarification})
            && (x.status == Aborted ==> r.reason in {LoopStuckReason, BudgetExceeded} || r.reason.ValidationStopped?)
            && (r.reason in {LoopStuckReason, BudgetExceeded} ==> x.status == Aborted)
            && (RanOut(r.reason) ==> x.status == Active)
            && r.reason != AbortedReason && x.status != Other
  {
    RunIsSound(o, s, c);
  }

  /** A run that uses up its steps is still active, so the step-budget failure never replaces a
      completed, waiting or stuck session. */
  lemma StepBudgetFailsOnlyActive(o: Options, s: LoopState, c: RunCall)
    requires Sound(o, s) && c.maxSteps >= 1 && !Clarifies(o, c)
    requires c.budget.Some? ==> c.budget.value >= 1
    ensures var limit := StepBudget(c.maxSteps, c.budget);
            var r := RunFrom(BodyOf(o, c.budget.Some?, c.world), s, WithMemory(c.memory, c.goal), 0, limit, MaxSteps);
            r.RunEnded? && Run(o, s, c) != r ==>
              Running(r.state) && r.iterations == limit && Run(o, s, c).reason == BudgetExceeded
  {
    var limit := StepBudget(c.maxSteps, c.budget);
    BodyOfIsSound(o, c.budget.Some?, c.world);
    RunFromReports(o, BodyOf(o, c.budget.Some?, c.world), s, WithMemory(c.memory, c.goal), 0, limit, MaxSteps);
  }

  // ------------------------------------------------------------------
  // Progress
  // ------------------------------------------------------------------

  function Left(x: Session): nat {
    if x.currentStep >= |x.plan| then 0 else |x.plan| - x.currentStep
  }

  predicate NoReplan(o: Options, world: nat -> RunInputs, k: nat) {
    o.fullAuto ==> world(k).validation.repairIterations < 2
  }

  ghost predicate NeverReplans(o: Options, world: nat -> RunInputs) {
    forall k: nat :: NoReplan(o, world, k)
  }

  /** A JSON step moves at most one position, and completes only a finished plan. */
  lemma JsonStepMovesOne(o: Options, s: LoopState, goal: Option<string>, i: JsonInputs)
    requires JsonStep(o, s, goal, i).Stepped?
    ensures Prepared(s, goal, i.plan).Some? && Prepared(s, goal, i.plan).value.session.Some?
    ensures JsonStep(o, s, goal, i).state.session.Some?
    ensures var x := Prepared(s, goal, i.plan).value.session.value;
            var y := JsonStep(o, s, goal, i).state.session.value;
            && y.plan == x.plan && Left(x) <= Left(y) + 1
            && (y.status == Completed <==> Left(x) == 0)
  {
    var prepared := Prepared(s, goal, i.plan);
    if prepared.value.session.value.currentStep < |prepared.value.session.value.plan| {
      ChoiceEffect(o, prepared.value, prepared.value.session.value, i);
    }
  }

  lemma IterationMovesOne(o: Options, s: LoopState, goal: Option<string>, timed: bool, i: RunInputs)
    requires !o.nativeTools && !(o.fullAuto && i.validation.repairIterations >= 2)
    ensures MovesOneAt(Iterate(o, s, goal, timed, i), Prepared(s, goal, i.json.plan))
  {
    if JsonStep(o, s, goal, i.json).Stepped? {
      JsonStepMovesOne(o, s, goal, i.json);
    }
  }

  /** A body in which every iteration moves at most one position and completion needs a finished plan;
      `plans(k)` is what iteration `k` is offered as a plan. */
  ghost predicate MovesOne(body: Body, plans: nat -> seq<string>) {
    forall s: LoopState, goal: Option<string>, k: nat :: MovesOneAt(body(s, goal, k), Prepared(s, goal, plans(k)))
  }

  predicate MovesOneAt(it: Iteration, prepared: Option<LoopState>) {
    it.Next? || (it.Done? && it.reason == CompletedReason) ==>
      && prepared.Some? && prepared.value.session.Some?
      && var x := prepared.value.session.value;
      && (it.Done? ==> Left(x) == 0)
      && (it.Next? ==>
            && it.state.session.Some? && it.state.session.value.plan == x.plan != []
            && Left(x) <= Left(it.state.session.value) + 1)
  }

  lemma BodyOfMovesOne(o: Options, timed: bool, world: nat -> RunInputs)
    requires !o.nativeTools && NeverReplans(o, world)
    ensures MovesOne(BodyOf(o, timed, world), PlansOf(world))
  {
    forall s: LoopState, goal: Option<string>, k: nat
      ensures MovesOneAt(BodyOf(o, timed, world)(s, goal, k), Prepared(s, goal, PlansOf(world)(k)))
    {
      assert NoReplan(o, world, k);
      IterationMovesOne(o, s, goal, timed, world(k));
    }
  }

  function PlansOf(world: nat -> RunInputs): nat -> seq<string> {
    (k: nat) => world(k).json.plan
  }

  /** A JSON run without a new plan completes only after one iteration for every step left and one
      more to notice. */
  lemma {:induction false} CompletionTakesAllSteps(
    body: Body, plans: nat -> seq<string>, s: LoopState, goal: Option<string>, k: nat, limit: nat, reason: Reason)
    requires k <= limit && RanOut(reason) && MovesOne(body, plans)
    requires var r := RunFrom(body, s, goal, k, limit, reason); r.RunEnded? && r.reason == CompletedReason
    ensures Prepared(s, goal, plans(k)).Some? && Prepared(s, goal, plans(k)).value.session.Some?
    ensures RunFrom(body, s, goal, k, limit, reason).iterations >=
            Left(Prepared(s, goal, plans(k)).value.session.value) + 1
    decreases limit - k
  {
    var it := body(s, goal, k);
    assert MovesOneAt(it, Prepared(s, goal, plans(k)));
    if it.Next? {
      CompletionTakesAllSteps(body, plans, it.state, None, k + 1, limit, if it.replanned then Replanned else reason);
    }
  }
}
