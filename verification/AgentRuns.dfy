/** Whole runs of the agent loop, and sequences of runs and single steps. */
module AgentRuns {
  import opened Collections
  import opened AgentSteps
  import V = Validation

  // ------------------------------------------------------------------
  // One iteration
  // ------------------------------------------------------------------

  /** Everything an iteration may observe; only the inputs of the protocol in use are read. */
  datatype RunInputs = RunInputs(
    timeUp: bool,
    json: JsonInputs,
    native: NativeInputs,
    validation: V.Result,
    newPlan: seq<string>)

  datatype Reason =
    | MaxSteps
    | ApprovalRequired
    | LoopStuckReason
    | AbortedReason
    | CompletedReason
    | BudgetExceeded
    | Replanned
    | ValidationStopped(status: V.Status)
    | NeedsClarification

  /** `Next` goes on with the loop, `Done` breaks out of it, `Failed` raises; results are counted. */
  datatype Iteration =
    | Next(state: LoopState, results: nat, replanned: bool)
    | Done(state: LoopState, results: nat, reason: Reason)
    | Failed(state: LoopState)

  function BudgetFailure(s: LoopState): LoopState
    requires s.session.Some?
  {
    s.(session := Some(s.session.value.(pending := NoAction, status := Aborted, lastError := ErrorText(false))))
  }

  /** One step of the protocol the model client supports. */
  function Advance(o: Options, s: LoopState, goal: Option<string>, json: JsonInputs, native: NativeInputs): StepResult {
    if o.nativeTools then NativeStep(o, s, goal, native) else JsonStep(o, s, goal, json)
  }

  /** The classification read here is the last one made: a stuck abort leaves the one before it. */
  predicate ShouldValidate(o: Options, s: LoopState) {
    !o.noValidate && s.lastIsApply
  }

  function ValidatedSession(x: Session, status: V.Status): Session {
    match status
    case RepairProposed =>
      x.(pending := PatchAction(ValidationRepair), status := WaitingForUser, lastError := NoError)
    case RepairFailed => x.(pending := NoAction, status := Aborted, lastError := ErrorText(false))
    case NoProgress => x.(pending := NoAction, status := Aborted, lastError := ErrorText(false))
    case MaxRepairs => x.(pending := NoAction, status := Aborted, lastError := ErrorText(false))
    case Skipped => x
    case Passed => x
  }

  /** A repair proposal goes to the project's pending-patch file, whatever is in it. */
  function Validated(o: Options, s: LoopState, v: V.Result): LoopState
    requires s.session.Some?
  {
    var landed := o.sharedPatchPath && v.saved.Some?;
    s.(session := Some(ValidatedSession(s.session.value, v.status)),
       pendingPatch := if landed then v.saved else s.pendingPatch,
       repairs := if landed then s.repairs + [v.saved.value] else s.repairs)
  }

  const MAX_REPLANS: nat := 2

  predicate CanReplan(o: Options, x: Session, v: V.Result, newPlan: seq<string>) {
    o.fullAuto && v.repairIterations >= 2 && x.replanCount < MAX_REPLANS && newPlan != []
  }

  function ReplannedState(s: LoopState, newPlan: seq<string>): LoopState
    requires s.session.Some?
  {
    var x := s.session.value;
    s.(session := Some(x.(plan := newPlan, currentStep := 0, pending := NoAction, status := Active,
                          lastError := NoError, replanCount := x.replanCount + 1)))
  }

  /** What the loop does with a step's outcome once validation, if any, has let it through. */
  function Concluded(s: LoopState, stopped: bool, results: nat): Iteration
    requires s.session.Some?
  {
    var x := s.session.value;
    if stopped then Done(s, results, ApprovalRequired)
    else if x.status == Aborted then
      Done(s, results, if x.lastError == ErrorText(true) then LoopStuckReason else AbortedReason)
    else if x.status == Completed then Done(s, results, CompletedReason)
    else Next(s, results, false)
  }

  function AfterValidation(o: Options, s: LoopState, stopped: bool, v: V.Result, newPlan: seq<string>): Iteration
    requires s.session.Some?
  {
    var after := Validated(o, s, v);
    if v.status == V.Passed then Concluded(after, stopped, 1)
    else if v.status == V.RepairProposed then Done(after, 2, ApprovalRequired)
    else if CanReplan(o, after.session.value, v, newPlan) then Next(ReplannedState(after, newPlan), 2, true)
    else Done(after, 2, ValidationStopped(v.status))
  }

  function AfterStep(o: Options, r: StepResult, v: V.Result, newPlan: seq<string>): Iteration {
    if r.Raised? || r.state.session.None? then Failed(r.state)
    else if ShouldValidate(o, r.state) then AfterValidation(o, r.state, r.stopped, v, newPlan)
    else Concluded(r.state, r.stopped, 1)
  }

  function Iterate(o: Options, s: LoopState, goal: Option<string>, timed: bool, i: RunInputs): Iteration {
    if timed && i.timeUp then
      if s.session.None? then Failed(s) else Done(BudgetFailure(s), 0, BudgetExceeded)
    else
      AfterStep(o, Advance(o, s, goal, i.json, i.native), i.validation, i.newPlan)
  }

  // ------------------------------------------------------------------
  // A run
  // ------------------------------------------------------------------

  datatype RunResult =
    | RunRaised(state: LoopState)
    | RunEnded(state: LoopState, reason: Reason, iterations: nat, results: nat)

  /** The body of a run's loop: what iteration `k` does to a state, when it observes `world(k)`. */
  type Body = (LoopState, Option<string>, nat) -> Iteration

  function BodyOf(o: Options, timed: bool, world: nat -> RunInputs): Body {
    (s: LoopState, goal: Option<string>, k: nat) => Iterate(o, s, goal, timed, world(k))
  }

  /** The loop from iteration `k` of `limit`; only the first iteration sees the goal. */
  function RunFrom(body: Body, s: LoopState, goal: Option<string>, k: nat, limit: nat, reason: Reason): RunResult
    requires k <= limit
    decreases limit - k
  {
    if k == limit then RunEnded(s, reason, 0, 0)
    else
      match body(s, goal, k)
      case Failed(t) => RunRaised(t)
      case Done(t, n, why) => RunEnded(t, why, 1, n)
      case Next(t, n, replanned) =>
        Extended(RunFrom(body, t, None, k + 1, limit, if replanned then Replanned else reason), n)
  }

  function Extended(rest: RunResult, results: nat): RunResult {
    match rest
    case RunRaised(_) => rest
    case RunEnded(t, reason, iterations, n) => RunEnded(t, reason, 1 + iterations, results + n)
  }

  predicate RanOut(reason: Reason) {
    reason in {MaxSteps, Replanned}
  }

  function StepBudget(maxSteps: nat, budget: Option<nat>): nat {
    if budget.Some? && budget.value < maxSteps then budget.value else maxSteps
  }

  /** Remembered context is put before the goal, and stands in for a missing one. */
  function WithMemory(memory: string, goal: Option<string>): Option<string> {
    if memory == "" then goal
    else if goal.Some? && goal.value != "" then Some(memory + "\n\n" + goal.value)
    else Some(memory)
  }

  function Clarifying(s: LoopState, goal: string, plan: seq<string>): LoopState {
    var x := if s.session.Some? then s.session.value else NewSession(goal, plan);
    s.(session := Some(x.(pending := Clarification, status := WaitingForUser)))
  }

  /** What a run is called with and what it reads before its loop. `ambiguous` is the verdict of the
      clarification check, and `budget` the open task's step budget. */
  datatype RunCall = RunCall(
    goal: Option<string>,
    maxSteps: int,
    ambiguous: bool,
    clarifyPlan: seq<string>,
    memory: string,
    budget: Option<nat>,
    world: nat -> RunInputs)

  predicate Clarifies(o: Options, c: RunCall) {
    c.goal.Some? && c.goal.value != "" && !o.noClarify && c.ambiguous
  }

  function Run(o: Options, s: LoopState, c: RunCall): RunResult {
    if c.maxSteps < 1 then RunRaised(s)
    else if Clarifies(o, c) then
      RunEnded(Clarifying(s, c.goal.value, c.clarifyPlan), NeedsClarification, 0, 1)
    else
      var limit := StepBudget(c.maxSteps, c.budget);
      var r := RunFrom(BodyOf(o, c.budget.Some?, c.world), s, WithMemory(c.memory, c.goal), 0, limit, MaxSteps);
      if r.RunRaised? || r.state.session.None? then RunRaised(r.state)
      else if RanOut(r.reason) && limit < c.maxSteps then
        r.(state := BudgetFailure(r.state), reason := BudgetExceeded)
      else r
  }
}
