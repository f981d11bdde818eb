/** The agent loop's state and its single-step transitions under both protocols. */
module AgentSteps {
  import opened Collections
  import Tiers = ApprovalTier
  import Config

  // ------------------------------------------------------------------
  // State
  // ------------------------------------------------------------------

  /** `Other` covers the statuses that only other commands write. */
  datatype Status = Active | WaitingForUser | Completed | Aborted | Other

  /** The last error, of which only one textual fact is ever read. */
  datatype ErrorNote = NoError | ErrorText(mentionsLoopStuck: bool)

  datatype PatchReason = AlreadyPending | ProposalFailed | AutoApplied | AwaitingApproval | ValidationRepair

  datatype PendingAction =
    | NoAction
    | StopForUser(requiresApproval: bool)
    | PatchAction(reason: PatchReason)
    | McpCall
    | McpApprovedWrite
    | SubagentDispatch
    | ToolProposal
    | CommandProposal
    | NativeTurn
    | Clarification

  datatype Session = Session(
    goal: string,
    plan: seq<string>,
    currentStep: nat,
    pending: PendingAction,
    status: Status,
    lastError: ErrorNote,
    replanCount: nat)

  type Proposal = seq<Tiers.Block>

  datatype Identity = Identity(kind: string, target: string, toolName: string, description: string)

  /** The loop object together with the stored session and the pending-patch file. The last six
      fields only record what happened: intents routed, intents dispatched, patches written to the
      tree, native tools dispatched, the tools of turns that raised, and the repair patches that went
      to the pending-patch file. */
  datatype LoopState = LoopState(
    session: Option<Session>,
    lastIdentity: Option<Identity>,
    intentCount: nat,
    lastIsApply: bool,
    nativeWrites: nat,
    pendingPatch: Option<Proposal>,
    routed: seq<Identity>,
    dispatched: seq<Identity>,
    applied: seq<Proposal>,
    toolCalls: seq<string>,
    lostTurns: seq<seq<string>>,
    repairs: seq<Proposal>)

  /** The fixed options of a loop object. `sharedPatchPath` says that repair patches, which always go
      to the project's default file, land in this loop's own pending-patch file. */
  datatype Options = Options(
    nativeTools: bool,
    autoEdit: bool,
    fullAuto: bool,
    noValidate: bool,
    noClarify: bool,
    sharedPatchPath: bool,
    approval: Config.ApprovalConfig,
    logic: Tiers.LogicPattern)

  datatype StepResult = Raised(state: LoopState) | Stepped(state: LoopState, stopped: bool)

  // ------------------------------------------------------------------
  // What a step observes
  // ------------------------------------------------------------------

  datatype Route = McpReadonly | SubagentRoute | McpPropose | PatchPropose | OtherRoute

  datatype RoutedIntent = RoutedIntent(identity: Identity, route: Route, executableNow: bool)

  /** `Unsupported` is any answer that makes the step raise. */
  datatype ToolChoice = ContractFailure | Stop(requiresApproval: bool) | Intent(routed: RoutedIntent) | Unsupported

  /** An interruption by the user is not caught, unlike a failure. */
  datatype EditOutcome =
    | Edited(proposal: Proposal)
    | EditFailed(saved: Option<Proposal>)
    | EditInterrupted(saved: Option<Proposal>)

  /** Applying may raise, or be interrupted, before or after the files are written. */
  datatype ApplyOutcome =
    | AppliedCleanly
    | NotApplied
    | AppliedThenRaised(pendingRemoved: bool)
    | ApplyInterrupted(written: bool, pendingRemoved: bool)

  /** `interrupted` says that the dispatch of an intent is interrupted before the session is saved; the
      patch route has its own places for that. */
  datatype JsonInputs = JsonInputs(
    plan: seq<string>,
    first: ToolChoice,
    second: ToolChoice,
    hasTask: bool,
    writeApproved: bool,
    error: ErrorNote,
    edit: EditOutcome,
    apply: ApplyOutcome,
    interrupted: bool)

  /** A reply under the native protocol; calls are known by their tool names. `NativeRaised` is a model
      call that raises or is interrupted. */
  datatype NativeReply =
    | NativeFailure
    | NativeStop(requiresApproval: bool)
    | NativeCalls(calls: seq<string>)
    | NativeRaised

  /** `interrupt` is the number of tools of the turn that had been dispatched when the user broke it
      off in the middle of a batch, if that happened. */
  datatype NativeInputs = NativeInputs(
    plan: seq<string>,
    first: NativeReply,
    second: NativeReply,
    later: seq<NativeReply>,
    interrupt: Option<nat>,
    commandHasSecret: bool,
    error: ErrorNote)

  // ------------------------------------------------------------------
  // Session preparation
  // ------------------------------------------------------------------

  function NewSession(goal: string, plan: seq<string>): Session {
    Session(goal, plan, 0, NoAction, Active, NoError, 0)
  }

  /** A missing session or a different goal starts a planned session; an empty plan is filled in. */
  function Prepared(s: LoopState, goal: Option<string>, plan: seq<string>): Option<LoopState> {
    var named := goal.Some? && goal.value != "";
    match s.session
    case None => if named then Some(s.(session := Some(NewSession(goal.value, plan)))) else None
    case Some(x) =>
      if named && goal.value != x.goal then Some(s.(session := Some(NewSession(goal.value, plan))))
      else if x.plan == [] then Some(s.(session := Some(x.(plan := plan, currentStep := 0))))
      else Some(s)
  }

  /** Saves the session and caches the step's classification: only an executed, approved MCP write
      counts as an apply step. */
  function Saved(s: LoopState, x: Session): LoopState {
    s.(session := Some(x), lastIsApply := x.pending == McpApprovedWrite)
  }

  function PlanFinished(s: LoopState, x: Session): LoopState {
    Saved(s, x.(status := Completed, pending := NoAction))
  }

  function Advanced(x: Session, pending: PendingAction, status: Status, error: ErrorNote): Session {
    x.(currentStep := x.currentStep + 1, pending := pending, status := status, lastError := error)
  }

  // ------------------------------------------------------------------
  // JSON protocol
  // ------------------------------------------------------------------

  /** The stuck counter, updated before anything else is decided about an intent. */
  function Counted(s: LoopState, identity: Identity): LoopState {
    var same := s.lastIdentity == Some(identity);
    s.(lastIdentity := Some(identity),
       intentCount := if same then s.intentCount + 1 else 1,
       routed := s.routed + [identity])
  }

  const STUCK_LIMIT: nat := 3

  /** An abort is saved without being classified. */
  function StuckAbort(s: LoopState, x: Session): LoopState {
    s.(session := Some(x.(pending := NoAction, status := Aborted, lastError := ErrorText(true))))
  }

  function AwaitApproval(s: LoopState, x: Session): StepResult {
    Stepped(Saved(s, Advanced(x, PatchAction(AwaitingApproval), WaitingForUser, NoError)), true)
  }

  function PatchStep(o: Options, s: LoopState, x: Session, i: JsonInputs): StepResult {
    if s.pendingPatch.Some? then
      Stepped(Saved(s, x.(pending := PatchAction(AlreadyPending), status := WaitingForUser,
                          lastError := ErrorText(false))), true)
    else
      match i.edit
      case EditFailed(saved) =>
        Stepped(Saved(s.(pendingPatch := saved),
                      x.(pending := PatchAction(ProposalFailed), status := Active, lastError := i.error)), false)
      case EditInterrupted(saved) => Raised(s.(pendingPatch := saved))
      case Edited(proposal) =>
        var proposed := s.(pendingPatch := Some(proposal));
        var tier := Tiers.Classify(proposal, o.approval, o.logic);
        if !Tiers.AppliesUnattended(tier, o.autoEdit, o.fullAuto) then AwaitApproval(proposed, x)
        else
          match i.apply
          case NotApplied => AwaitApproval(proposed, x)
          case AppliedThenRaised(removed) =>
            AwaitApproval(s.(pendingPatch := if removed then None else Some(proposal),
                             applied := s.applied + [proposal]), x)
          case ApplyInterrupted(written, removed) =>
            Raised(s.(pendingPatch := if written && removed then None else Some(proposal),
                      applied := if written then s.applied + [proposal] else s.applied))
          case AppliedCleanly =>
            Stepped(Saved(s.(pendingPatch := None, applied := s.applied + [proposal]),
                          Advanced(x, PatchAction(AutoApplied), Active, NoError)), false)
  }

  predicate ApprovedWrite(intent: RoutedIntent, i: JsonInputs) {
    intent.route == McpPropose && !intent.executableNow && i.writeApproved
  }

  /** The session after an intent that is not a patch has been dispatched. */
  function DispatchedSession(x: Session, intent: RoutedIntent, i: JsonInputs): Session {
    if intent.executableNow && intent.route == McpReadonly then Advanced(x, McpCall, Active, i.error)
    else if intent.executableNow && intent.route == SubagentRoute then Advanced(x, SubagentDispatch, Active, i.error)
    else if ApprovedWrite(intent, i) then Advanced(x, McpApprovedWrite, Active, i.error)
    else Advanced(x, ToolProposal, Active, NoError)
  }

  predicate IsPatchIntent(intent: RoutedIntent) {
    intent.route == PatchPropose && !intent.executableNow
  }

  function DispatchIntent(o: Options, s: LoopState, x: Session, intent: RoutedIntent, i: JsonInputs): StepResult {
    if IsPatchIntent(intent) then PatchStep(o, s, x, i)
    else if i.interrupted then Raised(s)
    else Stepped(Saved(s, DispatchedSession(x, intent, i)), false)
  }

  /** The third identical intent in a row, with a task open. */
  predicate Stuck(s: LoopState, intent: RoutedIntent, i: JsonInputs) {
    Counted(s, intent.identity).intentCount >= STUCK_LIMIT && i.hasTask
  }

  function IntentStep(o: Options, s: LoopState, x: Session, intent: RoutedIntent, i: JsonInputs): StepResult {
    var counted := Counted(s, intent.identity);
    if Stuck(s, intent, i) then Stepped(StuckAbort(counted, x), false)
    else DispatchIntent(o, counted.(dispatched := s.dispatched + [intent.identity]), x, intent, i)
  }

  /** The answer a JSON step acts on: the first, or the second after a contract failure. */
  function Answer(i: JsonInputs): ToolChoice {
    if i.first == ContractFailure then i.second else i.first
  }

  function ChoiceStep(o: Options, s: LoopState, x: Session, i: JsonInputs): StepResult {
    match Answer(i)
    case ContractFailure =>
      Stepped(Saved(s, x.(pending := NoAction, status := Active, lastError := i.error)), false)
    case Stop(requiresApproval) =>
      Stepped(Saved(s, x.(pending := StopForUser(requiresApproval), status := WaitingForUser,
                          lastError := NoError)), true)
    case Unsupported => Raised(s)
    case Intent(intent) => IntentStep(o, s, x, intent, i)
  }

  function JsonStep(o: Options, s: LoopState, goal: Option<string>, i: JsonInputs): StepResult {
    var prepared := Prepared(s, goal, i.plan);
    if prepared.None? || prepared.value.session.None? then Raised(s)
    else
      var p, x := prepared.value, prepared.value.session.value;
      if x.currentStep >= |x.plan| then Stepped(PlanFinished(p, x), false)
      else ChoiceStep(o, p, x, i)
  }

  // ------------------------------------------------------------------
  // Native protocol
  // ------------------------------------------------------------------

  const MAX_TURN_TOOLS: nat := 20
  const FILE_GUARD: nat := 10

  /** How a turn ended: `FinalStop` is a closing answer of the model. */
  datatype TurnEnd = TurnDone | CapHit | FinalStop(requiresApproval: bool) | TurnRaised

  datatype TurnResult = TurnResult(calls: seq<string>, end: TurnEnd)

  predicate NotYet(interrupt: Option<nat>, dispatched: nat) {
    interrupt.Some? ==> dispatched <= interrupt.value
  }

  /** The multi-tool turn, batch after batch, from `done` calls already dispatched. */
  function Turn(done: seq<string>, calls: seq<string>, later: seq<NativeReply>, interrupt: Option<nat>): TurnResult
    requires NotYet(interrupt, |done|)
    decreases |later|
  {
    if calls == [] then TurnResult(done, TurnDone)
    else if |done| >= MAX_TURN_TOOLS then TurnResult(done, CapHit)
    else
      var batch := if |calls| > MAX_TURN_TOOLS - |done| then calls[..MAX_TURN_TOOLS - |done|] else calls;
      if interrupt.Some? && interrupt.value <= |done| + |batch| then
        TurnResult(done + batch[..interrupt.value - |done|], TurnRaised)
      else if |batch| < |calls| then TurnResult(done + batch, CapHit)
      else if later == [] then TurnResult(done + calls, TurnDone)
      else
        match later[0]
        case NativeFailure => TurnResult(done + calls, TurnDone)
        case NativeRaised => TurnResult(done + calls, TurnRaised)
        case NativeStop(requiresApproval) => TurnResult(done + calls, FinalStop(requiresApproval))
        case NativeCalls(next) =>
          if next == [] then TurnResult(done + calls, TurnDone)
          else Turn(done + calls, next, later[1..], interrupt)
  }

  predicate IsWriteTool(name: string) {
    name == "edit_file" || name == "write_file"
  }

  function WriteCalls(calls: seq<string>): nat {
    if calls == [] then 0 else (if IsWriteTool(calls[0]) then 1 else 0) + WriteCalls(calls[1..])
  }

  function StopStatus(requiresApproval: bool): Status {
    if requiresApproval then WaitingForUser else Completed
  }

  function StopAction(requiresApproval: bool): PendingAction {
    if requiresApproval then StopForUser(true) else NoAction
  }

  /** Writes are counted, and the session saved, only after a turn that did not raise. */
  function TurnStep(s: LoopState, x: Session, turn: TurnResult): StepResult {
    var ran := s.(toolCalls := s.toolCalls + turn.calls);
    var counted := ran.(nativeWrites := s.nativeWrites + WriteCalls(turn.calls));
    match turn.end
    case TurnRaised => Raised(ran.(lostTurns := s.lostTurns + [turn.calls]))
    case FinalStop(requiresApproval) =>
      Stepped(Saved(counted, Advanced(x, StopAction(requiresApproval), StopStatus(requiresApproval), NoError)),
              requiresApproval)
    case _ => Stepped(Saved(counted, Advanced(x, NativeTurn, Active, NoError)), false)
  }

  predicate NeedsCommandApproval(o: Options, calls: seq<string>) {
    "run_command" in calls && !o.fullAuto
  }

  function CommandStep(s: LoopState, x: Session, hasSecret: bool): StepResult {
    if hasSecret then Stepped(Saved(s, x.(pending := NoAction, status := Active, lastError := NoError)), false)
    else Stepped(Saved(s, x.(pending := CommandProposal, status := WaitingForUser, lastError := NoError)), true)
  }

  /** The reply a native step acts on: the first, or the second after a contract failure. */
  function NativeAnswer(i: NativeInputs): NativeReply {
    if i.first == NativeFailure then i.second else i.first
  }

  function ReplyStep(o: Options, s: LoopState, x: Session, i: NativeInputs): StepResult {
    match NativeAnswer(i)
    case NativeRaised => Raised(s)
    case NativeFailure =>
      Stepped(Saved(s, x.(pending := NoAction, status := Active, lastError := i.error)), false)
    case NativeStop(requiresApproval) =>
      Stepped(Saved(s, x.(pending := StopAction(requiresApproval), status := StopStatus(requiresApproval),
                          lastError := NoError)), requiresApproval)
    case NativeCalls(calls) =>
      if NeedsCommandApproval(o, calls) then CommandStep(s, x, i.commandHasSecret)
      else TurnStep(s, x, Turn([], calls, i.later, i.interrupt))
  }

  function NativeStep(o: Options, s: LoopState, goal: Option<string>, i: NativeInputs): StepResult {
    var prepared := Prepared(s, goal, i.plan);
    if prepared.None? || prepared.value.session.None? then Raised(s)
    else
      var p, x := prepared.value, prepared.value.session.value;
      if x.currentStep >= |x.plan| then Stepped(PlanFinished(p, x), false)
      else if o.autoEdit && p.nativeWrites >= FILE_GUARD then
        Stepped(Saved(p, x.(pending := StopForUser(true), status := WaitingForUser, lastError := NoError)), true)
      else ReplyStep(o, p, x, i)
  }
}
