/** The agent loop object: its methods update the stored session, the stuck counter, the write count
    and the pending patch in place, and each is proved to take the transition specified for it. */
module AgentLoops {
  import opened Collections
  import opened AgentSteps
  import opened AgentRuns
  import Tiers = ApprovalTier
  import V = Validation

  /** The multi-tool turn: batches are dispatched until the model stops, twenty tools have run, or the
      turn raises. */
  method RunTurn(calls: seq<string>, later: seq<NativeReply>, interrupt: Option<nat>) returns (turn: TurnResult)
    ensures turn == Turn([], calls, later, interrupt)
  {
    var done, offered, answered := [], calls, 0;
    while offered != []
      invariant 0 <= answered <= |later| && |done| <= MAX_TURN_TOOLS && NotYet(interrupt, |done|)
      invariant Turn([], calls, later, interrupt) == Turn(done, offered, later[answered..], interrupt)
      decreases |later| - answered, |offered|
    {
      if |done| >= MAX_TURN_TOOLS {
        return TurnResult(done, CapHit);
      }
      var remaining := MAX_TURN_TOOLS - |done|;
      var batch := if |offered| > remaining then offered[..remaining] else offered;
      if interrupt.Some? && interrupt.value <= |done| + |batch| {
        return TurnResult(done + batch[..interrupt.value - |done|], TurnRaised);
      }
      if |batch| < |offered| {
        return TurnResult(done + batch, CapHit);
      }
      if answered == |later| {
        return TurnResult(done + batch, TurnDone);
      }
      var reply := later[answered];
      assert later[answered..][1..] == later[answered + 1..];
      done, answered := done + batch, answered + 1;
      match reply {
        case NativeFailure => return TurnResult(done, TurnDone);
        case NativeRaised => return TurnResult(done, TurnRaised);
        case NativeStop(requiresApproval) => return TurnResult(done, FinalStop(requiresApproval));
        case NativeCalls(next) => offered := next;
      }
    }
    turn := TurnResult(done, TurnDone);
  }

  /** A run's result with what earlier iterations added to its counts. */
  function Prefixed(r: RunResult, iterations: nat, results: nat): RunResult {
    match r
    case RunRaised(_) => r
    case RunEnded(t, reason, i, n) => RunEnded(t, reason, iterations + i, results + n)
  }

  lemma PrefixedUnfolds(body: Body, s: LoopState, goal: Option<string>, k: nat, limit: nat, reason: Reason, results: nat)
    requires k < limit
    ensures Prefixed(RunFrom(body, s, goal, k, limit, reason), k, results) ==
            match body(s, goal, k)
            case Failed(t) => RunRaised(t)
            case Done(t, n, why) => RunEnded(t, why, k + 1, results + n)
            case Next(t, n, replanned) =>
              Prefixed(RunFrom(body, t, None, k + 1, limit, if replanned then Replanned else reason),
                       k + 1, results + n)
  {
  }

  /** `body` is what an iteration does; stated so that only mentioning an iteration unfolds it. */
  ghost predicate Describes(body: Body, o: Options, timed: bool, world: nat -> RunInputs) {
    forall s: LoopState, goal: Option<string>, k: nat {:trigger Iterate(o, s, goal, timed, world(k))} ::
      body(s, goal, k) == Iterate(o, s, goal, timed, world(k))
  }

  class AgentLoop {
    const options: Options
    var session: Option<Session>
    var lastIdentity: Option<Identity>
    var intentCount: nat
    var lastIsApply: bool
    var nativeWrites: nat
    var pendingPatch: Option<Proposal>
    ghost var routed: seq<Identity>
    ghost var dispatched: seq<Identity>
    ghost var applied: seq<Proposal>
    ghost var toolCalls: seq<string>
    ghost var lostTurns: seq<seq<string>>
    ghost var repairs: seq<Proposal>

    ghost function View(): LoopState
      reads this
    {
      LoopState(session, lastIdentity, intentCount, lastIsApply, nativeWrites, pendingPatch,
                routed, dispatched, applied, toolCalls, lostTurns, repairs)
    }

    constructor (options: Options, session: Option<Session>, pendingPatch: Option<Proposal>)
      ensures this.options == options
      ensures View() == LoopState(session, None, 0, false, 0, pendingPatch, [], [], [], [], [], [])
    {
      this.options := options;
      this.session, this.pendingPatch := session, pendingPatch;
      lastIdentity, intentCount, lastIsApply, nativeWrites := None, 0, false, 0;
      routed, dispatched, applied := [], [], [];
      toolCalls, lostTurns, repairs := [], [], [];
    }

    /** Saves the session and classifies the step. */
    method Save(x: Session)
      modifies `session, `lastIsApply
      ensures View() == Saved(old(View()), x)
    {
      session := Some(x);
      lastIsApply := x.pending == McpApprovedWrite;
    }

    /** Loads the session, starting or planning one where needed. */
    method Prepare(goal: Option<string>, plan: seq<string>) returns (found: Option<Session>)
      modifies `session
      ensures match Prepared(old(View()), goal, plan)
              case None => found.None? && View() == old(View())
              case Some(p) => View() == p && found == p.session && found.Some?
    {
      var named := goal.Some? && goal.value != "";
      if session.None? {
        if !named {
          return None;
        }
        session := Some(NewSession(goal.value, plan));
      } else if named && goal.value != session.value.goal {
        session := Some(NewSession(goal.value, plan));
      } else if session.value.plan == [] {
        session := Some(session.value.(plan := plan, currentStep := 0));
      }
      found := session;
    }

    /** Counts the intent; the third identical one in a row aborts the session while a task is open. */
    method AbortIfStuck(x: Session, identity: Identity, hasTask: bool) returns (stuck: bool)
      modifies `session, `lastIdentity, `intentCount, `routed
      ensures stuck == (Counted(old(View()), identity).intentCount >= STUCK_LIMIT && hasTask)
      ensures View() == if stuck then StuckAbort(Counted(old(View()), identity), x) else Counted(old(View()), identity)
    {
      if lastIdentity == Some(identity) {
        intentCount := intentCount + 1;
      } else {
        lastIdentity := Some(identity);
        intentCount := 1;
      }
      routed := routed + [identity];
      stuck := intentCount >= STUCK_LIMIT && hasTask;
      if stuck {
        session := Some(x.(pending := NoAction, status := Aborted, lastError := ErrorText(true)));
      }
    }

    /** Writes the patch to the tree; applying may raise or be interrupted, before or after the files are
        written. */
    method ApplyPatch(proposal: Proposal, outcome: ApplyOutcome) returns (raised: bool, clean: bool)
      modifies `pendingPatch, `applied
      ensures raised == outcome.ApplyInterrupted? && clean == outcome.AppliedCleanly?
      ensures applied ==
              if outcome.NotApplied? || (outcome.ApplyInterrupted? && !outcome.written) then old(applied)
              else old(applied) + [proposal]
      ensures pendingPatch ==
              match outcome
              case AppliedCleanly => None
              case NotApplied => old(pendingPatch)
              case AppliedThenRaised(removed) => if removed then None else old(pendingPatch)
              case ApplyInterrupted(written, removed) => if written && removed then None else old(pendingPatch)
    {
      raised, clean := outcome.ApplyInterrupted?, outcome.AppliedCleanly?;
      if outcome.NotApplied? || (outcome.ApplyInterrupted? && !outcome.written) {
        return;
      }
      applied := applied + [proposal];
      if outcome.AppliedCleanly? || outcome.pendingRemoved {
        pendingPatch := None;
      }
    }

    method ExecutePatchProposal(x: Session, i: JsonInputs) returns (raised: bool, stopped: bool)
      modifies this
      ensures PatchStep(options, old(View()), x, i) == if raised then Raised(View()) else Stepped(View(), stopped)
    {
      raised, stopped := false, false;
      if pendingPatch.Some? {
        Save(x.(pending := PatchAction(AlreadyPending), status := WaitingForUser, lastError := ErrorText(false)));
        return false, true;
      }
      if i.edit.EditInterrupted? {
        pendingPatch := i.edit.saved;
        return true, false;
      }
      if i.edit.EditFailed? {
        pendingPatch := i.edit.saved;
        Save(x.(pending := PatchAction(ProposalFailed), status := Active, lastError := i.error));
        return;
      }
      var proposal := i.edit.proposal;
      pendingPatch := Some(proposal);
      var tier := Tiers.Classify(proposal, options.approval, options.logic);
      if Tiers.AppliesUnattended(tier, options.autoEdit, options.fullAuto) {
        var clean;
        raised, clean := ApplyPatch(proposal, i.apply);
        if raised {
          return;
        }
        if clean {
          Save(AgentSteps.Advanced(x, PatchAction(AutoApplied), Active, NoError));
          return;
        }
      }
      Save(AgentSteps.Advanced(x, PatchAction(AwaitingApproval), WaitingForUser, NoError));
      stopped := true;
    }

    method Dispatch(x: Session, intent: RoutedIntent, i: JsonInputs) returns (raised: bool, stopped: bool)
      modifies this
      ensures DispatchIntent(options, old(View()), x, intent, i) ==
              if raised then Raised(View()) else Stepped(View(), stopped)
    {
      raised, stopped := false, false;
      if intent.route == PatchPropose && !intent.executableNow {
        raised, stopped := ExecutePatchProposal(x, i);
      } else if i.interrupted {
        raised := true;
      } else if intent.executableNow && intent.route == McpReadonly {
        Save(AgentSteps.Advanced(x, McpCall, Active, i.error));
      } else if intent.executableNow && intent.route == SubagentRoute {
        Save(AgentSteps.Advanced(x, SubagentDispatch, Active, i.error));
      } else if intent.route == McpPropose && !intent.executableNow && i.writeApproved {
        Save(AgentSteps.Advanced(x, McpApprovedWrite, Active, i.error));
      } else {
        Save(AgentSteps.Advanced(x, ToolProposal, Active, NoError));
      }
    }

    method TakeIntent(x: Session, intent: RoutedIntent, i: JsonInputs) returns (raised: bool, stopped: bool)
      modifies this
      ensures IntentStep(options, old(View()), x, intent, i) ==
              if raised then Raised(View()) else Stepped(View(), stopped)
    {
      var stuck := AbortIfStuck(x, intent.identity, i.hasTask);
      if stuck {
        return false, false;
      }
      dispatched := dispatched + [intent.identity];
      raised, stopped := Dispatch(x, intent, i);
    }

    /** The JSON protocol's step; `raised` stands for an exception that leaves it. */
    method Step(goal: Option<string>, i: JsonInputs) returns (raised: bool, stopped: bool)
      modifies this
      ensures JsonStep(options, old(View()), goal, i) == if raised then Raised(View()) else Stepped(View(), stopped)
    {
      raised, stopped := false, false;
      var found := Prepare(goal, i.plan);
      if found.None? {
        return true, false;
      }
      var x := found.value;
      if x.currentStep >= |x.plan| {
        Save(x.(status := Completed, pending := NoAction));
        return;
      }
      var choice := i.first;
      if choice == ContractFailure {
        choice := i.second;
      }
      match choice {
        case ContractFailure =>
          Save(x.(pending := NoAction, status := Active, lastError := i.error));
        case Stop(requiresApproval) =>
          Save(x.(pending := StopForUser(requiresApproval), status := WaitingForUser, lastError := NoError));
          stopped := true;
        case Unsupported =>
          raised := true;
        case Intent(intent) =>
          raised, stopped := TakeIntent(x, intent, i);
      }
    }

    method CountWrites(calls: seq<string>) returns (writes: nat)
      ensures writes == WriteCalls(calls)
    {
      writes := 0;
      for k := |calls| downto 0
        invariant writes == WriteCalls(calls[k..])
      {
        assert calls[k..][1..] == calls[k + 1..];
        if IsWriteTool(calls[k]) {
          writes := writes + 1;
        }
      }
    }

    /** The tools have run by the time a turn raises, but only a finished turn is counted and saved. */
    method DispatchTurn(x: Session, calls: seq<string>, i: NativeInputs) returns (raised: bool, stopped: bool)
      modifies this
      ensures TurnStep(old(View()), x, Turn([], calls, i.later, i.interrupt)) ==
              if raised then Raised(View()) else Stepped(View(), stopped)
    {
      raised, stopped := false, false;
      var turn := RunTurn(calls, i.later, i.interrupt);
      toolCalls := toolCalls + turn.calls;
      if turn.end == TurnRaised {
        lostTurns := lostTurns + [turn.calls];
        return true, false;
      }
      var writes := CountWrites(turn.calls);
      nativeWrites := nativeWrites + writes;
      if turn.end.FinalStop? {
        stopped := turn.end.requiresApproval;
        Save(AgentSteps.Advanced(x, StopAction(stopped), StopStatus(stopped), NoError));
      } else {
        Save(AgentSteps.Advanced(x, NativeTurn, Active, NoError));
      }
    }

    method Reply(x: Session, i: NativeInputs) returns (raised: bool, stopped: bool)
      modifies this
      ensures ReplyStep(options, old(View()), x, i) == if raised then Raised(View()) else Stepped(View(), stopped)
    {
      raised, stopped := false, false;
      var reply := i.first;
      if reply == NativeFailure {
        reply := i.second;
      }
      match reply {
        case NativeRaised =>
          raised := true;
        case NativeFailure =>
          Save(x.(pending := NoAction, status := Active, lastError := i.error));
        case NativeStop(requiresApproval) =>
          stopped := requiresApproval;
          Save(x.(pending := StopAction(stopped), status := StopStatus(stopped), lastError := NoError));
        case NativeCalls(calls) =>
          if !NeedsCommandApproval(options, calls) {
            raised, stopped := DispatchTurn(x, calls, i);
          } else if i.commandHasSecret {
            Save(x.(pending := NoAction, status := Active, lastError := NoError));
          } else {
            Save(x.(pending := CommandProposal, status := WaitingForUser, lastError := NoError));
            stopped := true;
          }
      }
    }

    /** The native protocol's step, without its fallback to the JSON protocol. */
    method StepNatively(goal: Option<string>, i: NativeInputs) returns (raised: bool, stopped: bool)
      modifies this
      ensures NativeStep(options, old(View()), goal, i) == if raised then Raised(View()) else Stepped(View(), stopped)
    {
      raised, stopped := false, false;
      var found := Prepare(goal, i.plan);
      if found.None? {
        return true, false;
      }
      var x := found.value;
      if x.currentStep >= |x.plan| {
        Save(x.(status := Completed, pending := NoAction));
      } else if options.autoEdit && nativeWrites >= FILE_GUARD {
        Save(x.(pending := StopForUser(true), status := WaitingForUser, lastError := NoError));
        stopped := true;
      } else {
        raised, stopped := Reply(x, i);
      }
    }

    /** A client without the native protocol gets the JSON step. */
    method AdvanceOnce(goal: Option<string>, json: JsonInputs, native: NativeInputs)
      returns (raised: bool, stopped: bool)
      modifies this
      ensures Advance(options, old(View()), goal, json, native) ==
              if raised then Raised(View()) else Stepped(View(), stopped)
    {
      if options.nativeTools {
        raised, stopped := StepNatively(goal, native);
      } else {
        raised, stopped := Step(goal, json);
      }
    }

    method RecordBudgetFailure()
      requires session.Some?
      modifies `session
      ensures View() == BudgetFailure(old(View()))
    {
      session := Some(session.value.(pending := NoAction, status := Aborted, lastError := ErrorText(false)));
    }

    method RunValidation(v: V.Result)
      requires session.Some?
      modifies `session, `pendingPatch, `repairs
      ensures View() == Validated(options, old(View()), v)
    {
      if options.sharedPatchPath && v.saved.Some? {
        pendingPatch := v.saved;
        repairs := repairs + [v.saved.value];
      }
      var x := session.value;
      if v.status == V.RepairProposed {
        session := Some(x.(pending := PatchAction(ValidationRepair), status := WaitingForUser, lastError := NoError));
      } else if v.status in {V.RepairFailed, V.NoProgress, V.MaxRepairs} {
        session := Some(x.(pending := NoAction, status := Aborted, lastError := ErrorText(false)));
      }
    }

    method TryReplan(v: V.Result, newPlan: seq<string>) returns (replanned: bool)
      requires session.Some?
      modifies `session
      ensures replanned == CanReplan(options, old(session).value, v, newPlan)
      ensures View() == if replanned then ReplannedState(old(View()), newPlan) else old(View())
    {
      var x := session.value;
      if !options.fullAuto || v.repairIterations < 2 || x.replanCount >= MAX_REPLANS || newPlan == [] {
        return false;
      }
      session := Some(x.(plan := newPlan, currentStep := 0, pending := NoAction, status := Active,
                         lastError := NoError, replanCount := x.replanCount + 1));
      replanned := true;
    }

    /** One pass through the body of `Run`'s loop; `broke` holds the reason when it breaks out. */
    method RunIteration(goal: Option<string>, timed: bool, world: nat -> RunInputs, k: nat, ghost body: Body)
      returns (raised: bool, results: nat, broke: Option<Reason>, replanned: bool)
      requires Describes(body, options, timed, world)
      modifies this
      ensures body(old(View()), goal, k) ==
              if raised then Failed(View())
              else if broke.Some? then Done(View(), results, broke.value)
              else Next(View(), results, replanned)
    {
      raised, results, broke, replanned := false, 0, None, false;
      var i := world(k);
      assert body(View(), goal, k) == Iterate(options, View(), goal, timed, world(k));
      if timed && i.timeUp {
        if session.None? {
          raised := true;
          return;
        }
        RecordBudgetFailure();
        broke := Some(BudgetExceeded);
        return;
      }
      var stopped: bool;
      raised, stopped := AdvanceOnce(goal, i.json, i.native);
      if raised || session.None? {
        raised := true;
        return;
      }
      results := 1;
      if !options.noValidate && lastIsApply {
        RunValidation(i.validation);
        if i.validation.status != V.Passed {
          results := 2;
          if i.validation.status == V.RepairProposed {
            broke := Some(ApprovalRequired);
            return;
          }
          replanned := TryReplan(i.validation, i.newPlan);
          if !replanned {
            broke := Some(ValidationStopped(i.validation.status));
          }
          return;
        }
      }
      if stopped {
        broke := Some(ApprovalRequired);
      } else if session.value.status == Aborted {
        broke := Some(if session.value.lastError == ErrorText(true) then LoopStuckReason else AbortedReason);
      } else if session.value.status == Completed {
        broke := Some(CompletedReason);
      }
    }

    method Clarify(goal: string, plan: seq<string>)
      modifies `session
      ensures View() == Clarifying(old(View()), goal, plan)
    {
      if session.None? {
        session := Some(NewSession(goal, plan));
      }
      session := Some(session.value.(pending := Clarification, status := WaitingForUser));
    }

    /** The bounded run. The reason stays at "replanned" once a later iteration does not replace it. */
    method RunLoop(first: Option<string>, timed: bool, world: nat -> RunInputs, limit: nat, ghost body: Body)
      returns (raised: bool, reason: Reason, iterations: nat, results: nat)
      requires Describes(body, options, timed, world)
      modifies this
      ensures RunFrom(body, old(View()), first, 0, limit, MaxSteps) ==
              if raised then RunRaised(View()) else RunEnded(View(), reason, iterations, results)
    {
      raised, reason, iterations, results := false, MaxSteps, 0, 0;
      var goal := first;
      ghost var at := View();
      ghost var all := RunFrom(body, at, goal, 0, limit, MaxSteps);
      for k := 0 to limit
        invariant iterations == k && !raised && at == View()
        invariant all == Prefixed(RunFrom(body, at, goal, k, limit, reason), k, results)
      {
        PrefixedUnfolds(body, at, goal, k, limit, reason, results);
        var n, broke, replanned;
        raised, n, broke, replanned := RunIteration(goal, timed, world, k, body);
        at := View();
        if raised {
          return;
        }
        iterations, results, goal := iterations + 1, results + n, None;
        if broke.Some? {
          reason := broke.value;
          return;
        }
        if replanned {
          reason := Replanned;
        }
      }
    }

    method Run(c: RunCall) returns (raised: bool, reason: Reason, iterations: nat, results: nat)
      modifies this
      ensures AgentRuns.Run(options, old(View()), c) ==
              if raised then RunRaised(View()) else RunEnded(View(), reason, iterations, results)
    {
      raised, reason, iterations, results := false, MaxSteps, 0, 0;
      if c.maxSteps < 1 {
        raised := true;
        return;
      }
      if c.goal.Some? && c.goal.value != "" && !options.noClarify && c.ambiguous {
        Clarify(c.goal.value, c.clarifyPlan);
        reason, results := NeedsClarification, 1;
        return;
      }
      var limit := StepBudget(c.maxSteps, c.budget);
      raised, reason, iterations, results :=
        RunLoop(WithMemory(c.memory, c.goal), c.budget.Some?, c.world, limit, BodyOf(options, c.budget.Some?, c.world));
      if raised || session.None? {
        raised := true;
        return;
      }
      if RanOut(reason) && limit < c.maxSteps {
        RecordBudgetFailure();
        reason := BudgetExceeded;
      }
    }
  }
}
