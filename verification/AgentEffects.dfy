/** What a single step of either protocol can do, and the facts every step keeps. */
module AgentEffects {
  import opened Collections
  import opened AgentSteps
  import Tiers = ApprovalTier

  // ------------------------------------------------------------------
  // The effect of one step
  // ------------------------------------------------------------------

  /** A step that returns waits for the user exactly when it reports a stop, and is aborted only as
      stuck. */
  ghost predicate ReportsTruly(r: StepResult) {
    && r.Stepped?
    && r.state.session.Some?
    && var x := r.state.session.value;
    && (r.stopped <==> x.status == WaitingForUser)
    && x.status != Other
    && (x.status == Aborted ==> x.lastError == ErrorText(true))
  }

  /** The plan stays, and the position moves by at most one. */
  predicate StaysOnPlan(x: Session, y: Session) {
    && y.goal == x.goal && y.plan == x.plan && y.replanCount == x.replanCount
    && (y.currentStep == x.currentStep || y.currentStep == x.currentStep + 1)
  }

  predicate IntentsUnchanged(s: LoopState, t: LoopState) {
    && t.lastIdentity == s.lastIdentity && t.intentCount == s.intentCount
    && t.routed == s.routed && t.dispatched == s.dispatched
  }

  /** One intent was counted, and then dispatched unless the counter and an open task forbade it. */
  predicate IntentTaken(s: LoopState, t: LoopState, identity: Identity, hasTask: bool) {
    && t.lastIdentity == Some(identity)
    && t.intentCount == (if s.lastIdentity == Some(identity) then s.intentCount + 1 else 1)
    && t.routed == s.routed + [identity]
    && t.dispatched ==
       if t.intentCount >= STUCK_LIMIT && hasTask then s.dispatched else s.dispatched + [identity]
  }

  predicate MayApply(o: Options, p: Proposal) {
    Tiers.AppliesUnattended(Tiers.Classify(p, o.approval, o.logic), o.autoEdit, o.fullAuto)
  }

  /** A pending patch is left alone, and at most one patch is applied, one the tier rule allows. */
  predicate PatchesHandled(o: Options, s: LoopState, t: LoopState) {
    && (s.pendingPatch.Some? ==> t.pendingPatch == s.pendingPatch && t.applied == s.applied)
    && (t.applied == s.applied ||
        (|t.applied| == |s.applied| + 1 && t.applied[..|s.applied|] == s.applied && MayApply(o, t.applied[|s.applied|])))
  }

  /** What is known of native tools: writes counted, tools dispatched, and the turns that raised. */
  datatype Tools = Tools(writes: nat, calls: seq<string>, lost: seq<seq<string>>)

  function ToolsOf(s: LoopState): Tools {
    Tools(s.nativeWrites, s.toolCalls, s.lostTurns)
  }

  /** A step that raises leaves the session and the apply mark alone. */
  predicate LeavesSession(s: LoopState, t: LoopState) {
    t.session == s.session && t.lastIsApply == s.lastIsApply
  }

  ghost predicate PatchEffect(o: Options, s: LoopState, x: Session, r: StepResult) {
    && (if r.Raised? then LeavesSession(s, r.state)
        else ReportsTruly(r) && StaysOnPlan(x, r.state.session.value) &&
             r.state.session.value.status in {Active, WaitingForUser})
    && IntentsUnchanged(s, r.state)
    && PatchesHandled(o, s, r.state)
    && ToolsOf(r.state) == ToolsOf(s) && r.state.repairs == s.repairs
  }

  ghost predicate JsonEffect(o: Options, s: LoopState, x: Session, r: StepResult, hasTask: bool) {
    && (if r.Raised? then LeavesSession(s, r.state)
        else ReportsTruly(r) && StaysOnPlan(x, r.state.session.value) && r.state.session.value.status != Completed)
    && (IntentsUnchanged(s, r.state) || exists identity :: IntentTaken(s, r.state, identity, hasTask))
    && PatchesHandled(o, s, r.state)
    && ToolsOf(r.state) == ToolsOf(s) && r.state.repairs == s.repairs
  }

  lemma PatchStepEffect(o: Options, s: LoopState, x: Session, i: JsonInputs)
    ensures PatchEffect(o, s, x, PatchStep(o, s, x, i))
  {
    if s.pendingPatch.None? && i.edit.Edited? && MayApply(o, i.edit.proposal) {
      assert (s.applied + [i.edit.proposal])[..|s.applied|] == s.applied;
    }
  }

  /** With nothing pending and an edit made, the step raises exactly when applying is interrupted and
      goes on exactly when the patch was applied cleanly. Otherwise it asks for a patch that is pending
      and not yet written, exactly unless applying raised after the files were written. */
  lemma AskedPatchIsPendingIff(o: Options, s: LoopState, x: Session, i: JsonInputs)
    requires s.pendingPatch.None? && i.edit.Edited?
    ensures var r := PatchStep(o, s, x, i);
            var p := i.edit.proposal;
            && (r.Raised? <==> MayApply(o, p) && i.apply.ApplyInterrupted?)
            && (r.Stepped? && !r.stopped <==> MayApply(o, p) && i.apply.AppliedCleanly?)
            && (r.Stepped? && !r.stopped ==> r.state.pendingPatch == None && r.state.applied == s.applied + [p])
            && (r.Stepped? && r.stopped ==>
                  (r.state.pendingPatch == Some(p) && r.state.applied == s.applied <==>
                   !(MayApply(o, p) && i.apply.AppliedThenRaised?)))
  {
  }

  lemma DispatchEffect(o: Options, s: LoopState, x: Session, intent: RoutedIntent, i: JsonInputs)
    ensures PatchEffect(o, s, x, DispatchIntent(o, s, x, intent, i))
  {
    PatchStepEffect(o, s, x, i);
  }

  lemma ChoiceEffect(o: Options, s: LoopState, x: Session, i: JsonInputs)
    ensures JsonEffect(o, s, x, ChoiceStep(o, s, x, i), i.hasTask)
  {
    if Answer(i).Intent? {
      var intent := Answer(i).routed;
      var counted := Counted(s, intent.identity);
      var r := ChoiceStep(o, s, x, i);
      if !Stuck(s, intent, i) {
        DispatchEffect(o, counted.(dispatched := s.dispatched + [intent.identity]), x, intent, i);
      }
      assert IntentTaken(s, r.state, intent.identity, i.hasTask);
    }
  }

  predicate PatchHeldUp(s: LoopState, intent: RoutedIntent, i: JsonInputs) {
    IsPatchIntent(intent) && (s.pendingPatch.Some? || i.edit.EditFailed?)
  }

  /** A JSON step that does not raise moves the plan on exactly when it dispatches an intent that is not a
      held-up patch, and marks an apply exactly when that intent is an approved write; an abort keeps the
      old mark. */
  lemma JsonStepMovesIff(o: Options, s: LoopState, x: Session, i: JsonInputs)
    requires ChoiceStep(o, s, x, i).Stepped?
    ensures var t := ChoiceStep(o, s, x, i).state;
            && t.session.Some?
            && (t.session.value.currentStep == x.currentStep + 1 <==>
                Answer(i).Intent? && !Stuck(s, Answer(i).routed, i) && !PatchHeldUp(s, Answer(i).routed, i))
            && (t.session.value.status == Aborted <==> Answer(i).Intent? && Stuck(s, Answer(i).routed, i))
            && (t.lastIsApply <==>
                Answer(i).Intent? && if Stuck(s, Answer(i).routed, i) then s.lastIsApply else ApprovedWrite(Answer(i).routed, i))
  {
    if Answer(i).Intent? && !Stuck(s, Answer(i).routed, i) {
      var intent := Answer(i).routed;
      var counted := Counted(s, intent.identity).(dispatched := s.dispatched + [intent.identity]);
      DispatchMovesIff(o, counted, x, intent, i);
    }
  }

  lemma DispatchMovesIff(o: Options, s: LoopState, x: Session, intent: RoutedIntent, i: JsonInputs)
    requires DispatchIntent(o, s, x, intent, i).Stepped?
    ensures var t := DispatchIntent(o, s, x, intent, i).state;
            && t.session.Some? && t.session.value.status != Aborted
            && (t.session.value.currentStep == x.currentStep + 1 <==> !PatchHeldUp(s, intent, i))
            && (t.lastIsApply <==> ApprovedWrite(intent, i))
  {
    if IsPatchIntent(intent) {
      PatchStepMovesIff(o, s, x, i);
    }
  }

  lemma PatchStepMovesIff(o: Options, s: LoopState, x: Session, i: JsonInputs)
    requires PatchStep(o, s, x, i).Stepped?
    ensures var t := PatchStep(o, s, x, i).state;
            && t.session.Some? && t.session.value.status != Aborted && !t.lastIsApply
            && (t.session.value.currentStep == x.currentStep + 1 <==> s.pendingPatch.None? && i.edit.Edited?)
  {
  }

  /** Under the native protocol the intents and the patches are not involved, and no step is aborted.
      A step that raises counts no writes, whatever its turn has dispatched. */
  predicate NativeEffect(s: LoopState, x: Session, r: StepResult, limit: nat) {
    && (if r.Raised? then LeavesSession(s, r.state) && r.state.nativeWrites == s.nativeWrites
        else
          && r.state.session.Some? && !r.state.lastIsApply
          && var y := r.state.session.value;
          && (r.stopped <==> y.status == WaitingForUser)
          && y.status in {Active, WaitingForUser, Completed}
          && StaysOnPlan(x, y)
          && r.state.lostTurns == s.lostTurns)
    && IntentsUnchanged(s, r.state)
    && r.state.pendingPatch == s.pendingPatch && r.state.applied == s.applied && r.state.repairs == s.repairs
    && s.nativeWrites <= r.state.nativeWrites <= s.nativeWrites + limit
  }

  lemma {:induction false} WriteCallsBound(calls: seq<string>)
    ensures WriteCalls(calls) <= |calls|
    decreases |calls|
  {
    if calls != [] {
      WriteCallsBound(calls[1..]);
    }
  }

  /** All the tools the model offers in a turn, as long as each answer brings more. */
  function Offered(calls: seq<string>, later: seq<NativeReply>): seq<string>
    decreases |later|
  {
    if calls == [] || later == [] || !later[0].NativeCalls? then calls
    else calls + Offered(later[0].calls, later[1..])
  }

  /** The answer that ends the offers, if the model is asked for one and it is no more tools. */
  function LastAnswer(calls: seq<string>, later: seq<NativeReply>): Option<NativeReply>
    decreases |later|
  {
    if calls == [] || later == [] then None
    else if later[0].NativeCalls? then LastAnswer(later[0].calls, later[1..])
    else Some(later[0])
  }

  function FirstTwenty(calls: seq<string>): seq<string> {
    if |calls| <= 20 then calls else calls[..20]
  }

  /** How a turn that is not interrupted ends: at the cap if more than twenty tools were offered, and otherwise as
      its last answer says. */
  function EndFor(offered: nat, last: Option<NativeReply>): TurnEnd {
    if offered > 20 then CapHit
    else if last == Some(NativeRaised) then TurnRaised
    else if last.Some? && last.value.NativeStop? then FinalStop(last.value.requiresApproval)
    else TurnDone
  }

  predicate BrokenOff(dispatched: seq<string>, interrupt: Option<nat>) {
    interrupt.Some? && interrupt.value <= |dispatched|
  }

  /** A turn dispatches exactly the first twenty of the tools offered, up to an interruption. Without one
      it reports the cap exactly when more were offered, and otherwise ends as the last answer says. */
  lemma TurnDispatchesFirstTwenty(calls: seq<string>, later: seq<NativeReply>, interrupt: Option<nat>)
    ensures var turn := Turn([], calls, later, interrupt);
            var offered := Offered(calls, later);
            var all := FirstTwenty(offered);
            if calls != [] && BrokenOff(all, interrupt) then turn == TurnResult(all[..interrupt.value], TurnRaised)
            else turn == TurnResult(all, EndFor(|offered|, LastAnswer(calls, later)))
  {
    if calls != [] {
      TurnFrom([], calls, later, interrupt);
      assert [] + Offered(calls, later) == Offered(calls, later);
    }
  }

  /** The same part way through a turn. */
  lemma {:induction false} TurnFrom(
    done: seq<string>, calls: seq<string>, later: seq<NativeReply>, interrupt: Option<nat>)
    requires |done| <= MAX_TURN_TOOLS && calls != []
    requires interrupt.Some? ==> |done| <= interrupt.value && (|done| == MAX_TURN_TOOLS ==> |done| < interrupt.value)
    ensures var turn := Turn(done, calls, later, interrupt);
            var all := FirstTwenty(done + Offered(calls, later));
            if BrokenOff(all, interrupt) then turn == TurnResult(all[..interrupt.value], TurnRaised)
            else turn == TurnResult(all, EndFor(|done + Offered(calls, later)|, LastAnswer(calls, later)))
    decreases |later|
  {
    var offered := Offered(calls, later);
    if |done| + |calls| <= MAX_TURN_TOOLS && later != [] && later[0].NativeCalls? && later[0].calls != [] {
      var next := later[0].calls;
      assert done + offered == done + calls + Offered(next, later[1..]);
      if !BrokenOff(done + calls, interrupt) {
        TurnFrom(done + calls, next, later[1..], interrupt);
      } else {
        TurnBrokenOff(done, calls, offered, interrupt.value);
      }
    } else {
      TurnCutShort(done, calls, offered);
      if BrokenOff(FirstTwenty(done + offered), interrupt) {
        TurnBrokenOff(done, calls, offered, interrupt.value);
      }
    }
  }

  lemma TurnCutShort(done: seq<string>, calls: seq<string>, offered: seq<string>)
    requires |done| <= MAX_TURN_TOOLS && calls <= offered
    requires |done| + |calls| > MAX_TURN_TOOLS || offered == calls
    ensures FirstTwenty(done + offered) ==
            if |done| + |calls| > MAX_TURN_TOOLS then done + calls[..MAX_TURN_TOOLS - |done|] else done + calls
  {
  }

  lemma TurnBrokenOff(done: seq<string>, calls: seq<string>, offered: seq<string>, n: nat)
    requires |done| <= n && n <= |done| + |calls| && n <= MAX_TURN_TOOLS && calls <= offered
    ensures n <= |FirstTwenty(done + offered)|
    ensures FirstTwenty(done + offered)[..n] == done + calls[..n - |done|]
  {
  }

  /** The turn of a native step, when it runs one. */
  function TurnOf(i: NativeInputs): TurnResult {
    match NativeAnswer(i)
    case NativeCalls(calls) => Turn([], calls, i.later, i.interrupt)
    case _ => TurnResult([], TurnDone)
  }

  lemma TurnIsShort(i: NativeInputs)
    ensures |TurnOf(i).calls| <= MAX_TURN_TOOLS
  {
    if NativeAnswer(i).NativeCalls? {
      TurnDispatchesFirstTwenty(NativeAnswer(i).calls, i.later, i.interrupt);
    }
  }

  /** What a turn adds: tools always, and either its writes to the count or its tools to the lost turns. */
  function AfterTurn(w: Tools, turn: TurnResult): Tools {
    if turn.end == TurnRaised then w.(calls := w.calls + turn.calls, lost := w.lost + [turn.calls])
    else w.(calls := w.calls + turn.calls, writes := w.writes + WriteCalls(turn.calls))
  }

  lemma TurnStepEffect(s: LoopState, x: Session, turn: TurnResult)
    ensures NativeEffect(s, x, TurnStep(s, x, turn), WriteCalls(turn.calls))
    ensures ToolsOf(TurnStep(s, x, turn).state) == AfterTurn(ToolsOf(s), turn)
  {
  }

  lemma ReplyEffect(o: Options, s: LoopState, x: Session, i: NativeInputs)
    ensures NativeEffect(s, x, ReplyStep(o, s, x, i), WriteCalls(TurnOf(i).calls))
    ensures ToolsOf(ReplyStep(o, s, x, i).state) in {ToolsOf(s), AfterTurn(ToolsOf(s), TurnOf(i))}
  {
    if NativeAnswer(i).NativeCalls? && !NeedsCommandApproval(o, NativeAnswer(i).calls) {
      TurnStepEffect(s, x, TurnOf(i));
    }
  }

  // ------------------------------------------------------------------
  // Stuck detection
  // ------------------------------------------------------------------

  /** The length of the longest suffix of equal intents. */
  ghost function TailRun<T>(intents: seq<T>): nat {
    var n := |intents|;
    if n == 0 then 0
    else if n > 1 && intents[n - 2] == intents[n - 1] then TailRun(intents[..n - 1]) + 1
    else 1
  }

  /** The counter is the tail run of everything routed. */
  ghost predicate CounterExact(s: LoopState) {
    && s.intentCount == TailRun(s.routed)
    && s.lastIdentity == if s.routed == [] then None else Some(s.routed[|s.routed| - 1])
  }

  lemma TailRunAppend<T>(intents: seq<T>, next: T)
    ensures TailRun(intents + [next]) ==
            if intents != [] && intents[|intents| - 1] == next then TailRun(intents) + 1 else 1
    ensures intents != [] ==> TailRun(intents) > 0
  {
    assert (intents + [next])[..|intents|] == intents;
  }

  lemma CounterKept(s: LoopState, t: LoopState, hasTask: bool)
    requires CounterExact(s)
    requires IntentsUnchanged(s, t) || exists identity :: IntentTaken(s, t, identity, hasTask)
    ensures CounterExact(t)
  {
    if identity :| IntentTaken(s, t, identity, hasTask) {
      TailRunAppend(s.routed, identity);
    }
  }

  ghost predicate TripleAt<T>(intents: seq<T>, k: int) {
    0 <= k && k + 2 < |intents| && intents[k] == intents[k + 1] == intents[k + 2]
  }

  ghost predicate NoTriple<T>(intents: seq<T>) {
    forall k :: !TripleAt(intents, k)
  }

  /** With a task open throughout, what was dispatched ends as what was routed does, cut to two. */
  ghost predicate DispatchFollows(s: LoopState) {
    && NoTriple(s.dispatched)
    && TailRun(s.dispatched) == MinInt(TailRun(s.routed), 2)
    && (s.routed == [] <==> s.dispatched == [])
    && (s.routed != [] ==> s.dispatched[|s.dispatched| - 1] == s.routed[|s.routed| - 1])
  }

  lemma TailRunOfPair<T>(intents: seq<T>)
    requires |intents| >= 2 && intents[|intents| - 2] == intents[|intents| - 1]
    ensures TailRun(intents) >= 2
  {
    var front := intents[..|intents| - 1];
    assert front[|front| - 1] == intents[|intents| - 2];
    assert TailRun(front) >= 1;
  }

  lemma AppendKeepsNoTriple<T>(intents: seq<T>, next: T)
    requires NoTriple(intents)
    requires intents != [] && intents[|intents| - 1] == next ==> TailRun(intents) < 2
    ensures NoTriple(intents + [next])
  {
    var longer, n := intents + [next], |intents|;
    forall k ensures !TripleAt(longer, k) {
      assert !TripleAt(intents, k);
      if k == n - 2 && n >= 2 && intents[n - 2] == intents[n - 1] {
        TailRunOfPair(intents);
      }
    }
  }

  lemma DispatchKept(s: LoopState, t: LoopState)
    requires CounterExact(s) && DispatchFollows(s)
    requires IntentsUnchanged(s, t) || exists identity :: IntentTaken(s, t, identity, true)
    ensures DispatchFollows(t)
  {
    if identity :| IntentTaken(s, t, identity, true) {
      TailRunAppend(s.routed, identity);
      TailRunAppend(s.dispatched, identity);
      if t.intentCount < STUCK_LIMIT {
        AppendKeepsNoTriple(s.dispatched, identity);
      }
    }
  }

  // ------------------------------------------------------------------
  // Patches
  // ------------------------------------------------------------------

  /** What may have been applied: nothing without a trust flag; with auto-edit alone only automatic
      proposals; with full-auto everything that is not gated. */
  ghost predicate PatchSafe(o: Options, p: Proposal) {
    && (o.autoEdit || o.fullAuto)
    && (!o.fullAuto ==> Tiers.AutoEligible(p, o.approval, o.logic))
    && !(exists i :: Tiers.FirstSettling(p, o.approval, i) && Tiers.Dangerous(p[i]))
  }

  lemma MayApplyIsSafe(o: Options, p: Proposal)
    ensures MayApply(o, p) ==> PatchSafe(o, p)
  {
    Tiers.AutoIff(p, o.approval, o.logic);
    Tiers.GateIff(p, o.approval, o.logic);
  }

  ghost predicate AppliedSafe(o: Options, s: LoopState) {
    forall k :: 0 <= k < |s.applied| ==> PatchSafe(o, s.applied[k])
  }

  lemma AppliedSafeKept(o: Options, s: LoopState, t: LoopState)
    requires AppliedSafe(o, s) && PatchesHandled(o, s, t)
    ensures AppliedSafe(o, t)
  {
    var n := |s.applied|;
    if t.applied != s.applied {
      MayApplyIsSafe(o, t.applied[n]);
      assert t.applied == s.applied + [t.applied[n]];
    }
  }

  // ------------------------------------------------------------------
  // The write guard
  // ------------------------------------------------------------------

  /** With auto-edit on, a turn starts below the guard and adds at most a turn's worth of writes. */
  predicate WritesBounded(o: Options, s: LoopState) {
    o.autoEdit ==> s.nativeWrites < FILE_GUARD + MAX_TURN_TOOLS
  }

  predicate Guarded(o: Options, w: Tools) {
    o.autoEdit && w.writes >= 10
  }

  /** Once the guard is reached, a native step on an unfinished plan stops without any tool call. */
  lemma GuardStopsEveryStep(o: Options, s: LoopState, goal: Option<string>, i: NativeInputs)
    requires Guarded(o, ToolsOf(s))
    requires Prepared(s, goal, i.plan).Some?
    requires var x := Prepared(s, goal, i.plan).value.session; x.Some? && x.value.currentStep < |x.value.plan|
    ensures var r := NativeStep(o, s, goal, i);
            r.Stepped? && r.stopped && ToolsOf(r.state) == ToolsOf(s)
  {
  }

  /** A native step runs its turn below the guard or not at all. */
  lemma NativeStepTools(o: Options, s: LoopState, goal: Option<string>, i: NativeInputs)
    ensures var w := ToolsOf(NativeStep(o, s, goal, i).state);
            w == ToolsOf(s) || (!Guarded(o, ToolsOf(s)) && w == AfterTurn(ToolsOf(s), TurnOf(i)))
  {
    var prepared := Prepared(s, goal, i.plan);
    if prepared.Some? && prepared.value.session.Some? {
      ReplyEffect(o, prepared.value, prepared.value.session.value, i);
    }
  }

  lemma JsonStepTools(o: Options, s: LoopState, goal: Option<string>, i: JsonInputs)
    ensures ToolsOf(JsonStep(o, s, goal, i).state) == ToolsOf(s)
  {
    var prepared := Prepared(s, goal, i.plan);
    if prepared.Some? && prepared.value.session.Some? {
      ChoiceEffect(o, prepared.value, prepared.value.session.value, i);
    }
  }

  /** Without full-auto, no tool of a first batch that contains a command is dispatched, whether that
      batch came at once or after a contract failure. */
  lemma FirstBatchCommandsWait(o: Options, s: LoopState, goal: Option<string>, i: NativeInputs)
    requires !o.fullAuto
    requires NativeAnswer(i).NativeCalls? && "run_command" in NativeAnswer(i).calls
    ensures ToolsOf(NativeStep(o, s, goal, i).state) == ToolsOf(s)
  {
  }

  // ------------------------------------------------------------------
  // All of it, for either protocol
  // ------------------------------------------------------------------

  /** Every state reached from a fresh loop object satisfies this. */
  ghost predicate Sound(o: Options, s: LoopState) {
    && CounterExact(s)
    && AppliedSafe(o, s)
    && WritesBounded(o, s)
    && (s.session.Some? ==> s.session.value.currentStep <= |s.session.value.plan|)
  }

  lemma PreparedKeeps(o: Options, s: LoopState, goal: Option<string>, plan: seq<string>)
    requires Sound(o, s)
    ensures var p := Prepared(s, goal, plan);
            p.Some? ==>
              && Sound(o, p.value) && p.value.session.Some?
              && p.value == s.(session := p.value.session)
  {
  }

  /** How a step of either protocol relates the states around it. */
  ghost predicate StepSound(o: Options, s: LoopState, r: StepResult) {
    && Sound(o, r.state)
    && PatchesHandled(o, s, r.state)
    && (r.Stepped? ==> ReportsTruly(r))
  }

  /** An exit that only saves the session, without moving the plan. */
  lemma SavedSound(o: Options, s: LoopState, p: LoopState, y: Session, stopped: bool)
    requires Sound(o, s) && p == s.(session := p.session)
    requires y.currentStep <= |y.plan|
    requires (stopped <==> y.status == WaitingForUser) && y.status !in {Other, Aborted}
    ensures StepSound(o, s, Stepped(Saved(p, y), stopped))
    ensures DispatchFollows(s) ==> DispatchFollows(Saved(p, y))
  {
  }

  lemma JsonEffectSound(o: Options, s: LoopState, p: LoopState, x: Session, r: StepResult, hasTask: bool)
    requires Sound(o, s) && Sound(o, p) && p == s.(session := Some(x)) && x.currentStep < |x.plan|
    requires JsonEffect(o, p, x, r, hasTask)
    ensures StepSound(o, s, r)
    ensures hasTask && DispatchFollows(s) ==> DispatchFollows(r.state)
  {
    CounterKept(p, r.state, hasTask);
    AppliedSafeKept(o, p, r.state);
    if hasTask && DispatchFollows(s) {
      DispatchKept(p, r.state);
    }
  }

  lemma JsonStepSound(o: Options, s: LoopState, goal: Option<string>, i: JsonInputs)
    requires Sound(o, s)
    ensures StepSound(o, s, JsonStep(o, s, goal, i))
    ensures i.hasTask && DispatchFollows(s) ==> DispatchFollows(JsonStep(o, s, goal, i).state)
  {
    PreparedKeeps(o, s, goal, i.plan);
    var prepared := Prepared(s, goal, i.plan);
    if prepared.Some? {
      var p, x := prepared.value, prepared.value.session.value;
      if x.currentStep < |x.plan| {
        ChoiceEffect(o, p, x, i);
        JsonEffectSound(o, s, p, x, ChoiceStep(o, p, x, i), i.hasTask);
      } else {
        SavedSound(o, s, p, x.(status := Completed, pending := NoAction), false);
      }
    }
  }

  lemma NativeEffectSound(o: Options, s: LoopState, p: LoopState, x: Session, r: StepResult, limit: nat)
    requires Sound(o, s) && Sound(o, p) && p == s.(session := Some(x)) && x.currentStep < |x.plan|
    requires o.autoEdit ==> p.nativeWrites < FILE_GUARD
    requires NativeEffect(p, x, r, limit) && limit <= MAX_TURN_TOOLS
    ensures StepSound(o, s, r)
    ensures DispatchFollows(s) ==> DispatchFollows(r.state)
  {
  }

  lemma NativeStepSound(o: Options, s: LoopState, goal: Option<string>, i: NativeInputs)
    requires Sound(o, s)
    ensures StepSound(o, s, NativeStep(o, s, goal, i))
    ensures DispatchFollows(s) ==> DispatchFollows(NativeStep(o, s, goal, i).state)
  {
    PreparedKeeps(o, s, goal, i.plan);
    var prepared := Prepared(s, goal, i.plan);
    if prepared.Some? {
      var p, x := prepared.value, prepared.value.session.value;
      if x.currentStep >= |x.plan| {
        SavedSound(o, s, p, x.(status := Completed, pending := NoAction), false);
      } else if o.autoEdit && p.nativeWrites >= FILE_GUARD {
        SavedSound(o, s, p, x.(pending := StopForUser(true), status := WaitingForUser, lastError := NoError), true);
      } else {
        ReplyEffect(o, p, x, i);
        TurnIsShort(i);
        WriteCallsBound(TurnOf(i).calls);
        NativeEffectSound(o, s, p, x, ReplyStep(o, p, x, i), WriteCalls(TurnOf(i).calls));
      }
    }
  }
}
