/** The write guard over every sequence of calls: what stops, what is counted, and what is not. */
module AgentWrites {
  import opened Collections
  import opened AgentSteps
  import opened AgentEffects
  import opened AgentRuns
  import opened AgentRunSafety
  import opened AgentCalls

  // ------------------------------------------------------------------
  // What every call keeps
  // ------------------------------------------------------------------

  /** Every turn that the call may run satisfies `p`. */
  ghost predicate TurnsSatisfy(p: TurnResult -> bool, c: Call) {
    match c
    case StepCall(_, _) => true
    case NativeCall(_, _, native) => p(TurnOf(native))
    case WholeRun(run) => forall k: nat :: p(TurnOf(run.world(k).native))
    case Outside(_, _) => true
  }

  ghost predicate AllTurnsSatisfy(p: TurnResult -> bool, calls: seq<Call>) {
    forall k :: 0 <= k < |calls| ==> TurnsSatisfy(p, calls[k])
  }

  /** Any turn below the guard that satisfies `p` keeps `inv`. */
  ghost predicate TurnsKeep(o: Options, p: TurnResult -> bool, inv: Tools -> bool) {
    forall w: Tools, turn: TurnResult :: inv(w) && !Guarded(o, w) && p(turn) ==> inv(AfterTurn(w, turn))
  }

  lemma AdvanceKeepsTools(o: Options, p: TurnResult -> bool, inv: Tools -> bool, s: LoopState, goal: Option<string>,
                          json: JsonInputs, native: NativeInputs)
    requires TurnsKeep(o, p, inv) && p(TurnOf(native)) && inv(ToolsOf(s))
    ensures inv(ToolsOf(Advance(o, s, goal, json, native).state))
  {
    NativeStepTools(o, s, goal, native);
    JsonStepTools(o, s, goal, json);
  }

  /** What follows a step in an iteration does not concern the tools. */
  lemma AfterStepKeepsTools(o: Options, r: StepResult, i: RunInputs)
    ensures ToolsOf(AfterStep(o, r, i.validation, i.newPlan).state) == ToolsOf(r.state)
  {
  }

  lemma IterateTools(o: Options, s: LoopState, goal: Option<string>, timed: bool, i: RunInputs)
    ensures var w := ToolsOf(Iterate(o, s, goal, timed, i).state);
            w == ToolsOf(s) || w == ToolsOf(Advance(o, s, goal, i.json, i.native).state)
  {
    AfterStepKeepsTools(o, Advance(o, s, goal, i.json, i.native), i);
  }

  lemma RunKeepsTools(o: Options, p: TurnResult -> bool, inv: Tools -> bool, s: LoopState, c: RunCall)
    requires TurnsKeep(o, p, inv) && TurnsSatisfy(p, WholeRun(c)) && inv(ToolsOf(s))
    ensures inv(ToolsOf(Run(o, s, c).state))
  {
    var kept := (t: LoopState) => inv(ToolsOf(t));
    forall t: LoopState, g: Option<string>, j: nat | kept(t)
      ensures kept(BodyOf(o, c.budget.Some?, c.world)(t, g, j).state)
    {
      var i := c.world(j);
      assert p(TurnOf(i.native));
      AdvanceKeepsTools(o, p, inv, t, g, i.json, i.native);
      IterateTools(o, t, g, c.budget.Some?, i);
    }
    LoopEndKeeps(kept, o, s, c);
    LoopEndFrames(o, s, c);
    assert ToolsOf(Run(o, s, c).state) == ToolsOf(LoopEnd(o, s, c));
  }

  /** What turns keep, every sequence of calls keeps. */
  lemma {:induction false} CallsKeepTools(o: Options, p: TurnResult -> bool, inv: Tools -> bool, s: LoopState,
                                          calls: seq<Call>)
    requires TurnsKeep(o, p, inv) && AllTurnsSatisfy(p, calls) && inv(ToolsOf(s))
    ensures inv(ToolsOf(CalledAll(o, s, calls)))
    decreases |calls|
  {
    if calls != [] {
      var c := calls[0];
      assert TurnsSatisfy(p, c);
      match c {
        case StepCall(goal, json) => JsonStepTools(o, s, goal, json);
        case NativeCall(goal, json, native) => AdvanceKeepsTools(o, p, inv, s, goal, json, native);
        case WholeRun(run) => RunKeepsTools(o, p, inv, s, run);
        case Outside(_, _) =>
      }
      assert forall k :: 0 <= k < |calls| - 1 ==> calls[1..][k] == calls[k + 1];
      CallsKeepTools(o, p, inv, Called(o, s, c), calls[1..]);
    }
  }

  // ------------------------------------------------------------------
  // The guard holds for good
  // ------------------------------------------------------------------

  /** Once the count has reached the guard, no call ever dispatches another tool, whatever the user and other
      commands do in between. */
  lemma GuardHoldsForGood(o: Options, s: LoopState, calls: seq<Call>)
    requires o.autoEdit && s.nativeWrites >= 10
    ensures CalledAll(o, s, calls).toolCalls == s.toolCalls
    ensures CalledAll(o, s, calls).nativeWrites == s.nativeWrites
  {
    var inv := (w: Tools) => w == ToolsOf(s);
    var any := (turn: TurnResult) => true;
    assert TurnsKeep(o, any, inv);
    CallsKeepTools(o, any, inv, s, calls);
  }

  /** And every later native step on an unfinished plan stops for the user. */
  lemma GuardStopsEveryLaterStep(o: Options, s: LoopState, calls: seq<Call>, goal: Option<string>, i: NativeInputs)
    requires o.autoEdit && s.nativeWrites >= 10
    requires var p := Prepared(CalledAll(o, s, calls), goal, i.plan);
             p.Some? && p.value.session.Some? && p.value.session.value.currentStep < |p.value.session.value.plan|
    ensures var r := NativeStep(o, CalledAll(o, s, calls), goal, i);
            r.Stepped? && r.stopped && r.state.toolCalls == s.toolCalls
  {
    GuardHoldsForGood(o, s, calls);
    GuardStopsEveryStep(o, CalledAll(o, s, calls), goal, i);
  }

  // ------------------------------------------------------------------
  // The counted writes
  // ------------------------------------------------------------------

  /** A turn with at most `b` writes. */
  function WritesWithin(b: nat): TurnResult -> bool {
    (turn: TurnResult) => WriteCalls(turn.calls) <= b
  }

  /** With auto-edit on, the count never exceeds nine plus the largest number of writes in one turn. */
  lemma CountIsBounded(o: Options, session: Option<Session>, pendingPatch: Option<Proposal>, calls: seq<Call>, b: nat)
    requires o.autoEdit && AllTurnsSatisfy(WritesWithin(b), calls)
    ensures CalledAll(o, Fresh(session, pendingPatch), calls).nativeWrites <= 9 + b
  {
    var inv := (w: Tools) => w.writes <= 9 + b;
    assert TurnsKeep(o, WritesWithin(b), inv);
    CallsKeepTools(o, WritesWithin(b), inv, Fresh(session, pendingPatch), calls);
  }

  // ------------------------------------------------------------------
  // The writes really dispatched
  // ------------------------------------------------------------------

  /** The writes of the turns that raised. */
  function LostWrites(lost: seq<seq<string>>): nat {
    if lost == [] then 0 else LostWrites(lost[..|lost| - 1]) + WriteCalls(lost[|lost| - 1])
  }

  ghost predicate Balanced(w: Tools) {
    w.writes + LostWrites(w.lost) == WriteCalls(w.calls)
  }

  /** Writes are counted by the names of the two tools that write files, each call once. */
  lemma {:induction false} WriteCallsAreTheWrites(calls: seq<string>)
    ensures WriteCalls(calls) == multiset(calls)["edit_file"] + multiset(calls)["write_file"]
    decreases |calls|
  {
    if calls != [] {
      assert calls == [calls[0]] + calls[1..];
      assert "edit_file"[0] != "write_file"[0];
      WriteCallsAreTheWrites(calls[1..]);
    }
  }

  lemma {:induction false} WriteCallsConcat(a: seq<string>, b: seq<string>)
    ensures WriteCalls(a + b) == WriteCalls(a) + WriteCalls(b)
    decreases |a|
  {
    if a == [] {
      assert a + b == b;
    } else {
      assert (a + b)[1..] == a[1..] + b;
      WriteCallsConcat(a[1..], b);
    }
  }

  lemma TurnKeepsBalance(w: Tools, turn: TurnResult)
    requires Balanced(w)
    ensures Balanced(AfterTurn(w, turn))
  {
    WriteCallsConcat(w.calls, turn.calls);
    assert (w.lost + [turn.calls])[..|w.lost|] == w.lost;
  }

  /** Every write dispatched is either counted or belongs to a turn that raised. */
  lemma WritesAreCountedOrLost(o: Options, session: Option<Session>, pendingPatch: Option<Proposal>, calls: seq<Call>)
    ensures var s := CalledAll(o, Fresh(session, pendingPatch), calls);
            s.nativeWrites + LostWrites(s.lostTurns) == WriteCalls(s.toolCalls)
  {
    var any := (turn: TurnResult) => true;
    forall w: Tools, turn: TurnResult | Balanced(w) ensures Balanced(AfterTurn(w, turn)) {
      TurnKeepsBalance(w, turn);
    }
    assert TurnsKeep(o, any, Balanced);
    CallsKeepTools(o, any, Balanced, Fresh(session, pendingPatch), calls);
  }

  lemma {:induction false} NoLostWritesIff(lost: seq<seq<string>>)
    ensures LostWrites(lost) == 0 <==> forall k :: 0 <= k < |lost| ==> WriteCalls(lost[k]) == 0
    decreases |lost|
  {
    if lost != [] {
      NoLostWritesIff(lost[..|lost| - 1]);
    }
  }

  /** The count is the number of writes dispatched exactly when no turn raised after dispatching one. */
  lemma CountIsExactIff(o: Options, session: Option<Session>, pendingPatch: Option<Proposal>, calls: seq<Call>)
    ensures var s := CalledAll(o, Fresh(session, pendingPatch), calls);
            s.nativeWrites == WriteCalls(s.toolCalls) <==>
            forall k :: 0 <= k < |s.lostTurns| ==> WriteCalls(s.lostTurns[k]) == 0
  {
    WritesAreCountedOrLost(o, session, pendingPatch, calls);
    NoLostWritesIff(CalledAll(o, Fresh(session, pendingPatch), calls).lostTurns);
  }

  /** A turn with at most `b` writes that does not raise after dispatching one. */
  function CleanWithin(b: nat): TurnResult -> bool {
    (turn: TurnResult) => WriteCalls(turn.calls) <= b && (turn.end == TurnRaised ==> WriteCalls(turn.calls) == 0)
  }

  /** With auto-edit on, the writes really dispatched are bounded in the same way, provided that no turn
      raises after dispatching a write. */
  lemma WritesAreBounded(o: Options, session: Option<Session>, pendingPatch: Option<Proposal>, calls: seq<Call>, b: nat)
    requires o.autoEdit && AllTurnsSatisfy(CleanWithin(b), calls)
    ensures WriteCalls(CalledAll(o, Fresh(session, pendingPatch), calls).toolCalls) <= 9 + b
  {
    var inv := (w: Tools) => WriteCalls(w.calls) == w.writes <= 9 + b;
    forall w: Tools, turn: TurnResult | inv(w) && !Guarded(o, w) && CleanWithin(b)(turn)
      ensures inv(AfterTurn(w, turn))
    {
      WriteCallsConcat(w.calls, turn.calls);
    }
    CallsKeepTools(o, CleanWithin(b), inv, Fresh(session, pendingPatch), calls);
  }

  // ------------------------------------------------------------------
  // Turns that raise escape the guard
  // ------------------------------------------------------------------

  function Repeat<T>(x: T, n: nat): (r: seq<T>)
    ensures |r| == n && forall k :: 0 <= k < n ==> r[k] == x
  {
    seq(n, _ => x)
  }

  lemma {:induction false} RepeatedWrites(n: nat)
    ensures WriteCalls(Repeat("edit_file", n)) == n
    decreases n
  {
    if n > 0 {
      assert Repeat("edit_file", n)[1..] == Repeat("edit_file", n - 1);
      RepeatedWrites(n - 1);
    }
  }

  /** Twenty edits, after which the model call that reports them raises. */
  function EditsThenRaise(): NativeInputs {
    var edits := NativeCalls(Repeat("edit_file", MAX_TURN_TOOLS));
    NativeInputs([], edits, edits, [NativeRaised], None, false, NoError)
  }

  /** The session and options on which such a turn can be repeated. */
  predicate MidPlan(o: Options, s: LoopState) {
    && o.nativeTools && s.nativeWrites == 0
    && s.session.Some? && s.session.value.currentStep < |s.session.value.plan|
  }

  lemma EditsAreLost(o: Options, s: LoopState, json: JsonInputs)
    requires MidPlan(o, s)
    ensures var t := Called(o, s, NativeCall(None, json, EditsThenRaise()));
            MidPlan(o, t) && t.toolCalls == s.toolCalls + Repeat("edit_file", MAX_TURN_TOOLS)
  {
    var edits := Repeat("edit_file", MAX_TURN_TOOLS);
    assert edits[0] == "edit_file" && "run_command" !in edits;
    assert [] + edits == edits;
  }

  /** Any number of such turns leaves the count at zero, so the guard never acts: with auto-edit on, there
      is no bound on the writes dispatched. */
  lemma {:induction false} RaisedTurnsEscapeTheGuard(o: Options, s: LoopState, json: JsonInputs, n: nat)
    requires MidPlan(o, s)
    ensures var t := CalledAll(o, s, Repeat(NativeCall(None, json, EditsThenRaise()), n));
            t.nativeWrites == 0 && WriteCalls(t.toolCalls) == WriteCalls(s.toolCalls) + MAX_TURN_TOOLS * n
    decreases n
  {
    if n > 0 {
      var call := NativeCall(None, json, EditsThenRaise());
      var t := Called(o, s, call);
      EditsAreLost(o, s, json);
      WriteCallsConcat(s.toolCalls, Repeat("edit_file", MAX_TURN_TOOLS));
      RepeatedWrites(MAX_TURN_TOOLS);
      assert Repeat(call, n)[1..] == Repeat(call, n - 1);
      RaisedTurnsEscapeTheGuard(o, t, json, n - 1);
    }
  }
}
