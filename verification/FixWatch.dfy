/** `fix --watch`: repeated approval-gated repair attempts that share one task log. */
module FixWatch {
  import opened Collections

  /** The digest of a bounded, redacted failure tail. */
  type TailHash = string

  datatype EventKind = Fix | Apply | Edit | Rollback | Interruption

  datatype Mode = Plain | Watch | NoMode

  datatype Status = Proposed | Applied | Failed | Passed | Interrupted | NoStatus

  datatype Category = NoCategory | CommandTimeout | MissingProfile | LoopNoProgress | BlockedSuiteCommand

  datatype Iteration = Iteration(
    event: EventKind, mode: Mode, status: Status, tailHash: Option<TailHash>, category: Category)

  type TaskLog = seq<Iteration>

  // ------------------------------------------------------------------
  // Running the profile suites
  // ------------------------------------------------------------------

  /** What running one configured suite command came to. */
  datatype SuiteRun = SuiteRun(exitCode: int, executed: bool)

  /** The reported run: the deciding suite (absent when all passed), its exit code and category,
      and the suites skipped for want of a command. */
  datatype SuitesReport = SuitesReport(suite: Option<nat>, exitCode: int, category: Category, skipped: seq<nat>)

  function SuiteCategory(run: SuiteRun): Category {
    if !run.executed && run.exitCode in {125, 126} then BlockedSuiteCommand
    else if run.exitCode == 124 then CommandTimeout
    else NoCategory
  }

  predicate Fails(suite: Option<SuiteRun>) {
    suite.Some? && suite.value.exitCode != 0
  }

  /** Suites run in order up to the first failing one, which decides the report. */
  method RunProfileSuites(suites: seq<Option<SuiteRun>>) returns (report: SuitesReport)
    ensures report.suite.Some? <==> exists i :: 0 <= i < |suites| && Fails(suites[i])
    ensures report.suite.Some? ==>
              && report.suite.value < |suites|
              && Fails(suites[report.suite.value])
              && (forall i :: 0 <= i < report.suite.value ==> !Fails(suites[i]))
              && report.exitCode == suites[report.suite.value].value.exitCode
              && report.category == SuiteCategory(suites[report.suite.value].value)
    ensures report.suite.None? ==> report.exitCode == 0 && report.category == NoCategory
    ensures forall i :: i in report.skipped <==>
              0 <= i < |suites| && suites[i].None? && (report.suite.Some? ==> i < report.suite.value)
    ensures forall a, b :: 0 <= a < b < |report.skipped| ==> report.skipped[a] < report.skipped[b]
  {
    var skipped: seq<nat> := [];
    for i := 0 to |suites|
      invariant forall j :: 0 <= j < i ==> !Fails(suites[j])
      invariant forall j :: j in skipped <==> 0 <= j < i && suites[j].None?
      invariant forall a :: 0 <= a < |skipped| ==> skipped[a] < i
      invariant forall a, b :: 0 <= a < b < |skipped| ==> skipped[a] < skipped[b]
    {
      if suites[i].None? {
        skipped := skipped + [i];
      } else {
        var run := suites[i].value;
        var category := if run.exitCode == 124 then CommandTimeout else NoCategory;
        if !run.executed && run.exitCode in {125, 126} {
          category := BlockedSuiteCommand;
        }
        if run.exitCode != 0 {
          return SuitesReport(Some(i), run.exitCode, category, skipped);
        }
      }
    }
    report := SuitesReport(None, 0, NoCategory, skipped);
  }

  // ------------------------------------------------------------------
  // One invocation
  // ------------------------------------------------------------------

  datatype EditOutcome = PatchSaved | EditInterrupted | EditFailed

  /** The arguments of one invocation and everything it observes. */
  datatype Invocation = Invocation(
    validSuite: bool,
    maxIterations: int,
    timeoutSeconds: int,
    commandFound: bool,
    taskAvailable: bool,
    recordingWorks: bool,
    interruptedWhileTesting: bool,
    exitCode: int,
    category: Category,
    outputHash: Option<TailHash>,
    edit: EditOutcome)

  datatype Outcome = Outcome(log: TaskLog, exitCode: int, proposed: bool)

  predicate IsProposal(it: Iteration) {
    it.event == Fix && (it.status == Proposed || it.status == Applied)
  }

  function CountProposals(log: TaskLog): nat {
    if log == [] then 0
    else CountProposals(log[..|log| - 1]) + (if IsProposal(log[|log| - 1]) then 1 else 0)
  }

  predicate CarriesHash(it: Iteration) {
    it.event == Fix && it.tailHash.Some?
  }

  /** The hash of the latest fix entry that has one. */
  function LatestHash(log: TaskLog): Option<TailHash> {
    if log == [] then None
    else if CarriesHash(log[|log| - 1]) then log[|log| - 1].tailHash
    else LatestHash(log[..|log| - 1])
  }

  function Recorded(log: TaskLog, i: Invocation, it: Iteration): TaskLog {
    if i.taskAvailable && i.recordingWorks then log + [it] else log
  }

  predicate NoProgress(log: TaskLog, i: Invocation) {
    i.taskAvailable && i.outputHash.Some? && LatestHash(log) == i.outputHash
  }

  predicate BudgetSpent(log: TaskLog, i: Invocation) {
    (if i.taskAvailable then CountProposals(log) else 0) >= i.maxIterations
  }

  function FixEntry(status: Status, i: Invocation, category: Category): Iteration {
    Iteration(Fix, Watch, status, i.outputHash, category)
  }

  const INTERRUPTION: Iteration := Iteration(Interruption, NoMode, Interrupted, None, NoCategory)

  /** The outcome ladder, most urgent first. */
  function Invoke(log: TaskLog, i: Invocation): Outcome {
    if !i.validSuite || i.maxIterations < 1 || i.timeoutSeconds < 1 || !i.commandFound then Outcome(log, 1, false)
    else if i.interruptedWhileTesting then Outcome(Recorded(log, i, INTERRUPTION), 130, false)
    else if i.exitCode == 0 then
      Outcome(Recorded(log, i, Iteration(Fix, Watch, Passed, None, NoCategory)), 0, false)
    else if i.category == CommandTimeout then
      Outcome(Recorded(log, i, FixEntry(Failed, i, CommandTimeout)), 124, false)
    else if i.category == MissingProfile then
      Outcome(Recorded(log, i, FixEntry(Failed, i, MissingProfile)), 1, false)
    else if NoProgress(log, i) then
      Outcome(Recorded(log, i, FixEntry(Failed, i, LoopNoProgress)), 1, false)
    else if i.category == BlockedSuiteCommand then
      Outcome(Recorded(log, i, FixEntry(Failed, i, BlockedSuiteCommand)), i.exitCode, false)
    else if BudgetSpent(log, i) then
      Outcome(Recorded(log, i, FixEntry(Failed, i, NoCategory)), 1, false)
    else
      match i.edit
      case EditInterrupted => Outcome(Recorded(log, i, INTERRUPTION), 130, false)
      case EditFailed => Outcome(log, 1, false)
      case PatchSaved => Outcome(Recorded(log, i, FixEntry(Proposed, i, NoCategory)), 0, true)
  }

  /** The task sidecar, as the commands see it. */
  class TaskSidecar {
    var iterations: TaskLog

    constructor ()
      ensures iterations == []
    {
      iterations := [];
    }

    method Record(i: Invocation, it: Iteration)
      modifies this
      ensures iterations == Recorded(old(iterations), i, it)
    {
      if i.taskAvailable && i.recordingWorks {
        iterations := iterations + [it];
      }
    }

    method RunFixWatch(i: Invocation) returns (exitCode: int, proposed: bool)
      modifies this
      ensures Outcome(iterations, exitCode, proposed) == Invoke(old(iterations), i)
    {
      proposed := false;
      if !i.validSuite || i.maxIterations < 1 || i.timeoutSeconds < 1 || !i.commandFound {
        return 1, false;
      }
      if i.interruptedWhileTesting {
        Record(i, INTERRUPTION);
        return 130, false;
      }
      if i.exitCode == 0 {
        Record(i, Iteration(Fix, Watch, Passed, None, NoCategory));
        return 0, false;
      }
      if i.category == CommandTimeout {
        Record(i, FixEntry(Failed, i, CommandTimeout));
        return 124, false;
      }
      if i.category == MissingProfile {
        Record(i, FixEntry(Failed, i, MissingProfile));
        return 1, false;
      }
      var previous: Option<TailHash> := None;
      if i.taskAvailable {
        previous := FindLatestHash();
      }
      if i.outputHash.Some? && previous == i.outputHash {
        Record(i, FixEntry(Failed, i, LoopNoProgress));
        return 1, false;
      }
      if i.category == BlockedSuiteCommand {
        Record(i, FixEntry(Failed, i, BlockedSuiteCommand));
        return i.exitCode, false;
      }
      var proposalsUsed := if i.taskAvailable then CountProposals(iterations) else 0;
      if proposalsUsed >= i.maxIterations {
        Record(i, FixEntry(Failed, i, NoCategory));
        return 1, false;
      }
      match i.edit {
        case EditInterrupted =>
          Record(i, INTERRUPTION);
          return 130, false;
        case EditFailed =>
          return 1, false;
        case PatchSaved =>
          Record(i, FixEntry(Proposed, i, NoCategory));
          return 0, true;
      }
    }

    /** The backward scan of the log. */
    method FindLatestHash() returns (hash: Option<TailHash>)
      ensures hash == LatestHash(iterations)
    {
      var n := |iterations|;
      assert iterations[..n] == iterations;
      while n > 0
        invariant 0 <= n <= |iterations|
        invariant LatestHash(iterations[..n]) == LatestHash(iterations)
      {
        if CarriesHash(iterations[n - 1]) {
          return iterations[n - 1].tailHash;
        }
        assert iterations[..n][..n - 1] == iterations[..n - 1];
        n := n - 1;
      }
      hash := None;
    }

    /** Applying the pending patch marks the latest open proposal and appends an entry. */
    method RecordApply()
      modifies this
      ensures iterations == AfterApply(old(iterations))
    {
      var n := |iterations|;
      assert iterations[..n] == iterations && iterations[n..] == [];
      while n > 0
        invariant 0 <= n <= |iterations|
        invariant iterations == old(iterations)
        invariant MarkApplied(iterations) == MarkApplied(iterations[..n]) + iterations[n..]
      {
        if iterations[n - 1].event == Fix && iterations[n - 1].status == Proposed {
          assert iterations[..n] == iterations[..n - 1] + [iterations[n - 1]];
          iterations := iterations[n - 1 := iterations[n - 1].(status := Applied)];
          assert iterations == MarkApplied(old(iterations));
          break;
        }
        assert iterations[..n][..n - 1] == iterations[..n - 1];
        assert iterations[n - 1..] == [iterations[n - 1]] + iterations[n..];
        n := n - 1;
      }
      iterations := iterations + [Iteration(Apply, NoMode, Applied, None, NoCategory)];
    }
  }

  function MarkApplied(log: TaskLog): (r: TaskLog)
    ensures |r| == |log|
  {
    if log == [] then []
    else
      var n := |log| - 1;
      if log[n].event == Fix && log[n].status == Proposed then log[..n] + [log[n].(status := Applied)]
      else MarkApplied(log[..n]) + [log[n]]
  }

  function AfterApply(log: TaskLog): TaskLog {
    MarkApplied(log) + [Iteration(Apply, NoMode, Applied, None, NoCategory)]
  }

  // ------------------------------------------------------------------
  // Runs
  // ------------------------------------------------------------------

  /** What else may write the log between two watch invocations. A plain `fix` has no cap. */
  datatype Command =
    | WatchOnce(i: Invocation)
    | ApplyPatch
    | EditOnce
    | RollbackLast
    | PlainFix(proposed: bool, hash: Option<TailHash>, category: Category)

  function After(log: TaskLog, c: Command): TaskLog {
    match c
    case WatchOnce(i) => Invoke(log, i).log
    case ApplyPatch => AfterApply(log)
    case EditOnce => log + [Iteration(Edit, NoMode, NoStatus, None, NoCategory)]
    case RollbackLast => log + [Iteration(Rollback, NoMode, NoStatus, None, NoCategory)]
    case PlainFix(proposed, hash, category) =>
      log + [Iteration(Fix, Plain, if proposed then Proposed else Failed, hash, category)]
  }

  function Run(log: TaskLog, commands: seq<Command>): TaskLog {
    if commands == [] then log
    else After(Run(log, commands[..|commands| - 1]), commands[|commands| - 1])
  }

  function PlainProposals(commands: seq<Command>): nat {
    if commands == [] then 0
    else
      var c := commands[|commands| - 1];
      PlainProposals(commands[..|commands| - 1]) + (if c.PlainFix? && c.proposed then 1 else 0)
  }

  lemma CountAppend(log: TaskLog, it: Iteration)
    ensures CountProposals(log + [it]) == CountProposals(log) + (if IsProposal(it) then 1 else 0)
  {
    assert (log + [it])[..|log|] == log;
  }

  lemma {:induction false} MarkAppliedKeepsCount(log: TaskLog)
    ensures CountProposals(MarkApplied(log)) == CountProposals(log)
    decreases |log|
  {
    if log != [] {
      var n := |log| - 1;
      CountAppend(log[..n], log[n].(status := Applied));
      MarkAppliedKeepsCount(log[..n]);
      CountAppend(MarkApplied(log[..n]), log[n]);
    }
  }

  lemma InvokeCount(log: TaskLog, i: Invocation)
    ensures CountProposals(Invoke(log, i).log) ==
            CountProposals(log) + (if Invoke(log, i).proposed && i.taskAvailable && i.recordingWorks then 1 else 0)
    ensures Invoke(log, i).proposed && i.taskAvailable ==> CountProposals(log) < i.maxIterations
  {
    var after := Invoke(log, i).log;
    InvokeRecordsOne(log, i);
    if after != log {
      CountAppend(log, after[|log|]);
    }
  }

  /** An invocation writes at most one entry, a proposal exactly when it proposed a patch. */
  lemma InvokeRecordsOne(log: TaskLog, i: Invocation)
    ensures var o := Invoke(log, i);
            || (o.log == log && !(o.proposed && i.taskAvailable && i.recordingWorks))
            || (&& i.taskAvailable && i.recordingWorks && |o.log| == |log| + 1
                && o.log == log + [o.log[|log|]] && (IsProposal(o.log[|log|]) <==> o.proposed))
    ensures Invoke(log, i).proposed && i.taskAvailable ==> CountProposals(log) < i.maxIterations
  {
  }

  predicate Startable(i: Invocation) {
    i.validSuite && i.maxIterations >= 1 && i.timeoutSeconds >= 1 && i.commandFound && !i.interruptedWhileTesting
  }

  /** A patch is proposed exactly when nothing on the ladder stands before it, and the exit code is zero
      exactly when the tests passed or a patch was proposed. */
  lemma ProposesIff(log: TaskLog, i: Invocation)
    ensures Invoke(log, i).proposed <==>
              && Startable(i) && i.exitCode != 0 && i.edit == PatchSaved
              && i.category !in {CommandTimeout, MissingProfile, BlockedSuiteCommand}
              && !NoProgress(log, i) && !BudgetSpent(log, i)
    ensures Invoke(log, i).exitCode == 0 <==> Startable(i) && (i.exitCode == 0 || Invoke(log, i).proposed)
  {
  }

  /** What one command adds to the recorded proposals. */
  function Added(log: TaskLog, c: Command): nat {
    match c
    case WatchOnce(i) => if Invoke(log, i).proposed && i.taskAvailable && i.recordingWorks then 1 else 0
    case PlainFix(proposed, _, _) => if proposed then 1 else 0
    case _ => 0
  }

  lemma AfterCount(log: TaskLog, c: Command)
    ensures CountProposals(After(log, c)) == CountProposals(log) + Added(log, c)
    ensures c.WatchOnce? && Added(log, c) == 1 ==> CountProposals(log) < c.i.maxIterations
  {
    match c {
      case WatchOnce(i) => InvokeCount(log, i);
      case ApplyPatch =>
        MarkAppliedKeepsCount(log);
        CountAppend(MarkApplied(log), Iteration(Apply, NoMode, Applied, None, NoCategory));
      case EditOnce => CountAppend(log, Iteration(Edit, NoMode, NoStatus, None, NoCategory));
      case RollbackLast => CountAppend(log, Iteration(Rollback, NoMode, NoStatus, None, NoCategory));
      case PlainFix(proposed, hash, category) =>
        CountAppend(log, Iteration(Fix, Plain, if proposed then Proposed else Failed, hash, category));
    }
  }

  predicate WithinLimit(c: Command, limit: int) {
    c.WatchOnce? ==> c.i.maxIterations <= limit
  }

  /** No plain fixes, and every watch run is within the limit and gets recorded. */
  predicate Disciplined(c: Command, limit: int) {
    !c.PlainFix? && (c.WatchOnce? ==> c.i.maxIterations <= limit && c.i.taskAvailable && c.i.recordingWorks)
  }

  /** Over any interleaving of watch runs, applies, edits and rollbacks, the recorded proposals never
      exceed the larger of the limit and their initial number; only plain fixes add to that. */
  lemma {:induction false} ProposalCap(log: TaskLog, commands: seq<Command>, limit: int)
    requires forall k :: 0 <= k < |commands| ==> WithinLimit(commands[k], limit)
    ensures CountProposals(Run(log, commands)) <=
            MaxInt(limit, CountProposals(log)) + PlainProposals(commands)
    decreases |commands|
  {
    if commands != [] {
      var n := |commands| - 1;
      assert WithinLimit(commands[n], limit);
      ProposalCap(log, commands[..n], limit);
      AfterCount(Run(log, commands[..n]), commands[n]);
    }
  }

  /** Patches actually proposed by the watch runs of a history. */
  function PatchesProposed(log: TaskLog, commands: seq<Command>): nat {
    if commands == [] then 0
    else
      var n := |commands| - 1;
      var c := commands[n];
      PatchesProposed(log, commands[..n]) +
      (if Proposes(Run(log, commands[..n]), c) then 1 else 0)
  }

  predicate Proposes(log: TaskLog, c: Command) {
    c.WatchOnce? && Invoke(log, c.i).proposed
  }

  /** When every recording works, the cap bounds the patches really proposed, not only the log. */
  lemma RecordedProposalsAreCapped(log: TaskLog, commands: seq<Command>, limit: int)
    requires forall k :: 0 <= k < |commands| ==> Disciplined(commands[k], limit)
    ensures CountProposals(Run(log, commands)) == CountProposals(log) + PatchesProposed(log, commands)
    ensures CountProposals(log) + PatchesProposed(log, commands) <= MaxInt(limit, CountProposals(log))
  {
    DisciplinedIsWithin(commands, limit);
    RecordedProposalsAreCounted(log, commands, limit);
    ProposalCap(log, commands, limit);
  }

  lemma DisciplinedIsWithin(commands: seq<Command>, limit: int)
    requires forall k :: 0 <= k < |commands| ==> Disciplined(commands[k], limit)
    ensures forall k :: 0 <= k < |commands| ==> WithinLimit(commands[k], limit)
  {
    forall k | 0 <= k < |commands| ensures WithinLimit(commands[k], limit) {
      assert Disciplined(commands[k], limit);
    }
  }

  lemma {:induction false} RecordedProposalsAreCounted(log: TaskLog, commands: seq<Command>, limit: int)
    requires forall k :: 0 <= k < |commands| ==> Disciplined(commands[k], limit)
    ensures CountProposals(Run(log, commands)) == CountProposals(log) + PatchesProposed(log, commands)
    ensures PlainProposals(commands) == 0
    decreases |commands|
  {
    if commands != [] {
      var n := |commands| - 1;
      assert Disciplined(commands[n], limit);
      RecordedProposalsAreCounted(log, commands[..n], limit);
      DisciplinedStep(Run(log, commands[..n]), commands[n], limit);
    }
  }

  lemma DisciplinedStep(log: TaskLog, c: Command, limit: int)
    requires Disciplined(c, limit)
    ensures CountProposals(After(log, c)) == CountProposals(log) + (if Proposes(log, c) then 1 else 0)
    ensures Proposes(log, c) ==> CountProposals(log) < limit
  {
    AfterCount(log, c);
  }

  /** Recording is best effort, so the cap depends on it: a log that cannot be written lets the
      same failure be proposed for any number of times. */
  lemma {:induction false} UnrecordedProposalsUnbounded(n: nat, i: Invocation) returns (commands: seq<Command>)
    requires i == Invocation(true, 1, 1, true, true, false, false, 1, NoCategory, i.outputHash, PatchSaved)
    ensures forall c :: c in commands ==> c == WatchOnce(i)
    ensures PatchesProposed([], commands) == n && Run([], commands) == []
    decreases n
  {
    if n == 0 {
      commands := [];
    } else {
      var before := UnrecordedProposalsUnbounded(n - 1, i);
      commands := before + [WatchOnce(i)];
      assert commands[..|commands| - 1] == before;
    }
  }

  // ------------------------------------------------------------------
  // No repeated failure
  // ------------------------------------------------------------------

  predicate IsWatchProposal(it: Iteration) {
    IsProposal(it) && it.mode == Watch
  }

  /** Every watch proposal from `start` on answers a failure tail different from the one recorded
      by the latest hash-bearing fix entry before it. */
  ghost predicate NoRepeatFrom(log: TaskLog, start: nat) {
    forall k :: start <= k < |log| && IsWatchProposal(log[k]) && log[k].tailHash.Some? ==>
      LatestHash(log[..k]) != log[k].tailHash
  }

  lemma AppendKeepsNoRepeat(log: TaskLog, start: nat, it: Iteration)
    requires NoRepeatFrom(log, start)
    requires IsWatchProposal(it) && it.tailHash.Some? ==> LatestHash(log) != it.tailHash
    ensures NoRepeatFrom(log + [it], start)
  {
    var next := log + [it];
    forall k | start <= k < |next| && IsWatchProposal(next[k]) && next[k].tailHash.Some?
      ensures LatestHash(next[..k]) != next[k].tailHash
    {
      if k == |log| {
        assert next[..k] == log;
      } else {
        assert next[..k] == log[..k];
      }
    }
  }

  lemma {:induction false} MarkAppliedAt(log: TaskLog, k: nat)
    requires k < |log|
    ensures MarkApplied(log)[k] == log[k] ||
            (log[k].event == Fix && log[k].status == Proposed && MarkApplied(log)[k] == log[k].(status := Applied))
    decreases |log|
  {
    var n := |log| - 1;
    if !(log[n].event == Fix && log[n].status == Proposed) && k < n {
      MarkAppliedAt(log[..n], k);
    }
  }

  lemma {:induction false} LatestHashSame(a: TaskLog, b: TaskLog)
    requires |a| == |b|
    requires forall k :: 0 <= k < |a| ==> a[k].event == b[k].event && a[k].tailHash == b[k].tailHash
    ensures LatestHash(a) == LatestHash(b)
    decreases |a|
  {
    if a != [] {
      LatestHashSame(a[..|a| - 1], b[..|b| - 1]);
    }
  }

  lemma MarkAppliedKeepsNoRepeat(log: TaskLog, start: nat)
    requires NoRepeatFrom(log, start)
    ensures NoRepeatFrom(MarkApplied(log), start)
  {
    var next := MarkApplied(log);
    forall k | 0 <= k < |log|
      ensures next[k].event == log[k].event && next[k].tailHash == log[k].tailHash
      ensures IsWatchProposal(next[k]) == IsWatchProposal(log[k])
    {
      MarkAppliedAt(log, k);
    }
    forall k | start <= k < |next| && IsWatchProposal(next[k]) && next[k].tailHash.Some?
      ensures LatestHash(next[..k]) != next[k].tailHash
    {
      LatestHashSame(next[..k], log[..k]);
    }
  }

  lemma AfterKeepsNoRepeat(log: TaskLog, c: Command, start: nat)
    requires NoRepeatFrom(log, start)
    ensures NoRepeatFrom(After(log, c), start)
  {
    match c {
      case WatchOnce(i) =>
        var next := After(log, c);
        if next != log {
          AppendKeepsNoRepeat(log, start, next[|log|]);
        }
      case ApplyPatch =>
        MarkAppliedKeepsNoRepeat(log, start);
        AppendKeepsNoRepeat(MarkApplied(log), start, Iteration(Apply, NoMode, Applied, None, NoCategory));
      case EditOnce => AppendKeepsNoRepeat(log, start, Iteration(Edit, NoMode, NoStatus, None, NoCategory));
      case RollbackLast => AppendKeepsNoRepeat(log, start, Iteration(Rollback, NoMode, NoStatus, None, NoCategory));
      case PlainFix(proposed, hash, category) =>
        AppendKeepsNoRepeat(log, start, Iteration(Fix, Plain, if proposed then Proposed else Failed, hash, category));
    }
  }

  /** However the log was begun and whatever else writes it, no watch proposal made since repeats the
      failure just recorded. */
  lemma {:induction false} NoProposalRepeatsAFailure(log: TaskLog, commands: seq<Command>)
    ensures NoRepeatFrom(Run(log, commands), |log|)
    decreases |commands|
  {
    if commands != [] {
      var n := |commands| - 1;
      NoProposalRepeatsAFailure(log, commands[..n]);
      AfterKeepsNoRepeat(Run(log, commands[..n]), commands[n], |log|);
    }
  }

  /** A passing run in between does not clear the rule: the same failure is still refused. */
  lemma PassDoesNotClearNoProgress(log: TaskLog, i: Invocation, pass: Invocation)
    requires i.taskAvailable && i.outputHash.Some? && LatestHash(log) == i.outputHash
    requires pass.exitCode == 0
    ensures !Invoke(Invoke(log, pass).log, i).proposed
  {
    var next := Invoke(log, pass).log;
    if next != log {
      assert next[..|next| - 1] == log;
    }
  }
}
