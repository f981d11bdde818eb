/** What a watch run records, what it exits with, and how long a recorded failure stays refused. */
module FixRepeats {
  import opened Collections
  import opened FixWatch

  // ------------------------------------------------------------------
  // What a failing suite is reported as
  // ------------------------------------------------------------------

  /** A command is blocked exactly when it did not execute and says so by its exit code; a timeout is told by its
      exit code alone. */
  lemma SuiteCategoryIff(run: SuiteRun)
    ensures SuiteCategory(run) == BlockedSuiteCommand <==> !run.executed && (run.exitCode == 125 || run.exitCode == 126)
    ensures SuiteCategory(run) == CommandTimeout <==> run.exitCode == 124
    ensures SuiteCategory(run) in {BlockedSuiteCommand, CommandTimeout, NoCategory}
  {
  }

  // ------------------------------------------------------------------
  // What one invocation records
  // ------------------------------------------------------------------

  /** The tests ran and failed. */
  predicate RanAndFailed(i: Invocation) {
    Startable(i) && i.exitCode != 0
  }

  /** Nothing on the ladder stands before asking for a patch. */
  predicate AsksForPatch(log: TaskLog, i: Invocation) {
    && RanAndFailed(i) && !NoProgress(log, i) && !BudgetSpent(log, i)
    && i.category !in {CommandTimeout, MissingProfile, BlockedSuiteCommand}
  }

  /** A failing run is recorded with its failure, unless it came to a patch and none was saved. */
  predicate RecordsFailure(log: TaskLog, i: Invocation) {
    && RanAndFailed(i) && i.taskAvailable && i.recordingWorks
    && (AsksForPatch(log, i) ==> i.edit == PatchSaved)
  }

  predicate RecordsInterruption(log: TaskLog, i: Invocation) {
    && i.validSuite && i.maxIterations >= 1 && i.timeoutSeconds >= 1 && i.commandFound
    && i.taskAvailable && i.recordingWorks
    && (i.interruptedWhileTesting || (AsksForPatch(log, i) && i.edit == EditInterrupted))
  }

  predicate RecordsPass(i: Invocation) {
    Startable(i) && i.exitCode == 0 && i.taskAvailable && i.recordingWorks
  }

  lemma LatestAppend(log: TaskLog, it: Iteration)
    ensures LatestHash(log + [it]) == if CarriesHash(it) then it.tailHash else LatestHash(log)
  {
    assert (log + [it])[..|log|] == log;
  }

  /** A failing run leaves one entry that names its own failure, so that the latest hash of the log is the hash of
      this failure if it has one; a pass, an interruption and everything unrecorded leave the latest hash alone. */
  lemma InvocationRecords(log: TaskLog, i: Invocation)
    ensures var o := Invoke(log, i);
            && (o.log == log <==> !RecordsFailure(log, i) && !RecordsInterruption(log, i) && !RecordsPass(i))
            && (o.log != log ==> |o.log| == |log| + 1 && o.log[..|log|] == log)
            && (o.log != log ==>
                  (var it := o.log[|log|];
                   && (RecordsFailure(log, i) ==>
                         it.event == Fix && it.mode == Watch && it.tailHash == i.outputHash &&
                         it.status == (if o.proposed then Proposed else Failed))
                   && (RecordsPass(i) ==> it == Iteration(Fix, Watch, Passed, None, NoCategory))
                   && (RecordsInterruption(log, i) ==> it.event == Interruption && !CarriesHash(it))))
    ensures LatestHash(Invoke(log, i).log) ==
            if RecordsFailure(log, i) && i.outputHash.Some? then i.outputHash else LatestHash(log)
  {
    var next := Invoke(log, i).log;
    if next != log {
      LatestAppend(log, next[|log|]);
    }
  }

  /** A category is recorded exactly for the failure it names, and the repeated failure comes before the blocked
      command, which alone passes the suite's own exit code on. */
  lemma FailureExits(log: TaskLog, i: Invocation)
    requires RanAndFailed(i) && !AsksForPatch(log, i)
    ensures var o := Invoke(log, i);
            var category :=
              if i.category in {CommandTimeout, MissingProfile} then i.category
              else if NoProgress(log, i) then LoopNoProgress
              else if i.category == BlockedSuiteCommand then BlockedSuiteCommand
              else NoCategory;
            && (o.exitCode ==
                match category {
                  case CommandTimeout => 124
                  case BlockedSuiteCommand => i.exitCode
                  case _ => 1
                })
            && (RecordsFailure(log, i) ==> |o.log| == |log| + 1 && o.log[|log|].category == category)
  {
  }

  /** The other ways out. */
  lemma OtherExits(log: TaskLog, i: Invocation)
    ensures var o := Invoke(log, i);
            var started := i.validSuite && i.maxIterations >= 1 && i.timeoutSeconds >= 1 && i.commandFound;
            && (!started ==> o == Outcome(log, 1, false))
            && (started && i.interruptedWhileTesting ==> o.exitCode == 130)
            && (AsksForPatch(log, i) ==>
                  o.exitCode == (if i.edit == EditInterrupted then 130 else if i.edit == EditFailed then 1 else 0))
  {
  }

  /** Without a task nothing is remembered: neither an earlier failure nor the budget stands in the way, and
      nothing is recorded. */
  lemma NoTaskNoMemory(log: TaskLog, i: Invocation)
    requires !i.taskAvailable
    ensures Invoke(log, i) == Outcome(log, Invoke([], i).exitCode, Invoke([], i).proposed)
    ensures AsksForPatch(log, i) <==>
              RanAndFailed(i) && i.category !in {CommandTimeout, MissingProfile, BlockedSuiteCommand}
  {
  }

  // ------------------------------------------------------------------
  // What the other commands record
  // ------------------------------------------------------------------

  predicate OpenProposal(it: Iteration) {
    it.event == Fix && it.status == Proposed
  }

  /** An apply marks the latest open proposal and nothing else; without one it marks nothing. */
  lemma {:induction false} LatestProposalIsMarked(log: TaskLog, k: int)
    requires -1 <= k < |log| && (k >= 0 ==> OpenProposal(log[k]))
    requires forall j :: k < j < |log| ==> !OpenProposal(log[j])
    ensures MarkApplied(log) == if k < 0 then log else log[k := log[k].(status := Applied)]
    decreases |log|
  {
    if log != [] {
      var n := |log| - 1;
      if k == n {
        assert log == log[..n] + [log[n]];
      } else {
        LatestProposalIsMarked(log[..n], k);
        assert log == log[..n] + [log[n]];
      }
    }
  }

  /** Every other command leaves one entry of its own kind at the end, and only an apply changes what is there. */
  lemma OtherCommandsRecordOne(log: TaskLog, c: Command)
    requires !c.WatchOnce?
    ensures |After(log, c)| == |log| + 1
    ensures After(log, c)[|log|].event == (match c {
              case ApplyPatch => Apply
              case EditOnce => Edit
              case RollbackLast => Rollback
              case _ => Fix
            })
    ensures After(log, c)[..|log|] == if c.ApplyPatch? then MarkApplied(log) else log
    ensures c.PlainFix? ==>
              var it := After(log, c)[|log|];
              it.mode == Plain && it.tailHash == c.hash && (IsProposal(it) <==> c.proposed)
  {
  }

  // ------------------------------------------------------------------
  // A recorded failure stays refused
  // ------------------------------------------------------------------

  /** The command records a failure with a hash that is not `h`. */
  predicate RecordsOther(log: TaskLog, c: Command, h: TailHash) {
    match c
    case WatchOnce(i) => RecordsFailure(log, i) && i.outputHash.Some? && i.outputHash != Some(h)
    case PlainFix(_, hash, _) => hash.Some? && hash != Some(h)
    case _ => false
  }

  lemma MarkAppliedKeepsLatest(log: TaskLog)
    ensures LatestHash(MarkApplied(log)) == LatestHash(log)
  {
    forall k | 0 <= k < |log|
      ensures MarkApplied(log)[k].event == log[k].event && MarkApplied(log)[k].tailHash == log[k].tailHash
    {
      MarkAppliedAt(log, k);
    }
    LatestHashSame(MarkApplied(log), log);
  }

  /** A failure stays the latest one through a command exactly when the command records no other. */
  lemma LatestKeptIff(log: TaskLog, c: Command, h: TailHash)
    requires LatestHash(log) == Some(h)
    ensures LatestHash(After(log, c)) == Some(h) <==> !RecordsOther(log, c, h)
  {
    match c {
      case WatchOnce(i) => InvocationRecords(log, i);
      case ApplyPatch =>
        MarkAppliedKeepsLatest(log);
        LatestAppend(MarkApplied(log), Iteration(Apply, NoMode, Applied, None, NoCategory));
      case EditOnce => LatestAppend(log, Iteration(Edit, NoMode, NoStatus, None, NoCategory));
      case RollbackLast => LatestAppend(log, Iteration(Rollback, NoMode, NoStatus, None, NoCategory));
      case PlainFix(proposed, hash, category) =>
        LatestAppend(log, Iteration(Fix, Plain, if proposed then Proposed else Failed, hash, category));
    }
  }

  ghost predicate NoOtherFailure(log: TaskLog, commands: seq<Command>, h: TailHash) {
    forall k :: 0 <= k < |commands| ==> !RecordsOther(Run(log, commands[..k]), commands[k], h)
  }

  lemma {:induction false} LatestKept(log: TaskLog, commands: seq<Command>, h: TailHash)
    requires LatestHash(log) == Some(h) && NoOtherFailure(log, commands, h)
    ensures LatestHash(Run(log, commands)) == Some(h)
    decreases |commands|
  {
    if commands != [] {
      var n := |commands| - 1;
      assert !RecordsOther(Run(log, commands[..n]), commands[n], h);
      forall k | 0 <= k < n ensures !RecordsOther(Run(log, commands[..n][..k]), commands[..n][k], h) {
        assert commands[..n][..k] == commands[..k];
      }
      LatestKept(log, commands[..n], h);
      LatestKeptIff(Run(log, commands[..n]), commands[n], h);
    }
  }

  /** Once a failure has been recorded, the same failure is not proposed for again while its task can be read:
      no number of applies, edits, rollbacks, passes and repetitions in between changes that, only a record of
      another failure does. A run that gets as far as the check exits with 1 and is recorded as no progress. */
  lemma RecordedFailureIsRefused(log: TaskLog, first: Invocation, commands: seq<Command>, again: Invocation)
    requires RecordsFailure(log, first) && first.outputHash.Some?
    requires NoOtherFailure(Invoke(log, first).log, commands, first.outputHash.value)
    requires again.taskAvailable && again.outputHash == first.outputHash
    ensures var now := Run(Invoke(log, first).log, commands);
            var o := Invoke(now, again);
            && !o.proposed
            && (RanAndFailed(again) && again.category !in {CommandTimeout, MissingProfile} ==>
                  o.exitCode == 1 &&
                  (again.recordingWorks ==> |o.log| == |now| + 1 && o.log[|now|].category == LoopNoProgress))
  {
    InvocationRecords(log, first);
    LatestKept(Invoke(log, first).log, commands, first.outputHash.value);
  }

  /** And another failure clears the way: the next run with the first one's hash is asked for a patch again,
      within the limit. */
  lemma OtherFailureClears(log: TaskLog, c: Command, h: TailHash, again: Invocation)
    requires LatestHash(log) == Some(h) && RecordsOther(log, c, h)
    requires RanAndFailed(again) && again.outputHash == Some(h) && again.edit == PatchSaved
    requires again.category !in {CommandTimeout, MissingProfile, BlockedSuiteCommand}
    ensures Invoke(After(log, c), again).proposed <==> !BudgetSpent(After(log, c), again)
  {
    LatestKeptIff(log, c, h);
  }

  // ------------------------------------------------------------------
  // The limit can be used up
  // ------------------------------------------------------------------

  /** The budget counts the fix entries that proposed a patch, applied since or not, each once. */
  lemma {:induction false} CountIsCardinality(log: TaskLog)
    ensures CountProposals(log) == |set k | 0 <= k < |log| && IsProposal(log[k])|
    decreases |log|
  {
    if log != [] {
      var n := |log| - 1;
      CountIsCardinality(log[..n]);
      var before, now := set k | 0 <= k < n && IsProposal(log[..n][k]), set k | 0 <= k <= n && IsProposal(log[k]);
      assert now == before + (if IsProposal(log[n]) then {n} else {});
      assert now == set k | 0 <= k < |log| && IsProposal(log[k]);
    }
  }

  function FailingRun(limit: int, hash: TailHash): Invocation {
    Invocation(true, limit, 1, true, true, true, false, 1, NoCategory, Some(hash), PatchSaved)
  }

  function FailingRuns(limit: int, hashes: seq<TailHash>): seq<Command> {
    seq(|hashes|, k requires 0 <= k < |hashes| => WatchOnce(FailingRun(limit, hashes[k])))
  }

  /** The cap is reached: as many runs as the limit allows are each given a patch, when no failure comes twice in
      a row, and each further run is refused. */
  lemma {:induction false} LimitIsUsedUp(limit: int, hashes: seq<TailHash>)
    requires limit >= 1
    requires forall k :: 0 < k < |hashes| ==> hashes[k] != hashes[k - 1]
    ensures PatchesProposed([], FailingRuns(limit, hashes)) == MinInt(limit, |hashes|)
    ensures CountProposals(Run([], FailingRuns(limit, hashes))) == MinInt(limit, |hashes|)
    ensures LatestHash(Run([], FailingRuns(limit, hashes))) == if hashes == [] then None else Some(hashes[|hashes| - 1])
    decreases |hashes|
  {
    if hashes != [] {
      var n := |hashes| - 1;
      var commands := FailingRuns(limit, hashes);
      assert commands[..n] == FailingRuns(limit, hashes[..n]);
      LimitIsUsedUp(limit, hashes[..n]);
      var log := Run([], commands[..n]);
      InvokeCount(log, commands[n].i);
      InvocationRecords(log, commands[n].i);
    }
  }
}
