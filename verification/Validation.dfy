/** Validation after an applied write: the suites run in order, and the first failure asks for a
    repair patch. */
module Validation {
  import opened Collections
  import Tiers = ApprovalTier

  /** One configured command and what it reported; the hash is that of its output tail. */
  datatype SuiteRun = SuiteRun(exitCode: int, tailHash: string)

  datatype Profile = Profile(
    test: Option<SuiteRun>,
    lint: Option<SuiteRun>,
    typecheck: Option<SuiteRun>,
    build: Option<SuiteRun>)

  /** A repair that raises may still have left a pending patch behind. */
  datatype RepairEdit = RepairSaved(proposal: seq<Tiers.Block>) | RepairRaised(saved: Option<seq<Tiers.Block>>)

  datatype Status = Passed | RepairProposed | RepairFailed | NoProgress | MaxRepairs | Skipped

  datatype Result = Result(status: Status, repairIterations: nat, saved: Option<seq<Tiers.Block>>)

  const MAX_REPAIRS: nat := 2

  function Configured(run: Option<SuiteRun>): seq<SuiteRun> {
    if run.Some? then [run.value] else []
  }

  function OrderedCommands(p: Profile): seq<SuiteRun> {
    Configured(p.test) + Configured(p.lint) + Configured(p.typecheck) + Configured(p.build)
  }

  function Failure(hash: string, previous: Option<string>, repairs: nat, limit: nat, edit: RepairEdit): Result {
    if previous.Some? && previous.value != "" && previous.value == hash then Result(NoProgress, repairs, None)
    else if repairs >= limit then Result(MaxRepairs, repairs, None)
    else
      match edit
      case RepairSaved(proposal) => Result(RepairProposed, repairs + 1, Some(proposal))
      case RepairRaised(saved) => Result(RepairFailed, repairs + 1, saved)
  }

  /** The runs up to and including the first failing one are the ones that take place. */
  predicate FailsFirstAt(runs: seq<SuiteRun>, k: nat) {
    && k < |runs| && runs[k].exitCode != 0
    && forall j :: 0 <= j < k ==> runs[j].exitCode == 0
  }

  ghost predicate Outcome(profile: Option<Profile>, previous: Option<string>, repairs: nat, limit: nat,
                          edit: RepairEdit, r: Result)
  {
    if profile.None? || profile.value.test.None? then r == Result(Skipped, 0, None)
    else
      var runs := OrderedCommands(profile.value);
      if r.status == Passed then
        r == Result(Passed, 0, None) && forall j :: 0 <= j < |runs| ==> runs[j].exitCode == 0
      else
        exists k: nat :: FailsFirstAt(runs, k) && r == Failure(runs[k].tailHash, previous, repairs, limit, edit)
  }

  method RunAfterApply(profile: Option<Profile>, previous: Option<string>, repairs: nat, limit: nat,
                       edit: RepairEdit)
    returns (r: Result)
    ensures Outcome(profile, previous, repairs, limit, edit, r)
  {
    if profile.None? || profile.value.test.None? {
      return Result(Skipped, 0, None);
    }
    var commands := OrderedCommands(profile.value);
    for i := 0 to |commands|
      invariant forall j :: 0 <= j < i ==> commands[j].exitCode == 0
    {
      if commands[i].exitCode != 0 {
        assert FailsFirstAt(commands, i);
        return Failure(commands[i].tailHash, previous, repairs, limit, edit);
      }
    }
    return Result(Passed, 0, None);
  }

  /** The outcome is determined: no two results satisfy it. */
  lemma OutcomeIsUnique(profile: Option<Profile>, previous: Option<string>, repairs: nat, limit: nat,
                        edit: RepairEdit, r: Result, t: Result)
    requires Outcome(profile, previous, repairs, limit, edit, r)
    requires Outcome(profile, previous, repairs, limit, edit, t)
    ensures r == t
  {
    if profile.Some? && profile.value.test.Some? {
      var runs := OrderedCommands(profile.value);
      if r.status != Passed && t.status != Passed {
        var k: nat :| FailsFirstAt(runs, k) && r == Failure(runs[k].tailHash, previous, repairs, limit, edit);
        var m: nat :| FailsFirstAt(runs, m) && t == Failure(runs[m].tailHash, previous, repairs, limit, edit);
        assert !(k < m) && !(m < k);
      }
    }
  }

  /** What the agent loop can see: it passes no previous hash and no repair count, so it never sees a
      second repair, a lack of progress or a reached limit. */
  predicate FreshResult(r: Result) {
    && r.repairIterations <= 1
    && r.status !in {NoProgress, MaxRepairs}
    && (r.saved.Some? ==> r.status in {RepairProposed, RepairFailed})
    && (r.status == RepairProposed ==> r.saved.Some?)
  }

  lemma FreshOutcome(profile: Option<Profile>, edit: RepairEdit, r: Result)
    requires Outcome(profile, None, 0, MAX_REPAIRS, edit, r)
    ensures FreshResult(r)
  {
  }

  // ------------------------------------------------------------------
  // Which suite decides, and how
  // ------------------------------------------------------------------

  predicate Fine(run: Option<SuiteRun>) {
    run.Some? ==> run.value.exitCode == 0
  }

  /** The earliest failing suite in the order test, lint, typecheck, build. */
  function Deciding(p: Profile): Option<SuiteRun> {
    if !Fine(p.test) then p.test
    else if !Fine(p.lint) then p.lint
    else if !Fine(p.typecheck) then p.typecheck
    else if !Fine(p.build) then p.build
    else None
  }

  lemma DecidingIsFirstFailure(p: Profile)
    ensures Deciding(p).None? <==> forall j :: 0 <= j < |OrderedCommands(p)| ==> OrderedCommands(p)[j].exitCode == 0
    ensures forall k: nat :: FailsFirstAt(OrderedCommands(p), k) ==> Deciding(p) == Some(OrderedCommands(p)[k])
  {
    var runs := OrderedCommands(p);
    var afterTest := |Configured(p.test)|;
    var afterLint := afterTest + |Configured(p.lint)|;
    var afterTypecheck := afterLint + |Configured(p.typecheck)|;
    assert p.test.Some? ==> runs[0] == p.test.value;
    assert p.lint.Some? ==> runs[afterTest] == p.lint.value;
    assert p.typecheck.Some? ==> runs[afterLint] == p.typecheck.value;
    assert p.build.Some? ==> runs[afterTypecheck] == p.build.value;
  }

  /** Validation is skipped without a test suite, passes exactly when every configured suite does, and otherwise
      is decided by the earliest failing one: no progress on the failure seen before, then the limit on repairs,
      then what came of asking for a repair. */
  lemma OutcomeIff(profile: Option<Profile>, previous: Option<string>, repairs: nat, limit: nat, edit: RepairEdit,
                   r: Result)
    requires Outcome(profile, previous, repairs, limit, edit, r)
    ensures r.status == Skipped <==> profile.None? || profile.value.test.None?
    ensures r.status == Passed <==>
              profile.Some? && profile.value.test.Some? && Fine(profile.value.test) && Fine(profile.value.lint) &&
              Fine(profile.value.typecheck) && Fine(profile.value.build)
    ensures r.status !in {Skipped, Passed} ==>
              (var hash := Deciding(profile.value).value.tailHash;
               && (r.status == NoProgress <==> hash != "" && previous == Some(hash))
               && (r.status == MaxRepairs <==> r.status != NoProgress && repairs >= limit)
               && (r.status == RepairProposed <==> r.status !in {NoProgress, MaxRepairs} && edit.RepairSaved?)
               && r.repairIterations == (if r.status in {NoProgress, MaxRepairs} then repairs else repairs + 1)
               && r.saved == if r.status == RepairProposed then Some(edit.proposal)
                             else if r.status == RepairFailed then edit.saved
                             else None)
    ensures r.status in {Skipped, Passed} ==> r.repairIterations == 0 && r.saved.None?
  {
    if profile.Some? {
      DecidingIsFirstFailure(profile.value);
    }
  }
}
