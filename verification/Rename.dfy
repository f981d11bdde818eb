/** Symbol rename as a patch: reference search, block construction, and what applying the patch does. */
module Rename {
  import opened Collections
  import opened SourceText
  import opened LineRuns
  import opened PatchApplier

  type Path = string

  type Project = map<Path, Source>

  datatype Reference = Reference(file: Path, line: int)

  /** The two names of a rename and the layouts the tokeniser accepts. */
  datatype Renaming = Renaming(oldName: string, newName: string, layout: Layout)
  {
    function Back(): Renaming {
      Renaming(newName, oldName, layout)
    }
  }

  // ------------------------------------------------------------------
  // Reference search
  // ------------------------------------------------------------------

  const MAX_RESULTS: nat := 100

  function FileReferences(lines: Source, file: Path, symbol: string, upTo: nat): seq<Reference>
    requires upTo <= |lines|
  {
    if upTo == 0 then []
    else
      FileReferences(lines, file, symbol, upTo - 1) +
      (if Mentions(lines[upTo - 1], symbol) then [Reference(file, upTo)] else [])
  }

  /** Every mention in the listed files that can be read, in order. */
  function AllReferences(project: Project, files: seq<Path>, symbol: string): seq<Reference> {
    AllReferencesTo(project, files, symbol, |files|)
  }

  function AllReferencesTo(project: Project, files: seq<Path>, symbol: string, k: nat): seq<Reference>
    requires k <= |files|
  {
    if k == 0 then []
    else
      AllReferencesTo(project, files, symbol, k - 1) + ReferencesIn(project, files[k - 1], symbol)
  }

  function ReferencesIn(project: Project, file: Path, symbol: string): seq<Reference> {
    if file in project then FileReferences(project[file], file, symbol, |project[file]|) else []
  }

  function FirstResults(refs: seq<Reference>): seq<Reference> {
    if |refs| <= MAX_RESULTS then refs else refs[..MAX_RESULTS]
  }

  /** The scan of one file, with the early exit at the cap. */
  method SearchFile(lines: Source, file: Path, symbol: string, before: seq<Reference>) returns (results: seq<Reference>)
    requires |before| < MAX_RESULTS
    ensures results == FirstResults(before + FileReferences(lines, file, symbol, |lines|))
  {
    results := before;
    var n := 0;
    while n < |lines|
      invariant 0 <= n <= |lines|
      invariant |results| < MAX_RESULTS
      invariant results == before + FileReferences(lines, file, symbol, n)
    {
      n := n + 1;
      if Mentions(lines[n - 1], symbol) {
        results := results + [Reference(file, n)];
        if |results| >= MAX_RESULTS {
          FileReferencesPrefix(lines, file, symbol, n);
          CapReached(before, FileReferences(lines, file, symbol, n), FileReferences(lines, file, symbol, |lines|));
          return;
        }
      }
    }
  }

  /** The search returns all of the mentions, or the first hundred of more. */
  lemma FirstHundred(refs: seq<Reference>)
    ensures FirstResults(refs) <= refs
    ensures |FirstResults(refs)| == MinInt(100, |refs|)
  {
  }

  lemma CapReached(before: seq<Reference>, found: seq<Reference>, all: seq<Reference>)
    requires found <= all && |before + found| == MAX_RESULTS
    ensures FirstResults(before + all) == before + found
  {
    assert (before + all)[..MAX_RESULTS] == before + found;
  }

  /** The textual fallback: a scan of the sorted files with two early exits at the cap. */
  method FindReferences(project: Project, searchFiles: seq<Path>, symbol: string) returns (results: seq<Reference>)
    ensures results == FirstResults(AllReferences(project, SortedSet(searchFiles), symbol))
  {
    var files := SortedSet(searchFiles);
    results := [];
    var i := 0;
    while i < |files|
      invariant 0 <= i <= |files|
      invariant results == FirstResults(AllReferencesTo(project, files, symbol, i))
    {
      if |results| >= MAX_RESULTS {
        break;
      }
      if files[i] in project {
        results := SearchFile(project[files[i]], files[i], symbol, results);
      }
      i := i + 1;
    }
    AllReferencesPrefix(project, files, symbol, i);
    FirstResultsOfPrefix(AllReferencesTo(project, files, symbol, i), AllReferences(project, files, symbol));
  }

  lemma FirstResultsOfPrefix(a: seq<Reference>, b: seq<Reference>)
    requires a <= b
    ensures |FirstResults(a)| >= MAX_RESULTS ==> FirstResults(a) == FirstResults(b)
  {
  }

  lemma {:induction false} FileReferencesPrefix(lines: Source, file: Path, symbol: string, n: nat)
    requires n <= |lines|
    ensures FileReferences(lines, file, symbol, n) <= FileReferences(lines, file, symbol, |lines|)
    decreases |lines| - n
  {
    if n < |lines| {
      FileReferencesPrefix(lines, file, symbol, n + 1);
    }
  }

  lemma {:induction false} AllReferencesPrefix(project: Project, files: seq<Path>, symbol: string, i: nat)
    requires i <= |files|
    ensures AllReferencesTo(project, files, symbol, i) <= AllReferences(project, files, symbol)
    decreases |files| - i
  {
    if i < |files| {
      AllReferencesPrefix(project, files, symbol, i + 1);
    }
  }

  // ------------------------------------------------------------------
  // Patch construction for one file
  // ------------------------------------------------------------------

  /** Index `i` is within one line of a touched line; `touched` counts lines from 1. */
  predicate NearTouched(touched: set<int>, i: int) {
    i in touched || i + 1 in touched || i + 2 in touched
  }

  function Expanded(touched: set<int>, n: nat): set<int> {
    set i | 0 <= i < n && NearTouched(touched, i)
  }

  predicate Between(lo: int, i: int, hi: int) {
    lo <= i < hi
  }

  method ExpandLines(touched: set<int>, n: nat) returns (expanded: set<int>)
    requires 0 !in touched
    ensures expanded == Expanded(touched, n)
  {
    expanded := {};
    var rest := touched;
    while rest != {}
      invariant rest <= touched
      invariant expanded == Expanded(touched - rest, n)
      decreases rest
    {
      var ln :| ln in rest;
      var idx := ln - 1;
      var lo, hi := MaxInt(0, idx - 1), MinInt(n, idx + 2);
      expanded := expanded + set i | lo <= i < hi && Between(lo, i, hi);
      rest := rest - {ln};
    }
    assert touched - rest == touched;
  }

  function ChunkOf(lines: Source, run: Run): Source
    requires run != [] && 0 <= run[0] && End(run) <= |lines|
  {
    lines[run[0]..End(run)]
  }

  predicate IsTouched(run: Run, touched: set<int>, j: int)
    requires run != []
  {
    run[0] + j in touched
  }

  /** The touched lines of a run, numbered from 1 inside the run. */
  function TargetsOf(run: Run, touched: set<int>): set<int>
    requires run != []
  {
    set j | 1 <= j <= |run| && IsTouched(run, touched, j)
  }

  function RunRename(lines: Source, run: Run, touched: set<int>, r: Renaming): Source
    requires run != [] && 0 <= run[0] && End(run) <= |lines|
  {
    Replaced(ChunkOf(lines, run), r.layout, Some(TargetsOf(run, touched)), r.oldName, r.newName)
  }

  predicate ChunkMentions(chunk: Source, name: string) {
    exists j :: 0 <= j < |chunk| && Mentions(chunk[j], name)
  }

  /** At most one block per run: none without a textual match, none without a change. */
  function RunBlocks(lines: Source, run: Run, touched: set<int>, r: Renaming): (blocks: seq<UpdateBlock>)
    requires run != [] && 0 <= run[0] && End(run) <= |lines|
    ensures forall b :: b in blocks ==> b.search != []
  {
    var chunk := ChunkOf(lines, run);
    if !ChunkMentions(chunk, r.oldName) then []
    else
      var replaced := RunRename(lines, run, touched, r);
      if replaced == chunk then [] else [UpdateBlock(chunk, replaced)]
  }

  predicate InBounds(runs: seq<Run>, n: nat) {
    forall a :: 0 <= a < |runs| ==> runs[a] != [] && 0 <= runs[a][0] && End(runs[a]) <= n
  }

  function FileBlocks(lines: Source, runs: seq<Run>, touched: set<int>, r: Renaming): (blocks: seq<UpdateBlock>)
    requires InBounds(runs, |lines|)
    ensures forall b :: b in blocks ==> b.search != []
  {
    FileBlocksTo(lines, runs, |runs|, touched, r)
  }

  function FileBlocksTo(lines: Source, runs: seq<Run>, m: nat, touched: set<int>, r: Renaming): (blocks: seq<UpdateBlock>)
    requires InBounds(runs, |lines|) && m <= |runs|
    ensures forall b :: b in blocks ==> b.search != []
  {
    if m == 0 then [] else FileBlocksTo(lines, runs, m - 1, touched, r) + RunBlocks(lines, runs[m - 1], touched, r)
  }

  /** The runs of a file: the expanded touched lines, grouped. */
  function FileRuns(touched: set<int>, n: nat): (runs: seq<Run>)
    ensures InBounds(runs, n)
  {
    FileRunsAreRuns(touched, n);
    RunsBelow(Expanded(touched, n), n)
  }

  lemma FileRunsAreRuns(touched: set<int>, n: nat)
    ensures AreRuns(RunsBelow(Expanded(touched, n), n), Expanded(touched, n), n)
    ensures InBounds(RunsBelow(Expanded(touched, n), n), n)
  {
    var runs := RunsBelow(Expanded(touched, n), n);
    RunsBelowAreRuns(Expanded(touched, n), n);
    forall a | 0 <= a < |runs| ensures runs[a] != [] && 0 <= runs[a][0] && End(runs[a]) <= n {
      RunEdges(runs, Expanded(touched, n), n, a);
    }
  }

  method BuildRunBlocks(lines: Source, group: Run, touched: set<int>, r: Renaming) returns (blocks: seq<UpdateBlock>)
    requires group != [] && 0 <= group[0] && End(group) <= |lines|
    ensures blocks == RunBlocks(lines, group, touched, r)
  {
    blocks := [];
    var searchChunk := ChunkOf(lines, group);
    if ChunkMentions(searchChunk, r.oldName) {
      var targets := TargetsOf(group, touched);
      var replaceChunk := ReplaceSymbolInSource(searchChunk, r.layout, Some(targets), r.oldName, r.newName);
      if replaceChunk != searchChunk {
        blocks := [UpdateBlock(searchChunk, replaceChunk)];
      }
    }
  }

  method BuildFileBlocks(lines: Source, touched: set<int>, r: Renaming) returns (blocks: seq<UpdateBlock>)
    requires 0 !in touched
    ensures blocks == FileBlocks(lines, FileRuns(touched, |lines|), touched, r)
  {
    var expanded := ExpandLines(touched, |lines|);
    var groups := GroupLines(expanded, |lines|);
    FileRunsAreRuns(touched, |lines|);
    blocks := [];
    for a := 0 to |groups|
      invariant blocks == FileBlocksTo(lines, groups, a, touched, r)
    {
      var more := BuildRunBlocks(lines, groups[a], touched, r);
      blocks := blocks + more;
    }
  }

  // ------------------------------------------------------------------
  // Applying the blocks of one file
  // ------------------------------------------------------------------

  /** The text `text` put in the place of a run. */
  function SpliceRun(acc: Source, run: Run, text: Source): (out: Source)
    requires run != [] && 0 <= run[0] && End(run) <= |acc| && |text| == |run|
    ensures |out| == |acc|
  {
    seq(|acc|, i requires 0 <= i < |acc| => if Contains(run, i) then text[i - run[0]] else acc[i])
  }

  /** Each run replaced at its own position. */
  function Spliced(lines: Source, runs: seq<Run>, touched: set<int>, r: Renaming): (out: Source)
    requires InBounds(runs, |lines|)
    ensures |out| == |lines|
  {
    SplicedTo(lines, runs, |runs|, touched, r)
  }

  /** The first `m` runs replaced. */
  function SplicedTo(lines: Source, runs: seq<Run>, m: nat, touched: set<int>, r: Renaming): (out: Source)
    requires InBounds(runs, |lines|) && m <= |runs|
    ensures |out| == |lines|
  {
    if m == 0 then lines
    else
      SpliceRun(SplicedTo(lines, runs, m - 1, touched, r), runs[m - 1], RunRename(lines, runs[m - 1], touched, r))
  }

  /** Position `i` of the spliced file: the run's own rename inside a run, the original line elsewhere. */
  lemma SplicedAt(lines: Source, runs: seq<Run>, touched: set<int>, r: Renaming, i: int)
    requires Separated(runs) && InBounds(runs, |lines|) && 0 <= i < |lines|
    ensures forall a :: 0 <= a < |runs| && Contains(runs[a], i) ==>
              Spliced(lines, runs, touched, r)[i] == RunRename(lines, runs[a], touched, r)[i - runs[a][0]]
    ensures !Covered(runs, i) ==> Spliced(lines, runs, touched, r)[i] == lines[i]
  {
    forall a | 0 <= a < |runs| && Contains(runs[a], i)
      ensures Spliced(lines, runs, touched, r)[i] == RunRename(lines, runs[a], touched, r)[i - runs[a][0]]
    {
      SplicedInside(lines, runs, touched, r, a, i, |runs|);
    }
    if !Covered(runs, i) {
      SplicedOutside(lines, runs, touched, r, i, |runs|);
    }
  }

  lemma {:induction false} SplicedOutside(
    lines: Source, runs: seq<Run>, touched: set<int>, r: Renaming, i: int, m: nat)
    requires InBounds(runs, |lines|) && 0 <= i < |lines| && m <= |runs|
    requires forall a :: 0 <= a < m ==> !Contains(runs[a], i)
    ensures SplicedTo(lines, runs, m, touched, r)[i] == lines[i]
    decreases m
  {
    if m > 0 {
      SplicedOutside(lines, runs, touched, r, i, m - 1);
    }
  }

  lemma {:induction false} SplicedInside(
    lines: Source, runs: seq<Run>, touched: set<int>, r: Renaming, a: int, i: int, m: nat)
    requires Separated(runs) && InBounds(runs, |lines|)
    requires 0 <= a < m <= |runs| && Contains(runs[a], i)
    ensures SplicedTo(lines, runs, m, touched, r)[i] == RunRename(lines, runs[a], touched, r)[i - runs[a][0]]
    decreases m
  {
    SpliceRunAt(SplicedTo(lines, runs, m - 1, touched, r), runs[m - 1], RunRename(lines, runs[m - 1], touched, r), i);
    if a < m - 1 {
      SplicedInside(lines, runs, touched, r, a, i, m - 1);
      assert End(runs[a]) < runs[m - 1][0];
    }
  }

  lemma SplicedInRun(lines: Source, runs: seq<Run>, touched: set<int>, r: Renaming, a: int, j: int)
    requires Separated(runs) && InBounds(runs, |lines|) && 0 <= a < |runs| && 0 <= j < |runs[a]|
    ensures Spliced(lines, runs, touched, r)[runs[a][0] + j] == RunRename(lines, runs[a], touched, r)[j]
  {
    SplicedInside(lines, runs, touched, r, a, runs[a][0] + j, |runs|);
  }

  lemma RunRenameKeepsUntouched(lines: Source, run: Run, touched: set<int>, r: Renaming, j: int)
    requires run != [] && 0 <= run[0] && End(run) <= |lines| && 0 <= j < |run|
    requires run[0] + j + 1 !in touched
    ensures RunRename(lines, run, touched, r)[j] == lines[run[0] + j]
  {
    assert !IsTouched(run, touched, j + 1);
    assert ChunkOf(lines, run)[j] == lines[run[0] + j];
  }

  lemma SpliceRunAt(acc: Source, run: Run, text: Source, i: int)
    requires run != [] && 0 <= run[0] && End(run) <= |acc| && |text| == |run| && 0 <= i < |acc|
    ensures SpliceRun(acc, run, text)[i] == if Contains(run, i) then text[i - run[0]] else acc[i]
  {
  }

  /** Splicing only ever changes touched lines. */
  lemma {:induction false} SplicedKeepsUntouched(
    lines: Source, runs: seq<Run>, touched: set<int>, r: Renaming, i: int, m: nat)
    requires InBounds(runs, |lines|) && 0 <= i < |lines| && m <= |runs|
    requires i + 1 !in touched
    ensures SplicedTo(lines, runs, m, touched, r)[i] == lines[i]
    decreases m
  {
    if m > 0 {
      SplicedKeepsUntouched(lines, runs, touched, r, i, m - 1);
      SpliceRunAt(SplicedTo(lines, runs, m - 1, touched, r), runs[m - 1], RunRename(lines, runs[m - 1], touched, r), i);
      if Contains(runs[m - 1], i) {
        RunRenameKeepsUntouched(lines, runs[m - 1], touched, r, i - runs[m - 1][0]);
      }
    }
  }

  /** The touched lines are exactly the lines that mention the symbol. */
  ghost predicate Complete(lines: Source, touched: set<int>, symbol: string) {
    forall t :: t in touched <==> 1 <= t <= |lines| && Mentions(lines[t - 1], symbol)
  }

  /** Part way through, the text of the next run cannot be found overlapping the run's own place:
      such an overlap would put a mention next to the run, and the run would have been longer. */
  lemma NoOverlappingMatch(
    lines: Source, touched: set<int>, symbol: string, runs: seq<Run>, m: nat, acc: Source, p: nat)
    requires Complete(lines, touched, symbol)
    requires AreRuns(runs, Expanded(touched, |lines|), |lines|) && InBounds(runs, |lines|) && m < |runs|
    requires |acc| == |lines|
    requires forall i :: 0 <= i < |lines| && i + 1 !in touched ==> acc[i] == lines[i]
    requires forall i :: runs[m][0] <= i < End(runs[m]) ==> acc[i] == lines[i]
    requires OccursAt(acc, ChunkOf(lines, runs[m]), p)
    ensures !(p < runs[m][0] < p + |runs[m]|)
  {
    RunEdges(runs, Expanded(touched, |lines|), |lines|, m);
    if p < runs[m][0] < p + |runs[m]| {
      var t := MentionBeforeRun(touched, |lines|, runs, m, p);
      var k := t - runs[m][0];
      MatchedMention(lines, runs[m], symbol, acc, p, k);
      MentionNearGap(lines, touched, symbol, acc, p + k, runs[m][0]);
    }
  }

  /** For a match at `p` that overlaps the run from above: a touched line of the run that the match
      puts at the line just before the run, or next to it. */
  lemma MentionBeforeRun(touched: set<int>, n: nat, runs: seq<Run>, m: nat, p: nat) returns (t: int)
    requires AreRuns(runs, Expanded(touched, n), n) && InBounds(runs, n) && m < |runs|
    requires p < runs[m][0] < p + |runs[m]|
    ensures Contains(runs[m], t) && t + 1 in touched
    ensures runs[m][0] - 2 <= p + (t - runs[m][0]) <= runs[m][0]
  {
    var at := runs[m][0] + (runs[m][0] - 1 - p);
    RunEdges(runs, Expanded(touched, n), n, m);
    assert Contains(runs[m], at);
    assert at in Expanded(touched, n) && NearTouched(touched, at);
    t := if at in touched then at - 1 else if at + 1 in touched then at else at + 1;
    MentionStaysInRun(touched, n, runs, m, t);
  }

  lemma MatchedMention(lines: Source, run: Run, symbol: string, acc: Source, p: nat, k: int)
    requires run != [] && 0 <= run[0] && End(run) <= |lines| && 0 <= k < |run|
    requires OccursAt(acc, ChunkOf(lines, run), p)
    requires Mentions(lines[run[0] + k], symbol)
    ensures p + k < |acc| && Mentions(acc[p + k], symbol)
  {
    assert ChunkOf(lines, run)[k] == lines[run[0] + k];
    assert acc[p..p + |run|][k] == acc[p + k];
  }

  lemma MentionStaysInRun(touched: set<int>, n: nat, runs: seq<Run>, m: nat, t: int)
    requires AreRuns(runs, Expanded(touched, n), n) && InBounds(runs, n) && m < |runs|
    requires runs[m][0] - 1 <= t <= End(runs[m]) && 0 <= t < n && t + 1 in touched
    ensures Contains(runs[m], t)
  {
    RunEdges(runs, Expanded(touched, n), n, m);
    assert NearTouched(touched, t);
    assert Covered(runs, t);
  }

  lemma MentionNearGap(lines: Source, touched: set<int>, symbol: string, acc: Source, i: int, q: int)
    requires Complete(lines, touched, symbol)
    requires |acc| == |lines|
    requires forall i :: 0 <= i < |lines| && i + 1 !in touched ==> acc[i] == lines[i]
    requires 0 <= i < |lines| && q - 2 <= i <= q && 1 <= q <= |lines|
    requires Mentions(acc[i], symbol)
    ensures q - 1 in Expanded(touched, |lines|)
  {
    assert i + 1 in touched;
    assert NearTouched(touched, q - 1);
  }

  ghost predicate RunsOfFile(runs: seq<Run>, touched: set<int>, n: nat) {
    AreRuns(runs, Expanded(touched, n), n) && InBounds(runs, n)
  }

  /** What the blocks of the first `m` runs give, if they apply: those runs replaced in place. */
  ghost predicate Positional(
    lines: Source, touched: set<int>, r: Renaming, runs: seq<Run>, m: nat, out: Option<Source>)
    requires InBounds(runs, |lines|) && m <= |runs|
  {
    out.Some? ==> out.value == SplicedTo(lines, runs, m, touched, r)
  }

  /** When every mention is touched, a patch that applies puts each block at its own run. */
  lemma {:induction false} PatchIsPositional(
    lines: Source, touched: set<int>, r: Renaming, runs: seq<Run>, m: nat) returns (out: Option<Source>)
    requires Complete(lines, touched, r.oldName)
    requires RunsOfFile(runs, touched, |lines|) && m <= |runs|
    ensures out == ApplyBlocks(lines, FileBlocksTo(lines, runs, m, touched, r))
    ensures Positional(lines, touched, r, runs, m, out)
    decreases m
  {
    if m == 0 {
      out := Some(lines);
    } else {
      var before := PatchIsPositional(lines, touched, r, runs, m - 1);
      out := PatchStep(lines, touched, r, runs, m - 1, before);
    }
  }

  lemma PatchStep(
    lines: Source, touched: set<int>, r: Renaming, runs: seq<Run>, m: nat, before: Option<Source>)
    returns (out: Option<Source>)
    requires Complete(lines, touched, r.oldName)
    requires RunsOfFile(runs, touched, |lines|) && m < |runs|
    requires before == ApplyBlocks(lines, FileBlocksTo(lines, runs, m, touched, r))
    requires Positional(lines, touched, r, runs, m, before)
    ensures out == ApplyBlocks(lines, FileBlocksTo(lines, runs, m + 1, touched, r))
    ensures Positional(lines, touched, r, runs, m + 1, out)
  {
    out := if before.None? then None else ApplyBlocks(before.value, RunBlocks(lines, runs[m], touched, r));
    FileBlocksStep(lines, touched, r, runs, m, before);
    PositionalStep(lines, touched, r, runs, m, before);
  }

  lemma PositionalStep(
    lines: Source, touched: set<int>, r: Renaming, runs: seq<Run>, m: nat, before: Option<Source>)
    requires Complete(lines, touched, r.oldName)
    requires RunsOfFile(runs, touched, |lines|) && m < |runs|
    requires Positional(lines, touched, r, runs, m, before)
    ensures Positional(lines, touched, r, runs, m + 1,
                       if before.None? then None else ApplyBlocks(before.value, RunBlocks(lines, runs[m], touched, r)))
  {
    if before.Some? {
      RunIsPositional(lines, touched, r, runs, m, before.value);
    }
  }

  lemma FileBlocksStep(
    lines: Source, touched: set<int>, r: Renaming, runs: seq<Run>, m: nat, before: Option<Source>)
    requires InBounds(runs, |lines|) && m < |runs|
    requires before == ApplyBlocks(lines, FileBlocksTo(lines, runs, m, touched, r))
    ensures ApplyBlocks(lines, FileBlocksTo(lines, runs, m + 1, touched, r)) ==
            if before.None? then None else ApplyBlocks(before.value, RunBlocks(lines, runs[m], touched, r))
  {
    var front, back := FileBlocksTo(lines, runs, m, touched, r), RunBlocks(lines, runs[m], touched, r);
    ApplyBlocksConcat(lines, front, back);
  }

  lemma {:induction false} ApplyBlocksConcat(content: Source, front: seq<UpdateBlock>, back: seq<UpdateBlock>)
    requires forall b :: b in front + back ==> b.search != []
    ensures (forall b :: b in front ==> b.search != []) && (forall b :: b in back ==> b.search != [])
    ensures ApplyBlocks(content, front + back) ==
            var mid := ApplyBlocks(content, front); if mid.None? then None else ApplyBlocks(mid.value, back)
    decreases |back|
  {
    assert forall b :: b in front || b in back ==> b in front + back;
    if back == [] {
      assert front + back == front;
    } else {
      var n := |back| - 1;
      assert (front + back)[..|front + back| - 1] == front + back[..n];
      ApplyBlocksConcat(content, front, back[..n]);
    }
  }

  lemma RunIsPositional(lines: Source, touched: set<int>, r: Renaming, runs: seq<Run>, m: nat, acc: Source)
    requires Complete(lines, touched, r.oldName)
    requires RunsOfFile(runs, touched, |lines|) && m < |runs|
    requires acc == SplicedTo(lines, runs, m, touched, r)
    ensures var out := ApplyBlocks(acc, RunBlocks(lines, runs[m], touched, r));
            out.Some? ==> out.value == SpliceRun(acc, runs[m], RunRename(lines, runs[m], touched, r))
  {
    var blocks := RunBlocks(lines, runs[m], touched, r);
    ChunkUntouchedSoFar(lines, touched, r, runs, m);
    if blocks == [] {
      UnblockedRunIsFixed(lines, runs[m], touched, r);
      assert SpliceRun(acc, runs[m], ChunkOf(lines, runs[m])) == acc;
    } else {
      assert blocks[..0] == [];
      assert ApplyBlocks(acc, blocks) == ApplyBlock(acc, blocks[0]);
      OwnPlace(lines, touched, r, runs, m, acc);
    }
  }

  /** Before its own turn, a run still reads as in the original file. */
  lemma ChunkUntouchedSoFar(lines: Source, touched: set<int>, r: Renaming, runs: seq<Run>, m: nat)
    requires RunsOfFile(runs, touched, |lines|) && m < |runs|
    ensures var acc := SplicedTo(lines, runs, m, touched, r);
            (forall i :: 0 <= i < |lines| && i + 1 !in touched ==> acc[i] == lines[i]) &&
            (forall i :: runs[m][0] <= i < End(runs[m]) ==> acc[i] == lines[i]) &&
            acc[runs[m][0]..End(runs[m])] == ChunkOf(lines, runs[m])
  {
    var acc := SplicedTo(lines, runs, m, touched, r);
    forall i | 0 <= i < |lines| && i + 1 !in touched ensures acc[i] == lines[i] {
      SplicedKeepsUntouched(lines, runs, touched, r, i, m);
    }
    forall i | runs[m][0] <= i < End(runs[m]) ensures acc[i] == lines[i] {
      assert forall a :: 0 <= a < m ==> End(runs[a]) < runs[m][0];
      SplicedOutside(lines, runs, touched, r, i, m);
    }
  }

  lemma UnblockedRunIsFixed(lines: Source, run: Run, touched: set<int>, r: Renaming)
    requires run != [] && 0 <= run[0] && End(run) <= |lines|
    requires RunBlocks(lines, run, touched, r) == []
    ensures RunRename(lines, run, touched, r) == ChunkOf(lines, run)
  {
    var chunk := ChunkOf(lines, run);
    if !ChunkMentions(chunk, r.oldName) {
      forall j | 0 <= j < |chunk| ensures RunRename(lines, run, touched, r)[j] == chunk[j] {
        UnmentionedIsFixed(chunk[j], StateAt(chunk, j), r.oldName, r.newName);
      }
    }
  }

  lemma InPlace(acc: Source, run: Run, text: Source)
    requires run != [] && 0 <= run[0] && End(run) <= |acc| && |text| == |run|
    ensures acc[..run[0]] + text + acc[run[0] + |run|..] == SpliceRun(acc, run, text)
  {
  }

  lemma OwnPlace(lines: Source, touched: set<int>, r: Renaming, runs: seq<Run>, m: nat, acc: Source)
    requires Complete(lines, touched, r.oldName)
    requires RunsOfFile(runs, touched, |lines|) && m < |runs|
    requires acc == SplicedTo(lines, runs, m, touched, r)
    ensures var run := runs[m];
            var out := ApplyBlock(acc, UpdateBlock(ChunkOf(lines, run), RunRename(lines, run, touched, r)));
            out.Some? ==> out.value == SpliceRun(acc, run, RunRename(lines, run, touched, r))
  {
    var chunk := ChunkOf(lines, runs[m]);
    ChunkUntouchedSoFar(lines, touched, r, runs, m);
    assert OccursAt(acc, chunk, runs[m][0]);
    if CountFrom(acc, chunk, 0) == 1 {
      UniqueMatchIsOwn(acc, chunk, runs[m][0]);
      InPlace(acc, runs[m], RunRename(lines, runs[m], touched, r));
      NoOverlappingMatch(lines, touched, r.oldName, runs, m, acc, FindFrom(acc, chunk, 0).value);
    }
  }

  // ------------------------------------------------------------------
  // When the blocks of one file apply
  // ------------------------------------------------------------------

  /** At its turn a run needs no change, or its text stands at its own place and nowhere apart from it. */
  ghost predicate RunPlaced(lines: Source, touched: set<int>, r: Renaming, runs: seq<Run>, m: nat)
    requires InBounds(runs, |lines|) && m < |runs|
  {
    || RunRename(lines, runs[m], touched, r) == ChunkOf(lines, runs[m])
    || PlacedOnce(SplicedTo(lines, runs, m, touched, r), ChunkOf(lines, runs[m]), runs[m][0])
  }

  lemma OwnPlaceIff(lines: Source, touched: set<int>, r: Renaming, runs: seq<Run>, m: nat, text: Source)
    requires Complete(lines, touched, r.oldName)
    requires RunsOfFile(runs, touched, |lines|) && m < |runs|
    ensures var acc, chunk := SplicedTo(lines, runs, m, touched, r), ChunkOf(lines, runs[m]);
            ApplyBlock(acc, UpdateBlock(chunk, text)).Some? <==> PlacedOnce(acc, chunk, runs[m][0])
  {
    var acc, chunk := SplicedTo(lines, runs, m, touched, r), ChunkOf(lines, runs[m]);
    ApplyBlockIff(acc, UpdateBlock(chunk, text));
    CountIsOneIff(acc, chunk);
    ChunkUntouchedSoFar(lines, touched, r, runs, m);
    if p :| PlacedOnce(acc, chunk, p) {
      assert OccursAt(acc, chunk, runs[m][0]);
      NoOverlappingMatch(lines, touched, r.oldName, runs, m, acc, p);
    }
  }

  lemma RunAppliesIff(lines: Source, touched: set<int>, r: Renaming, runs: seq<Run>, m: nat)
    requires Complete(lines, touched, r.oldName)
    requires RunsOfFile(runs, touched, |lines|) && m < |runs|
    ensures ApplyBlocks(SplicedTo(lines, runs, m, touched, r), RunBlocks(lines, runs[m], touched, r)).Some? <==>
            RunPlaced(lines, touched, r, runs, m)
  {
    var blocks := RunBlocks(lines, runs[m], touched, r);
    if blocks == [] {
      UnblockedRunIsFixed(lines, runs[m], touched, r);
    } else {
      assert blocks[..0] == [];
      OwnPlaceIff(lines, touched, r, runs, m, RunRename(lines, runs[m], touched, r));
    }
  }

  ghost predicate RunsPlaced(lines: Source, touched: set<int>, r: Renaming, runs: seq<Run>, m: nat)
    requires InBounds(runs, |lines|) && m <= |runs|
  {
    forall a :: 0 <= a < m ==> RunPlaced(lines, touched, r, runs, a)
  }

  lemma RunsPlacedStep(lines: Source, touched: set<int>, r: Renaming, runs: seq<Run>, m: nat)
    requires InBounds(runs, |lines|) && m < |runs|
    ensures RunsPlaced(lines, touched, r, runs, m + 1) <==>
            RunsPlaced(lines, touched, r, runs, m) && RunPlaced(lines, touched, r, runs, m)
  {
  }

  lemma AppliesStep(
    lines: Source, touched: set<int>, r: Renaming, runs: seq<Run>, m: nat, before: Option<Source>)
    returns (out: Option<Source>)
    requires Complete(lines, touched, r.oldName)
    requires RunsOfFile(runs, touched, |lines|) && m < |runs|
    requires before == ApplyBlocks(lines, FileBlocksTo(lines, runs, m, touched, r))
    requires Positional(lines, touched, r, runs, m, before)
    requires before.Some? <==> RunsPlaced(lines, touched, r, runs, m)
    ensures out == ApplyBlocks(lines, FileBlocksTo(lines, runs, m + 1, touched, r))
    ensures Positional(lines, touched, r, runs, m + 1, out)
    ensures out.Some? <==> RunsPlaced(lines, touched, r, runs, m + 1)
  {
    out := PatchStep(lines, touched, r, runs, m, before);
    FileBlocksStep(lines, touched, r, runs, m, before);
    RunAppliesIff(lines, touched, r, runs, m);
    RunsPlacedStep(lines, touched, r, runs, m);
  }

  /** When every mention is touched, the blocks of a file apply exactly when every run has its place. */
  lemma {:induction false} PatchAppliesIff(
    lines: Source, touched: set<int>, r: Renaming, runs: seq<Run>, m: nat) returns (out: Option<Source>)
    requires Complete(lines, touched, r.oldName)
    requires RunsOfFile(runs, touched, |lines|) && m <= |runs|
    ensures out == ApplyBlocks(lines, FileBlocksTo(lines, runs, m, touched, r))
    ensures Positional(lines, touched, r, runs, m, out)
    ensures out.Some? <==> RunsPlaced(lines, touched, r, runs, m)
    decreases m
  {
    if m == 0 {
      out := Some(lines);
    } else {
      var before := PatchAppliesIff(lines, touched, r, runs, m - 1);
      out := AppliesStep(lines, touched, r, runs, m - 1, before);
    }
  }
}
