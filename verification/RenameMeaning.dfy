/** What a rename patch means: against the tokens of whole files, there and back, and over a project. */
module RenameMeaning {
  import opened Collections
  import opened SourceText
  import opened LineRuns
  import opened PatchApplier
  import opened Rename

  // ------------------------------------------------------------------
  // One file
  // ------------------------------------------------------------------

  /** The intended result: every NAME token of the file renamed, strings and comments left alone. */
  function RenamedFile(lines: Source, r: Renaming): Source {
    seq(|lines|, i requires 0 <= i < |lines| => RenameLine(lines[i], StateAt(lines, i), r.oldName, r.newName))
  }

  predicate ChunkHasWord(chunk: Source, name: string) {
    exists j :: 0 <= j < |chunk| && Word(name) in chunk[j]
  }

  ghost predicate NameTokenOn(lines: Source, i: int, name: string) {
    0 <= i < |lines| && HasNameToken(lines[i], StateAt(lines, i), name)
  }

  /** The lines of the run hold a NAME token of the file that spells `name`. */
  ghost predicate RunHasNameToken(lines: Source, run: Run, name: string)
    requires run != [] && 0 <= run[0] && End(run) <= |lines|
  {
    exists i :: run[0] <= i < End(run) && NameTokenOn(lines, i, name)
  }

  /** A run is renamed as the file requires: either it starts outside every string and tokenises
      on its own, or there is nothing in it that could go wrong. */
  ghost predicate RunFaithful(lines: Source, run: Run, r: Renaming)
    requires run != [] && 0 <= run[0] && End(run) <= |lines|
  {
    if Tokenises(ChunkOf(lines, run), r.layout)
    then StateAt(lines, run[0]) == Code || !ChunkHasWord(ChunkOf(lines, run), r.oldName)
    else !RunHasNameToken(lines, run, r.oldName)
  }

  ghost predicate RunMatchesFile(lines: Source, run: Run, touched: set<int>, r: Renaming)
    requires run != [] && 0 <= run[0] && End(run) <= |lines|
  {
    forall j :: 0 <= j < |run| ==> RunRename(lines, run, touched, r)[j] == RenamedFile(lines, r)[run[0] + j]
  }

  lemma RunMatchesFileIff(lines: Source, run: Run, touched: set<int>, r: Renaming)
    requires run != [] && 0 <= run[0] && End(run) <= |lines|
    requires Complete(lines, touched, r.oldName) && r.oldName != r.newName
    ensures RunMatchesFile(lines, run, touched, r) <==> RunFaithful(lines, run, r)
  {
    var chunk := ChunkOf(lines, run);
    if Tokenises(chunk, r.layout) {
      forall j | 0 <= j < |run|
        ensures RunRename(lines, run, touched, r)[j] == RenamedFile(lines, r)[run[0] + j] <==>
                StateAt(lines, run[0]) == Code || Word(r.oldName) !in chunk[j]
      {
        TokenisedLineMatchesIff(lines, run, touched, r, j);
      }
    } else {
      forall j | 0 <= j < |run|
        ensures RunRename(lines, run, touched, r)[j] == RenamedFile(lines, r)[run[0] + j] <==>
                !NameTokenOn(lines, run[0] + j, r.oldName)
      {
        RenameLineFixedIff(lines[run[0] + j], StateAt(lines, run[0] + j), r.oldName, r.newName);
      }
      if RunMatchesFile(lines, run, touched, r) {
        forall i | run[0] <= i < End(run) ensures !NameTokenOn(lines, i, r.oldName) {
          var j := i - run[0];
          assert RunRename(lines, run, touched, r)[j] == RenamedFile(lines, r)[run[0] + j];
        }
      }
    }
  }

  lemma TokenisedLineMatchesIff(lines: Source, run: Run, touched: set<int>, r: Renaming, j: nat)
    requires run != [] && 0 <= run[0] && End(run) <= |lines| && j < |run|
    requires Complete(lines, touched, r.oldName) && r.oldName != r.newName
    requires Tokenises(ChunkOf(lines, run), r.layout)
    ensures RunRename(lines, run, touched, r)[j] == RenamedFile(lines, r)[run[0] + j] <==>
            StateAt(lines, run[0]) == Code || Word(r.oldName) !in ChunkOf(lines, run)[j]
  {
    var i := run[0] + j;
    SliceState(lines, run[0], End(run), j);
    var inFile := StateAt(lines, i);
    assert ChunkOf(lines, run)[j] == lines[i];
    if i + 1 in touched {
      assert IsTouched(run, touched, j + 1);
      if StateAt(lines, run[0]) != Code {
        RenameLineFlippedIff(lines[i], inFile, r.oldName, r.newName);
      }
    } else {
      assert !IsTouched(run, touched, j + 1);
      UnmentionedIsFixed(lines[i], inFile, r.oldName, r.newName);
    }
  }

  /** With every mention among the references, the patched file is the renamed file exactly when
      every run is faithful. The documented promise that strings are never changed needs the
      runs to start outside triple-quoted strings. */
  lemma PatchIsRenameIff(lines: Source, runs: seq<Run>, touched: set<int>, r: Renaming)
    requires RunsOfFile(runs, touched, |lines|)
    requires Complete(lines, touched, r.oldName) && r.oldName != r.newName
    ensures Spliced(lines, runs, touched, r) == RenamedFile(lines, r) <==>
            forall a :: 0 <= a < |runs| ==> RunFaithful(lines, runs[a], r)
  {
    forall a | 0 <= a < |runs|
      ensures RunMatchesFile(lines, runs[a], touched, r) <==> RunFaithful(lines, runs[a], r)
    {
      RunMatchesFileIff(lines, runs[a], touched, r);
    }
    if Spliced(lines, runs, touched, r) == RenamedFile(lines, r) {
      forall a | 0 <= a < |runs| ensures RunMatchesFile(lines, runs[a], touched, r) {
        ChunkAfterSplice(lines, runs, touched, r, a);
        EqualFilesMatch(lines, runs[a], touched, r, RenamedFile(lines, r));
      }
    }
    if forall a :: 0 <= a < |runs| ==> RunMatchesFile(lines, runs[a], touched, r) {
      MatchingRunsGiveFile(lines, runs, touched, r);
    }
  }

  lemma EqualFilesMatch(lines: Source, run: Run, touched: set<int>, r: Renaming, out: Source)
    requires run != [] && 0 <= run[0] && End(run) <= |lines|
    requires out == RenamedFile(lines, r) && ChunkOf(out, run) == RunRename(lines, run, touched, r)
    ensures RunMatchesFile(lines, run, touched, r)
  {
    forall j | 0 <= j < |run| ensures RunRename(lines, run, touched, r)[j] == RenamedFile(lines, r)[run[0] + j] {
      assert ChunkOf(out, run)[j] == out[run[0] + j];
    }
  }

  lemma MatchingRunsGiveFile(lines: Source, runs: seq<Run>, touched: set<int>, r: Renaming)
    requires RunsOfFile(runs, touched, |lines|)
    requires Complete(lines, touched, r.oldName)
    requires forall a :: 0 <= a < |runs| ==> RunMatchesFile(lines, runs[a], touched, r)
    ensures Spliced(lines, runs, touched, r) == RenamedFile(lines, r)
  {
    var out, want := Spliced(lines, runs, touched, r), RenamedFile(lines, r);
    forall i | 0 <= i < |lines| ensures out[i] == want[i] {
      LineMatches(lines, runs, touched, r, i);
    }
  }

  lemma LineMatches(lines: Source, runs: seq<Run>, touched: set<int>, r: Renaming, i: int)
    requires RunsOfFile(runs, touched, |lines|) && 0 <= i < |lines|
    requires Complete(lines, touched, r.oldName)
    requires forall a :: 0 <= a < |runs| ==> RunMatchesFile(lines, runs[a], touched, r)
    ensures Spliced(lines, runs, touched, r)[i] == RenamedFile(lines, r)[i]
  {
    SplicedAt(lines, runs, touched, r, i);
    if a :| 0 <= a < |runs| && Contains(runs[a], i) {
      assert RunMatchesFile(lines, runs[a], touched, r);
      var j := i - runs[a][0];
      assert RunRename(lines, runs[a], touched, r)[j] == RenamedFile(lines, r)[runs[a][0] + j];
    } else {
      assert !Covered(runs, i);
      assert NearTouched(touched, i) ==> Covered(runs, i);
      assert i + 1 !in touched;
      UnmentionedIsFixed(lines[i], StateAt(lines, i), r.oldName, r.newName);
    }
  }

  /** Five lines of a docstring, with the name on the middle one. */
  function Docstring(name: string): Source {
    [[Delim], [Opaque(" ", {})], [Word(name)], [Opaque(" ", {})], [Delim]]
  }

  lemma DocstringStates(name: string)
    ensures var lines := Docstring(name);
            && StateAt(lines, 1) == StateAt(lines, 2) == StateAt(lines, 3) == InString
            && AfterLines(Code, lines[1..4]) == Code
  {
    var lines := Docstring(name);
    assert lines[..0] == [];
    StateAtNext(lines, 0);
    StateAtNext(lines, 1);
    StateAtNext(lines, 2);
    var chunk := lines[1..4];
    assert chunk[..0] == [] && chunk[..3] == chunk;
    StateAtNext(chunk, 0);
    StateAtNext(chunk, 1);
    StateAtNext(chunk, 2);
  }

  lemma DocstringRun(runs: seq<Run>)
    requires AreRuns(runs, Expanded({3}, 5), 5)
    ensures runs == [[1, 2, 3]]
  {
    var expected: seq<Run> := [[1, 2, 3]];
    forall i ensures Covered(expected, i) <==> 0 <= i < 5 && i in Expanded({3}, 5) {
      assert NearTouched({3}, i) <==> i in {1, 2, 3};
      assert Contains(expected[0], i) <==> i in {1, 2, 3};
    }
    RunsAreUnique(runs, expected, Expanded({3}, 5), 5);
  }

  lemma DocstringMentions(name: string)
    ensures Complete(Docstring(name), {3}, name)
  {
    var lines := Docstring(name);
    assert PieceMentions(lines[2][0], name);
    assert forall i :: 0 <= i < 5 && i != 2 ==> !PieceMentions(lines[i][0], name);
  }

  lemma DocstringHasNoNameToken(r: Renaming)
    requires r.oldName != r.newName
    ensures RenamedFile(Docstring(r.oldName), r) == Docstring(r.oldName)
  {
    var lines := Docstring(r.oldName);
    DocstringStates(r.oldName);
    DocstringMentions(r.oldName);
    forall i | 0 <= i < 5 ensures RenamedFile(lines, r)[i] == lines[i] {
      if i == 2 {
        RenameLineFixedIff(lines[2], InString, r.oldName, r.newName);
      } else {
        UnmentionedIsFixed(lines[i], StateAt(lines, i), r.oldName, r.newName);
      }
    }
  }

  /** The promise fails on a docstring longer than the context window: the file holds no NAME
      token to rename, every mention is touched, and the patch rewrites the file all the same. */
  lemma DocstringIsRewritten(r: Renaming)
    requires r.oldName != r.newName && r.layout(Shape(Docstring(r.oldName)[1..4]))
    ensures Complete(Docstring(r.oldName), {3}, r.oldName)
    ensures RenamedFile(Docstring(r.oldName), r) == Docstring(r.oldName)
    ensures Spliced(Docstring(r.oldName), FileRuns({3}, 5), {3}, r) != Docstring(r.oldName)
  {
    DocstringMentions(r.oldName);
    DocstringHasNoNameToken(r);
    FileRunsAreRuns({3}, 5);
    var runs := FileRuns({3}, 5);
    DocstringRun(runs);
    DocstringRunUnfaithful(r);
    assert !RunFaithful(Docstring(r.oldName), runs[0], r);
    PatchIsRenameIff(Docstring(r.oldName), runs, {3}, r);
  }

  /** The promise fails for the patch as applied, too: its one block matches exactly once, so the applier
      writes the changed docstring to the file. */
  lemma DocstringIsPatched(r: Renaming) returns (out: Source)
    requires r.oldName != r.newName && r.layout(Shape(Docstring(r.oldName)[1..4]))
    ensures ApplyBlocks(Docstring(r.oldName), FileBlocks(Docstring(r.oldName), FileRuns({3}, 5), {3}, r)) == Some(out)
    ensures out != Docstring(r.oldName) && RenamedFile(Docstring(r.oldName), r) == Docstring(r.oldName)
  {
    var lines, runs := Docstring(r.oldName), FileRuns({3}, 5);
    DocstringIsRewritten(r);
    FileRunsAreRuns({3}, 5);
    DocstringRun(runs);
    DocstringMatchesOnce(r.oldName);
    assert ChunkOf(lines, runs[0]) == lines[1..4];
    assert RunPlaced(lines, {3}, r, runs, 0);
    var patched := PatchAppliesIff(lines, {3}, r, runs, 1);
    out := patched.value;
  }

  lemma DocstringMatchesOnce(name: string)
    ensures PlacedOnce(Docstring(name), Docstring(name)[1..4], 1)
  {
    var lines, chunk := Docstring(name), Docstring(name)[1..4];
    assert chunk[0] == [Opaque(" ", {})] && lines[0] == [Delim];
    assert lines[0..3][0] == lines[0] != chunk[0];
    assert lines[1..4] == chunk;
    assert !OccursAt(lines, chunk, 0) && OccursAt(lines, chunk, 1);
  }

  lemma DocstringRunUnfaithful(r: Renaming)
    requires r.layout(Shape(Docstring(r.oldName)[1..4]))
    ensures !RunFaithful(Docstring(r.oldName), [1, 2, 3], r)
  {
    var lines := Docstring(r.oldName);
    DocstringStates(r.oldName);
    var chunk := ChunkOf(lines, [1, 2, 3]);
    assert chunk == lines[1..4];
    assert chunk[1] == [Word(r.oldName)] && Word(r.oldName) in chunk[1];
  }

  // ------------------------------------------------------------------
  // There and back
  // ------------------------------------------------------------------

  /** Renaming the same lines back restores the file exactly when, in every run the tokeniser
      accepts, no touched line already held the new name. Any set of touched lines will do. */
  lemma RenameRoundTripIff(lines: Source, runs: seq<Run>, touched: set<int>, r: Renaming)
    requires RunsOfFile(runs, touched, |lines|) && r.oldName != r.newName
    ensures Spliced(Spliced(lines, runs, touched, r), runs, touched, r.Back()) == lines <==>
            forall a :: 0 <= a < |runs| ==> RunReversible(lines, runs[a], touched, r)
  {
    var there := Spliced(lines, runs, touched, r);
    var back := Spliced(there, runs, touched, r.Back());
    forall a | 0 <= a < |runs|
      ensures ChunkOf(back, runs[a]) == ChunkOf(lines, runs[a]) <==> RunReversible(lines, runs[a], touched, r)
    {
      ChunkAfterSplice(lines, runs, touched, r, a);
      ChunkAfterSplice(there, runs, touched, r.Back(), a);
      ReplacedRoundTripIff(ChunkOf(lines, runs[a]), r.layout, Some(TargetsOf(runs[a], touched)), r.oldName, r.newName);
    }
    if forall a :: 0 <= a < |runs| ==> ChunkOf(back, runs[a]) == ChunkOf(lines, runs[a]) {
      forall i | 0 <= i < |lines| ensures back[i] == lines[i] {
        SplicedAt(lines, runs, touched, r, i);
        SplicedAt(there, runs, touched, r.Back(), i);
        if a :| 0 <= a < |runs| && Contains(runs[a], i) {
          assert ChunkOf(back, runs[a])[i - runs[a][0]] == ChunkOf(lines, runs[a])[i - runs[a][0]];
        }
      }
    }
  }

  ghost predicate RunReversible(lines: Source, run: Run, touched: set<int>, r: Renaming)
    requires run != [] && 0 <= run[0] && End(run) <= |lines|
  {
    || !Tokenises(ChunkOf(lines, run), r.layout)
    || !TargetsName(ChunkOf(lines, run), Some(TargetsOf(run, touched)), r.newName)
  }

  lemma ChunkAfterSplice(lines: Source, runs: seq<Run>, touched: set<int>, r: Renaming, a: int)
    requires Separated(runs) && InBounds(runs, |lines|) && 0 <= a < |runs|
    ensures ChunkOf(Spliced(lines, runs, touched, r), runs[a]) == RunRename(lines, runs[a], touched, r)
  {
    var out, text := Spliced(lines, runs, touched, r), RunRename(lines, runs[a], touched, r);
    var chunk := ChunkOf(out, runs[a]);
    forall j | 0 <= j < |runs[a]| ensures chunk[j] == text[j] {
      SplicedInRun(lines, runs, touched, r, a, j);
    }
  }
}
