/** The rename over a whole project: references in, one proposal out, and the files it leaves. */
module RenameProject {
  import opened Collections
  import opened SourceText
  import opened LineRuns
  import opened PatchApplier
  import opened Rename
  import opened RenameMeaning

  datatype FileBlock = FileBlock(file: Path, block: UpdateBlock)

  predicate Usable(ref: Reference) {
    ref.file != "" && ref.line != 0
  }

  function TouchedIn(refs: seq<Reference>, file: Path): (touched: set<int>)
    ensures 0 !in touched
  {
    set ref | ref in refs && Usable(ref) && ref.file == file :: ref.line
  }

  function FilesOf(refs: seq<Reference>): (files: seq<Path>)
    ensures forall f :: f in files <==> exists ref :: ref in refs && Usable(ref) && ref.file == f
  {
    if refs == [] then []
    else
      assert refs == refs[..|refs| - 1] + [refs[|refs| - 1]];
      var ref := refs[|refs| - 1];
      FilesOf(refs[..|refs| - 1]) + (if Usable(ref) then [ref.file] else [])
  }

  function Tagged(file: Path, blocks: seq<UpdateBlock>): (r: seq<FileBlock>)
    ensures |r| == |blocks|
  {
    seq(|blocks|, i requires 0 <= i < |blocks| => FileBlock(file, blocks[i]))
  }

  function BlocksFor(project: Project, refs: seq<Reference>, file: Path, r: Renaming): seq<FileBlock> {
    if file !in project then []
    else
      var touched := TouchedIn(refs, file);
      Tagged(file, FileBlocks(project[file], FileRuns(touched, |project[file]|), touched, r))
  }

  function ProjectBlocks(project: Project, refs: seq<Reference>, files: seq<Path>, r: Renaming): seq<FileBlock> {
    if files == [] then []
    else
      ProjectBlocks(project, refs, files[..|files| - 1], r) + BlocksFor(project, refs, files[|files| - 1], r)
  }

  /** A dictionary of sets with the empty set as its default. */
  function LinesOf(fileLines: map<Path, set<int>>, file: Path): set<int> {
    if file in fileLines then fileLines[file] else {}
  }

  function WithLine(fileLines: map<Path, set<int>>, ref: Reference): map<Path, set<int>> {
    fileLines[ref.file := LinesOf(fileLines, ref.file) + {ref.line}]
  }

  lemma LinesGrow(fileLines: map<Path, set<int>>, refs: seq<Reference>, ref: Reference)
    requires forall f :: LinesOf(fileLines, f) == TouchedIn(refs, f)
    ensures forall f :: LinesOf(if Usable(ref) then WithLine(fileLines, ref) else fileLines, f) ==
              TouchedIn(refs + [ref], f)
  {
    TouchedGrows(refs, ref);
  }

  /** References grouped by file, as a dictionary of line sets. */
  method CollectLines(refs: seq<Reference>) returns (fileLines: map<Path, set<int>>)
    ensures forall f :: LinesOf(fileLines, f) == TouchedIn(refs, f)
  {
    fileLines := map[];
    for i := 0 to |refs|
      invariant forall f :: LinesOf(fileLines, f) == TouchedIn(refs[..i], f)
    {
      assert refs[..i + 1] == refs[..i] + [refs[i]];
      LinesGrow(fileLines, refs[..i], refs[i]);
      if Usable(refs[i]) {
        fileLines := WithLine(fileLines, refs[i]);
      }
    }
    assert refs[..|refs|] == refs;
  }

  method BuildRenamePatch(project: Project, refs: seq<Reference>, r: Renaming) returns (blocks: seq<FileBlock>)
    ensures blocks == ProjectBlocks(project, refs, SortedSet(FilesOf(refs)), r)
  {
    var fileLines := CollectLines(refs);
    var order := SortedSet(FilesOf(refs));
    blocks := [];
    for k := 0 to |order|
      invariant blocks == ProjectBlocks(project, refs, order[..k], r)
    {
      var file := order[k];
      assert order[..k + 1][..k] == order[..k];
      assert LinesOf(fileLines, file) == TouchedIn(refs, file);
      if file in project {
        var fileBlocks := BuildFileBlocks(project[file], LinesOf(fileLines, file), r);
        blocks := blocks + Tagged(file, fileBlocks);
      }
    }
    assert order[..|order|] == order;
  }

  lemma AbsentFileHasNoLines(refs: seq<Reference>, file: Path)
    ensures file !in Elems(FilesOf(refs)) ==> TouchedIn(refs, file) == {}
  {
  }

  lemma TouchedGrows(refs: seq<Reference>, ref: Reference)
    ensures forall f :: TouchedIn(refs + [ref], f) ==
              TouchedIn(refs, f) + (if Usable(ref) && f == ref.file then {ref.line} else {})
  {
    assert forall x :: x in refs + [ref] <==> x in refs || x == ref;
    forall f ensures TouchedIn(refs + [ref], f) ==
                     TouchedIn(refs, f) + (if Usable(ref) && f == ref.file then {ref.line} else {})
    {
      assert Usable(ref) && f == ref.file ==> ref.line in TouchedIn(refs + [ref], f);
    }
  }

  // ------------------------------------------------------------------
  // Applying the proposal
  // ------------------------------------------------------------------

  function ApplyFileBlock(project: Project, b: FileBlock): Option<Project> {
    if b.file !in project || b.block.search == [] then None
    else
      var updated := ApplyBlock(project[b.file], b.block);
      if updated.None? then None else Some(project[b.file := updated.value])
  }

  /** All or nothing: one block that does not match exactly once fails the whole proposal. */
  function ApplyProposal(project: Project, blocks: seq<FileBlock>): Option<Project> {
    if blocks == [] then Some(project)
    else
      var before := ApplyProposal(project, blocks[..|blocks| - 1]);
      if before.None? then None else ApplyFileBlock(before.value, blocks[|blocks| - 1])
  }

  lemma {:induction false} ApplyProposalConcat(project: Project, front: seq<FileBlock>, back: seq<FileBlock>)
    ensures ApplyProposal(project, front + back) ==
            var mid := ApplyProposal(project, front); if mid.None? then None else ApplyProposal(mid.value, back)
    decreases |back|
  {
    if back == [] {
      assert front + back == front;
    } else {
      var n := |back| - 1;
      assert (front + back)[..|front + back| - 1] == front + back[..n];
      ApplyProposalConcat(project, front, back[..n]);
    }
  }

  lemma {:induction false} ApplyOneFile(project: Project, file: Path, blocks: seq<UpdateBlock>)
    requires file in project
    requires forall b :: b in blocks ==> b.search != []
    ensures ApplyProposal(project, Tagged(file, blocks)) ==
            WithContent(project, file, ApplyBlocks(project[file], blocks))
    decreases |blocks|
  {
    if blocks == [] {
      assert project[file := project[file]] == project;
    } else {
      var n := |blocks| - 1;
      assert Tagged(file, blocks)[..n] == Tagged(file, blocks[..n]);
      ApplyOneFile(project, file, blocks[..n]);
      ApplyOneBlock(project, file, ApplyBlocks(project[file], blocks[..n]), blocks[n]);
    }
  }

  function WithContent(project: Project, file: Path, content: Option<Source>): Option<Project> {
    if content.None? then None else Some(project[file := content.value])
  }

  lemma ApplyOneBlock(project: Project, file: Path, before: Option<Source>, b: UpdateBlock)
    requires file in project && b.search != []
    ensures var mid := WithContent(project, file, before);
            (if mid.None? then None else ApplyFileBlock(mid.value, FileBlock(file, b))) ==
            WithContent(project, file, if before.None? then None else ApplyBlock(before.value, b))
  {
    if before.Some? {
      var updated := ApplyBlock(before.value, b);
      assert updated.Some? ==> project[file := before.value][file := updated.value] == project[file := updated.value];
    }
  }

  /** Each file with its runs replaced in place. */
  function PatchedFile(project: Project, refs: seq<Reference>, file: Path, r: Renaming): Source
    requires file in project
  {
    var touched := TouchedIn(refs, file);
    Spliced(project[file], FileRuns(touched, |project[file]|), touched, r)
  }

  /** The references name, in every listed file, every line that mentions the old name. */
  ghost predicate CompleteRefs(project: Project, refs: seq<Reference>, files: seq<Path>, symbol: string) {
    forall f :: f in files && f in project ==> Complete(project[f], TouchedIn(refs, f), symbol)
  }

  predicate Distinct(files: seq<Path>) {
    forall i, j :: 0 <= i < j < |files| ==> files[i] != files[j]
  }

  function Patched(project: Project, refs: seq<Reference>, files: seq<Path>, r: Renaming): Project {
    map f | f in project :: if f in files then PatchedFile(project, refs, f, r) else project[f]
  }

  lemma FileProposalIsPositional(project: Project, refs: seq<Reference>, file: Path, r: Renaming, at: Project)
    requires file in project && file in at && at[file] == project[file]
    requires Complete(project[file], TouchedIn(refs, file), r.oldName)
    ensures var out := ApplyProposal(at, BlocksFor(project, refs, file, r));
            out.Some? ==> out.value == at[file := PatchedFile(project, refs, file, r)]
  {
    var touched := TouchedIn(refs, file);
    var runs := FileRuns(touched, |project[file]|);
    ApplyOneFile(at, file, FileBlocks(project[file], runs, touched, r));
    FileRunsAreRuns(touched, |project[file]|);
    var patched := PatchIsPositional(project[file], touched, r, runs, |runs|);
  }

  /** Over all files at once: a proposal that applies has replaced every run in its own place. */
  lemma {:induction false} ProposalIsPositional(
    project: Project, refs: seq<Reference>, files: seq<Path>, r: Renaming)
    requires CompleteRefs(project, refs, files, r.oldName) && Distinct(files)
    ensures var out := ApplyProposal(project, ProjectBlocks(project, refs, files, r));
            out.Some? ==> out.value == Patched(project, refs, files, r)
    decreases |files|
  {
    if files != [] {
      var n := |files| - 1;
      var front, file := files[..n], files[n];
      assert files == front + [file];
      ProposalIsPositional(project, refs, front, r);
      ApplyProposalConcat(project, ProjectBlocks(project, refs, front, r), BlocksFor(project, refs, file, r));
      PatchedStep(project, refs, front, file, r);
      if file in project {
        FileProposalIsPositional(project, refs, file, r, Patched(project, refs, front, r));
      }
    } else {
      assert Patched(project, refs, files, r) == project;
    }
  }

  lemma PatchedStep(project: Project, refs: seq<Reference>, front: seq<Path>, file: Path, r: Renaming)
    requires file !in front
    ensures var before := Patched(project, refs, front, r);
            Patched(project, refs, front + [file], r) ==
            if file in project then before[file := PatchedFile(project, refs, file, r)] else before
    ensures file in project ==> Patched(project, refs, front, r)[file] == project[file]
  {
  }

  // ------------------------------------------------------------------
  // From the search to the applied patch
  // ------------------------------------------------------------------

  lemma {:induction false} FileReferencesList(lines: Source, file: Path, symbol: string, upTo: nat)
    requires upTo <= |lines|
    ensures forall ref :: ref in FileReferences(lines, file, symbol, upTo) <==>
              ref.file == file && 1 <= ref.line <= upTo && Mentions(lines[ref.line - 1], symbol)
    decreases upTo
  {
    if upTo > 0 {
      FileReferencesList(lines, file, symbol, upTo - 1);
    }
  }

  predicate IsMention(project: Project, ref: Reference, symbol: string) {
    && ref.file in project && 1 <= ref.line <= |project[ref.file]|
    && Mentions(project[ref.file][ref.line - 1], symbol)
  }

  /** The scan of the first `k` files lists exactly the lines that mention the symbol. */
  lemma {:induction false} AllReferencesList(project: Project, files: seq<Path>, symbol: string, ref: Reference, k: nat)
    requires k <= |files|
    ensures ref in AllReferencesTo(project, files, symbol, k) <==> ref.file in files[..k] && IsMention(project, ref, symbol)
    decreases k
  {
    if k > 0 {
      var file := files[k - 1];
      AllReferencesList(project, files, symbol, ref, k - 1);
      assert files[..k] == files[..k - 1] + [file];
      if file in project {
        FileReferencesList(project[file], file, symbol, |project[file]|);
      }
    }
  }

  /** A search that stays below the cap has seen every mention in the searched files. */
  lemma SearchBelowCapIsComplete(project: Project, searched: seq<Path>, symbol: string)
    requires "" !in searched
    requires |FirstResults(AllReferences(project, searched, symbol))| < 100
    ensures CompleteRefs(project, FirstResults(AllReferences(project, searched, symbol)), searched, symbol)
  {
    var refs := AllReferences(project, searched, symbol);
    assert searched[..|searched|] == searched;
    forall f | f in searched && f in project ensures Complete(project[f], TouchedIn(refs, f), symbol) {
      forall t ensures t in TouchedIn(refs, f) <==> 1 <= t <= |project[f]| && Mentions(project[f][t - 1], symbol) {
        AllReferencesList(project, searched, symbol, Reference(f, t), |searched|);
        assert Reference(f, t) in refs ==> Usable(Reference(f, t)) || t == 0;
      }
    }
  }

  lemma UnreferencedFileIsKept(project: Project, refs: seq<Reference>, file: Path, r: Renaming)
    requires file in project && TouchedIn(refs, file) == {}
    ensures PatchedFile(project, refs, file, r) == project[file]
  {
    var lines := project[file];
    var runs := FileRuns({}, |lines|);
    forall i | 0 <= i < |lines| ensures PatchedFile(project, refs, file, r)[i] == lines[i] {
      SplicedKeepsUntouched(lines, runs, {}, r, i, |runs|);
    }
  }

  /** End to end. When the search stayed below its cap and the proposal applies, every searched
      file has its runs replaced in place and every other file is untouched; and a searched file is
      the file with all its NAME tokens renamed exactly when all its runs are faithful. */
  lemma RenameEndToEnd(project: Project, searchFiles: seq<Path>, r: Renaming, out: Project)
    requires "" !in searchFiles && r.oldName != r.newName
    requires var refs := FirstResults(AllReferences(project, SortedSet(searchFiles), r.oldName));
             && |refs| < 100
             && ApplyProposal(project, ProjectBlocks(project, refs, SortedSet(FilesOf(refs)), r)) == Some(out)
    ensures out.Keys == project.Keys
    ensures forall f :: f in project && f !in searchFiles ==> out[f] == project[f]
    ensures forall f :: f in project && f in searchFiles ==>
              (out[f] == RenamedFile(project[f], r) <==> FileFaithful(project[f], r))
  {
    var searched := SortedSet(searchFiles);
    SameMembers(searched, searchFiles);
    var refs := FirstResults(AllReferences(project, searched, r.oldName));
    SearchBelowCapIsComplete(project, searched, r.oldName);
    var files := SortedSet(FilesOf(refs));
    SameMembers(files, FilesOf(refs));
    SortedSetIsAscending(FilesOf(refs));
    AscendingIsDistinct(files);
    ReferencedFilesWereSearched(project, searched, r.oldName);
    ProposalIsPositional(project, refs, files, r);
    assert out == Patched(project, refs, files, r);
    forall f | f in project && f !in files ensures out[f] == PatchedFile(project, refs, f, r) {
      AbsentFileHasNoLines(refs, f);
      UnreferencedFileIsKept(project, refs, f, r);
    }
    forall f | f in project && f in searchFiles
      ensures out[f] == RenamedFile(project[f], r) <==> FileFaithful(project[f], r)
    {
      assert f in searched;
      PatchedFileIsRenameIff(project, refs, f, r);
    }
  }

  predicate MentionedOn(lines: Source, t: int, name: string) {
    1 <= t <= |lines| && Mentions(lines[t - 1], name)
  }

  /** The lines a complete search touches, as a function of the file alone. */
  function MentionLines(lines: Source, name: string): set<int> {
    set t | 1 <= t <= |lines| && MentionedOn(lines, t, name)
  }

  ghost predicate FileFaithful(lines: Source, r: Renaming) {
    var runs := FileRuns(MentionLines(lines, r.oldName), |lines|);
    forall a :: 0 <= a < |runs| ==> RunFaithful(lines, runs[a], r)
  }

  lemma PatchedFileIsRenameIff(project: Project, refs: seq<Reference>, f: Path, r: Renaming)
    requires f in project && r.oldName != r.newName
    requires Complete(project[f], TouchedIn(refs, f), r.oldName)
    ensures PatchedFile(project, refs, f, r) == RenamedFile(project[f], r) <==> FileFaithful(project[f], r)
  {
    var touched := TouchedIn(refs, f);
    CompleteIsMentionLines(project[f], touched, r.oldName);
    FileRunsAreRuns(touched, |project[f]|);
    PatchIsRenameIff(project[f], FileRuns(touched, |project[f]|), touched, r);
  }

  // ------------------------------------------------------------------
  // When the proposal applies
  // ------------------------------------------------------------------

  /** Every run of the file has its place when its turn comes. */
  ghost predicate FilePlaced(lines: Source, r: Renaming) {
    var touched := MentionLines(lines, r.oldName);
    var runs := FileRuns(touched, |lines|);
    RunsPlaced(lines, touched, r, runs, |runs|)
  }

  lemma CompleteIsMentionLines(lines: Source, touched: set<int>, name: string)
    requires Complete(lines, touched, name)
    ensures touched == MentionLines(lines, name)
  {
    forall t ensures t in touched <==> MentionedOn(lines, t, name) {
    }
  }

  lemma FileProposalAppliesIff(project: Project, refs: seq<Reference>, file: Path, r: Renaming, at: Project)
    requires file in project && file in at && at[file] == project[file]
    requires Complete(project[file], TouchedIn(refs, file), r.oldName)
    ensures ApplyProposal(at, BlocksFor(project, refs, file, r)).Some? <==> FilePlaced(project[file], r)
  {
    var touched := TouchedIn(refs, file);
    CompleteIsMentionLines(project[file], touched, r.oldName);
    var runs := FileRuns(touched, |project[file]|);
    FileRunsAreRuns(touched, |project[file]|);
    ApplyOneFile(at, file, FileBlocks(project[file], runs, touched, r));
    var patched := PatchAppliesIff(project[file], touched, r, runs, |runs|);
  }

  lemma {:induction false} ProposalAppliesIff(
    project: Project, refs: seq<Reference>, files: seq<Path>, r: Renaming)
    requires CompleteRefs(project, refs, files, r.oldName) && Distinct(files)
    ensures ApplyProposal(project, ProjectBlocks(project, refs, files, r)).Some? <==>
            forall f :: f in files && f in project ==> FilePlaced(project[f], r)
    decreases |files|
  {
    if files != [] {
      var n := |files| - 1;
      var front, file := files[..n], files[n];
      assert files == front + [file];
      ProposalAppliesIff(project, refs, front, r);
      ProposalIsPositional(project, refs, front, r);
      ApplyProposalConcat(project, ProjectBlocks(project, refs, front, r), BlocksFor(project, refs, file, r));
      PatchedStep(project, refs, front, file, r);
      if file in project {
        FileProposalAppliesIff(project, refs, file, r, Patched(project, refs, front, r));
      }
    }
  }

  lemma UnmentionedFileIsPlaced(lines: Source, r: Renaming)
    requires MentionLines(lines, r.oldName) == {}
    ensures FilePlaced(lines, r)
  {
    var runs := FileRuns({}, |lines|);
    FileRunsAreRuns({}, |lines|);
    if runs != [] {
      RunEdges(runs, Expanded({}, |lines|), |lines|, 0);
      assert Contains(runs[0], runs[0][0]);
    }
  }

  /** When the search stayed below its cap, the proposal applies exactly when, in every searched file, every
      run needs no change or has its text in one place when its turn comes. */
  lemma RenameAppliesIff(project: Project, searchFiles: seq<Path>, r: Renaming)
    requires "" !in searchFiles
    requires |FirstResults(AllReferences(project, SortedSet(searchFiles), r.oldName))| < 100
    ensures var refs := FirstResults(AllReferences(project, SortedSet(searchFiles), r.oldName));
            ApplyProposal(project, ProjectBlocks(project, refs, SortedSet(FilesOf(refs)), r)).Some? <==>
            forall f :: f in searchFiles && f in project ==> FilePlaced(project[f], r)
  {
    var searched := SortedSet(searchFiles);
    SameMembers(searched, searchFiles);
    var refs := FirstResults(AllReferences(project, searched, r.oldName));
    SearchBelowCapIsComplete(project, searched, r.oldName);
    var files := SortedSet(FilesOf(refs));
    SameMembers(files, FilesOf(refs));
    SortedSetIsAscending(FilesOf(refs));
    AscendingIsDistinct(files);
    ReferencedFilesWereSearched(project, searched, r.oldName);
    ProposalAppliesIff(project, refs, files, r);
    forall f | f in searched && f in project && f !in files ensures FilePlaced(project[f], r) {
      AbsentFileHasNoLines(refs, f);
      CompleteIsMentionLines(project[f], TouchedIn(refs, f), r.oldName);
      UnmentionedFileIsPlaced(project[f], r);
    }
  }

  lemma ReferencedFilesWereSearched(project: Project, searched: seq<Path>, symbol: string)
    ensures forall f :: f in FilesOf(FirstResults(AllReferences(project, searched, symbol))) ==> f in searched
  {
    var refs := FirstResults(AllReferences(project, searched, symbol));
    assert searched[..|searched|] == searched;
    forall f | f in FilesOf(refs) ensures f in searched {
      var ref :| ref in refs && Usable(ref) && ref.file == f;
      AllReferencesList(project, searched, symbol, ref, |searched|);
    }
  }

  lemma SameMembers(a: seq<Path>, b: seq<Path>)
    requires Elems(a) == Elems(b)
    ensures forall f :: f in a <==> f in b
  {
    forall f ensures f in a <==> f in b {
      assert f in a <==> f in Elems(a);
    }
  }

  lemma AscendingIsDistinct(files: seq<Path>)
    requires Ascending(files)
    ensures Distinct(files)
  {
    forall i, j | 0 <= i < j < |files| ensures files[i] != files[j] {
      BeforeIrreflexive(files[i]);
    }
  }
}
