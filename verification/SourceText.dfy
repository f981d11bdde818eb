/** Lines of source as pieces, the tokeniser's view of them, and renaming inside one chunk. */
module SourceText {
  import opened Collections

  /** `Word` is a maximal identifier outside comments and one-line strings, `Delim` a
      triple-quote delimiter, `Opaque` everything else together with the identifiers it contains. */
  datatype Piece = Word(name: string) | Delim | Opaque(text: string, words: set<string>)

  type Line = seq<Piece>

  type Source = seq<Line>

  /** Whether a position lies in code or inside a triple-quoted string. */
  datatype LexState = Code | InString

  function Flip(st: LexState): LexState {
    if st == Code then InString else Code
  }

  function Next(st: LexState, p: Piece): LexState {
    if p == Delim then Flip(st) else st
  }

  function AfterLine(st: LexState, line: Line): LexState
    decreases |line|
  {
    if line == [] then st else AfterLine(Next(st, line[0]), line[1..])
  }

  function AfterLines(st: LexState, lines: Source): LexState
    decreases |lines|
  {
    if lines == [] then st else AfterLines(AfterLine(st, lines[0]), lines[1..])
  }

  /** The state in which line `i` starts when lexing begins in code at line 0. */
  function StateAt(lines: Source, i: nat): LexState
    requires i <= |lines|
  {
    AfterLines(Code, lines[..i])
  }

  lemma {:induction false} AfterLinesConcat(st: LexState, a: Source, b: Source)
    ensures AfterLines(st, a + b) == AfterLines(AfterLines(st, a), b)
    decreases |a|
  {
    if a == [] {
      assert a + b == b;
    } else {
      assert (a + b)[1..] == a[1..] + b;
      AfterLinesConcat(AfterLine(st, a[0]), a[1..], b);
    }
  }

  lemma StateAtNext(lines: Source, i: nat)
    requires i < |lines|
    ensures StateAt(lines, i + 1) == AfterLine(StateAt(lines, i), lines[i])
  {
    assert lines[..i + 1] == lines[..i] + [lines[i]];
    AfterLinesConcat(Code, lines[..i], [lines[i]]);
  }

  lemma {:induction false} FlipAfterLine(st: LexState, line: Line)
    ensures AfterLine(Flip(st), line) == Flip(AfterLine(st, line))
    decreases |line|
  {
    if line != [] {
      FlipAfterLine(Next(st, line[0]), line[1..]);
    }
  }

  lemma {:induction false} FlipAfterLines(st: LexState, lines: Source)
    ensures AfterLines(Flip(st), lines) == Flip(AfterLines(st, lines))
    decreases |lines|
  {
    if lines != [] {
      FlipAfterLine(st, lines[0]);
      FlipAfterLines(AfterLine(st, lines[0]), lines[1..]);
    }
  }

  /** Lexing a slice of a file from scratch sees the file's states when the slice starts in code,
      and the opposite ones when it starts inside a string. */
  lemma SliceState(lines: Source, from: nat, to: nat, j: nat)
    requires from + j <= to <= |lines|
    ensures StateAt(lines[from..to], j) ==
            if StateAt(lines, from) == Code then StateAt(lines, from + j) else Flip(StateAt(lines, from + j))
  {
    assert lines[..from + j] == lines[..from] + lines[from..to][..j];
    AfterLinesConcat(Code, lines[..from], lines[from..to][..j]);
    FlipAfterLines(Code, lines[from..to][..j]);
  }

  // ------------------------------------------------------------------
  // Renaming in one line
  // ------------------------------------------------------------------

  function RenamePiece(p: Piece, st: LexState, oldName: string, newName: string): Piece {
    if st == Code && p == Word(oldName) then Word(newName) else p
  }

  /** Every NAME token equal to the old name replaced, starting in lexer state `st`. */
  function RenameLine(line: Line, st: LexState, oldName: string, newName: string): (r: Line)
    ensures |r| == |line|
  {
    if line == [] then []
    else [RenamePiece(line[0], st, oldName, newName)] + RenameLine(line[1..], Next(st, line[0]), oldName, newName)
  }

  /** Position `k` of the line is a NAME token spelling `name`. */
  predicate NameTokenAt(line: Line, st: LexState, name: string, k: int) {
    0 <= k < |line| && line[k] == Word(name) && AfterLine(st, line[..k]) == Code
  }

  ghost predicate HasNameToken(line: Line, st: LexState, name: string) {
    exists k :: NameTokenAt(line, st, name, k)
  }

  /** Renaming touches the NAME tokens spelling the old name and nothing else. */
  lemma {:induction false} RenameLineAt(line: Line, st: LexState, oldName: string, newName: string, k: nat)
    requires k < |line|
    ensures RenameLine(line, st, oldName, newName)[k] ==
            if NameTokenAt(line, st, oldName, k) then Word(newName) else line[k]
    decreases |line|
  {
    if k > 0 {
      var rest, st' := line[1..], Next(st, line[0]);
      RenameLineAt(rest, st', oldName, newName, k - 1);
      assert line[..k] == [line[0]] + rest[..k - 1];
      assert line[..k][1..] == rest[..k - 1];
    }
  }

  lemma RenameLineFixedIff(line: Line, st: LexState, oldName: string, newName: string)
    requires oldName != newName
    ensures RenameLine(line, st, oldName, newName) == line <==> !HasNameToken(line, st, oldName)
  {
    var r := RenameLine(line, st, oldName, newName);
    if k :| NameTokenAt(line, st, oldName, k) {
      RenameLineAt(line, st, oldName, newName, k);
      assert r[k] != line[k];
    } else {
      forall k | 0 <= k < |line| ensures r[k] == line[k] {
        RenameLineAt(line, st, oldName, newName, k);
      }
    }
  }

  /** Lexed from the wrong side of a triple quote, a line renames the same only if it does not
      contain the old name as a word at all. */
  lemma RenameLineFlippedIff(line: Line, st: LexState, oldName: string, newName: string)
    requires oldName != newName
    ensures RenameLine(line, Flip(st), oldName, newName) == RenameLine(line, st, oldName, newName) <==> Word(oldName) !in line
  {
    var a, b := RenameLine(line, Flip(st), oldName, newName), RenameLine(line, st, oldName, newName);
    if Word(oldName) in line {
      var k :| 0 <= k < |line| && line[k] == Word(oldName);
      RenameLineAt(line, Flip(st), oldName, newName, k);
      RenameLineAt(line, st, oldName, newName, k);
      FlipAfterLine(st, line[..k]);
      assert a[k] != b[k];
    } else {
      forall k | 0 <= k < |line| ensures a[k] == b[k] {
        RenameLineAt(line, Flip(st), oldName, newName, k);
        RenameLineAt(line, st, oldName, newName, k);
      }
    }
  }

  lemma {:induction false} RenameLineKeepsState(line: Line, st: LexState, from: LexState, oldName: string, newName: string)
    ensures AfterLine(from, RenameLine(line, st, oldName, newName)) == AfterLine(from, line)
    decreases |line|
  {
    if line != [] {
      RenameLineKeepsState(line[1..], Next(st, line[0]), Next(from, line[0]), oldName, newName);
    }
  }

  /** Renaming there and back gives the line back exactly when the new name was not a NAME token of it. */
  lemma RenameLineRoundTripIff(line: Line, st: LexState, oldName: string, newName: string)
    requires oldName != newName
    ensures RenameLine(RenameLine(line, st, oldName, newName), st, newName, oldName) == line <==> !HasNameToken(line, st, newName)
  {
    var there := RenameLine(line, st, oldName, newName);
    var back := RenameLine(there, st, newName, oldName);
    forall k | 0 <= k < |line|
      ensures back[k] == if NameTokenAt(line, st, newName, k) then Word(oldName) else line[k]
    {
      RenameLineAt(line, st, oldName, newName, k);
      RenameLineAt(there, st, newName, oldName, k);
      RenamePrefix(line, st, oldName, newName, k);
      RenameLineKeepsState(line[..k], st, st, oldName, newName);
    }
    if k :| NameTokenAt(line, st, newName, k) {
      assert back[k] != line[k];
    }
  }

  lemma {:induction false} RenamePrefix(line: Line, st: LexState, oldName: string, newName: string, k: nat)
    requires k <= |line|
    ensures RenameLine(line, st, oldName, newName)[..k] == RenameLine(line[..k], st, oldName, newName)
    decreases k
  {
    if k > 0 {
      RenamePrefix(line[1..], Next(st, line[0]), oldName, newName, k - 1);
      assert line[..k][1..] == line[1..][..k - 1];
    }
  }

  // ------------------------------------------------------------------
  // Renaming in a chunk
  // ------------------------------------------------------------------

  /** A text with its names blanked out: what layout errors depend on. */
  function ShapeOfLine(line: Line): Line {
    seq(|line|, k requires 0 <= k < |line| => if line[k].Word? then Word("") else line[k])
  }

  function Shape(lines: Source): Source {
    seq(|lines|, i requires 0 <= i < |lines| => ShapeOfLine(lines[i]))
  }

  /** Which shapes the tokeniser rejects for their layout (indentation, brackets) is left open. */
  type Layout = Source -> bool

  /** The tokeniser reaches the end of the chunk: no string is left open and the layout is accepted. */
  predicate Tokenises(chunk: Source, layout: Layout) {
    AfterLines(Code, chunk) == Code && layout(Shape(chunk))
  }

  predicate IsTarget(targets: Option<set<int>>, line: int) {
    targets.None? || line in targets.value
  }

  /** The chunk with the target lines renamed; line numbers count from 1. */
  function RenamedChunk(chunk: Source, targets: Option<set<int>>, oldName: string, newName: string): Source {
    seq(|chunk|, j requires 0 <= j < |chunk| =>
      if IsTarget(targets, j + 1) then RenameLine(chunk[j], StateAt(chunk, j), oldName, newName) else chunk[j])
  }

  function Replaced(chunk: Source, layout: Layout, targets: Option<set<int>>, oldName: string, newName: string): Source {
    if Tokenises(chunk, layout) then RenamedChunk(chunk, targets, oldName, newName) else chunk
  }

  /** The token loop over one line. */
  method ReplaceInLine(line: Line, before: LexState, isTarget: bool, oldName: string, newName: string)
    returns (tokens: Line, st: LexState)
    ensures st == AfterLine(before, line)
    ensures tokens == if isTarget then RenameLine(line, before, oldName, newName) else line
  {
    tokens, st := [], before;
    for k := 0 to |line|
      invariant AfterLine(st, line[k..]) == AfterLine(before, line)
      invariant isTarget ==>
        tokens + RenameLine(line[k..], st, oldName, newName) == RenameLine(line, before, oldName, newName)
      invariant !isTarget ==> tokens == line[..k]
    {
      var tok := line[k];
      assert line[k..] == [tok] + line[k + 1..];
      if st == Code && tok == Word(oldName) && isTarget {
        tokens := tokens + [Word(newName)];
      } else {
        tokens := tokens + [tok];
      }
      st := Next(st, tok);
    }
  }

  method ReplaceSymbolInSource(
    source: Source, layout: Layout, targets: Option<set<int>>, oldName: string, newName: string)
    returns (result: Source)
    ensures result == Replaced(source, layout, targets, oldName, newName)
  {
    result := [];
    var st := Code;
    for j := 0 to |source|
      invariant |result| == j
      invariant result == RenamedChunk(source, targets, oldName, newName)[..j]
      invariant st == StateAt(source, j)
    {
      StateAtNext(source, j);
      var tokens: Line;
      tokens, st := ReplaceInLine(source[j], st, IsTarget(targets, j + 1), oldName, newName);
      result := result + [tokens];
    }
    assert source[..|source|] == source;
    if st != Code || !layout(Shape(source)) {
      result := source;
    }
  }

  lemma {:induction false} RenamedChunkState(
    chunk: Source, targets: Option<set<int>>, oldName: string, newName: string, i: nat)
    requires i <= |chunk|
    ensures StateAt(RenamedChunk(chunk, targets, oldName, newName), i) == StateAt(chunk, i)
    decreases i
  {
    if i > 0 {
      var r := RenamedChunk(chunk, targets, oldName, newName);
      RenamedChunkState(chunk, targets, oldName, newName, i - 1);
      StateAtNext(chunk, i - 1);
      StateAtNext(r, i - 1);
      RenameLineKeepsState(chunk[i - 1], StateAt(chunk, i - 1), StateAt(chunk, i - 1), oldName, newName);
    }
  }

  lemma RenamedChunkShape(chunk: Source, targets: Option<set<int>>, oldName: string, newName: string)
    ensures Shape(RenamedChunk(chunk, targets, oldName, newName)) == Shape(chunk)
  {
    var r := RenamedChunk(chunk, targets, oldName, newName);
    forall j | 0 <= j < |chunk| ensures ShapeOfLine(r[j]) == ShapeOfLine(chunk[j]) {
      if IsTarget(targets, j + 1) {
        forall k | 0 <= k < |chunk[j]| ensures ShapeOfLine(r[j])[k] == ShapeOfLine(chunk[j])[k] {
          RenameLineAt(chunk[j], StateAt(chunk, j), oldName, newName, k);
        }
      }
    }
  }

  /** Renaming keeps a chunk tokenisable, or keeps it rejected. */
  lemma ReplacedTokenises(chunk: Source, layout: Layout, targets: Option<set<int>>, oldName: string, newName: string)
    ensures Tokenises(Replaced(chunk, layout, targets, oldName, newName), layout) == Tokenises(chunk, layout)
  {
    var r := RenamedChunk(chunk, targets, oldName, newName);
    RenamedChunkState(chunk, targets, oldName, newName, |chunk|);
    assert r[..|chunk|] == r && chunk[..|chunk|] == chunk;
    RenamedChunkShape(chunk, targets, oldName, newName);
  }

  /** The chunk carries a NAME token spelling `name` on one of the target lines. */
  ghost predicate TargetsName(chunk: Source, targets: Option<set<int>>, name: string) {
    exists j :: 0 <= j < |chunk| && IsTarget(targets, j + 1) && HasNameToken(chunk[j], StateAt(chunk, j), name)
  }

  /** Renaming a chunk there and back restores it exactly when it is rejected by the tokeniser or
      no target line held the new name already. */
  lemma ReplacedRoundTripIff(chunk: Source, layout: Layout, targets: Option<set<int>>, oldName: string, newName: string)
    requires oldName != newName
    ensures Replaced(Replaced(chunk, layout, targets, oldName, newName), layout, targets, newName, oldName) == chunk
            <==> !Tokenises(chunk, layout) || !TargetsName(chunk, targets, newName)
  {
    ReplacedTokenises(chunk, layout, targets, oldName, newName);
    if Tokenises(chunk, layout) {
      var there := RenamedChunk(chunk, targets, oldName, newName);
      var back := RenamedChunk(there, targets, newName, oldName);
      forall j | 0 <= j < |chunk|
        ensures back[j] == chunk[j] <==>
                !IsTarget(targets, j + 1) || !HasNameToken(chunk[j], StateAt(chunk, j), newName)
      {
        RenamedChunkState(chunk, targets, oldName, newName, j);
        RenameLineRoundTripIff(chunk[j], StateAt(chunk, j), oldName, newName);
      }
      assert back == chunk <==> forall j :: 0 <= j < |chunk| ==> back[j] == chunk[j];
    }
  }

  // ------------------------------------------------------------------
  // Textual mention
  // ------------------------------------------------------------------

  /** The whole-word pattern matches the line, in code, string or comment. */
  predicate Mentions(line: Line, name: string) {
    exists k :: 0 <= k < |line| && PieceMentions(line[k], name)
  }

  predicate PieceMentions(p: Piece, name: string) {
    p == Word(name) || (p.Opaque? && name in p.words)
  }

  lemma UnmentionedIsFixed(line: Line, st: LexState, oldName: string, newName: string)
    requires !Mentions(line, oldName)
    ensures Word(oldName) !in line
    ensures RenameLine(line, st, oldName, newName) == line
  {
    assert forall k :: 0 <= k < |line| ==> !PieceMentions(line[k], oldName);
    forall k | 0 <= k < |line| ensures RenameLine(line, st, oldName, newName)[k] == line[k] {
      RenameLineAt(line, st, oldName, newName, k);
    }
  }
}
