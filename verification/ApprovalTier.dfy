/** The three-level classifier of patch proposals. */
module ApprovalTier {
  import opened Collections
  import opened Config

  datatype Tier = Auto | Confirm | Gate

  /** Every operation other than creation and deletion is treated alike. */
  datatype Operation = Create | Delete | Update

  /** A text as its lines; the empty text has none. */
  type Text = seq<string>

  datatype Block = Block(
    operation: Operation,
    path: string,
    search: Option<Text>,
    replace: Option<Text>,
    content: Option<Text>)

  /** Whether the keyword pattern for executable code occurs in a text; left abstract. */
  type LogicPattern = Text -> bool

  // ------------------------------------------------------------------
  // Paths
  // ------------------------------------------------------------------

  predicate StartsWith(s: string, prefix: string) {
    prefix <= s
  }

  predicate EndsWith(s: string, suffix: string) {
    |suffix| <= |s| && s[|s| - |suffix|..] == suffix
  }

  /** The characters Python's `strip` removes. */
  predicate IsSpace(c: char) {
    var n := c as int;
    || 9 <= n <= 13 || 28 <= n <= 32 || n in {0x85, 0xA0, 0x1680} || 0x2000 <= n <= 0x200A
    || n in {0x2028, 0x2029, 0x202F, 0x205F, 0x3000}
  }

  function LeftStrip(s: string): string {
    if s != [] && IsSpace(s[0]) then LeftStrip(s[1..]) else s
  }

  function RightStrip(s: string): string {
    if s != [] && IsSpace(s[|s| - 1]) then RightStrip(s[..|s| - 1]) else s
  }

  function Strip(s: string): string {
    RightStrip(LeftStrip(s))
  }

  function DropTrailingSlashes(s: string): string {
    if s != [] && s[|s| - 1] == '/' then DropTrailingSlashes(s[..|s| - 1]) else s
  }

  /** The last component of a normalised path. */
  function NameOf(path: string): string {
    if path == [] then []
    else if path[|path| - 1] == '/' then []
    else NameOf(path[..|path| - 1]) + [path[|path| - 1]]
  }

  function LastDot(name: string): (i: int)
    ensures -1 <= i < |name|
    ensures i >= 0 ==> name[i] == '.'
    ensures forall j :: i < j < |name| ==> name[j] != '.'
  {
    if name == [] then -1
    else if name[|name| - 1] == '.' then |name| - 1
    else LastDot(name[..|name| - 1])
  }

  function LowerChar(c: char): char {
    if 'A' <= c <= 'Z' then (c as int + 32) as char else c
  }

  function Lowered(s: string): string {
    seq(|s|, k requires 0 <= k < |s| => LowerChar(s[k]))
  }

  /** The extension of the last component, in lower case: empty for a leading or trailing dot. */
  function SuffixOf(path: string): string {
    var name := NameOf(path);
    var i := LastDot(name);
    if 0 < i < |name| - 1 then Lowered(name[i..]) else ""
  }

  const DOCS_EXTENSIONS: set<string> :=
    {".md", ".rst", ".txt", ".toml", ".yaml", ".yml", ".json", ".cfg", ".ini", ".env.example"}

  const ALWAYS_CONFIRM_EXTENSIONS: set<string> :=
    {".lock", ".sum", ".jar", ".whl", ".so", ".dylib", ".dll", ".exe"}

  /** The two-dot entry of the documentation extensions can never match. */
  lemma SuffixHasOneDot(path: string)
    ensures SuffixOf(path) != ".env.example"
  {
    var name := NameOf(path);
    var i := LastDot(name);
    if 0 < i < |name| - 1 && |SuffixOf(path)| == |".env.example"| {
      assert SuffixOf(path)[4] == LowerChar(name[i + 4]);
      assert name[i + 4] != '.';
      assert ".env.example"[4] == '.';
    }
  }

  // ------------------------------------------------------------------
  // The classifier
  // ------------------------------------------------------------------

  /** `first or second or ""` on optional texts: an empty text falls through. */
  function FirstText(first: Option<Text>, second: Option<Text>): Text {
    if first.Some? && first.value != [] then first.value
    else if second.Some? then second.value
    else []
  }

  predicate IsDocsOnly(b: Block, logic: LogicPattern) {
    var ext := SuffixOf(b.path);
    if ext in DOCS_EXTENSIONS then true
    else if ext in ALWAYS_CONFIRM_EXTENSIONS then false
    else !logic(FirstText(b.replace, b.content))
  }

  function ChangedLineCount(b: Block): (n: nat) {
    match b.operation
    case Create => |FirstText(b.content, None)|
    case Delete => |FirstText(b.search, None)|
    case Update =>
      var before := Elems(FirstText(b.search, None));
      var after := Elems(FirstText(b.replace, b.content));
      if before != {} || after != {} then MaxInt(1, |(before - after) + (after - before)|) else 0
  }

  predicate PatternCovers(raw: string, path: string) {
    var pattern := Strip(raw);
    && pattern != ""
    && ((EndsWith(pattern, "/") && StartsWith(path, pattern)) ||
        path == pattern ||
        StartsWith(path, DropTrailingSlashes(pattern) + "/") ||
        NameOf(path) == pattern)
  }

  predicate MatchesNeverAuto(path: string, patterns: seq<string>) {
    patterns != [] && (PatternCovers(patterns[0], path) || MatchesNeverAuto(path, patterns[1..]))
  }

  lemma {:induction false} MatchesNeverAutoIff(path: string, patterns: seq<string>)
    ensures MatchesNeverAuto(path, patterns) <==> exists p :: p in Elems(patterns) && PatternCovers(p, path)
    decreases |patterns|
  {
    if patterns != [] {
      assert patterns == [patterns[0]] + patterns[1..];
      ElemsCons(patterns[0], patterns[1..]);
      MatchesNeverAutoIff(path, patterns[1..]);
      assert patterns[0] in Elems(patterns);
    }
  }

  /** The first scan: the first block that settles the tier, if any. */
  function FirstScan(blocks: seq<Block>, approval: ApprovalConfig): Option<Tier> {
    if blocks == [] then None
    else if blocks[0].operation == Delete then Some(Gate)
    else if blocks[0].operation == Create then Some(Gate)
    else if MatchesNeverAuto(blocks[0].path, approval.neverAutoPaths) then Some(Confirm)
    else FirstScan(blocks[1..], approval)
  }

  function TotalChanged(blocks: seq<Block>): nat {
    if blocks == [] then 0 else ChangedLineCount(blocks[0]) + TotalChanged(blocks[1..])
  }

  predicate AllDocsOnly(blocks: seq<Block>, logic: LogicPattern) {
    blocks == [] || (IsDocsOnly(blocks[0], logic) && AllDocsOnly(blocks[1..], logic))
  }

  function Classify(blocks: seq<Block>, approval: ApprovalConfig, logic: LogicPattern): Tier {
    var settled := FirstScan(blocks, approval);
    if settled.Some? then settled.value
    else if |set b | b in blocks :: b.path| > approval.autoMaxFiles then Confirm
    else if TotalChanged(blocks) > approval.autoMaxChangedLines then Confirm
    else if !AllDocsOnly(blocks, logic) then Confirm
    else Auto
  }

  // ------------------------------------------------------------------
  // What a pattern covers
  // ------------------------------------------------------------------

  predicate Blank(s: string) {
    forall k :: 0 <= k < |s| ==> IsSpace(s[k])
  }

  predicate Slashes(s: string) {
    forall k :: 0 <= k < |s| ==> s[k] == '/'
  }

  predicate SlashFree(s: string) {
    forall k :: 0 <= k < |s| ==> s[k] != '/'
  }

  /** The text starts and ends with something that is not a space, or is empty. */
  predicate Trimmed(s: string) {
    s != [] ==> !IsSpace(s[0]) && !IsSpace(s[|s| - 1])
  }

  lemma {:induction false} LeftStripIs(lead: string, rest: string)
    requires Blank(lead) && (rest != [] ==> !IsSpace(rest[0]))
    ensures LeftStrip(lead + rest) == rest
    decreases |lead|
  {
    if lead == [] {
      assert lead + rest == rest;
    } else {
      assert (lead + rest)[1..] == lead[1..] + rest;
      LeftStripIs(lead[1..], rest);
    }
  }

  lemma {:induction false} RightStripIs(rest: string, trail: string)
    requires Blank(trail) && (rest != [] ==> !IsSpace(rest[|rest| - 1]))
    ensures RightStrip(rest + trail) == rest
    decreases |trail|
  {
    if trail == [] {
      assert rest + trail == rest;
    } else {
      var n := |trail| - 1;
      assert (rest + trail)[..|rest + trail| - 1] == rest + trail[..n];
      RightStripIs(rest, trail[..n]);
    }
  }

  lemma StripIs(lead: string, inner: string, trail: string)
    requires Blank(lead) && Trimmed(inner) && Blank(trail)
    ensures Strip(lead + inner + trail) == inner
  {
    if inner == [] {
      assert lead + inner + trail == (lead + trail) + [];
      LeftStripIs(lead + trail, []);
    } else {
      assert lead + inner + trail == lead + (inner + trail);
      LeftStripIs(lead, inner + trail);
      RightStripIs(inner, trail);
    }
  }

  lemma {:induction false} DropTrailingSlashesIs(dir: string, slashes: string)
    requires Slashes(slashes) && !EndsWith(dir, "/")
    ensures DropTrailingSlashes(dir + slashes) == dir
    decreases |slashes|
  {
    if slashes == [] {
      assert dir + slashes == dir;
      assert dir != [] ==> dir[|dir| - 1..] == [dir[|dir| - 1]];
    } else {
      var n := |slashes| - 1;
      assert (dir + slashes)[..|dir + slashes| - 1] == dir + slashes[..n];
      DropTrailingSlashesIs(dir, slashes[..n]);
    }
  }

  lemma {:induction false} NameOfIs(dir: string, name: string)
    requires (dir == [] || EndsWith(dir, "/")) && SlashFree(name)
    ensures NameOf(dir + name) == name
    decreases |name|
  {
    if name == [] {
      assert dir + name == dir;
    } else {
      var n := |name| - 1;
      assert (dir + name)[..|dir + name| - 1] == dir + name[..n];
      NameOfIs(dir, name[..n]);
    }
  }

  /** A pattern covers a path that it spells, everything below a directory that it names, with or without
      slashes at its end, and every file of its name, whatever the directory; spaces around it do not matter. */
  lemma PatternCoversIff(lead: string, dir: string, slashes: string, trail: string, folder: string, name: string)
    requires Blank(lead) && Blank(trail) && Trimmed(dir + slashes) && dir + slashes != []
    requires Slashes(slashes) && !EndsWith(dir, "/")
    requires (folder == [] || EndsWith(folder, "/")) && SlashFree(name)
    ensures PatternCovers(lead + (dir + slashes) + trail, folder + name) <==>
            folder + name == dir + slashes || dir + "/" <= folder + name || name == dir + slashes
  {
    StripIs(lead, dir + slashes, trail);
    DropTrailingSlashesIs(dir, slashes);
    NameOfIs(folder, name);
    assert slashes == [] ==> dir + slashes == dir;
    assert slashes != [] ==> (dir + slashes)[..|dir| + 1] == dir + "/";
  }

  lemma BlankCoversNothing(raw: string, path: string)
    requires Blank(raw)
    ensures !PatternCovers(raw, path)
  {
    StripIs(raw, [], []);
    assert raw + [] + [] == raw;
  }

  // ------------------------------------------------------------------
  // What counts as documentation
  // ------------------------------------------------------------------

  /** The twenty-six capital letters are turned into the small ones, in order, and nothing else changes. */
  lemma LoweredLetters(k: nat, c: char)
    ensures k < 26 ==> LowerChar(('A' as int + k) as char) == ('a' as int + k) as char
    ensures LowerChar(c) != c <==> c in "ABCDEFGHIJKLMNOPQRSTUVWXYZ"
  {
    var capitals := "ABCDEFGHIJKLMNOPQRSTUVWXYZ";
    assert forall j :: 0 <= j < 26 ==> 'A' <= capitals[j] <= 'Z';
    if 'A' <= c <= 'Z' {
      CapitalAt(c);
    }
  }

  lemma CapitalAt(c: char)
    requires 'A' <= c <= 'Z'
    ensures "ABCDEFGHIJKLMNOPQRSTUVWXYZ"[c as int - 'A' as int] == c
  {
  }

  predicate DotFree(s: string) {
    forall k :: 0 <= k < |s| ==> s[k] != '.'
  }

  lemma {:induction false} LastDotIs(stem: string, ext: string)
    requires DotFree(ext)
    ensures LastDot(stem + "." + ext) == |stem|
    decreases |ext|
  {
    var name := stem + "." + ext;
    if ext == [] {
      assert name[|name| - 1] == '.';
    } else {
      var n := |ext| - 1;
      assert name[|name| - 1] == ext[n];
      assert name[..|name| - 1] == stem + "." + ext[..n];
      LastDotIs(stem, ext[..n]);
    }
  }

  /** The suffix is what follows the last dot of the name, whatever the directory, in lower case; a leading dot
      and a trailing one make none. */
  lemma SuffixOfIs(folder: string, stem: string, ext: string)
    requires (folder == [] || EndsWith(folder, "/")) && SlashFree(stem + "." + ext) && DotFree(ext)
    ensures SuffixOf(folder + (stem + "." + ext)) == if stem == "" || ext == "" then "" else Lowered("." + ext)
  {
    var name := stem + "." + ext;
    NameOfIs(folder, name);
    LastDotIs(stem, ext);
    SuffixFrom(folder + name, name, |stem|);
    assert name[|stem|..] == "." + ext;
  }

  lemma SuffixFrom(path: string, name: string, i: int)
    requires NameOf(path) == name && LastDot(name) == i
    ensures SuffixOf(path) == if 0 < i < |name| - 1 then Lowered(name[i..]) else ""
  {
  }

  lemma DotlessHasNoSuffix(folder: string, name: string)
    requires (folder == [] || EndsWith(folder, "/")) && SlashFree(name) && '.' !in name
    ensures SuffixOf(folder + name) == ""
  {
    NameOfIs(folder, name);
  }

  predicate NamesDocs(ext: string) {
    ext in {".md", ".rst", ".txt", ".toml", ".yaml", ".yml", ".json", ".cfg", ".ini"}
  }

  predicate NamesBinary(ext: string) {
    ext in {".lock", ".sum", ".jar", ".whl", ".so", ".dylib", ".dll", ".exe"}
  }

  lemma ExtensionsSplit(ext: string)
    requires ext != ".env.example"
    ensures ext in DOCS_EXTENSIONS <==> NamesDocs(ext)
    ensures ext in ALWAYS_CONFIRM_EXTENSIONS <==> NamesBinary(ext)
  {
  }

  /** The keywords decide about every file but those whose suffix does: one list of suffixes is documentation
      whatever it says, and the other never is. */
  lemma DocsOnlyIff(b: Block, logic: LogicPattern)
    ensures NamesDocs(SuffixOf(b.path)) ==> IsDocsOnly(b, logic)
    ensures NamesBinary(SuffixOf(b.path)) ==> !IsDocsOnly(b, logic)
    ensures !NamesDocs(SuffixOf(b.path)) && !NamesBinary(SuffixOf(b.path)) ==>
              (IsDocsOnly(b, logic) <==>
               !logic(if b.replace.Some? && b.replace.value != [] then b.replace.value
                      else if b.content.Some? then b.content.value else []))
  {
    SuffixHasOneDot(b.path);
    DocsAreNotBinary(SuffixOf(b.path));
    ExtensionsSplit(SuffixOf(b.path));
  }

  lemma DocsAreNotBinary(ext: string)
    ensures NamesBinary(ext) ==> !NamesDocs(ext)
  {
    if NamesBinary(ext) && |ext| > 1 {
      assert ext[1] in {'l', 's', 'j', 'w', 'd', 'e'};
    }
  }

  // ------------------------------------------------------------------
  // The size of a proposal
  // ------------------------------------------------------------------

  /** The number of different lines of `a` that `b` does not have. */
  function OnlyIn(a: Text, b: Text): nat {
    if a == [] then 0 else OnlyIn(a[1..], b) + (if a[0] in b || a[0] in a[1..] then 0 else 1)
  }

  /** An update counts the lines in exactly one of its texts, and at least one if it has any text. */
  function UpdateSize(before: Text, after: Text): nat {
    if before == [] && after == [] then 0
    else if OnlyIn(before, after) + OnlyIn(after, before) == 0 then 1
    else OnlyIn(before, after) + OnlyIn(after, before)
  }

  function BlockSize(b: Block): nat {
    match b.operation
    case Create => if b.content.Some? then |b.content.value| else 0
    case Delete => if b.search.Some? then |b.search.value| else 0
    case Update =>
      UpdateSize(if b.search.Some? then b.search.value else [],
                 if b.replace.Some? && b.replace.value != [] then b.replace.value
                 else if b.content.Some? then b.content.value else [])
  }

  /** The sizes of the first `k` blocks together. */
  function ProposalSize(blocks: seq<Block>, k: nat): nat
    requires k <= |blocks|
  {
    if k == 0 then 0 else ProposalSize(blocks, k - 1) + BlockSize(blocks[k - 1])
  }

  lemma {:induction false} OnlyInIsCardinality(a: Text, b: Text)
    ensures OnlyIn(a, b) == |Elems(a) - Elems(b)|
    decreases |a|
  {
    if a != [] {
      OnlyInIsCardinality(a[1..], b);
      assert a == [a[0]] + a[1..];
      ElemsCons(a[0], a[1..]);
      var rest := Elems(a[1..]) - Elems(b);
      if a[0] in b || a[0] in a[1..] {
        assert Elems(a) - Elems(b) == rest;
      } else {
        assert Elems(a) - Elems(b) == rest + {a[0]};
      }
    }
  }

  /** The classifier's count, with its sets, is the size of the block. */
  lemma ChangedLineCountIsSize(b: Block)
    ensures ChangedLineCount(b) == BlockSize(b)
  {
    if b.operation == Update {
      var before, after := FirstText(b.search, None), FirstText(b.replace, b.content);
      ElemsEmpty(before);
      ElemsEmpty(after);
      OnlyInIsCardinality(before, after);
      OnlyInIsCardinality(after, before);
    }
  }

  lemma {:induction false} TotalIsSize(blocks: seq<Block>, k: nat)
    requires k <= |blocks|
    ensures ProposalSize(blocks, k) + TotalChanged(blocks[k..]) == ProposalSize(blocks, |blocks|)
    decreases |blocks| - k
  {
    if k < |blocks| {
      TotalIsSize(blocks, k + 1);
      assert blocks[k..][1..] == blocks[k + 1..];
      ChangedLineCountIsSize(blocks[k]);
    }
  }

  function Edit(path: string, before: Text, after: Text): Block {
    Block(Update, path, Some(before), Some(after), None)
  }

  lemma CountIsSymmetric(path: string, a: Text, b: Text)
    ensures ChangedLineCount(Edit(path, a, b)) == ChangedLineCount(Edit(path, b, a))
  {
    ChangedLineCountIsSize(Edit(path, a, b));
    ChangedLineCountIsSize(Edit(path, b, a));
  }

  lemma EditCount(path: string, a: Text, b: Text)
    ensures ChangedLineCount(Edit(path, a, b)) ==
            if a == [] && b == [] then 0 else MaxInt(1, |Elems(a) - Elems(b)| + |Elems(b) - Elems(a)|)
  {
    ChangedLineCountIsSize(Edit(path, a, b));
    OnlyInIsCardinality(a, b);
    OnlyInIsCardinality(b, a);
  }

  lemma GrownElems(left: Text, right: Text, line: string)
    ensures Elems(left + [line] + right) == Elems(left + right) + {line}
  {
    assert forall x :: x in left + [line] + right <==> x in left + right || x == line;
  }

  /** A line new to both texts adds one beyond the minimum, wherever it is put. */
  lemma NewLineAddsOne(path: string, before: Text, left: Text, right: Text, line: string)
    requires line !in before && line !in left + right
    ensures ChangedLineCount(Edit(path, before, left + [line] + right)) ==
            if Elems(before) == Elems(left + right) then 1
            else ChangedLineCount(Edit(path, before, left + right)) + 1
  {
    EditCount(path, before, left + right);
    EditCount(path, before, left + [line] + right);
    GrownElems(left, right, line);
    var b, c := Elems(before), Elems(left + right);
    assert (c + {line}) - b == (c - b) + {line} && b - (c + {line}) == b - c;
    if |b - c| + |c - b| == 0 {
      assert b == c by {
        assert b - c == {} && c - b == {};
      }
    }
  }

  lemma RepeatedLineAddsNothing(path: string, before: Text, left: Text, right: Text, line: string)
    requires line in left + right
    ensures ChangedLineCount(Edit(path, before, left + [line] + right)) ==
            ChangedLineCount(Edit(path, before, left + right))
  {
    EditCount(path, before, left + right);
    EditCount(path, before, left + [line] + right);
    GrownElems(left, right, line);
    assert Elems(left + right) + {line} == Elems(left + right);
  }

  /** A line that only the other text had takes one away, down to the minimum. */
  lemma SharedLineTakesOne(path: string, before: Text, left: Text, right: Text, line: string)
    requires line in before && line !in left + right
    ensures ChangedLineCount(Edit(path, before, left + [line] + right)) ==
            MaxInt(1, ChangedLineCount(Edit(path, before, left + right)) - 1)
  {
    EditCount(path, before, left + right);
    EditCount(path, before, left + [line] + right);
    GrownElems(left, right, line);
    SharedElement(Elems(before), Elems(left + right), line);
  }

  lemma SharedElement(b: set<string>, c: set<string>, x: string)
    requires x in b && x !in c
    ensures |(c + {x}) - b| == |c - b| && |b - (c + {x})| == |b - c| - 1
  {
    assert (c + {x}) - b == c - b && b - c == (b - (c + {x})) + {x};
  }

  /** The replacement of an update counts if it has any line, and the block's content otherwise. */
  lemma ContentStandsIn(b: Block)
    ensures b.operation == Update && b.replace.Some? && b.replace.value != [] ==>
              ChangedLineCount(b) == ChangedLineCount(b.(content := None))
    ensures b.operation == Update && (b.replace.None? || b.replace.value == []) ==>
              ChangedLineCount(b) == ChangedLineCount(b.(replace := b.content, content := None))
  {
  }

  // ------------------------------------------------------------------
  // What the tiers mean
  // ------------------------------------------------------------------

  predicate Dangerous(b: Block) {
    b.operation != Update
  }

  predicate Protected(b: Block, approval: ApprovalConfig) {
    MatchesNeverAuto(b.path, approval.neverAutoPaths)
  }

  /** The block ends the first scan. */
  predicate Settles(b: Block, approval: ApprovalConfig) {
    Dangerous(b) || Protected(b, approval)
  }

  /** The block at `i` is the first one that is dangerous or protected. */
  ghost predicate FirstSettling(blocks: seq<Block>, approval: ApprovalConfig, i: int) {
    && 0 <= i < |blocks| && Settles(blocks[i], approval)
    && forall j :: 0 <= j < i ==> !Settles(blocks[j], approval)
  }

  lemma SettlingShift(blocks: seq<Block>, approval: ApprovalConfig, i: int)
    requires blocks != [] && !Settles(blocks[0], approval)
    ensures FirstSettling(blocks[1..], approval, i) <==> FirstSettling(blocks, approval, i + 1)
  {
    var rest := blocks[1..];
    assert forall j :: 0 <= j < |rest| ==> rest[j] == blocks[j + 1];
    if FirstSettling(rest, approval, i) {
      forall j | 0 <= j < i + 1 ensures !Settles(blocks[j], approval) {
        assert j > 0 ==> blocks[j] == rest[j - 1];
      }
    }
    if FirstSettling(blocks, approval, i + 1) {
      forall j | 0 <= j < i ensures !Settles(rest[j], approval) {
        assert rest[j] == blocks[j + 1];
      }
    }
  }

  lemma {:induction false} FirstScanIff(blocks: seq<Block>, approval: ApprovalConfig)
    ensures FirstScan(blocks, approval) == Some(Gate) <==>
            exists i :: FirstSettling(blocks, approval, i) && Dangerous(blocks[i])
    ensures FirstScan(blocks, approval) == Some(Confirm) <==>
            exists i :: FirstSettling(blocks, approval, i) && !Dangerous(blocks[i])
    ensures FirstScan(blocks, approval) == None <==>
            forall b :: b in blocks ==> !Dangerous(b) && !Protected(b, approval)
    decreases |blocks|
  {
    if blocks != [] {
      var rest := blocks[1..];
      FirstScanIff(rest, approval);
      if Settles(blocks[0], approval) {
        assert FirstSettling(blocks, approval, 0);
      } else {
        if i :| FirstSettling(rest, approval, i) {
          SettlingShift(blocks, approval, i);
        }
        if i :| FirstSettling(blocks, approval, i) {
          SettlingShift(blocks, approval, i - 1);
        }
      }
    }
  }

  lemma {:induction false} AllDocsOnlyIff(blocks: seq<Block>, logic: LogicPattern)
    ensures AllDocsOnly(blocks, logic) <==> forall b :: b in blocks ==> IsDocsOnly(b, logic)
    decreases |blocks|
  {
    if blocks != [] {
      AllDocsOnlyIff(blocks[1..], logic);
      assert blocks == [blocks[0]] + blocks[1..];
    }
  }

  /** A proposal is automatic exactly when every block is an unprotected documentation update and
      the proposal is within the two limits. */
  ghost predicate AutoEligible(blocks: seq<Block>, approval: ApprovalConfig, logic: LogicPattern) {
    && (forall b :: b in blocks ==> !Dangerous(b) && !Protected(b, approval) && IsDocsOnly(b, logic))
    && |set b | b in blocks :: b.path| <= approval.autoMaxFiles
    && ProposalSize(blocks, |blocks|) <= approval.autoMaxChangedLines
  }

  lemma AutoIff(blocks: seq<Block>, approval: ApprovalConfig, logic: LogicPattern)
    ensures Classify(blocks, approval, logic) == Auto <==> AutoEligible(blocks, approval, logic)
  {
    FirstScanIff(blocks, approval);
    FirstScanTier(blocks, approval);
    AllDocsOnlyIff(blocks, logic);
    TotalIsSize(blocks, 0);
    assert blocks[0..] == blocks;
  }

  lemma FirstScanTier(blocks: seq<Block>, approval: ApprovalConfig)
    ensures FirstScan(blocks, approval) != Some(Auto)
  {
  }

  /** A proposal is gated exactly when the first block that settles the scan is dangerous. */
  lemma GateIff(blocks: seq<Block>, approval: ApprovalConfig, logic: LogicPattern)
    ensures Classify(blocks, approval, logic) == Gate <==>
            exists i :: FirstSettling(blocks, approval, i) && Dangerous(blocks[i])
  {
    FirstScanIff(blocks, approval);
    FirstScanTier(blocks, approval);
  }

  /** The documented rule "any delete or create block is gated" holds exactly for proposals with no
      protected path before their first dangerous block. */
  lemma DangerousIsGatedIff(blocks: seq<Block>, approval: ApprovalConfig, logic: LogicPattern, first: int)
    requires 0 <= first < |blocks| && Dangerous(blocks[first])
    requires forall j :: 0 <= j < first ==> !Dangerous(blocks[j])
    ensures Classify(blocks, approval, logic) == Gate <==>
            forall j :: 0 <= j < first ==> !Protected(blocks[j], approval)
  {
    GateIff(blocks, approval, logic);
    if forall j :: 0 <= j < first ==> !Protected(blocks[j], approval) {
      assert FirstSettling(blocks, approval, first);
    }
  }

  /** A protected first block hides a later deletion from the gate. */
  lemma DeletionBehindProtectedPath(logic: LogicPattern) returns (blocks: seq<Block>)
    ensures |blocks| == 2 && blocks[1].operation == Delete
    ensures Classify(blocks, DEFAULTS.approval, logic) == Confirm
    ensures Classify([blocks[1], blocks[0]], DEFAULTS.approval, logic) == Gate
  {
    var protectedBlock := Block(Update, "uv.lock", Some(["a"]), Some(["b"]), None);
    blocks := [protectedBlock, Block(Delete, "x", None, None, None)];
    var approval := DEFAULTS.approval;
    assert approval.neverAutoPaths[3] == "uv.lock";
    assert Strip("uv.lock") == "uv.lock" by {
      assert !IsSpace('u') && !IsSpace('k');
    }
    assert PatternCovers("uv.lock", "uv.lock");
    assert "uv.lock" in Elems(approval.neverAutoPaths);
    MatchesNeverAutoIff("uv.lock", approval.neverAutoPaths);
  }

  // ------------------------------------------------------------------
  // Order of the blocks
  // ------------------------------------------------------------------

  lemma {:induction false} TotalChangedConcat(a: seq<Block>, b: seq<Block>)
    ensures TotalChanged(a + b) == TotalChanged(a) + TotalChanged(b)
    decreases |a|
  {
    if a == [] {
      assert a + b == b;
    } else {
      assert (a + b)[1..] == a[1..] + b;
      TotalChangedConcat(a[1..], b);
    }
  }

  lemma {:induction false} TotalChangedPermutes(a: seq<Block>, b: seq<Block>)
    requires multiset(a) == multiset(b)
    ensures TotalChanged(a) == TotalChanged(b)
    decreases |a|
  {
    if a == [] {
      assert |multiset(b)| == 0;
    } else {
      assert a[0] in multiset(b);
      var i :| 0 <= i < |b| && b[i] == a[0];
      var left, right := b[..i], b[i + 1..];
      RemoveFirst(a, b, i);
      TotalChangedPermutes(a[1..], left + right);
      TotalChangedConcat(left, [b[i]] + right);
      TotalChangedConcat(left, right);
      assert b == left + ([b[i]] + right) && ([b[i]] + right)[1..] == right;
    }
  }

  /** Unlike the gate, automatic application does not depend on the order of the blocks. */
  lemma AutoIgnoresOrder(a: seq<Block>, b: seq<Block>, approval: ApprovalConfig, logic: LogicPattern)
    requires multiset(a) == multiset(b)
    ensures Classify(a, approval, logic) == Auto <==> Classify(b, approval, logic) == Auto
  {
    AutoIff(a, approval, logic);
    AutoIff(b, approval, logic);
    TotalChangedPermutes(a, b);
    TotalIsSize(a, 0);
    TotalIsSize(b, 0);
    assert a[0..] == a && b[0..] == b;
    assert forall x :: x in a <==> x in multiset(a);
    assert forall x :: x in b <==> x in multiset(b);
    assert (set x | x in a :: x.path) == (set x | x in b :: x.path);
  }

  // ------------------------------------------------------------------
  // Against the merged settings
  // ------------------------------------------------------------------

  lemma NotLaxerProtectsMore(tight: ApprovalConfig, loose: ApprovalConfig, b: Block)
    requires ApprovalNotLaxer(tight, loose)
    requires Protected(b, loose)
    ensures Protected(b, tight)
  {
    MatchesNeverAutoIff(b.path, tight.neverAutoPaths);
    MatchesNeverAutoIff(b.path, loose.neverAutoPaths);
  }

  /** A project file cannot make a proposal automatic that the user's settings alone would not. */
  lemma MergedAutoIsUserAuto(blocks: seq<Block>, user: ApprovalConfig, project: ApprovalConfig, logic: LogicPattern)
    requires Classify(blocks, MergedApproval(user, project), logic) == Auto
    ensures Classify(blocks, user, logic) == Auto
  {
    var merged := MergedApproval(user, project);
    AutoIff(blocks, merged, logic);
    AutoIff(blocks, user, logic);
    forall b | b in blocks ensures !Protected(b, user) {
      if Protected(b, user) {
        NotLaxerProtectsMore(merged, user, b);
      }
    }
  }

  /** The loop's rule for applying without a pause. */
  predicate AppliesUnattended(tier: Tier, autoEdit: bool, fullAuto: bool) {
    (tier == Auto && (autoEdit || fullAuto)) || (tier == Confirm && fullAuto)
  }

  /** Under full-auto a project file can lift a pause, and exactly in one way: it protects a path
      that comes before the first dangerous block and so turns the user's gate into a confirm. */
  lemma MergedLiftsPauseIff(
    blocks: seq<Block>, user: ApprovalConfig, project: ApprovalConfig, logic: LogicPattern,
    autoEdit: bool, fullAuto: bool)
    ensures var merged := MergedApproval(user, project);
            && AppliesUnattended(Classify(blocks, merged, logic), autoEdit, fullAuto)
            && !AppliesUnattended(Classify(blocks, user, logic), autoEdit, fullAuto)
            <==>
            fullAuto && (exists d, i :: 0 <= i < d && FirstSettling(blocks, user, d) &&
                                        Dangerous(blocks[d]) && Protected(blocks[i], merged))
  {
    var merged := MergedApproval(user, project);
    GateIff(blocks, user, logic);
    GateIff(blocks, merged, logic);
    if Classify(blocks, merged, logic) == Auto {
      MergedAutoIsUserAuto(blocks, user, project, logic);
      AutoIff(blocks, merged, logic);
    }
    if d :| FirstSettling(blocks, user, d) && Dangerous(blocks[d]) {
      if forall i :: 0 <= i < d ==> !Protected(blocks[i], merged) {
        assert FirstSettling(blocks, merged, d);
      }
    }
  }
}
