/** Splitting a unified diff into its file sections, and counting the changes of one section. */
module DiffHunks {
  import Paths = ApprovalTier

  // ------------------------------------------------------------------
  // Lines
  // ------------------------------------------------------------------

  /** The characters that end a line for Python's `splitlines`. */
  predicate IsBreak(c: char) {
    || c in {'\n', '\r', '\U{85}', '\U{2028}', '\U{2029}'}
    || 11 <= c as int <= 12 || 28 <= c as int <= 30
  }

  /** The length of the first line, with its line end; a carriage return takes a following newline. */
  function LineLength(s: string): (n: nat)
    requires s != ""
    ensures 0 < n <= |s|
    decreases |s|
  {
    if |s| > 1 && s[0] == '\r' && s[1] == '\n' then 2
    else if IsBreak(s[0]) || |s| == 1 then 1
    else 1 + LineLength(s[1..])
  }

  function SplitLines(s: string): seq<string>
    decreases |s|
  {
    if s == "" then [] else [s[..LineLength(s)]] + SplitLines(s[LineLength(s)..])
  }

  function Join(lines: seq<string>): string {
    if lines == [] then "" else lines[0] + Join(lines[1..])
  }

  // ------------------------------------------------------------------
  // The parser
  // ------------------------------------------------------------------

  datatype Section = Section(name: string, body: string)

  /** Strips leading `b` and `/` characters, as many as there are. */
  function StripMarks(s: string): string
    decreases |s|
  {
    if s != "" && s[0] in {'b', '/'} then StripMarks(s[1..]) else s
  }

  function NameIn(line: string): string {
    StripMarks(Paths.RightStrip(line))
  }

  function Flushed(name: string, pending: seq<string>): seq<Section> {
    if pending != [] && name != "" then [Section(name, Join(pending))] else []
  }

  function ParseFrom(name: string, pending: seq<string>, lines: seq<string>): seq<Section>
    decreases |lines|
  {
    if lines == [] then Flushed(name, pending)
    else
      var line, rest := lines[0], lines[1..];
      if "+++ " <= line then Flushed(name, pending) + ParseFrom(NameIn(line[4..]), [], rest)
      else if "--- " <= line then ParseFrom(name, pending, rest)
      else if "diff --git " <= line then Flushed(name, pending) + ParseFrom("", [], rest)
      else ParseFrom(name, pending + [line], rest)
  }

  method Flush(files: seq<Section>, name: string, pending: seq<string>) returns (more: seq<Section>)
    ensures more == files + Flushed(name, pending)
  {
    more := files;
    if pending != [] && name != "" {
      more := more + [Section(name, Join(pending))];
    }
  }

  method ParseFileHunks(diffText: string) returns (files: seq<Section>)
    ensures files == ParseFrom("", [], SplitLines(diffText))
  {
    files := [];
    var currentName, currentLines, lines := "", [], SplitLines(diffText);
    for k := 0 to |lines|
      invariant ParseFrom("", [], lines) == files + ParseFrom(currentName, currentLines, lines[k..])
    {
      var line := lines[k];
      assert lines[k..][0] == line && lines[k..][1..] == lines[k + 1..];
      if "+++ " <= line {
        files := Flush(files, currentName, currentLines);
        currentName, currentLines := NameIn(line[4..]), [];
      } else if "--- " <= line {
        continue;
      } else if "diff --git " <= line {
        files := Flush(files, currentName, currentLines);
        currentName, currentLines := "", [];
      } else {
        currentLines := currentLines + [line];
      }
    }
    files := Flush(files, currentName, currentLines);
  }

  // ------------------------------------------------------------------
  // The printer
  // ------------------------------------------------------------------

  function Header(name: string): string {
    "--- a/" + name + "\n" + ("+++ b/" + name + "\n")
  }

  function Render(sections: seq<Section>): string {
    if sections == [] then "" else Header(sections[0].name) + sections[0].body + Render(sections[1..])
  }

  predicate HeaderLike(line: string) {
    "+++ " <= line || "--- " <= line || "diff --git " <= line
  }

  predicate PlainLines(lines: seq<string>) {
    forall k :: 0 <= k < |lines| ==> !HeaderLike(lines[k])
  }

  predicate EndsLine(s: string) {
    s != "" && IsBreak(s[|s| - 1])
  }

  predicate NoBreak(s: string) {
    forall k :: 0 <= k < |s| ==> !IsBreak(s[k])
  }

  /** What a diff printer produces: a name is part of a line, a body has lines, none of them looks like
      a header, and only the last body may lack its line end. */
  predicate Printable(sections: seq<Section>) {
    forall k :: 0 <= k < |sections| ==>
      && NoBreak(sections[k].name) && sections[k].body != "" && PlainLines(SplitLines(sections[k].body))
      && (k < |sections| - 1 ==> EndsLine(sections[k].body))
  }

  // ------------------------------------------------------------------
  // Splitting and joining lines
  // ------------------------------------------------------------------

  lemma {:induction false} JoinConcat(a: seq<string>, b: seq<string>)
    ensures Join(a + b) == Join(a) + Join(b)
    decreases |a|
  {
    if a == [] {
      assert a + b == b;
    } else {
      assert (a + b)[1..] == a[1..] + b;
      JoinConcat(a[1..], b);
    }
  }

  lemma {:induction false} JoinOfSplit(s: string)
    ensures Join(SplitLines(s)) == s
    decreases |s|
  {
    if s != "" {
      JoinOfSplit(s[LineLength(s)..]);
      assert s == s[..LineLength(s)] + s[LineLength(s)..];
    }
  }

  /** A line end belongs to what comes before it, unless it is a newline after a carriage return. */
  predicate Separates(a: string, b: string) {
    a != "" ==> EndsLine(a) && !(a[|a| - 1] == '\r' && b != "" && b[0] == '\n')
  }

  lemma {:induction false} LineLengthConcat(a: string, b: string)
    requires a != "" && Separates(a, b)
    ensures LineLength(a + b) == LineLength(a)
    decreases |a|
  {
    if |a| > 1 {
      assert (a + b)[1..] == a[1..] + b;
      LineLengthConcat(a[1..], b);
    } else if b != "" {
      assert (a + b)[1] == b[0];
    }
  }

  lemma {:induction false} SplitConcat(a: string, b: string)
    requires Separates(a, b)
    ensures SplitLines(a + b) == SplitLines(a) + SplitLines(b)
    decreases |a|
  {
    if a == "" {
      assert a + b == b;
    } else {
      var n := LineLength(a);
      LineLengthConcat(a, b);
      assert (a + b)[..n] == a[..n] && (a + b)[n..] == a[n..] + b;
      SplitConcat(a[n..], b);
    }
  }

  lemma {:induction false} OneLine(s: string)
    requires NoBreak(s)
    ensures LineLength(s + "\n") == |s| + 1
    ensures SplitLines(s + "\n") == [s + "\n"]
    decreases |s|
  {
    var line := s + "\n";
    if s != "" {
      OneLine(s[1..]);
      assert line[1..] == s[1..] + "\n";
    }
    assert line[..|line|] == line && line[|line|..] == "";
  }

  lemma HeaderLines(name: string, more: string)
    requires NoBreak(name)
    ensures SplitLines(Header(name) + more) ==
            ["--- a/" + name + "\n", "+++ b/" + name + "\n"] + SplitLines(more)
  {
    var first, second := "--- a/" + name, "+++ b/" + name;
    assert NoBreak("--- a/") && NoBreak("+++ b/");
    assert NoBreak(first) && NoBreak(second);
    OneLine(first);
    OneLine(second);
    SplitConcat(first + "\n", second + "\n");
    assert Header(name) == first + "\n" + (second + "\n");
    SplitConcat(Header(name), more);
  }

  // ------------------------------------------------------------------
  // Where lines end
  // ------------------------------------------------------------------

  lemma IsBreakIff(c: char)
    ensures IsBreak(c) <==> c as int in {10, 11, 12, 13, 28, 29, 30, 133, 8232, 8233}
  {
  }

  lemma {:induction false} FirstLine(a: string, rest: string)
    requires NoBreak(a) && rest != "" && IsBreak(rest[0])
    ensures LineLength(a + rest) == |a| + LineLength(rest)
    decreases |a|
  {
    if a == "" {
      assert a + rest == rest;
    } else {
      assert (a + rest)[1..] == a[1..] + rest;
      FirstLine(a[1..], rest);
    }
  }

  lemma {:induction false} LineLengthUnbroken(a: string)
    requires NoBreak(a) && a != ""
    ensures LineLength(a) == |a|
    decreases |a|
  {
    if |a| > 1 {
      LineLengthUnbroken(a[1..]);
    }
  }

  /** Lines end at each of the ten line ends and nowhere else; a carriage return and the newline behind it are
      one. */
  lemma SplitAtBreak(a: string, end: string, more: string)
    requires NoBreak(a) && (end == "\r\n" || (|end| == 1 && IsBreak(end[0])))
    requires end == "\r" && more != "" ==> more[0] != '\n'
    ensures SplitLines(a + end + more) == [a + end] + SplitLines(more)
  {
    var s := a + end + more;
    var n := |a| + |end|;
    assert s == a + (end + more);
    assert |end + more| > 1 && end != "\r\n" ==> (end + more)[1] == more[0];
    FirstLine(a, end + more);
    assert s[..n] == a + end && s[n..] == more;
  }

  lemma UnbrokenIsOneLine(a: string)
    requires NoBreak(a) && a != ""
    ensures SplitLines(a) == [a]
  {
    LineLengthUnbroken(a);
    assert a[..|a|] == a && a[|a|..] == "";
  }

  // ------------------------------------------------------------------
  // What a section can hold
  // ------------------------------------------------------------------

  ghost predicate HoldsPlainLines(s: Section) {
    s.name != "" && exists lines :: lines != [] && PlainLines(lines) && s.body == Join(lines)
  }

  /** Of any text at all: every section has a name, and a body of lines none of which starts like a header. */
  lemma {:induction false} SectionsHoldPlainLines(name: string, pending: seq<string>, lines: seq<string>)
    requires PlainLines(pending)
    ensures forall s :: s in ParseFrom(name, pending, lines) ==> HoldsPlainLines(s)
    decreases |lines|
  {
    if lines != [] {
      var line, rest := lines[0], lines[1..];
      if "+++ " <= line {
        SectionsHoldPlainLines(NameIn(line[4..]), [], rest);
      } else if "--- " <= line {
        SectionsHoldPlainLines(name, pending, rest);
      } else if "diff --git " <= line {
        SectionsHoldPlainLines("", [], rest);
      } else {
        SectionsHoldPlainLines(name, pending + [line], rest);
      }
    }
  }

  // ------------------------------------------------------------------
  // Round trip
  // ------------------------------------------------------------------

  /** The name a section comes back with. */
  function NameBack(name: string): string {
    NameIn("b/" + name + "\n")
  }

  /** A name comes back exactly when it is not empty, does not start with `b` or `/`, and does not end
      in whitespace. */
  predicate Survives(name: string) {
    name != "" && name[0] !in {'b', '/'} && !Paths.IsSpace(name[|name| - 1])
  }

  lemma {:induction false} StripMarksIsSuffix(s: string)
    ensures |StripMarks(s)| <= |s|
    ensures StripMarks(s) != "" ==> StripMarks(s)[0] !in {'b', '/'}
    decreases |s|
  {
    if s != "" && s[0] in {'b', '/'} {
      StripMarksIsSuffix(s[1..]);
    }
  }

  lemma {:induction false} RightStripEnd(s: string)
    ensures |Paths.RightStrip(s)| <= |s| && Paths.RightStrip(s) == s[..|Paths.RightStrip(s)|]
    ensures Paths.RightStrip(s) != "" ==> !Paths.IsSpace(Paths.RightStrip(s)[|Paths.RightStrip(s)| - 1])
    decreases |s|
  {
    if s != "" && Paths.IsSpace(s[|s| - 1]) {
      RightStripEnd(s[..|s| - 1]);
    }
  }

  lemma {:induction false} StripMarksEnd(s: string)
    ensures StripMarks(s) != "" ==> s != "" && StripMarks(s)[|StripMarks(s)| - 1] == s[|s| - 1]
    decreases |s|
  {
    if s != "" && s[0] in {'b', '/'} {
      StripMarksEnd(s[1..]);
    }
  }

  lemma NameBackIff(name: string)
    ensures NameBack(name) == name != "" <==> Survives(name)
  {
    var line := "b/" + name + "\n";
    var kept := Paths.RightStrip(line);
    assert line[..|line| - 1] == "b/" + name;
    RightStripEnd(line);
    StripMarksIsSuffix(kept);
    StripMarksEnd(kept);
    if name != "" && !Paths.IsSpace(name[|name| - 1]) {
      assert kept == "b/" + name;
      assert kept[1..] == "/" + name && kept[1..][1..] == name;
      assert StripMarks(kept) == StripMarks("/" + name) == StripMarks(name);
    }
  }

  /** The sections that come back: those whose name does not vanish, under the name that is left. */
  function Survivors(sections: seq<Section>): seq<Section> {
    if sections == [] then []
    else
      (if NameBack(sections[0].name) == "" then [] else [Section(NameBack(sections[0].name), sections[0].body)])
      + Survivors(sections[1..])
  }

  lemma {:induction false} ParsePlain(name: string, pending: seq<string>, plain: seq<string>, rest: seq<string>)
    requires PlainLines(plain)
    ensures ParseFrom(name, pending, plain + rest) == ParseFrom(name, pending + plain, rest)
    decreases |plain|
  {
    if plain == [] {
      assert plain + rest == rest && pending + plain == pending;
    } else {
      assert (plain + rest)[1..] == plain[1..] + rest;
      ParsePlain(name, pending + [plain[0]], plain[1..], rest);
      assert pending + [plain[0]] + plain[1..] == pending + plain;
    }
  }

  lemma ParseHeader(name: string, pending: seq<string>, next: string, rest: seq<string>)
    ensures ParseFrom(name, pending, ["--- a/" + next + "\n", "+++ b/" + next + "\n"] + rest) ==
            Flushed(name, pending) + ParseFrom(NameBack(next), [], rest)
  {
    var minus, plus := "--- a/" + next + "\n", "+++ b/" + next + "\n";
    var lines := [minus, plus] + rest;
    assert lines[1..] == [plus] + rest && ([plus] + rest)[1..] == rest;
    assert minus[..4] == "--- " && plus[..4] == "+++ ";
    assert plus[4..] == "b/" + next + "\n";
    assert minus[0] == '-';
  }

  lemma SplitNonEmpty(s: string)
    ensures SplitLines(s) == [] <==> s == ""
  {
  }

  lemma RenderSplits(sections: seq<Section>)
    requires sections != [] && Printable(sections)
    ensures var s := sections[0];
            SplitLines(Render(sections)) ==
            ["--- a/" + s.name + "\n", "+++ b/" + s.name + "\n"] + (SplitLines(s.body) + SplitLines(Render(sections[1..])))
  {
    var s, more := sections[0], Render(sections[1..]);
    assert Render(sections) == Header(s.name) + (s.body + more);
    HeaderLines(s.name, s.body + more);
    if |sections| > 1 {
      assert more[0] == Header(sections[1].name)[0] == '-';
      SplitConcat(s.body, more);
    } else {
      assert s.body + more == s.body;
    }
  }

  lemma {:induction false} ParseOfRender(name: string, pending: seq<string>, sections: seq<Section>)
    requires Printable(sections)
    ensures ParseFrom(name, pending, SplitLines(Render(sections))) == Flushed(name, pending) + Survivors(sections)
    decreases |sections|
  {
    if sections != [] {
      var s, rest := sections[0], sections[1..];
      var body, lines := SplitLines(s.body), SplitLines(Render(rest));
      RenderSplits(sections);
      ParseHeader(name, pending, s.name, body + lines);
      ParsePlain(NameBack(s.name), [], body, lines);
      assert [] + body == body;
      forall k | 0 <= k < |rest| ensures rest[k] == sections[k + 1] {
      }
      assert Printable(rest);
      ParseOfRender(NameBack(s.name), body, rest);
      JoinOfSplit(s.body);
      SplitNonEmpty(s.body);
    }
  }

  lemma {:induction false} SurvivorsIff(sections: seq<Section>)
    ensures |Survivors(sections)| <= |sections|
    ensures Survivors(sections) == sections <==> forall k :: 0 <= k < |sections| ==> Survives(sections[k].name)
    decreases |sections|
  {
    if sections != [] {
      var rest := sections[1..];
      SurvivorsIff(rest);
      NameBackIff(sections[0].name);
      assert sections == [sections[0]] + rest;
      if NameBack(sections[0].name) != "" {
        assert Survivors(sections)[1..] == Survivors(rest);
      }
      assert (forall k :: 0 <= k < |sections| ==> Survives(sections[k].name)) <==>
             Survives(sections[0].name) && (forall k :: 0 <= k < |rest| ==> Survives(rest[k].name));
    }
  }

  /** Parsing a printed diff gives its sections back exactly when every name survives. */
  lemma RoundTripIff(sections: seq<Section>)
    requires Printable(sections)
    ensures ParseFrom("", [], SplitLines(Render(sections))) == sections <==>
            forall k :: 0 <= k < |sections| ==> Survives(sections[k].name)
  {
    ParseOfRender("", [], sections);
    SurvivorsIff(sections);
  }

  // ------------------------------------------------------------------
  // Diffs as git prints them
  // ------------------------------------------------------------------

  /** What git prints before the two file lines: the line that names the files, and lines about modes, renames
      and object names. */
  datatype Preamble = Preamble(files: string, extra: string)

  function PreambleText(p: Preamble): string {
    "diff --git " + p.files + "\n" + p.extra
  }

  predicate GitPreamble(p: Preamble) {
    NoBreak(p.files) && PlainLines(SplitLines(p.extra)) && (p.extra != "" ==> EndsLine(p.extra) && p.extra[|p.extra| - 1] == '\n')
  }

  function RenderGit(sections: seq<Section>, preambles: seq<Preamble>): string
    requires |sections| == |preambles|
  {
    if sections == [] then ""
    else
      PreambleText(preambles[0]) + (Header(sections[0].name) + (sections[0].body + RenderGit(sections[1..], preambles[1..])))
  }

  lemma {:induction false} PreambleTextSplits(p: Preamble)
    requires GitPreamble(p)
    ensures SplitLines(PreambleText(p)) == ["diff --git " + p.files + "\n"] + SplitLines(p.extra)
    ensures PreambleText(p) != "" && PreambleText(p)[|PreambleText(p)| - 1] == '\n'
  {
    var first := "diff --git " + p.files;
    assert NoBreak("diff --git ") && NoBreak(first);
    OneLine(first);
    SplitConcat(first + "\n", p.extra);
    assert PreambleText(p) == first + "\n" + p.extra;
  }

  lemma {:induction false} PreambleSplits(p: Preamble, more: string)
    requires GitPreamble(p)
    ensures SplitLines(PreambleText(p) + more) ==
            ["diff --git " + p.files + "\n"] + (SplitLines(p.extra) + SplitLines(more))
  {
    PreambleTextSplits(p);
    SplitConcat(PreambleText(p), more);
  }

  lemma {:induction false} ParseGitLine(name: string, pending: seq<string>, files: string, rest: seq<string>)
    ensures ParseFrom(name, pending, ["diff --git " + files + "\n"] + rest) ==
            Flushed(name, pending) + ParseFrom("", [], rest)
  {
    var line := "diff --git " + files + "\n";
    assert ([line] + rest)[1..] == rest;
    assert line[0] == 'd' && line[..11] == "diff --git ";
  }

  lemma {:induction false} RenderGitSplits(sections: seq<Section>, preambles: seq<Preamble>)
    requires sections != [] && |sections| == |preambles| && Printable(sections) && GitPreamble(preambles[0])
    ensures var s, p := sections[0], preambles[0];
            SplitLines(RenderGit(sections, preambles)) ==
            ["diff --git " + p.files + "\n"] +
            (SplitLines(p.extra) +
             (["--- a/" + s.name + "\n", "+++ b/" + s.name + "\n"] +
              (SplitLines(s.body) + SplitLines(RenderGit(sections[1..], preambles[1..])))))
  {
    var s, more := sections[0], RenderGit(sections[1..], preambles[1..]);
    PreambleSplits(preambles[0], Header(s.name) + (s.body + more));
    HeaderLines(s.name, s.body + more);
    if |sections| > 1 {
      assert more[0] == PreambleText(preambles[1])[0] == 'd';
      SplitConcat(s.body, more);
    } else {
      assert s.body + more == s.body;
    }
  }

  lemma {:induction false} ParseGitLines(name: string, pending: seq<string>, files: string, extra: seq<string>,
                                         rest: seq<string>)
    requires PlainLines(extra)
    ensures ParseFrom(name, pending, ["diff --git " + files + "\n"] + (extra + rest)) ==
            Flushed(name, pending) + ParseFrom("", extra, rest)
  {
    ParseGitLine(name, pending, files, extra + rest);
    ParsePlain("", [], extra, rest);
    assert [] + extra == extra;
  }

  lemma {:induction false} ParseSection(pending: seq<string>, next: string, body: seq<string>, rest: seq<string>)
    requires PlainLines(body)
    ensures ParseFrom("", pending, ["--- a/" + next + "\n", "+++ b/" + next + "\n"] + (body + rest)) ==
            ParseFrom(NameBack(next), body, rest)
  {
    ParseHeader("", pending, next, body + rest);
    ParsePlain(NameBack(next), [], body, rest);
    assert [] + body == body;
  }

  lemma {:induction false} ParseGitSection(name: string, pending: seq<string>, sections: seq<Section>,
                                           preambles: seq<Preamble>)
    requires sections != [] && |sections| == |preambles| && Printable(sections) && GitPreamble(preambles[0])
    ensures ParseFrom(name, pending, SplitLines(RenderGit(sections, preambles))) ==
            Flushed(name, pending) +
            ParseFrom(NameBack(sections[0].name), SplitLines(sections[0].body),
                      SplitLines(RenderGit(sections[1..], preambles[1..])))
  {
    var s, p := sections[0], preambles[0];
    var body, lines := SplitLines(s.body), SplitLines(RenderGit(sections[1..], preambles[1..]));
    RenderGitSplits(sections, preambles);
    ParseGitLines(name, pending, p.files, SplitLines(p.extra),
                  ["--- a/" + s.name + "\n", "+++ b/" + s.name + "\n"] + (body + lines));
    ParseSection(SplitLines(p.extra), s.name, body, lines);
  }

  lemma PrintableTail(sections: seq<Section>)
    requires sections != [] && Printable(sections)
    ensures sections[0].body != "" && Printable(sections[1..])
  {
    assert forall k :: 0 <= k < |sections[1..]| ==> sections[1..][k] == sections[k + 1];
  }

  lemma FirstSurvives(sections: seq<Section>)
    requires sections != [] && sections[0].body != ""
    ensures Survivors(sections) ==
            Flushed(NameBack(sections[0].name), SplitLines(sections[0].body)) + Survivors(sections[1..])
  {
    JoinOfSplit(sections[0].body);
    SplitNonEmpty(sections[0].body);
  }

  /** What git prints before a section ends the one before it and is itself dropped: a diff with preambles gives
      the sections of the same diff without them. */
  lemma {:induction false} ParseOfGitRender(name: string, pending: seq<string>, sections: seq<Section>,
                                            preambles: seq<Preamble>)
    requires |sections| == |preambles| && Printable(sections)
    requires forall k :: 0 <= k < |preambles| ==> GitPreamble(preambles[k])
    ensures ParseFrom(name, pending, SplitLines(RenderGit(sections, preambles))) ==
            Flushed(name, pending) + Survivors(sections)
    decreases |sections|
  {
    if sections != [] {
      var s, rest := sections[0], sections[1..];
      ParseGitSection(name, pending, sections, preambles);
      PrintableTail(sections);
      ParseOfGitRender(NameBack(s.name), SplitLines(s.body), rest, preambles[1..]);
      FirstSurvives(sections);
    }
  }

  /** A file whose name starts with `b` is shown under a shorter name. */
  lemma BuildLosesItsFirstLetter()
    ensures NameBack("build.py") == "uild.py"
  {
    var line := "b/build.py\n";
    assert "b/" + "build.py" + "\n" == line;
    assert line[..|line| - 1] == "b/build.py";
    assert Paths.RightStrip(line) == "b/build.py";
    assert "b/build.py"[1..] == "/build.py" && "/build.py"[1..] == "build.py" && "build.py"[1..] == "uild.py";
  }

  // ------------------------------------------------------------------
  // Counting
  // ------------------------------------------------------------------

  datatype HunkLine = Marker(text: string) | Context(text: string) | Added(text: string) | Removed(text: string)

  function PrintLine(l: HunkLine): string {
    match l
    case Marker(text) => "@@ " + text
    case Context(text) => " " + text
    case Added(text) => "+" + text
    case Removed(text) => "-" + text
  }

  function Printed(hunk: seq<HunkLine>): string {
    if hunk == [] then "" else PrintLine(hunk[0]) + "\n" + Printed(hunk[1..])
  }

  predicate CountsAdded(line: string) {
    "+" <= line && !("+++" <= line)
  }

  predicate CountsRemoved(line: string) {
    "-" <= line && !("---" <= line)
  }

  function CountAdded(lines: seq<string>): nat {
    if lines == [] then 0 else (if CountsAdded(lines[0]) then 1 else 0) + CountAdded(lines[1..])
  }

  function CountRemoved(lines: seq<string>): nat {
    if lines == [] then 0 else (if CountsRemoved(lines[0]) then 1 else 0) + CountRemoved(lines[1..])
  }

  function AddedLines(hunk: seq<HunkLine>): nat {
    if hunk == [] then 0 else (if hunk[0].Added? then 1 else 0) + AddedLines(hunk[1..])
  }

  function RemovedLines(hunk: seq<HunkLine>): nat {
    if hunk == [] then 0 else (if hunk[0].Removed? then 1 else 0) + RemovedLines(hunk[1..])
  }

  /** An added line that itself starts with two pluses looks like a file header, and likewise for a
      removed line with two minuses. */
  predicate Miscounted(l: HunkLine) {
    (l.Added? && "++" <= l.text) || (l.Removed? && "--" <= l.text)
  }

  predicate OnOneLine(hunk: seq<HunkLine>) {
    forall k :: 0 <= k < |hunk| ==> NoBreak(hunk[k].text)
  }

  lemma PrefixOfLine(prefix: string, text: string)
    requires NoBreak(prefix)
    ensures prefix <= text + "\n" <==> prefix <= text
  {
    assert (text + "\n")[|text|] == '\n';
    assert |prefix| <= |text| ==> (text + "\n")[..|prefix|] == text[..|prefix|];
  }

  lemma PrefixAfter(c: char, prefix: string, s: string)
    ensures [c] + prefix <= [c] + s <==> prefix <= s
  {
    assert ([c] + prefix)[1..] == prefix && ([c] + s)[1..] == s;
    if prefix <= s {
      assert s == prefix + s[|prefix|..];
      assert [c] + s == [c] + prefix + s[|prefix|..];
    }
    assert |prefix| <= |s| ==> ([c] + s)[..|prefix| + 1] == [c] + s[..|prefix|];
  }

  /** A line that starts with a sign starts with three of them exactly when its text starts with two. */
  lemma Doubled(c: char, text: string)
    requires !IsBreak(c)
    ensures [c, c, c] <= [c] + text + "\n" <==> [c, c] <= text
  {
    PrefixOfLine([c, c], text);
    PrefixAfter(c, [c, c], text + "\n");
    assert [c] + [c, c] == [c, c, c] && [c] + text + "\n" == [c] + (text + "\n");
  }

  lemma LineCounts(l: HunkLine)
    ensures CountsAdded(PrintLine(l) + "\n") <==> l.Added? && !Miscounted(l)
    ensures CountsRemoved(PrintLine(l) + "\n") <==> l.Removed? && !Miscounted(l)
    ensures HeaderLike(PrintLine(l) + "\n") ==> Miscounted(l)
  {
    var line := PrintLine(l) + "\n";
    match l
    case Added(text) =>
      Doubled('+', text);
      assert line[0] == '+' && ("+++ " <= line ==> "+++" <= line);
    case Removed(text) =>
      Doubled('-', text);
      assert line[0] == '-' && ("--- " <= line ==> "---" <= line);
    case Marker(text) => assert line[0] == '@';
    case Context(text) => assert line[0] == ' ';
  }

  lemma PrintedSplits(hunk: seq<HunkLine>)
    requires hunk != [] && NoBreak(hunk[0].text)
    ensures SplitLines(Printed(hunk)) == [PrintLine(hunk[0]) + "\n"] + SplitLines(Printed(hunk[1..]))
  {
    var l := hunk[0];
    assert NoBreak("@@ ") && NoBreak(" ") && NoBreak("+") && NoBreak("-");
    OneLine(PrintLine(l));
    SplitConcat(PrintLine(l) + "\n", Printed(hunk[1..]));
  }

  predicate NoneMiscounted(hunk: seq<HunkLine>) {
    forall k :: 0 <= k < |hunk| ==> !Miscounted(hunk[k])
  }

  /** The two counts never exceed the true ones, and are both right exactly when no line is miscounted;
      a hunk without miscounted lines is also parsed in one piece. */
  lemma {:induction false} CountsAreExactIff(hunk: seq<HunkLine>)
    requires OnOneLine(hunk)
    ensures var lines := SplitLines(Printed(hunk));
            && CountAdded(lines) <= AddedLines(hunk) && CountRemoved(lines) <= RemovedLines(hunk)
            && (CountAdded(lines) == AddedLines(hunk) && CountRemoved(lines) == RemovedLines(hunk)
                <==> NoneMiscounted(hunk))
            && (NoneMiscounted(hunk) ==> PlainLines(lines))
    decreases |hunk|
  {
    if hunk != [] {
      var rest := hunk[1..];
      PrintedSplits(hunk);
      LineCounts(hunk[0]);
      assert forall k :: 0 <= k < |rest| ==> rest[k] == hunk[k + 1];
      CountsAreExactIff(rest);
      assert NoneMiscounted(hunk) <==> !Miscounted(hunk[0]) && NoneMiscounted(rest);
      var lines := SplitLines(Printed(hunk));
      assert lines[1..] == SplitLines(Printed(rest));
    }
  }
}
