/** Printing of configuration values, against a reader that follows the "String", "Integer", "Boolean" and
    "Array" sections of TOML v1.0.0. */
module TomlValue {

  datatype Value = Str(text: string) | Bool(flag: bool) | Int(number: int) | Missing | List(items: Values)

  datatype Values = End | More(head: Value, tail: Values)

  // ------------------------------------------------------------------
  // The printer
  // ------------------------------------------------------------------

  function ReplaceChar(s: string, c: char, with: string): string
    decreases |s|
  {
    if s == "" then "" else (if s[0] == c then with else [s[0]]) + ReplaceChar(s[1..], c, with)
  }

  /** Backslashes first, then quotes. */
  function Escaped(s: string): string {
    ReplaceChar(ReplaceChar(s, '\\', "\\\\"), '"', "\\\"")
  }

  function DigitChar(d: nat): char
    requires d < 10
  {
    '0' + d as char
  }

  function Digits(n: nat): (r: string)
    ensures r != ""
  {
    if n < 10 then [DigitChar(n)] else Digits(n / 10) + [DigitChar(n % 10)]
  }

  function Decimal(n: int): string {
    if n < 0 then "-" + Digits(-n) else Digits(n)
  }

  function Print(v: Value): string
    decreases v
  {
    match v
    case Str(text) => "\"" + Escaped(text) + "\""
    case Bool(flag) => if flag then "true" else "false"
    case Int(number) => Decimal(number)
    case Missing => "\"\""
    case List(items) => "[" + PrintItems(items) + "]"
  }

  function PrintItems(items: Values): string
    decreases items
  {
    match items
    case End => ""
    case More(head, tail) => if tail.End? then Print(head) else Print(head) + ", " + PrintItems(tail)
  }

  // ------------------------------------------------------------------
  // The reader
  // ------------------------------------------------------------------

  datatype Read<T> = Got(value: T, rest: string) | Bad

  /** Control characters other than tab are not permitted in a basic string. */
  predicate Disallowed(c: char) {
    (c < ' ' && c != '\t') || c == '\U{7F}'
  }

  function HexDigit(c: char): int {
    if '0' <= c <= '9' then c as int - '0' as int
    else if 'a' <= c <= 'f' then c as int - 'a' as int + 10
    else if 'A' <= c <= 'F' then c as int - 'A' as int + 10
    else -1
  }

  function HexValue(digits: string): int
    decreases |digits|
  {
    if digits == "" then 0
    else
      var n := |digits| - 1;
      var high, low := HexValue(digits[..n]), HexDigit(digits[n]);
      if high < 0 || low < 0 then -1 else 16 * high + low
  }

  predicate IsScalar(n: int) {
    0 <= n < 0xD800 || 0xE000 <= n < 0x11_0000
  }

  function ReadCode(s: string, width: nat): Read<char> {
    if |s| < width || !IsScalar(HexValue(s[..width])) then Bad
    else Got(HexValue(s[..width]) as char, s[width..])
  }

  /** What follows a backslash. */
  function ReadEscape(s: string): (r: Read<char>)
    ensures r.Got? ==> |r.rest| < |s|
  {
    if s == "" then Bad
    else if s[0] == '"' || s[0] == '\\' then Got(s[0], s[1..])
    else if s[0] == 'b' then Got('\U{8}', s[1..])
    else if s[0] == 't' then Got('\t', s[1..])
    else if s[0] == 'n' then Got('\n', s[1..])
    else if s[0] == 'f' then Got('\U{C}', s[1..])
    else if s[0] == 'r' then Got('\r', s[1..])
    else if s[0] == 'u' then ReadCode(s[1..], 4)
    else if s[0] == 'U' then ReadCode(s[1..], 8)
    else Bad
  }

  /** The rest of a basic string, after its opening quote. */
  function ReadChars(s: string): (r: Read<string>)
    ensures r.Got? ==> |r.rest| < |s|
    decreases |s|
  {
    if s == "" then Bad
    else if s[0] == '"' then Got("", s[1..])
    else if s[0] == '\\' then
      var c := ReadEscape(s[1..]);
      if c.Bad? then Bad else Prepend(c.value, ReadChars(c.rest))
    else if Disallowed(s[0]) then Bad
    else Prepend(s[0], ReadChars(s[1..]))
  }

  function Prepend(c: char, r: Read<string>): Read<string> {
    if r.Bad? then Bad else Got([c] + r.value, r.rest)
  }

  function SkipComment(s: string): (r: string)
    ensures |r| <= |s|
    decreases |s|
  {
    if s == "" || s[0] == '\n' then s else SkipComment(s[1..])
  }

  /** Whitespace, newlines and comments, as permitted between the elements of an array. */
  function SkipBlank(s: string): (r: string)
    ensures |r| <= |s|
    decreases |s|
  {
    if s == "" then s
    else if s[0] == ' ' || s[0] == '\t' || s[0] == '\n' then SkipBlank(s[1..])
    else if |s| > 1 && s[0] == '\r' && s[1] == '\n' then SkipBlank(s[2..])
    else if s[0] == '#' then SkipBlank(SkipComment(s[1..]))
    else s
  }

  predicate Opens(s: string, c: char) {
    s != "" && s[0] == c
  }

  predicate OpensDigit(s: string) {
    s != "" && '0' <= s[0] <= '9'
  }

  /** The digits of a decimal integer, with single underscores between them. A point, an exponent, a
      date or a base prefix makes it something else, which is not a value this reader knows. */
  function ReadDigits(s: string, acc: nat): (r: Read<nat>)
    ensures r.Got? ==> |r.rest| <= |s|
    decreases |s|
  {
    if OpensDigit(s) then ReadDigits(s[1..], 10 * acc + DigitOf(s))
    else if Opens(s, '_') then if OpensDigit(s[1..]) then ReadDigits(s[1..], acc) else Bad
    else if s != "" && s[0] in {'.', 'e', 'E', ':', '-', 'x', 'o', 'b'} then Bad
    else Got(acc, s)
  }

  function DigitOf(s: string): nat
    requires OpensDigit(s)
  {
    s[0] as int - '0' as int
  }

  /** Leading zeros are not permitted. */
  function ReadNatural(s: string): (r: Read<nat>)
    ensures r.Got? ==> |r.rest| < |s|
  {
    if !OpensDigit(s) || (s[0] == '0' && (OpensDigit(s[1..]) || Opens(s[1..], '_'))) then Bad
    else ReadDigits(s[1..], DigitOf(s))
  }

  function ReadInteger(s: string): (r: Read<Value>)
    ensures r.Got? ==> |r.rest| < |s|
  {
    var signed := Opens(s, '+') || Opens(s, '-');
    match ReadNatural(if signed then s[1..] else s)
    case Bad => Bad
    case Got(n, rest) => Got(Int(if Opens(s, '-') then 0 - n else n), rest)
  }

  /** Three quotes open a multi-line string, which is not a value this reader knows. */
  function ReadValue(s: string): (r: Read<Value>)
    ensures r.Got? ==> |r.rest| < |s|
    decreases |s|, 0
  {
    if s == "" then Bad
    else if s[0] == '"' then
      if |s| >= 3 && s[1] == '"' && s[2] == '"' then Bad
      else
        var r := ReadChars(s[1..]);
        if r.Bad? then Bad else Got(Str(r.value), r.rest)
    else if s[0] == '[' then
      var t := SkipBlank(s[1..]);
      if Opens(t, ']') then Got(List(End), t[1..])
      else
        var r := ReadItems(t);
        if r.Bad? then Bad else Got(List(r.value), r.rest)
    else if "true" <= s then Got(Bool(true), s[4..])
    else if "false" <= s then Got(Bool(false), s[5..])
    else ReadInteger(s)
  }

  function ReadItems(s: string): (r: Read<Values>)
    ensures r.Got? ==> |r.rest| < |s|
    decreases |s|, 1
  {
    var v := ReadValue(s);
    if v.Bad? then Bad
    else
      var t := SkipBlank(v.rest);
      if Opens(t, ']') then Got(More(v.value, End), t[1..])
      else if !Opens(t, ',') then Bad
      else
        var u := SkipBlank(t[1..]);
        if Opens(u, ']') then Got(More(v.value, End), u[1..])
        else
          var r := ReadItems(u);
          if r.Bad? then Bad else Got(More(v.value, r.value), r.rest)
  }

  function ReadWhole(s: string): Read<Value> {
    var r := ReadValue(s);
    if r.Got? && r.rest == "" then r else Bad
  }

  // ------------------------------------------------------------------
  // Round trip
  // ------------------------------------------------------------------

  /** The control characters of ASCII apart from the tab, the line feed among them: 31 below the blank and one
      above the printable ones. */
  lemma DisallowedIff(c: char)
    ensures Disallowed(c) <==> c as int <= 8 || 10 <= c as int <= 31 || c as int == 127
  {
  }

  predicate Permitted(s: string) {
    forall k :: 0 <= k < |s| ==> !Disallowed(s[k])
  }

  predicate Readable(v: Value)
    decreases v
  {
    match v
    case Str(text) => Permitted(text)
    case List(items) => AllReadable(items)
    case _ => true
  }

  predicate AllReadable(items: Values)
    decreases items
  {
    items.End? || (Readable(items.head) && AllReadable(items.tail))
  }

  /** What a reader can tell of a value: a missing one looks like an empty string. */
  function Visible(v: Value): Value
    decreases v
  {
    match v
    case Missing => Str("")
    case List(items) => List(VisibleItems(items))
    case _ => v
  }

  function VisibleItems(items: Values): Values
    decreases items
  {
    if items.End? then End else More(Visible(items.head), VisibleItems(items.tail))
  }

  function EscapedChar(c: char): string {
    if c == '\\' then "\\\\" else if c == '"' then "\\\"" else [c]
  }

  lemma {:induction false} ReplaceCharConcat(a: string, b: string, c: char, with: string)
    ensures ReplaceChar(a + b, c, with) == ReplaceChar(a, c, with) + ReplaceChar(b, c, with)
    decreases |a|
  {
    if a == "" {
      assert a + b == b;
    } else {
      assert (a + b)[1..] == a[1..] + b;
      ReplaceCharConcat(a[1..], b, c, with);
    }
  }

  lemma ReplaceInShort(s: string, c: char, with: string)
    requires |s| == 1 || (|s| == 2 && s[0] != c && s[1] != c)
    ensures ReplaceChar(s, c, with) == if s[0] == c then with else s
  {
    assert |s| == 1 ==> s[1..] == "" && s == [s[0]] + "";
    assert |s| == 2 ==> s[1..] == [s[1]] && s[1..][1..] == "" && s == [s[0]] + [s[1]];
  }

  /** The two replacement passes escape each character on its own: the second one leaves what the
      first has inserted alone. */
  lemma EscapedUnfolds(s: string)
    requires s != ""
    ensures Escaped(s) == EscapedChar(s[0]) + Escaped(s[1..])
  {
    var first := if s[0] == '\\' then "\\\\" else [s[0]];
    ReplaceCharConcat(first, ReplaceChar(s[1..], '\\', "\\\\"), '"', "\\\"");
    ReplaceInShort(first, '"', "\\\"");
  }

  lemma CharBack(c: char, more: string)
    ensures ReadChars(EscapedChar(c) + more) == if Disallowed(c) then Bad else Prepend(c, ReadChars(more))
  {
    var s := EscapedChar(c) + more;
    if |EscapedChar(c)| == 2 {
      var t := s[1..];
      assert t == [c] + more && t[1..] == more;
      assert s[0] == '\\' && ReadEscape(t) == Got(c, more);
    } else {
      assert s[1..] == more;
    }
  }

  /** A printed string is read back to its closing quote, or rejected at its first control character. */
  lemma {:induction false} CharsBack(text: string, rest: string)
    ensures ReadChars(Escaped(text) + "\"" + rest) == if Permitted(text) then Got(text, rest) else Bad
    decreases |text|
  {
    var s := Escaped(text) + "\"" + rest;
    if text == "" {
      assert s[1..] == rest;
    } else {
      var more := Escaped(text[1..]) + "\"" + rest;
      EscapedUnfolds(text);
      CharsBack(text[1..], rest);
      CharBack(text[0], more);
      assert s == EscapedChar(text[0]) + more;
      assert [text[0]] + text[1..] == text;
    }
  }

  predicate StartsValue(c: char) {
    c in {'"', '[', 't', 'f', '-'} || '0' <= c <= '9'
  }

  lemma PrintStarts(v: Value)
    ensures Print(v) != "" && StartsValue(Print(v)[0])
  {
    if v.Int? {
      DigitsAreDigits(if v.number < 0 then -v.number else v.number);
    }
  }

  /** A printed number has digits only, and a leading zero only when it is zero. */
  lemma {:induction false} DigitsAreDigits(n: nat)
    ensures OpensDigit(Digits(n)) && (Digits(n)[0] == '0' <==> n == 0)
    ensures n == 0 ==> Digits(n) == "0"
    decreases n
  {
    if n >= 10 {
      DigitsAreDigits(n / 10);
    }
  }

  /** What may stand behind a value: nothing, a separator or the end of the array. */
  predicate Follows(rest: string) {
    rest == "" || rest[0] == ',' || rest[0] == ']'
  }

  /** Reading the digits behind the first one of a printed number. */
  lemma {:induction false} DigitsBack(n: nat, rest: string)
    ensures var s := Digits(n) + rest; OpensDigit(s) && ReadDigits(s[1..], DigitOf(s)) == ReadDigits(rest, n)
    decreases n
  {
    var s := Digits(n) + rest;
    if n < 10 {
      assert s[1..] == rest;
    } else {
      var more := [DigitChar(n % 10)] + rest;
      DigitsBack(n / 10, more);
      assert s == Digits(n / 10) + more;
      DigitBack(n % 10, rest, n / 10);
    }
  }

  lemma DigitBack(d: nat, rest: string, acc: nat)
    requires d < 10
    ensures ReadDigits([DigitChar(d)] + rest, acc) == ReadDigits(rest, 10 * acc + d)
  {
    assert ([DigitChar(d)] + rest)[1..] == rest;
  }

  lemma NaturalBack(n: nat, rest: string)
    requires Follows(rest)
    ensures ReadNatural(Digits(n) + rest) == Got(n, rest)
  {
    var s := Digits(n) + rest;
    DigitsAreDigits(n);
    DigitsBack(n, rest);
    assert s[0] == Digits(n)[0];
    if n == 0 {
      assert s[1..] == rest;
    }
  }

  lemma NegativeBack(m: nat, rest: string)
    requires Follows(rest)
    ensures ReadInteger("-" + Digits(m) + rest) == Got(Int(0 - m), rest)
  {
    NaturalBack(m, rest);
    assert ("-" + Digits(m) + rest)[1..] == Digits(m) + rest;
  }

  lemma NonNegativeBack(m: nat, rest: string)
    requires Follows(rest)
    ensures OpensDigit(Digits(m) + rest)
    ensures ReadInteger(Digits(m) + rest) == Got(Int(m), rest)
  {
    DigitsBack(m, rest);
    NaturalBack(m, rest);
  }

  lemma IntegerBack(n: int, rest: string)
    requires Follows(rest)
    ensures ReadValue(Decimal(n) + rest) == Got(Int(n), rest)
  {
    if n < 0 {
      NegativeBack(-n, rest);
    } else {
      NonNegativeBack(n, rest);
    }
    ValueIsInteger(Decimal(n) + rest);
  }

  lemma {:induction false} DigitsLead(n: nat)
    ensures '0' <= Digits(n)[0] <= '9' && (n > 0 ==> Digits(n)[0] != '0')
    decreases n
  {
    if n >= 10 {
      DigitsLead(n / 10);
      assert Digits(n)[0] == Digits(n / 10)[0];
    }
  }

  /** Only a negative number has a sign, and no number but zero starts with a zero. */
  lemma DecimalIsPlain(n: int)
    ensures Decimal(n) != "" && (Decimal(n)[0] == '-' <==> n < 0)
    ensures n > 0 ==> Decimal(n)[0] != '0'
    ensures Decimal(0) == "0"
  {
    DigitsLead(if n < 0 then -n else n);
  }

  lemma ValueIsInteger(s: string)
    requires s != "" && (s[0] == '-' || '0' <= s[0] <= '9')
    ensures ReadValue(s) == ReadInteger(s)
  {
  }

  lemma StrBack(text: string, rest: string)
    requires text == "" ==> !Opens(rest, '"')
    ensures ReadValue(Print(Str(text)) + rest) == if Permitted(text) then Got(Str(text), rest) else Bad
  {
    var s := Print(Str(text)) + rest;
    assert s[1..] == Escaped(text) + "\"" + rest;
    CharsBack(text, rest);
    if text == "" {
      assert s == "\"\"" + rest;
    } else {
      EscapedUnfolds(text);
      assert s[1] == EscapedChar(text[0])[0];
    }
  }

  /** Reading after printing, with whatever may stand behind a value. */
  lemma {:induction false} ValueBack(v: Value, rest: string)
    requires Follows(rest)
    ensures ReadValue(Print(v) + rest) == if Readable(v) then Got(Visible(v), rest) else Bad
    decreases v, 0
  {
    var s := Print(v) + rest;
    match v
    case Str(text) => StrBack(text, rest);
    case Bool(flag) =>
      assert s[if flag then 4 else 5..] == rest;
    case Int(number) => IntegerBack(number, rest);
    case Missing =>
      assert Print(v) == Print(Str(""));
      StrBack("", rest);
    case List(items) => ListBack(items, rest);
  }

  lemma ListBack(items: Values, rest: string)
    ensures ReadValue("[" + PrintItems(items) + "]" + rest) ==
            if AllReadable(items) then Got(List(VisibleItems(items)), rest) else Bad
    decreases items, 1
  {
    var inner := PrintItems(items) + "]" + rest;
    assert ("[" + PrintItems(items) + "]" + rest)[1..] == inner;
    if items.End? {
      assert inner == "]" + rest && inner[1..] == rest;
    } else {
      PrintStarts(items.head);
      assert inner[0] == Print(items.head)[0];
      ItemsBack(items, rest);
    }
  }

  /** One element, then what is left of the list after its separator. */
  lemma ItemBack(head: Value, next: string)
    requires next != "" && StartsValue(next[0])
    ensures var s := Print(head) + ", " + next;
            ReadItems(s) ==
            if !Readable(head) then Bad
            else
              var r := ReadItems(next);
              if r.Bad? then Bad else Got(More(Visible(head), r.value), r.rest)
    decreases head, 2
  {
    var behind := ", " + next;
    assert Print(head) + ", " + next == Print(head) + behind;
    ValueBack(head, behind);
    SeparatorSkipped(next);
  }

  lemma SeparatorSkipped(next: string)
    requires next != "" && StartsValue(next[0])
    ensures SkipBlank(", " + next) == ", " + next
    ensures SkipBlank((", " + next)[1..]) == next
  {
    assert (", " + next)[1..] == " " + next && (" " + next)[1..] == next;
  }

  lemma {:induction false} ItemsBack(items: Values, rest: string)
    requires items.More?
    ensures ReadItems(PrintItems(items) + "]" + rest) ==
            if AllReadable(items) then Got(VisibleItems(items), rest) else Bad
    decreases items, 0
  {
    var s := PrintItems(items) + "]" + rest;
    if items.tail.End? {
      var behind := "]" + rest;
      assert s == Print(items.head) + behind && behind[1..] == rest;
      ValueBack(items.head, behind);
    } else {
      var next := PrintItems(items.tail) + "]" + rest;
      PrintStarts(items.tail.head);
      assert next[0] == Print(items.tail.head)[0];
      assert s == Print(items.head) + ", " + next;
      ItemBack(items.head, next);
      ItemsBack(items.tail, rest);
    }
  }

  /** Printing and reading gives the value back exactly when no string in it holds a control character
      other than tab and nothing in it is missing. */
  lemma RoundTripIff(v: Value)
    ensures ReadWhole(Print(v)) == Got(v, "") <==> Readable(v) && Visible(v) == v
    ensures ReadWhole(Print(v)).Bad? <==> !Readable(v)
  {
    assert Print(v) + "" == Print(v);
    ValueBack(v, "");
  }

  /** Two values print alike only if a reader cannot tell them apart. */
  lemma PrintIsInjective(v: Value, w: Value)
    requires Readable(v) && Readable(w) && Print(v) == Print(w)
    ensures Visible(v) == Visible(w)
  {
    assert Print(v) + "" == Print(v) && Print(w) + "" == Print(w);
    ValueBack(v, "");
    ValueBack(w, "");
  }
}
