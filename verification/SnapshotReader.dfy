// Bounded reading of a configuration snapshot: byte and entry limits, quoted
// values, comments, and the line each entry stands on.
module SnapshotReader {
  import opened Text

  // ---- Comments --------------------------------------------------------------------------

  datatype Quote = Open | Inside(quote: char, escaped: bool)

  function Step(q: Quote, c: char): Quote {
    match q
    case Open => if c == '"' || c == '\'' then Inside(c, false) else Open
    case Inside(quote, escaped) =>
      if escaped then Inside(quote, false)
      else if c == '\\' then Inside(quote, true)
      else if c == quote then Open
      else q
  }

  /** Where the quotes stand after a text. */
  function After(text: string): Quote {
    if text == "" then Open else Step(After(text[..|text| - 1]), text[|text| - 1])
  }

  predicate IsMark(c: char) {
    c == ';' || c == '#'
  }

  /** Position `i` starts a comment. */
  predicate Starts(value: string, i: nat)
    requires i < |value|
  {
    IsMark(value[i]) && After(value[..i]) == Open
  }

  predicate HasComment(value: string, n: nat)
    requires n <= |value|
  {
    exists i: nat :: i < n && Starts(value, i)
  }

  function StripComment(value: string): (r: string)
    ensures r <= value
    ensures !HasComment(value, |r|)
    ensures |r| < |value| ==> Starts(value, |r|)
  {
    StripFrom(value, 0)
  }

  function StripFrom(value: string, i: nat): (r: string)
    requires i <= |value| && !HasComment(value, i)
    ensures i <= |r| && r <= value
    ensures !HasComment(value, |r|)
    ensures |r| < |value| ==> Starts(value, |r|)
    decreases |value| - i
  {
    if i == |value| then value
    else if Starts(value, i) then value[..i]
    else StripFrom(value, i + 1)
  }

  /** Only one prefix of a value ends where its first comment starts. */
  lemma StripUnique(value: string, n: nat)
    requires n <= |value| && !HasComment(value, n) && (n < |value| ==> Starts(value, n))
    ensures StripComment(value) == value[..n]
  {
    var r := StripComment(value);
    assert |r| < |value| ==> Starts(value, |r|);
  }

  /** What is left holds no comment any more. */
  lemma StripIdempotent(value: string)
    ensures StripComment(StripComment(value)) == StripComment(value)
  {
    var r := StripComment(value);
    forall i: nat | i < |r| ensures !Starts(r, i) {
      assert r[..i] == value[..i];
      assert !HasComment(value, |r|);
      assert !Starts(value, i);
    }
    StripUnique(r, |r|);
  }

  /** The quote flags, carried along the value. */
  method StripSnapshotComment(value: string) returns (r: string)
    ensures r == StripComment(value)
  {
    var quoted, quote, escaped := false, '\0', false;
    var position := 0;
    while position < |value|
      invariant position <= |value|
      invariant !HasComment(value, position)
      invariant After(value[..position]) == if quoted then Inside(quote, escaped) else Open
      invariant !quoted ==> !escaped
    {
      var character := value[position];
      assert value[..position + 1][..position] == value[..position];
      if quoted {
        if escaped {
          escaped := false;
        } else if character == '\\' {
          escaped := true;
        } else if character == quote {
          quoted, quote := false, '\0';
        }
      } else if character == '"' || character == '\'' {
        quoted, quote := true, character;
      } else if character == ';' || character == '#' {
        StripUnique(value, position);
        return value[..position];
      }
      position := position + 1;
    }
    StripUnique(value, |value|);
    assert value[..|value|] == value;
    return value;
  }

  // ---- Lines -----------------------------------------------------------------------------

  function Unquote(value: string): string {
    var text := Trim(value);
    if |text| >= 2 && ((text[0] == '"' && text[|text| - 1] == '"') || (text[0] == '\'' && text[|text| - 1] == '\'')) then
      text[1..|text| - 1]
    else text
  }

  /** Quotes that do not match, or only one, are no quotes. */
  lemma MismatchStays(value: string)
    requires var text := Trim(value); |text| < 2 || text[0] != text[|text| - 1] || !(text[0] == '"' || text[0] == '\'')
    ensures Unquote(value) == Trim(value)
  {
  }

  datatype Meaning = Section(name: string) | Assigns(key: string, value: string) | Nothing

  function WithoutReturn(line: string): string {
    if line != "" && line[|line| - 1] == '\r' then line[..|line| - 1] else line
  }

  /** What one line, without its newline, says. */
  function MeaningOf(raw: string): Meaning {
    TextMeaning(Bare(raw))
  }

  /** A line without carriage return, comment and outer blanks. */
  function Bare(raw: string): string {
    Trim(StripComment(WithoutReturn(raw)))
  }

  function TextMeaning(line: string): Meaning {
    if line == "" then Nothing
    else if line[0] == '[' && line[|line| - 1] == ']' then Section(Trim(line[1..|line| - 1]))
    else
      var equals := IndexOf(line, '=');
      if equals == |line| || Trim(line[..equals]) == "" then Nothing
      else Assigns(Trim(line[..equals]), Unquote(line[equals + 1..]))
  }

  /** The lines of a text; a text that was cut loses its unfinished last line. */
  function LinesOf(text: string, cut: bool): seq<string>
    decreases |text|
  {
    var k := IndexOf(text, '\n');
    if text == "" || (k == |text| && cut) then []
    else if k == |text| then [text]
    else [text[..k]] + LinesOf(text[k + 1..], cut)
  }

  datatype Entry = Entry(section: string, key: string, value: string, line: nat)

  function SectionAfter(meaning: Meaning, section: string): string {
    if meaning.Section? then meaning.name else section
  }

  /** The entries of lines numbered from `number`, under a section. */
  function Entries(mean: string -> Meaning, lines: seq<string>, section: string, number: nat): seq<Entry> {
    if lines == [] then []
    else
      var meaning := mean(lines[0]);
      var rest := Entries(mean, lines[1..], SectionAfter(meaning, section), number + 1);
      if meaning.Assigns? then [Entry(section, meaning.key, meaning.value, number)] + rest else rest
  }

  /** The section that rules behind the first `n` lines. */
  function SectionAt(mean: string -> Meaning, lines: seq<string>, n: nat, section: string): string
    requires n <= |lines|
  {
    if n == 0 then section else SectionAfter(mean(lines[n - 1]), SectionAt(mean, lines, n - 1, section))
  }

  // ---- Reading under limits --------------------------------------------------------------

  lemma {:induction false} CutIsPrefix(part: string, text: string, cut: bool)
    requires part <= text
    ensures LinesOf(part, true) <= LinesOf(text, cut)
    decreases |text|
  {
    var k := IndexOf(part, '\n');
    if k < |part| {
      IndexOfUnique(text, '\n', k);
      CutIsPrefix(part[k + 1..], text[k + 1..], cut);
      PrefixCons(part[..k], text[..k], LinesOf(part[k + 1..], true), LinesOf(text[k + 1..], cut));
    }
  }

  lemma PrefixCons(line: string, same: string, lines: seq<string>, more: seq<string>)
    requires line == same && lines <= more
    ensures [line] + lines <= [same] + more
  {
  }

  lemma {:induction false} EntriesPrefix(mean: string -> Meaning, lines: seq<string>, more: seq<string>, section: string,
                                         number: nat)
    requires lines <= more
    ensures Entries(mean, lines, section, number) <= Entries(mean, more, section, number)
  {
    if lines != [] {
      EntriesPrefix(mean, lines[1..], more[1..], SectionAfter(mean(lines[0]), section), number + 1);
    }
  }

  const MAXIMUM_BYTES: nat := 1024 * 1024
  const MAXIMUM_ENTRIES: nat := 512

  function Least(a: nat, b: nat): nat {
    if a <= b then a else b
  }

  datatype Source = Missing | Unreadable | Text(bytes: string)

  datatype Snapshot = Snapshot(entries: seq<Entry>, bytesRead: nat, truncated: bool, warnings: seq<string>)

  /** The entries a byte limit lets through. */
  function Visible(file: string, maxBytes: nat): seq<Entry> {
    var limit := Least(maxBytes, MAXIMUM_BYTES);
    Entries(MeaningOf, LinesOf(file[..Least(|file|, limit)], |file| > limit), "", 1)
  }

  function Kept(file: string, maxBytes: nat, maxEntries: nat): seq<Entry> {
    var all := Visible(file, maxBytes);
    all[..Least(|all|, Least(maxEntries, MAXIMUM_ENTRIES))]
  }

  /** Wider limits only add entries at the end. */
  lemma KeptIsMonotone(file: string, maxBytes: nat, moreBytes: nat, maxEntries: nat, moreEntries: nat)
    requires maxBytes <= moreBytes && maxEntries <= moreEntries
    ensures Kept(file, maxBytes, maxEntries) <= Kept(file, moreBytes, moreEntries)
  {
    var limit := Least(maxBytes, MAXIMUM_BYTES);
    var wider := Least(moreBytes, MAXIMUM_BYTES);
    if |file| > limit {
      var more := file[..Least(|file|, wider)];
      CutIsPrefix(file[..limit], more, |file| > wider);
      EntriesPrefix(MeaningOf, LinesOf(file[..limit], true), LinesOf(more, |file| > wider), "", 1);
    }
    assert Visible(file, maxBytes) <= Visible(file, moreBytes);
  }

  // ---- What an entry stands for ----------------------------------------------------------

  /** Line `n` of the lines says what the entry says. */
  ghost predicate Stands(mean: string -> Meaning, lines: seq<string>, n: nat, section: string, number: nat, e: Entry) {
    && n < |lines|
    && e == Entry(SectionAt(mean, lines, n, section), e.key, e.value, number + n)
    && mean(lines[n]) == Assigns(e.key, e.value)
  }

  lemma {:induction false} SectionAtTail(mean: string -> Meaning, lines: seq<string>, n: nat, section: string)
    requires 1 <= n <= |lines|
    ensures SectionAt(mean, lines, n, section)
         == SectionAt(mean, lines[1..], n - 1, SectionAfter(mean(lines[0]), section))
  {
    if n > 1 {
      SectionAtTail(mean, lines, n - 1, section);
      assert lines[1..][n - 2] == lines[n - 1];
    }
  }

  /** The entries are exactly the lines that assign, each with the section that
      rules there and its own line number. */
  lemma {:induction false} EntryIff(mean: string -> Meaning, lines: seq<string>, section: string, number: nat, e: Entry)
    ensures e in Entries(mean, lines, section, number) <==> exists n :: Stands(mean, lines, n, section, number, e)
  {
    if lines != [] {
      var meaning := mean(lines[0]);
      var inner := SectionAfter(meaning, section);
      EntryIff(mean, lines[1..], inner, number + 1, e);
      if e in Entries(mean, lines[1..], inner, number + 1) {
        var n: nat :| Stands(mean, lines[1..], n, inner, number + 1, e);
        SectionAtTail(mean, lines, n + 1, section);
        assert Stands(mean, lines, n + 1, section, number, e);
      }
      if n: nat :| Stands(mean, lines, n, section, number, e) {
        if n > 0 {
          SectionAtTail(mean, lines, n, section);
          assert Stands(mean, lines[1..], n - 1, inner, number + 1, e);
        }
      }
      if meaning.Assigns? && e == Entry(section, meaning.key, meaning.value, number) {
        assert Stands(mean, lines, 0, section, number, e);
      }
    }
  }

  ghost predicate Numbered(es: seq<Entry>, from: nat, below: nat) {
    && (forall i :: 0 <= i < |es| ==> from <= es[i].line < below)
    && forall i, j :: 0 <= i < j < |es| ==> es[i].line < es[j].line
  }

  /** Line numbers only grow. */
  lemma {:induction false} LinesIncrease(mean: string -> Meaning, lines: seq<string>, section: string, number: nat)
    ensures Numbered(Entries(mean, lines, section, number), number, number + |lines|)
  {
    if lines != [] {
      var inner := SectionAfter(mean(lines[0]), section);
      LinesIncrease(mean, lines[1..], inner, number + 1);
      var rest := Entries(mean, lines[1..], inner, number + 1);
      assert Numbered(rest, number + 1, number + |lines|);
      var es := Entries(mean, lines, section, number);
      if mean(lines[0]).Assigns? {
        assert forall i :: 0 < i < |es| ==> es[i] == rest[i - 1];
      }
    }
  }

  // ---- What a line says -------------------------------------------------------------------

  predicate IsQuote(c: char) {
    c == '"' || c == '\''
  }

  predicate Unmarked(s: string) {
    forall i :: 0 <= i < |s| ==> s[i] !in {'"', '\'', ';', '#'}
  }

  lemma {:induction false} StaysOpen(text: string)
    requires forall i :: 0 <= i < |text| ==> !IsQuote(text[i])
    ensures After(text) == Open
  {
    if text != "" {
      StaysOpen(text[..|text| - 1]);
    }
  }

  lemma ReturnIsBlank(line: string)
    ensures Trim(WithoutReturn(line)) == Trim(line)
  {
    var w := WithoutReturn(line);
    TrimIsMiddle(w);
    var b: nat, e: nat :| IsMiddle(w, b, e);
    assert Trim(w) == w[b..e] == line[b..e];
    assert b < e ==> w[b] == Trim(w)[0] && w[e - 1] == Trim(w)[e - b - 1];
    TrimUnique(line, b, e);
  }

  lemma UnmarkedIsBare(line: string)
    requires Unmarked(line)
    ensures Bare(line) == Trim(line)
  {
    var w := WithoutReturn(line);
    StripUnique(w, |w|);
    assert w[..|w|] == w;
    ReturnIsBlank(line);
  }

  /** What follows a comment mark does not change what a line says. */
  lemma CommentReads(text: string, mark: char, comment: string)
    requires Unmarked(text) && (mark == ';' || mark == '#')
    ensures MeaningOf(text + [mark] + comment) == MeaningOf(text)
  {
    var line := text + [mark] + comment;
    var w := WithoutReturn(line);
    assert w[..|text|] == text && w[|text|] == mark;
    StaysOpen(text);
    StripUnique(w, |text|);
    UnmarkedIsBare(text);
  }

  /** A name in brackets opens a section; blanks around it and within it are taken off. */
  lemma SectionReads(before: string, left: string, name: string, right: string, after: string)
    requires Blank(before) && Blank(left) && Blank(right) && Blank(after)
    requires (name == "" || Solid(name)) && Unmarked(name)
    ensures MeaningOf(before + ("[" + (left + name + right) + "]") + after) == Section(name)
  {
    var inner := left + name + right;
    var text := "[" + inner + "]";
    UnmarkedIsBare(before + text + after);
    TrimPadded(before, text, after);
    assert text[1..|text| - 1] == inner;
    TrimPadded(left, name, right);
  }

  lemma TextAssigns(text: string, e: nat)
    requires e < |text| && text[e] == '=' && (forall i :: 0 <= i < e ==> text[i] != '=') && Trim(text[..e]) != ""
    requires text[0] != '[' || text[|text| - 1] != ']'
    ensures TextMeaning(text) == Assigns(Trim(text[..e]), Unquote(text[e + 1..]))
  {
    IndexOfUnique(text, '=', e);
  }

  lemma AssignsPlainly(front: string, rest: string)
    requires Trim(front) != "" && (forall i :: 0 <= i < |front| ==> front[i] != '=') && Unmarked(rest)
    requires front[0] != '[' || rest == "" || rest[|rest| - 1] != ']'
    ensures TextMeaning(front + "=" + rest) == Assigns(Trim(front), Trim(rest))
  {
    var text := front + "=" + rest;
    assert text[..|front|] == front && text[|front| + 1..] == rest && text[0] == front[0];
    assert rest != "" ==> text[|text| - 1] == rest[|rest| - 1];
    TextAssigns(text, |front|);
    TrimUnmarked(rest);
  }

  lemma TrimUnmarked(text: string)
    requires Unmarked(text)
    ensures Unquote(text) == Trim(text)
  {
    TrimIsMiddle(text);
    var b: nat, e: nat :| IsMiddle(text, b, e);
    assert b < e ==> Trim(text)[0] == text[b];
  }

  /** The text before the first "=" is the key, the text behind it the value, both
      without the blanks around them. */
  lemma AssignmentReads(front: string, rest: string)
    requires Unmarked(front) && Unmarked(rest) && Trim(front) != "" && forall i :: 0 <= i < |front| ==> front[i] != '='
    requires Trim(front)[0] != '[' || Trim(rest) == "" || Trim(rest)[|Trim(rest)| - 1] != ']'
    ensures MeaningOf(front + "=" + rest) == Assigns(Trim(front), Trim(rest))
  {
    var line := front + "=" + rest;
    var before, key := FrontCut(front);
    var value, after := RestCut(rest);
    var text := key + "=" + value;
    LineParts(line, text, before, key, value, after);
    AssignsPlainly(key, value);
    TrimmedMeans(line, text);
  }

  lemma LineParts(line: string, text: string, before: string, key: string, value: string, after: string)
    requires line == (before + key) + "=" + (value + after) && text == key + "=" + value
    requires Blank(before) && Blank(after) && key != "" && !IsSpace(key[0]) && (value == "" || !IsSpace(value[|value| - 1]))
    requires Unmarked(before + key) && Unmarked(value + after) && forall i :: 0 <= i < |before + key| ==> (before + key)[i] != '='
    ensures Unmarked(line) && Trim(line) == text && Unmarked(value) && forall i :: 0 <= i < |key| ==> key[i] != '='
  {
    assert line == before + text + after;
    LineTrims(line, text, before, after);
    assert forall i :: 0 <= i < |key| ==> key[i] == (before + key)[|before| + i];
    assert forall i :: 0 <= i < |value| ==> value[i] == (value + after)[i];
  }

  lemma TrimmedMeans(line: string, text: string)
    requires Unmarked(line) && Trim(line) == text
    ensures MeaningOf(line) == TextMeaning(text)
  {
    UnmarkedIsBare(line);
  }

  /** Where the trimmed text stands; a blank text is trimmed at its start. */
  lemma Edges(s: string) returns (b: nat, e: nat)
    ensures IsMiddle(s, b, e) && (b == e ==> e == 0)
    ensures b < e ==> !IsSpace(s[b]) && !IsSpace(s[e - 1])
  {
    TrimIsMiddle(s);
    b, e :| IsMiddle(s, b, e);
    if b == e {
      b, e := 0, 0;
    } else {
      assert s[b] == Trim(s)[0] && s[e - 1] == Trim(s)[|Trim(s)| - 1];
    }
  }

  lemma FrontCut(front: string) returns (before: string, key: string)
    requires Trim(front) != ""
    ensures front == before + key && Blank(before) && key != "" && !IsSpace(key[0])
    ensures Trim(key) == Trim(front) && key[0] == Trim(front)[0]
  {
    var b, e := Edges(front);
    before, key := front[..b], front[b..];
    SameMiddle(front, key, b, e, 0);
  }

  lemma RestCut(rest: string) returns (value: string, after: string)
    ensures rest == value + after && Blank(after) && (value == "" || !IsSpace(value[|value| - 1]))
    ensures Trim(value) == Trim(rest)
    ensures value != "" ==> Trim(rest) != "" && value[|value| - 1] == Trim(rest)[|Trim(rest)| - 1]
  {
    var b, d := Edges(rest);
    value, after := rest[..d], rest[d..];
    SameMiddle(rest, value, b, d, b);
  }

  /** A part of a text that leaves out blanks only is trimmed to the same. */
  lemma SameMiddle(s: string, part: string, b: nat, e: nat, k: nat)
    requires IsMiddle(s, b, e) && (b < e ==> !IsSpace(s[b]) && !IsSpace(s[e - 1]))
    requires (part == s[b..] && k == 0) || (part == s[..e] && k == b)
    ensures Trim(part) == Trim(s)
  {
    assert part[k..k + e - b] == s[b..e];
    assert forall i :: 0 <= i < |part| ==> part[i] == s[i + b - k];
    TrimUnique(part, k, k + e - b);
  }

  lemma LineTrims(line: string, text: string, before: string, after: string)
    requires line == before + text + after && Blank(before) && Blank(after) && Solid(text)
    ensures Trim(line) == text
  {
    TrimPadded(before, text, after);
  }

  /** A line without a key before its "=", or without a "=", says nothing. */
  lemma NoKeySaysNothing(line: string)
    requires Unmarked(line) && (Trim(line) == "" || Trim(line)[0] != '[')
    requires (forall i :: 0 <= i < |line| ==> line[i] != '=') || (Trim(line) != "" && Trim(line)[0] == '=')
    ensures MeaningOf(line) == Nothing
  {
    UnmarkedIsBare(line);
    TrimmedKeepsOut(line, '=');
    TextWithoutKey(Trim(line));
  }

  lemma TrimmedKeepsOut(line: string, c: char)
    ensures (forall i :: 0 <= i < |line| ==> line[i] != c) ==> forall i :: 0 <= i < |Trim(line)| ==> Trim(line)[i] != c
  {
    TrimIsMiddle(line);
    var b: nat, e: nat :| IsMiddle(line, b, e);
    var text := Trim(line);
    assert forall i :: 0 <= i < |text| ==> text[i] == line[b + i];
  }

  lemma TextWithoutKey(text: string)
    requires text == "" || text[0] != '['
    requires (forall i :: 0 <= i < |text| ==> text[i] != '=') || text[0] == '='
    ensures TextMeaning(text) == Nothing
  {
    if text != "" && text[0] == '=' {
      IndexOfUnique(text, '=', 0);
      assert text[..0] == "";
    }
  }

  // ---- Quoted values come back -----------------------------------------------------------

  predicate PlainKey(key: string) {
    Solid(key) && forall i :: 0 <= i < |key| ==> key[i] !in {'=', '"', '\'', ';', '#'}
  }

  predicate Quotable(value: string, quote: char) {
    forall i :: 0 <= i < |value| ==> value[i] != quote && value[i] != '\\'
  }

  lemma {:induction false} StaysInside(text: string, n: nat, quote: char)
    requires n < |text| && text[n] == quote && IsQuote(quote) && After(text[..n]) == Open
    requires forall i :: n < i < |text| ==> text[i] != quote && text[i] != '\\'
    ensures After(text) == Inside(quote, false)
  {
    var front := text[..|text| - 1];
    if n < |front| {
      assert front[..n] == text[..n];
      StaysInside(front, n, quote);
    } else {
      assert front == text[..n];
    }
  }

  function QuotedLine(key: string, quote: char, value: string): (line: string)
    ensures |line| == |key| + |value| + 3
    ensures line[..|key|] == key && line[|key|] == '=' && line[|key| + 1] == quote == line[|line| - 1]
    ensures line[|key| + 2..|line| - 1] == value
  {
    key + "=" + [quote] + value + [quote]
  }

  lemma QuotedKeepsMarks(line: string, n: nat, quote: char)
    requires n < |line| && line[n] == quote && IsQuote(quote)
    requires forall i :: 0 <= i < n ==> !IsQuote(line[i]) && !IsMark(line[i])
    requires forall i :: n < i < |line| - 1 ==> line[i] != quote && line[i] != '\\'
    requires !IsMark(line[|line| - 1])
    ensures StripComment(line) == line
  {
    StaysOpen(line[..n]);
    forall i: nat | i < |line| ensures !Starts(line, i) {
      if n < i < |line| - 1 {
        assert line[..i][..n] == line[..n];
        StaysInside(line[..i], n, quote);
      }
    }
    StripUnique(line, |line|);
    assert line[..|line|] == line;
  }

  lemma QuotedStaysWhole(key: string, quote: char, value: string)
    requires PlainKey(key) && IsQuote(quote) && Quotable(value, quote)
    ensures StripComment(QuotedLine(key, quote, value)) == QuotedLine(key, quote, value)
  {
    var line := QuotedLine(key, quote, value);
    assert forall i :: 0 <= i < |key| ==> line[i] == line[..|key|][i];
    assert forall i :: |key| + 1 < i < |line| - 1 ==> line[i] == line[|key| + 2..|line| - 1][i - |key| - 2];
    QuotedKeepsMarks(line, |key| + 1, quote);
  }

  lemma QuotedValue(line: string, n: nat, quote: char)
    requires n + 1 < |line| && line[n] == quote == line[|line| - 1] && IsQuote(quote)
    ensures Unquote(line[n..]) == line[n + 1..|line| - 1]
  {
    var quoted := line[n..];
    assert Trim(quoted) == quoted;
    assert quoted[1..|quoted| - 1] == line[n + 1..|line| - 1];
  }

  lemma QuotedIsBare(key: string, quote: char, value: string)
    requires PlainKey(key) && IsQuote(quote) && Quotable(value, quote)
    ensures Bare(QuotedLine(key, quote, value)) == QuotedLine(key, quote, value)
  {
    var line := QuotedLine(key, quote, value);
    QuotedStaysWhole(key, quote, value);
    assert line[0] == line[..|key|][0];
    assert WithoutReturn(line) == line;
    assert Trim(line) == TrimEnd(line) == line;
  }

  lemma QuotedAssigns(line: string, key: string, quote: char)
    requires PlainKey(key) && |key| + 2 < |line| && key == line[..|key|] && IsQuote(quote)
    requires line[|key|] == '=' && line[|key| + 1] == quote == line[|line| - 1]
    ensures TextMeaning(line) == Assigns(key, line[|key| + 2..|line| - 1])
  {
    assert forall i :: 0 <= i < |key| ==> line[i] == line[..|key|][i];
    IndexOfUnique(line, '=', |key|);
    QuotedValue(line, |key| + 1, quote);
    assert Trim(key) == TrimEnd(key) == key;
  }

  /** A value in quotes of either kind is read back whole, comment marks and blanks
      and all, as long as it holds no such quote and no backslash. */
  lemma QuotedReadsBack(key: string, quote: char, value: string)
    requires PlainKey(key) && (quote == '"' || quote == '\'') && Quotable(value, quote)
    ensures MeaningOf(QuotedLine(key, quote, value)) == Assigns(key, value)
  {
    QuotedIsBare(key, quote, value);
    QuotedAssigns(QuotedLine(key, quote, value), key, quote);
  }

  /** A text with a backslash before each of its quotes and backslashes. */
  function Escaped(value: string, quote: char): string {
    if value == "" then ""
    else
      var last := value[|value| - 1];
      Escaped(value[..|value| - 1], quote) + (if last == quote || last == '\\' then ['\\', last] else [last])
  }

  lemma AfterNext(text: string, c: char)
    ensures After(text + [c]) == Step(After(text), c)
  {
    assert (text + [c])[..|text|] == text;
  }

  lemma InsideNext(text: string, n: nat, c: char)
    requires (forall i :: n < i <= |text| ==> After(text[..i]).Inside?) && After(text + [c]).Inside?
    ensures forall i :: n < i <= |text| + 1 ==> After((text + [c])[..i]).Inside?
  {
    forall i | n < i <= |text| + 1
      ensures After((text + [c])[..i]).Inside?
    {
      assert i <= |text| ==> (text + [c])[..i] == text[..i];
      assert i == |text| + 1 ==> (text + [c])[..i] == text + [c];
    }
  }

  /** Behind a quote such a text stays inside it from end to end, and the next quote
      of its kind closes it. */
  lemma {:induction false} EscapedStaysInside(front: string, quote: char, value: string)
    requires IsQuote(quote) && After(front) == Open
    ensures var text := front + [quote] + Escaped(value, quote);
      && After(text) == Inside(quote, false) && After(text + [quote]) == Open
      && forall i :: |front| < i <= |text| ==> After(text[..i]).Inside?
  {
    var text := front + [quote] + Escaped(value, quote);
    if value == "" {
      assert text == front + [quote];
      AfterNext(front, quote);
      assert text[..|text|] == text;
    } else {
      var last := value[|value| - 1];
      var init := front + [quote] + Escaped(value[..|value| - 1], quote);
      EscapedStaysInside(front, quote, value[..|value| - 1]);
      if last == quote || last == '\\' {
        assert text == init + ['\\'] + [last];
        AfterNext(init, '\\');
        AfterNext(init + ['\\'], last);
        InsideNext(init, |front|, '\\');
        InsideNext(init + ['\\'], |front|, last);
      } else {
        assert text == init + [last];
        AfterNext(init, last);
        InsideNext(init, |front|, last);
      }
    }
    AfterNext(text, quote);
  }

  /** So no comment starts within it, whatever it holds. */
  lemma EscapedKeepsMarks(front: string, quote: char, value: string)
    requires Unmarked(front) && IsQuote(quote)
    ensures StripComment(front + [quote] + Escaped(value, quote) + [quote]) == front + [quote] + Escaped(value, quote) + [quote]
  {
    StaysOpen(front);
    EscapedStaysInside(front, quote, value);
    KeepsMarks(front, front + [quote] + Escaped(value, quote), quote);
  }

  lemma KeepsMarks(front: string, text: string, quote: char)
    requires Unmarked(front) && IsQuote(quote) && |front| < |text| && text[..|front|] == front && text[|front|] == quote
    requires forall i :: |front| < i <= |text| ==> After(text[..i]).Inside?
    ensures StripComment(text + [quote]) == text + [quote]
  {
    var line := text + [quote];
    forall i: nat | i < |line| ensures !Starts(line, i) {
      if |front| < i < |text| {
        assert line[..i] == text[..i];
      } else if i < |front| {
        assert line[i] == text[..|front|][i];
      }
    }
    StripUnique(line, |line|);
    assert line[..|line|] == line;
  }

  // ---- The reader ------------------------------------------------------------------------

  lemma TailStep(contents: string, size: nat, position: nat, newline: nat)
    requires position <= newline <= size <= |contents|
    ensures contents[..size][position..][..newline - position] == contents[position..newline]
    ensures newline < size ==> contents[..size][position..][newline - position + 1..] == contents[..size][newline + 1..]
    ensures contents[..size][size..] == ""
  {
  }

  lemma OneMore(es: seq<Entry>, e: Entry, after: seq<Entry>)
    ensures es + ([e] + after) == (es + [e]) + after
  {
  }

  lemma LinesStep(rest: string, k: nat, line: string, tail: string, cut: bool)
    requires rest != "" && k == IndexOf(rest, '\n')
    requires line == rest[..k] && tail == if k < |rest| then rest[k + 1..] else ""
    ensures LinesOf(rest, cut) == if k == |rest| && cut then [] else [line] + LinesOf(tail, cut)
  {
    assert k == |rest| ==> rest[..k] == rest;
  }

  lemma EntriesFirst(mean: string -> Meaning, line: string, lines: seq<string>, section: string, number: nat)
    ensures Entries(mean, [line] + lines, section, number) ==
      var meaning := mean(line);
      var after := Entries(mean, lines, SectionAfter(meaning, section), number + 1);
      if meaning.Assigns? then [Entry(section, meaning.key, meaning.value, number)] + after else after
  {
    assert ([line] + lines)[1..] == lines;
  }

  /** The entries ahead of the reader, one line further on. */
  lemma EntriesStep(mean: string -> Meaning, rest: string, k: nat, line: string, tail: string, cut: bool, section: string,
                    number: nat)
    requires rest != "" && k == IndexOf(rest, '\n')
    requires line == rest[..k] && tail == if k < |rest| then rest[k + 1..] else ""
    ensures Entries(mean, LinesOf(rest, cut), section, number)
         == if k == |rest| && cut then []
            else
              var meaning := mean(line);
              var after := Entries(mean, LinesOf(tail, cut), SectionAfter(meaning, section), number + 1);
              if meaning.Assigns? then [Entry(section, meaning.key, meaning.value, number)] + after else after
  {
    LinesStep(rest, k, line, tail, cut);
    EntriesFirst(mean, line, LinesOf(tail, cut), section, number);
  }

  function Next(newline: nat, size: nat): nat {
    if newline < size then newline + 1 else size
  }

  lemma ReadStep(mean: string -> Meaning, contents: string, size: nat, position: nat, newline: nat, cut: bool,
                 section: string, number: nat)
    requires position < size <= |contents| && newline == position + IndexOf(contents[..size][position..], '\n')
    ensures position <= newline <= size
    ensures Ahead(mean, contents, size, position, cut, section, number)
         == if newline == size && cut then []
            else
              var meaning := mean(contents[position..newline]);
              var after := Ahead(mean, contents, size, Next(newline, size), cut, SectionAfter(meaning, section), number + 1);
              if meaning.Assigns? then [Entry(section, meaning.key, meaning.value, number)] + after else after
  {
    TailStep(contents, size, position, newline);
    EntriesStep(mean, contents[..size][position..], newline - position, contents[position..newline],
      contents[..size][Next(newline, size)..], cut, section, number);
  }

  ghost function Ahead(mean: string -> Meaning, contents: string, size: nat, position: nat, cut: bool, section: string, number: nat)
    : seq<Entry>
    requires position <= size <= |contents|
  {
    Entries(mean, LinesOf(contents[..size][position..], cut), section, number)
  }

  /** What a snapshot of a file must hold under the limits. */
  ghost predicate Answers(file: Source, maxBytes: nat, maxEntries: nat, s: Snapshot) {
    match file
    case Missing => s == Snapshot([], 0, false, ["missing-file"])
    case Unreadable => s == Snapshot([], 0, false, ["read-failed"])
    case Text(bytes) =>
      var limit := Least(maxBytes, MAXIMUM_BYTES);
      && s.entries == Kept(bytes, maxBytes, maxEntries)
      && s.bytesRead == Least(|bytes|, limit)
      && (s.truncated <==> |bytes| > limit || |Visible(bytes, maxBytes)| > Least(maxEntries, MAXIMUM_ENTRIES))
      && s.warnings == if s.truncated then ["snapshot-truncated"] else []
  }

  /** One byte past the limit is read to tell a cut file from a whole one. */
  method ReadConfigSnapshot(file: Source, maxBytes: nat, maxEntries: nat) returns (s: Snapshot)
    ensures Answers(file, maxBytes, maxEntries, s)
    ensures s.bytesRead <= maxBytes && |s.entries| <= maxEntries && s.bytesRead <= 1024 * 1024 && |s.entries| <= 512
    ensures file.Text? && s.bytesRead < |file.bytes| ==> s.truncated && (s.bytesRead == maxBytes || s.bytesRead == 1024 * 1024)
    ensures file.Text? && s.bytesRead == |file.bytes| && s.truncated ==> |s.entries| == maxEntries || |s.entries| == 512
  {
    if file.Missing? {
      return Snapshot([], 0, false, ["missing-file"]);
    } else if file.Unreadable? {
      return Snapshot([], 0, false, ["read-failed"]);
    }
    var byteLimit := Least(maxBytes, MAXIMUM_BYTES);
    var entryLimit := Least(maxEntries, MAXIMUM_ENTRIES);
    var contents := file.bytes[..Least(|file.bytes|, byteLimit + 1)];
    var truncated, warnings, contentBytes := false, [], |contents|;
    if contentBytes > byteLimit {
      truncated, contentBytes := true, byteLimit;
      warnings := ["snapshot-truncated"];
    }
    assert contents[..contentBytes] == file.bytes[..Least(|file.bytes|, byteLimit)];
    var entries, full := ReadEntries(MeaningOf, contents, contentBytes, truncated, entryLimit);
    if full && !truncated {
      truncated := true;
      warnings := warnings + ["snapshot-truncated"];
    }
    s := Snapshot(entries, contentBytes, truncated, warnings);
  }

  /** The line loop: it stops at an unfinished line of a cut file and at the
      first entry for which there is no room. */
  method ReadEntries(mean: string -> Meaning, contents: string, contentBytes: nat, truncated: bool, entryLimit: nat)
    returns (entries: seq<Entry>, full: bool)
    requires contentBytes <= |contents|
    ensures var all := Entries(mean, LinesOf(contents[..contentBytes], truncated), "", 1);
            entries == all[..Least(|all|, entryLimit)] && (full <==> |all| > entryLimit)
  {
    ghost var all := Ahead(mean, contents, contentBytes, 0, truncated, "", 1);
    assert contents[..contentBytes][0..] == contents[..contentBytes];
    ghost var ahead := all;
    var section, position, lineNumber := "", 0, 1;
    entries := [];
    while position < contentBytes
      invariant position <= contentBytes && |entries| <= entryLimit
      invariant ahead == Ahead(mean, contents, contentBytes, position, truncated, section, lineNumber)
      invariant all == entries + ahead
    {
      var newline := NextNewline(contents, position, contentBytes);
      ReadStep(mean, contents, contentBytes, position, newline, truncated, section, lineNumber);
      var hasCompleteLine := newline < contentBytes;
      if !hasCompleteLine && truncated {
        return entries, false;
      }
      var meaning := mean(contents[position..newline]);
      if meaning.Section? {
        section := meaning.name;
      } else if meaning.Assigns? {
        if |entries| >= entryLimit {
          return entries, true;
        }
        OneMore(entries, ahead[0], ahead[1..]);
        entries := entries + [Entry(section, meaning.key, meaning.value, lineNumber)];
      }
      position := if hasCompleteLine then newline + 1 else contentBytes;
      lineNumber := lineNumber + 1;
      ahead := Ahead(mean, contents, contentBytes, position, truncated, section, lineNumber);
    }
    return entries, false;
  }

  /** The end of the line at `position`: a newline inside the contents, or their end. */
  method NextNewline(contents: string, position: nat, contentBytes: nat) returns (newline: nat)
    requires position < contentBytes <= |contents|
    ensures newline == position + IndexOf(contents[..contentBytes][position..], '\n')
    ensures newline <= contentBytes
  {
    var found := position + IndexOf(contents[position..], '\n');
    newline := if found < contentBytes then found else contentBytes;
    IndexOfUnique(contents[..contentBytes][position..], '\n', newline - position);
  }
}
