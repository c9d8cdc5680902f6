// The limit coordinator: two adjusters' INI files edited line by line so that
// each limit has one owner.
module IniEdit {
  import opened Words
  import opened Text

  // ---- Lines -----------------------------------------------------------------------------

  /** Names are compared as C strings, up to the first NUL and without case. */
  function Id(name: string): string {
    Lower(name[..IndexOf(name, '\0')])
  }

  predicate IsHeader(line: string) {
    var text := Trim(line);
    text != "" && text[0] == '[' && text[|text| - 1] == ']'
  }

  /** The section a header line opens; "[]" opens none. */
  function HeaderId(line: string): Option<string>
    requires IsHeader(line)
  {
    var text := Trim(line);
    if |text| < 3 then None else Some(Id(Trim(text[1..|text| - 1])))
  }

  predicate Opens(line: string, section: string) {
    IsHeader(line) && HeaderId(line) == Some(section)
  }

  predicate IsCommented(line: string) {
    var text := Trim(line);
    text != "" && (text[0] == '#' || text[0] == ';')
  }

  /** A line without its blanks and without one comment mark. */
  function Uncommented(line: string): string {
    var text := Trim(line);
    if IsCommented(line) then Trim(text[1..]) else text
  }

  /** The key a line assigns, commented out or not. */
  function LineKey(line: string): Option<string> {
    var text := Uncommented(line);
    var eq := IndexOf(text, '=');
    if Trim(line) == "" || eq == |text| then None else Some(Id(Trim(text[..eq])))
  }

  predicate Sets(line: string, key: string) {
    LineKey(line) == Some(key)
  }

  /** The line a rule wants to see. */
  function Wanted(key: string, value: string, enabled: bool): string {
    (if enabled then "" else "#") + key + " = " + value
  }

  predicate GoodSection(section: string) {
    Solid(section)
  }

  /** A key the file format can carry. */
  predicate GoodKey(key: string) {
    Solid(key) && '=' !in key && key[0] !in {'#', ';', '['}
  }

  function TitleLine(section: string): string {
    "[" + section + "]"
  }

  /** The line written for a key is read back as that key, commented as asked. */
  lemma {:induction false} WantedReadsBack(key: string, value: string, enabled: bool)
    requires GoodKey(key)
    ensures !IsHeader(Wanted(key, value, enabled))
    ensures Sets(Wanted(key, value, enabled), Id(key))
    ensures IsCommented(Wanted(key, value, enabled)) == !enabled
  {
    var bare := Wanted(key, value, true);
    WantedForms(key, value);
    BareReadsBack(key, " = " + value, bare);
    if !enabled {
      CommentReadsBack(bare, Wanted(key, value, false));
    }
  }

  /** And as that value: what stands behind its "=", without the blanks around it. */
  lemma WantedValue(key: string, value: string, enabled: bool)
    requires GoodKey(key)
    ensures var text := Uncommented(Wanted(key, value, enabled));
      IndexOf(text, '=') < |text| && Trim(text[IndexOf(text, '=') + 1..]) == Trim(value)
  {
    var bare, rest := Wanted(key, value, true), " = " + value;
    WantedForms(key, value);
    BareReadsBack(key, rest, bare);
    KeyReadsBack(key, rest);
    ValueReadsBack(key, value, bare, Trim(bare));
    if !enabled {
      CommentReadsBack(bare, Wanted(key, value, false));
      assert Uncommented(Wanted(key, value, false)) == Trim(Trim(bare));
      TrimTwice(bare);
    }
  }

  lemma TrimTwice(s: string)
    ensures Trim(Trim(s)) == Trim(s)
  {
    TrimUnique(Trim(s), 0, |Trim(s)|);
  }

  lemma ValueReadsBack(key: string, value: string, line: string, text: string)
    requires line == key + (" = " + value) && text == Trim(line) && key != "" && !IsSpace(key[0])
    ensures |key| + 1 < |text| && text[|key| + 1] == '=' && Trim(text[|key| + 2..]) == Trim(value)
  {
    TrimIsMiddle(value);
    var b: nat, e: nat :| IsMiddle(value, b, e);
    if b < e {
      assert value[b] == Trim(value)[0] && value[e - 1] == Trim(value)[e - b - 1];
      CutLine(line, key, value, e);
      ValueTrims(value, b, e);
    } else {
      CutLine(line, key, value, 0);
      assert text[|key| + 2..] == "";
    }
  }

  /** The line is cut behind the last character of the value, or behind its "=". */
  lemma CutLine(line: string, key: string, value: string, e: nat)
    requires line == key + (" = " + value) && key != "" && !IsSpace(key[0])
    requires e <= |value| && (e > 0 ==> !IsSpace(value[e - 1])) && forall i :: e <= i < |value| ==> IsSpace(value[i])
    ensures Trim(line) == key + " =" + (if e > 0 then " " + value[..e] else "")
  {
    var n := if e > 0 then |key| + 3 + e else |key| + 2;
    var cut := key + " =" + (if e > 0 then " " + value[..e] else "");
    assert line[0..n] == cut;
    assert forall i :: n <= i < |line| ==> IsSpace(line[i]);
    TrimUnique(line, 0, n);
  }

  lemma ValueTrims(value: string, b: nat, e: nat)
    requires IsMiddle(value, b, e) && b < e && !IsSpace(value[b]) && !IsSpace(value[e - 1])
    ensures Trim(" " + value[..e]) == Trim(value)
  {
    var part := " " + value[..e];
    assert part[b + 1..e + 1] == value[b..e];
    TrimUnique(part, b + 1, e + 1);
  }

  lemma WantedForms(key: string, value: string)
    ensures Wanted(key, value, true) == key + (" = " + value)
    ensures Wanted(key, value, false) == ['#'] + Wanted(key, value, true)
    ensures key != "" ==> Wanted(key, value, true)[0] == key[0]
  {
  }

  lemma {:induction false} BareReadsBack(key: string, rest: string, line: string)
    requires GoodKey(key)
    requires |rest| >= 2 && rest[0] == ' ' && rest[1] == '=' && line == key + rest
    ensures !IsHeader(line) && !IsCommented(line) && Sets(line, Id(key))
  {
    KeyReadsBack(key, rest);
  }

  lemma {:induction false} CommentReadsBack(bare: string, line: string)
    requires bare != "" && !IsSpace(bare[0]) && line == ['#'] + bare
    ensures Trim(line) == ['#'] + Trim(bare)
    ensures IsCommented(line) && !IsHeader(line)
    ensures !IsCommented(bare) ==> LineKey(line) == LineKey(bare)
  {
    assert Trim(line) == TrimEnd(line);
    TrimEndAfter('#', bare);
    TrimEndTwice(bare);
    assert (['#'] + Trim(bare))[1..] == Trim(bare);
    assert Uncommented(line) == Trim(Trim(bare)) == Trim(bare);
  }

  lemma {:induction false} TrimEndTwice(s: string)
    requires s != "" && !IsSpace(s[0])
    ensures Trim(TrimEnd(s)) == TrimEnd(s) == Trim(s)
  {
    TrimEndKeeps(s, 0);
  }

  lemma {:induction false} TrimEndAfter(c: char, s: string)
    requires s != "" && !IsSpace(s[0])
    ensures TrimEnd([c] + s) == [c] + TrimEnd(s)
  {
    if IsSpace(s[|s| - 1]) {
      assert ([c] + s)[..|s|] == [c] + s[..|s| - 1];
      TrimEndAfter(c, s[..|s| - 1]);
    }
  }

  lemma {:induction false} KeyReadsBack(key: string, rest: string)
    requires GoodKey(key)
    requires |rest| >= 2 && rest[0] == ' ' && rest[1] == '='
    ensures var text := Trim(key + rest);
            && text != "" && text[0] == key[0]
            && IndexOf(text, '=') == |key| + 1 < |text|
            && Trim(text[..|key| + 1]) == key
  {
    var line := key + rest;
    TrimEndKeeps(line, |key| + 1);
    var text := Trim(line);
    assert text == TrimEnd(line);
    var eq := IndexOf(text, '=');
    assert forall i :: 0 <= i < |key| ==> text[i] == key[i];
    assert text[|key|] == ' ' && text[|key| + 1] == '=';
    assert eq == |key| + 1;
    assert text[..eq] == key + " ";
    assert (key + " ")[..|key|] == key;
    assert TrimEnd(key + " ") == TrimEnd(key) == key;
  }

  lemma {:induction false} TitleReadsBack(section: string)
    requires GoodSection(section)
    ensures Opens(TitleLine(section), Id(section))
  {
    var line := TitleLine(section);
    assert Trim(line) == line;
    assert line[1..|line| - 1] == section;
  }

  lemma BlankLine()
    ensures !IsHeader("") && LineKey("") == None
  {
  }

  // ---- One key in one file ---------------------------------------------------------------

  /** What a line is to the editor and to a reader. */
  datatype Kind = Header(section: Option<string>) | Setting(key: string) | Plain

  function KindOf(line: string): Kind {
    if IsHeader(line) then Header(HeaderId(line))
    else if LineKey(line).Some? then Setting(LineKey(line).value)
    else Plain
  }

  /** A section and a key by the identities a reader compares. */
  datatype Slot = Slot(section: string, key: string)

  /** What the file says about a slot, in order: every line under a header of
      the section, however often that header comes back, that assigns the key. */
  function Settings(kind: string -> Kind, lines: seq<string>, slot: Slot, inside: bool): seq<string> {
    if lines == [] then []
    else match kind(lines[0])
      case Header(section) => Settings(kind, lines[1..], slot, section == Some(slot.section))
      case Setting(key) =>
        var rest := Settings(kind, lines[1..], slot, inside);
        if inside && key == slot.key then [lines[0]] + rest else rest
      case Plain => Settings(kind, lines[1..], slot, inside)
  }

  predicate HasSection(kind: string -> Kind, lines: seq<string>, section: string) {
    lines != [] && (kind(lines[0]) == Header(Some(section)) || HasSection(kind, lines[1..], section))
  }

  /** The line an edit takes over: the first one that assigns the key before
      the first block of the section ends. */
  function Found(kind: string -> Kind, lines: seq<string>, slot: Slot): Option<string> {
    if lines == [] then None
    else if kind(lines[0]) == Header(Some(slot.section)) then FoundInside(kind, lines[1..], slot)
    else Found(kind, lines[1..], slot)
  }

  function FoundInside(kind: string -> Kind, lines: seq<string>, slot: Slot): Option<string> {
    if lines == [] then None
    else match kind(lines[0])
      case Header(section) => if section == Some(slot.section) then FoundInside(kind, lines[1..], slot) else None
      case Setting(key) => if key == slot.key then Some(lines[0]) else FoundInside(kind, lines[1..], slot)
      case Plain => FoundInside(kind, lines[1..], slot)
  }

  function Rest(found: Option<string>, settings: seq<string>): seq<string> {
    if found.Some? && settings != [] then settings[1..] else settings
  }

  /** The settings an edit does not reach. */
  function Strays(kind: string -> Kind, lines: seq<string>, slot: Slot): seq<string> {
    Rest(Found(kind, lines, slot), Settings(kind, lines, slot, false))
  }

  /** Editing behind the header of the section. */
  function EditInside(kind: string -> Kind, lines: seq<string>, slot: Slot, line: string, enabled: bool): seq<string> {
    if lines == [] then if enabled then [line] else []
    else match kind(lines[0])
      case Header(section) =>
        if section == Some(slot.section) then [lines[0]] + EditInside(kind, lines[1..], slot, line, enabled)
        else if enabled then [line] + lines else lines
      case Setting(key) =>
        if key == slot.key then [line] + lines[1..]
        else [lines[0]] + EditInside(kind, lines[1..], slot, line, enabled)
      case Plain => [lines[0]] + EditInside(kind, lines[1..], slot, line, enabled)
  }

  function EditFrom(kind: string -> Kind, lines: seq<string>, slot: Slot, line: string, enabled: bool): seq<string> {
    if lines == [] then []
    else if kind(lines[0]) == Header(Some(slot.section)) then
      [lines[0]] + EditInside(kind, lines[1..], slot, line, enabled)
    else [lines[0]] + EditFrom(kind, lines[1..], slot, line, enabled)
  }

  function Listed(found: Option<string>, rest: seq<string>): seq<string> {
    if found.Some? then [found.value] + rest else rest
  }

  function FoundAfter(found: Option<string>, line: string, enabled: bool): Option<string> {
    if found.Some? || enabled then Some(line) else None
  }

  /** What an edit of a slot leaves: the wanted line, if there was a line or one
      is asked for, and then the strays. */
  ghost predicate Answers(kind: string -> Kind, was: seq<string>, now: seq<string>, slot: Slot, line: string, enabled: bool) {
    var after := FoundAfter(Found(kind, was, slot), line, enabled);
    && Found(kind, now, slot) == after
    && Settings(kind, now, slot, false) == Listed(after, Strays(kind, was, slot))
  }

  lemma EditInsideTail(kind: string -> Kind, lines: seq<string>, slot: Slot, line: string, enabled: bool)
    ensures [line][1..] == [] && ([line] + lines)[1..] == lines
    ensures lines != [] ==>
      var rest := EditInside(kind, lines[1..], slot, line, enabled);
      ([lines[0]] + rest)[1..] == rest && ([line] + lines[1..])[1..] == lines[1..]
  {
  }

  lemma {:induction false} EditInsideAnswers(kind: string -> Kind, lines: seq<string>, slot: Slot, line: string, enabled: bool)
    requires kind(line) == Setting(slot.key)
    ensures var now := EditInside(kind, lines, slot, line, enabled);
            var after := FoundAfter(FoundInside(kind, lines, slot), line, enabled);
            && FoundInside(kind, now, slot) == after
            && Settings(kind, now, slot, true)
               == Listed(after, Rest(FoundInside(kind, lines, slot), Settings(kind, lines, slot, true)))
  {
    EditInsideTail(kind, lines, slot, line, enabled);
    if lines != [] {
      EditInsideAnswers(kind, lines[1..], slot, line, enabled);
    }
  }

  lemma {:induction false} EditFromAnswers(kind: string -> Kind, lines: seq<string>, slot: Slot, line: string, enabled: bool)
    requires kind(line) == Setting(slot.key) && HasSection(kind, lines, slot.section)
    ensures Answers(kind, lines, EditFrom(kind, lines, slot, line, enabled), slot, line, enabled)
  {
    if kind(lines[0]) == Header(Some(slot.section)) {
      EditInsideAnswers(kind, lines[1..], slot, line, enabled);
    } else {
      EditFromAnswers(kind, lines[1..], slot, line, enabled);
    }
  }

  /** Two files say the same about a slot, to a reader and to the editor. */
  ghost predicate Same(kind: string -> Kind, was: seq<string>, now: seq<string>, slot: Slot, inside: bool) {
    && Settings(kind, now, slot, inside) == Settings(kind, was, slot, inside)
    && Found(kind, now, slot) == Found(kind, was, slot)
    && (inside ==> FoundInside(kind, now, slot) == FoundInside(kind, was, slot))
  }

  lemma {:induction false} EditInsideOthers(kind: string -> Kind, lines: seq<string>, slot: Slot, line: string, enabled: bool,
                                            other: Slot)
    requires kind(line) == Setting(slot.key) && other != slot
    ensures Same(kind, lines, EditInside(kind, lines, slot, line, enabled), other, other.section == slot.section)
  {
    EditInsideTail(kind, lines, slot, line, enabled);
    if lines != [] {
      EditInsideOthers(kind, lines[1..], slot, line, enabled, other);
    }
  }

  lemma {:induction false} EditFromOthers(kind: string -> Kind, lines: seq<string>, slot: Slot, line: string, enabled: bool,
                                          other: Slot, inside: bool)
    requires kind(line) == Setting(slot.key) && other != slot
    ensures Same(kind, lines, EditFrom(kind, lines, slot, line, enabled), other, inside)
  {
    if lines != [] {
      if kind(lines[0]) == Header(Some(slot.section)) {
        EditInsideOthers(kind, lines[1..], slot, line, enabled, other);
      } else {
        EditFromOthers(kind, lines[1..], slot, line, enabled, other,
          if kind(lines[0]).Header? then kind(lines[0]).section == Some(other.section) else inside);
      }
    }
  }

  /** The end of a file that gains a section: perhaps a gap, a title, a line. */
  ghost predicate IsNewSection(kind: string -> Kind, tail: seq<string>, slot: Slot, line: string) {
    exists gap: seq<string>, title: string ::
      && tail == gap + [title, line]
      && |gap| <= 1 && (gap != [] ==> kind(gap[0]) == Plain)
      && kind(title) == Header(Some(slot.section)) && kind(line) == Setting(slot.key)
  }

  lemma {:induction false} NewSectionAnswers(kind: string -> Kind, lines: seq<string>, tail: seq<string>, slot: Slot, line: string)
    requires IsNewSection(kind, tail, slot, line) && !HasSection(kind, lines, slot.section)
    ensures Settings(kind, lines + tail, slot, false) == [line] && Found(kind, lines + tail, slot) == Some(line)
  {
    if lines == [] {
      assert lines + tail == tail;
      NewSectionAlone(kind, tail, slot, line);
    } else {
      assert (lines + tail)[1..] == lines[1..] + tail;
      NewSectionAnswers(kind, lines[1..], tail, slot, line);
    }
  }

  lemma {:induction false} NewSectionAlone(kind: string -> Kind, tail: seq<string>, slot: Slot, line: string)
    requires IsNewSection(kind, tail, slot, line)
    ensures Settings(kind, tail, slot, false) == [line] && Found(kind, tail, slot) == Some(line)
    ensures forall other, inside :: other != slot ==> Same(kind, [], tail, other, inside)
  {
    var gap, title :| tail == gap + [title, line] && |gap| <= 1 && (gap != [] ==> kind(gap[0]) == Plain)
      && kind(title) == Header(Some(slot.section));
    assert [title, line][1..] == [line] && [line][1..] == [];
    assert Settings(kind, [line], slot, true) == [line];
    assert FoundInside(kind, [line], slot) == Some(line);
    forall other, inside | other != slot ensures Same(kind, [], tail, other, inside) {
      assert Settings(kind, [line], other, other.section == slot.section) == [];
      assert Found(kind, [line], other) == None;
      assert other.section == slot.section ==> FoundInside(kind, [line], other) == None;
      assert Same(kind, [], [title, line], other, inside);
      assert gap != [] ==> tail[1..] == [title, line];
      assert gap == [] ==> tail == [title, line];
    }
    assert Settings(kind, [title, line], slot, false) == [line] && Found(kind, [title, line], slot) == Some(line);
    assert if gap == [] then tail == [title, line] else tail[1..] == [title, line];
  }

  lemma {:induction false} NewSectionOthers(kind: string -> Kind, lines: seq<string>, tail: seq<string>, slot: Slot, line: string,
                                            other: Slot, inside: bool)
    requires IsNewSection(kind, tail, slot, line) && other != slot
    ensures Same(kind, lines, lines + tail, other, inside)
  {
    if lines == [] {
      assert lines + tail == tail;
      NewSectionAlone(kind, tail, slot, line);
    } else {
      assert (lines + tail)[1..] == lines[1..] + tail;
      NewSectionOthers(kind, lines[1..], tail, slot, line, other,
        if kind(lines[0]).Header? then kind(lines[0]).section == Some(other.section) else inside);
      if kind(lines[0]) == Header(Some(other.section)) {
        NewSectionOthers(kind, lines[1..], tail, slot, line, other, true);
      }
    }
  }

  lemma {:induction false} NoSectionNoSetting(kind: string -> Kind, lines: seq<string>, slot: Slot)
    requires !HasSection(kind, lines, slot.section)
    ensures Settings(kind, lines, slot, false) == [] && Found(kind, lines, slot) == None
  {
    if lines != [] {
      NoSectionNoSetting(kind, lines[1..], slot);
    }
  }

  // ---- The edit of a key -----------------------------------------------------------------

  /** A key, its value and whether the line is to be live or commented out. */
  datatype Change = Change(section: string, key: string, value: string, enabled: bool)

  function LineOf(c: Change): string {
    Wanted(c.key, c.value, c.enabled)
  }

  function SlotOf(c: Change): Slot {
    Slot(Id(c.section), Id(c.key))
  }

  predicate Good(c: Change) {
    GoodSection(c.section) && GoodKey(c.key)
  }

  /** The lines of a section opened at the end of the file. */
  function NewSection(lines: seq<string>, c: Change): seq<string> {
    Gap(lines) + [TitleLine(c.section), LineOf(c)]
  }

  function Gap(lines: seq<string>): seq<string> {
    if lines != [] && lines[|lines| - 1] != "" then [""] else []
  }

  function Edited(lines: seq<string>, c: Change): seq<string> {
    if HasSection(KindOf, lines, Id(c.section)) then EditFrom(KindOf, lines, SlotOf(c), LineOf(c), c.enabled)
    else if c.enabled then lines + NewSection(lines, c)
    else lines
  }

  lemma LineKind(c: Change)
    requires Good(c)
    ensures KindOf(LineOf(c)) == Setting(SlotOf(c).key) && IsCommented(LineOf(c)) == !c.enabled
  {
    WantedReadsBack(c.key, c.value, c.enabled);
  }

  lemma TitleKind(section: string)
    requires GoodSection(section)
    ensures KindOf(TitleLine(section)) == Header(Some(Id(section)))
    ensures KindOf("") == Plain
  {
    TitleReadsBack(section);
    BlankLine();
  }

  lemma NewSectionIs(kind: string -> Kind, gap: seq<string>, title: string, line: string, slot: Slot)
    requires |gap| <= 1 && (gap != [] ==> kind(gap[0]) == Plain)
    requires kind(title) == Header(Some(slot.section)) && kind(line) == Setting(slot.key)
    ensures IsNewSection(kind, gap + [title, line], slot, line)
  {
  }

  lemma NewSectionShape(lines: seq<string>, c: Change)
    requires Good(c)
    ensures IsNewSection(KindOf, NewSection(lines, c), SlotOf(c), LineOf(c))
  {
    LineKind(c);
    TitleKind(c.section);
    NewSectionIs(KindOf, Gap(lines), TitleLine(c.section), LineOf(c), SlotOf(c));
  }

  /** After an edit the file answers for the key as asked, strays aside. */
  lemma EditAnswers(lines: seq<string>, c: Change)
    requires Good(c)
    ensures Answers(KindOf, lines, Edited(lines, c), SlotOf(c), LineOf(c), c.enabled)
  {
    LineKind(c);
    if HasSection(KindOf, lines, Id(c.section)) {
      EditFromAnswers(KindOf, lines, SlotOf(c), LineOf(c), c.enabled);
    } else {
      NoSectionNoSetting(KindOf, lines, SlotOf(c));
      if c.enabled {
        NewSectionShape(lines, c);
        NewSectionAnswers(KindOf, lines, NewSection(lines, c), SlotOf(c), LineOf(c));
      }
    }
  }

  /** An edit of one key is invisible to every other key of the file. */
  lemma EditOthers(lines: seq<string>, c: Change, other: Slot)
    requires Good(c) && other != SlotOf(c)
    ensures Same(KindOf, lines, Edited(lines, c), other, false)
  {
    LineKind(c);
    if HasSection(KindOf, lines, Id(c.section)) {
      EditFromOthers(KindOf, lines, SlotOf(c), LineOf(c), c.enabled, other, false);
    } else if c.enabled {
      NewSectionShape(lines, c);
      NewSectionOthers(KindOf, lines, NewSection(lines, c), SlotOf(c), LineOf(c), other, false);
    }
  }

  lemma {:induction false} EditInsideIdle(kind: string -> Kind, lines: seq<string>, slot: Slot, line: string, enabled: bool)
    requires FoundAfter(FoundInside(kind, lines, slot), line, enabled) == FoundInside(kind, lines, slot)
    ensures EditInside(kind, lines, slot, line, enabled) == lines
  {
    if lines != [] {
      assert lines == [lines[0]] + lines[1..];
      match kind(lines[0])
      case Header(section) =>
        if section == Some(slot.section) {
          EditInsideIdle(kind, lines[1..], slot, line, enabled);
        }
      case Setting(key) =>
        if key != slot.key {
          EditInsideIdle(kind, lines[1..], slot, line, enabled);
        }
      case Plain =>
        EditInsideIdle(kind, lines[1..], slot, line, enabled);
    }
  }

  lemma {:induction false} EditFromIdle(kind: string -> Kind, lines: seq<string>, slot: Slot, line: string, enabled: bool)
    requires HasSection(kind, lines, slot.section)
    requires FoundAfter(Found(kind, lines, slot), line, enabled) == Found(kind, lines, slot)
    ensures EditFrom(kind, lines, slot, line, enabled) == lines
  {
    if kind(lines[0]) == Header(Some(slot.section)) {
      EditInsideIdle(kind, lines[1..], slot, line, enabled);
    } else {
      EditFromIdle(kind, lines[1..], slot, line, enabled);
    }
  }

  /** The key stands as the change asks. */
  predicate Settled(lines: seq<string>, c: Change) {
    FoundAfter(Found(KindOf, lines, SlotOf(c)), LineOf(c), c.enabled) == Found(KindOf, lines, SlotOf(c))
  }

  /** An edit leaves the file alone exactly when the key already stands as asked. */
  lemma EditIdleIff(lines: seq<string>, c: Change)
    requires Good(c)
    ensures Edited(lines, c) == lines <==> Settled(lines, c)
  {
    EditAnswers(lines, c);
    if Settled(lines, c) {
      if HasSection(KindOf, lines, Id(c.section)) {
        EditFromIdle(KindOf, lines, SlotOf(c), LineOf(c), c.enabled);
      } else {
        NoSectionNoSetting(KindOf, lines, SlotOf(c));
      }
    }
  }

  lemma EditIdempotent(lines: seq<string>, c: Change)
    requires Good(c)
    ensures Edited(Edited(lines, c), c) == Edited(lines, c)
  {
    EditAnswers(lines, c);
    EditIdleIff(Edited(lines, c), c);
  }

  /** A section that is not there is opened behind the last line, with a blank line
      before it unless there is one or the file is empty; for a key that is to be dead
      it is not opened. */
  lemma SectionOpened(lines: seq<string>, c: Change)
    requires !HasSection(KindOf, lines, Id(c.section))
    ensures Edited(lines, c) ==
      if !c.enabled then lines
      else if lines == [] || lines[|lines| - 1] == "" then lines + ["[" + c.section + "]", LineOf(c)]
      else lines + ["", "[" + c.section + "]", LineOf(c)]
  {
    assert [""] + [TitleLine(c.section), LineOf(c)] == ["", TitleLine(c.section), LineOf(c)];
    assert [] + [TitleLine(c.section), LineOf(c)] == [TitleLine(c.section), LineOf(c)];
  }

  // ---- Every other line ------------------------------------------------------------------

  ghost predicate Replaces(kind: string -> Kind, was: seq<string>, now: seq<string>, at: nat, line: string, key: string) {
    at < |was| && kind(was[at]) == Setting(key) && now == was[at := line]
  }

  ghost predicate Inserts(was: seq<string>, now: seq<string>, at: nat, line: string) {
    at <= |was| && now == was[..at] + [line] + was[at..]
  }

  /** A file that is another one but for one line put in or put over. */
  ghost predicate OneLine(kind: string -> Kind, was: seq<string>, now: seq<string>, line: string, key: string) {
    || was == now
    || (exists at :: Replaces(kind, was, now, at, line, key))
    || (exists at :: Inserts(was, now, at, line))
  }

  lemma OneLineBehind(kind: string -> Kind, was: seq<string>, now: seq<string>, line: string, key: string)
    requires was != [] && now != [] && was[0] == now[0]
    requires OneLine(kind, was[1..], now[1..], line, key)
    ensures OneLine(kind, was, now, line, key)
  {
    assert was == [was[0]] + was[1..] && now == [was[0]] + now[1..];
    if at: nat :| Replaces(kind, was[1..], now[1..], at, line, key) {
      assert Replaces(kind, was, now, at + 1, line, key);
    } else if at: nat :| Inserts(was[1..], now[1..], at, line) {
      assert was[..at + 1] == [was[0]] + was[1..][..at];
      assert Inserts(was, now, at + 1, line);
    }
  }

  lemma {:induction false} EditInsideOneLine(kind: string -> Kind, lines: seq<string>, slot: Slot, line: string, enabled: bool)
    ensures OneLine(kind, lines, EditInside(kind, lines, slot, line, enabled), line, slot.key)
  {
    var now := EditInside(kind, lines, slot, line, enabled);
    if lines == [] || (kind(lines[0]).Header? && kind(lines[0]).section != Some(slot.section)) {
      assert enabled ==> Inserts(lines, now, 0, line);
    } else if kind(lines[0]) == Setting(slot.key) {
      assert Replaces(kind, lines, now, 0, line, slot.key);
    } else {
      EditInsideOneLine(kind, lines[1..], slot, line, enabled);
      assert now[1..] == EditInside(kind, lines[1..], slot, line, enabled);
      OneLineBehind(kind, lines, now, line, slot.key);
    }
  }

  lemma {:induction false} EditFromOneLine(kind: string -> Kind, lines: seq<string>, slot: Slot, line: string, enabled: bool)
    requires HasSection(kind, lines, slot.section)
    ensures OneLine(kind, lines, EditFrom(kind, lines, slot, line, enabled), line, slot.key)
  {
    var now := EditFrom(kind, lines, slot, line, enabled);
    if kind(lines[0]) == Header(Some(slot.section)) {
      EditInsideOneLine(kind, lines[1..], slot, line, enabled);
      assert now[1..] == EditInside(kind, lines[1..], slot, line, enabled);
    } else {
      EditFromOneLine(kind, lines[1..], slot, line, enabled);
      assert now[1..] == EditFrom(kind, lines[1..], slot, line, enabled);
    }
    OneLineBehind(kind, lines, now, line, slot.key);
  }

  /** An edit keeps every other line, in order: it puts one line over a line of
      the key, puts one line in, or opens a section behind the last line. */
  lemma EditKeepsOtherLines(lines: seq<string>, c: Change)
    ensures || OneLine(KindOf, lines, Edited(lines, c), LineOf(c), SlotOf(c).key)
            || (c.enabled && Edited(lines, c) == lines + NewSection(lines, c))
  {
    if HasSection(KindOf, lines, Id(c.section)) {
      EditFromOneLine(KindOf, lines, SlotOf(c), LineOf(c), c.enabled);
    }
  }

  // ---- Many keys, one after the other ----------------------------------------------------

  function EditAll(lines: seq<string>, cs: seq<Change>): seq<string>
    decreases cs
  {
    if cs == [] then lines else EditAll(Edited(lines, cs[0]), cs[1..])
  }

  /** Whether some edit on the way found something to do. */
  predicate AnyEdit(lines: seq<string>, cs: seq<Change>)
    decreases cs
  {
    cs != [] && (Edited(lines, cs[0]) != lines || AnyEdit(Edited(lines, cs[0]), cs[1..]))
  }

  ghost predicate Separate(cs: seq<Change>) {
    && (forall i :: 0 <= i < |cs| ==> Good(cs[i]))
    && forall i, j :: 0 <= i < j < |cs| ==> SlotOf(cs[i]) != SlotOf(cs[j])
  }

  lemma {:induction false} EditAllOthers(lines: seq<string>, cs: seq<Change>, other: Slot)
    requires forall i :: 0 <= i < |cs| ==> Good(cs[i]) && SlotOf(cs[i]) != other
    ensures Same(KindOf, lines, EditAll(lines, cs), other, false)
    decreases cs
  {
    if cs != [] {
      EditOthers(lines, cs[0], other);
      EditAllOthers(Edited(lines, cs[0]), cs[1..], other);
    }
  }

  /** No edit of a run undoes another: in the end every key stands as if its
      edit had been the only one. */
  lemma {:induction false} EditAllAnswers(lines: seq<string>, cs: seq<Change>, k: nat)
    requires Separate(cs) && k < |cs|
    ensures Answers(KindOf, lines, EditAll(lines, cs), SlotOf(cs[k]), LineOf(cs[k]), cs[k].enabled)
    decreases cs
  {
    var next := Edited(lines, cs[0]);
    if k == 0 {
      EditAnswers(lines, cs[0]);
      EditAllOthers(next, cs[1..], SlotOf(cs[0]));
    } else {
      EditOthers(lines, cs[0], SlotOf(cs[k]));
      EditAllAnswers(next, cs[1..], k - 1);
    }
  }

  lemma {:induction false} SettledStays(lines: seq<string>, cs: seq<Change>)
    requires forall i :: 0 <= i < |cs| ==> Good(cs[i]) && Settled(lines, cs[i])
    ensures EditAll(lines, cs) == lines && !AnyEdit(lines, cs)
    decreases cs
  {
    if cs != [] {
      EditIdleIff(lines, cs[0]);
      SettledStays(lines, cs[1..]);
    }
  }

  /** A second run of the same edits does nothing. */
  lemma RerunIsIdle(lines: seq<string>, cs: seq<Change>)
    requires Separate(cs)
    ensures EditAll(EditAll(lines, cs), cs) == EditAll(lines, cs)
    ensures !AnyEdit(EditAll(lines, cs), cs)
  {
    var now := EditAll(lines, cs);
    forall i | 0 <= i < |cs| ensures Good(cs[i]) && Settled(now, cs[i]) {
      EditAllAnswers(lines, cs, i);
    }
    SettledStays(now, cs);
  }

  /** The file is reported changed exactly when its lines differ. */
  lemma {:induction false} AnyEditIff(lines: seq<string>, cs: seq<Change>)
    requires Separate(cs)
    ensures AnyEdit(lines, cs) <==> EditAll(lines, cs) != lines
    decreases cs
  {
    if cs != [] {
      var next := Edited(lines, cs[0]);
      if next == lines {
        AnyEditIff(lines, cs[1..]);
      } else {
        EditIdleIff(lines, cs[0]);
        EditAnswers(lines, cs[0]);
        EditAllOthers(next, cs[1..], SlotOf(cs[0]));
      }
    }
  }

  // ---- The limit rules -------------------------------------------------------------------

  datatype Rule = Rule(flaSection: string, flaKey: string, flaValue: string, olaKey: string, olaValue: string, preferOla: bool)

  const OLA_SECTION := "SALIMITS"

  function UsesOla(rule: Rule, preferOlaMode: bool, crashGuard: bool): bool {
    if crashGuard && !rule.preferOla then false else preferOlaMode && rule.preferOla
  }

  function FlaChange(rule: Rule, preferOlaMode: bool, crashGuard: bool): Change {
    Change(rule.flaSection, rule.flaKey, rule.flaValue, !UsesOla(rule, preferOlaMode, crashGuard))
  }

  function OlaChange(rule: Rule, preferOlaMode: bool, crashGuard: bool): Change {
    Change(OLA_SECTION, rule.olaKey, rule.olaValue, UsesOla(rule, preferOlaMode, crashGuard))
  }

  function FlaChanges(rules: seq<Rule>, preferOlaMode: bool, crashGuard: bool): (cs: seq<Change>)
    ensures |cs| == |rules|
    ensures forall i :: 0 <= i < |cs| ==> cs[i] == FlaChange(rules[i], preferOlaMode, crashGuard)
  {
    seq(|rules|, i requires 0 <= i < |rules| => FlaChange(rules[i], preferOlaMode, crashGuard))
  }

  function OlaChanges(rules: seq<Rule>, preferOlaMode: bool, crashGuard: bool): (cs: seq<Change>)
    ensures |cs| == |rules|
    ensures forall i :: 0 <= i < |cs| ==> cs[i] == OlaChange(rules[i], preferOlaMode, crashGuard)
  {
    seq(|rules|, i requires 0 <= i < |rules| => OlaChange(rules[i], preferOlaMode, crashGuard))
  }

  predicate GoodRule(r: Rule) {
    GoodSection(r.flaSection) && GoodKey(r.flaKey) && GoodKey(r.olaKey)
  }

  function FlaSlot(r: Rule): Slot {
    Slot(Id(r.flaSection), Id(r.flaKey))
  }

  function OlaSlot(r: Rule): Slot {
    Slot(Id(OLA_SECTION), Id(r.olaKey))
  }

  /** Rules the format can carry, each with its own key in each file. */
  ghost predicate GoodRules(rules: seq<Rule>) {
    && (forall i :: 0 <= i < |rules| ==> GoodRule(rules[i]))
    && forall i, j :: 0 <= i < j < |rules| ==> FlaSlot(rules[i]) != FlaSlot(rules[j]) && OlaSlot(rules[i]) != OlaSlot(rules[j])
  }

  lemma RulesAreSeparate(rules: seq<Rule>, preferOlaMode: bool, crashGuard: bool)
    requires GoodRules(rules)
    ensures Separate(FlaChanges(rules, preferOlaMode, crashGuard))
    ensures Separate(OlaChanges(rules, preferOlaMode, crashGuard))
  {
    var fla := FlaChanges(rules, preferOlaMode, crashGuard);
    var ola := OlaChanges(rules, preferOlaMode, crashGuard);
    forall i | 0 <= i < |rules| ensures Good(fla[i]) && Good(ola[i]) {
      RuleIsGood(rules[i], preferOlaMode, crashGuard);
    }
    forall i, j | 0 <= i < j < |rules| ensures SlotOf(fla[i]) != SlotOf(fla[j]) && SlotOf(ola[i]) != SlotOf(ola[j]) {
      RuleSlots(rules[i], preferOlaMode, crashGuard);
      RuleSlots(rules[j], preferOlaMode, crashGuard);
    }
  }

  lemma RuleIsGood(rule: Rule, preferOlaMode: bool, crashGuard: bool)
    requires GoodRule(rule)
    ensures Good(FlaChange(rule, preferOlaMode, crashGuard)) && Good(OlaChange(rule, preferOlaMode, crashGuard))
  {
  }

  lemma RuleSlots(rule: Rule, preferOlaMode: bool, crashGuard: bool)
    ensures SlotOf(FlaChange(rule, preferOlaMode, crashGuard)) == FlaSlot(rule)
    ensures SlotOf(OlaChange(rule, preferOlaMode, crashGuard)) == OlaSlot(rule)
  {
  }

  /** The adjuster that reads the file sees the limit: some live line sets it. */
  ghost predicate Active(lines: seq<string>, slot: Slot) {
    exists line :: line in Settings(KindOf, lines, slot, false) && !IsCommented(line)
  }

  /** A live line for the slot which the editor will not find. */
  ghost predicate LiveStray(lines: seq<string>, slot: Slot) {
    exists line :: line in Strays(KindOf, lines, slot) && !IsCommented(line)
  }

  lemma ActiveAfter(was: seq<string>, now: seq<string>, c: Change)
    requires Good(c) && Answers(KindOf, was, now, SlotOf(c), LineOf(c), c.enabled)
    ensures Active(now, SlotOf(c)) <==> c.enabled || LiveStray(was, SlotOf(c))
  {
    LineKind(c);
    var settings := Settings(KindOf, now, SlotOf(c), false);
    var strays := Strays(KindOf, was, SlotOf(c));
    assert forall line :: line in strays ==> line in settings;
    assert forall line :: line in settings ==> line in strays || line == LineOf(c);
    if c.enabled {
      assert settings[0] == LineOf(c) && LineOf(c) in settings;
    }
  }

  /** After the rules have run each limit is live in its owner's file, and it is
      live in that file alone exactly when the other file held no live line for
      it behind the one the editor finds. */
  lemma OneOwnerIff(fla: seq<string>, ola: seq<string>, rules: seq<Rule>, preferOlaMode: bool, crashGuard: bool, k: nat)
    requires GoodRules(rules) && k < |rules|
    ensures var useOla := UsesOla(rules[k], preferOlaMode, crashGuard);
            var flaActive := Active(EditAll(fla, FlaChanges(rules, preferOlaMode, crashGuard)), FlaSlot(rules[k]));
            var olaActive := Active(EditAll(ola, OlaChanges(rules, preferOlaMode, crashGuard)), OlaSlot(rules[k]));
            && (if useOla then olaActive else flaActive)
            && (flaActive != olaActive
                <==> !(if useOla then LiveStray(fla, FlaSlot(rules[k])) else LiveStray(ola, OlaSlot(rules[k]))))
  {
    RulesAreSeparate(rules, preferOlaMode, crashGuard);
    var flaChanges := FlaChanges(rules, preferOlaMode, crashGuard);
    var olaChanges := OlaChanges(rules, preferOlaMode, crashGuard);
    EditAllAnswers(fla, flaChanges, k);
    ActiveAfter(fla, EditAll(fla, flaChanges), flaChanges[k]);
    EditAllAnswers(ola, olaChanges, k);
    ActiveAfter(ola, EditAll(ola, olaChanges), olaChanges[k]);
  }

  /** The line the rules leave for each limit: with the rule's own key and value for
      that file, live in the second adjuster's file exactly when it is preferred
      there and preferred at all, and live in the first one's otherwise. A live line
      is written anew, a dead one only in place of one that was there. */
  lemma OwnersLines(fla: seq<string>, ola: seq<string>, rules: seq<Rule>, preferOlaMode: bool, crashGuard: bool, k: nat)
    requires GoodRules(rules) && k < |rules|
    ensures var r, useOla := rules[k], preferOlaMode && rules[k].preferOla;
      var flaNow, olaNow := EditAll(fla, FlaChanges(rules, preferOlaMode, crashGuard)), EditAll(ola, OlaChanges(rules, preferOlaMode, crashGuard));
      && Found(KindOf, flaNow, Slot(Id(r.flaSection), Id(r.flaKey))) ==
         (if !useOla || Found(KindOf, fla, Slot(Id(r.flaSection), Id(r.flaKey))).Some?
          then Some(Wanted(r.flaKey, r.flaValue, !useOla)) else None)
      && Found(KindOf, olaNow, Slot(Id("SALIMITS"), Id(r.olaKey))) ==
         (if useOla || Found(KindOf, ola, Slot(Id("SALIMITS"), Id(r.olaKey))).Some?
          then Some(Wanted(r.olaKey, r.olaValue, useOla)) else None)
  {
    RulesAreSeparate(rules, preferOlaMode, crashGuard);
    EditAllAnswers(fla, FlaChanges(rules, preferOlaMode, crashGuard), k);
    EditAllAnswers(ola, OlaChanges(rules, preferOlaMode, crashGuard), k);
  }

  /** The coordinator run again with the same decision leaves both files alone. */
  lemma SecondRunIsIdle(fla: seq<string>, ola: seq<string>, rules: seq<Rule>, preferOlaMode: bool, crashGuard: bool)
    requires GoodRules(rules)
    ensures !AnyEdit(EditAll(fla, FlaChanges(rules, preferOlaMode, crashGuard)), FlaChanges(rules, preferOlaMode, crashGuard))
    ensures !AnyEdit(EditAll(ola, OlaChanges(rules, preferOlaMode, crashGuard)), OlaChanges(rules, preferOlaMode, crashGuard))
  {
    RulesAreSeparate(rules, preferOlaMode, crashGuard);
    RerunIsIdle(fla, FlaChanges(rules, preferOlaMode, crashGuard));
    RerunIsIdle(ola, OlaChanges(rules, preferOlaMode, crashGuard));
  }

  /** A file that sets each key at most once, in a first block of its section,
      leaves the editor no stray. */
  lemma NoDuplicateNoStray(lines: seq<string>, slot: Slot)
    requires |Settings(KindOf, lines, slot, false)| <= 1
    requires Found(KindOf, lines, slot) == None ==> Settings(KindOf, lines, slot, false) == []
    ensures !LiveStray(lines, slot)
  {
    FoundIsFirst(KindOf, lines, slot);
  }

  lemma {:induction false} FoundIsFirst(kind: string -> Kind, lines: seq<string>, slot: Slot)
    ensures Found(kind, lines, slot).Some? ==>
      Settings(kind, lines, slot, false) != [] && Settings(kind, lines, slot, false)[0] == Found(kind, lines, slot).value
    ensures FoundInside(kind, lines, slot).Some? ==>
      Settings(kind, lines, slot, true) != [] && Settings(kind, lines, slot, true)[0] == FoundInside(kind, lines, slot).value
  {
    if lines != [] {
      FoundIsFirst(kind, lines[1..], slot);
    }
  }

  // ---- The editor ------------------------------------------------------------------------

  /** The edited file as the scan sees it at line `i`. */
  ghost function View(kind: string -> Kind, lines: seq<string>, i: nat, inSection: bool, slot: Slot, line: string, enabled: bool)
    : seq<string>
    requires i <= |lines|
  {
    lines[..i] + (if inSection then EditInside(kind, lines[i..], slot, line, enabled)
                  else EditFrom(kind, lines[i..], slot, line, enabled))
  }

  /** Where the scan stands: in the section, or with the section still ahead if
      the file has one. */
  ghost predicate Scanned(kind: string -> Kind, lines: seq<string>, i: nat, inSection: bool, slot: Slot, line: string, enabled: bool) {
    && i <= |lines|
    && HasSection(kind, lines, slot.section) == (inSection || HasSection(kind, lines[i..], slot.section))
    && EditFrom(kind, lines, slot, line, enabled) == View(kind, lines, i, inSection, slot, line, enabled)
  }

  /** A line that neither ends the section nor holds the key moves the scan on. */
  lemma ScanStep(kind: string -> Kind, lines: seq<string>, i: nat, inSection: bool, slot: Slot, line: string, enabled: bool)
    requires Scanned(kind, lines, i, inSection, slot, line, enabled) && i < |lines|
    requires inSection ==> kind(lines[i]) != Setting(slot.key)
    requires inSection && kind(lines[i]).Header? ==> kind(lines[i]) == Header(Some(slot.section))
    ensures Scanned(kind, lines, i + 1, inSection || kind(lines[i]) == Header(Some(slot.section)), slot, line, enabled)
  {
    var rest := if inSection || kind(lines[i]) == Header(Some(slot.section))
      then EditInside(kind, lines[i + 1..], slot, line, enabled)
      else EditFrom(kind, lines[i + 1..], slot, line, enabled);
    Regroup(lines, i, rest);
  }

  lemma Regroup(lines: seq<string>, i: nat, rest: seq<string>)
    requires i < |lines|
    ensures lines[i..][0] == lines[i] && lines[i..][1..] == lines[i + 1..]
    ensures lines[..i] + ([lines[i]] + rest) == lines[..i + 1] + rest
  {
  }

  /** The scan stops on the key's line, or where the section or the file ends. */
  lemma ScanStops(kind: string -> Kind, lines: seq<string>, i: nat, inSection: bool, slot: Slot, line: string, enabled: bool)
    requires Scanned(kind, lines, i, inSection, slot, line, enabled)
    ensures inSection && i < |lines| && kind(lines[i]) == Setting(slot.key) ==>
      EditFrom(kind, lines, slot, line, enabled) == lines[i := line]
    ensures inSection && (i < |lines| ==> kind(lines[i]).Header? && kind(lines[i]) != Header(Some(slot.section))) ==>
      EditFrom(kind, lines, slot, line, enabled) == if enabled then lines[..i] + [line] + lines[i..] else lines
    ensures !inSection && i == |lines| ==> !HasSection(kind, lines, slot.section)
  {
    if i < |lines| {
      assert lines[i..][0] == lines[i] && lines[i..][1..] == lines[i + 1..];
      assert lines[..i] + ([line] + lines[i + 1..]) == lines[i := line];
      assert lines[..i] + ([line] + lines[i..]) == lines[..i] + [line] + lines[i..];
    }
    assert lines[..i] + lines[i..] == lines;
  }

  /** The pass over the lines: whether the section was met, and either the key's
      line or the place behind the section's last one. */
  method Scan(kind: string -> Kind, lines: seq<string>, slot: Slot) returns (inSection: bool, at: nat, hit: bool)
    ensures hit ==> inSection
    ensures inSection ==> at <= |lines|
    ensures HasSection(kind, lines, slot.section) == inSection
    ensures forall line, enabled :: inSection ==>
      EditFrom(kind, lines, slot, line, enabled)
      == if hit && at < |lines| then lines[at := line] else if enabled then lines[..at] + [line] + lines[at..] else lines
    ensures hit ==> at < |lines|
  {
    inSection, hit := false, false;
    at := |lines|;
    var i := 0;
    while i < |lines|
      invariant i <= |lines|
      invariant forall line, enabled :: Scanned(kind, lines, i, inSection, slot, line, enabled)
      invariant inSection ==> at == i
    {
      var here := kind(lines[i]);
      if here.Header? && inSection && here.section != Some(slot.section) {
        break;
      }
      if inSection && here == Setting(slot.key) {
        hit := true;
        break;
      }
      var inside := inSection || here == Header(Some(slot.section));
      var next := i + 1;
      forall line, enabled ensures Scanned(kind, lines, next, inside, slot, line, enabled) {
        ScanStep(kind, lines, i, inSection, slot, line, enabled);
      }
      inSection, i := inside, next;
      if inSection {
        at := i;
      }
    }
    forall line, enabled
      ensures inSection ==>
        EditFrom(kind, lines, slot, line, enabled)
        == if hit && at < |lines| then lines[at := line] else if enabled then lines[..at] + [line] + lines[at..] else lines
      ensures HasSection(kind, lines, slot.section) == inSection
    {
      ScanStops(kind, lines, i, inSection, slot, line, enabled);
    }
    assert HasSection(kind, lines, slot.section) == inSection by {
      ScanStops(kind, lines, i, inSection, slot, "", false);
    }
  }

  class IniFile {
    var lines: seq<string>

    constructor (text: seq<string>)
      ensures lines == text
    {
      lines := text;
    }

    /** At most one line changes, or a section is opened at the end. */
    method SetIniKey(c: Change) returns (changed: bool)
      modifies this
      ensures lines == Edited(old(lines), c)
      ensures changed <==> lines != old(lines)
    {
      var wanted := LineOf(c);
      var inSection, at, hit := Scan(KindOf, lines, SlotOf(c));
      if hit {
        if lines[at] == wanted {
          return false;
        }
        lines := lines[at := wanted];
        return true;
      }
      if !c.enabled {
        return false;
      }
      if inSection {
        lines := lines[..at] + [wanted] + lines[at..];
      } else {
        OpenSection(c, wanted);
      }
      return true;
    }

    /** The section opened at the end, behind a gap unless there is one. */
    method OpenSection(c: Change, wanted: string)
      requires wanted == LineOf(c)
      modifies this
      ensures lines == old(lines) + NewSection(old(lines), c)
    {
      if lines != [] && lines[|lines| - 1] != "" {
        lines := lines + [""];
      }
      lines := lines + [TitleLine(c.section)];
      lines := lines + [wanted];
    }
  }

  /** The rules of the coordinator, one after the other, on both files. */
  method ApplyRules(rules: seq<Rule>, preferOlaMode: bool, crashGuard: bool, fla: IniFile, ola: IniFile)
    returns (flaChanged: bool, olaChanged: bool)
    requires fla != ola
    modifies fla, ola
    ensures fla.lines == EditAll(old(fla.lines), FlaChanges(rules, preferOlaMode, crashGuard))
    ensures ola.lines == EditAll(old(ola.lines), OlaChanges(rules, preferOlaMode, crashGuard))
    ensures flaChanged == AnyEdit(old(fla.lines), FlaChanges(rules, preferOlaMode, crashGuard))
    ensures olaChanged == AnyEdit(old(ola.lines), OlaChanges(rules, preferOlaMode, crashGuard))
  {
    flaChanged, olaChanged := false, false;
    ghost var flaChanges := FlaChanges(rules, preferOlaMode, crashGuard);
    ghost var olaChanges := OlaChanges(rules, preferOlaMode, crashGuard);
    var i := 0;
    while i < |rules|
      invariant i <= |rules|
      invariant EditAll(old(fla.lines), flaChanges) == EditAll(fla.lines, flaChanges[i..])
      invariant EditAll(old(ola.lines), olaChanges) == EditAll(ola.lines, olaChanges[i..])
      invariant AnyEdit(old(fla.lines), flaChanges) == (flaChanged || AnyEdit(fla.lines, flaChanges[i..]))
      invariant AnyEdit(old(ola.lines), olaChanges) == (olaChanged || AnyEdit(ola.lines, olaChanges[i..]))
    {
      assert flaChanges[i..][1..] == flaChanges[i + 1..] && olaChanges[i..][1..] == olaChanges[i + 1..];
      var changed := fla.SetIniKey(FlaChange(rules[i], preferOlaMode, crashGuard));
      flaChanged := flaChanged || changed;
      changed := ola.SetIniKey(OlaChange(rules[i], preferOlaMode, crashGuard));
      olaChanged := olaChanged || changed;
      i := i + 1;
    }
  }

  // ---- The rules the coordinator ships ---------------------------------------------------

  const FLA_KEYS: seq<string> := [
    "PtrNode Singles", "PtrNode Doubles", "EntryInfoNodes", "Tasks", "Events", "PointRoute", "PatrolRoute",
    "NodeRoute", "TaskAllocator", "PedAttractors", "VehicleStructs", "Visible entity pointers",
    "Visible LOD pointers", "Alpha entity list limit", "Coronas", "ColModels", "Matrices", "rwObjectInstances"
  ]

  const OLA_KEYS: seq<string> := [
    "PtrNodeSingle", "PtrNodeDouble", "EntryInfoNode", "Task", "Event", "PointRoute", "PatrolRoute",
    "NodeRoute", "TaskAllocator", "PedAttractors", "VehicleStructs", "VisibleEntityPtrs", "VisibleLodPtrs",
    "AlphaEntityList", "Coronas", "ColModel", "MatrixList", "StreamingObjectInstancesList"
  ]

  const RULES: seq<Rule> := [
    Rule("DYNAMIC LIMITS", FLA_KEYS[0], "300000", OLA_KEYS[0], "unlimited", true),
    Rule("DYNAMIC LIMITS", FLA_KEYS[1], "150000", OLA_KEYS[1], "unlimited", true),
    Rule("DYNAMIC LIMITS", FLA_KEYS[2], "150000", OLA_KEYS[2], "unlimited", true),
    Rule("DYNAMIC LIMITS", FLA_KEYS[3], "3000", OLA_KEYS[3], "unlimited", true),
    Rule("DYNAMIC LIMITS", FLA_KEYS[4], "1000", OLA_KEYS[4], "unlimited", true),
    Rule("DYNAMIC LIMITS", FLA_KEYS[5], "256", OLA_KEYS[5], "unlimited", true),
    Rule("DYNAMIC LIMITS", FLA_KEYS[6], "256", OLA_KEYS[6], "unlimited", true),
    Rule("DYNAMIC LIMITS", FLA_KEYS[7], "512", OLA_KEYS[7], "unlimited", true),
    Rule("DYNAMIC LIMITS", FLA_KEYS[8], "128", OLA_KEYS[8], "unlimited", true),
    Rule("DYNAMIC LIMITS", FLA_KEYS[9], "300", OLA_KEYS[9], "unlimited", true),
    Rule("DYNAMIC LIMITS", FLA_KEYS[10], "256", OLA_KEYS[10], "unlimited", true),
    Rule("RENDERER LIMITS", FLA_KEYS[11], "10000", OLA_KEYS[11], "unlimited", true),
    Rule("RENDERER LIMITS", FLA_KEYS[12], "10000", OLA_KEYS[12], "unlimited", true),
    Rule("VISIBILITY LIMITS", FLA_KEYS[13], "2000", OLA_KEYS[13], "unlimited", true),
    Rule("OTHER LIMITS", FLA_KEYS[14], "8192", OLA_KEYS[14], "20000", true),
    Rule("DYNAMIC LIMITS", FLA_KEYS[15], "30000", OLA_KEYS[15], "unlimited", false),
    Rule("DYNAMIC LIMITS", FLA_KEYS[16], "150000", OLA_KEYS[16], "unlimited", false),
    Rule("DYNAMIC LIMITS", FLA_KEYS[17], "20000", OLA_KEYS[17], "30000", false)
  ]

  predicate Differ(a: string, b: string, at: nat) {
    |a| != |b| || (at < |a| && LowerChar(a[at]) != LowerChar(b[at]))
  }

  lemma DifferentIds(a: string, b: string)
    requires '\0' !in a && '\0' !in b && exists at :: Differ(a, b, at)
    ensures Id(a) != Id(b)
  {
    assert a[..IndexOf(a, '\0')] == a && b[..IndexOf(b, '\0')] == b;
  }

  predicate IsWordChar(c: char) {
    c == ' ' || 'A' <= c <= 'Z' || 'a' <= c <= 'z'
  }

  lemma EarlyFlaKeys(i: nat, p: nat)
    requires i < 9 && p < |FLA_KEYS[i]|
    ensures IsWordChar(FLA_KEYS[i][p])
  {
  }

  lemma LateFlaKeys(i: nat, p: nat)
    requires 9 <= i < |FLA_KEYS| && p < |FLA_KEYS[i]|
    ensures IsWordChar(FLA_KEYS[i][p])
  {
  }

  lemma EarlyOlaKeys(i: nat, p: nat)
    requires i < 9 && p < |OLA_KEYS[i]|
    ensures IsWordChar(OLA_KEYS[i][p])
  {
  }

  lemma LateOlaKeys(i: nat, p: nat)
    requires 9 <= i < |OLA_KEYS| && p < |OLA_KEYS[i]|
    ensures IsWordChar(OLA_KEYS[i][p])
  {
  }

  lemma KeysOfRules(i: nat)
    requires i < |RULES|
    ensures i < |FLA_KEYS| == |OLA_KEYS| && RULES[i].flaKey == FLA_KEYS[i] && RULES[i].olaKey == OLA_KEYS[i]
    ensures GoodSection(RULES[i].flaSection)
  {
  }

  lemma FlaKeysDiffer(i: nat, j: nat)
    requires i < j < |FLA_KEYS|
    ensures Differ(FLA_KEYS[i], FLA_KEYS[j], 8) || Differ(FLA_KEYS[i], FLA_KEYS[j], 0)
  {
  }

  lemma OlaKeysDiffer(i: nat, j: nat)
    requires i < j < |OLA_KEYS|
    ensures Differ(OLA_KEYS[i], OLA_KEYS[j], 7) || Differ(OLA_KEYS[i], OLA_KEYS[j], 0)
  {
  }

  /** The shipped rules give every limit a key of its own in each file. */
  lemma ShippedRulesAreGood()
    ensures GoodRules(RULES)
  {
    forall i | 0 <= i < |RULES| ensures GoodRule(RULES[i]) {
      ShippedKeysAreGood(i);
      KeysOfRules(i);
    }
    forall i, j | 0 <= i < j < |RULES|
      ensures FlaSlot(RULES[i]) != FlaSlot(RULES[j]) && OlaSlot(RULES[i]) != OlaSlot(RULES[j])
    {
      KeysOfRules(i);
      KeysOfRules(j);
      ShippedKeysAreGood(i);
      ShippedKeysAreGood(j);
      FlaKeysDiffer(i, j);
      OlaKeysDiffer(i, j);
      DifferentIds(FLA_KEYS[i], FLA_KEYS[j]);
      DifferentIds(OLA_KEYS[i], OLA_KEYS[j]);
    }
  }

  lemma ShippedKeysAreGood(i: nat)
    requires i < |RULES|
    ensures i < |FLA_KEYS| == |OLA_KEYS|
    ensures GoodKey(FLA_KEYS[i]) && GoodKey(OLA_KEYS[i]) && '\0' !in FLA_KEYS[i] && '\0' !in OLA_KEYS[i]
  {
    forall p: nat | p < |FLA_KEYS[i]| ensures IsWordChar(FLA_KEYS[i][p]) {
      if i < 9 { EarlyFlaKeys(i, p); } else { LateFlaKeys(i, p); }
    }
    forall p: nat | p < |OLA_KEYS[i]| ensures IsWordChar(OLA_KEYS[i][p]) {
      if i < 9 { EarlyOlaKeys(i, p); } else { LateOlaKeys(i, p); }
    }
    KeyEnds(i);
  }

  lemma KeyEnds(i: nat)
    requires i < |RULES|
    ensures i < |FLA_KEYS| == |OLA_KEYS| && Solid(FLA_KEYS[i]) && Solid(OLA_KEYS[i])
  {
  }
}
