// The state journal: between BeginTransaction and Restore it is the effect's
// state manager, saves the first value of every piece of state it is about to
// overwrite, and puts the saved values back at the end.
module StateJournal {
  import opened Words
  import opened DeviceState

  datatype Result = Ok | Inactive | InvalidCall | Unexpected | DeviceError | Refused {
    predicate Failed() {
      this != Ok && this != Inactive
    }
  }

  /** The wrapped device. It may answer any read or write with a failure; a call
      that fails changes nothing. */
  class Device {
    var contents: State
    var faults: seq<bool>

    constructor (initial: State, faults: seq<bool>)
      ensures contents == initial && this.faults == faults
    {
      contents := initial;
      this.faults := faults;
    }

    /** Takes the next scripted fault, if one is left. */
    method Answers() returns (ok: bool)
      modifies this`faults
      ensures ok == (old(faults) == [] || old(faults)[0])
      ensures faults == if old(faults) == [] then [] else old(faults)[1..]
    {
      ok := true;
      if faults != [] {
        ok := faults[0];
        faults := faults[1..];
      }
    }

    method Get(bank: Bank, start: nat, count: nat) returns (ok: bool, values: seq<Value>)
      modifies this`faults
      ensures ok ==> Has(contents, bank, start, count) && values == ReadRange(contents, bank, start, count)
      ensures old(faults) == [] ==> faults == [] && ok == Has(contents, bank, start, count)
    {
      ok := Answers();
      ok := ok && Has(contents, bank, start, count);
      values := if ok then ReadRange(contents, bank, start, count) else [];
    }

    method Set(range: Range) returns (ok: bool)
      modifies this
      ensures contents == if ok then old(contents) + RangeMap(range) else old(contents)
      ensures ok ==> Has(old(contents), range.bank, range.start, |range.values|)
      ensures contents.Keys == old(contents).Keys
      ensures old(faults) == [] ==>
        faults == [] && ok == Has(old(contents), range.bank, range.start, |range.values|)
    {
      ok := Answers();
      ok := ok && Has(contents, range.bank, range.start, |range.values|);
      if ok {
        contents := contents + RangeMap(range);
      }
    }
  }

  // ---- One bounded bank of the journal -----------------------------------------

  datatype Span = Span(start: nat, count: nat) {
    predicate Covers(i: int) {
      start <= i < start + count
    }
  }

  predicate Covered(spans: seq<Span>, i: nat) {
    spans != [] && (spans[|spans| - 1].Covers(i) || Covered(spans[..|spans| - 1], i))
  }

  /** The journal's fields for one bank. A register is saved when its stamp is the
      current generation; spans list the saved runs in the order they were read. */
  datatype Saves = Saves(bank: Bank, stamps: seq<u32>, values: seq<Value>, spans: seq<Span>) {

    /** What is left between transactions: spans are forgotten, stamps stay. */
    predicate Idle(generation: u32) {
      && |stamps| == |values|
      && forall i :: 0 <= i < |stamps| ==> stamps[i] <= generation
    }

    predicate Saved(generation: u32, i: nat) {
      i < |stamps| && stamps[i] == generation
    }

    ghost function SavedSet(generation: u32): set<nat> {
      set i: nat | i < |stamps| && Saved(generation, i)
    }

    ghost predicate Valid(generation: u32) {
      && Idle(generation)
      && |spans| <= |SavedSet(generation)|
      && (forall i: nat :: Saved(generation, i) <==> Covered(spans, i))
      && (forall s :: 0 <= s < |spans| ==> spans[s].start + spans[s].count <= |stamps|)
    }

    ghost predicate Empty(generation: u32) {
      Valid(generation) && forall i: nat :: !Saved(generation, i)
    }

    /** Starts a new generation; `wrapped` says that its counter has overflowed. */
    function Prepare(wrapped: bool): Saves {
      this.(stamps := if wrapped then seq(|stamps|, _ => 0) else stamps, spans := [])
    }

    lemma PrepareEmpties(before: u32, generation: u32, wrapped: bool)
      requires Idle(before) && generation == if wrapped then 1 else before + 1
      ensures Prepare(wrapped).Empty(generation)
    {
    }

    /** Stores the values of a run that the device has just returned. */
    function Store(generation: u32, start: nat, read: seq<Value>): Saves
      requires Idle(generation) && start + |read| <= |stamps|
    {
      Saves(bank, Overwrite(stamps, start, seq(|read|, _ => generation)), Overwrite(values, start, read),
            spans + [Span(start, |read|)])
    }

    lemma StoreValid(generation: u32, start: nat, read: seq<Value>)
      requires Valid(generation) && read != [] && start + |read| <= |stamps|
      requires forall i :: start <= i < start + |read| ==> !Saved(generation, i)
      ensures var after := Store(generation, start, read);
        && after.Valid(generation)
        && (forall i: nat :: after.Saved(generation, i) <==> Saved(generation, i) || start <= i < start + |read|)
        && (forall i: nat :: i < |values| && !(start <= i < start + |read|) ==> after.values[i] == values[i])
    {
      var after := Store(generation, start, read);
      assert after.spans[..|spans|] == spans;
      assert start in after.SavedSet(generation);
      SubsetSize(SavedSet(generation) + {start}, after.SavedSet(generation));
    }

    /** There is always a free span: each holds a register no earlier one held. */
    lemma SpanFree(generation: u32, missing: nat)
      requires Valid(generation) && missing < |stamps| && !Saved(generation, missing)
      ensures |spans| < |stamps|
    {
      SubsetSize(SavedSet(generation), Below(|stamps|) - {missing});
    }

    /** Saved values stay; what `after` saves in addition lies in the range and is
        what the device holds there. */
    ghost predicate Grew(after: Saves, generation: u32, start: nat, end: nat, contents: State) {
      && after.bank == bank
      && |stamps| == |values| == |after.stamps| == |after.values|
      && (forall i: nat :: Saved(generation, i) ==> after.Saved(generation, i) && after.values[i] == values[i])
      && (forall i: nat :: after.Saved(generation, i) && !Saved(generation, i) ==>
            start <= i < end && Key(bank, i) in contents && after.values[i] == contents[Key(bank, i)])
    }

    lemma GrewStep(mid: Saves, generation: u32, start: nat, end: nat, contents: State, runStart: nat, read: seq<Value>)
      requires Grew(mid, generation, start, end, contents) && mid.Valid(generation)
      requires read != [] && start <= runStart && runStart + |read| <= end <= |mid.stamps|
      requires forall i :: runStart <= i < runStart + |read| ==> !mid.Saved(generation, i)
      requires Has(contents, bank, runStart, |read|) && read == ReadRange(contents, bank, runStart, |read|)
      ensures Grew(mid.Store(generation, runStart, read), generation, start, end, contents)
    {
      mid.StoreValid(generation, runStart, read);
    }

    function SpanRange(s: nat): Range
      requires s < |spans| && spans[s].start + spans[s].count <= |values|
    {
      Range(bank, spans[s].start, values[spans[s].start..spans[s].start + spans[s].count])
    }
  }

  /** Reads every register of the range not saved yet, one device read for each
      maximal run of such registers. */
  method Capture(device: Device, saves: Saves, generation: u32, start: nat, count: nat)
    returns (result: Result, after: Saves)
    requires saves.Valid(generation)
    modifies device`faults
    ensures after.Valid(generation)
    ensures result == Ok || result == InvalidCall || result == DeviceError
    ensures result == InvalidCall <==> count != 0 && !(start < |saves.stamps| && count <= |saves.stamps| - start)
    ensures result == Ok && count != 0 ==> forall i :: start <= i < start + count ==> after.Saved(generation, i)
    ensures saves.Grew(after, generation, start, start + count, device.contents)
    ensures old(device.faults) == [] ==> device.faults == []
    ensures old(device.faults) == [] && result != InvalidCall && Has(device.contents, saves.bank, start, count) ==> result == Ok
  {
    after := saves;
    if count == 0 {
      return Ok, after;
    }
    if start >= |saves.stamps| || count > |saves.stamps| - start {
      return InvalidCall, after;
    }
    var end := start + count;
    var cursor := start;
    while cursor < end
      invariant start <= cursor <= end && after.Valid(generation)
      invariant forall i :: start <= i < cursor ==> after.Saved(generation, i)
      invariant saves.Grew(after, generation, start, end, device.contents)
      invariant old(device.faults) == [] ==> device.faults == []
    {
      while cursor < end && after.stamps[cursor] == generation
        invariant start <= cursor <= end
        invariant forall i :: start <= i < cursor ==> after.Saved(generation, i)
      {
        cursor := cursor + 1;
      }
      if cursor == end {
        break;
      }
      var runStart := cursor;
      while cursor < end && after.stamps[cursor] != generation
        invariant runStart <= cursor <= end
        invariant cursor == runStart ==> !after.Saved(generation, cursor)
        invariant forall i :: runStart <= i < cursor ==> !after.Saved(generation, i)
      {
        cursor := cursor + 1;
      }
      var ok, read := device.Get(saves.bank, runStart, cursor - runStart);
      if !ok {
        return DeviceError, after;
      }
      after.SpanFree(generation, runStart);
      if |after.spans| >= |after.stamps| {
        return Unexpected, after;  // never happens: see the second postcondition
      }
      after.StoreValid(generation, runStart, read);
      saves.GrewStep(after, generation, start, end, device.contents, runStart, read);
      after := after.Store(generation, runStart, read);
    }
    return Ok, after;
  }

  /** Writes the saved runs back, newest first; reports whether all were taken. */
  method WriteBack(device: Device, saves: Saves, generation: u32) returns (ok: bool)
    requires saves.Valid(generation)
    modifies device
    ensures UnsavedSame(saves, old(device.contents), device.contents, generation)
    ensures ok ==> AllWritten(saves, device.contents, generation, [])
    ensures old(device.faults) == [] ==> device.faults == [] && (SavedPresent(saves, old(device.contents), generation) ==> ok)
  {
    ok := true;
    var i := |saves.spans|;
    ghost var start := device.contents;
    assert saves.spans[..i] == saves.spans;
    while i > 0
      invariant 0 <= i <= |saves.spans|
      invariant UnsavedSame(saves, start, device.contents, generation)
      invariant ok ==> AllWritten(saves, device.contents, generation, saves.spans[..i])
      invariant old(device.faults) == [] ==> device.faults == [] && (SavedPresent(saves, start, generation) ==> ok)
    {
      i := i - 1;
      ghost var before := device.contents;
      if SavedPresent(saves, start, generation) {
        SavedHas(saves, before, generation, i);
      }
      var written := device.Set(saves.SpanRange(i));
      if written {
        SpanStep(saves, start, before, generation, i);
      }
      ok := ok && written;
    }
  }

  ghost predicate IsSaved(saves: Saves, generation: u32, k: Key) {
    k.bank == saves.bank && saves.Saved(generation, k.index)
  }

  ghost predicate SavedPresent(saves: Saves, contents: State, generation: u32) {
    forall i: nat :: saves.Saved(generation, i) ==> Key(saves.bank, i) in contents
  }

  ghost predicate UnsavedSame(saves: Saves, before: State, after: State, generation: u32) {
    && after.Keys == before.Keys
    && forall k :: k in after && !IsSaved(saves, generation, k) ==> after[k] == before[k]
  }

  /** Every saved register outside the spans still to do holds its saved value. */
  ghost predicate AllWritten(saves: Saves, contents: State, generation: u32, todo: seq<Span>)
    requires saves.Idle(generation)
  {
    forall i: nat :: saves.Saved(generation, i) && !Covered(todo, i) ==>
      Key(saves.bank, i) in contents && contents[Key(saves.bank, i)] == saves.values[i]
  }

  lemma {:induction false} CoveredIn(spans: seq<Span>, s: nat, i: nat)
    requires s < |spans| && spans[s].Covers(i)
    ensures Covered(spans, i)
  {
    if s < |spans| - 1 {
      CoveredIn(spans[..|spans| - 1], s, i);
    }
  }

  lemma SavedHas(saves: Saves, contents: State, generation: u32, s: nat)
    requires saves.Valid(generation) && s < |saves.spans| && SavedPresent(saves, contents, generation)
    ensures Has(contents, saves.bank, saves.spans[s].start, saves.spans[s].count)
  {
    forall i | saves.spans[s].start <= i < saves.spans[s].start + saves.spans[s].count
      ensures Key(saves.bank, i) in contents
    {
      CoveredIn(saves.spans, s, i);
    }
  }

  lemma SpanStep(saves: Saves, start: State, before: State, generation: u32, s: nat)
    requires saves.Valid(generation) && s < |saves.spans|
    requires UnsavedSame(saves, start, before, generation)
    requires Has(before, saves.bank, saves.spans[s].start, saves.spans[s].count)
    ensures var after := before + RangeMap(saves.SpanRange(s));
      && UnsavedSame(saves, start, after, generation)
      && (AllWritten(saves, before, generation, saves.spans[..s + 1]) ==> AllWritten(saves, after, generation, saves.spans[..s]))
  {
    var range := RangeMap(saves.SpanRange(s));
    forall k | k in range
      ensures IsSaved(saves, generation, k) && k in before && range[k] == saves.values[k.index]
    {
      CoveredIn(saves.spans, s, k.index);
    }
    assert saves.spans[..s + 1][..s] == saves.spans[..s];
    assert (before + range).Keys == before.Keys;
  }

  ghost function Below(n: nat): (all: set<nat>)
    ensures |all| == n && forall i: nat :: i in all <==> i < n
  {
    if n == 0 then {} else Below(n - 1) + {n - 1}
  }

  lemma {:induction false} SubsetSize<T>(a: set<T>, b: set<T>)
    requires a <= b
    ensures |a| <= |b|
  {
    if a != {} {
      var x :| x in a;
      SubsetSize(a - {x}, b - {x});
    }
  }

  // ---- The journal --------------------------------------------------------------

  const BANKS: nat := 15

  /** The bounded banks in the order Restore rewrites them. */
  function BankAt(n: nat): Bank
    requires n < BANKS
  {
    [Registers(PsBool), Registers(PsInt), Registers(PsFloat), PixelShader,
     Registers(VsBool), Registers(VsInt), Registers(VsFloat), VertexShader,
     Fvf, NPatch, Samplers, TextureStages, Textures, RenderStates, Materials][n]
  }

  /** Where a bank is in that order; transforms and lights are not bounded. */
  function Ordinal(bank: Bank): (n: Option<nat>)
    ensures n.Some? ==> n.value < BANKS && BankAt(n.value) == bank
  {
    match bank
    case Registers(file) =>
      (match file
       case PsBool => Some(0)
       case PsInt => Some(1)
       case PsFloat => Some(2)
       case VsBool => Some(4)
       case VsInt => Some(5)
       case VsFloat => Some(6))
    case PixelShader => Some(3)
    case VertexShader => Some(7)
    case Fvf => Some(8)
    case NPatch => Some(9)
    case Samplers => Some(10)
    case TextureStages => Some(11)
    case Textures => Some(12)
    case RenderStates => Some(13)
    case Materials => Some(14)
    case _ => None
  }

  function BankSize(bank: Bank): nat {
    match bank
    case Registers(file) => FileSize(file)
    case Samplers => TEXTURE_SLOTS * SAMPLER_KINDS
    case TextureStages => TEXTURE_STAGES * STAGE_KINDS
    case Textures => TEXTURE_SLOTS
    case RenderStates => RENDER_STATES
    case _ => 1
  }

  lemma OrdinalOfBankAt(n: nat)
    requires n < BANKS
    ensures Ordinal(BankAt(n)) == Some(n)
  {
  }

  lemma TargetFits(call: Call)
    requires Target(call).Some?
    ensures var r := Target(call).value;
      Ordinal(r.bank).Some? && r.values != [] ==> r.start + |r.values| <= BankSize(r.bank)
    ensures Ordinal(Target(call).value.bank).None? ==> |Target(call).value.values| == 1
  {
  }

  datatype Entry = Entry(key: Key, value: Value)

  /** The first value saved for an unbounded piece of state. */
  function FindEntry(entries: seq<Entry>, k: Key): Option<Value> {
    if entries == [] then None
    else
      var last := entries[|entries| - 1];
      var earlier := FindEntry(entries[..|entries| - 1], k);
      if earlier.None? && last.key == k then Some(last.value) else earlier
  }

  lemma {:induction false} FindPrefix(entries: seq<Entry>, i: nat, k: Key)
    requires i <= |entries| && FindEntry(entries[..i], k).Some?
    ensures FindEntry(entries, k) == FindEntry(entries[..i], k)
  {
    if i == |entries| {
      assert entries[..i] == entries;
    } else {
      assert entries[..|entries| - 1][..i] == entries[..i];
      FindPrefix(entries[..|entries| - 1], i, k);
    }
  }

  ghost predicate Layout(banks: seq<Saves>, generation: u32) {
    && |banks| == BANKS && generation != 0
    && (forall n :: 0 <= n < BANKS ==> Ordinal(banks[n].bank) == Some(n) && |banks[n].stamps| == BankSize(banks[n].bank))
    && (forall n :: 0 <= n < BANKS ==> banks[n].Idle(generation))
  }

  ghost predicate AllValid(banks: seq<Saves>, entries: seq<Entry>, generation: u32)
    requires Layout(banks, generation)
  {
    && (forall n :: 0 <= n < BANKS ==> banks[n].Valid(generation))
    && (forall i :: 0 <= i < |entries| ==> Ordinal(entries[i].key.bank).None?)
  }

  ghost function SavedAt(banks: seq<Saves>, entries: seq<Entry>, generation: u32, k: Key): Option<Value>
    requires Layout(banks, generation)
  {
    match Ordinal(k.bank)
    case None => FindEntry(entries, k)
    case Some(n) => if banks[n].Saved(generation, k.index) then Some(banks[n].values[k.index]) else None
  }

  /** What the snapshot holds at a key is the saved value, or else the device's. */
  ghost predicate Explains(saved: Option<Value>, snapshot: State, contents: State, k: Key) {
    ReadKey(snapshot, k) == if saved.Some? then saved else ReadKey(contents, k)
  }

  /** The device is the snapshot except where the journal holds the old value. */
  ghost predicate Faithful(banks: seq<Saves>, entries: seq<Entry>, generation: u32, snapshot: State, contents: State)
    requires Layout(banks, generation)
  {
    && contents.Keys == snapshot.Keys
    && forall k :: Explains(SavedAt(banks, entries, generation, k), snapshot, contents, k)
  }

  lemma ReplaceValid(banks: seq<Saves>, entries: seq<Entry>, generation: u32, n: nat, after: Saves)
    requires Layout(banks, generation) && AllValid(banks, entries, generation) && n < BANKS
    requires after.Valid(generation) && after.bank == banks[n].bank && |after.stamps| == |banks[n].stamps|
    ensures Layout(banks[n := after], generation) && AllValid(banks[n := after], entries, generation)
  {
    var next := banks[n := after];
    forall m | 0 <= m < BANKS
      ensures next[m].Valid(generation) && Ordinal(next[m].bank) == Some(m) && |next[m].stamps| == BankSize(next[m].bank)
    {
      assert m != n ==> next[m] == banks[m];
    }
  }

  /** Saving what the device holds now keeps the journal faithful. */
  lemma CaptureFaithful(banks: seq<Saves>, entries: seq<Entry>, generation: u32, snapshot: State, contents: State,
                        n: nat, after: Saves, start: nat, end: nat)
    requires Layout(banks, generation) && n < BANKS && Layout(banks[n := after], generation)
    requires Faithful(banks, entries, generation, snapshot, contents)
    requires banks[n].Grew(after, generation, start, end, contents)
    ensures Faithful(banks[n := after], entries, generation, snapshot, contents)
  {
    var next := banks[n := after];
    forall k
      ensures Explains(SavedAt(next, entries, generation, k), snapshot, contents, k)
    {
      assert Explains(SavedAt(banks, entries, generation, k), snapshot, contents, k);
      CapturedKey(banks, entries, generation, snapshot, contents, n, after, start, end, k);
    }
  }

  lemma CapturedKey(banks: seq<Saves>, entries: seq<Entry>, generation: u32, snapshot: State, contents: State,
                    n: nat, after: Saves, start: nat, end: nat, k: Key)
    requires Layout(banks, generation) && n < BANKS && Layout(banks[n := after], generation)
    requires banks[n].Grew(after, generation, start, end, contents)
    requires Explains(SavedAt(banks, entries, generation, k), snapshot, contents, k)
    ensures Explains(SavedAt(banks[n := after], entries, generation, k), snapshot, contents, k)
  {
    if Ordinal(k.bank) == Some(n) {
      OrdinalInjective(k.bank, banks[n].bank);
      assert k == Key(banks[n].bank, k.index);
    }
  }

  lemma EntryFaithful(banks: seq<Saves>, entries: seq<Entry>, generation: u32, snapshot: State, contents: State, key: Key)
    requires Layout(banks, generation) && Faithful(banks, entries, generation, snapshot, contents)
    requires Ordinal(key.bank).None? && key in contents
    ensures Faithful(banks, entries + [Entry(key, contents[key])], generation, snapshot, contents)
  {
    var next := entries + [Entry(key, contents[key])];
    assert next[..|entries|] == entries;
    forall k
      ensures Explains(SavedAt(banks, next, generation, k), snapshot, contents, k)
    {
      assert Explains(SavedAt(banks, entries, generation, k), snapshot, contents, k);
    }
  }

  /** Overwriting only what is saved keeps the journal faithful. */
  lemma SetFaithful(banks: seq<Saves>, entries: seq<Entry>, generation: u32, snapshot: State, contents: State, range: Range)
    requires Layout(banks, generation) && Faithful(banks, entries, generation, snapshot, contents)
    requires Has(contents, range.bank, range.start, |range.values|)
    requires forall k :: k in RangeMap(range) ==> SavedAt(banks, entries, generation, k).Some?
    ensures Faithful(banks, entries, generation, snapshot, contents + RangeMap(range))
  {
    var after := contents + RangeMap(range);
    assert forall k :: k in RangeMap(range) ==> k in contents;
    assert after.Keys == contents.Keys;
    forall k
      ensures Explains(SavedAt(banks, entries, generation, k), snapshot, after, k)
    {
      assert Explains(SavedAt(banks, entries, generation, k), snapshot, contents, k);
    }
  }

  lemma OrdinalInjective(a: Bank, b: Bank)
    requires Ordinal(a).Some? && Ordinal(a) == Ordinal(b)
    ensures a == b
  {
  }

  // ---- Restoring ----------------------------------------------------------------

  /** Only saved state may differ from what Restore started with. */
  ghost predicate OnlySaved(banks: seq<Saves>, entries: seq<Entry>, generation: u32, start: State, contents: State)
    requires Layout(banks, generation)
  {
    && contents.Keys == start.Keys
    && forall k :: k in contents && SavedAt(banks, entries, generation, k).None? ==> contents[k] == start[k]
  }

  /** The first `n` banks hold their saved values again. */
  ghost predicate BanksBack(banks: seq<Saves>, entries: seq<Entry>, generation: u32, contents: State, n: nat)
    requires Layout(banks, generation)
  {
    forall k: Key :: Ordinal(k.bank).Some? && Ordinal(k.bank).value < n && SavedAt(banks, entries, generation, k).Some? ==>
      ReadKey(contents, k) == SavedAt(banks, entries, generation, k)
  }

  /** The entries from `i` on hold their saved values again, unless an earlier
      entry for the same state is still to be written. */
  ghost predicate EntriesBack(entries: seq<Entry>, contents: State, i: nat)
    requires i <= |entries|
  {
    forall k: Key :: Ordinal(k.bank).None? && FindEntry(entries, k).Some? && FindEntry(entries[..i], k).None? ==>
      ReadKey(contents, k) == FindEntry(entries, k)
  }

  lemma BankStep(banks: seq<Saves>, entries: seq<Entry>, generation: u32, start: State, before: State, after: State, n: nat)
    requires Layout(banks, generation) && n < BANKS
    requires OnlySaved(banks, entries, generation, start, before)
    requires UnsavedSame(banks[n], before, after, generation)
    ensures OnlySaved(banks, entries, generation, start, after)
    ensures BanksBack(banks, entries, generation, before, n) && AllWritten(banks[n], after, generation, []) ==>
      BanksBack(banks, entries, generation, after, n + 1)
  {
    forall k | IsSaved(banks[n], generation, k)
      ensures SavedAt(banks, entries, generation, k) == Some(banks[n].values[k.index])
    {
      assert Ordinal(k.bank) == Some(n);
    }
    if BanksBack(banks, entries, generation, before, n) && AllWritten(banks[n], after, generation, []) {
      NextBankBack(banks, entries, generation, before, after, n);
    }
  }

  lemma NextBankBack(banks: seq<Saves>, entries: seq<Entry>, generation: u32, before: State, after: State, n: nat)
    requires Layout(banks, generation) && n < BANKS && UnsavedSame(banks[n], before, after, generation)
    requires BanksBack(banks, entries, generation, before, n) && AllWritten(banks[n], after, generation, [])
    ensures BanksBack(banks, entries, generation, after, n + 1)
  {
    forall k: Key | Ordinal(k.bank).Some? && Ordinal(k.bank).value < n + 1 && SavedAt(banks, entries, generation, k).Some?
      ensures ReadKey(after, k) == SavedAt(banks, entries, generation, k)
    {
      if Ordinal(k.bank) == Some(n) {
        OrdinalInjective(k.bank, banks[n].bank);
        assert !Covered([], k.index);
        assert k == Key(banks[n].bank, k.index);
      } else {
        assert !IsSaved(banks[n], generation, k);
      }
    }
  }

  lemma EntryStep(entries: seq<Entry>, before: State, i: nat)
    requires i < |entries|
    ensures var e := entries[i];
      EntriesBack(entries, before, i + 1) ==> EntriesBack(entries, before + RangeMap(Range(e.key.bank, e.key.index, [e.value])), i)
  {
    var e := entries[i];
    var after := before + RangeMap(Range(e.key.bank, e.key.index, [e.value]));
    assert entries[..i + 1][..i] == entries[..i];
    forall k: Key | EntriesBack(entries, before, i + 1) && Ordinal(k.bank).None?
        && FindEntry(entries, k).Some? && FindEntry(entries[..i], k).None?
      ensures ReadKey(after, k) == FindEntry(entries, k)
    {
      if k == e.key {
        FindPrefix(entries, i + 1, k);
      } else {
        assert k !in RangeMap(Range(e.key.bank, e.key.index, [e.value]));
      }
    }
  }

  lemma EntrySaved(banks: seq<Saves>, entries: seq<Entry>, generation: u32, start: State, before: State, i: nat)
    requires Layout(banks, generation) && i < |entries| && Ordinal(entries[i].key.bank).None?
    requires OnlySaved(banks, entries, generation, start, before) && entries[i].key in before
    ensures var e := entries[i];
      OnlySaved(banks, entries, generation, start, before + RangeMap(Range(e.key.bank, e.key.index, [e.value])))
  {
    var e := entries[i];
    var range := Range(e.key.bank, e.key.index, [e.value]);
    FoundAt(entries, i);
    assert forall k :: k in RangeMap(range) ==> k == e.key;
    assert (before + RangeMap(range)).Keys == before.Keys;
  }

  lemma EntryKeepsBanks(banks: seq<Saves>, entries: seq<Entry>, generation: u32, before: State, i: nat)
    requires Layout(banks, generation) && i < |entries| && Ordinal(entries[i].key.bank).None?
    ensures var e := entries[i];
      BanksBack(banks, entries, generation, before, BANKS) ==>
      BanksBack(banks, entries, generation, before + RangeMap(Range(e.key.bank, e.key.index, [e.value])), BANKS)
  {
    var range := Range(entries[i].key.bank, entries[i].key.index, [entries[i].value]);
    assert forall k :: k in RangeMap(range) ==> k == entries[i].key;
  }

  /** The restore of the entries, down to entry `i`. */
  ghost predicate Restoring(banks: seq<Saves>, entries: seq<Entry>, generation: u32, start: State, contents: State, i: nat, ok: bool)
    requires Layout(banks, generation) && i <= |entries|
  {
    && OnlySaved(banks, entries, generation, start, contents)
    && (ok ==> BanksBack(banks, entries, generation, contents, BANKS) && EntriesBack(entries, contents, i))
  }

  lemma NothingBackYet(entries: seq<Entry>, contents: State)
    ensures EntriesBack(entries, contents, |entries|)
  {
    assert entries[..|entries|] == entries;
  }

  /** One saved entry written back, or refused. */
  lemma EntryBack(banks: seq<Saves>, entries: seq<Entry>, generation: u32, start: State, before: State, after: State, i: nat, ok: bool)
    requires Layout(banks, generation) && i < |entries| && Ordinal(entries[i].key.bank).None?
    requires OnlySaved(banks, entries, generation, start, before) && entries[i].key in before
    requires after == if ok then before + RangeMap(Range(entries[i].key.bank, entries[i].key.index, [entries[i].value])) else before
    ensures OnlySaved(banks, entries, generation, start, after)
    ensures ok && BanksBack(banks, entries, generation, before, BANKS) && EntriesBack(entries, before, i + 1) ==>
      BanksBack(banks, entries, generation, after, BANKS) && EntriesBack(entries, after, i)
  {
    EntrySaved(banks, entries, generation, start, before, i);
    EntryStep(entries, before, i);
    EntryKeepsBanks(banks, entries, generation, before, i);
  }

  lemma {:induction false} FoundAt(entries: seq<Entry>, i: nat)
    requires i < |entries|
    ensures FindEntry(entries, entries[i].key).Some?
  {
    if i < |entries| - 1 {
      FoundAt(entries[..|entries| - 1], i);
    }
  }

  /** Everything back means the device is the snapshot. */
  lemma AllBack(banks: seq<Saves>, entries: seq<Entry>, generation: u32, snapshot: State, start: State, contents: State)
    requires Layout(banks, generation) && Faithful(banks, entries, generation, snapshot, start)
    requires OnlySaved(banks, entries, generation, start, contents)
    requires BanksBack(banks, entries, generation, contents, BANKS) && EntriesBack(entries, contents, 0)
    ensures contents == snapshot
  {
    forall k
      ensures ReadKey(contents, k) == ReadKey(snapshot, k)
    {
      assert Explains(SavedAt(banks, entries, generation, k), snapshot, start, k);
      assert entries[..0] == [];
    }
    StatesEqual(contents, snapshot);
  }

  lemma SavedIsPresent(banks: seq<Saves>, entries: seq<Entry>, generation: u32, snapshot: State, start: State)
    requires Layout(banks, generation) && AllValid(banks, entries, generation)
    requires Faithful(banks, entries, generation, snapshot, start)
    ensures forall n :: 0 <= n < BANKS ==> SavedPresent(banks[n], start, generation)
    ensures forall i :: 0 <= i < |entries| ==> entries[i].key in start
  {
    forall n, i: nat | 0 <= n < BANKS && banks[n].Saved(generation, i)
      ensures Key(banks[n].bank, i) in start
    {
      assert Explains(SavedAt(banks, entries, generation, Key(banks[n].bank, i)), snapshot, start, Key(banks[n].bank, i));
    }
    forall i | 0 <= i < |entries|
      ensures entries[i].key in start
    {
      FoundAt(entries, i);
      assert Explains(SavedAt(banks, entries, generation, entries[i].key), snapshot, start, entries[i].key);
    }
  }

  function PrepareAll(banks: seq<Saves>, wrapped: bool): (r: seq<Saves>)
    ensures |r| == |banks| && forall n :: 0 <= n < |r| ==> r[n] == banks[n].Prepare(wrapped)
  {
    seq(|banks|, n requires 0 <= n < |banks| => banks[n].Prepare(wrapped))
  }

  class Journal {
    const device: Device
    var banks: seq<Saves>
    var entries: seq<Entry>
    var generation: u32
    var threadId: u32
    var active: bool
    var disabled: bool
    var failure: Result
    ghost var snapshot: State  // the device when the transaction began

    ghost predicate Valid()
      reads this, device
    {
      && Layout(banks, generation)
      && (active ==> AllValid(banks, entries, generation) && Faithful(banks, entries, generation, snapshot, device.contents))
    }

    constructor (device: Device)
      ensures Valid() && !active && !disabled && failure == Ok && threadId == 0 && entries == [] && this.device == device
    {
      this.device := device;
      banks := seq(BANKS, n requires 0 <= n < BANKS =>
        Saves(BankAt(n), seq(BankSize(BankAt(n)), _ => 0), seq(BankSize(BankAt(n)), _ => []), []));
      entries := [];
      generation := 1;
      threadId := 0;
      active, disabled := false, false;
      failure := Ok;
      snapshot := map[];
      new;
      forall n | 0 <= n < BANKS
        ensures Ordinal(banks[n].bank) == Some(n)
      {
        OrdinalOfBankAt(n);
      }
    }

    /** Advances the generation, which forgets every saved value at once; when the
        counter overflows the stamps are cleared so that none can match again. */
    method StartGeneration()
      requires Layout(banks, generation)
      modifies `banks, `entries, `generation
      ensures Layout(banks, generation) && AllValid(banks, entries, generation)
      ensures forall k :: SavedAt(banks, entries, generation, k) == None
    {
      var wrapped := Wrap(generation + 1) == 0;
      var next := PrepareAll(banks, wrapped);
      forall n | 0 <= n < BANKS
        ensures next[n].Empty(if wrapped then 1 else generation + 1)
      {
        banks[n].PrepareEmpties(generation, if wrapped then 1 else generation + 1, wrapped);
      }
      generation := if wrapped then 1 else generation + 1;
      banks := next;
      entries := [];
    }

    method Fail(result: Result)
      requires result.Failed()
      modifies `failure
      ensures failure == if old(failure) == Ok then result else old(failure)
    {
      if failure == Ok {
        failure := result;
      }
    }

    /** Opens a transaction. A nested one ends the outer, and for good. */
    method BeginTransaction(thread: u32, current: u32) returns (result: Result)
      requires Valid()
      modifies this, device
      ensures Valid()
      ensures result == Refused <==> thread == 0 || old(disabled)
      ensures result == Unexpected <==> thread != 0 && !old(disabled) && (old(active) || thread != current)
      ensures result == Ok <==> thread != 0 && !old(disabled) && !old(active) && thread == current
      ensures result == Refused || (result == Unexpected && !old(active)) ==>
        && (active, disabled, failure, threadId, snapshot) == old((active, disabled, failure, threadId, snapshot))
        && device.contents == old(device.contents)
      ensures result == Ok ==> active && !disabled && threadId == thread && failure == Ok
      ensures result == Ok ==> snapshot == device.contents == old(device.contents) && device.faults == old(device.faults)
      ensures old(active) && thread != 0 && !old(disabled) ==> disabled
      ensures old(active) && thread != 0 && !old(disabled) && threadId == current && old(device.faults) == [] ==>
        !active && device.contents == old(snapshot)
    {
      if thread == 0 || disabled {
        return Refused;
      }
      if active {
        var _ := Restore(current);
        disabled := true;
        return Unexpected;
      }
      if thread != current {
        return Unexpected;
      }
      StartGeneration();
      threadId := thread;
      failure := Ok;
      snapshot := device.contents;
      active := true;
      return Ok;
    }

    /** Ends a transaction: writes every saved value back. */
    method Restore(current: u32) returns (result: Result)
      requires Valid()
      modifies this, device
      ensures Valid()
      ensures old(active) && threadId == current ==> !active && entries == []
      ensures old(active) && result == Ok ==> device.contents == old(snapshot) && disabled == old(disabled)
      ensures old(active) && result != Ok ==> disabled && failure == if old(failure) == Ok then result else old(failure)
      ensures old(active) && result == Ok ==> failure == old(failure)
      ensures result == Unexpected <==> old(active) && threadId != current
      ensures old(active) && threadId == current && old(device.faults) == [] ==> result == Ok
      ensures !old(active) ==> result == Ok && device.contents == old(device.contents) && !active && disabled == old(disabled)
      ensures old(device.faults) == [] ==> device.faults == []
      ensures threadId == old(threadId)
    {
      if !active {
        return Ok;
      }
      if threadId != current {
        disabled := true;
        Fail(Unexpected);
        return Unexpected;
      }
      var ok := RestoreBanks();
      active := false;
      if !ok {
        Fail(DeviceError);
        disabled := true;
      }
      entries := [];
      result := if ok then Ok else DeviceError;
    }

    method RestoreBanks() returns (ok: bool)
      requires Valid() && active
      modifies device
      ensures ok ==> device.contents == snapshot
      ensures old(device.faults) == [] ==> device.faults == [] && ok
    {
      ghost var start := device.contents;
      SavedIsPresent(banks, entries, generation, snapshot, start);
      ok := true;
      for n := 0 to BANKS
        invariant OnlySaved(banks, entries, generation, start, device.contents)
        invariant ok ==> BanksBack(banks, entries, generation, device.contents, n)
        invariant old(device.faults) == [] ==> device.faults == [] && ok
      {
        ghost var before := device.contents;
        var written := WriteBack(device, banks[n], generation);
        BankStep(banks, entries, generation, start, before, device.contents, n);
        ok := ok && written;
      }
      ok := RestoreEntries(start, ok);
      if ok {
        AllBack(banks, entries, generation, snapshot, start, device.contents);
      }
    }

    /** The entry before place `n` written back. */
    method RestoreEntry(ghost start: State, n: nat, before: bool) returns (ok: bool)
      requires Layout(banks, generation) && 0 < n <= |entries|
      requires Ordinal(entries[n - 1].key.bank).None? && entries[n - 1].key in start
      requires Restoring(banks, entries, generation, start, device.contents, n, before)
      modifies device
      ensures Restoring(banks, entries, generation, start, device.contents, n - 1, ok)
      ensures old(device.faults) == [] ==> device.faults == [] && ok == before
    {
      var i := n - 1;
      ghost var contents := device.contents;
      var written := device.Set(Range(entries[i].key.bank, entries[i].key.index, [entries[i].value]));
      EntryBack(banks, entries, generation, start, contents, device.contents, i, written);
      ok := before && written;
    }

    method RestoreEntries(ghost start: State, banksOk: bool) returns (ok: bool)
      requires Layout(banks, generation)
      requires OnlySaved(banks, entries, generation, start, device.contents)
      requires banksOk ==> BanksBack(banks, entries, generation, device.contents, BANKS)
      requires forall i :: 0 <= i < |entries| ==> Ordinal(entries[i].key.bank).None? && entries[i].key in start
      modifies device
      ensures OnlySaved(banks, entries, generation, start, device.contents)
      ensures ok ==> BanksBack(banks, entries, generation, device.contents, BANKS) && EntriesBack(entries, device.contents, 0)
      ensures old(device.faults) == [] ==> device.faults == [] && ok == banksOk
    {
      ok := banksOk;
      var i := |entries|;
      NothingBackYet(entries, device.contents);
      while i > 0
        invariant 0 <= i <= |entries|
        invariant Restoring(banks, entries, generation, start, device.contents, i, ok)
        invariant old(device.faults) == [] ==> device.faults == [] && ok == banksOk
      {
        ok := RestoreEntry(start, i, ok);
        i := i - 1;
      }
    }

    predicate Usable(current: u32)
      reads this
    {
      !disabled && threadId == current
    }

    /** One state write. Outside a transaction it goes straight to the device, which
        decides for itself about state that the journal has no place for. */
    method Write(call: Call, current: u32) returns (result: Result)
      requires Valid()
      modifies this, device
      ensures Valid()
      ensures snapshot == old(snapshot) && active == old(active) && disabled == old(disabled) && threadId == old(threadId)
      ensures device.contents == if result == Ok then old(device.contents) + Effect(call) else old(device.contents)
      ensures device.contents.Keys == old(device.contents).Keys
      ensures active && (disabled || threadId != current) ==> result == Unexpected
      ensures active && !disabled && threadId == current && Target(call).None? ==> result == InvalidCall
      ensures failure == if active && result != Ok && old(failure) == Ok then result else old(failure)
      ensures old(device.faults) == [] ==> device.faults == []
      ensures old(device.faults) == [] && (active ==> !disabled && threadId == current) && Target(call).Some?
        && Has(old(device.contents), Target(call).value.bank, Target(call).value.start, |Target(call).value.values|)
        ==> result == Ok
    {
      if active && !Usable(current) {
        Fail(Unexpected);
        return Unexpected;
      }
      match Target(call) {
        case None =>
          if active {
            Fail(InvalidCall);
            return InvalidCall;
          }
          var ok := device.Answers();
          return if ok then Ok else DeviceError;
        case Some(range) =>
          if active {
            result := Save(call, range);
            if result != Ok {
              Fail(result);
              return;
            }
          }
          ghost var before := device.contents;
          var ok := device.Set(range);
          if ok && active {
            SetFaithful(banks, entries, generation, snapshot, before, range);
          }
          if !ok {
            if active {
              Fail(DeviceError);
            }
            return DeviceError;
          }
          return Ok;
      }
    }

    /** Saves what a write is about to overwrite, unless it is saved already. */
    method Save(call: Call, range: Range) returns (result: Result)
      requires Valid() && active && Target(call) == Some(range)
      modifies `banks, `entries, device`faults
      ensures Valid()
      ensures result == Ok || result.Failed()
      ensures result == Ok ==> forall k :: k in RangeMap(range) ==> SavedAt(banks, entries, generation, k).Some?
      ensures old(device.faults) == [] ==>
        device.faults == [] && (Has(device.contents, range.bank, range.start, |range.values|) ==> result == Ok)
    {
      TargetFits(call);
      if Ordinal(range.bank).Some? {
        result := SaveRange(range, Ordinal(range.bank).value);
      } else {
        result := SaveEntry(Key(range.bank, range.start));
        assert forall k :: k in RangeMap(range) ==> k == Key(range.bank, range.start);
        assert Has(device.contents, range.bank, range.start, 1) ==> Key(range.bank, range.start) in device.contents;
      }
    }

    method SaveRange(range: Range, n: nat) returns (result: Result)
      requires Valid() && active && Ordinal(range.bank) == Some(n)
      requires range.values != [] ==> range.start + |range.values| <= BankSize(range.bank)
      modifies `banks, device`faults
      ensures Valid()
      ensures result == Ok || result.Failed()
      ensures result == Ok ==> forall k :: k in RangeMap(range) ==> SavedAt(banks, entries, generation, k).Some?
      ensures old(device.faults) == [] ==>
        device.faults == [] && (Has(device.contents, range.bank, range.start, |range.values|) ==> result == Ok)
    {
      var after: Saves;
      OrdinalInjective(range.bank, banks[n].bank);
      result, after := Capture(device, banks[n], generation, range.start, |range.values|);
      ReplaceValid(banks, entries, generation, n, after);
      CaptureFaithful(banks, entries, generation, snapshot, device.contents, n, after,
                      range.start, range.start + |range.values|);
      banks := banks[n := after];
    }

    method SaveEntry(key: Key) returns (result: Result)
      requires Valid() && active && Ordinal(key.bank).None?
      modifies `entries, device`faults
      ensures Valid()
      ensures result == Ok || result.Failed()
      ensures result == Ok ==> SavedAt(banks, entries, generation, key).Some?
      ensures old(device.faults) == [] ==> device.faults == [] && (key in device.contents ==> result == Ok)
    {
      if FindEntry(entries, key).None? {
        var ok, read := device.Get(key.bank, key.index, 1);
        if !ok {
          return DeviceError;
        }
        EntryFaithful(banks, entries, generation, snapshot, device.contents, key);
        assert (entries + [Entry(key, read[0])])[..|entries|] == entries;
        entries := entries + [Entry(key, read[0])];
      }
      return Ok;
    }
  }

  /** A whole transaction of any writes, on a device that may fail any of them: if
      the restore reports success, the device is as if nothing had happened. */
  method Transaction(journal: Journal, calls: seq<Call>, current: u32) returns (began: bool, result: Result)
    requires journal.Valid()
    modifies journal, journal.device
    ensures journal.Valid()
    ensures began && result == Ok ==> journal.device.contents == old(journal.device.contents) && !journal.active
    ensures began && result != Ok ==> journal.disabled
    ensures began && old(journal.device.faults) == [] ==> result == Ok
    ensures !began ==> result != Ok
  {
    result := journal.BeginTransaction(current, current);
    began := result == Ok;
    if began {
      for i := 0 to |calls|
        invariant journal.Valid() && journal.active && !journal.disabled && journal.threadId == current
        invariant journal.snapshot == old(journal.device.contents)
        invariant old(journal.device.faults) == [] ==> journal.device.faults == []
      {
        var _ := journal.Write(calls[i], current);
      }
      result := journal.Restore(current);
    }
  }
}
