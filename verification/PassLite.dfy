// Pass-lite: the shadow store of an effect's parameters, the replay of a
// recorded pass through the journal, and what keeps the two together.
module PassLite {
  import opened Words
  import opened OpStream
  import opened DeviceState
  import opened StateJournal
  import opened PassRecording
  import opened PassReplay
  import opened PassFidelity

  const MAX_SHADOW: nat := 128
  const MAX_TEXTURES: nat := 32

  // ---- Writes through the journal -------------------------------------------------

  /** No write is about to fail for a reason of the device's or the journal's own. */
  predicate Ready(journal: Journal, current: u32)
    reads journal, journal.device
  {
    journal.device.faults == [] && (journal.active ==> journal.Usable(current))
  }

  /** The device has every piece of state the calls write. */
  predicate Accepts(state: State, calls: seq<Call>) {
    forall i :: 0 <= i < |calls| && Target(calls[i]).Some? ==>
      var r := Target(calls[i]).value; Has(state, r.bank, r.start, |r.values|)
  }

  /** What every write through the journal leaves alone. */
  twostate predicate Kept(journal: Journal)
    reads journal, journal.device
  {
    && journal.snapshot == old(journal.snapshot) && journal.active == old(journal.active)
    && journal.disabled == old(journal.disabled) && journal.threadId == old(journal.threadId)
    && journal.device.contents.Keys == old(journal.device.contents).Keys
    && (old(journal.device.faults) == [] ==> journal.device.faults == [])
  }

  method Submit(journal: Journal, call: Call, current: u32)
    requires journal.Valid()
    modifies journal, journal.device
    ensures journal.Valid() && Kept(journal)
    ensures old(Ready(journal, current)) && Accepts(old(journal.device.contents), [call]) ==>
      Ready(journal, current) && journal.device.contents == old(journal.device.contents) + Effect(call)
  {
    assert Accepts(journal.device.contents, [call]) && Target(call).Some? ==> Target([call][0]).Some?;
    var _ := journal.Write(call, current);
  }

  lemma RunFirst(call: Call, rest: seq<Call>, state: State)
    ensures Run([call] + rest, state) == Run(rest, state + Effect(call))
  {
    RunConcat([call], rest, state);
    assert [call][..0] == [];
    assert Run([call], state) == Run([], state) + Effect(call);
  }

  lemma AcceptsConcat(state: State, xs: seq<Call>, ys: seq<Call>)
    ensures Accepts(state, xs + ys) <==> Accepts(state, xs) && Accepts(state, ys)
  {
    var all := xs + ys;
    assert forall i :: 0 <= i < |xs| ==> all[i] == xs[i];
    assert forall i :: 0 <= i < |ys| ==> all[|xs| + i] == ys[i];
  }

  lemma AcceptsKeys(s: State, t: State, calls: seq<Call>)
    requires s.Keys == t.Keys && Accepts(s, calls)
    ensures Accepts(t, calls)
  {
    forall i | 0 <= i < |calls| && Target(calls[i]).Some?
      ensures var r := Target(calls[i]).value; Has(t, r.bank, r.start, |r.values|)
    {
      var r := Target(calls[i]).value;
      assert Has(s, r.bank, r.start, |r.values|);
      assert forall k :: k in s ==> k in t.Keys;
    }
  }

  /** The calls still to make would finish what `all` does from `start`. */
  ghost predicate Pending(all: seq<Call>, start: State, rest: seq<Call>, now: State) {
    now.Keys == start.Keys && Accepts(now, rest) && Run(rest, now) == Run(all, start)
  }

  lemma PendingNext(all: seq<Call>, start: State, call: Call, rest: seq<Call>, now: State, next: State)
    requires Pending(all, start, [call] + rest, now) && next == now + Effect(call) && next.Keys == now.Keys
    ensures Accepts(now, [call]) && Pending(all, start, rest, next)
  {
    AcceptsConcat(now, [call], rest);
    AcceptsKeys(now, next, rest);
    RunFirst(call, rest, now);
  }

  /** Makes the calls of a list that has at most one. */
  method SubmitAll(journal: Journal, calls: seq<Call>, current: u32,
                   ghost all: seq<Call>, ghost start: State, ghost rest: seq<Call>)
    requires journal.Valid() && |calls| <= 1
    modifies journal, journal.device
    ensures journal.Valid() && Kept(journal)
    ensures old(Ready(journal, current)) && Pending(all, start, calls + rest, old(journal.device.contents)) ==>
      Ready(journal, current) && Pending(all, start, rest, journal.device.contents)
  {
    ghost var now := journal.device.contents;
    if calls != [] {
      assert calls == [calls[0]];
      AcceptsConcat(now, calls, rest);
      Submit(journal, calls[0], current);
      if Pending(all, start, calls + rest, now) && journal.device.contents == now + Effect(calls[0]) {
        PendingNext(all, start, calls[0], rest, now, journal.device.contents);
      }
    } else {
      assert calls + rest == rest;
    }
  }

  // ---- Uploads ----------------------------------------------------------------------

  /** The registers in a buffer of words. */
  function Rows(buf: seq<u32>, regs: nat): (values: seq<Value>)
    requires 4 * regs <= |buf|
    ensures |values| == regs && forall r :: 0 <= r < regs ==> values[r] == buf[4 * r..4 * r + 4]
  {
    seq(regs, r requires 0 <= r < regs => buf[4 * r..4 * r + 4])
  }

  predicate RowIs(buf: array<u32>, r: nat, row: Value)
    requires 4 * r + 4 <= buf.Length
    reads buf
  {
    |row| == 4 && buf[4 * r] == row[0] && buf[4 * r + 1] == row[1] && buf[4 * r + 2] == row[2] && buf[4 * r + 3] == row[3]
  }

  function Column(v: Block16, r: nat): Value
    requires r < 4
  {
    [v[r], v[4 + r], v[8 + r], v[12 + r]]
  }

  method Transpose(buf: array<u32>, v: Block16, regs: nat)
    requires buf.Length == 16 && regs <= 4
    modifies buf
    ensures forall r: nat :: r < regs ==> RowIs(buf, r, Column(v, r))
  {
    for r := 0 to regs
      invariant forall q: nat :: q < r ==> RowIs(buf, q, Column(v, q))
    {
      buf[r * 4 + 0] := v[0 * 4 + r];
      buf[r * 4 + 1] := v[1 * 4 + r];
      buf[r * 4 + 2] := v[2 * 4 + r];
      buf[r * 4 + 3] := v[3 * 4 + r];
    }
  }

  method Copy(buf: array<u32>, v: Block16, n: nat)
    requires n <= 16 == buf.Length
    modifies buf
    ensures forall i :: 0 <= i < 16 ==> buf[i] == if i < n then v[i] else old(buf[i])
  {
    for i := 0 to n
      invariant forall j :: 0 <= j < 16 ==> buf[j] == if j < i then v[j] else old(buf[j])
    {
      buf[i] := v[i];
    }
  }

  /** The buffer holds the words of a slot's upload. */
  method FillBuffer(buf: array<u32>, slot: Slot, e: ShadowEntry, regs: nat)
    requires buf.Length == 16 && regs == SlotRegs(slot)
    requires forall i :: 0 <= i < 16 ==> buf[i] == 0
    modifies buf
    ensures forall r: nat :: r < regs ==> RowIs(buf, r, SlotRegister(slot, e, r))
  {
    if slot.matrix && e.matrix {
      if slot.columns {
        Transpose(buf, e.v, regs);
        assert forall r: nat :: r < regs ==> SlotRegister(slot, e, r) == Column(e.v, r);
      } else {
        Copy(buf, e.v, regs * 4);
      }
    } else {
      var floats := if e.floats > regs * 4 then regs * 4 else e.floats;
      Copy(buf, e.v, floats);
    }
  }

  /** The registers of one slot's upload. */
  method FillSlot(slot: Slot, e: ShadowEntry) returns (values: seq<Value>)
    ensures values == SlotValues(slot, e)
  {
    var buf := new u32[16](_ => 0);
    var regs := if slot.count > 4 then 4 else slot.count;
    FillBuffer(buf, slot, e, regs);
    values := Rows(buf[..], regs);
    forall r: nat | r < regs
      ensures values[r] == SlotRegister(slot, e, r)
    {
      assert RowIs(buf, r, SlotRegister(slot, e, r));
      assert |values[r]| == 4;
    }
  }

  // ---- The shadow store -----------------------------------------------------------------

  /** The seen slots of one parameter. */
  function ParamCall(slot: Slot, e: ShadowEntry): seq<Call> {
    if slot.param == e.param then [SlotCall(slot, e)] else []
  }

  function ParamCalls(slots: seq<Slot>, e: ShadowEntry): seq<Call> {
    if slots == [] then [] else ParamCall(slots[0], e) + ParamCalls(slots[1..], e)
  }

  /** The parameter has slots, and none is too large for the hooked setters. */
  predicate Coverable(slots: seq<Slot>, param: u32) {
    && (exists i :: 0 <= i < |slots| && slots[i].param == param)
    && Small(slots, param)
  }

  function Padded(data: seq<u32>): (v: Block16)
    requires |data| <= 16
  {
    data + seq(16 - |data|, _ => 0)
  }

  ghost predicate Apart(s: Slot, t: Slot) {
    s.param == t.param || forall k :: !(Owns(s, k) && Owns(t, k))
  }

  /** No register belongs to slots of two parameters, as in every constant table. */
  ghost predicate Disjoint(slots: seq<Slot>) {
    forall i, j :: 0 <= i < j < |slots| ==> Apart(slots[i], slots[j])
  }

  /** The device holds, in every register of a seen slot, what replaying the shadow
      would write there. */
  ghost predicate InSync(slots: seq<Slot>, shadow: seq<ShadowEntry>, contents: State) {
    forall k :: LastWrite(SeenCalls(slots, shadow), k).Some? ==>
      ReadKey(contents, k) == LastWrite(SeenCalls(slots, shadow), k)
  }

  /** An effect's shadow of the parameters the game has set. */
  class EffectPlans {
    var shadow: seq<ShadowEntry>
    var textures: seq<TextureEntry>

    constructor ()
      ensures shadow == [] && textures == []
    {
      shadow, textures := [], [];
    }

    /** Remembers the texture last set for a parameter, while there is room. */
    method ShadowTexture(param: u32, texture: u32)
      modifies `textures
      ensures old(UniqueParams(textures)) ==> UniqueParams(textures)
      ensures |textures| <= if |old(textures)| > 32 then |old(textures)| else 32
      ensures forall p :: p != param ==> FindTexture(textures, p) == FindTexture(old(textures), p)
      ensures FindTexture(textures, param) ==
        if param == 0 || (FindTexture(old(textures), param).None? && |old(textures)| >= 32)
        then FindTexture(old(textures), param) else Some(texture)
    {
      if param == 0 {
        return;
      }
      for i := 0 to |textures|
        invariant textures == old(textures)
        invariant forall j :: 0 <= j < i ==> textures[j].param != param
      {
        if textures[i].param == param {
          FindAbsent(textures, param);
          forall p {
            FindSet(textures, i, texture, p);
          }
          textures := textures[i := TextureEntry(param, texture)];
          return;
        }
      }
      FindAbsent(textures, param);
      if |textures| >= MAX_TEXTURES {
        return;
      }
      forall p {
        FindAppended(textures, TextureEntry(param, texture), p);
      }
      textures := textures + [TextureEntry(param, texture)];
    }
  }

  lemma {:induction false} FindSet(textures: seq<TextureEntry>, i: nat, texture: u32, p: u32)
    requires i < |textures| && forall j :: 0 <= j < i ==> textures[j].param != textures[i].param
    ensures FindTexture(textures[i := textures[i].(texture := texture)], p)
         == if p == textures[i].param then Some(texture) else FindTexture(textures, p)
  {
    if i > 0 {
      var after := textures[i := textures[i].(texture := texture)];
      assert after[1..] == textures[1..][i - 1 := textures[i].(texture := texture)];
      assert forall j :: 0 <= j < i ==> textures[1..][j] == textures[j + 1];
      FindSet(textures[1..], i - 1, texture, p);
    }
  }

  lemma {:induction false} FindAbsent(textures: seq<TextureEntry>, p: u32)
    ensures FindTexture(textures, p) == None <==> forall j :: 0 <= j < |textures| ==> textures[j].param != p
  {
    if textures != [] {
      assert forall j :: 0 <= j < |textures| - 1 ==> textures[1..][j] == textures[j + 1];
      FindAbsent(textures[1..], p);
      assert forall j :: 0 < j < |textures| ==> textures[j] == textures[1..][j - 1];
    }
  }

  lemma {:induction false} FindAppended(textures: seq<TextureEntry>, last: TextureEntry, p: u32)
    ensures FindTexture(textures + [last], p)
         == if FindTexture(textures, p).Some? then FindTexture(textures, p)
            else if p == last.param then Some(last.texture) else None
  {
    if textures == [] {
      assert textures + [last] == [last];
    } else {
      assert (textures + [last])[1..] == textures[1..] + [last];
      FindAppended(textures[1..], last, p);
    }
  }

  function PutShadow(shadow: seq<ShadowEntry>, e: ShadowEntry): seq<ShadowEntry> {
    if shadow == [] then [e]
    else if shadow[0].param == e.param then [e] + shadow[1..]
    else [shadow[0]] + PutShadow(shadow[1..], e)
  }

  lemma {:induction false} FindPut(shadow: seq<ShadowEntry>, e: ShadowEntry, p: u32)
    ensures FindShadow(PutShadow(shadow, e), p) == if p == e.param then Some(e) else FindShadow(shadow, p)
  {
    if shadow != [] && shadow[0].param != e.param {
      FindPut(shadow[1..], e, p);
    }
  }

  lemma {:induction false} PutAt(shadow: seq<ShadowEntry>, e: ShadowEntry, i: nat)
    requires i <= |shadow| && forall j :: 0 <= j < i ==> shadow[j].param != e.param
    requires i < |shadow| ==> shadow[i].param == e.param
    ensures PutShadow(shadow, e) == if i < |shadow| then shadow[i := e] else shadow + [e]
    ensures FindShadow(shadow, e.param).Some? <==> i < |shadow|
  {
    if i > 0 {
      assert forall j :: 0 <= j < |shadow| - 1 ==> shadow[1..][j] == shadow[j + 1];
      PutAt(shadow[1..], e, i - 1);
    }
  }

  /** Every slot of the parameter is small enough to upload. */
  predicate Small(slots: seq<Slot>, param: u32) {
    forall i :: 0 <= i < |slots| && slots[i].param == param ==> slots[i].count <= 4
  }

  lemma ParamWrites(slot: Slot, e: ShadowEntry, k: Key)
    requires slot.param == e.param ==> slot.count <= 4
    ensures LastWrite(ParamCall(slot, e), k) ==
      if slot.param == e.param && Owns(slot, k) then Some(SlotRegister(slot, e, k.index - slot.base)) else None
  {
    if slot.param == e.param {
      UploadEffect(slot, e, k);
      SingleWrite(SlotCall(slot, e), k);
    }
  }

  lemma {:induction false} ParamOwns(slots: seq<Slot>, e: ShadowEntry, i: nat, k: Key)
    requires i < |slots| && slots[i].param == e.param && Owns(slots[i], k) && Small(slots, e.param)
    ensures LastWrite(ParamCalls(slots, e), k).Some?
  {
    var rest := slots[1..];
    assert forall j :: 0 <= j < |rest| ==> rest[j] == slots[j + 1];
    ParamWrites(slots[0], e, k);
    if i > 0 {
      ParamOwns(rest, e, i - 1, k);
    }
    LastWriteConcat(ParamCall(slots[0], e), ParamCalls(rest, e), k);
  }

  /** Only slots of the same parameter write a register that one of them owns. */
  lemma SameParamWrites(slot: Slot, rest: seq<Slot>, shadow: seq<ShadowEntry>, e: ShadowEntry, k: Key)
    requires forall j :: 0 <= j < |rest| ==> Apart(slot, rest[j])
    requires slot.param == e.param && Owns(slot, k) && Small(rest, e.param)
    ensures LastWrite(SeenCalls(rest, shadow), k).Some? ==> LastWrite(ParamCalls(rest, e), k).Some?
  {
    if j :| 0 <= j < |rest| && Uploads(rest[j], shadow, k) {
      assert Apart(slot, rest[j]);
      ParamOwns(rest, e, j, k);
    } else {
      NothingUploads(rest, shadow, k);
    }
  }

  lemma SeenFirst(slots: seq<Slot>, rest: seq<Slot>, shadow: seq<ShadowEntry>, k: Key)
    requires slots != [] && rest == slots[1..]
    ensures LastWrite(SeenCalls(slots, shadow), k)
         == if LastWrite(SeenCalls(rest, shadow), k).Some? then LastWrite(SeenCalls(rest, shadow), k)
            else LastWrite(SeenCall(slots[0], shadow), k)
  {
    LastWriteConcat(SeenCall(slots[0], shadow), SeenCalls(rest, shadow), k);
  }

  lemma ParamFirst(slots: seq<Slot>, rest: seq<Slot>, e: ShadowEntry, k: Key)
    requires slots != [] && rest == slots[1..]
    ensures LastWrite(ParamCalls(slots, e), k)
         == if LastWrite(ParamCalls(rest, e), k).Some? then LastWrite(ParamCalls(rest, e), k)
            else LastWrite(ParamCall(slots[0], e), k)
  {
    LastWriteConcat(ParamCall(slots[0], e), ParamCalls(rest, e), k);
  }

  /** After a parameter is set, replaying the shadow writes to each register what
      the upload of that parameter writes, or else what it wrote before. */
  lemma {:induction false} SeenUpdated(slots: seq<Slot>, shadow: seq<ShadowEntry>, e: ShadowEntry, k: Key)
    requires Disjoint(slots) && Small(slots, e.param)
    ensures LastWrite(SeenCalls(slots, PutShadow(shadow, e)), k)
         == if LastWrite(ParamCalls(slots, e), k).Some? then LastWrite(ParamCalls(slots, e), k)
            else LastWrite(SeenCalls(slots, shadow), k)
  {
    if slots != [] {
      var rest := slots[1..];
      assert forall j :: 0 <= j < |rest| ==> rest[j] == slots[j + 1];
      SeenUpdated(rest, shadow, e, k);
      SeenFirst(slots, rest, PutShadow(shadow, e), k);
      SeenFirst(slots, rest, shadow, k);
      ParamFirst(slots, rest, e, k);
      FirstUpdated(slots[0], shadow, e, k);
      if slots[0].param == e.param && Owns(slots[0], k) {
        SameParamWrites(slots[0], rest, shadow, e, k);
      }
    }
  }

  lemma FirstUpdated(slot: Slot, shadow: seq<ShadowEntry>, e: ShadowEntry, k: Key)
    requires slot.param == e.param ==> slot.count <= 4
    ensures LastWrite(SeenCall(slot, PutShadow(shadow, e)), k)
         == if slot.param == e.param then LastWrite(ParamCall(slot, e), k) else LastWrite(SeenCall(slot, shadow), k)
    ensures LastWrite(ParamCall(slot, e), k).Some? <==> slot.param == e.param && Owns(slot, k)
    ensures slot.param == e.param && !Owns(slot, k) ==> LastWrite(SeenCall(slot, shadow), k).None?
  {
    FindPut(shadow, e, slot.param);
    ParamWrites(slot, e, k);
    UploadWrites(slot, shadow, k);
  }

  // ---- What the registers of a parameter hold ---------------------------------------------

  /** A word of the data a parameter was set to; there are zeros behind it. */
  ghost function WordOf(data: seq<u32>, i: nat): u32 {
    if i < |data| then data[i] else 0
  }

  /** Register `r` of a slot holds its words of the data: those of column `r` if a
      matrix was set where the shader keeps columns, and otherwise words 4r to 4r+3. */
  ghost predicate Shows(contents: State, slot: Slot, r: nat, data: seq<u32>, asMatrix: bool) {
    ReadKey(contents, Key(Registers(slot.File()), slot.base + r)) == Some(
      if slot.matrix && slot.columns && asMatrix
      then [WordOf(data, r), WordOf(data, 4 + r), WordOf(data, 8 + r), WordOf(data, 12 + r)]
      else [WordOf(data, 4 * r), WordOf(data, 4 * r + 1), WordOf(data, 4 * r + 2), WordOf(data, 4 * r + 3)])
  }

  function EntryFor(param: u32, data: seq<u32>, asMatrix: bool): ShadowEntry
    requires |data| <= 16
  {
    ShadowEntry(param, |data|, asMatrix, Padded(data))
  }

  /** Slot `i` is the last slot of a parameter to have the register. */
  ghost predicate LastSlot(slots: seq<Slot>, param: u32, i: nat, k: Key) {
    && i < |slots| && slots[i].param == param && Owns(slots[i], k)
    && forall j :: i < j < |slots| && slots[j].param == param ==> !Owns(slots[j], k)
  }

  /** Every register of a parameter's slots holds its words of the data. */
  ghost predicate AllShown(slots: seq<Slot>, param: u32, data: seq<u32>, asMatrix: bool, contents: State) {
    forall i: nat, r: nat ::
      i < |slots| && LastSlot(slots, param, i, Key(Registers(slots[i].File()), slots[i].base + r)) ==>
        Shows(contents, slots[i], r, data, asMatrix)
  }

  /** The words of an entry's register are those of the data. */
  lemma EntryWords(slot: Slot, e: ShadowEntry, data: seq<u32>, asMatrix: bool, r: nat)
    requires |data| <= 16 && r < 4 && e == EntryFor(e.param, data, asMatrix)
    ensures SlotRegister(slot, e, r) ==
      if slot.matrix && slot.columns && asMatrix
      then [WordOf(data, r), WordOf(data, 4 + r), WordOf(data, 8 + r), WordOf(data, 12 + r)]
      else [WordOf(data, 4 * r), WordOf(data, 4 * r + 1), WordOf(data, 4 * r + 2), WordOf(data, 4 * r + 3)]
  {
    assert forall i :: 0 <= i < 16 ==> e.v[i] == WordOf(data, i);
  }

  lemma Reads(calls: seq<Call>, start: State, k: Key, value: Value)
    requires LastWrite(calls, k) == Some(value)
    ensures ReadKey(Run(calls, start), k) == Some(value)
  {
    RunReads(calls, start, k);
  }

  /** Calls whose last write to a register is a slot's upload show the data there. */
  lemma ShownBy(calls: seq<Call>, start: State, slot: Slot, e: ShadowEntry, data: seq<u32>, asMatrix: bool, r: nat, k: Key,
                value: Value)
    requires |data| <= 16 && r < 4 && e == EntryFor(e.param, data, asMatrix)
    requires k == Key(Registers(slot.File()), slot.base + r) && value == SlotRegister(slot, e, r)
    requires LastWrite(calls, k) == Some(value)
    ensures Shows(Run(calls, start), slot, r, data, asMatrix)
  {
    Reads(calls, start, k, value);
    EntryWords(slot, e, data, asMatrix, r);
  }

  lemma ParamStep(slots: seq<Slot>, first: Slot, rest: seq<Slot>, e: ShadowEntry, k: Key)
    requires slots == [first] + rest && (first.param == e.param ==> first.count <= 4)
    ensures LastWrite(ParamCalls(slots, e), k)
         == if LastWrite(ParamCalls(rest, e), k).Some? then LastWrite(ParamCalls(rest, e), k)
            else if first.param == e.param && Owns(first, k) then Some(SlotRegister(first, e, k.index - first.base)) else None
  {
    ParamFirst(slots, rest, e, k);
    ParamWrites(first, e, k);
  }

  /** The value an upload of a parameter leaves in a register. */
  ghost function ParamValue(slots: seq<Slot>, e: ShadowEntry, k: Key): Option<Value>
    requires Small(slots, e.param)
  {
    if slots == [] then None
    else
      assert forall j :: 0 <= j < |slots| - 1 ==> slots[1..][j] == slots[j + 1];
      var later := ParamValue(slots[1..], e, k);
      if later.Some? then later
      else if slots[0].param == e.param && Owns(slots[0], k) then Some(SlotRegister(slots[0], e, k.index - slots[0].base))
      else None
  }

  lemma {:induction false} ParamValueIs(slots: seq<Slot>, e: ShadowEntry, k: Key)
    requires Small(slots, e.param)
    ensures LastWrite(ParamCalls(slots, e), k) == ParamValue(slots, e, k)
  {
    if slots != [] {
      var rest := slots[1..];
      assert slots == [slots[0]] + rest && forall j :: 0 <= j < |rest| ==> rest[j] == slots[j + 1];
      ParamStep(slots, slots[0], rest, e, k);
      ParamValueIs(rest, e, k);
    }
  }

  lemma {:induction false} ParamHolds(slots: seq<Slot>, e: ShadowEntry, i: nat, k: Key)
    requires LastSlot(slots, e.param, i, k) && Small(slots, e.param)
    ensures ParamValue(slots, e, k) == Some(SlotRegister(slots[i], e, k.index - slots[i].base))
  {
    var rest := slots[1..];
    assert forall j :: 0 <= j < |rest| ==> rest[j] == slots[j + 1];
    if i > 0 {
      ParamHolds(rest, e, i - 1, k);
    } else {
      NoParamValue(rest, e, k);
    }
  }

  lemma {:induction false} NoParamValue(slots: seq<Slot>, e: ShadowEntry, k: Key)
    requires forall j :: 0 <= j < |slots| && slots[j].param == e.param ==> !Owns(slots[j], k)
    requires Small(slots, e.param)
    ensures ParamValue(slots, e, k) == None
  {
    if slots != [] {
      var rest := slots[1..];
      assert forall j :: 0 <= j < |rest| ==> rest[j] == slots[j + 1];
      NoParamValue(rest, e, k);
    }
  }

  lemma UploadShowsAt(slots: seq<Slot>, e: ShadowEntry, data: seq<u32>, asMatrix: bool, i: nat, r: nat, k: Key,
                      calls: seq<Call>, start: State)
    requires |data| <= 16 && e == EntryFor(e.param, data, asMatrix) && Small(slots, e.param) && calls == ParamCalls(slots, e)
    requires LastSlot(slots, e.param, i, k) && k == Key(Registers(slots[i].File()), slots[i].base + r)
    ensures Shows(Run(calls, start), slots[i], r, data, asMatrix)
  {
    var value := SlotRegister(slots[i], e, r);
    ParamHolds(slots, e, i, k);
    ParamValueIs(slots, e, k);
    ShownBy(calls, start, slots[i], e, data, asMatrix, r, k, value);
  }

  /** What uploading a parameter shows on the device. */
  lemma UploadShows(slots: seq<Slot>, e: ShadowEntry, data: seq<u32>, asMatrix: bool, calls: seq<Call>, start: State)
    requires |data| <= 16 && e == EntryFor(e.param, data, asMatrix) && Small(slots, e.param) && calls == ParamCalls(slots, e)
    ensures AllShown(slots, e.param, data, asMatrix, Run(calls, start))
  {
    forall i: nat, r: nat | i < |slots| && LastSlot(slots, e.param, i, Key(Registers(slots[i].File()), slots[i].base + r))
      ensures Shows(Run(calls, start), slots[i], r, data, asMatrix)
    {
      UploadShowsAt(slots, e, data, asMatrix, i, r, Key(Registers(slots[i].File()), slots[i].base + r), calls, start);
    }
  }

  lemma LastSlotUploads(slots: seq<Slot>, shadow: seq<ShadowEntry>, param: u32, i: nat, k: Key)
    requires Disjoint(slots) && Small(slots, param) && FindShadow(shadow, param).Some? && LastSlot(slots, param, i, k)
    ensures LastUpload(slots, shadow, i, k)
  {
    forall j | i < j < |slots| ensures !Uploads(slots[j], shadow, k) {
      assert Apart(slots[i], slots[j]);
    }
  }

  lemma ReplayHolds(slots: seq<Slot>, stages: seq<Stage>, ops: seq<Op>, shadow: seq<ShadowEntry>, textures: seq<TextureEntry>,
                    i: nat, k: Key, calls: seq<Call>, value: Value)
    requires |stages| == STAGES && LastUpload(slots, shadow, i, k) && value == Uploaded(slots[i], shadow, k)
    requires calls == ReplayCalls(slots, stages, ops, shadow, textures)
    ensures LastWrite(calls, k) == Some(value)
  {
    SeenHolds(slots, shadow, i, k);
    AfterOps(OpCalls(slots, shadow, ops), SeenCalls(slots, shadow), stages, textures, k, value);
  }

  lemma ReplayShowsAt(slots: seq<Slot>, stages: seq<Stage>, ops: seq<Op>, shadow: seq<ShadowEntry>, textures: seq<TextureEntry>,
                      e: ShadowEntry, data: seq<u32>, asMatrix: bool, i: nat, r: nat, k: Key, calls: seq<Call>, start: State)
    requires |stages| == STAGES && |data| <= 16 && Disjoint(slots) && Small(slots, e.param)
    requires e == EntryFor(e.param, data, asMatrix) && FindShadow(shadow, e.param) == Some(e)
    requires calls == ReplayCalls(slots, stages, ops, shadow, textures)
    requires LastSlot(slots, e.param, i, k) && k == Key(Registers(slots[i].File()), slots[i].base + r)
    ensures Shows(Run(calls, start), slots[i], r, data, asMatrix)
  {
    var value := SlotRegister(slots[i], e, r);
    LastSlotUploads(slots, shadow, e.param, i, k);
    ReplayHolds(slots, stages, ops, shadow, textures, i, k, calls, value);
    ShownBy(calls, start, slots[i], e, data, asMatrix, r, k, value);
  }

  /** What a replay shows of every parameter that has been set. */
  lemma ReplayShows(slots: seq<Slot>, stages: seq<Stage>, ops: seq<Op>, shadow: seq<ShadowEntry>, textures: seq<TextureEntry>,
                    e: ShadowEntry, data: seq<u32>, asMatrix: bool, calls: seq<Call>, start: State)
    requires |stages| == STAGES && |data| <= 16 && Disjoint(slots) && Small(slots, e.param)
    requires e == EntryFor(e.param, data, asMatrix) && FindShadow(shadow, e.param) == Some(e)
    requires calls == ReplayCalls(slots, stages, ops, shadow, textures)
    ensures AllShown(slots, e.param, data, asMatrix, Run(calls, start))
  {
    forall i: nat, r: nat | i < |slots| && LastSlot(slots, e.param, i, Key(Registers(slots[i].File()), slots[i].base + r))
      ensures Shows(Run(calls, start), slots[i], r, data, asMatrix)
    {
      ReplayShowsAt(slots, stages, ops, shadow, textures, e, data, asMatrix, i, r,
        Key(Registers(slots[i].File()), slots[i].base + r), calls, start);
    }
  }

  lemma AfterOps(calls: seq<Call>, seen: seq<Call>, stages: seq<Stage>, textures: seq<TextureEntry>, k: Key, value: Value)
    requires |stages| == STAGES && IsFloatKey(k) && LastWrite(seen, k) == Some(value)
    ensures LastWrite(calls + seen + StageCalls(stages, textures, 0), k) == Some(value)
  {
    StagesWrite(stages, textures, 0, k);
    LastWriteConcat(calls + seen, StageCalls(stages, textures, 0), k);
    LastWriteConcat(calls, seen, k);
  }

  /** The encodings on numbers: a matrix by columns and by rows, and six words of
      anything else. */
  lemma EncodingExamples(contents: State)
    ensures var data := seq(16, i => i);
      Shows(contents, Slot(1, true, 8, 4, true, true), 1, data, true)
      <==> ReadKey(contents, Key(Registers(VsFloat), 9)) == Some([1, 5, 9, 13])
    ensures var data := seq(16, i => i);
      Shows(contents, Slot(1, true, 8, 4, true, false), 1, data, true)
      <==> ReadKey(contents, Key(Registers(VsFloat), 9)) == Some([4, 5, 6, 7])
    ensures Shows(contents, Slot(1, false, 8, 2, false, false), 1, [10, 11, 12, 13, 14, 15], false)
      <==> ReadKey(contents, Key(Registers(PsFloat), 9)) == Some([14, 15, 0, 0])
  {
  }

  // ---- Setting a parameter --------------------------------------------------------------

  method IsCoverable(slots: seq<Slot>, param: u32) returns (covered: bool)
    ensures covered == Coverable(slots, param)
  {
    covered := false;
    for i := 0 to |slots|
      invariant covered <==> exists j :: 0 <= j < i && slots[j].param == param
      invariant forall j :: 0 <= j < i && slots[j].param == param ==> slots[j].count <= 4
    {
      if slots[i].param != param {
        continue;
      }
      if slots[i].count > 4 {
        return false;
      }
      covered := true;
    }
  }

  predicate Settable(slots: seq<Slot>, shadow: seq<ShadowEntry>, param: u32, data: Option<seq<u32>>) {
    && param != 0 && data.Some? && 0 < |data.value| <= 16 && Coverable(slots, param)
    && (FindShadow(shadow, param).Some? || |shadow| < MAX_SHADOW)
  }

  /** The entry is the parameter's value now; the others have theirs still. */
  ghost predicate HoldsNow(shadow: seq<ShadowEntry>, before: seq<ShadowEntry>, e: ShadowEntry) {
    forall p :: FindShadow(shadow, p) == if p == e.param then Some(e) else FindShadow(before, p)
  }

  /** A parameter set by the game: it goes to the shadow and, inside a transaction,
      to the registers of its slots, which then hold what a replay would write. */
  method HandleSet(plans: EffectPlans, plan: Plan, journal: Journal, param: u32,
                   data: Option<seq<u32>>, asMatrix: bool, current: u32) returns (handled: bool)
    requires journal.Valid()
    modifies plans`shadow, journal, journal.device
    ensures journal.Valid() && Kept(journal)
    ensures handled <==> Settable(plan.slots, old(plans.shadow), param, data)
    ensures handled <==>
      && param != 0 && data.Some? && 1 <= |data.value| <= 16
      && (exists i :: 0 <= i < |plan.slots| && plan.slots[i].param == param)
      && (forall i :: 0 <= i < |plan.slots| && plan.slots[i].param == param ==> plan.slots[i].count <= 4)
      && ((exists j :: 0 <= j < |old(plans.shadow)| && old(plans.shadow)[j].param == param) || |old(plans.shadow)| < 128)
    ensures handled ==> HoldsNow(plans.shadow, old(plans.shadow), EntryFor(param, data.value, asMatrix))
    ensures !handled ==> plans.shadow == old(plans.shadow)
    ensures !handled || !journal.active ==> journal.device.contents == old(journal.device.contents)
    ensures old(Ready(journal, current)) && handled && journal.active && Disjoint(plan.slots)
      && Accepts(old(journal.device.contents), ParamCalls(plan.slots, EntryFor(param, data.value, asMatrix)))
      && InSync(plan.slots, old(plans.shadow), old(journal.device.contents))
      ==> Ready(journal, current) && InSync(plan.slots, plans.shadow, journal.device.contents)
    ensures old(Ready(journal, current)) && handled && journal.active
      && Accepts(old(journal.device.contents), ParamCalls(plan.slots, EntryFor(param, data.value, asMatrix)))
      ==> AllShown(plan.slots, param, data.value, asMatrix, journal.device.contents)
  {
    FindShadowIff(plans.shadow, param);
    if param == 0 || data == None || data.value == [] || |data.value| > 16 {
      return false;
    }
    var covered := IsCoverable(plan.slots, param);
    if !covered {
      return false;
    }
    var e := EntryFor(param, data.value, asMatrix);
    var stored := StoreShadow(plans, e);
    if !stored {
      return false;
    }
    ghost var start := journal.device.contents;
    if journal.active {
      SubmitParam(plan.slots, journal, e, current);
      if journal.device.contents == Run(ParamCalls(plan.slots, e), start) {
        UploadShows(plan.slots, e, data.value, asMatrix, ParamCalls(plan.slots, e), start);
      }
      if Disjoint(plan.slots) && journal.device.contents == Run(ParamCalls(plan.slots, e), start) {
        SetInSync(plan.slots, old(plans.shadow), e, start);
      }
    }
    return true;
  }

  lemma {:induction false} FindShadowIff(shadow: seq<ShadowEntry>, param: u32)
    ensures FindShadow(shadow, param).Some? <==> exists j :: 0 <= j < |shadow| && shadow[j].param == param
  {
    if shadow != [] {
      FindShadowIff(shadow[1..], param);
      assert forall j :: 0 < j < |shadow| ==> shadow[j] == shadow[1..][j - 1];
      if FindShadow(shadow[1..], param).Some? {
        var j :| 0 <= j < |shadow[1..]| && shadow[1..][j].param == param;
        assert shadow[j + 1].param == param;
      }
    }
  }

  method StoreShadow(plans: EffectPlans, e: ShadowEntry) returns (stored: bool)
    modifies plans`shadow
    ensures stored <==> FindShadow(old(plans.shadow), e.param).Some? || |old(plans.shadow)| < MAX_SHADOW
    ensures plans.shadow == if stored then PutShadow(old(plans.shadow), e) else old(plans.shadow)
    ensures stored ==> HoldsNow(plans.shadow, old(plans.shadow), e)
  {
    var shadow := plans.shadow;
    forall p {
      FindPut(shadow, e, p);
    }
    var i := 0;
    while i < |shadow| && shadow[i].param != e.param
      invariant 0 <= i <= |shadow|
      invariant forall j :: 0 <= j < i ==> shadow[j].param != e.param
    {
      i := i + 1;
    }
    PutAt(shadow, e, i);
    if i == |shadow| {
      if |shadow| >= MAX_SHADOW {
        return false;
      }
      plans.shadow := shadow + [e];
    } else {
      plans.shadow := shadow[i := e];
    }
    return true;
  }

  /** One slot's registers, from its shadow value, through the journal. */
  method SubmitSlot(slot: Slot, e: ShadowEntry, journal: Journal, current: u32,
                    ghost all: seq<Call>, ghost start: State, ghost rest: seq<Call>)
    requires journal.Valid()
    modifies journal, journal.device
    ensures journal.Valid() && Kept(journal)
    ensures old(Ready(journal, current)) && Pending(all, start, [SlotCall(slot, e)] + rest, old(journal.device.contents)) ==>
      Ready(journal, current) && Pending(all, start, rest, journal.device.contents)
  {
    var values := FillSlot(slot, e);
    SubmitAll(journal, [SetConstants(slot.File(), slot.base, values)], current, all, start, rest);
  }

  method SubmitParam(slots: seq<Slot>, journal: Journal, e: ShadowEntry, current: u32)
    requires journal.Valid()
    modifies journal, journal.device
    ensures journal.Valid() && Kept(journal)
    ensures old(Ready(journal, current)) && Accepts(old(journal.device.contents), ParamCalls(slots, e)) ==>
      Ready(journal, current) && journal.device.contents == Run(ParamCalls(slots, e), old(journal.device.contents))
  {
    ghost var all, start := ParamCalls(slots, e), journal.device.contents;
    ghost var good := Ready(journal, current) && Accepts(start, all);
    assert slots[0..] == slots;
    for i := 0 to |slots|
      invariant journal.Valid() && Kept(journal)
      invariant good ==> Ready(journal, current) && Pending(all, start, ParamCalls(slots[i..], e), journal.device.contents)
    {
      assert slots[i..][0] == slots[i] && slots[i..][1..] == slots[i + 1..];
      if slots[i].param == e.param {
        SubmitSlot(slots[i], e, journal, current, all, start, ParamCalls(slots[i + 1..], e));
      } else {
        assert ParamCalls(slots[i..], e) == ParamCalls(slots[i + 1..], e);
      }
    }
  }

  lemma SetInSync(slots: seq<Slot>, shadow: seq<ShadowEntry>, e: ShadowEntry, start: State)
    requires Disjoint(slots) && Small(slots, e.param)
    ensures InSync(slots, shadow, start) ==> InSync(slots, PutShadow(shadow, e), Run(ParamCalls(slots, e), start))
  {
    forall k ensures
      ReadKey(Run(ParamCalls(slots, e), start), k)
      == if LastWrite(ParamCalls(slots, e), k).Some? then LastWrite(ParamCalls(slots, e), k) else ReadKey(start, k)
    {
      RunReads(ParamCalls(slots, e), start, k);
    }
    if InSync(slots, shadow, start) {
      forall k | LastWrite(SeenCalls(slots, PutShadow(shadow, e)), k).Some?
        ensures ReadKey(Run(ParamCalls(slots, e), start), k) == LastWrite(SeenCalls(slots, PutShadow(shadow, e)), k)
      {
        SeenUpdated(slots, shadow, e, k);
      }
    }
  }

  // ---- Replaying ----------------------------------------------------------------------------

  /** Uploads every seen value; the registers of seen slots then hold the shadow. */
  method ReplaySeen(plans: EffectPlans, slots: seq<Slot>, journal: Journal, current: u32,
                    ghost all: seq<Call>, ghost start: State, ghost rest: seq<Call>)
    requires journal.Valid()
    modifies journal, journal.device
    ensures journal.Valid() && Kept(journal)
    ensures old(Ready(journal, current)) && Pending(all, start, SeenCalls(slots, plans.shadow) + rest, old(journal.device.contents)) ==>
      Ready(journal, current) && Pending(all, start, rest, journal.device.contents)
  {
    ghost var good := Ready(journal, current)
      && Pending(all, start, SeenCalls(slots, plans.shadow) + rest, journal.device.contents);
    assert slots[0..] == slots;
    for i := 0 to |slots|
      invariant journal.Valid() && Kept(journal)
      invariant good ==> Ready(journal, current)
      invariant good ==> Pending(all, start, SeenCalls(slots[i..], plans.shadow) + rest, journal.device.contents)
    {
      var s := slots[i];
      assert slots[i..][0] == s && slots[i..][1..] == slots[i + 1..];
      ghost var left := SeenCalls(slots[i + 1..], plans.shadow) + rest;
      assert SeenCalls(slots[i..], plans.shadow) + rest == SeenCall(s, plans.shadow) + left;
      if s.count > 4 {
        assert [] + left == left;
        continue;
      }
      var found := FindShadow(plans.shadow, s.param);
      if found.Some? {
        SubmitSlot(s, found.value, journal, current, all, start, left);
      } else {
        assert [] + left == left;
      }
    }
    assert SeenCalls(slots[|slots|..], plans.shadow) + rest == rest;
  }

  lemma SeenInSync(slots: seq<Slot>, shadow: seq<ShadowEntry>, before: State)
    ensures InSync(slots, shadow, Run(SeenCalls(slots, shadow), before))
  {
    forall k | LastWrite(SeenCalls(slots, shadow), k).Some?
      ensures ReadKey(Run(SeenCalls(slots, shadow), before), k) == LastWrite(SeenCalls(slots, shadow), k)
    {
      RunReads(SeenCalls(slots, shadow), before, k);
    }
  }

  method IsSeen(shadow: seq<ShadowEntry>, param: u32) returns (seen: bool)
    ensures seen == FindShadow(shadow, param).Some?
    ensures seen <==> exists j :: 0 <= j < |shadow| && shadow[j].param == param
  {
    seen := false;
    assert shadow[0..] == shadow;
    for i := 0 to |shadow|
      invariant !seen && FindShadow(shadow, param).Some? == FindShadow(shadow[i..], param).Some?
      invariant forall j :: 0 <= j < i ==> shadow[j].param != param
    {
      if shadow[i].param == param {
        seen := true;
        break;
      }
    }
  }

  method CoveredBySeenShadow(shadow: seq<ShadowEntry>, slots: seq<Slot>, vs: bool, start: u32, n: u32)
    returns (covered: bool)
    ensures covered == CoveredBySeen(slots, shadow, vs, start, n)
    ensures covered <==>
      && (exists i :: 0 <= i < |slots| && slots[i].Overlaps(vs, start, n))
      && (forall i :: 0 <= i < |slots| && slots[i].Overlaps(vs, start, n) ==>
            exists j :: 0 <= j < |shadow| && shadow[j].param == slots[i].param)
  {
    covered := false;
    IntersectsIff(slots, vs, start, n);
    for i := 0 to |slots|
      invariant covered <==> exists j :: 0 <= j < i && slots[j].Overlaps(vs, start, n)
      invariant forall j :: 0 <= j < i && slots[j].Overlaps(vs, start, n) ==> FindShadow(shadow, slots[j].param).Some?
      invariant forall j :: 0 <= j < i && slots[j].Overlaps(vs, start, n) ==>
        exists m :: 0 <= m < |shadow| && shadow[m].param == slots[j].param
    {
      var s := slots[i];
      if s.vs != vs {
        continue;
      }
      if !(start < Add32(s.base, s.count) && s.base < Add32(start, n)) {
        continue;
      }
      covered := true;
      var seen := IsSeen(shadow, s.param);
      if !seen {
        return false;
      }
    }
  }

  /** One recorded op, unless it is skipped. */
  method ApplyOp(op: Op, shadow: seq<ShadowEntry>, slots: seq<Slot>, journal: Journal, current: u32,
                 ghost all: seq<Call>, ghost start: State, ghost rest: seq<Call>)
    requires journal.Valid()
    modifies journal, journal.device
    ensures journal.Valid() && Kept(journal)
    ensures old(Ready(journal, current)) && Pending(all, start, OpCall(slots, shadow, op) + rest, old(journal.device.contents)) ==>
      Ready(journal, current) && Pending(all, start, rest, journal.device.contents)
  {
    var skip := op.code == OP_TEXTURE;
    if op.code == OP_VS_CONST_F || op.code == OP_PS_CONST_F {
      skip := CoveredBySeenShadow(shadow, slots, op.code == OP_VS_CONST_F, op.a, op.b);
    }
    var calls := [];
    if !skip && Decode(op).Some? {
      calls := [Decode(op).value];
    }
    SubmitAll(journal, calls, current, all, start, rest);
  }

  lemma OpsAt(s: seq<byte>, p: nat, next: nat)
    requires p <= |s|
    requires WholeAt(s, p) ==> next == p + OpSize(OpAt(s, p))
    ensures Visited(s[p..]) == if WholeAt(s, p) then [OpAt(s, p)] + Visited(s[next..]) else []
  {
    FrontAt(s, p);
  }

  /** Every op of the recording that is not skipped. */
  method ApplyRecording(rec: seq<byte>, shadow: seq<ShadowEntry>, slots: seq<Slot>, journal: Journal, current: u32,
                        ghost all: seq<Call>, ghost start: State, ghost rest: seq<Call>)
    requires journal.Valid()
    modifies journal, journal.device
    ensures journal.Valid() && Kept(journal)
    ensures old(Ready(journal, current))
      && Pending(all, start, OpCalls(slots, shadow, Visited(rec)) + rest, old(journal.device.contents))
      ==> Ready(journal, current) && Pending(all, start, rest, journal.device.contents)
  {
    ghost var good := Ready(journal, current)
      && Pending(all, start, OpCalls(slots, shadow, Visited(rec)) + rest, journal.device.contents);
    var p := 0;
    assert rec[0..] == rec;
    while p + HEADER_SIZE <= |rec|
      invariant p <= |rec| && journal.Valid() && Kept(journal)
      invariant good ==> Ready(journal, current)
      invariant good ==> Pending(all, start, OpCalls(slots, shadow, Visited(rec[p..])) + rest, journal.device.contents)
    {
      var h := HeaderAt(rec, p);
      if p + HEADER_SIZE + h.bytes > |rec| {
        break;
      }
      var op := Op(h.code, h.a, h.b, PayloadAt(rec, p, h.bytes));
      var next := p + HEADER_SIZE + h.bytes;
      OpsAt(rec, p, next);
      ghost var later := OpCalls(slots, shadow, Visited(rec[next..])) + rest;
      OpsSplit(slots, shadow, op, Visited(rec[next..]), rest);
      ApplyOp(op, shadow, slots, journal, current, all, start, later);
      p := next;
    }
    OpsAt(rec, p, p);
    assert OpCalls(slots, shadow, []) + rest == rest;
  }

  lemma OpsSplit(slots: seq<Slot>, shadow: seq<ShadowEntry>, op: Op, ops: seq<Op>, rest: seq<Call>)
    ensures OpCalls(slots, shadow, [op] + ops) + rest == OpCall(slots, shadow, op) + (OpCalls(slots, shadow, ops) + rest)
  {
    assert ([op] + ops)[1..] == ops;
  }

  method ApplyStages(textures: seq<TextureEntry>, stages: seq<Stage>, journal: Journal, current: u32,
                     ghost all: seq<Call>, ghost start: State)
    requires journal.Valid() && |stages| == STAGES
    modifies journal, journal.device
    ensures journal.Valid() && Kept(journal)
    ensures old(Ready(journal, current)) && Pending(all, start, StageCalls(stages, textures, 0), old(journal.device.contents)) ==>
      Ready(journal, current) && Pending(all, start, [], journal.device.contents)
  {
    ghost var good := Ready(journal, current) && Pending(all, start, StageCalls(stages, textures, 0), journal.device.contents);
    for stage := 0 to STAGES
      invariant journal.Valid() && Kept(journal)
      invariant good ==> Ready(journal, current)
      invariant good ==> Pending(all, start, StageCalls(stages, textures, stage), journal.device.contents)
    {
      var calls := [];
      if stages[stage].Dynamic? {
        var found := FindTexture(textures, stages[stage].param);
        calls := [SetTexture(stage, if found.Some? then found.value else 0)];
      } else if stages[stage].Static? {
        calls := [SetTexture(stage, stages[stage].texture)];
      }
      SubmitAll(journal, calls, current, all, start, StageCalls(stages, textures, stage + 1));
    }
  }

  /** Replays a validated pass through the journal. Whatever fails, the journal can
      still undo all of it; with a sound device the result is the whole replay. */
  method ApplyPassLite(plans: EffectPlans, plan: Plan, journal: Journal, current: u32)
    requires journal.Valid() && |plan.stages| == STAGES
    modifies journal, journal.device
    ensures journal.Valid() && Kept(journal)
    ensures var calls := ReplayCalls(plan.slots, plan.stages, Visited(plan.rec1), plans.shadow, plans.textures);
      old(Ready(journal, current)) && Accepts(old(journal.device.contents), calls)
      ==> Ready(journal, current) && journal.device.contents == Run(calls, old(journal.device.contents))
  {
    ghost var start := journal.device.contents;
    ghost var ops := OpCalls(plan.slots, plans.shadow, Visited(plan.rec1));
    ghost var seen := SeenCalls(plan.slots, plans.shadow);
    ghost var textures := StageCalls(plan.stages, plans.textures, 0);
    ghost var all := ops + seen + textures;
    assert all == ops + (seen + textures);
    ApplyRecording(plan.rec1, plans.shadow, plan.slots, journal, current, all, start, seen + textures);
    ReplaySeen(plans, plan.slots, journal, current, all, start, textures);
    ApplyStages(plans.textures, plan.stages, journal, current, all, start);
  }

  datatype Setting = Setting(param: u32, data: Option<seq<u32>>, asMatrix: bool)

  /** Setting `i` was taken, and no later one of its parameter was. */
  ghost predicate LastTaken(sets: seq<Setting>, handled: seq<bool>, i: nat) {
    && i < |sets| && i < |handled| <= |sets| && handled[i]
    && forall j :: i < j < |handled| && handled[j] ==> sets[j].param != sets[i].param
  }

  /** The shadow holds the last settings that were taken. */
  ghost predicate Current(slots: seq<Slot>, shadow: seq<ShadowEntry>, sets: seq<Setting>, handled: seq<bool>) {
    forall i: nat :: LastTaken(sets, handled, i) ==>
      && sets[i].data.Some? && |sets[i].data.value| <= 16 && Small(slots, sets[i].param)
      && FindShadow(shadow, sets[i].param) == Some(EntryFor(sets[i].param, sets[i].data.value, sets[i].asMatrix))
  }

  lemma CurrentNext(slots: seq<Slot>, before: seq<ShadowEntry>, after: seq<ShadowEntry>, sets: seq<Setting>,
                    handled: seq<bool>, taken: bool)
    requires |handled| < |sets| && Current(slots, before, sets, handled)
    requires var s := sets[|handled|];
      if taken then s.data.Some? && |s.data.value| <= 16 && Small(slots, s.param)
        && HoldsNow(after, before, EntryFor(s.param, s.data.value, s.asMatrix))
      else after == before
    ensures Current(slots, after, sets, handled + [taken])
  {
    var more := handled + [taken];
    forall i: nat | LastTaken(sets, more, i)
      ensures sets[i].data.Some? && |sets[i].data.value| <= 16 && Small(slots, sets[i].param)
      ensures FindShadow(after, sets[i].param) == Some(EntryFor(sets[i].param, sets[i].data.value, sets[i].asMatrix))
    {
      if i < |handled| {
        assert LastTaken(sets, handled, i) by {
          assert forall j :: i < j < |handled| ==> more[j] == handled[j];
        }
        assert taken ==> sets[|handled|].param != sets[i].param by {
          assert more[|handled|] == taken;
        }
      }
    }
  }

  /** Any row of settings, inside a transaction or not, and then a replay: every
      register of the plan's slots shows the data its parameter was last set to. */
  method SetAndReplay(plans: EffectPlans, plan: Plan, journal: Journal, current: u32, sets: seq<Setting>)
    returns (handled: seq<bool>)
    requires journal.Valid() && |plan.stages| == STAGES
    modifies plans`shadow, journal, journal.device
    ensures journal.Valid() && Kept(journal) && |handled| == |sets| && plans.textures == old(plans.textures)
    ensures var calls := ReplayCalls(plan.slots, plan.stages, Visited(plan.rec1), plans.shadow, plans.textures);
      old(Ready(journal, current)) && Disjoint(plan.slots) && Accepts(journal.device.contents, calls) ==>
        forall i: nat :: LastTaken(sets, handled, i) ==>
          sets[i].data.Some? && AllShown(plan.slots, sets[i].param, sets[i].data.value, sets[i].asMatrix, journal.device.contents)
  {
    handled := [];
    for n := 0 to |sets|
      invariant journal.Valid() && Kept(journal) && |handled| == n && plans.textures == old(plans.textures)
      invariant Current(plan.slots, plans.shadow, sets, handled)
    {
      ghost var before := plans.shadow;
      var taken := HandleSet(plans, plan, journal, sets[n].param, sets[n].data, sets[n].asMatrix, current);
      CurrentNext(plan.slots, before, plans.shadow, sets, handled, taken);
      handled := handled + [taken];
    }
    ghost var start := journal.device.contents;
    ApplyPassLite(plans, plan, journal, current);
    ghost var calls := ReplayCalls(plan.slots, plan.stages, Visited(plan.rec1), plans.shadow, plans.textures);
    if old(Ready(journal, current)) && Disjoint(plan.slots) && Accepts(journal.device.contents, calls) {
      AcceptsKeys(journal.device.contents, start, calls);
      forall i: nat | LastTaken(sets, handled, i)
        ensures sets[i].data.Some?
        ensures AllShown(plan.slots, sets[i].param, sets[i].data.value, sets[i].asMatrix, journal.device.contents)
      {
        ReplayShows(plan.slots, plan.stages, Visited(plan.rec1), plans.shadow, plans.textures,
          EntryFor(sets[i].param, sets[i].data.value, sets[i].asMatrix), sets[i].data.value, sets[i].asMatrix, calls, start);
      }
    }
  }

  /** Replay inside a transaction: a restore that succeeds undoes all of it. */
  method ReplayTransaction(plans: EffectPlans, plan: Plan, journal: Journal, current: u32) returns (began: bool, result: Result, ghost middle: State)
    requires journal.Valid() && |plan.stages| == STAGES
    modifies journal, journal.device
    ensures journal.Valid()
    ensures var calls := ReplayCalls(plan.slots, plan.stages, Visited(plan.rec1), plans.shadow, plans.textures);
      began && old(journal.device.faults) == [] && Accepts(old(journal.device.contents), calls)
      ==> middle == Run(calls, old(journal.device.contents))
    ensures began && result == Ok ==> journal.device.contents == old(journal.device.contents)
    ensures began && old(journal.device.faults) == [] ==> result == Ok
  {
    var started := journal.BeginTransaction(current, current);
    if started != Ok {
      return false, started, journal.device.contents;
    }
    ApplyPassLite(plans, plan, journal, current);
    middle := journal.device.contents;
    result := journal.Restore(current);
    began := true;
  }

  /** The stage table after one recorded op. */
  method LearnBinding(textures: seq<TextureEntry>, before: seq<Stage>, op: Op) returns (stages: seq<Stage>)
    requires |before| == STAGES
    ensures stages == LearnOp(before, textures, op)
  {
    stages := before;
    if op.code != OP_TEXTURE || op.a >= STAGES || ReadPointer(op.payload) == None {
      return;
    }
    var recorded := ReadPointer(op.payload).value;
    stages := stages[op.a := Static(recorded)];
    if recorded != 0 {
      assert textures[0..] == textures;
      for i := 0 to |textures|
        invariant ParamOf(textures, recorded) == ParamOf(textures[i..], recorded)
      {
        if textures[i].texture == recorded {
          return before[op.a := Dynamic(textures[i].param)];
        }
      }
    }
  }

  /** Learns from a recording how each stage's texture is to be rebound. */
  method LearnStages(textures: seq<TextureEntry>, rec: seq<byte>, before: seq<Stage>) returns (stages: seq<Stage>)
    requires |before| == STAGES
    ensures stages == Learn(before, textures, Visited(rec))
  {
    stages := before;
    var p := 0;
    assert rec[0..] == rec;
    while p + HEADER_SIZE <= |rec|
      invariant p <= |rec| && |stages| == STAGES
      invariant Learn(before, textures, Visited(rec)) == Learn(stages, textures, Visited(rec[p..]))
    {
      var h := HeaderAt(rec, p);
      if p + HEADER_SIZE + h.bytes > |rec| {
        break;
      }
      var op := Op(h.code, h.a, h.b, PayloadAt(rec, p, h.bytes));
      var next := p + HEADER_SIZE + h.bytes;
      OpsAt(rec, p, next);
      LearnFirst(stages, textures, op, Visited(rec[next..]));
      stages := LearnBinding(textures, stages, op);
      p := next;
    }
    OpsAt(rec, p, p);
  }

  lemma LearnFirst(stages: seq<Stage>, textures: seq<TextureEntry>, op: Op, ops: seq<Op>)
    requires |stages| == STAGES
    ensures Learn(stages, textures, [op] + ops) == Learn(LearnOp(stages, textures, op), textures, ops)
  {
    assert ([op] + ops)[1..] == ops;
  }
}
