// How far a replay leaves the device as the recorded pass left it, key by key.
module PassFidelity {
  import opened Words
  import opened OpStream
  import opened DeviceState
  import opened PassRecording
  import opened PassReplay

  /** A pass whose every call can be read back from its op. */
  predicate Recordable(calls: seq<Call>) {
    forall i :: 0 <= i < |calls| ==> WellTyped(calls[i]) && Packs(calls[i])
  }

  /** A recorded call that replay leaves out: a texture, or a float range whose
      overlapped slots have all been seen. */
  predicate SkippedCall(slots: seq<Slot>, shadow: seq<ShadowEntry>, call: Call) {
    || call.SetTexture?
    || (IsFloatRange(call) && CoveredBySeen(slots, shadow, call.file == VsFloat, call.start, Wrap(|call.values|)))
  }

  predicate IsFloatRange(call: Call) {
    call.SetConstants? && (call.file == VsFloat || call.file == PsFloat)
  }

  lemma SkippedCallIs(slots: seq<Slot>, shadow: seq<ShadowEntry>, call: Call)
    ensures Skipped(slots, shadow, Encode(call)) <==> SkippedCall(slots, shadow, call)
  {
  }

  /** The calls of a pass that replay repeats from the recording. */
  function Unskipped(slots: seq<Slot>, shadow: seq<ShadowEntry>, calls: seq<Call>): seq<Call> {
    if calls == [] then []
    else
      var init, last := Unskipped(slots, shadow, calls[..|calls| - 1]), calls[|calls| - 1];
      if SkippedCall(slots, shadow, last) then init else init + [last]
  }

  lemma RecordedOp(slots: seq<Slot>, shadow: seq<ShadowEntry>, init: seq<Call>, last: Call) returns (op: Op)
    requires WellTyped(last) && Packs(last)
    ensures EncodeAll(init + [last]) == EncodeAll(init) + [op]
    ensures OpCalls(slots, shadow, [op]) == if SkippedCall(slots, shadow, last) then [] else [last]
  {
    op := Encode(last);
    SkippedCallIs(slots, shadow, last);
    DecodeEncodeIff(last);
    assert [op][1..] == [];
  }

  lemma {:induction false} OpCallsAreUnskipped(slots: seq<Slot>, shadow: seq<ShadowEntry>, calls: seq<Call>)
    requires Recordable(calls)
    ensures OpCalls(slots, shadow, EncodeAll(calls)) == Unskipped(slots, shadow, calls)
  {
    if calls != [] {
      var init, last := calls[..|calls| - 1], calls[|calls| - 1];
      assert init + [last] == calls;
      RecordableParts(init, last);
      OpCallsAreUnskipped(slots, shadow, init);
      var op := RecordedOp(slots, shadow, init, last);
      OpCallsConcat(slots, shadow, EncodeAll(init), [op]);
    }
  }

  /** The last call that writes a key is one that replay repeats. */
  predicate LastRepeated(slots: seq<Slot>, shadow: seq<ShadowEntry>, calls: seq<Call>, k: Key) {
    calls != [] ==>
      var last := calls[|calls| - 1];
      if k in Effect(last) then !SkippedCall(slots, shadow, last)
      else LastRepeated(slots, shadow, calls[..|calls| - 1], k)
  }

  /** One call further, seen from a key. */
  lemma UnskippedStep(slots: seq<Slot>, shadow: seq<ShadowEntry>, init: seq<Call>, last: Call, k: Key)
    ensures LastWrite(Unskipped(slots, shadow, init + [last]), k)
         == if k in Effect(last) && !SkippedCall(slots, shadow, last) then Some(Effect(last)[k])
            else LastWrite(Unskipped(slots, shadow, init), k)
  {
    var kept := Unskipped(slots, shadow, init);
    assert (init + [last])[..|init|] == init;
    assert (kept + [last])[..|kept|] == kept;
  }

  lemma {:induction false} RepeatedHolds(slots: seq<Slot>, shadow: seq<ShadowEntry>, calls: seq<Call>, k: Key)
    requires LastRepeated(slots, shadow, calls, k)
    ensures LastWrite(Unskipped(slots, shadow, calls), k) == LastWrite(calls, k)
  {
    if calls != [] {
      var init, last := calls[..|calls| - 1], calls[|calls| - 1];
      assert init + [last] == calls;
      UnskippedStep(slots, shadow, init, last, k);
      if k !in Effect(last) {
        RepeatedHolds(slots, shadow, init, k);
      }
    }
  }

  /** The stage table before anything is learnt. */
  function Fresh(): (stages: seq<Stage>)
    ensures |stages| == STAGES && forall s :: 0 <= s < STAGES ==> stages[s] == Untouched
  {
    seq(STAGES, _ => Untouched)
  }

  predicate IsFloatKey(k: Key) {
    k.bank == Registers(VsFloat) || k.bank == Registers(PsFloat)
  }

  lemma {:induction false} OthersRepeated(slots: seq<Slot>, shadow: seq<ShadowEntry>, calls: seq<Call>, k: Key)
    requires !IsFloatKey(k) && k.bank != Textures
    ensures LastRepeated(slots, shadow, calls, k)
  {
    if calls != [] {
      OthersRepeated(slots, shadow, calls[..|calls| - 1], k);
    }
  }

  // ---- The rest of a replay ---------------------------------------------------------

  lemma SeenWriteFloats(slots: seq<Slot>, shadow: seq<ShadowEntry>, k: Key)
    requires !IsFloatKey(k)
    ensures LastWrite(SeenCalls(slots, shadow), k) == None
  {
    forall j | 0 <= j < |slots| ensures !Uploads(slots[j], shadow, k) {
      assert IsFloatKey(Key(Registers(slots[j].File()), k.index));
    }
    NothingUploads(slots, shadow, k);
  }

  /** What the stage table rebinds a stage to. */
  function StageTexture(stage: Stage, textures: seq<TextureEntry>): Option<Value> {
    match stage
    case Untouched => None
    case Dynamic(param) =>
      var found := FindTexture(textures, param);
      Some([if found.Some? then found.value else 0])
    case Static(texture) => Some([texture])
  }

  lemma StageCallWrites(stages: seq<Stage>, textures: seq<TextureEntry>, stage: nat, k: Key)
    requires stage < |stages| <= STAGES
    ensures LastWrite(StageCall(stages, textures, stage), k)
         == if k == Key(Textures, stage) && stage < 16 then StageTexture(stages[stage], textures) else None
  {
    var calls := StageCall(stages, textures, stage);
    assert calls != [] ==> calls == [calls[0]] && calls[..0] == [];
  }

  lemma {:induction false} StagesWrite(stages: seq<Stage>, textures: seq<TextureEntry>, from: nat, k: Key)
    requires from <= |stages| == STAGES
    ensures LastWrite(StageCalls(stages, textures, from), k)
         == if k.bank == Textures && from <= k.index < 16 then StageTexture(stages[k.index], textures) else None
    decreases |stages| - from
  {
    if from < |stages| {
      StagesWrite(stages, textures, from + 1, k);
      StageCallWrites(stages, textures, from, k);
      LastWriteConcat(StageCall(stages, textures, from), StageCalls(stages, textures, from + 1), k);
    }
  }

  /** The last write of a whole replay, from its three parts. */
  lemma ReplayWrites(slots: seq<Slot>, stages: seq<Stage>, calls: seq<Call>,
                     shadow: seq<ShadowEntry>, textures: seq<TextureEntry>, k: Key)
    requires |stages| == STAGES && Recordable(calls)
    ensures LastWrite(ReplayCalls(slots, stages, EncodeAll(calls), shadow, textures), k) ==
      if k.bank == Textures && k.index < 16 && stages[k.index] != Untouched then StageTexture(stages[k.index], textures)
      else if LastWrite(SeenCalls(slots, shadow), k).Some? then LastWrite(SeenCalls(slots, shadow), k)
      else LastWrite(Unskipped(slots, shadow, calls), k)
  {
    var ops, seen, rest := OpCalls(slots, shadow, EncodeAll(calls)), SeenCalls(slots, shadow), StageCalls(stages, textures, 0);
    OpCallsAreUnskipped(slots, shadow, calls);
    StagesWrite(stages, textures, 0, k);
    LastWriteConcat(ops + seen, rest, k);
    LastWriteConcat(ops, seen, k);
  }

  // ---- Fidelity, key by key -----------------------------------------------------------

  /** Everything but float constants and textures ends as the pass left it. */
  lemma OtherKeysExact(slots: seq<Slot>, stages: seq<Stage>, calls: seq<Call>,
                       shadow: seq<ShadowEntry>, textures: seq<TextureEntry>, k: Key)
    requires |stages| == STAGES && Recordable(calls)
    requires !IsFloatKey(k) && k.bank != Textures
    ensures LastWrite(ReplayCalls(slots, stages, EncodeAll(calls), shadow, textures), k) == LastWrite(calls, k)
  {
    ReplayWrites(slots, stages, calls, shadow, textures, k);
    SeenWriteFloats(slots, shadow, k);
    OthersRepeated(slots, shadow, calls, k);
    RepeatedHolds(slots, shadow, calls, k);
  }

  /** The register is one of the slot's, and the slot fits its file. */
  predicate Owns(slot: Slot, k: Key) {
    k.bank == Registers(slot.File()) && slot.base <= k.index < slot.base + slot.count <= FileSize(slot.File())
  }

  /** A slot with a seen value uploads the register. */
  predicate Uploads(slot: Slot, shadow: seq<ShadowEntry>, k: Key) {
    slot.count <= 4 && FindShadow(shadow, slot.param).Some? && Owns(slot, k)
  }

  function Uploaded(slot: Slot, shadow: seq<ShadowEntry>, k: Key): Value
    requires Uploads(slot, shadow, k)
  {
    SlotRegister(slot, FindShadow(shadow, slot.param).value, k.index - slot.base)
  }

  lemma ConstantsEffect(file: RegisterFile, start: u32, values: seq<Value>, k: Key)
    ensures ReadKey(Effect(SetConstants(file, start, values)), k) ==
      if k.bank == Registers(file) && start <= k.index < start + |values| <= FileSize(file)
      then Some(values[k.index - start]) else None
  {
    var call := SetConstants(file, start, values);
    if Target(call).Some? {
      assert Effect(call) == RangeMap(Range(Registers(file), start, values));
    }
  }

  lemma UploadEffect(slot: Slot, e: ShadowEntry, k: Key)
    requires slot.count <= 4
    ensures ReadKey(Effect(SlotCall(slot, e)), k) ==
      if Owns(slot, k) then Some(SlotRegister(slot, e, k.index - slot.base)) else None
  {
    var values := SlotValues(slot, e);
    ConstantsEffect(slot.File(), slot.base, values, k);
    if Owns(slot, k) {
      assert values[k.index - slot.base] == SlotRegister(slot, e, k.index - slot.base);
    }
  }

  lemma SlotCallWrites(slot: Slot, e: ShadowEntry, k: Key)
    requires slot.count <= 4
    ensures LastWrite([SlotCall(slot, e)], k) == if Owns(slot, k) then Some(SlotRegister(slot, e, k.index - slot.base)) else None
  {
    UploadEffect(slot, e, k);
    SingleWrite(SlotCall(slot, e), k);
  }

  lemma UploadWrites(slot: Slot, shadow: seq<ShadowEntry>, k: Key)
    ensures LastWrite(SeenCall(slot, shadow), k) == if Uploads(slot, shadow, k) then Some(Uploaded(slot, shadow, k)) else None
  {
    var calls, found := SeenCall(slot, shadow), FindShadow(shadow, slot.param);
    if slot.count > 4 || found.None? {
      assert calls == [];
    } else {
      SlotCallWrites(slot, found.value, k);
      assert LastWrite(calls, k) == if Owns(slot, k) then Some(SlotRegister(slot, found.value, k.index - slot.base)) else None;
    }
  }

  lemma SingleWrite(call: Call, k: Key)
    ensures LastWrite([call], k) == ReadKey(Effect(call), k)
  {
    assert [call][..0] == [];
  }

  lemma {:induction false} NothingUploads(slots: seq<Slot>, shadow: seq<ShadowEntry>, k: Key)
    requires forall j :: 0 <= j < |slots| ==> !Uploads(slots[j], shadow, k)
    ensures LastWrite(SeenCalls(slots, shadow), k) == None
  {
    if slots != [] {
      assert forall j :: 0 <= j < |slots| - 1 ==> slots[1..][j] == slots[j + 1];
      NothingUploads(slots[1..], shadow, k);
      UploadWrites(slots[0], shadow, k);
      LastWriteConcat(SeenCall(slots[0], shadow), SeenCalls(slots[1..], shadow), k);
    }
  }

  /** Slot `i` is the last of the plan to upload the register. With the disjoint
      slots a shader's constant table gives, that is the only one. */
  predicate LastUpload(slots: seq<Slot>, shadow: seq<ShadowEntry>, i: nat, k: Key) {
    && i < |slots| && Uploads(slots[i], shadow, k)
    && forall j :: i < j < |slots| ==> !Uploads(slots[j], shadow, k)
  }

  lemma {:induction false} SeenHolds(slots: seq<Slot>, shadow: seq<ShadowEntry>, i: nat, k: Key)
    requires LastUpload(slots, shadow, i, k)
    ensures LastWrite(SeenCalls(slots, shadow), k)
         == Some(Uploaded(slots[i], shadow, k))
  {
    var rest := slots[1..];
    assert forall j :: 0 <= j < |rest| ==> rest[j] == slots[j + 1];
    UploadWrites(slots[0], shadow, k);
    if i == 0 {
      NothingUploads(rest, shadow, k);
    } else {
      SeenHolds(rest, shadow, i - 1, k);
    }
    LastWriteConcat(SeenCall(slots[0], shadow), SeenCalls(rest, shadow), k);
  }

  /** A register of a seen slot ends with the encoding of the latest shadow value. */
  lemma SeenRegisters(slots: seq<Slot>, stages: seq<Stage>, calls: seq<Call>,
                      shadow: seq<ShadowEntry>, textures: seq<TextureEntry>, i: nat, k: Key)
    requires |stages| == STAGES && Recordable(calls) && LastUpload(slots, shadow, i, k)
    ensures LastWrite(ReplayCalls(slots, stages, EncodeAll(calls), shadow, textures), k)
         == Some(Uploaded(slots[i], shadow, k))
  {
    ReplayWrites(slots, stages, calls, shadow, textures, k);
    SeenHolds(slots, shadow, i, k);
  }

  /** The calls that replay repeats give the register what the pass gave it. */
  predicate KeptValue(slots: seq<Slot>, shadow: seq<ShadowEntry>, calls: seq<Call>, k: Key) {
    LastWrite(Unskipped(slots, shadow, calls), k) == LastWrite(calls, k)
  }

  /** Any other float register ends as the pass left it exactly when the last of
      the repeated ranges that wrote it gave it the same value as the last of all. */
  lemma OtherRegisters(slots: seq<Slot>, stages: seq<Stage>, calls: seq<Call>,
                       shadow: seq<ShadowEntry>, textures: seq<TextureEntry>, k: Key)
    requires |stages| == STAGES && Recordable(calls) && IsFloatKey(k)
    requires forall j :: 0 <= j < |slots| ==> !Uploads(slots[j], shadow, k)
    ensures LastWrite(ReplayCalls(slots, stages, EncodeAll(calls), shadow, textures), k) == LastWrite(calls, k)
       <==> KeptValue(slots, shadow, calls, k)
    ensures LastRepeated(slots, shadow, calls, k) ==> KeptValue(slots, shadow, calls, k)
  {
    ReplayWrites(slots, stages, calls, shadow, textures, k);
    NothingUploads(slots, shadow, k);
    if LastRepeated(slots, shadow, calls, k) {
      RepeatedHolds(slots, shadow, calls, k);
    }
  }

  /** Two calls that differ at most in the values of float constants. */
  predicate SameHeader(x: Call, y: Call) {
    if IsFloatRange(x) then
      y.SetConstants? && y.file == x.file && y.start == x.start && |y.values| == |x.values|
    else y == x
  }

  /** Another pass that makes the same calls with other constants. */
  predicate Twin(calls: seq<Call>, other: seq<Call>) {
    && |other| == |calls| && Recordable(other)
    && forall i :: 0 <= i < |calls| ==> SameHeader(calls[i], other[i])
  }

  lemma SameHeaderSame(slots: seq<Slot>, shadow: seq<ShadowEntry>, x: Call, y: Call, k: Key)
    requires SameHeader(x, y)
    ensures k in Effect(x) <==> k in Effect(y)
    ensures SkippedCall(slots, shadow, x) <==> SkippedCall(slots, shadow, y)
  {
    if x != y {
      ConstantsEffect(x.file, x.start, x.values, k);
      ConstantsEffect(y.file, y.start, y.values, k);
    }
  }

  lemma {:induction false} TwinRepeats(slots: seq<Slot>, shadow: seq<ShadowEntry>, calls: seq<Call>, other: seq<Call>, k: Key)
    requires Twin(calls, other) && LastRepeated(slots, shadow, calls, k)
    ensures LastRepeated(slots, shadow, other, k)
  {
    if calls != [] {
      var n := |calls| - 1;
      SameHeaderSame(slots, shadow, calls[n], other[n], k);
      if k !in Effect(calls[n]) {
        TwinRepeats(slots, shadow, calls[..n], other[..n], k);
      }
    }
  }

  /** A register value that is not the given one. */
  function Another(value: Option<Value>): (v: Value)
    ensures |v| == 4 && Some(v) != value
  {
    if value == Some([0, 0, 0, 0]) then [1, 0, 0, 0] else [0, 0, 0, 0]
  }

  lemma FloatWriter(call: Call, k: Key)
    requires IsFloatKey(k) && k in Effect(call)
    ensures call.SetConstants? && k.bank == Registers(call.file)
    ensures call.start <= k.index < call.start + |call.values| <= FileSize(call.file)
  {
    assert call.SetConstants?;
    ConstantsEffect(call.file, call.start, call.values, k);
  }

  lemma OtherConstants(file: RegisterFile, start: u32, values: seq<Value>, k: Key, v: Value) returns (other: Call)
    requires AllWide(values, 4) && FileWidth(file) == 4 && |v| == 4
    requires k.bank == Registers(file) && start <= k.index < start + |values| <= FileSize(file)
    ensures other.SetConstants? && other.file == file && other.start == start && |other.values| == |values|
    ensures WellTyped(other) && Packs(other) && ReadKey(Effect(other), k) == Some(v)
  {
    var changed := values[k.index - start := v];
    WideAfter(values, k.index - start, v);
    other := SetConstants(file, start, changed);
    ConstantsEffect(file, start, changed, k);
  }

  /** The constants call with another value for one register. */
  lemma Retouched(call: Call, k: Key, v: Value) returns (other: Call)
    requires WellTyped(call) && IsFloatKey(k) && k in Effect(call) && |v| == 4
    ensures SameHeader(call, other) && WellTyped(other) && Packs(other)
    ensures ReadKey(Effect(other), k) == Some(v)
  {
    FloatWriter(call, k);
    other := OtherConstants(call.file, call.start, call.values, k, v);
  }

  lemma WideAfter(values: seq<Value>, i: nat, v: Value)
    requires AllWide(values, 4) && i < |values| && |v| == 4
    ensures AllWide(values[i := v], 4)
  {
  }

  lemma RecordableParts(init: seq<Call>, last: Call)
    requires Recordable(init + [last])
    ensures Recordable(init) && WellTyped(last) && Packs(last)
  {
    assert (init + [last])[|init|] == last;
    forall i | 0 <= i < |init| ensures WellTyped(init[i]) && Packs(init[i]) {
      assert (init + [last])[i] == init[i];
    }
  }

  lemma LastWriteStep(init: seq<Call>, last: Call, k: Key)
    ensures LastWrite(init + [last], k) == if k in Effect(last) then Some(Effect(last)[k]) else LastWrite(init, k)
  {
    assert (init + [last])[..|init|] == init;
  }

  lemma TwinStep(init: seq<Call>, last: Call, before: seq<Call>, call: Call)
    requires Twin(init, before) && SameHeader(last, call) && WellTyped(call) && Packs(call)
    ensures Twin(init + [last], before + [call])
  {
  }

  lemma LostHere(slots: seq<Slot>, shadow: seq<ShadowEntry>, init: seq<Call>, last: Call, k: Key) returns (call: Call)
    requires WellTyped(last) && Packs(last) && IsFloatKey(k) && k in Effect(last) && SkippedCall(slots, shadow, last)
    ensures SameHeader(last, call) && WellTyped(call) && Packs(call)
    ensures !KeptValue(slots, shadow, init + [call], k)
  {
    call := Retouched(last, k, Another(LastWrite(Unskipped(slots, shadow, init), k)));
    SameHeaderSame(slots, shadow, last, call, k);
    UnskippedStep(slots, shadow, init, call, k);
    LastWriteStep(init, call, k);
  }

  lemma LostBefore(slots: seq<Slot>, shadow: seq<ShadowEntry>, init: seq<Call>, call: Call, k: Key)
    requires k !in Effect(call) && !KeptValue(slots, shadow, init, k)
    ensures !KeptValue(slots, shadow, init + [call], k)
  {
    UnskippedStep(slots, shadow, init, call, k);
    LastWriteStep(init, call, k);
  }

  /** With the last range skipped, some other constants are lost. */
  lemma {:induction false} LostTwin(slots: seq<Slot>, shadow: seq<ShadowEntry>, calls: seq<Call>, k: Key) returns (other: seq<Call>)
    requires Recordable(calls) && IsFloatKey(k) && !LastRepeated(slots, shadow, calls, k)
    ensures Twin(calls, other) && !KeptValue(slots, shadow, other, k)
  {
    var init, last := calls[..|calls| - 1], calls[|calls| - 1];
    assert init + [last] == calls;
    RecordableParts(init, last);
    if k in Effect(last) {
      var call := LostHere(slots, shadow, init, last, k);
      TwinStep(init, last, init, call);
      other := init + [call];
    } else {
      var before := LostTwin(slots, shadow, init, k);
      LostBefore(slots, shadow, before, last, k);
      TwinStep(init, last, before, last);
      other := before + [last];
    }
  }

  /** The register is safe whatever the constants are exactly when the last range
      that writes it is repeated: that much can be told from the op headers. */
  lemma RegisterSafeIff(slots: seq<Slot>, stages: seq<Stage>, calls: seq<Call>,
                        shadow: seq<ShadowEntry>, textures: seq<TextureEntry>, k: Key)
    requires |stages| == STAGES && Recordable(calls) && IsFloatKey(k)
    requires forall j :: 0 <= j < |slots| ==> !Uploads(slots[j], shadow, k)
    ensures LastRepeated(slots, shadow, calls, k) <==>
      forall other :: Twin(calls, other) ==>
        LastWrite(ReplayCalls(slots, stages, EncodeAll(other), shadow, textures), k) == LastWrite(other, k)
  {
    if LastRepeated(slots, shadow, calls, k) {
      forall other | Twin(calls, other)
        ensures LastWrite(ReplayCalls(slots, stages, EncodeAll(other), shadow, textures), k) == LastWrite(other, k)
      {
        TwinRepeats(slots, shadow, calls, other, k);
        OtherRegisters(slots, stages, other, shadow, textures, k);
      }
    } else {
      var other := LostTwin(slots, shadow, calls, k);
      OtherRegisters(slots, stages, other, shadow, textures, k);
    }
  }

  /** That condition is not idle: a range is skipped whole as soon as the slots it
      overlaps are seen, so what it writes beside them is lost. */
  lemma SkippedRangeIsLost()
    returns (slots: seq<Slot>, calls: seq<Call>, shadow: seq<ShadowEntry>, k: Key)
    ensures Recordable(calls) && IsFloatKey(k)
    ensures forall j :: 0 <= j < |slots| ==> !Uploads(slots[j], shadow, k)
    ensures LastWrite(calls, k).Some?
    ensures LastWrite(ReplayCalls(slots, Fresh(), EncodeAll(calls), shadow, []), k) == None
  {
    var slot := Slot(1, true, 0, 1, false, false);
    var call := SetConstants(VsFloat, 0, [[0, 0, 0, 0], [7, 7, 7, 7]]);
    slots, shadow, calls, k := [slot], [ShadowEntry(1, 4, false, seq(16, _ => 0))], [call], Key(Registers(VsFloat), 1);
    assert slot.Overlaps(true, 0, 2) && slots[0] == slot;
    assert calls[..0] == [] && calls[0] == call;
    assert SkippedCall(slots, shadow, call);
    assert Unskipped(slots, shadow, calls) == [];
    NothingUploads(slots, shadow, k);
    ReplayWrites(slots, Fresh(), calls, shadow, [], k);
    ConstantsEffect(VsFloat, 0, call.values, k);
    SingleWrite(call, k);
  }

  // ---- Textures ---------------------------------------------------------------------

  predicate UniqueParams(textures: seq<TextureEntry>) {
    forall i, j :: 0 <= i < j < |textures| ==> textures[i].param != textures[j].param
  }

  lemma {:induction false} FindAt(textures: seq<TextureEntry>, i: nat)
    requires UniqueParams(textures) && i < |textures|
    ensures FindTexture(textures, textures[i].param) == Some(textures[i].texture)
  {
    if i > 0 {
      assert textures[1..][i - 1] == textures[i];
      FindAt(textures[1..], i - 1);
    }
  }

  lemma {:induction false} ParamAt(textures: seq<TextureEntry>, texture: u32) returns (i: nat)
    requires ParamOf(textures, texture).Some?
    ensures i < |textures| && textures[i] == TextureEntry(ParamOf(textures, texture).value, texture)
  {
    if textures[0].texture == texture {
      i := 0;
    } else {
      i := ParamAt(textures[1..], texture);
      i := i + 1;
    }
  }

  /** With distinct parameters, what a stage learns rebinds the very texture. */
  lemma LearntRebinds(textures: seq<TextureEntry>, texture: u32)
    requires UniqueParams(textures)
    ensures StageTexture(LearnStage(textures, texture), textures) == Some([texture])
  {
    if texture != 0 && ParamOf(textures, texture).Some? {
      var i := ParamAt(textures, texture);
      FindAt(textures, i);
    }
  }

  lemma {:induction false} LearnLast(stages: seq<Stage>, textures: seq<TextureEntry>, ops: seq<Op>, last: Op)
    requires |stages| == STAGES
    ensures Learn(stages, textures, ops + [last]) == LearnOp(Learn(stages, textures, ops), textures, last)
    decreases |ops|
  {
    if ops == [] {
      assert ops + [last] == [last] && [last][1..] == [];
    } else {
      assert (ops + [last])[1..] == ops[1..] + [last];
      LearnLast(LearnOp(stages, textures, ops[0]), textures, ops[1..], last);
    }
  }

  /** The texture a call binds to a pixel stage. */
  function Binding(call: Call, stage: nat): Option<u32> {
    if call.SetTexture? && call.stage == stage then Some(call.texture) else None
  }

  lemma BindingIsEffect(call: Call, stage: nat)
    requires stage < 16
    ensures ReadKey(Effect(call), Key(Textures, stage))
         == match Binding(call, stage) case None => None case Some(t) => Some([t])
  {
  }

  lemma LearnsBinding(stages: seq<Stage>, textures: seq<TextureEntry>, call: Call, stage: nat)
    requires |stages| == STAGES && stage < 16
    ensures LearnOp(stages, textures, Encode(call))[stage]
         == match Binding(call, stage) case None => stages[stage] case Some(t) => LearnStage(textures, t)
  {
    if call.SetTexture? {
      BlockRoundTrip([call.texture]);
    }
  }

  function LastBinding(calls: seq<Call>, stage: nat): Option<u32> {
    if calls == [] then None
    else if Binding(calls[|calls| - 1], stage).Some? then Binding(calls[|calls| - 1], stage)
    else LastBinding(calls[..|calls| - 1], stage)
  }

  lemma {:induction false} LastBindingWrites(calls: seq<Call>, stage: nat)
    requires stage < 16
    ensures LastWrite(calls, Key(Textures, stage))
         == match LastBinding(calls, stage) case None => None case Some(t) => Some([t])
  {
    if calls != [] {
      BindingIsEffect(calls[|calls| - 1], stage);
      LastBindingWrites(calls[..|calls| - 1], stage);
    }
  }

  lemma {:induction false} LearnsLastBinding(textures: seq<TextureEntry>, calls: seq<Call>, stage: nat)
    requires stage < 16
    ensures Learn(Fresh(), textures, EncodeAll(calls))[stage]
         == match LastBinding(calls, stage) case None => Untouched case Some(t) => LearnStage(textures, t)
  {
    if calls == [] {
      assert EncodeAll(calls) == [];
    } else {
      var n := |calls| - 1;
      var init, last := EncodeAll(calls[..n]), calls[n];
      LearnsLastBinding(textures, calls[..n], stage);
      assert EncodeAll(calls) == init + [Encode(last)];
      LearnLast(Fresh(), textures, init, Encode(last));
      LearnsBinding(Learn(Fresh(), textures, init), textures, last, stage);
    }
  }

  /** While the texture shadow is as it was at validation, each of the 16 pixel
      stages ends with the binding the recorded pass gave it. */
  lemma TexturesExact(slots: seq<Slot>, calls: seq<Call>, shadow: seq<ShadowEntry>,
                      textures: seq<TextureEntry>, stage: nat)
    requires Recordable(calls) && stage < 16 && UniqueParams(textures)
    ensures var stages := Learn(Fresh(), textures, EncodeAll(calls));
      LastWrite(ReplayCalls(slots, stages, EncodeAll(calls), shadow, textures), Key(Textures, stage))
      == LastWrite(calls, Key(Textures, stage))
  {
    var stages, k := Learn(Fresh(), textures, EncodeAll(calls)), Key(Textures, stage);
    LearnsLastBinding(textures, calls, stage);
    LastBindingWrites(calls, stage);
    ReplayWrites(slots, stages, calls, shadow, textures, k);
    if LastBinding(calls, stage).Some? {
      LearntRebinds(textures, LastBinding(calls, stage).value);
    } else {
      SeenWriteFloats(slots, shadow, k);
      TexturesSkipped(slots, shadow, calls, k);
    }
  }

  /** Entry `i` is the first of the texture shadow to hold the texture. */
  predicate FirstHolding(textures: seq<TextureEntry>, texture: u32, i: nat) {
    i < |textures| && textures[i].texture == texture && forall j :: 0 <= j < i ==> textures[j].texture != texture
  }

  predicate FirstOf(textures: seq<TextureEntry>, param: u32, i: nat) {
    i < |textures| && textures[i].param == param && forall j :: 0 <= j < i ==> textures[j].param != param
  }

  lemma {:induction false} ParamOfFirst(textures: seq<TextureEntry>, texture: u32, i: nat)
    requires FirstHolding(textures, texture, i)
    ensures ParamOf(textures, texture) == Some(textures[i].param)
  {
    if i > 0 {
      assert forall j :: 0 <= j < i ==> textures[1..][j] == textures[j + 1];
      ParamOfFirst(textures[1..], texture, i - 1);
    }
  }

  lemma {:induction false} ParamOfNone(textures: seq<TextureEntry>, texture: u32)
    requires forall j :: 0 <= j < |textures| ==> textures[j].texture != texture
    ensures ParamOf(textures, texture) == None
  {
    if textures != [] {
      assert forall j :: 0 <= j < |textures| - 1 ==> textures[1..][j] == textures[j + 1];
      ParamOfNone(textures[1..], texture);
    }
  }

  lemma {:induction false} FindFirst(textures: seq<TextureEntry>, param: u32, i: nat)
    requires FirstOf(textures, param, i)
    ensures FindTexture(textures, param) == Some(textures[i].texture)
  {
    if i > 0 {
      assert forall j :: 0 <= j < i ==> textures[1..][j] == textures[j + 1];
      FindFirst(textures[1..], param, i - 1);
    }
  }

  lemma {:induction false} FindNone(textures: seq<TextureEntry>, param: u32)
    requires forall j :: 0 <= j < |textures| ==> textures[j].param != param
    ensures FindTexture(textures, param) == None
  {
    if textures != [] {
      assert forall j :: 0 <= j < |textures| - 1 ==> textures[1..][j] == textures[j + 1];
      FindNone(textures[1..], param);
    }
  }

  /** What a replay leaves at a stage that was learnt from a recorded binding. */
  lemma ReplayBinds(slots: seq<Slot>, calls: seq<Call>, shadow: seq<ShadowEntry>, held: seq<TextureEntry>, now: seq<TextureEntry>,
                    stage: nat, recorded: u32)
    requires Recordable(calls) && stage < 16 && LastWrite(calls, Key(Textures, stage)) == Some([recorded])
    ensures LastWrite(ReplayCalls(slots, Learn(Fresh(), held, EncodeAll(calls)), EncodeAll(calls), shadow, now), Key(Textures, stage))
         == StageTexture(LearnStage(held, recorded), now)
  {
    LearnsLastBinding(held, calls, stage);
    LastBindingWrites(calls, stage);
    ReplayWrites(slots, Learn(Fresh(), held, EncodeAll(calls)), calls, shadow, now, Key(Textures, stage));
    assert LastBinding(calls, stage) == Some([recorded][0]);
  }

  /** A stage whose last recorded texture was some parameter's when the plan was
      validated follows that parameter, the first that held the texture: a replay
      binds what it holds now, or nothing if it is gone. */
  lemma DynamicFollows(slots: seq<Slot>, calls: seq<Call>, pads: seq<Padding>, shadow: seq<ShadowEntry>,
                       held: seq<TextureEntry>, now: seq<TextureEntry>, stage: nat, recorded: u32, i: nat)
    requires Recordable(calls) && |pads| == |calls| && KeptOps(EncodeAll(calls)) == EncodeAll(calls)
    requires stage < 16 && LastWrite(calls, Key(Textures, stage)) == Some([recorded])
    requires recorded != 0 && FirstHolding(held, recorded, i)
    ensures var ops := Visited(Record(EncodeAll(calls), pads));
      var bound := LastWrite(ReplayCalls(slots, Learn(Fresh(), held, ops), ops, shadow, now), Key(Textures, stage));
      && (forall j: nat :: FirstOf(now, held[i].param, j) ==> bound == Some([now[j].texture]))
      && ((forall j :: 0 <= j < |now| ==> now[j].param != held[i].param) ==> bound == Some([0]))
  {
    RecordingDecodes(EncodeAll(calls), pads);
    ReplayBinds(slots, calls, shadow, held, now, stage, recorded);
    ParamOfFirst(held, recorded, i);
    forall j: nat | FirstOf(now, held[i].param, j)
      ensures FindTexture(now, held[i].param) == Some(now[j].texture)
    {
      FindFirst(now, held[i].param, j);
    }
    if forall j :: 0 <= j < |now| ==> now[j].param != held[i].param {
      FindNone(now, held[i].param);
    }
  }

  /** Any other stage that was bound gets the recorded texture, whatever the shadow
      has come to hold. */
  lemma StaticStays(slots: seq<Slot>, calls: seq<Call>, pads: seq<Padding>, shadow: seq<ShadowEntry>,
                    held: seq<TextureEntry>, now: seq<TextureEntry>, stage: nat, recorded: u32)
    requires Recordable(calls) && |pads| == |calls| && KeptOps(EncodeAll(calls)) == EncodeAll(calls)
    requires stage < 16 && LastWrite(calls, Key(Textures, stage)) == Some([recorded])
    requires recorded == 0 || forall j :: 0 <= j < |held| ==> held[j].texture != recorded
    ensures var ops := Visited(Record(EncodeAll(calls), pads));
      LastWrite(ReplayCalls(slots, Learn(Fresh(), held, ops), ops, shadow, now), Key(Textures, stage)) == Some([recorded])
  {
    RecordingDecodes(EncodeAll(calls), pads);
    ReplayBinds(slots, calls, shadow, held, now, stage, recorded);
    if recorded != 0 {
      ParamOfNone(held, recorded);
    }
  }

  /** A stage the recording never bound is left alone. */
  lemma UnboundStays(slots: seq<Slot>, calls: seq<Call>, shadow: seq<ShadowEntry>,
                     held: seq<TextureEntry>, now: seq<TextureEntry>, stage: nat)
    requires Recordable(calls) && stage < 16 && LastWrite(calls, Key(Textures, stage)) == None
    ensures LastWrite(ReplayCalls(slots, Learn(Fresh(), held, EncodeAll(calls)), EncodeAll(calls), shadow, now),
                      Key(Textures, stage)) == None
  {
    var k := Key(Textures, stage);
    LearnsLastBinding(held, calls, stage);
    LastBindingWrites(calls, stage);
    ReplayWrites(slots, Learn(Fresh(), held, EncodeAll(calls)), calls, shadow, now, k);
    SeenWriteFloats(slots, shadow, k);
    TexturesSkipped(slots, shadow, calls, k);
  }

  lemma TextureCallSkipped(slots: seq<Slot>, shadow: seq<ShadowEntry>, call: Call, k: Key)
    requires k.bank == Textures && k in Effect(call)
    ensures SkippedCall(slots, shadow, call)
  {
    assert call.SetTexture?;
  }

  lemma {:induction false} TexturesSkipped(slots: seq<Slot>, shadow: seq<ShadowEntry>, calls: seq<Call>, k: Key)
    requires k.bank == Textures
    ensures LastWrite(Unskipped(slots, shadow, calls), k) == None
  {
    if calls != [] {
      var init, last := calls[..|calls| - 1], calls[|calls| - 1];
      assert init + [last] == calls;
      TexturesSkipped(slots, shadow, init, k);
      UnskippedStep(slots, shadow, init, last, k);
      if k in Effect(last) {
        TextureCallSkipped(slots, shadow, last, k);
      }
    }
  }

  /** The vertex samplers are never rebound, whatever the pass did to them. */
  lemma VertexSamplersLost(slots: seq<Slot>, stages: seq<Stage>, calls: seq<Call>,
                           shadow: seq<ShadowEntry>, textures: seq<TextureEntry>, k: Key)
    requires |stages| == STAGES && Recordable(calls) && k.bank == Textures && k.index >= 16
    ensures LastWrite(ReplayCalls(slots, stages, EncodeAll(calls), shadow, textures), k) == None
  {
    ReplayWrites(slots, stages, calls, shadow, textures, k);
    SeenWriteFloats(slots, shadow, k);
    TexturesSkipped(slots, shadow, calls, k);
  }

  // ---- The whole device ---------------------------------------------------------------

  /** Two runs give a key the same value on every device exactly when their last
      writes to it agree. */
  lemma SameOnEveryDeviceIff(xs: seq<Call>, ys: seq<Call>, k: Key)
    ensures (forall device :: ReadKey(Run(xs, device), k) == ReadKey(Run(ys, device), k))
       <==> LastWrite(xs, k) == LastWrite(ys, k)
  {
    if LastWrite(xs, k) == LastWrite(ys, k) {
      forall device
        ensures ReadKey(Run(xs, device), k) == ReadKey(Run(ys, device), k)
      {
        RunReads(xs, device, k);
        RunReads(ys, device, k);
      }
    } else {
      var written := if LastWrite(xs, k).Some? then LastWrite(xs, k).value else LastWrite(ys, k).value;
      var other: State := map[k := written + [0]];
      RunReads(xs, other, k);
      RunReads(ys, other, k);
      assert |written + [0]| == |written| + 1;
      assert ReadKey(other, k) == Some(written + [0]);
      assert ReadKey(Run(xs, other), k) != ReadKey(Run(ys, other), k);
    }
  }

  /** The shadow still holds what the pass uploaded itself. */
  ghost predicate ShadowCurrent(slots: seq<Slot>, calls: seq<Call>, shadow: seq<ShadowEntry>) {
    forall i: nat, k: Key :: LastUpload(slots, shadow, i, k) ==>
      LastWrite(calls, k) == Some(Uploaded(slots[i], shadow, k))
  }

  /** No skipped range is the last to write a register outside the seen slots. */
  ghost predicate NothingLost(slots: seq<Slot>, calls: seq<Call>, shadow: seq<ShadowEntry>) {
    forall k: Key :: IsFloatKey(k) && (forall j :: 0 <= j < |slots| ==> !Uploads(slots[j], shadow, k)) ==>
      LastRepeated(slots, shadow, calls, k)
  }

  ghost predicate NoVertexTextures(calls: seq<Call>) {
    forall k: Key :: k.bank == Textures && k.index >= 16 ==> LastWrite(calls, k) == None
  }

  lemma {:induction false} FindLastUpload(slots: seq<Slot>, shadow: seq<ShadowEntry>, k: Key, n: nat)
    returns (i: nat)
    requires n <= |slots| && forall j :: n <= j < |slots| ==> !Uploads(slots[j], shadow, k)
    requires exists j :: 0 <= j < n && Uploads(slots[j], shadow, k)
    ensures LastUpload(slots, shadow, i, k)
  {
    if Uploads(slots[n - 1], shadow, k) {
      i := n - 1;
    } else {
      i := FindLastUpload(slots, shadow, k, n - 1);
    }
  }

  /** Every float register outside the seen slots keeps its value. */
  ghost predicate FloatsKept(slots: seq<Slot>, calls: seq<Call>, shadow: seq<ShadowEntry>) {
    forall k: Key :: IsFloatKey(k) && (forall j :: 0 <= j < |slots| ==> !Uploads(slots[j], shadow, k)) ==>
      KeptValue(slots, shadow, calls, k)
  }

  /** What a key needs to be replayed right. */
  ghost predicate KeyFine(slots: seq<Slot>, calls: seq<Call>, shadow: seq<ShadowEntry>, k: Key) {
    && (k.bank == Textures && k.index >= 16 ==> LastWrite(calls, k) == None)
    && (forall i: nat :: LastUpload(slots, shadow, i, k) ==> LastWrite(calls, k) == Some(Uploaded(slots[i], shadow, k)))
    && (IsFloatKey(k) && (forall j :: 0 <= j < |slots| ==> !Uploads(slots[j], shadow, k)) ==> KeptValue(slots, shadow, calls, k))
  }

  lemma FineTexture(slots: seq<Slot>, calls: seq<Call>, shadow: seq<ShadowEntry>, textures: seq<TextureEntry>, k: Key)
    requires Recordable(calls) && UniqueParams(textures) && k.bank == Textures
    ensures var stages := Learn(Fresh(), textures, EncodeAll(calls));
      LastWrite(ReplayCalls(slots, stages, EncodeAll(calls), shadow, textures), k) == LastWrite(calls, k)
      <==> (k.index >= 16 ==> LastWrite(calls, k) == None)
  {
    if k.index < 16 {
      TexturesExact(slots, calls, shadow, textures, k.index);
    } else {
      VertexSamplersLost(slots, Learn(Fresh(), textures, EncodeAll(calls)), calls, shadow, textures, k);
    }
  }

  lemma OnlyLast(slots: seq<Slot>, shadow: seq<ShadowEntry>, i: nat, j: nat, k: Key)
    requires LastUpload(slots, shadow, i, k) && LastUpload(slots, shadow, j, k)
    ensures i == j
  {
  }

  lemma NoUploadFine(slots: seq<Slot>, calls: seq<Call>, shadow: seq<ShadowEntry>, k: Key)
    requires !IsFloatKey(k)
    ensures KeyFine(slots, calls, shadow, k) <==> (k.bank == Textures && k.index >= 16 ==> LastWrite(calls, k) == None)
  {
    assert forall i: nat :: !LastUpload(slots, shadow, i, k);
  }

  lemma UploadFine(slots: seq<Slot>, calls: seq<Call>, shadow: seq<ShadowEntry>, i: nat, k: Key)
    requires IsFloatKey(k) && LastUpload(slots, shadow, i, k)
    ensures KeyFine(slots, calls, shadow, k) <==> LastWrite(calls, k) == Some(Uploaded(slots[i], shadow, k))
  {
    forall j: nat | LastUpload(slots, shadow, j, k) ensures j == i {
      OnlyLast(slots, shadow, i, j, k);
    }
  }

  lemma KeyFineIff(slots: seq<Slot>, calls: seq<Call>, shadow: seq<ShadowEntry>, textures: seq<TextureEntry>, k: Key)
    requires Recordable(calls) && UniqueParams(textures)
    ensures var stages := Learn(Fresh(), textures, EncodeAll(calls));
      LastWrite(ReplayCalls(slots, stages, EncodeAll(calls), shadow, textures), k) == LastWrite(calls, k)
      <==> KeyFine(slots, calls, shadow, k)
  {
    var stages := Learn(Fresh(), textures, EncodeAll(calls));
    if !IsFloatKey(k) {
      NoUploadFine(slots, calls, shadow, k);
      if k.bank == Textures {
        FineTexture(slots, calls, shadow, textures, k);
      } else {
        OtherKeysExact(slots, stages, calls, shadow, textures, k);
      }
    } else if exists j :: 0 <= j < |slots| && Uploads(slots[j], shadow, k) {
      var i := FindLastUpload(slots, shadow, k, |slots|);
      SeenRegisters(slots, stages, calls, shadow, textures, i, k);
      UploadFine(slots, calls, shadow, i, k);
    } else {
      OtherRegisters(slots, stages, calls, shadow, textures, k);
    }
  }

  ghost predicate SameRuns(xs: seq<Call>, ys: seq<Call>) {
    forall device :: Run(xs, device) == Run(ys, device)
  }

  ghost predicate SameWrites(xs: seq<Call>, ys: seq<Call>) {
    forall k :: LastWrite(xs, k) == LastWrite(ys, k)
  }

  /** Two runs leave every device alike exactly when each key's last writes agree. */
  lemma SameRunsIff(xs: seq<Call>, ys: seq<Call>)
    ensures SameRuns(xs, ys) <==> SameWrites(xs, ys)
  {
    if SameWrites(xs, ys) {
      forall device ensures Run(xs, device) == Run(ys, device) {
        forall k ensures ReadKey(Run(xs, device), k) == ReadKey(Run(ys, device), k) {
          RunReads(xs, device, k);
          RunReads(ys, device, k);
        }
        StatesEqual(Run(xs, device), Run(ys, device));
      }
    } else {
      var k :| LastWrite(xs, k) != LastWrite(ys, k);
      SameOnEveryDeviceIff(xs, ys, k);
    }
  }

  lemma AllFineIff(slots: seq<Slot>, calls: seq<Call>, shadow: seq<ShadowEntry>)
    ensures (forall k :: KeyFine(slots, calls, shadow, k))
       <==> ShadowCurrent(slots, calls, shadow) && NoVertexTextures(calls) && FloatsKept(slots, calls, shadow)
  {
    if forall k :: KeyFine(slots, calls, shadow, k) {
      forall i: nat, k: Key | LastUpload(slots, shadow, i, k)
        ensures LastWrite(calls, k) == Some(Uploaded(slots[i], shadow, k))
      {
        assert KeyFine(slots, calls, shadow, k);
      }
      forall k: Key | k.bank == Textures && k.index >= 16 ensures LastWrite(calls, k) == None {
        assert KeyFine(slots, calls, shadow, k);
      }
      forall k: Key | IsFloatKey(k) && (forall j :: 0 <= j < |slots| ==> !Uploads(slots[j], shadow, k))
        ensures KeptValue(slots, shadow, calls, k)
      {
        assert KeyFine(slots, calls, shadow, k);
      }
    }
  }

  lemma ReplayWritesIff(slots: seq<Slot>, calls: seq<Call>, shadow: seq<ShadowEntry>, textures: seq<TextureEntry>, replay: seq<Call>)
    requires Recordable(calls) && UniqueParams(textures)
    requires replay == ReplayCalls(slots, Learn(Fresh(), textures, EncodeAll(calls)), EncodeAll(calls), shadow, textures)
    ensures SameWrites(replay, calls) <==> forall k :: KeyFine(slots, calls, shadow, k)
  {
    forall k ensures LastWrite(replay, k) == LastWrite(calls, k) <==> KeyFine(slots, calls, shadow, k) {
      KeyFineIff(slots, calls, shadow, textures, k);
    }
  }

  /** A replay of a kept recording leaves every device where the recorded pass
      would have exactly when the shadow holds what the pass uploaded itself, no
      vertex sampler was bound and the skipped ranges carry nothing more. */
  lemma ReplayIsPassIff(slots: seq<Slot>, calls: seq<Call>, pads: seq<Padding>, shadow: seq<ShadowEntry>, textures: seq<TextureEntry>)
    requires Recordable(calls) && |pads| == |calls| && KeptOps(EncodeAll(calls)) == EncodeAll(calls)
    requires UniqueParams(textures)
    ensures var ops := Visited(Record(EncodeAll(calls), pads));
      SameRuns(ReplayCalls(slots, Learn(Fresh(), textures, ops), ops, shadow, textures), calls)
      <==> ShadowCurrent(slots, calls, shadow) && NoVertexTextures(calls) && FloatsKept(slots, calls, shadow)
  {
    RecordingDecodes(EncodeAll(calls), pads);
    var replay := ReplayCalls(slots, Learn(Fresh(), textures, EncodeAll(calls)), EncodeAll(calls), shadow, textures);
    ReplayWritesIff(slots, calls, shadow, textures, replay);
    SameRunsIff(replay, calls);
    AllFineIff(slots, calls, shadow);
  }

  /** In particular when no skipped range is the last to write such a register. */
  lemma ReplayIsPass(slots: seq<Slot>, calls: seq<Call>, pads: seq<Padding>,
                     shadow: seq<ShadowEntry>, textures: seq<TextureEntry>, device: State)
    requires Recordable(calls) && |pads| == |calls| && KeptOps(EncodeAll(calls)) == EncodeAll(calls)
    requires UniqueParams(textures) && NoVertexTextures(calls)
    requires ShadowCurrent(slots, calls, shadow) && NothingLost(slots, calls, shadow)
    ensures var ops := Visited(Record(EncodeAll(calls), pads));
      Run(ReplayCalls(slots, Learn(Fresh(), textures, ops), ops, shadow, textures), device) == Run(calls, device)
  {
    forall k: Key | IsFloatKey(k) && (forall j :: 0 <= j < |slots| ==> !Uploads(slots[j], shadow, k))
      ensures KeptValue(slots, shadow, calls, k)
    {
      RepeatedHolds(slots, shadow, calls, k);
    }
    ReplayIsPassIff(slots, calls, pads, shadow, textures);
  }
}
