// What replaying a validated recording does to the device, as a list of state
// manager calls, and how far that is what the recorded pass did.
module PassReplay {
  import opened Words
  import opened OpStream
  import opened DeviceState
  import opened PassRecording

  const STAGES: nat := 20

  /** A zero-padded copy of the floats the game last set for a parameter. */
  type Block16 = v: Value | |v| == 16 witness seq(16, _ => 0)

  datatype ShadowEntry = ShadowEntry(param: u32, floats: nat, matrix: bool, v: Block16)

  datatype TextureEntry = TextureEntry(param: u32, texture: u32)

  /** How replay rebinds one texture stage. */
  datatype Stage = Untouched | Dynamic(param: u32) | Static(texture: u32)

  function FindShadow(shadow: seq<ShadowEntry>, param: u32): (e: Option<ShadowEntry>)
    ensures e.Some? ==> e.value.param == param
  {
    if shadow == [] then None
    else if shadow[0].param == param then Some(shadow[0])
    else FindShadow(shadow[1..], param)
  }

  function FindTexture(textures: seq<TextureEntry>, param: u32): (texture: Option<u32>) {
    if textures == [] then None
    else if textures[0].param == param then Some(textures[0].texture)
    else FindTexture(textures[1..], param)
  }

  // ---- Constants ----------------------------------------------------------------

  /** Registers one upload of a slot writes. */
  function SlotRegs(slot: Slot): nat {
    if slot.count > 4 then 4 else slot.count
  }

  /** Word `c` of register `r` of an upload: a matrix goes in rows, or transposed
      when the shader wants columns; anything else in order, padded with zeros. */
  function SlotWord(slot: Slot, e: ShadowEntry, r: nat, c: nat): u32
    requires r < 4 && c < 4
  {
    if slot.matrix && e.matrix then
      if slot.columns then e.v[4 * c + r] else e.v[4 * r + c]
    else if 4 * r + c < e.floats then e.v[4 * r + c] else 0
  }

  function SlotRegister(slot: Slot, e: ShadowEntry, r: nat): Value
    requires r < 4
  {
    [SlotWord(slot, e, r, 0), SlotWord(slot, e, r, 1), SlotWord(slot, e, r, 2), SlotWord(slot, e, r, 3)]
  }

  function SlotValues(slot: Slot, e: ShadowEntry): (values: seq<Value>)
    ensures |values| == SlotRegs(slot)
    ensures forall r :: 0 <= r < |values| ==> values[r] == SlotRegister(slot, e, r)
  {
    seq(SlotRegs(slot), r requires 0 <= r < SlotRegs(slot) => SlotRegister(slot, e, r))
  }

  function SlotCall(slot: Slot, e: ShadowEntry): Call {
    SetConstants(slot.File(), slot.base, SlotValues(slot, e))
  }

  /** The upload of a slot whose parameter has been seen. */
  function SeenCall(slot: Slot, shadow: seq<ShadowEntry>): seq<Call> {
    if slot.count > 4 then []
    else match FindShadow(shadow, slot.param)
      case None => []
      case Some(e) => [SlotCall(slot, e)]
  }

  function SeenCalls(slots: seq<Slot>, shadow: seq<ShadowEntry>): seq<Call> {
    if slots == [] then [] else SeenCall(slots[0], shadow) + SeenCalls(slots[1..], shadow)
  }

  /** Every slot that a float range overlaps has a seen value. */
  predicate OverlappedSeen(slots: seq<Slot>, shadow: seq<ShadowEntry>, vs: bool, start: u32, n: u32) {
    forall i :: 0 <= i < |slots| && slots[i].Overlaps(vs, start, n) ==> FindShadow(shadow, slots[i].param).Some?
  }

  predicate CoveredBySeen(slots: seq<Slot>, shadow: seq<ShadowEntry>, vs: bool, start: u32, n: u32) {
    Intersects(slots, vs, start, n) && OverlappedSeen(slots, shadow, vs, start, n)
  }

  // ---- Ops ----------------------------------------------------------------------

  /** Ops that replay leaves out: textures, and float ranges the shadow covers. */
  predicate Skipped(slots: seq<Slot>, shadow: seq<ShadowEntry>, op: Op) {
    || op.code == OP_TEXTURE
    || (IsFloatConst(op.code) && CoveredBySeen(slots, shadow, op.code == OP_VS_CONST_F, op.a, op.b))
  }

  function OpCall(slots: seq<Slot>, shadow: seq<ShadowEntry>, op: Op): seq<Call> {
    if Skipped(slots, shadow, op) then []
    else match Decode(op)
      case None => []
      case Some(call) => [call]
  }

  function OpCalls(slots: seq<Slot>, shadow: seq<ShadowEntry>, ops: seq<Op>): seq<Call> {
    if ops == [] then [] else OpCall(slots, shadow, ops[0]) + OpCalls(slots, shadow, ops[1..])
  }

  // ---- Textures -------------------------------------------------------------------

  function StageCall(stages: seq<Stage>, textures: seq<TextureEntry>, stage: nat): seq<Call>
    requires stage < |stages| <= STAGES
  {
    match stages[stage]
    case Untouched => []
    case Dynamic(param) =>
      var found := FindTexture(textures, param);
      [SetTexture(stage, if found.Some? then found.value else 0)]
    case Static(texture) => [SetTexture(stage, texture)]
  }

  function StageCalls(stages: seq<Stage>, textures: seq<TextureEntry>, from: nat): seq<Call>
    requires from <= |stages| <= STAGES
    decreases |stages| - from
  {
    if from == |stages| then []
    else StageCall(stages, textures, from) + StageCalls(stages, textures, from + 1)
  }

  /** The first parameter whose current texture is the recorded one. */
  function ParamOf(textures: seq<TextureEntry>, texture: u32): Option<u32> {
    if textures == [] then None
    else if textures[0].texture == texture then Some(textures[0].param)
    else ParamOf(textures[1..], texture)
  }

  function LearnStage(textures: seq<TextureEntry>, texture: u32): Stage {
    if texture != 0 && ParamOf(textures, texture).Some? then Dynamic(ParamOf(textures, texture).value)
    else Static(texture)
  }

  function LearnOp(stages: seq<Stage>, textures: seq<TextureEntry>, op: Op): (r: seq<Stage>)
    requires |stages| == STAGES
    ensures |r| == STAGES
  {
    if op.code != OP_TEXTURE || op.a >= STAGES || ReadPointer(op.payload).None? then stages
    else stages[op.a := LearnStage(textures, ReadPointer(op.payload).value)]
  }

  /** The stage table learned from a recording. */
  function Learn(stages: seq<Stage>, textures: seq<TextureEntry>, ops: seq<Op>): (r: seq<Stage>)
    requires |stages| == STAGES
    ensures |r| == STAGES
    decreases |ops|
  {
    if ops == [] then stages else Learn(LearnOp(stages, textures, ops[0]), textures, ops[1..])
  }

  /** How each of the 20 texture stages is rebound. */
  type StageTable = s: seq<Stage> | |s| == STAGES witness seq(STAGES, _ => Untouched)

  /** What is known of one technique: the float slots of its shaders, whether pass-lite
      may take it at all, how far it has come, its two recordings and the stage table. */
  datatype Plan = Plan(slots: seq<Slot>, eligible: bool, state: nat, rec1: seq<byte>, rec2: seq<byte>, stages: StageTable)

  // ---- A whole replay ---------------------------------------------------------------

  function ReplayCalls(slots: seq<Slot>, stages: seq<Stage>, ops: seq<Op>,
                       shadow: seq<ShadowEntry>, textures: seq<TextureEntry>): seq<Call>
    requires |stages| == STAGES
  {
    OpCalls(slots, shadow, ops) + SeenCalls(slots, shadow) + StageCalls(stages, textures, 0)
  }

  // ---- Mask soundness -----------------------------------------------------------------

  /** The payload of a masked op cannot reach the device: the op is skipped, or
      it writes no register at all. */
  predicate Hidden(slots: seq<Slot>, shadow: seq<ShadowEntry>, op: Op) {
    !Masked(slots, op) || Skipped(slots, shadow, op) || op.b == 0
  }

  predicate AllHidden(slots: seq<Slot>, shadow: seq<ShadowEntry>, ops: seq<Op>) {
    forall i :: 0 <= i < |ops| ==> Hidden(slots, shadow, ops[i])
  }

  /** The payload has the registers the header promises, as recorded ops do. */
  predicate WholeConstants(op: Op) {
    IsFloatConst(op.code) ==> |op.payload| == 16 * op.b
  }

  lemma HiddenSound(slots: seq<Slot>, shadow: seq<ShadowEntry>, x: Op, y: Op)
    requires SameOp(slots, x, y) && Hidden(slots, shadow, x)
    ensures OpCall(slots, shadow, x) == OpCall(slots, shadow, y)
  {
    if Masked(slots, x) && !Skipped(slots, shadow, x) {
      assert ReadRegisters(x.payload, 4, 0) == ReadRegisters(y.payload, 4, 0);
    }
  }

  function Flip(b: byte): byte {
    if b == 0 then 1 else 0
  }

  /** A payload that differs in the first byte only. */
  function Tamper(op: Op): Op
    requires op.payload != []
  {
    op.(payload := [Flip(op.payload[0])] + op.payload[1..])
  }

  lemma ReadRegistersFront(s: seq<byte>, n: nat)
    requires n > 0 && |s| == 16 * n
    ensures ReadRegisters(s, 4, n).Some?
    ensures ReadRegisters(s, 4, n).value[0][0] == WordAt(s, 0)
  {
    RegistersPresent(s, n);
    assert ReadWords(s, 4)[0] == WordAt(s, 0);
  }

  lemma {:induction false} RegistersPresent(s: seq<byte>, n: nat)
    requires |s| >= 16 * n
    ensures ReadRegisters(s, 4, n).Some?
    ensures n > 0 ==> ReadRegisters(s, 4, n).value[0] == ReadWords(s, 4)
    decreases n
  {
    if n > 0 {
      RegistersPresent(s[16..], n - 1);
    }
  }

  lemma ExposedLeaks(slots: seq<Slot>, shadow: seq<ShadowEntry>, x: Op)
    requires !Hidden(slots, shadow, x) && WholeConstants(x)
    ensures SameOp(slots, x, Tamper(x)) && OpCall(slots, shadow, x) != OpCall(slots, shadow, Tamper(x))
  {
    var y := Tamper(x);
    ReadRegistersFront(x.payload, x.b);
    ReadRegistersFront(y.payload, y.b);
    var file := if x.code == OP_VS_CONST_F then VsFloat else PsFloat;
    ConstantsDecode(x, file);
    ConstantsDecode(y, file);
    assert WordAt(x.payload, 0) != WordAt(y.payload, 0);
  }

  lemma {:induction false} OpCallsSame(slots: seq<Slot>, shadow: seq<ShadowEntry>, xs: seq<Op>, ys: seq<Op>)
    requires |xs| == |ys|
    requires forall i :: 0 <= i < |xs| ==> OpCall(slots, shadow, xs[i]) == OpCall(slots, shadow, ys[i])
    ensures OpCalls(slots, shadow, xs) == OpCalls(slots, shadow, ys)
  {
    if xs != [] {
      assert forall i :: 0 <= i < |xs| - 1 ==> xs[1..][i] == xs[i + 1] && ys[1..][i] == ys[i + 1];
      OpCallsSame(slots, shadow, xs[1..], ys[1..]);
    }
  }

  lemma JoinCalls(a: seq<Call>, b: seq<Call>, c: seq<Call>)
    ensures a + (b + c) == a + b + c
  {
  }

  lemma {:induction false} OpCallsConcat(slots: seq<Slot>, shadow: seq<ShadowEntry>, xs: seq<Op>, ys: seq<Op>)
    ensures OpCalls(slots, shadow, xs + ys) == OpCalls(slots, shadow, xs) + OpCalls(slots, shadow, ys)
  {
    if xs == [] {
      assert xs + ys == ys;
    } else {
      OpCallsConcat(slots, shadow, xs[1..], ys);
      assert (xs + ys)[0] == xs[0] && (xs + ys)[1..] == xs[1..] + ys;
      JoinCalls(OpCall(slots, shadow, xs[0]), OpCalls(slots, shadow, xs[1..]), OpCalls(slots, shadow, ys));
    }
  }

  lemma OpCallsSplit(slots: seq<Slot>, shadow: seq<ShadowEntry>, ops: seq<Op>, i: nat)
    requires i < |ops|
    ensures OpCalls(slots, shadow, ops)
         == OpCalls(slots, shadow, ops[..i]) + OpCall(slots, shadow, ops[i]) + OpCalls(slots, shadow, ops[i + 1..])
  {
    var before, op, after := ops[..i], ops[i], ops[i + 1..];
    assert ops == before + ops[i..] && ops[i..][0] == op && ops[i..][1..] == after;
    OpCallsConcat(slots, shadow, before, ops[i..]);
    JoinCalls(OpCalls(slots, shadow, before), OpCall(slots, shadow, op), OpCalls(slots, shadow, after));
  }

  lemma ExposedChanges(slots: seq<Slot>, shadow: seq<ShadowEntry>, xs: seq<Op>, i: nat)
    requires i < |xs| && !Hidden(slots, shadow, xs[i]) && WholeConstants(xs[i])
    ensures var ys := xs[i := Tamper(xs[i])];
      SameOps(slots, xs, ys) && OpCalls(slots, shadow, xs) != OpCalls(slots, shadow, ys)
  {
    var ys := xs[i := Tamper(xs[i])];
    ExposedLeaks(slots, shadow, xs[i]);
    OpCallsSplit(slots, shadow, xs, i);
    OpCallsSplit(slots, shadow, ys, i);
    assert ys[..i] == xs[..i] && ys[i + 1..] == xs[i + 1..];
    var x, y := OpCall(slots, shadow, xs[i]), OpCall(slots, shadow, ys[i]);
    var before, after := OpCalls(slots, shadow, xs[..i]), OpCalls(slots, shadow, xs[i + 1..]);
    assert x == (before + x + after)[|before|..|before + x + after| - |after|];
    assert y == (before + y + after)[|before|..|before + y + after| - |after|];
  }

  /** The mask is sound for a recording exactly when its masked constants are all
      hidden by seen values: then, and only then, does every recording that agrees
      with it replay as the same calls. */
  lemma MaskSoundIff(slots: seq<Slot>, shadow: seq<ShadowEntry>, xs: seq<Op>)
    requires forall i :: 0 <= i < |xs| ==> WholeConstants(xs[i])
    ensures (forall ys :: SameOps(slots, xs, ys) ==> OpCalls(slots, shadow, ys) == OpCalls(slots, shadow, xs))
       <==> AllHidden(slots, shadow, xs)
  {
    if AllHidden(slots, shadow, xs) {
      forall ys | SameOps(slots, xs, ys)
        ensures OpCalls(slots, shadow, ys) == OpCalls(slots, shadow, xs)
      {
        forall i | 0 <= i < |xs|
          ensures OpCall(slots, shadow, xs[i]) == OpCall(slots, shadow, ys[i])
        {
          HiddenSound(slots, shadow, xs[i], ys[i]);
        }
        OpCallsSame(slots, shadow, xs, ys);
      }
    } else {
      var i :| 0 <= i < |xs| && !Hidden(slots, shadow, xs[i]);
      ExposedChanges(slots, shadow, xs, i);
    }
  }

  /** Mask soundness on the byte streams: two recordings that agree replay to the
      same device, from every device, if each overlapped slot has a seen value. */
  lemma MaskSoundness(slots: seq<Slot>, stages: seq<Stage>, shadow: seq<ShadowEntry>,
                      textures: seq<TextureEntry>, a: seq<byte>, b: seq<byte>, device: State)
    requires |stages| == STAGES && AgreeFrom(slots, a, 0, b, 0)
    requires forall op :: op in Visited(a) && IsFloatConst(op.code) ==>
      OverlappedSeen(slots, shadow, op.code == OP_VS_CONST_F, op.a, op.b)
    ensures Run(ReplayCalls(slots, stages, Visited(a), shadow, textures), device)
         == Run(ReplayCalls(slots, stages, Visited(b), shadow, textures), device)
  {
    AgreeFromIff(slots, a, b);
    var xs, ys := Visited(a), Visited(b);
    forall i | 0 <= i < |xs|
      ensures OpCall(slots, shadow, xs[i]) == OpCall(slots, shadow, ys[i])
    {
      assert xs[i] in Visited(a) && SameOp(slots, xs[i], ys[i]);
      HiddenSound(slots, shadow, xs[i], ys[i]);
    }
    OpCallsSame(slots, shadow, xs, ys);
  }
}
