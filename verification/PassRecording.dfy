// What the pass recorder writes for each state manager call, how replay reads
// it back, and the check that two recordings describe the same pass.
module PassRecording {
  import opened Words
  import opened OpStream
  import opened DeviceState

  const OP_VERTEX_SHADER: byte := 1
  const OP_PIXEL_SHADER: byte := 2
  const OP_RENDER_STATE: byte := 3
  const OP_SAMPLER_STATE: byte := 4
  const OP_TEXTURE_STAGE: byte := 5
  const OP_TEXTURE: byte := 6
  const OP_VS_CONST_F: byte := 7
  const OP_PS_CONST_F: byte := 8
  const OP_FVF: byte := 9
  const OP_NPATCH: byte := 10
  const OP_TRANSFORM: byte := 11
  const OP_MATERIAL: byte := 12
  const OP_LIGHT: byte := 13
  const OP_LIGHT_ENABLE: byte := 14
  const OP_VS_CONST_I: byte := 15
  const OP_VS_CONST_B: byte := 16
  const OP_PS_CONST_I: byte := 17
  const OP_PS_CONST_B: byte := 18

  const MATRIX_WORDS: nat := 16
  const MATERIAL_WORDS: nat := 17
  const LIGHT_WORDS: nat := 26

  // ---- Calls as ops -----------------------------------------------------------

  function FileOp(file: RegisterFile): byte {
    match file
    case VsFloat => OP_VS_CONST_F
    case VsInt => OP_VS_CONST_I
    case VsBool => OP_VS_CONST_B
    case PsFloat => OP_PS_CONST_F
    case PsInt => OP_PS_CONST_I
    case PsBool => OP_PS_CONST_B
  }

  function OpFile(code: byte): Option<RegisterFile> {
    if code == OP_VS_CONST_F then Some(VsFloat)
    else if code == OP_VS_CONST_I then Some(VsInt)
    else if code == OP_VS_CONST_B then Some(VsBool)
    else if code == OP_PS_CONST_F then Some(PsFloat)
    else if code == OP_PS_CONST_I then Some(PsInt)
    else if code == OP_PS_CONST_B then Some(PsBool)
    else None
  }

  /** A run of registers as it lies in memory. */
  function Flatten(values: seq<Value>): seq<byte> {
    if values == [] then [] else Bytes(values[0]) + Flatten(values[1..])
  }

  function ReadRegisters(s: seq<byte>, width: nat, n: nat): (values: Option<seq<Value>>)
    ensures values.Some? ==> |values.value| == n
  {
    if n == 0 then Some([])
    else if |s| < 4 * width then None
    else match ReadRegisters(s[4 * width..], width, n - 1)
      case None => None
      case Some(rest) => Some([ReadWords(s, width)] + rest)
  }

  predicate AllWide(values: seq<Value>, width: nat) {
    forall i :: 0 <= i < |values| ==> |values[i]| == width
  }

  lemma {:induction false} RegistersRoundTrip(values: seq<Value>, width: nat)
    requires AllWide(values, width)
    ensures ReadRegisters(Flatten(values), width, |values|) == Some(values)
  {
    if values != [] {
      var s := Flatten(values);
      WordsRoundTrip(values[0]);
      ReadWordsPrefix(Bytes(values[0]), Flatten(values[1..]), width);
      assert s[4 * width..] == Flatten(values[1..]);
      RegistersRoundTrip(values[1..], width);
      assert values == [values[0]] + values[1..];
    }
  }

  lemma {:induction false} ReadWordsPrefix(s: seq<byte>, tail: seq<byte>, n: nat)
    requires 4 * n <= |s|
    ensures ReadWords(s + tail, n) == ReadWords(s, n)
    decreases n
  {
    if n > 0 {
      assert (s + tail)[4..] == s[4..] + tail;
      ReadWordsPrefix(s[4..], tail, n - 1);
    }
  }

  /** What the recorder appends for a call, before forwarding it unchanged. */
  function Encode(call: Call): Op {
    match call
    case SetTransform(state, matrix) => Op(OP_TRANSFORM, state, 0, Flatten([matrix]))
    case SetMaterial(material) => Op(OP_MATERIAL, 0, 0, Flatten([material]))
    case SetLight(index, light) => Op(OP_LIGHT, index, 0, Flatten([light]))
    case LightEnable(index, enable) => Op(OP_LIGHT_ENABLE, index, enable, [])
    case SetRenderState(state, value) => Op(OP_RENDER_STATE, state, value, [])
    case SetTexture(stage, texture) => Op(OP_TEXTURE, stage, 0, Flatten([[texture]]))
    case SetTextureStageState(stage, kind, value) => Op(OP_TEXTURE_STAGE, Pack(stage, kind), value, [])
    case SetSamplerState(sampler, kind, value) => Op(OP_SAMPLER_STATE, Pack(sampler, kind), value, [])
    case SetNPatchMode(segments) => Op(OP_NPATCH, 0, 0, Flatten([[segments]]))
    case SetFvf(fvf) => Op(OP_FVF, fvf, 0, [])
    case SetVertexShader(shader) => Op(OP_VERTEX_SHADER, 0, 0, Flatten([[shader]]))
    case SetPixelShader(shader) => Op(OP_PIXEL_SHADER, 0, 0, Flatten([[shader]]))
    case SetConstants(file, start, values) => Op(FileOp(file), start, Wrap(|values|), Flatten(values))
  }

  function ReadBlock(s: seq<byte>, words: nat): Option<Value> {
    if |s| < 4 * words then None else Some(ReadWords(s, words))
  }

  function ReadPointer(s: seq<byte>): Option<u32> {
    if |s| < 4 then None else Some(WordAt(s, 0))
  }

  /** The call replay makes for an op; none for an unknown code. (An op shorter
      than its code needs never comes from the recorder; it decodes to nothing.) */
  function Decode(op: Op): Option<Call> {
    if op.code == OP_VERTEX_SHADER then
      (match ReadPointer(op.payload) case Some(p) => Some(SetVertexShader(p)) case None => None)
    else if op.code == OP_PIXEL_SHADER then
      (match ReadPointer(op.payload) case Some(p) => Some(SetPixelShader(p)) case None => None)
    else if op.code == OP_RENDER_STATE then Some(SetRenderState(op.a, op.b))
    else if op.code == OP_SAMPLER_STATE then Some(SetSamplerState(op.a / 0x100, op.a % 0x100, op.b))
    else if op.code == OP_TEXTURE_STAGE then Some(SetTextureStageState(op.a / 0x100, op.a % 0x100, op.b))
    else if op.code == OP_TEXTURE then
      (match ReadPointer(op.payload) case Some(p) => Some(SetTexture(op.a, p)) case None => None)
    else if op.code == OP_FVF then Some(SetFvf(op.a))
    else if op.code == OP_NPATCH then
      (match ReadPointer(op.payload) case Some(p) => Some(SetNPatchMode(p)) case None => None)
    else if op.code == OP_TRANSFORM then
      (match ReadBlock(op.payload, MATRIX_WORDS) case Some(v) => Some(SetTransform(op.a, v)) case None => None)
    else if op.code == OP_MATERIAL then
      (match ReadBlock(op.payload, MATERIAL_WORDS) case Some(v) => Some(SetMaterial(v)) case None => None)
    else if op.code == OP_LIGHT then
      (match ReadBlock(op.payload, LIGHT_WORDS) case Some(v) => Some(SetLight(op.a, v)) case None => None)
    else if op.code == OP_LIGHT_ENABLE then Some(LightEnable(op.a, op.b))
    else match OpFile(op.code)
      case None => None
      case Some(file) =>
        match ReadRegisters(op.payload, FileWidth(file), op.b)
        case None => None
        case Some(values) => Some(SetConstants(file, op.a, values))
  }

  /** What the interface's types promise about a call's blocks. */
  predicate WellTyped(call: Call) {
    match call
    case SetTransform(_, matrix) => |matrix| == MATRIX_WORDS
    case SetMaterial(material) => |material| == MATERIAL_WORDS
    case SetLight(_, light) => |light| == LIGHT_WORDS
    case SetConstants(file, _, values) => AllWide(values, FileWidth(file)) && |values| < TWO_32
    case _ => true
  }

  /** The calls whose (stage, type) pair fits the recorder's packed word. */
  predicate Packs(call: Call) {
    match call
    case SetTextureStageState(stage, kind, _) => stage < 0x100_0000 && kind < 0x100
    case SetSamplerState(sampler, kind, _) => sampler < 0x100_0000 && kind < 0x100
    case _ => true
  }

  lemma BlockRoundTrip(v: Value)
    ensures ReadBlock(Flatten([v]), |v|) == Some(v)
    ensures |v| == 1 ==> ReadPointer(Flatten([v])) == Some(v[0])
  {
    assert Flatten([v]) == Bytes(v) + Flatten([]);
    assert Flatten([v]) == Bytes(v);
    WordsRoundTrip(v);
    if |v| == 1 {
      WordRoundTrip(v[0]);
      assert Bytes(v) == WordBytes(v[0]) + Bytes([]);
    }
  }

  lemma ConstantsDecode(op: Op, file: RegisterFile)
    requires op.code == FileOp(file)
    ensures Decode(op) == match ReadRegisters(op.payload, FileWidth(file), op.b)
                          case None => None
                          case Some(values) => Some(SetConstants(file, op.a, values))
  {
  }

  lemma ConstantsRoundTrip(file: RegisterFile, start: u32, values: seq<Value>)
    requires AllWide(values, FileWidth(file)) && |values| < TWO_32
    ensures Decode(Encode(SetConstants(file, start, values))) == Some(SetConstants(file, start, values))
  {
    RegistersRoundTrip(values, FileWidth(file));
    ConstantsDecode(Encode(SetConstants(file, start, values)), file);
  }

  lemma StagesRoundTripIff(call: Call)
    requires call.SetTextureStageState? || call.SetSamplerState?
    ensures Decode(Encode(call)) == Some(call) <==> Packs(call)
  {
    match call
    case SetTextureStageState(stage, kind, _) => PackRoundTrip(stage, kind);
    case SetSamplerState(sampler, kind, _) => PackRoundTrip(sampler, kind);
  }

  /** Replay reads back the very call that was recorded, exactly when the packed
      words hold: a texture stage or sampler call outside them replays as another. */
  lemma DecodeEncodeIff(call: Call)
    requires WellTyped(call)
    ensures Decode(Encode(call)) == Some(call) <==> Packs(call)
  {
    match call
    case SetTransform(_, matrix) => BlockRoundTrip(matrix);
    case SetMaterial(material) => BlockRoundTrip(material);
    case SetLight(_, light) => BlockRoundTrip(light);
    case SetTexture(_, texture) => BlockRoundTrip([texture]);
    case SetTextureStageState(_, _, _) => StagesRoundTripIff(call);
    case SetSamplerState(_, _, _) => StagesRoundTripIff(call);
    case SetNPatchMode(segments) => BlockRoundTrip([segments]);
    case SetVertexShader(shader) => BlockRoundTrip([shader]);
    case SetPixelShader(shader) => BlockRoundTrip([shader]);
    case SetConstants(file, start, values) => ConstantsRoundTrip(file, start, values);
    case _ =>
  }

  lemma {:induction false} FlattenSize(values: seq<Value>, width: nat)
    requires AllWide(values, width)
    ensures |Flatten(values)| == 4 * width * |values|
  {
    if values != [] {
      FlattenSize(values[1..], width);
    }
  }

  /** How much of an op is payload: the interface's blocks, a pointer or a float of
      32 bits, 16 bytes for a register of numbers and 4 for a truth value. */
  lemma PayloadSizes(call: Call)
    requires WellTyped(call)
    ensures |Encode(call).payload| ==
      match call
      case SetTransform(_, _) => 64
      case SetMaterial(_) => 68
      case SetLight(_, _) => 104
      case SetTexture(_, _) => 4
      case SetNPatchMode(_) => 4
      case SetVertexShader(_) => 4
      case SetPixelShader(_) => 4
      case SetConstants(file, _, values) => (if file == VsBool || file == PsBool then 4 else 16) * |values|
      case _ => 0
    ensures call.SetMaterial? || call.SetNPatchMode? || call.SetVertexShader? || call.SetPixelShader? ==> Encode(call).a == 0
    ensures call.SetConstants? || call.LightEnable? || call.SetRenderState? || call.SetTextureStageState? || call.SetSamplerState?
      || Encode(call).b == 0
  {
    match call
    case SetTransform(_, matrix) => FlattenSize([matrix], 16);
    case SetMaterial(material) => FlattenSize([material], 17);
    case SetLight(_, light) => FlattenSize([light], 26);
    case SetTexture(_, texture) => FlattenSize([[texture]], 1);
    case SetNPatchMode(segments) => FlattenSize([[segments]], 1);
    case SetVertexShader(shader) => FlattenSize([[shader]], 1);
    case SetPixelShader(shader) => FlattenSize([[shader]], 1);
    case SetConstants(file, _, values) => FlattenSize(values, FileWidth(file));
    case _ =>
  }

  function EncodeAll(calls: seq<Call>): (ops: seq<Op>)
    ensures |ops| == |calls|
    ensures forall i :: 0 <= i < |ops| ==> ops[i] == Encode(calls[i])
  {
    seq(|calls|, i requires 0 <= i < |calls| => Encode(calls[i]))
  }

  // ---- Plan slots ---------------------------------------------------------------

  /** Where an effect parameter goes: `count` float registers from `base`. */
  datatype Slot = Slot(param: u32, vs: bool, base: u32, count: u32, matrix: bool, columns: bool) {
    function File(): RegisterFile {
      if vs then VsFloat else PsFloat
    }

    /** Overlap as the source computes it, in wrapping 32-bit words. */
    predicate Overlaps(stage: bool, start: u32, n: u32) {
      vs == stage && start < Add32(base, count) && base < Add32(start, n)
    }
  }

  predicate Intersects(slots: seq<Slot>, vs: bool, start: u32, n: u32) {
    slots != [] && (slots[0].Overlaps(vs, start, n) || Intersects(slots[1..], vs, start, n))
  }

  lemma {:induction false} IntersectsIff(slots: seq<Slot>, vs: bool, start: u32, n: u32)
    ensures Intersects(slots, vs, start, n) <==> exists i :: 0 <= i < |slots| && slots[i].Overlaps(vs, start, n)
  {
    if slots != [] {
      IntersectsIff(slots[1..], vs, start, n);
      assert forall i :: 0 <= i < |slots| - 1 ==> slots[1..][i] == slots[i + 1];
      if i :| 0 <= i < |slots| && slots[i].Overlaps(vs, start, n) {
        assert i > 0 ==> slots[1..][i - 1] == slots[i];
      }
    }
  }

  method IntersectsPlanSlots(slots: seq<Slot>, vs: bool, start: u32, n: u32) returns (r: bool)
    ensures r == Intersects(slots, vs, start, n)
  {
    for i := 0 to |slots|
      invariant Intersects(slots, vs, start, n) == Intersects(slots[i..], vs, start, n)
    {
      var s := slots[i];
      if s.vs != vs {
        continue;
      }
      if start < Add32(s.base, s.count) && s.base < Add32(start, n) {
        return true;
      }
    }
    return false;
  }

  // ---- Agreement of two recordings ------------------------------------------------

  predicate IsFloatConst(code: byte) {
    code == OP_VS_CONST_F || code == OP_PS_CONST_F
  }

  /** Ops whose payload varies per object: replay does not take it from the recording. */
  predicate MaskedAt(slots: seq<Slot>, code: byte, a: u32, b: u32) {
    || code == OP_TEXTURE
    || (IsFloatConst(code) && Intersects(slots, code == OP_VS_CONST_F, a, b))
  }

  predicate Masked(slots: seq<Slot>, op: Op) {
    MaskedAt(slots, op.code, op.a, op.b)
  }

  /** Two ops match in everything the mask does not hide. */
  predicate SameOp(slots: seq<Slot>, x: Op, y: Op) {
    && x.code == y.code && x.a == y.a && x.b == y.b && |x.payload| == |y.payload|
    && (Masked(slots, x) || x.payload == y.payload)
  }

  /** A range of constants meets a slot of its shader, ends taken in 32 bits. */
  predicate SharesRegister(slot: Slot, vs: bool, start: u32, n: u32) {
    slot.vs == vs && start < (slot.base + slot.count) % 0x1_0000_0000 && slot.base < (start + n) % 0x1_0000_0000
  }

  /** Matching, spelt out: payloads may differ for a texture, and for a float range
      that shares a register with a slot of its file, in wrapping 32-bit words. */
  lemma SameOpIff(slots: seq<Slot>, x: Op, y: Op)
    ensures SameOp(slots, x, y) <==>
      && x.code == y.code && x.a == y.a && x.b == y.b && |x.payload| == |y.payload|
      && (x.payload == y.payload || x.code == 6
          || ((x.code == 7 || x.code == 8) && exists i :: 0 <= i < |slots| && SharesRegister(slots[i], x.code == 7, x.a, x.b)))
  {
    IntersectsIff(slots, x.code == 7, x.a, x.b);
    forall i | 0 <= i < |slots|
      ensures slots[i].Overlaps(x.code == 7, x.a, x.b) <==> SharesRegister(slots[i], x.code == 7, x.a, x.b)
    {
    }
  }

  predicate SameOps(slots: seq<Slot>, xs: seq<Op>, ys: seq<Op>) {
    |xs| == |ys| && forall i :: 0 <= i < |xs| ==> SameOp(slots, xs[i], ys[i])
  }

  /** Agreement stated without the loop: both streams are whole, and their ops
      match pointwise. */
  predicate Agree(slots: seq<Slot>, a: seq<byte>, b: seq<byte>) {
    && Parse(a).Some? && Parse(b).Some?
    && SameOps(slots, Parse(a).value, Parse(b).value)
  }

  lemma SameOpsFront(slots: seq<Slot>, x: Op, xs: seq<Op>, y: Op, ys: seq<Op>)
    ensures SameOps(slots, [x] + xs, [y] + ys) <==> SameOp(slots, x, y) && SameOps(slots, xs, ys)
  {
    var xxs, yys := [x] + xs, [y] + ys;
    assert xxs[0] == x && yys[0] == y && xxs[1..] == xs && yys[1..] == ys;
    if SameOps(slots, xxs, yys) {
      assert SameOp(slots, xxs[0], yys[0]);
      assert forall i :: 0 <= i < |xs| ==> xs[i] == xxs[i + 1] && ys[i] == yys[i + 1];
    }
  }

  /** A whole op lies at each of two offsets, and the headers are the same. */
  predicate SameHeaderAt(a: seq<byte>, pa: nat, b: seq<byte>, pb: nat) {
    && pa + HEADER_SIZE <= |a| && pb + HEADER_SIZE <= |b|
    && HeaderAt(a, pa) == HeaderAt(b, pb)
    && pa + HEADER_SIZE + HeaderAt(a, pa).bytes <= |a| && pb + HEADER_SIZE + HeaderAt(b, pb).bytes <= |b|
  }

  predicate SamePayloadAt(slots: seq<Slot>, a: seq<byte>, pa: nat, b: seq<byte>, pb: nat)
    requires SameHeaderAt(a, pa, b, pb)
  {
    var h := HeaderAt(a, pa);
    MaskedAt(slots, h.code, h.a, h.b) || PayloadAt(a, pa, h.bytes) == PayloadAt(b, pb, h.bytes)
  }

  /** Agreement header by header from two offsets on, as the loop checks it. */
  predicate AgreeFrom(slots: seq<Slot>, a: seq<byte>, pa: nat, b: seq<byte>, pb: nat)
    decreases |a| - pa
  {
    if pa >= |a| || pb >= |b| then pa == |a| && pb == |b|
    else
      && SameHeaderAt(a, pa, b, pb) && SamePayloadAt(slots, a, pa, b, pb)
      && var size := HEADER_SIZE + HeaderAt(a, pa).bytes;
         AgreeFrom(slots, a, pa + size, b, pb + size)
  }

  method ComparesPayload(slots: seq<Slot>, h: Header) returns (compare: bool)
    ensures compare == !MaskedAt(slots, h.code, h.a, h.b)
  {
    compare := h.code != OP_TEXTURE;
    if h.code == OP_VS_CONST_F || h.code == OP_PS_CONST_F {
      var dynamic := IntersectsPlanSlots(slots, h.code == OP_VS_CONST_F, h.a, h.b);
      if dynamic {
        compare := false;
      }
    }
  }

  method RecordingsAgree(slots: seq<Slot>, a: seq<byte>, b: seq<byte>) returns (agree: bool)
    ensures agree == AgreeFrom(slots, a, 0, b, 0)
  {
    var pa, pb := 0, 0;
    while pa < |a| && pb < |b|
      invariant 0 <= pa <= |a| && 0 <= pb <= |b|
      invariant AgreeFrom(slots, a, 0, b, 0) == AgreeFrom(slots, a, pa, b, pb)
      decreases |a| - pa
    {
      if pa + HEADER_SIZE > |a| || pb + HEADER_SIZE > |b| {
        return false;
      }
      var ha, hb := HeaderAt(a, pa), HeaderAt(b, pb);
      if ha != hb {
        return false;
      }
      var da, db := pa + HEADER_SIZE, pb + HEADER_SIZE;
      if da + ha.bytes > |a| || db + hb.bytes > |b| {
        return false;
      }
      var comparePayload := ComparesPayload(slots, ha);
      if comparePayload && PayloadAt(a, pa, ha.bytes) != PayloadAt(b, pb, ha.bytes) {
        return false;
      }
      pa := da + ha.bytes;
      pb := db + hb.bytes;
    }
    return pa == |a| && pb == |b|;
  }

  /** The op that lies at an offset. */
  predicate WholeAt(s: seq<byte>, p: nat) {
    p + HEADER_SIZE <= |s| && p + HEADER_SIZE + HeaderAt(s, p).bytes <= |s|
  }

  function OpAt(s: seq<byte>, p: nat): Op
    requires WholeAt(s, p)
  {
    var h := HeaderAt(s, p);
    Op(h.code, h.a, h.b, PayloadAt(s, p, h.bytes))
  }

  lemma FrontAt(s: seq<byte>, p: nat)
    requires p <= |s|
    ensures FrontOp(s[p..]) == if WholeAt(s, p) then Some(OpAt(s, p)) else None
    ensures WholeAt(s, p) ==> s[p..][OpSize(OpAt(s, p))..] == s[p + OpSize(OpAt(s, p))..]
  {
    var t := s[p..];
    assert forall i :: 0 <= i < |t| ==> t[i] == s[p + i];
    if p + HEADER_SIZE <= |s| {
      assert HeaderAt(t, 0) == HeaderAt(s, p);
      var n := HeaderAt(t, 0).bytes;
      if WholeAt(s, p) {
        assert PayloadAt(t, 0, n) == PayloadAt(s, p, n);
      }
    }
  }

  /** The same on the streams that are left. */
  predicate AgreeRest(slots: seq<Slot>, s: seq<byte>, t: seq<byte>)
    decreases |s|
  {
    if s == [] || t == [] then s == [] && t == []
    else
      && FrontOp(s).Some? && FrontOp(t).Some?
      && SameOp(slots, FrontOp(s).value, FrontOp(t).value)
      && AgreeRest(slots, s[OpSize(FrontOp(s).value)..], t[OpSize(FrontOp(t).value)..])
  }

  lemma {:induction false} AgreeFromIsRest(slots: seq<Slot>, a: seq<byte>, pa: nat, b: seq<byte>, pb: nat)
    requires pa <= |a| && pb <= |b|
    ensures AgreeFrom(slots, a, pa, b, pb) <==> AgreeRest(slots, a[pa..], b[pb..])
    decreases |a| - pa
  {
    assert (a[pa..] == [] <==> pa == |a|) && (b[pb..] == [] <==> pb == |b|);
    if pa < |a| && pb < |b| {
      if WholeAt(a, pa) && WholeAt(b, pb) {
        var na, nb := pa + OpSize(OpAt(a, pa)), pb + OpSize(OpAt(b, pb));
        AgreeFromIsRest(slots, a, na, b, nb);
        RestFollows(slots, a, pa, na, b, pb, nb);
      } else {
        FrontAt(a, pa);
        FrontAt(b, pb);
        AgreeRestBroken(slots, a[pa..], b[pb..]);
      }
    }
  }

  lemma RestFollows(slots: seq<Slot>, a: seq<byte>, pa: nat, na: nat, b: seq<byte>, pb: nat, nb: nat)
    requires pa < |a| && pb < |b| && WholeAt(a, pa) && WholeAt(b, pb)
    requires na == pa + OpSize(OpAt(a, pa)) && nb == pb + OpSize(OpAt(b, pb))
    requires AgreeFrom(slots, a, na, b, nb) <==> AgreeRest(slots, a[na..], b[nb..])
    ensures AgreeFrom(slots, a, pa, b, pb) <==> AgreeRest(slots, a[pa..], b[pb..])
  {
    AgreeFromAt(slots, a, pa, na, b, pb, nb);
    FrontAt(a, pa);
    FrontAt(b, pb);
    AgreeRestAt(slots, a[pa..], b[pb..], OpAt(a, pa), OpAt(b, pb), a[na..], b[nb..]);
  }

  lemma AgreeFromAt(slots: seq<Slot>, a: seq<byte>, pa: nat, na: nat, b: seq<byte>, pb: nat, nb: nat)
    requires pa < |a| && pb < |b| && WholeAt(a, pa) && WholeAt(b, pb)
    requires na == pa + OpSize(OpAt(a, pa)) && nb == pb + OpSize(OpAt(b, pb))
    ensures AgreeFrom(slots, a, pa, b, pb) <==>
      SameOp(slots, OpAt(a, pa), OpAt(b, pb)) && AgreeFrom(slots, a, na, b, nb)
  {
    if SameOp(slots, OpAt(a, pa), OpAt(b, pb)) {
      assert HeaderAt(a, pa) == HeaderAt(b, pb);
      assert pa + (HEADER_SIZE + HeaderAt(a, pa).bytes) == na && pb + (HEADER_SIZE + HeaderAt(a, pa).bytes) == nb;
    }
  }

  lemma AgreeRestAt(slots: seq<Slot>, s: seq<byte>, t: seq<byte>, x: Op, y: Op, sRest: seq<byte>, tRest: seq<byte>)
    requires FrontOp(s) == Some(x) && FrontOp(t) == Some(y)
    requires sRest == s[OpSize(x)..] && tRest == t[OpSize(y)..]
    ensures AgreeRest(slots, s, t) <==> SameOp(slots, x, y) && AgreeRest(slots, sRest, tRest)
  {
  }

  lemma AgreeRestBroken(slots: seq<Slot>, s: seq<byte>, t: seq<byte>)
    requires s != [] && t != [] && (FrontOp(s).None? || FrontOp(t).None?)
    ensures !AgreeRest(slots, s, t)
  {
  }

  lemma {:induction false} AgreeRestIff(slots: seq<Slot>, s: seq<byte>, t: seq<byte>)
    ensures AgreeRest(slots, s, t) <==> Agree(slots, s, t)
    decreases |s|
  {
    if s == [] || t == [] {
      AgreeEmpty(slots, s, t);
    } else if FrontOp(s).Some? && FrontOp(t).Some? {
      var x, y := FrontOp(s).value, FrontOp(t).value;
      AgreeRestIff(slots, s[OpSize(x)..], t[OpSize(y)..]);
      AgreeFront(slots, s, t, x, y);
    }
  }

  /** The loop decides agreement. */
  lemma AgreeFromIff(slots: seq<Slot>, a: seq<byte>, b: seq<byte>)
    ensures AgreeFrom(slots, a, 0, b, 0) <==> Agree(slots, a, b)
  {
    AgreeFromIsRest(slots, a, 0, b, 0);
    assert a[0..] == a && b[0..] == b;
    AgreeRestIff(slots, a, b);
  }

  lemma AgreeEmpty(slots: seq<Slot>, s: seq<byte>, t: seq<byte>)
    requires s == [] || t == []
    ensures Agree(slots, s, t) <==> s == [] && t == []
  {
    assert s != [] && Parse(s).Some? ==> |Parse(s).value| > 0;
    assert t != [] && Parse(t).Some? ==> |Parse(t).value| > 0;
    assert Parse([]) == Some([]);
  }

  lemma AgreeFront(slots: seq<Slot>, s: seq<byte>, t: seq<byte>, x: Op, y: Op)
    requires FrontOp(s) == Some(x) && FrontOp(t) == Some(y)
    ensures Agree(slots, s, t) <==> SameOp(slots, x, y) && Agree(slots, s[OpSize(x)..], t[OpSize(y)..])
  {
    var xs, ys := Parse(s[OpSize(x)..]), Parse(t[OpSize(y)..]);
    if xs.Some? && ys.Some? {
      SameOpsFront(slots, x, xs.value, y, ys.value);
    }
  }

  /** Agreement is an equivalence on whole streams. */
  lemma AgreeIsEquivalence(slots: seq<Slot>, a: seq<byte>, b: seq<byte>, c: seq<byte>)
    ensures Agree(slots, a, a) <==> Parse(a).Some?
    ensures Agree(slots, a, b) ==> Agree(slots, b, a)
    ensures Agree(slots, a, b) && Agree(slots, b, c) ==> Agree(slots, a, c)
  {
    if Agree(slots, a, b) && Agree(slots, b, c) {
      var xs, ys, zs := Parse(a).value, Parse(b).value, Parse(c).value;
      forall i | 0 <= i < |xs|
        ensures SameOp(slots, xs[i], zs[i])
      {
        assert SameOp(slots, xs[i], ys[i]) && SameOp(slots, ys[i], zs[i]);
      }
    }
  }

  /** Two recordings agree exactly when the ops they kept match pointwise. */
  lemma RecordedAgreeIff(slots: seq<Slot>, xs: seq<Op>, xPads: seq<Padding>, ys: seq<Op>, yPads: seq<Padding>)
    requires |xs| == |xPads| && |ys| == |yPads|
    ensures AgreeFrom(slots, Record(xs, xPads), 0, Record(ys, yPads), 0) <==> SameOps(slots, KeptOps(xs), KeptOps(ys))
  {
    RecordingDecodes(xs, xPads);
    RecordingDecodes(ys, yPads);
    AgreeFromIff(slots, Record(xs, xPads), Record(ys, yPads));
  }
}
