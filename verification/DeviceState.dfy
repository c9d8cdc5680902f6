// The pipeline state of a D3D9 device that effects write, and the calls of the
// D3DX effect state manager interface as writes to it.
module DeviceState {
  import opened Words

  datatype RegisterFile = VsFloat | VsInt | VsBool | PsFloat | PsInt | PsBool

  datatype Bank =
    | Transforms | Materials | Lights | LightEnables
    | RenderStates | Textures | TextureStages | Samplers
    | NPatch | Fvf | VertexShader | PixelShader
    | Registers(file: RegisterFile)

  /** One piece of state; its value is a block of words, never interpreted. */
  datatype Key = Key(bank: Bank, index: nat)
  type Value = seq<u32>
  type State = map<Key, Value>

  datatype Call =
    | SetTransform(state: u32, matrix: Value)
    | SetMaterial(material: Value)
    | SetLight(index: u32, light: Value)
    | LightEnable(index: u32, enable: u32)
    | SetRenderState(state: u32, value: u32)
    | SetTexture(stage: u32, texture: u32)
    | SetTextureStageState(stage: u32, kind: u32, value: u32)
    | SetSamplerState(sampler: u32, kind: u32, value: u32)
    | SetNPatchMode(segments: u32)
    | SetFvf(fvf: u32)
    | SetVertexShader(shader: u32)
    | SetPixelShader(shader: u32)
    | SetConstants(file: RegisterFile, start: u32, values: seq<Value>)

  const RENDER_STATES: nat := 256
  const TEXTURE_SLOTS: nat := 20
  const TEXTURE_STAGES: nat := 8
  const STAGE_KINDS: nat := 33
  const SAMPLER_KINDS: nat := 16

  function FileSize(file: RegisterFile): nat {
    match file
    case VsFloat => 256
    case PsFloat => 224
    case _ => 16
  }

  /** Words in one register. */
  function FileWidth(file: RegisterFile): nat {
    match file
    case VsBool => 1
    case PsBool => 1
    case _ => 4
  }

  /** The slot of a texture stage: 16 pixel stages, then 4 vertex samplers. */
  function TextureSlot(stage: u32): (slot: Option<nat>)
    ensures slot.Some? ==> slot.value < TEXTURE_SLOTS
  {
    if stage < 16 then Some(stage)
    else if 257 <= stage <= 260 then Some(16 + (stage - 257))
    else None
  }

  lemma TextureSlotsDistinct(s: u32, t: u32)
    requires TextureSlot(s).Some? && TextureSlot(s) == TextureSlot(t)
    ensures s == t
  {
  }

  datatype Range = Range(bank: Bank, start: nat, values: seq<Value>)

  function RangeMap(r: Range): (m: State)
    ensures forall k :: k in m <==> k.bank == r.bank && r.start <= k.index < r.start + |r.values|
    ensures forall k :: k in m ==> m[k] == r.values[k.index - r.start]
  {
    map i | r.start <= i < r.start + |r.values| :: Key(r.bank, i) := r.values[i - r.start]
  }

  predicate Has(state: State, bank: Bank, start: nat, count: nat) {
    forall i :: start <= i < start + count ==> Key(bank, i) in state
  }

  function ReadRange(state: State, bank: Bank, start: nat, count: nat): (values: seq<Value>)
    requires Has(state, bank, start, count)
    ensures |values| == count
    ensures forall i :: 0 <= i < count ==> values[i] == state[Key(bank, start + i)]
  {
    if count == 0 then []
    else ReadRange(state, bank, start, count - 1) + [state[Key(bank, start + count - 1)]]
  }

  /** The range a call writes, or nothing when its tables have no place for it. */
  function Target(call: Call): Option<Range> {
    match call
    case SetTransform(state, matrix) => Some(Range(Transforms, state, [matrix]))
    case SetMaterial(material) => Some(Range(Materials, 0, [material]))
    case SetLight(index, light) => Some(Range(Lights, index, [light]))
    case LightEnable(index, enable) => Some(Range(LightEnables, index, [[enable]]))
    case SetRenderState(state, value) =>
      if state < RENDER_STATES then Some(Range(RenderStates, state, [[value]])) else None
    case SetTexture(stage, texture) =>
      (match TextureSlot(stage)
       case None => None
       case Some(slot) => Some(Range(Textures, slot, [[texture]])))
    case SetTextureStageState(stage, kind, value) =>
      if stage < TEXTURE_STAGES && kind < STAGE_KINDS
      then Some(Range(TextureStages, stage * STAGE_KINDS + kind, [[value]])) else None
    case SetSamplerState(sampler, kind, value) =>
      (match TextureSlot(sampler)
       case None => None
       case Some(slot) =>
         if kind < SAMPLER_KINDS then Some(Range(Samplers, slot * SAMPLER_KINDS + kind, [[value]])) else None)
    case SetNPatchMode(segments) => Some(Range(NPatch, 0, [[segments]]))
    case SetFvf(fvf) => Some(Range(Fvf, 0, [[fvf]]))
    case SetVertexShader(shader) => Some(Range(VertexShader, 0, [[shader]]))
    case SetPixelShader(shader) => Some(Range(PixelShader, 0, [[shader]]))
    case SetConstants(file, start, values) =>
      if |values| == 0 || (start < FileSize(file) && |values| <= FileSize(file) - start)
      then Some(Range(Registers(file), start, values)) else None
  }

  /** The calls that the tables have no place for. */
  lemma NoPlaceIff(call: Call)
    ensures Target(call).None? <==>
      match call
      case SetRenderState(state, _) => state > 255
      case SetTexture(stage, _) => 15 < stage < 257 || stage > 260
      case SetTextureStageState(stage, kind, _) => stage > 7 || kind > 32
      case SetSamplerState(sampler, kind, _) => 15 < sampler < 257 || sampler > 260 || kind > 15
      case SetConstants(VsFloat, start, values) => values != [] && start + |values| > 256
      case SetConstants(PsFloat, start, values) => values != [] && start + |values| > 224
      case SetConstants(_, start, values) => values != [] && start + |values| > 16
      case _ => false
  {
  }

  /** The state a call sets, whatever value it gives it. */
  predicate SameState(x: Call, y: Call) {
    match x
    case SetTransform(state, _) => y.SetTransform? && y.state == state
    case SetMaterial(_) => y.SetMaterial?
    case SetLight(index, _) => y.SetLight? && y.index == index
    case LightEnable(index, _) => y.LightEnable? && y.index == index
    case SetRenderState(state, _) => y.SetRenderState? && y.state == state
    case SetTexture(stage, _) => y.SetTexture? && y.stage == stage
    case SetTextureStageState(stage, kind, _) => y.SetTextureStageState? && y.stage == stage && y.kind == kind
    case SetSamplerState(sampler, kind, _) => y.SetSamplerState? && y.sampler == sampler && y.kind == kind
    case SetNPatchMode(_) => y.SetNPatchMode?
    case SetFvf(_) => y.SetFvf?
    case SetVertexShader(_) => y.SetVertexShader?
    case SetPixelShader(_) => y.SetPixelShader?
    case SetConstants(file, start, values) =>
      && y.SetConstants? && y.file == file && values != [] && y.values != []
      && start < y.start + |y.values| && y.start < start + |values|
  }

  /** Two calls write a common cell exactly when they set the same state. */
  lemma CellsApart(x: Call, y: Call)
    requires Target(x).Some? && Target(y).Some?
    ensures (exists k :: k in Effect(x) && k in Effect(y)) <==> SameState(x, y)
  {
    var a, b := Effect(x), Effect(y);
    assert a == RangeMap(Target(x).value) && b == RangeMap(Target(y).value);
    RangesMeet(Target(x).value, Target(y).value);
    if !(x.SetConstants? && y.SetConstants?) {
      if !x.SetConstants? { OneCell(x); }
      if !y.SetConstants? { OneCell(y); }
      CellOf(x, y);
    }
  }

  lemma RangesMeet(r: Range, q: Range)
    ensures (exists k :: k in RangeMap(r) && k in RangeMap(q)) <==>
      && r.bank == q.bank && r.values != [] && q.values != []
      && r.start < q.start + |q.values| && q.start < r.start + |r.values|
  {
    if r.bank == q.bank && r.values != [] && q.values != [] && r.start < q.start + |q.values| && q.start < r.start + |r.values| {
      var i := if r.start < q.start then q.start else r.start;
      assert Key(r.bank, i) in RangeMap(r) && Key(r.bank, i) in RangeMap(q);
    }
  }

  lemma OneCell(call: Call)
    requires Target(call).Some? && !call.SetConstants?
    ensures |Target(call).value.values| == 1
    ensures !Target(call).value.bank.Registers?
  {
  }

  lemma CellOf(x: Call, y: Call)
    requires Target(x).Some? && Target(y).Some? && !(x.SetConstants? && y.SetConstants?)
    ensures SameState(x, y) <==>
      && Target(x).value.bank == Target(y).value.bank
      && Target(x).value.start < Target(y).value.start + |Target(y).value.values|
      && Target(y).value.start < Target(x).value.start + |Target(x).value.values|
  {
  }

  function Effect(call: Call): State {
    match Target(call)
    case None => map[]
    case Some(r) => RangeMap(r)
  }

  function Run(calls: seq<Call>, state: State): State {
    if calls == [] then state
    else Run(calls[..|calls| - 1], state) + Effect(calls[|calls| - 1])
  }

  /** What the last of the calls that write a key gives it. */
  function LastWrite(calls: seq<Call>, k: Key): Option<Value> {
    if calls == [] then None
    else if k in Effect(calls[|calls| - 1]) then Some(Effect(calls[|calls| - 1])[k])
    else LastWrite(calls[..|calls| - 1], k)
  }

  function ReadKey(state: State, k: Key): Option<Value> {
    if k in state then Some(state[k]) else None
  }

  lemma {:induction false} RunReads(calls: seq<Call>, state: State, k: Key)
    ensures ReadKey(Run(calls, state), k)
         == if LastWrite(calls, k).Some? then LastWrite(calls, k) else ReadKey(state, k)
  {
    if calls != [] {
      RunReads(calls[..|calls| - 1], state, k);
    }
  }

  lemma {:induction false} RunConcat(xs: seq<Call>, ys: seq<Call>, state: State)
    ensures Run(xs + ys, state) == Run(ys, Run(xs, state))
  {
    if ys == [] {
      assert xs + ys == xs;
    } else {
      var n := |ys| - 1;
      RunConcat(xs, ys[..n], state);
      assert (xs + ys)[..|xs + ys| - 1] == xs + ys[..n];
    }
  }

  lemma {:induction false} LastWriteConcat(xs: seq<Call>, ys: seq<Call>, k: Key)
    ensures LastWrite(xs + ys, k)
         == if LastWrite(ys, k).Some? then LastWrite(ys, k) else LastWrite(xs, k)
  {
    if ys == [] {
      assert xs + ys == xs;
    } else {
      var n := |ys| - 1;
      LastWriteConcat(xs, ys[..n], k);
      assert (xs + ys)[..|xs + ys| - 1] == xs + ys[..n];
    }
  }

  lemma {:induction false} LastWriteNone(calls: seq<Call>, k: Key)
    requires forall i :: 0 <= i < |calls| ==> k !in Effect(calls[i])
    ensures LastWrite(calls, k) == None
  {
    if calls != [] {
      LastWriteNone(calls[..|calls| - 1], k);
    }
  }

  lemma StatesEqual(s: State, t: State)
    requires forall k :: ReadKey(s, k) == ReadKey(t, k)
    ensures s == t
  {
    forall k ensures k in s <==> k in t {
      assert ReadKey(s, k) == ReadKey(t, k);
    }
    forall k | k in s ensures s[k] == t[k] {
      assert ReadKey(s, k) == ReadKey(t, k);
    }
  }
}
