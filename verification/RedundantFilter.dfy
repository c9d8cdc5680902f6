// The device wrapper's filter: shader and float constant calls that would repeat
// what the device already holds are answered without asking it.
module RedundantFilter {
  import opened Words
  import opened DeviceState

  datatype Pipe = Vertex | Pixel

  /** A call on the wrapper. Anything that is neither a shader nor a float constant
      call answers, and changes the device, as the device pleases. */
  datatype Call =
    | SetShader(pipe: Pipe, shader: u32)
    | SetFloats(pipe: Pipe, start: u32, data: Option<seq<Value>>, count: u32)
    | Other(result: int, changes: State)
    | Present(result: int, after: State)
    | Reset(result: int, after: State)
  {
    /** What a caller can pass: data, where there is any, of the stated length; and
        other calls do not write the state that the filter tracks. */
    predicate Proper() {
      match this
      case SetFloats(_, _, data, count) => data.Some? ==> |data.value| == count
      case Other(_, changes) => forall k :: k in changes ==> !Tracked(k)
      case _ => true
    }
  }

  predicate Tracked(k: Key) {
    k.bank == VertexShader || k.bank == PixelShader || k.bank == Registers(VsFloat) || k.bank == Registers(PsFloat)
  }

  function ShaderBank(pipe: Pipe): Bank {
    if pipe.Vertex? then VertexShader else PixelShader
  }

  function Floats(pipe: Pipe): Bank {
    Registers(if pipe.Vertex? then VsFloat else PsFloat)
  }

  /** Registers the wrapper keeps track of. */
  function TrackedCount(pipe: Pipe): nat {
    if pipe.Vertex? then 256 else 224
  }

  // ---- The device, unfiltered ---------------------------------------------------------

  const D3D_OK: int := 0
  const INVALID_CALL: int := -1

  /** The device behind the wrapper: how many float registers it has, which may be
      more or fewer than the wrapper tracks, and which shaders are its own. */
  datatype Limits = Limits(vs: nat, ps: nat, shaders: set<u32>)

  predicate Takes(limits: Limits, call: Call) {
    match call
    case SetShader(_, shader) => shader in limits.shaders
    case SetFloats(pipe, start, data, count) =>
      data.Some? && start + count <= (if pipe.Vertex? then limits.vs else limits.ps)
    case _ => true
  }

  function Step(limits: Limits, state: State, call: Call): (State, int) {
    match call
    case SetShader(pipe, shader) =>
      if Takes(limits, call) then (state + RangeMap(Range(ShaderBank(pipe), 0, [[shader]])), D3D_OK)
      else (state, INVALID_CALL)
    case SetFloats(pipe, start, data, count) =>
      if Takes(limits, call) then (state + RangeMap(Range(Floats(pipe), start, data.value)), D3D_OK)
      else (state, INVALID_CALL)
    case Other(result, changes) => (state + changes, result)
    case Present(result, after) => (after, result)
    case Reset(result, after) => (after, result)
  }

  /** Where a taken call goes: each pipe has its own shader and its own registers. */
  lemma StepWrites(limits: Limits, state: State, call: Call, pipe: Pipe, r: nat)
    requires Takes(limits, call) && ((call.SetShader? && call.pipe == pipe) || (call.SetFloats? && call.pipe == pipe))
    ensures var t := Step(limits, state, call).0;
      && (call.SetShader? ==> t == state[Key(if pipe.Vertex? then VertexShader else PixelShader, 0) := [call.shader]])
      && (call.SetFloats? && call.start <= r < call.start + |call.data.value| ==>
            Holds(t, Key(Registers(if pipe.Vertex? then VsFloat else PsFloat), r), call.data.value[r - call.start]))
  {
    if call.SetFloats? {
      var range := Range(Floats(pipe), call.start, call.data.value);
      assert call.start <= r < call.start + |call.data.value| ==> Key(Floats(pipe), r) in RangeMap(range);
    } else {
      var range := Range(ShaderBank(pipe), 0, [[call.shader]]);
      assert RangeMap(range) == map[Key(ShaderBank(pipe), 0) := [call.shader]];
    }
  }

  /** A run of calls straight on the device: its final state and all the answers. */
  function Raw(limits: Limits, state: State, calls: seq<Call>): (r: (State, seq<int>))
    ensures |r.1| == |calls|
  {
    if calls == [] then (state, [])
    else
      var (before, results) := Raw(limits, state, calls[..|calls| - 1]);
      var (after, result) := Step(limits, before, calls[|calls| - 1]);
      (after, results + [result])
  }

  class Inner {
    const limits: Limits
    var state: State

    constructor (limits: Limits, state: State)
      ensures this.limits == limits && this.state == state
    {
      this.limits, this.state := limits, state;
    }

    method Do(call: Call) returns (result: int)
      modifies this
      ensures (state, result) == Step(limits, old(state), call)
    {
      var (after, answer) := Step(limits, state, call);
      state := after;
      result := answer;
    }
  }

  // ---- The filter, as a function ----------------------------------------------------------

  datatype Flags = Flags(stats: bool, optimizer: bool, skipShaders: bool, skipConstants: bool) {
    predicate DropsShaders() {
      optimizer && skipShaders
    }

    predicate DropsConstants() {
      optimizer && skipConstants
    }
  }

  /** What the wrapper knows of one pipe: the registers and the shader it has seen. */
  datatype Track = Track(values: seq<Value>, seen: seq<bool>, shader: u32, shaderSeen: bool) {
    predicate Sized(pipe: Pipe) {
      |values| == |seen| == TrackedCount(pipe)
    }

    predicate Follows(start: u32, data: Option<seq<Value>>, count: u32)
      requires data.Some? ==> |data.value| == count
    {
      data.Some? && count > 0 && start + count <= |seen|
    }

    predicate Repeats(start: nat, data: seq<Value>)
      requires |values| == |seen| && start + |data| <= |seen|
    {
      forall r :: start <= r < start + |data| ==> seen[r] && values[r] == data[r - start]
    }

    function Note(start: nat, data: seq<Value>): Track
      requires |values| == |seen| && start + |data| <= |seen|
    {
      this.(values := Overwrite(values, start, data), seen := Overwrite(seen, start, seq(|data|, _ => true)))
    }

    function Forget(): Track {
      Track(values, seq(|seen|, _ => false), 0, false)
    }
  }

  datatype Cache = Cache(vs: Track, ps: Track) {
    predicate Sized() {
      vs.Sized(Vertex) && ps.Sized(Pixel)
    }

    function Of(pipe: Pipe): Track {
      if pipe.Vertex? then vs else ps
    }

    function With(pipe: Pipe, t: Track): Cache {
      if pipe.Vertex? then this.(vs := t) else this.(ps := t)
    }

    function Forget(): Cache {
      Cache(vs.Forget(), ps.Forget())
    }
  }

  /** Passes a call on; a failure makes the wrapper forget all it has seen. */
  function Forward(limits: Limits, cache: Cache, state: State, call: Call): (Cache, State, int) {
    var (after, result) := Step(limits, state, call);
    (if result == D3D_OK then cache else cache.Forget(), after, result)
  }

  function FilterStep(flags: Flags, limits: Limits, cache: Cache, state: State, call: Call): (Cache, State, int)
    requires cache.Sized() && call.Proper()
  {
    match call
    case SetShader(pipe, shader) =>
      var t := cache.Of(pipe);
      var tracks := flags.stats || flags.DropsShaders();
      var noted := if tracks then cache.With(pipe, t.(shader := shader, shaderSeen := true)) else cache;
      if flags.DropsShaders() && t.shaderSeen && t.shader == shader then (noted, state, D3D_OK)
      else Forward(limits, noted, state, call)
    case SetFloats(pipe, start, data, count) =>
      var t := cache.Of(pipe);
      var tracks := (flags.stats || flags.DropsConstants()) && t.Follows(start, data, count);
      var noted := if tracks then cache.With(pipe, t.Note(start, data.value)) else cache;
      if flags.DropsConstants() && tracks && t.Repeats(start, data.value) then (noted, state, D3D_OK)
      else Forward(limits, noted, state, call)
    case Other(_, _) =>
      var (after, result) := Step(limits, state, call);
      (cache, after, result)
    case _ =>
      var (after, result) := Step(limits, state, call);
      (cache.Forget(), after, result)
  }

  function Filtered(flags: Flags, limits: Limits, cache: Cache, state: State, calls: seq<Call>): (r: (Cache, State, seq<int>))
    requires cache.Sized() && forall i :: 0 <= i < |calls| ==> calls[i].Proper()
    ensures r.0.Sized()
  {
    if calls == [] then (cache, state, [])
    else
      var (c, s, results) := Filtered(flags, limits, cache, state, calls[..|calls| - 1]);
      var (after, t, result) := FilterStep(flags, limits, c, s, calls[|calls| - 1]);
      (after, t, results + [result])
  }

  // ---- It refines the device ------------------------------------------------------------------

  predicate Holds(state: State, k: Key, v: Value) {
    k in state && state[k] == v
  }

  function FloatCount(limits: Limits, pipe: Pipe): nat {
    if pipe.Vertex? then limits.vs else limits.ps
  }

  /** Each seen register is what the device holds, and the device has it. */
  predicate RegistersInStep(t: Track, pipe: Pipe, limits: Limits, state: State)
    requires |t.values| == |t.seen|
  {
    forall i: nat :: i < |t.seen| && t.seen[i] ==>
      Holds(state, Key(Floats(pipe), i), t.values[i]) && i < FloatCount(limits, pipe)
  }

  predicate ShaderInStep(t: Track, pipe: Pipe, limits: Limits, state: State) {
    t.shaderSeen ==> Holds(state, Key(ShaderBank(pipe), 0), [t.shader]) && t.shader in limits.shaders
  }

  predicate InStep(flags: Flags, cache: Cache, limits: Limits, state: State)
    requires cache.Sized()
  {
    && (flags.DropsConstants() ==>
          RegistersInStep(cache.vs, Vertex, limits, state) && RegistersInStep(cache.ps, Pixel, limits, state))
    && (flags.DropsShaders() ==>
          ShaderInStep(cache.vs, Vertex, limits, state) && ShaderInStep(cache.ps, Pixel, limits, state))
  }

  /** The device has no float registers beyond the ones the wrapper tracks. */
  predicate NoMoreThanTracked(limits: Limits) {
    limits.vs <= TrackedCount(Vertex) && limits.ps <= TrackedCount(Pixel)
  }

  /** Writing a run that the device already holds changes nothing. */
  lemma RepeatChangesNothing(t: Track, pipe: Pipe, limits: Limits, state: State, start: u32, data: seq<Value>)
    requires |t.values| == |t.seen| && start + |data| <= |t.seen| && data != [] && |data| < TWO_32
    requires RegistersInStep(t, pipe, limits, state) && t.Repeats(start, data)
    ensures Step(limits, state, SetFloats(pipe, start, Some(data), |data|)) == (state, D3D_OK)
  {
    var range := RangeMap(Range(Floats(pipe), start, data));
    forall r: nat | start <= r < start + |data|
      ensures Holds(state, Key(Floats(pipe), r), data[r - start]) && r < FloatCount(limits, pipe)
    {
      assert t.seen[r];
    }
    var last := start + |data| - 1;
    assert Holds(state, Key(Floats(pipe), last), data[last - start]) && last < FloatCount(limits, pipe);
    HeldRangeChangesNothing(state, Floats(pipe), start, data);
  }

  lemma HeldRangeChangesNothing(state: State, bank: Bank, start: nat, data: seq<Value>)
    requires forall r: nat :: start <= r < start + |data| ==> Holds(state, Key(bank, r), data[r - start])
    ensures state + RangeMap(Range(bank, start, data)) == state
  {
    forall k | k in RangeMap(Range(bank, start, data))
      ensures k in state && state[k] == RangeMap(Range(bank, start, data))[k]
    {
      assert Holds(state, Key(bank, k.index), data[k.index - start]);
    }
  }

  /** What the device takes, the wrapper may note. */
  lemma NotedInStep(t: Track, pipe: Pipe, limits: Limits, state: State, start: u32, data: seq<Value>)
    requires |t.values| == |t.seen| && start + |data| <= |t.seen| && start + |data| <= FloatCount(limits, pipe)
    requires RegistersInStep(t, pipe, limits, state)
    ensures RegistersInStep(t.Note(start, data), pipe, limits, state + RangeMap(Range(Floats(pipe), start, data)))
  {
    var after, next := t.Note(start, data), state + RangeMap(Range(Floats(pipe), start, data));
    forall i: nat | i < |t.seen| && after.seen[i]
      ensures Holds(next, Key(Floats(pipe), i), after.values[i]) && i < FloatCount(limits, pipe)
    {
      assert !(start <= i < start + |data|) ==> Holds(state, Key(Floats(pipe), i), t.values[i]);
    }
  }

  /** Registers stay in step over writes to anything else. */
  lemma OthersInStep(t: Track, pipe: Pipe, limits: Limits, state: State, changes: State)
    requires |t.values| == |t.seen| && RegistersInStep(t, pipe, limits, state)
    requires forall k :: k in changes ==> k.bank != Floats(pipe)
    ensures RegistersInStep(t, pipe, limits, state + changes)
  {
    forall i: nat | i < |t.seen| && t.seen[i]
      ensures Holds(state + changes, Key(Floats(pipe), i), t.values[i])
    {
      assert Holds(state, Key(Floats(pipe), i), t.values[i]);
    }
  }

  lemma ShaderStep(flags: Flags, limits: Limits, cache: Cache, state: State, pipe: Pipe, shader: u32)
    requires cache.Sized() && InStep(flags, cache, limits, state)
    ensures var (c, s, r) := FilterStep(flags, limits, cache, state, SetShader(pipe, shader));
      (s, r) == Step(limits, state, SetShader(pipe, shader)) && c.Sized() && InStep(flags, c, limits, s)
  {
    var write := RangeMap(Range(ShaderBank(pipe), 0, [[shader]]));
    var t := cache.Of(pipe);
    if flags.DropsShaders() && t.shaderSeen && t.shader == shader {
      assert state + write == state;
    } else if flags.DropsConstants() && shader in limits.shaders {
      OthersInStep(cache.vs, Vertex, limits, state, write);
      OthersInStep(cache.ps, Pixel, limits, state, write);
    }
  }

  /** Constants that the device takes: the wrapper keeps in step with them. */
  lemma TakenInStep(flags: Flags, limits: Limits, cache: Cache, state: State, pipe: Pipe, start: u32, data: Option<seq<Value>>, count: u32)
    requires cache.Sized() && InStep(flags, cache, limits, state) && flags.DropsConstants() && NoMoreThanTracked(limits)
    requires SetFloats(pipe, start, data, count).Proper() && Takes(limits, SetFloats(pipe, start, data, count))
    ensures var t := cache.Of(pipe);
      var c := if t.Follows(start, data, count) then cache.With(pipe, t.Note(start, data.value)) else cache;
      InStep(flags, c, limits, state + RangeMap(Range(Floats(pipe), start, data.value)))
  {
    var write := RangeMap(Range(Floats(pipe), start, data.value));
    var other := if pipe.Vertex? then Pixel else Vertex;
    OthersInStep(cache.Of(other), other, limits, state, write);
    if count > 0 {
      NotedInStep(cache.Of(pipe), pipe, limits, state, start, data.value);
    } else {
      assert state + write == state;
    }
  }

  lemma RepeatedInStep(flags: Flags, limits: Limits, cache: Cache, state: State, pipe: Pipe, start: u32, data: Option<seq<Value>>, count: u32)
    requires cache.Sized() && InStep(flags, cache, limits, state) && SetFloats(pipe, start, data, count).Proper()
    requires flags.DropsConstants() && NoMoreThanTracked(limits)
    requires cache.Of(pipe).Follows(start, data, count) && cache.Of(pipe).Repeats(start, data.value)
    ensures Step(limits, state, SetFloats(pipe, start, data, count)) == (state, D3D_OK)
    ensures InStep(flags, cache.With(pipe, cache.Of(pipe).Note(start, data.value)), limits, state)
  {
    RepeatChangesNothing(cache.Of(pipe), pipe, limits, state, start, data.value);
    NotedInStep(cache.Of(pipe), pipe, limits, state, start, data.value);
  }

  lemma FloatsStep(flags: Flags, limits: Limits, cache: Cache, state: State,
                   pipe: Pipe, start: u32, data: Option<seq<Value>>, count: u32)
    requires cache.Sized() && InStep(flags, cache, limits, state) && SetFloats(pipe, start, data, count).Proper()
    requires flags.DropsConstants() ==> NoMoreThanTracked(limits)
    ensures var (c, s, r) := FilterStep(flags, limits, cache, state, SetFloats(pipe, start, data, count));
      (s, r) == Step(limits, state, SetFloats(pipe, start, data, count)) && c.Sized() && InStep(flags, c, limits, s)
  {
    var call, t := SetFloats(pipe, start, data, count), cache.Of(pipe);
    if flags.DropsConstants() && t.Follows(start, data, count) && t.Repeats(start, data.value) {
      RepeatedInStep(flags, limits, cache, state, pipe, start, data, count);
    } else if flags.DropsConstants() && Takes(limits, call) {
      TakenInStep(flags, limits, cache, state, pipe, start, data, count);
    }
  }

  lemma StepRefines(flags: Flags, limits: Limits, cache: Cache, state: State, call: Call)
    requires cache.Sized() && InStep(flags, cache, limits, state) && call.Proper()
    requires flags.DropsConstants() ==> NoMoreThanTracked(limits)
    ensures var (c, s, r) := FilterStep(flags, limits, cache, state, call);
      (s, r) == Step(limits, state, call) && c.Sized() && InStep(flags, c, limits, s)
  {
    match call
    case SetShader(pipe, shader) => ShaderStep(flags, limits, cache, state, pipe, shader);
    case SetFloats(pipe, start, data, count) => FloatsStep(flags, limits, cache, state, pipe, start, data, count);
    case Other(_, changes) =>
      if flags.DropsConstants() {
        OthersInStep(cache.vs, Vertex, limits, state, changes);
        OthersInStep(cache.ps, Pixel, limits, state, changes);
      }
    case _ =>
  }

  /** Any run through the filter answers every call, and leaves the device, as the
      same run straight on the device would. */
  lemma {:induction false} RunRefines(flags: Flags, limits: Limits, cache: Cache, state: State, calls: seq<Call>)
    requires cache.Sized() && InStep(flags, cache, limits, state)
    requires forall i :: 0 <= i < |calls| ==> calls[i].Proper()
    requires flags.DropsConstants() ==> NoMoreThanTracked(limits)
    ensures var (c, s, results) := Filtered(flags, limits, cache, state, calls);
      (s, results) == Raw(limits, state, calls) && InStep(flags, c, limits, s)
  {
    if calls != [] {
      var n := |calls| - 1;
      RunRefines(flags, limits, cache, state, calls[..n]);
      var (c, s, _) := Filtered(flags, limits, cache, state, calls[..n]);
      StepRefines(flags, limits, c, s, calls[n]);
    }
  }

  function NewTrack(pipe: Pipe): (t: Track)
    ensures t.Sized(pipe)
  {
    Track(seq(TrackedCount(pipe), _ => []), seq(TrackedCount(pipe), _ => false), 0, false)
  }

  function NewCache(): (cache: Cache)
    ensures cache.Sized()
  {
    Cache(NewTrack(Vertex), NewTrack(Pixel))
  }

  /** A device that takes no shader and no constant. */
  const DEAF := Limits(0, 0, {})

  /** A shader call is answered without the device exactly when dropping is switched
      on and the shader is the one last seen: a device that would refuse shows it. */
  lemma ShaderDroppedIff(flags: Flags, cache: Cache, state: State, pipe: Pipe, shader: u32)
    requires cache.Sized()
    ensures var track := if pipe.Vertex? then cache.vs else cache.ps;
      && (FilterStep(flags, DEAF, cache, state, SetShader(pipe, shader)).2 == D3D_OK
          <==> flags.optimizer && flags.skipShaders && track.shaderSeen && track.shader == shader)
  {
  }

  /** A run of constants within the tracked registers, each seen with these bits. */
  predicate SeenAlready(track: Track, start: nat, data: seq<Value>) {
    && start + |data| <= |track.seen| && start + |data| <= |track.values|
    && forall r :: start <= r < start + |data| ==> track.seen[r] && track.values[r] == data[r - start]
  }

  /** And constants exactly when it is on and every register of a range within the
      tracked ones, 256 or 224, has been seen with these bits. */
  lemma FloatsDroppedIff(flags: Flags, cache: Cache, state: State, pipe: Pipe, start: u32, data: seq<Value>)
    requires |cache.vs.values| == |cache.vs.seen| == 256 && |cache.ps.values| == |cache.ps.seen| == 224
    requires 0 < |data| < TWO_32
    ensures var track := if pipe.Vertex? then cache.vs else cache.ps;
      && (FilterStep(flags, DEAF, cache, state, SetFloats(pipe, start, Some(data), |data|)).2 == D3D_OK
          <==> flags.optimizer && flags.skipConstants && SeenAlready(track, start, data))
  {
    var call := SetFloats(pipe, start, Some(data), |data|);
    assert !Takes(DEAF, call);
    var t := cache.Of(pipe);
    if t.Follows(start, Some(data), |data|) {
      assert t.Repeats(start, data) <==> SeenAlready(t, start, data);
    }
  }

  /** What the device has just taken is dropped when it comes again at once. */
  lemma SecondShaderIsDropped(flags: Flags, limits: Limits, cache: Cache, state: State, pipe: Pipe, shader: u32, other: Limits, now: State)
    requires cache.Sized() && flags.DropsShaders()
    requires FilterStep(flags, limits, cache, state, SetShader(pipe, shader)).2 == D3D_OK
    ensures var c := FilterStep(flags, limits, cache, state, SetShader(pipe, shader)).0;
      c.Sized() && FilterStep(flags, other, c, now, SetShader(pipe, shader)) == (c, now, D3D_OK)
  {
  }

  lemma NotedTwice(t: Track, start: nat, data: seq<Value>)
    requires |t.values| == |t.seen| && start + |data| <= |t.seen|
    ensures var noted := t.Note(start, data);
      |noted.values| == |noted.seen| == |t.seen| && noted.Repeats(start, data) && noted.Note(start, data) == noted
  {
    var noted := t.Note(start, data);
    assert noted.Note(start, data).values == noted.values;
    assert noted.Note(start, data).seen == noted.seen;
  }

  lemma SecondFloatsAreDropped(flags: Flags, limits: Limits, cache: Cache, state: State, call: Call, other: Limits, now: State)
    requires cache.Sized() && call.Proper() && flags.DropsConstants()
    requires call.SetFloats? && call.count > 0 && call.start + call.count <= TrackedCount(call.pipe)
    requires FilterStep(flags, limits, cache, state, call).2 == D3D_OK
    ensures var c := FilterStep(flags, limits, cache, state, call).0;
      c.Sized() && FilterStep(flags, other, c, now, call) == (c, now, D3D_OK)
  {
    var t := cache.Of(call.pipe);
    assert call.data.Some?;
    NotedTwice(t, call.start, call.data.value);
    var c := FilterStep(flags, limits, cache, state, call).0;
    assert c == cache.With(call.pipe, t.Note(call.start, call.data.value));
    assert c.Of(call.pipe) == t.Note(call.start, call.data.value);
    assert c.With(call.pipe, c.Of(call.pipe)) == c;
  }

  /** A call that fails makes the wrapper forget everything it has seen. */
  lemma FailureForgets(flags: Flags, limits: Limits, cache: Cache, state: State, call: Call)
    requires cache.Sized() && call.Proper() && (call.SetShader? || call.SetFloats?)
    requires FilterStep(flags, limits, cache, state, call).2 != D3D_OK
    ensures var c := FilterStep(flags, limits, cache, state, call).0;
      c.Sized() && !c.vs.shaderSeen && !c.ps.shaderSeen
      && (forall i :: 0 <= i < 256 ==> !c.vs.seen[i]) && (forall i :: 0 <= i < 224 ==> !c.ps.seen[i])
  {
  }

  predicate AllProper(calls: seq<Call>) {
    forall i :: 0 <= i < |calls| ==> calls[i].Proper()
  }

  ghost predicate Exact(flags: Flags, limits: Limits) {
    forall state, calls :: AllProper(calls) ==>
      (Filtered(flags, limits, NewCache(), state, calls).1, Filtered(flags, limits, NewCache(), state, calls).2)
      == Raw(limits, state, calls)
  }

  const A: Value := [1, 0, 0, 0]
  const B: Value := [2, 0, 0, 0]

  /** A range that starts among the tracked registers and ends beyond them is not
      tracked, so a register in it goes stale in the wrapper. */
  function Straddle(pipe: Pipe): (calls: seq<Call>)
    ensures |calls| == 3 && AllProper(calls)
  {
    var last := TrackedCount(pipe) - 1;
    [SetFloats(pipe, last, Some([A]), 1), SetFloats(pipe, last, Some([B, B]), 2), SetFloats(pipe, last, Some([A]), 1)]
  }

  lemma RawThree(limits: Limits, state: State, calls: seq<Call>)
    requires |calls| == 3
    ensures var s1 := Step(limits, state, calls[0]).0;
      var s2 := Step(limits, s1, calls[1]).0;
      Raw(limits, state, calls).0 == Step(limits, s2, calls[2]).0
  {
    var two, one := calls[..2], calls[..1];
    assert two[..1] == one && two[1] == calls[1] && one[..0] == [] && one[0] == calls[0];
    assert Raw(limits, state, one[..0]).0 == state;
    assert Raw(limits, state, one).0 == Step(limits, state, calls[0]).0;
    assert Raw(limits, state, two).0 == Step(limits, Raw(limits, state, one).0, calls[1]).0;
  }

  lemma FilteredThree(flags: Flags, limits: Limits, cache: Cache, state: State, calls: seq<Call>)
    requires |calls| == 3 && AllProper(calls) && cache.Sized()
    ensures var (c1, s1, _) := FilterStep(flags, limits, cache, state, calls[0]);
      c1.Sized() && var (c2, s2, _) := FilterStep(flags, limits, c1, s1, calls[1]);
      c2.Sized() && Filtered(flags, limits, cache, state, calls).1 == FilterStep(flags, limits, c2, s2, calls[2]).1
  {
    var two, one := calls[..2], calls[..1];
    assert two[..1] == one && two[1] == calls[1] && one[..0] == [] && one[0] == calls[0];
    var r0 := Filtered(flags, limits, cache, state, one[..0]);
    var r1 := Filtered(flags, limits, cache, state, one);
    var r2 := Filtered(flags, limits, cache, state, two);
    assert r1.1 == FilterStep(flags, limits, cache, state, calls[0]).1;
    assert r2.1 == FilterStep(flags, limits, r1.0, r1.1, calls[1]).1;
  }

  lemma TracksFirst(flags: Flags, limits: Limits, pipe: Pipe)
    requires flags.DropsConstants() && FloatCount(limits, pipe) > TrackedCount(pipe)
    ensures var last := TrackedCount(pipe) - 1;
      var (c, s, _) := FilterStep(flags, limits, NewCache(), map[], SetFloats(pipe, last, Some([A]), 1));
      c.Sized() && c.Of(pipe).Follows(last, Some([A]), 1) && c.Of(pipe).Repeats(last, [A])
  {
    var last, t := TrackedCount(pipe) - 1, NewTrack(pipe);
    var call := SetFloats(pipe, last, Some([A]), 1);
    assert !t.seen[last];
    assert !t.Repeats(last, [A]);
    assert t.Follows(last, Some([A]), 1) && NewCache().Of(pipe) == t;
    var noted := t.Note(last, [A]);
    assert noted.seen[last] && noted.values[last] == A;
    assert noted.Repeats(last, [A]);
  }

  lemma MissesSecond(flags: Flags, limits: Limits, pipe: Pipe, c: Cache, s: State)
    requires c.Sized() && FloatCount(limits, pipe) > TrackedCount(pipe)
    ensures var last := TrackedCount(pipe) - 1;
      var (c2, s2, _) := FilterStep(flags, limits, c, s, SetFloats(pipe, last, Some([B, B]), 2));
      c2 == c && Holds(s2, Key(Floats(pipe), last), B)
  {
    var last := TrackedCount(pipe) - 1;
    assert !c.Of(pipe).Follows(last, Some([B, B]), 2);
    assert Takes(limits, SetFloats(pipe, last, Some([B, B]), 2));
    assert Key(Floats(pipe), last) in RangeMap(Range(Floats(pipe), last, [B, B]));
  }

  lemma StraddleDiffers(flags: Flags, limits: Limits, pipe: Pipe)
    requires flags.DropsConstants() && FloatCount(limits, pipe) > TrackedCount(pipe)
    ensures Filtered(flags, limits, NewCache(), map[], Straddle(pipe)).1 != Raw(limits, map[], Straddle(pipe)).0
  {
    var calls, last := Straddle(pipe), TrackedCount(pipe) - 1;
    RawThree(limits, map[], calls);
    FilteredThree(flags, limits, NewCache(), map[], calls);
    TracksFirst(flags, limits, pipe);
    var (c1, s1, _) := FilterStep(flags, limits, NewCache(), map[], calls[0]);
    MissesSecond(flags, limits, pipe, c1, s1);
    EndsWithA(limits, pipe, Step(limits, Step(limits, map[], calls[0]).0, calls[1]).0);
    assert B[0] == 2 && A[0] == 1;
  }

  lemma EndsWithA(limits: Limits, pipe: Pipe, s: State)
    requires FloatCount(limits, pipe) > TrackedCount(pipe)
    ensures var last := TrackedCount(pipe) - 1;
      Holds(Step(limits, s, SetFloats(pipe, last, Some([A]), 1)).0, Key(Floats(pipe), last), A)
  {
    var last := TrackedCount(pipe) - 1;
    assert Takes(limits, SetFloats(pipe, last, Some([A]), 1));
    assert Key(Floats(pipe), last) in RangeMap(Range(Floats(pipe), last, [A]));
  }

  /** The filter cannot be told from the device exactly when it drops no constants,
      or the device has no more float registers than the wrapper tracks. */
  lemma ExactIff(flags: Flags, limits: Limits)
    ensures Exact(flags, limits) <==> (flags.DropsConstants() ==> NoMoreThanTracked(limits))
  {
    if flags.DropsConstants() ==> NoMoreThanTracked(limits) {
      forall state, calls | AllProper(calls)
        ensures (Filtered(flags, limits, NewCache(), state, calls).1, Filtered(flags, limits, NewCache(), state, calls).2)
             == Raw(limits, state, calls)
      {
        RunRefines(flags, limits, NewCache(), state, calls);
      }
    } else {
      StraddleDiffers(flags, limits, if limits.vs > TrackedCount(Vertex) then Vertex else Pixel);
    }
  }

  // ---- The wrapper ------------------------------------------------------------------------------

  /** The filter's own loop, on its arrays in place: it takes over what differs, and
      reports whether nothing did. */
  method TrackFloatConstants(cache: array<Value>, seen: array<bool>, start: u32, data: Option<seq<Value>>, count: u32)
    returns (redundant: bool)
    requires cache.Length == seen.Length
    requires data.Some? ==> |data.value| == count
    modifies cache, seen
    ensures var t := Track(old(cache[..]), old(seen[..]), 0, false);
      redundant == (t.Follows(start, data, count) && t.Repeats(start, data.value))
    ensures var t := Track(old(cache[..]), old(seen[..]), 0, false);
      && cache[..] == (if t.Follows(start, data, count) then t.Note(start, data.value) else t).values
      && seen[..] == (if t.Follows(start, data, count) then t.Note(start, data.value) else t).seen
  {
    if data == None || count == 0 || start >= seen.Length || count > seen.Length - start {
      return false;
    }
    ghost var t := Track(cache[..], seen[..], 0, false);
    redundant := NoteRun(cache, seen, start, data.value);
    assert cache[..] == t.Note(start, data.value).values && seen[..] == t.Note(start, data.value).seen;
  }

  method NoteRun(cache: array<Value>, seen: array<bool>, start: nat, data: seq<Value>) returns (allRedundant: bool)
    requires cache.Length == seen.Length && start + |data| <= seen.Length
    modifies cache, seen
    ensures allRedundant == Track(old(cache[..]), old(seen[..]), 0, false).Repeats(start, data)
    ensures forall j :: 0 <= j < seen.Length ==> cache[j] == if start <= j < start + |data| then data[j - start] else old(cache[j])
    ensures forall j :: 0 <= j < seen.Length ==> seen[j] == (start <= j < start + |data| || old(seen[j]))
  {
    ghost var t := Track(cache[..], seen[..], 0, false);
    allRedundant := true;
    ghost var other := 0;
    for i := 0 to |data|
      invariant allRedundant ==> forall r :: start <= r < start + i ==> t.seen[r] && t.values[r] == data[r - start]
      invariant !allRedundant ==> start <= other < start + i && !(t.seen[other] && t.values[other] == data[other - start])
      invariant forall j :: 0 <= j < seen.Length ==> cache[j] == if start <= j < start + i then data[j - start] else t.values[j]
      invariant forall j :: 0 <= j < seen.Length ==> seen[j] == (start <= j < start + i || t.seen[j])
    {
      var reg := start + i;
      if !(seen[reg] && cache[reg] == data[i]) {
        allRedundant, other := false, reg;
        cache[reg] := data[i];
        seen[reg] := true;
      }
    }
  }

  class Wrapper {
    const flags: Flags
    const inner: Inner
    const vsConstants: array<Value>
    const vsSeen: array<bool>
    const psConstants: array<Value>
    const psSeen: array<bool>
    var vertexShader: u32
    var vertexShaderSeen: bool
    var pixelShader: u32
    var pixelShaderSeen: bool

    ghost predicate Valid()
      reads this
    {
      && vsConstants.Length == vsSeen.Length == TrackedCount(Vertex)
      && psConstants.Length == psSeen.Length == TrackedCount(Pixel)
      && vsConstants != psConstants && vsSeen != psSeen
    }

    ghost function Seen(): (cache: Cache)
      requires Valid()
      reads this, vsConstants, vsSeen, psConstants, psSeen
      ensures cache.Sized()
    {
      Cache(Track(vsConstants[..], vsSeen[..], vertexShader, vertexShaderSeen),
            Track(psConstants[..], psSeen[..], pixelShader, pixelShaderSeen))
    }

    constructor (flags: Flags, inner: Inner)
      ensures Valid() && this.flags == flags && this.inner == inner
      ensures fresh(vsConstants) && fresh(vsSeen) && fresh(psConstants) && fresh(psSeen)
      ensures Seen() == NewCache()
    {
      this.flags, this.inner := flags, inner;
      vsConstants := new Value[256](_ => []);
      vsSeen := new bool[256](_ => false);
      psConstants := new Value[224](_ => []);
      psSeen := new bool[224](_ => false);
      vertexShader, vertexShaderSeen, pixelShader, pixelShaderSeen := 0, false, 0, false;
      new;
      assert vsConstants[..] == seq(256, _ => []) && psConstants[..] == seq(224, _ => []);
      assert vsSeen[..] == seq(256, _ => false) && psSeen[..] == seq(224, _ => false);
    }

    method ResetTrackedState()
      requires Valid()
      modifies this, vsSeen, psSeen
      ensures Valid() && Seen() == old(Seen()).Forget()
    {
      forall i | 0 <= i < vsSeen.Length {
        vsSeen[i] := false;
      }
      forall i | 0 <= i < psSeen.Length {
        psSeen[i] := false;
      }
      vertexShader, pixelShader := 0, 0;
      vertexShaderSeen, pixelShaderSeen := false, false;
      assert vsSeen[..] == seq(256, _ => false) && psSeen[..] == seq(224, _ => false);
    }

    method SetShader(pipe: Pipe, shader: u32) returns (result: int)
      requires Valid()
      modifies this, vsSeen, psSeen, inner
      ensures Valid()
      ensures (Seen(), inner.state, result) ==
        FilterStep(flags, inner.limits, old(Seen()), old(inner.state), Call.SetShader(pipe, shader))
    {
      var shouldTrack := flags.stats || (flags.optimizer && flags.skipShaders);
      var redundant := shouldTrack && (if pipe.Vertex? then vertexShaderSeen && vertexShader == shader
                                       else pixelShaderSeen && pixelShader == shader);
      if shouldTrack {
        if pipe.Vertex? {
          vertexShader, vertexShaderSeen := shader, true;
        } else {
          pixelShader, pixelShaderSeen := shader, true;
        }
      }
      if flags.optimizer && flags.skipShaders && redundant {
        return D3D_OK;
      }
      result := inner.Do(Call.SetShader(pipe, shader));
      if result != D3D_OK {
        ResetTrackedState();
      }
    }

    method SetFloats(pipe: Pipe, start: u32, data: Option<seq<Value>>, count: u32) returns (result: int)
      requires Valid() && Call.SetFloats(pipe, start, data, count).Proper()
      modifies this, vsConstants, vsSeen, psConstants, psSeen, inner
      ensures Valid()
      ensures (Seen(), inner.state, result) ==
        FilterStep(flags, inner.limits, old(Seen()), old(inner.state), Call.SetFloats(pipe, start, data, count))
    {
      var shouldTrack := flags.stats || (flags.optimizer && flags.skipConstants);
      var redundant := false;
      if shouldTrack {
        if pipe.Vertex? {
          redundant := TrackFloatConstants(vsConstants, vsSeen, start, data, count);
        } else {
          redundant := TrackFloatConstants(psConstants, psSeen, start, data, count);
        }
      }
      if flags.optimizer && flags.skipConstants && redundant {
        return D3D_OK;
      }
      result := inner.Do(Call.SetFloats(pipe, start, data, count));
      if result != D3D_OK {
        ResetTrackedState();
      }
    }

    /** Present and Reset: the wrapper forgets, whatever the device answers. */
    method Flush(call: Call) returns (result: int)
      requires Valid() && (call.Present? || call.Reset?)
      modifies this, vsSeen, psSeen, inner
      ensures Valid()
      ensures (Seen(), inner.state, result) == FilterStep(flags, inner.limits, old(Seen()), old(inner.state), call)
    {
      if call.Present? {
        result := inner.Do(call);
        ResetTrackedState();
      } else {
        ResetTrackedState();
        result := inner.Do(call);
      }
    }

    method Handle(call: Call) returns (result: int)
      requires Valid() && call.Proper()
      modifies this, vsConstants, vsSeen, psConstants, psSeen, inner
      ensures Valid()
      ensures (Seen(), inner.state, result) == FilterStep(flags, inner.limits, old(Seen()), old(inner.state), call)
    {
      match call {
        case SetShader(pipe, shader) => result := SetShader(pipe, shader);
        case SetFloats(pipe, start, data, count) => result := SetFloats(pipe, start, data, count);
        case Other(_, _) => result := inner.Do(call);
        case _ => result := Flush(call);
      }
    }
  }

  /** A run through a new wrapper is the run straight on the device. */
  method RunFiltered(flags: Flags, inner: Inner, calls: seq<Call>) returns (results: seq<int>)
    requires AllProper(calls)
    requires flags.DropsConstants() ==> NoMoreThanTracked(inner.limits)
    modifies inner
    ensures (inner.state, results) == Raw(inner.limits, old(inner.state), calls)
  {
    var wrapper := new Wrapper(flags, inner);
    results := [];
    assert calls[..0] == [];
    for i := 0 to |calls|
      invariant wrapper.Valid()
      invariant (wrapper.Seen(), inner.state, results)
             == Filtered(flags, inner.limits, NewCache(), old(inner.state), calls[..i])
    {
      assert calls[..i + 1][..i] == calls[..i];
      var result := wrapper.Handle(calls[i]);
      results := results + [result];
    }
    assert calls[..|calls|] == calls;
    RunRefines(flags, inner.limits, NewCache(), old(inner.state), calls);
  }
}
