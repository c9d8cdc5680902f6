// The life of pass-lite over whole runs: when a pass is recorded, when a recording
// is trusted, and when it replaces the effect framework. One bridge serves many
// effects, whose transactions may nest; they share a single pass recorder.
module LiteLifecycle {
  import opened Words
  import opened OpStream
  import opened DeviceState
  import opened JournalFlags
  import opened PassRecording
  import opened PassReplay
  import opened PassFidelity
  import PassLite

  // ---- State ------------------------------------------------------------------------

  datatype PlanId = PlanId(effect: nat, technique: nat)

  datatype Binding = Binding(
    journal: Option<Flags>,
    hooked: bool,
    plan: Option<PlanId>,
    directDisabled: bool,
    liteActive: bool,
    liteRecording: bool)

  datatype FrameworkCall = DoBegin | DoBeginPass | DoCommit | DoEndPass | DoEnd

  /** What has been asked of the effect framework, and what replays and uploads of
      seen values have submitted; `tapped` while the recorder is its state manager
      instead of the journal. */
  datatype Framework = Framework(calls: seq<FrameworkCall>, tapped: bool, submitted: seq<Call>)

  /** The vector the recorder appends to: a plan's first or second recording. */
  datatype Target = Target(plan: PlanId, second: bool)

  datatype Write = Write(op: Op, pad: Padding)

  /** How everything outside the hooks behaves during one call. */
  datatype World = World(
    technique: nat,
    threadOk: bool,
    managerOk: bool,
    captureOk: bool,
    callOk: bool,
    finishOk: bool,
    journalFails: bool,
    restoreOk: bool,
    writes: seq<Write>,
    again: seq<Write>,
    shadow: seq<ShadowEntry>,
    textures: seq<TextureEntry>)

  /** What the hooks share: the bindings, plans and frameworks of every effect, the
      recorder's buffer, and the effect whose journal it forwards to; `taken` is
      what the recorder has been given since it was last opened. */
  datatype Globals = Globals(
    bindings: map<nat, Binding>,
    plans: map<PlanId, Plan>,
    frameworks: map<nat, Framework>,
    out: Option<Target>,
    inner: Option<nat>,
    taken: seq<Write>)

  /** The switches of direct submission and of pass-lite. */
  datatype Config = Config(genericDirect: bool, passLite: bool)

  /** What a transaction is to do with its pass. */
  datatype Action = Plain | RecordPass | ReplayPass

  // ---- Invariants --------------------------------------------------------------------

  /** A validated plan has two recordings that agree. */
  predicate PlanOk(plan: Plan) {
    && plan.state <= 3
    && (plan.state == 2 ==> AgreeFrom(plan.slots, plan.rec1, 0, plan.rec2, 0))
  }

  predicate Live(e: nat, b: Binding, plans: map<PlanId, Plan>) {
    && b.journal.Some? && (b.journal.value.active || b.journal.value.disabled)
    && b.plan.Some? && b.plan.value in plans && b.plan.value.effect == e
  }

  predicate BindingOk(e: nat, b: Binding, plans: map<PlanId, Plan>) {
    && (b.liteActive ==> Live(e, b, plans) && plans[b.plan.value].state == 2 && b.hooked)
    && (b.liteRecording ==> Live(e, b, plans) && plans[b.plan.value].state <= 1 && !b.liteActive)
  }

  predicate BindingsOk(s: Globals, used: set<nat>) {
    forall e :: e in s.bindings ==> e in used && BindingOk(e, s.bindings[e], s.plans)
  }

  predicate PlansOk(s: Globals, used: set<nat>) {
    forall p :: p in s.plans ==> PlanOk(s.plans[p]) && p.effect in used
  }

  /** An open recorder belongs to one binding that knows it is recording, and
      writes the first recording only while that is not settled. */
  predicate OutOk(s: Globals) {
    s.out.Some? ==>
      var t := s.out.value;
      && t.plan in s.plans && s.plans[t.plan].state == (if t.second then 1 else 0)
      && s.inner == Some(t.plan.effect) && t.plan.effect in s.bindings
      && s.bindings[t.plan.effect].liteRecording && s.bindings[t.plan.effect].plan == Some(t.plan)
  }

  /** The journal the recorder forwards to has not been released. */
  predicate InnerOk(s: Globals) {
    s.inner.Some? ==> s.inner.value in s.bindings && s.bindings[s.inner.value].journal.Some?
  }

  /** Only an effect that is being recorded has the recorder as its state manager. */
  predicate TapsOk(s: Globals) {
    && s.frameworks.Keys == s.bindings.Keys
    && forall e :: e in s.frameworks && s.frameworks[e].tapped ==> s.bindings[e].liteRecording
  }

  function OpsOf(writes: seq<Write>): (ops: seq<Op>)
    ensures |ops| == |writes|
  {
    seq(|writes|, i requires 0 <= i < |writes| => writes[i].op)
  }

  function PadsOf(writes: seq<Write>): (pads: seq<Padding>)
    ensures |pads| == |writes|
  {
    seq(|writes|, i requires 0 <= i < |writes| => writes[i].pad)
  }

  /** The recording of some writes. */
  function Recorded(writes: seq<Write>): seq<byte> {
    Record(OpsOf(writes), PadsOf(writes))
  }

  /** An open recording is what the recorder has been given since it was opened. */
  predicate TakenOk(s: Globals) {
    s.out.Some? && s.out.value.plan in s.plans ==> Buffer(s) == Recorded(s.taken)
  }

  predicate Ok(s: Globals, used: set<nat>) {
    BindingsOk(s, used) && PlansOk(s, used) && OutOk(s) && InnerOk(s) && TapsOk(s) && TakenOk(s)
  }

  function Buffer(s: Globals): seq<byte>
    requires s.out.Some? && s.out.value.plan in s.plans
  {
    var plan := s.plans[s.out.value.plan];
    if s.out.value.second then plan.rec2 else plan.rec1
  }

  /** How one plan may change over any part of a run: its state never goes back, its
      first recording is settled from state 1 on, and all of it from state 2 on. */
  predicate PlanKept(before: Plan, after: Plan) {
    && after.slots == before.slots && before.state <= after.state
    && (before.state >= 1 ==> after.rec1 == before.rec1)
    && (before.state >= 2 ==> after == before)
  }

  predicate PlansKept(before: map<PlanId, Plan>, after: map<PlanId, Plan>, used: set<nat>) {
    && (forall p :: p in before && p in after ==> PlanKept(before[p], after[p]))
    && (forall p :: p in after ==> p in before || p.effect !in used)
  }

  lemma KeptFurther(before: map<PlanId, Plan>, mid: map<PlanId, Plan>, after: map<PlanId, Plan>, used: set<nat>, midUsed: set<nat>)
    requires PlansKept(before, mid, used) && PlansKept(mid, after, midUsed)
    requires used <= midUsed && forall p :: p in before ==> p.effect in midUsed
    ensures PlansKept(before, after, used)
  {
    forall p | p in before && p in after
      ensures PlanKept(before[p], after[p])
    {
      assert p in mid;
    }
  }

  predicate OnlyAt<V(==)>(before: map<nat, V>, after: map<nat, V>, e: nat) {
    after.Keys == before.Keys && forall f :: f in before && f != e ==> after[f] == before[f]
  }

  predicate OthersSame<V(==)>(before: map<nat, V>, after: map<nat, V>, e: nat) {
    forall f :: f in before && f != e ==> f in after && after[f] == before[f]
  }

  /** A call on effect `e` leaves the other effects alone. */
  predicate Stepped(s: Globals, t: Globals, e: nat, used: set<nat>) {
    && Ok(t, used) && PlansKept(s.plans, t.plans, used) && t.plans.Keys == s.plans.Keys
    && OnlyAt(s.bindings, t.bindings, e) && OnlyAt(s.frameworks, t.frameworks, e)
  }

  lemma SteppedFurther(s: Globals, t: Globals, u: Globals, e: nat, used: set<nat>)
    requires PlansOk(s, used) && Stepped(s, t, e, used) && Stepped(t, u, e, used)
    ensures Stepped(s, u, e, used)
  {
    KeptFurther(s.plans, t.plans, u.plans, used, used);
  }

  /** What being validated is worth: either recording would have replayed the same. */
  lemma ValidatedReplay(plan: Plan, shadow: seq<ShadowEntry>, textures: seq<TextureEntry>, device: State)
    requires PlanOk(plan) && plan.state == 2
    requires forall op :: op in Visited(plan.rec1) && IsFloatConst(op.code) ==>
      OverlappedSeen(plan.slots, shadow, op.code == OP_VS_CONST_F, op.a, op.b)
    ensures Run(ReplayCalls(plan.slots, plan.stages, Visited(plan.rec1), shadow, textures), device)
         == Run(ReplayCalls(plan.slots, plan.stages, Visited(plan.rec2), shadow, textures), device)
  {
    MaskSoundness(plan.slots, plan.stages, shadow, textures, plan.rec1, plan.rec2, device);
  }

  // ---- The moves -------------------------------------------------------------------------

  predicate Known(s: Globals, e: nat) {
    e in s.bindings && e in s.frameworks
  }

  predicate Journaled(s: Globals, e: nat) {
    Known(s, e) && s.bindings[e].journal.Some?
  }

  function WithBinding(s: Globals, e: nat, b: Binding): Globals {
    s.(bindings := s.bindings[e := b])
  }

  /** A binding may change freely while it records and replays no more than before. */
  lemma BindingMoves(s: Globals, used: set<nat>, e: nat, b: Binding)
    requires Ok(s, used) && e in s.bindings && BindingOk(e, b, s.plans)
    requires b.liteRecording == s.bindings[e].liteRecording
    requires b.liteRecording ==> b.plan == s.bindings[e].plan
    requires b.journal.Some? <==> s.bindings[e].journal.Some?
    ensures Stepped(s, WithBinding(s, e, b), e, used)
  {
  }

  function WithJournal(s: Globals, e: nat, journal: Flags): (t: Globals)
    requires Known(s, e)
    ensures Journaled(t, e)
  {
    WithBinding(s, e, s.bindings[e].(journal := Some(journal)))
  }

  lemma JournalMoves(s: Globals, a: Globals, used: set<nat>, e: nat, journal: Flags)
    requires PlansOk(s, used) && Stepped(s, a, e, used) && Journaled(a, e)
    requires a.bindings[e].liteActive || a.bindings[e].liteRecording ==> journal.active || journal.disabled
    ensures Stepped(s, WithJournal(a, e, journal), e, used)
  {
    assert BindingOk(e, a.bindings[e], a.plans);
    BindingMoves(a, used, e, a.bindings[e].(journal := Some(journal)));
    SteppedFurther(s, a, WithJournal(a, e, journal), e, used);
  }

  function Called(s: Globals, e: nat, call: FrameworkCall): Globals
    requires e in s.frameworks
  {
    s.(frameworks := s.frameworks[e := s.frameworks[e].(calls := s.frameworks[e].calls + [call])])
  }

  lemma CallMoves(s: Globals, used: set<nat>, e: nat, call: FrameworkCall)
    requires Ok(s, used) && e in s.bindings
    ensures Stepped(s, Called(s, e, call), e, used)
  {
  }

  /** The state manager calls by which a plan's recorded pass is replayed. */
  function Replayed(plan: Plan, w: World): seq<Call> {
    ReplayCalls(plan.slots, plan.stages, Visited(plan.rec1), w.shadow, w.textures)
  }

  function Submitting(s: Globals, e: nat, calls: seq<Call>): (t: Globals)
    requires Known(s, e)
    ensures Known(t, e)
  {
    s.(frameworks := s.frameworks[e := s.frameworks[e].(submitted := s.frameworks[e].submitted + calls)])
  }

  lemma SubmitMoves(s: Globals, a: Globals, used: set<nat>, e: nat, calls: seq<Call>)
    requires PlansOk(s, used) && Stepped(s, a, e, used) && Known(a, e)
    ensures Stepped(s, Submitting(a, e, calls), e, used)
  {
    assert Stepped(a, Submitting(a, e, calls), e, used);
    SteppedFurther(s, a, Submitting(a, e, calls), e, used);
  }

  function Filled(plan: Plan, second: bool, data: seq<byte>): Plan {
    if second then plan.(rec2 := data) else plan.(rec1 := data)
  }

  function WithPlan(s: Globals, p: PlanId, plan: Plan): Globals {
    s.(plans := s.plans[p := plan])
  }

  predicate NobodyRecords(s: Globals, p: PlanId) {
    && (forall e :: e in s.bindings ==> !(s.bindings[e].liteRecording && s.bindings[e].plan == Some(p)))
    && (s.out.Some? ==> s.out.value.plan != p)
  }

  /** What holds but for the contents of the open recording. */
  predicate Fits(s: Globals, used: set<nat>) {
    BindingsOk(s, used) && PlansOk(s, used) && OutOk(s) && InnerOk(s) && TapsOk(s)
  }

  /** A plan that is still being recorded may be changed in place. */
  lemma PlanMoves(s: Globals, used: set<nat>, p: PlanId, after: Plan)
    requires Fits(s, used) && p in s.plans && s.plans[p].state <= 1
    requires PlanOk(after) && PlanKept(s.plans[p], after)
    requires after.state == s.plans[p].state || NobodyRecords(s, p)
    ensures Fits(WithPlan(s, p, after), used) && PlansKept(s.plans, WithPlan(s, p, after).plans, used)
  {
    var t := WithPlan(s, p, after);
    forall e | e in s.bindings
      ensures BindingOk(e, t.bindings[e], t.plans)
    {
      assert BindingOk(e, s.bindings[e], s.plans);
    }
  }

  // ---- What the recorder takes ---------------------------------------------------------------

  function AppendAll(data: seq<byte>, writes: seq<Write>): seq<byte> {
    if writes == [] then data
    else
      var last := writes[|writes| - 1];
      Append(AppendAll(data, writes[..|writes| - 1]), last.op, last.pad)
  }

  lemma RecordedLast(init: seq<Write>, last: Write)
    ensures Recorded(init + [last]) == Append(Recorded(init), last.op, last.pad)
  {
    var all := init + [last];
    assert OpsOf(all)[..|init|] == OpsOf(init) && PadsOf(all)[..|init|] == PadsOf(init);
  }

  lemma {:induction false} AppendAllRecords(before: seq<Write>, writes: seq<Write>)
    ensures AppendAll(Recorded(before), writes) == Recorded(before + writes)
  {
    if writes == [] {
      assert before + writes == before;
    } else {
      var init, last := writes[..|writes| - 1], writes[|writes| - 1];
      AppendAllRecords(before, init);
      assert before + writes == before + init + [last];
      RecordedLast(before + init, last);
    }
  }

  lemma NothingRecorded()
    ensures Recorded([]) == []
  {
  }

  /** The recorder takes an effect's writes while it is its state manager, and open. */
  predicate Taking(s: Globals, e: nat) {
    && Known(s, e) && s.frameworks[e].tapped && s.inner.Some?
    && s.out.Some? && s.out.value.plan in s.plans
  }

  function Written(s: Globals, e: nat, writes: seq<Write>): (t: Globals)
    requires Known(s, e)
    ensures Known(t, e) && t.bindings == s.bindings && t.frameworks == s.frameworks && t.out == s.out && t.inner == s.inner
  {
    if !Taking(s, e) then s
    else
      var out := s.out.value;
      WithPlan(s, out.plan, Filled(s.plans[out.plan], out.second, AppendAll(Buffer(s), writes))).(taken := s.taken + writes)
  }

  lemma WriteMoves(s: Globals, used: set<nat>, e: nat, writes: seq<Write>)
    requires Ok(s, used) && Known(s, e)
    ensures Stepped(s, Written(s, e, writes), e, used)
  {
    if Taking(s, e) {
      var out := s.out.value;
      var after := Filled(s.plans[out.plan], out.second, AppendAll(Buffer(s), writes));
      PlanMoves(s, used, out.plan, after);
      AppendAllRecords(s.taken, writes);
    }
  }

  /** A call of the framework, with the state writes it makes. */
  function Did(s: Globals, e: nat, call: FrameworkCall, writes: seq<Write>): (t: Globals)
    requires Known(s, e)
    ensures Known(t, e) && t.bindings == s.bindings && t.out == s.out && t.inner == s.inner
    ensures t.frameworks == s.frameworks[e := s.frameworks[e].(calls := s.frameworks[e].calls + [call])]
  {
    Written(Called(s, e, call), e, writes)
  }

  lemma DidMoves(s: Globals, a: Globals, used: set<nat>, e: nat, call: FrameworkCall, writes: seq<Write>)
    requires PlansOk(s, used) && Stepped(s, a, e, used) && Known(a, e)
    ensures Stepped(s, Did(a, e, call, writes), e, used)
  {
    CallMoves(a, used, e, call);
    var c := Called(a, e, call);
    SteppedFurther(s, a, c, e, used);
    WriteMoves(c, used, e, writes);
    SteppedFurther(s, c, Did(a, e, call, writes), e, used);
  }

  /** The recorder as the effect's state manager, appending to a plan's buffer. */
  function TappedOn(s: Globals, e: nat, t: Target): Globals
    requires Known(s, e)
  {
    s.(out := Some(t),
       inner := Some(e),
       taken := [],
       bindings := s.bindings[e := s.bindings[e].(liteRecording := true)],
       frameworks := s.frameworks[e := s.frameworks[e].(tapped := true)])
  }

  lemma TapMoves(s: Globals, used: set<nat>, e: nat, t: Target)
    requires Fits(s, used) && s.out.None? && Known(s, e) && t.plan.effect == e && t.plan in s.plans
    requires s.plans[t.plan].state == if t.second then 1 else 0
    requires Live(e, s.bindings[e], s.plans) && s.bindings[e].plan == Some(t.plan) && !s.bindings[e].liteActive
    ensures Fits(TappedOn(s, e, t), used)
  {
  }

  /** The recorder opened on a plan, its buffer empty. */
  function Opened(s: Globals, e: nat, p: PlanId): Globals
    requires Known(s, e) && p in s.plans
  {
    var second := s.plans[p].state != 0;
    TappedOn(WithPlan(s, p, Filled(s.plans[p], second, [])), e, Target(p, second))
  }

  lemma OpenMoves(s: Globals, used: set<nat>, e: nat, p: PlanId)
    requires Ok(s, used) && s.out.None? && Known(s, e) && p.effect == e && p in s.plans && s.plans[p].state <= 1
    requires Live(e, s.bindings[e], s.plans) && s.bindings[e].plan == Some(p) && !s.bindings[e].liteActive
    ensures Stepped(s, Opened(s, e, p), e, used)
  {
    var second := s.plans[p].state != 0;
    var t := WithPlan(s, p, Filled(s.plans[p], second, []));
    PlanMoves(s, used, p, Filled(s.plans[p], second, []));
    TapMoves(t, used, e, Target(p, second));
    NothingRecorded();
  }

  /** Opens the recorder for a plan, unless it is open already. */
  function RecordingBegun(s: Globals, e: nat, p: PlanId, managerOk: bool): (t: Globals)
    requires Known(s, e) && p in s.plans
    ensures Known(t, e) && t.bindings[e].journal == s.bindings[e].journal
  {
    if s.out.Some? then s
    else if managerOk then Opened(s, e, p)
    else WithPlan(s, p, Filled(s.plans[p], s.plans[p].state != 0, [])).(inner := None)
  }

  lemma RecordingHere(a: Globals, used: set<nat>, e: nat, p: PlanId, managerOk: bool)
    requires Ok(a, used) && Known(a, e) && p.effect == e && p in a.plans && a.plans[p].state <= 1
    requires Live(e, a.bindings[e], a.plans) && a.bindings[e].plan == Some(p) && !a.bindings[e].liteActive
    ensures Stepped(a, RecordingBegun(a, e, p, managerOk), e, used)
  {
    if a.out.None? {
      if managerOk {
        OpenMoves(a, used, e, p);
      } else {
        PlanMoves(a, used, p, Filled(a.plans[p], a.plans[p].state != 0, []));
      }
    }
  }

  lemma RecordingMoves(s: Globals, a: Globals, used: set<nat>, e: nat, p: PlanId, managerOk: bool)
    requires PlansOk(s, used) && Stepped(s, a, e, used) && Known(a, e)
    requires p.effect == e && p in a.plans && a.plans[p].state <= 1
    requires Live(e, a.bindings[e], a.plans) && a.bindings[e].plan == Some(p) && !a.bindings[e].liteActive
    ensures Stepped(s, RecordingBegun(a, e, p, managerOk), e, used)
  {
    RecordingHere(a, used, e, p, managerOk);
    SteppedFurther(s, a, RecordingBegun(a, e, p, managerOk), e, used);
  }

  /** A plan once one of its recordings has ended. */
  function Ended(plan: Plan, ok: bool, textures: seq<TextureEntry>): Plan {
    if !ok then plan.(state := 3)
    else if plan.state == 0 then plan.(state := 1)
    else if plan.state != 1 then plan
    else if !AgreeFrom(plan.slots, plan.rec1, 0, plan.rec2, 0) then plan.(state := 3)
    else plan.(state := 2, stages := Learn(plan.stages, textures, Visited(plan.rec1)))
  }

  lemma EndedKept(plan: Plan, ok: bool, textures: seq<TextureEntry>)
    requires PlanOk(plan) && plan.state <= 1
    ensures PlanOk(Ended(plan, ok, textures)) && PlanKept(plan, Ended(plan, ok, textures))
  {
  }

  /** The recorder closed, and the journal back as the effect's state manager. */
  function Closed(s: Globals, e: nat): Globals
    requires Known(s, e)
  {
    s.(out := None,
       bindings := s.bindings[e := s.bindings[e].(liteRecording := false)],
       frameworks := s.frameworks[e := s.frameworks[e].(tapped := false)])
  }

  predicate Planned(s: Globals, e: nat) {
    Known(s, e) && s.bindings[e].plan.Some? && s.bindings[e].plan.value in s.plans
  }

  /** Closes an effect's recording and moves its plan on. */
  function RecordingEnded(s: Globals, e: nat, ok: bool, textures: seq<TextureEntry>): (t: Globals)
    requires Known(s, e)
    ensures Known(t, e) && t.bindings == s.bindings[e := s.bindings[e].(liteRecording := false)]
  {
    if !Planned(s, e) then WithBinding(s, e, s.bindings[e].(liteRecording := false))
    else
      var p := s.bindings[e].plan.value;
      WithPlan(Closed(s, e), p, Ended(s.plans[p], ok, textures))
  }

  lemma CloseMoves(s: Globals, used: set<nat>, e: nat)
    requires Ok(s, used) && Known(s, e) && s.bindings[e].liteRecording
    ensures Planned(s, e) && Fits(Closed(s, e), used) && NobodyRecords(Closed(s, e), s.bindings[e].plan.value)
    ensures s.bindings[e].plan.value.effect == e && s.plans[s.bindings[e].plan.value].state <= 1
  {
    assert BindingOk(e, s.bindings[e], s.plans);
    var p, t := s.bindings[e].plan.value, Closed(s, e);
    forall f | f in t.bindings
      ensures BindingOk(f, t.bindings[f], t.plans) && !(t.bindings[f].liteRecording && t.bindings[f].plan == Some(p))
    {
      assert BindingOk(f, s.bindings[f], s.plans);
    }
  }

  lemma EndHere(a: Globals, used: set<nat>, e: nat, ok: bool, textures: seq<TextureEntry>)
    requires Ok(a, used) && Known(a, e) && a.bindings[e].liteRecording
    ensures Planned(a, e) && Stepped(a, RecordingEnded(a, e, ok, textures), e, used)
  {
    CloseMoves(a, used, e);
    var p := a.bindings[e].plan.value;
    EndedKept(a.plans[p], ok, textures);
    PlanMoves(Closed(a, e), used, p, Ended(a.plans[p], ok, textures));
  }

  lemma EndMoves(s: Globals, a: Globals, used: set<nat>, e: nat, ok: bool, textures: seq<TextureEntry>)
    requires PlansOk(s, used) && Stepped(s, a, e, used) && Known(a, e) && a.bindings[e].liteRecording
    ensures Planned(a, e) && Stepped(s, RecordingEnded(a, e, ok, textures), e, used)
  {
    EndHere(a, used, e, ok, textures);
    SteppedFurther(s, a, RecordingEnded(a, e, ok, textures), e, used);
  }

  /** What an ended recording holds: the writes taken since it was opened. */
  lemma RecordingIsTaken(s: Globals, used: set<nat>, e: nat, ok: bool, textures: seq<TextureEntry>)
    requires Ok(s, used) && Known(s, e) && s.bindings[e].liteRecording && s.out.Some?
    requires s.bindings[e].plan == Some(s.out.value.plan)
    ensures var plan := RecordingEnded(s, e, ok, textures).plans[s.out.value.plan];
      (if s.out.value.second then plan.rec2 else plan.rec1) == Recorded(s.taken)
  {
    CloseMoves(s, used, e);
  }

  // ---- What a failed transaction comes to -------------------------------------------------------

  /** What the given calls and flags come to is told of effect `e` alone. */
  predicate SameUse(a: Binding, b: Binding) {
    b == a.(journal := b.journal)
  }

  /** Ends what is open in the framework and drops the journal for good. */
  function Dropped(s: Globals, e: nat, w: World): (t: Globals)
    requires Journaled(s, e)
    ensures Known(t, e) && SameUse(s.bindings[e], t.bindings[e])
  {
    var journal := s.bindings[e].journal.value;
    var a := if journal.passActive then Did(s, e, DoEndPass, []) else s;
    WithJournal(Did(a, e, DoEnd, []), e, journal.Retired(w.restoreOk))
  }

  lemma DropMoves(s: Globals, a: Globals, used: set<nat>, e: nat, w: World)
    requires PlansOk(s, used) && Stepped(s, a, e, used) && Journaled(a, e)
    ensures Stepped(s, Dropped(a, e, w), e, used)
  {
    var journal := a.bindings[e].journal.value;
    DidMoves(s, a, used, e, DoEndPass, []);
    var b := if journal.passActive then Did(a, e, DoEndPass, []) else a;
    DidMoves(s, b, used, e, DoEnd, []);
    JournalMoves(s, Did(b, e, DoEnd, []), used, e, journal.Retired(w.restoreOk));
  }

  function Reopened(s: Globals, e: nat, w: World): (t: Globals)
    requires Known(s, e)
    ensures Known(t, e) && t.bindings == s.bindings
  {
    var a := Did(s, e, DoBegin, w.again);
    if w.callOk then Did(a, e, DoBeginPass, w.again) else a
  }

  /** Drops a failed transaction and begins the pass again without the journal. */
  function Restarted(s: Globals, e: nat, w: World): (t: Globals)
    requires Journaled(s, e)
    ensures Known(t, e) && SameUse(s.bindings[e], t.bindings[e])
  {
    var d := Dropped(s, e, w);
    if w.restoreOk then Reopened(d, e, w) else d
  }

  lemma RestartMoves(s: Globals, a: Globals, used: set<nat>, e: nat, w: World)
    requires PlansOk(s, used) && Stepped(s, a, e, used) && Journaled(a, e)
    ensures Stepped(s, Restarted(a, e, w), e, used)
  {
    var d := Dropped(a, e, w);
    DropMoves(s, a, used, e, w);
    DidMoves(s, d, used, e, DoBegin, w.again);
    DidMoves(s, Did(d, e, DoBegin, w.again), used, e, DoBeginPass, w.again);
  }

  // ---- Begin ----------------------------------------------------------------------------------------

  /** A journal whose transaction has just begun. */
  const BEGUN := Flags(true, false, false, false)

  /** A journal whose transaction was refused: one that was open is ended for good. */
  function Refused(journal: Flags, w: World): Flags {
    var outer := if journal.active then journal.Restored(w.restoreOk).(disabled := true) else journal;
    if outer.failed then outer.(disabled := true) else outer
  }

  function TransactionRefused(s: Globals, e: nat, w: World): (t: Globals)
    requires Journaled(s, e)
    ensures Known(t, e)
  {
    var journal := Refused(s.bindings[e].journal.value, w);
    var a := WithJournal(s, e, journal);
    if journal.failed then a else Did(a, e, DoBegin, w.writes)
  }

  lemma RefusalMoves(s: Globals, used: set<nat>, e: nat, w: World)
    requires Ok(s, used) && Journaled(s, e)
    ensures Stepped(s, TransactionRefused(s, e, w), e, used)
  {
    assert BindingOk(e, s.bindings[e], s.plans);
    var journal := Refused(s.bindings[e].journal.value, w);
    JournalMoves(s, s, used, e, journal);
    DidMoves(s, WithJournal(s, e, journal), used, e, DoBegin, w.writes);
  }

  /** The plan of the technique that the effect is about to draw with. */
  function PlanFor(cfg: Config, s: Globals, e: nat, technique: nat): Option<PlanId>
    requires Known(s, e)
  {
    if cfg.genericDirect && !s.bindings[e].directDisabled && PlanId(e, technique) in s.plans
    then Some(PlanId(e, technique)) else None
  }

  function PlanResolved(cfg: Config, s: Globals, e: nat, technique: nat): (t: Globals)
    requires Known(s, e)
    ensures Known(t, e) && t.bindings[e].journal == s.bindings[e].journal && t.plans == s.plans
  {
    if !cfg.genericDirect || s.bindings[e].directDisabled then s
    else
      var plan := PlanFor(cfg, s, e, technique);
      WithBinding(s, e, s.bindings[e].(plan := plan, directDisabled := plan == None))
  }

  lemma ResolveMoves(s: Globals, a: Globals, cfg: Config, used: set<nat>, e: nat, technique: nat)
    requires PlansOk(s, used) && Stepped(s, a, e, used) && Known(a, e)
    requires !a.bindings[e].liteActive && !a.bindings[e].liteRecording
    ensures Stepped(s, PlanResolved(cfg, a, e, technique), e, used)
  {
    var t := PlanResolved(cfg, a, e, technique);
    BindingMoves(a, used, e, t.bindings[e]);
    assert a.bindings[e := a.bindings[e]] == a.bindings;
    SteppedFurther(s, a, t, e, used);
  }

  function ActionOf(cfg: Config, plan: Plan): Action {
    if !cfg.passLite || !plan.eligible then Plain
    else if plan.state == 2 then ReplayPass
    else if plan.state >= 3 then Plain
    else RecordPass
  }

  /** A recording whose BeginPass never came must not leave the recorder behind. */
  function RecordingStopped(s: Globals, e: nat, w: World): (t: Globals)
    requires Known(s, e)
    ensures Known(t, e) && t.bindings == s.bindings[e := s.bindings[e].(liteRecording := false)]
  {
    if s.bindings[e].liteRecording then RecordingEnded(s, e, false, w.textures)
    else assert s.bindings[e := s.bindings[e]] == s.bindings; s
  }

  lemma StopMoves(s: Globals, a: Globals, used: set<nat>, e: nat, w: World)
    requires PlansOk(s, used) && Stepped(s, a, e, used) && Known(a, e)
    ensures Stepped(s, RecordingStopped(a, e, w), e, used)
  {
    if a.bindings[e].liteRecording {
      EndMoves(s, a, used, e, false, w.textures);
    }
  }

  /** Gives up a transaction whose Begin failed. */
  function BeginAbandoned(s: Globals, e: nat, journal: Flags, w: World): (t: Globals)
    requires Known(s, e)
    ensures Known(t, e)
  {
    var a := RecordingStopped(s, e, w);
    var b := if w.callOk && w.finishOk then Did(a, e, DoEnd, []) else a;
    WithJournal(b, e, journal.Retired(w.restoreOk))
  }

  lemma AbandonMoves(s: Globals, a: Globals, used: set<nat>, e: nat, journal: Flags, w: World)
    requires PlansOk(s, used) && Stepped(s, a, e, used) && Journaled(a, e)
    ensures Stepped(s, BeginAbandoned(a, e, journal, w), e, used)
  {
    StopMoves(s, a, used, e, w);
    var b := RecordingStopped(a, e, w);
    DidMoves(s, b, used, e, DoEnd, []);
    JournalMoves(s, if w.callOk && w.finishOk then Did(b, e, DoEnd, []) else b, used, e, journal.Retired(w.restoreOk));
  }

  /** The framework's Begin inside a new transaction, and what follows if it or the
      journal fails. */
  function FrameworkBegun(s: Globals, e: nat, w: World): (t: Globals)
    requires Journaled(s, e)
    ensures Known(t, e)
  {
    var journal := s.bindings[e].journal.value;
    if !w.captureOk then Did(WithJournal(s, e, journal.Retired(w.restoreOk)), e, DoBegin, w.writes)
    else
      var begun := Did(s, e, DoBegin, w.writes);
      if w.callOk && w.finishOk && !journal.After(w.journalFails).failed then begun
      else
        var given := BeginAbandoned(begun, e, journal.After(w.journalFails), w);
        if w.restoreOk then Did(given, e, DoBegin, w.again) else given
  }

  lemma FrameworkMoves(s: Globals, a: Globals, used: set<nat>, e: nat, w: World)
    requires PlansOk(s, used) && Stepped(s, a, e, used) && Journaled(a, e)
    ensures Stepped(s, FrameworkBegun(a, e, w), e, used)
  {
    var journal := a.bindings[e].journal.value;
    if !w.captureOk {
      JournalMoves(s, a, used, e, journal.Retired(w.restoreOk));
      DidMoves(s, WithJournal(a, e, journal.Retired(w.restoreOk)), used, e, DoBegin, w.writes);
    } else {
      DidMoves(s, a, used, e, DoBegin, w.writes);
      var begun := Did(a, e, DoBegin, w.writes);
      AbandonMoves(s, begun, used, e, journal.After(w.journalFails), w);
      DidMoves(s, BeginAbandoned(begun, e, journal.After(w.journalFails), w), used, e, DoBegin, w.again);
    }
  }

  /** A journal that is not in use, of an effect whose hooks are in place. */
  predicate Idle(s: Globals, e: nat) {
    Journaled(s, e) && s.bindings[e].hooked && !s.bindings[e].journal.value.active && !s.bindings[e].journal.value.disabled
  }

  /** A transaction begun, and the plan looked up. */
  function Prepared(cfg: Config, s: Globals, e: nat, technique: nat): (t: Globals)
    requires Journaled(s, e)
    ensures Journaled(t, e) && t.plans == s.plans
  {
    PlanResolved(cfg, WithJournal(s, e, s.bindings[e].journal.value.Began()), e, technique)
  }

  lemma PrepareMoves(cfg: Config, s: Globals, used: set<nat>, e: nat, technique: nat, t: Globals)
    requires Ok(s, used) && Idle(s, e) && t == Prepared(cfg, s, e, technique)
    ensures Stepped(s, t, e, used) && !t.bindings[e].liteRecording && !t.bindings[e].liteActive && t.bindings[e].hooked
    ensures t.bindings[e].journal == Some(BEGUN)
    ensures var plan := PlanFor(cfg, s, e, technique);
      plan.Some? ==> t.bindings[e].plan == plan && plan.value.effect == e && Live(e, t.bindings[e], t.plans)
  {
    assert BindingOk(e, s.bindings[e], s.plans);
    JournalMoves(s, s, used, e, BEGUN);
    ResolveMoves(s, WithJournal(s, e, BEGUN), cfg, used, e, technique);
  }

  /** A Begin whose transaction has begun. A plan that is to be replayed keeps it out
      of the framework. */
  function TransactionBegun(cfg: Config, s: Globals, e: nat, w: World): (t: Globals)
    requires Journaled(s, e)
    ensures Known(t, e)
  {
    var a, plan := Prepared(cfg, s, e, w.technique), PlanFor(cfg, s, e, w.technique);
    if plan.None? then FrameworkBegun(a, e, w)
    else match ActionOf(cfg, s.plans[plan.value])
      case ReplayPass => WithBinding(a, e, a.bindings[e].(liteActive := true))
      case RecordPass => FrameworkBegun(RecordingBegun(a, e, plan.value, w.managerOk), e, w)
      case Plain => FrameworkBegun(a, e, w)
  }

  lemma TransactionMoves(cfg: Config, s: Globals, used: set<nat>, e: nat, w: World)
    requires Ok(s, used) && Idle(s, e)
    ensures Stepped(s, TransactionBegun(cfg, s, e, w), e, used)
  {
    var a, plan := Prepared(cfg, s, e, w.technique), PlanFor(cfg, s, e, w.technique);
    PrepareMoves(cfg, s, used, e, w.technique, a);
    if plan.None? || ActionOf(cfg, s.plans[plan.value]) == Plain {
      FrameworkMoves(s, a, used, e, w);
    } else {
      PlannedMoves(cfg, s, a, used, e, plan.value, w);
    }
  }

  lemma PlannedMoves(cfg: Config, s: Globals, a: Globals, used: set<nat>, e: nat, p: PlanId, w: World)
    requires PlansOk(s, used) && Stepped(s, a, e, used) && Journaled(a, e) && !a.bindings[e].liteRecording && !a.bindings[e].liteActive
    requires p in a.plans && p.effect == e && Live(e, a.bindings[e], a.plans) && a.bindings[e].plan == Some(p) && a.bindings[e].hooked
    ensures ActionOf(cfg, a.plans[p]) == ReplayPass ==> Stepped(s, WithBinding(a, e, a.bindings[e].(liteActive := true)), e, used)
    ensures ActionOf(cfg, a.plans[p]) == RecordPass ==>
      Stepped(s, FrameworkBegun(RecordingBegun(a, e, p, w.managerOk), e, w), e, used)
  {
    if ActionOf(cfg, a.plans[p]) == ReplayPass {
      ReplayMoves(s, a, used, e);
    } else if ActionOf(cfg, a.plans[p]) == RecordPass {
      RecordingMoves(s, a, used, e, p, w.managerOk);
      FrameworkMoves(s, RecordingBegun(a, e, p, w.managerOk), used, e, w);
    }
  }

  lemma ReplayMoves(s: Globals, a: Globals, used: set<nat>, e: nat)
    requires PlansOk(s, used) && Stepped(s, a, e, used) && Planned(a, e) && !a.bindings[e].liteRecording
    requires Live(e, a.bindings[e], a.plans) && a.plans[a.bindings[e].plan.value].state == 2 && a.bindings[e].hooked
    ensures Stepped(s, WithBinding(a, e, a.bindings[e].(liteActive := true)), e, used)
  {
    BindingMoves(a, used, e, a.bindings[e].(liteActive := true));
    SteppedFurther(s, a, WithBinding(a, e, a.bindings[e].(liteActive := true)), e, used);
  }

  /** The Begin hook. */
  function AfterBegin(cfg: Config, s: Globals, e: nat, doNotSave: bool, w: World): (t: Globals)
    requires Known(s, e)
    ensures Known(t, e)
  {
    var b := s.bindings[e];
    if b.journal == None || !b.hooked || b.journal.value.disabled || doNotSave then Did(s, e, DoBegin, w.writes)
    else if b.journal.value.active || !w.threadOk then TransactionRefused(s, e, w)
    else TransactionBegun(cfg, s, e, w)
  }

  lemma BeginMoves(cfg: Config, s: Globals, used: set<nat>, e: nat, doNotSave: bool, w: World)
    requires Ok(s, used) && Known(s, e)
    ensures Stepped(s, AfterBegin(cfg, s, e, doNotSave, w), e, used)
  {
    var b := s.bindings[e];
    if b.journal == None || !b.hooked || b.journal.value.disabled || doNotSave {
      DidMoves(s, s, used, e, DoBegin, w.writes);
    } else if b.journal.value.active || !w.threadOk {
      RefusalMoves(s, used, e, w);
    } else {
      TransactionMoves(cfg, s, used, e, w);
    }
  }

  // ---- The pass ------------------------------------------------------------------------------------

  predicate Active(s: Globals, e: nat) {
    Journaled(s, e) && s.bindings[e].journal.value.active
  }

  /** A pass replayed: its calls go to the journal, any of which may fail there. */
  function PassReplayed(s: Globals, e: nat, w: World): (t: Globals)
    requires Known(s, e)
    ensures Known(t, e)
  {
    if !Journaled(s, e) then s
    else
      var a := WithJournal(s, e, s.bindings[e].journal.value.(passActive := true).After(w.journalFails));
      if Planned(s, e) then Submitting(a, e, Replayed(s.plans[s.bindings[e].plan.value], w)) else a
  }

  lemma ReplayedMoves(s: Globals, used: set<nat>, e: nat, w: World)
    requires Ok(s, used) && Known(s, e)
    ensures Stepped(s, PassReplayed(s, e, w), e, used)
  {
    if Journaled(s, e) {
      assert BindingOk(e, s.bindings[e], s.plans);
      var journal := s.bindings[e].journal.value.(passActive := true).After(w.journalFails);
      JournalMoves(s, s, used, e, journal);
      if Planned(s, e) {
        SubmitMoves(s, WithJournal(s, e, journal), used, e, Replayed(s.plans[s.bindings[e].plan.value], w));
      }
    }
  }

  /** The framework's BeginPass, as far as the journal is concerned. */
  function PassCalled(s: Globals, e: nat, w: World): (t: Globals)
    requires Known(s, e)
    ensures Known(t, e)
    ensures t.bindings[e] == s.bindings[e].(journal := t.bindings[e].journal) && (t.bindings[e].journal.Some? <==> s.bindings[e].journal.Some?)
  {
    var a := Did(s, e, DoBeginPass, w.writes);
    if !Active(s, e) then a
    else
      var journal := s.bindings[e].journal.value;
      WithJournal(a, e, journal.After(w.journalFails).(passActive := journal.passActive || w.callOk))
  }

  lemma PassCallMoves(s: Globals, used: set<nat>, e: nat, w: World)
    requires Ok(s, used) && Known(s, e)
    ensures Stepped(s, PassCalled(s, e, w), e, used)
  {
    DidMoves(s, s, used, e, DoBeginPass, w.writes);
    if Active(s, e) {
      var journal := s.bindings[e].journal.value;
      JournalMoves(s, Did(s, e, DoBeginPass, w.writes), used, e,
        journal.After(w.journalFails).(passActive := journal.passActive || w.callOk));
    }
  }

  /** And the end of a recording with it. */
  function PassRecorded(s: Globals, e: nat, w: World): (t: Globals)
    requires Known(s, e)
    ensures Known(t, e) && t.bindings[e].plan == s.bindings[e].plan && (t.bindings[e].journal.Some? <==> s.bindings[e].journal.Some?)
  {
    var a := PassCalled(s, e, w);
    if s.bindings[e].liteRecording then RecordingEnded(a, e, w.callOk && w.finishOk, w.textures) else a
  }

  lemma PassRecordMoves(s: Globals, used: set<nat>, e: nat, w: World)
    requires Ok(s, used) && Known(s, e)
    ensures Stepped(s, PassRecorded(s, e, w), e, used)
  {
    PassCallMoves(s, used, e, w);
    if s.bindings[e].liteRecording {
      EndMoves(s, PassCalled(s, e, w), used, e, w.callOk && w.finishOk, w.textures);
    }
  }

  /** And the upload of the values that have been seen. */
  function PassEntered(s: Globals, e: nat, w: World): (t: Globals)
    requires Known(s, e)
    ensures Known(t, e) && (t.bindings[e].journal.Some? <==> s.bindings[e].journal.Some?)
  {
    var a := PassRecorded(s, e, w);
    if w.callOk && w.finishOk && Active(s, e) && Planned(a, e) && !s.bindings[e].directDisabled
    then Submitting(a, e, SeenCalls(a.plans[a.bindings[e].plan.value].slots, w.shadow)) else a
  }

  lemma EnterMoves(s: Globals, used: set<nat>, e: nat, w: World)
    requires Ok(s, used) && Known(s, e)
    ensures Stepped(s, PassEntered(s, e, w), e, used)
  {
    PassRecordMoves(s, used, e, w);
    var a := PassRecorded(s, e, w);
    if Planned(a, e) {
      SubmitMoves(s, a, used, e, SeenCalls(a.plans[a.bindings[e].plan.value].slots, w.shadow));
    }
  }

  predicate Failing(s: Globals, e: nat) {
    Active(s, e) && s.bindings[e].journal.value.failed
  }

  /** A pass whose capture does not begin. */
  function PassUncaptured(s: Globals, e: nat, w: World): (t: Globals)
    requires Journaled(s, e)
    ensures Known(t, e)
  {
    Restarted(WithJournal(s, e, s.bindings[e].journal.value.(failed := true)), e, w)
  }

  lemma UncapturedMoves(s: Globals, used: set<nat>, e: nat, w: World)
    requires Ok(s, used) && Active(s, e)
    ensures Stepped(s, PassUncaptured(s, e, w), e, used)
  {
    var journal := s.bindings[e].journal.value.(failed := true);
    JournalMoves(s, s, used, e, journal);
    RestartMoves(s, WithJournal(s, e, journal), used, e, w);
  }

  /** Begins a pass again without the journal if its transaction has failed. */
  function Checked(s: Globals, e: nat, w: World): (t: Globals)
    requires Known(s, e)
    ensures Known(t, e)
  {
    if Failing(s, e) then Restarted(s, e, w) else s
  }

  lemma CheckMoves(s: Globals, a: Globals, used: set<nat>, e: nat, w: World)
    requires PlansOk(s, used) && Stepped(s, a, e, used) && Known(a, e)
    ensures Stepped(s, Checked(a, e, w), e, used)
  {
    if Failing(a, e) {
      RestartMoves(s, a, used, e, w);
    }
  }

  /** The BeginPass hook: a replay does not enter the framework. */
  function AfterBeginPass(s: Globals, e: nat, w: World): (t: Globals)
    requires Known(s, e)
    ensures Known(t, e)
  {
    if s.bindings[e].liteActive then PassReplayed(s, e, w)
    else if Active(s, e) && !w.captureOk then PassUncaptured(s, e, w)
    else Checked(PassEntered(s, e, w), e, w)
  }

  lemma BeginPassMoves(s: Globals, used: set<nat>, e: nat, w: World)
    requires Ok(s, used) && Known(s, e)
    ensures Stepped(s, AfterBeginPass(s, e, w), e, used)
  {
    if s.bindings[e].liteActive {
      ReplayedMoves(s, used, e, w);
    } else if Active(s, e) && !w.captureOk {
      UncapturedMoves(s, used, e, w);
    } else {
      EnterMoves(s, used, e, w);
      CheckMoves(s, PassEntered(s, e, w), used, e, w);
    }
  }

  /** A commit inside a transaction. */
  function Committed(s: Globals, e: nat, w: World): (t: Globals)
    requires Active(s, e)
    ensures Known(t, e)
  {
    var a := if w.captureOk then Did(s, e, DoCommit, w.writes) else s;
    WithJournal(a, e, s.bindings[e].journal.value.After(w.journalFails || !w.captureOk))
  }

  lemma CommittedMoves(s: Globals, used: set<nat>, e: nat, w: World)
    requires Ok(s, used) && Active(s, e)
    ensures Stepped(s, Committed(s, e, w), e, used)
  {
    DidMoves(s, s, used, e, DoCommit, w.writes);
    var a := if w.captureOk then Did(s, e, DoCommit, w.writes) else s;
    JournalMoves(s, a, used, e, s.bindings[e].journal.value.After(w.journalFails || !w.captureOk));
  }

  /** The CommitChanges hook. */
  function AfterCommit(s: Globals, e: nat, w: World): (t: Globals)
    requires Known(s, e)
    ensures Known(t, e)
  {
    if s.bindings[e].liteActive then s
    else if !Active(s, e) then Did(s, e, DoCommit, w.writes)
    else Checked(Committed(s, e, w), e, w)
  }

  lemma CommitMoves(s: Globals, used: set<nat>, e: nat, w: World)
    requires Ok(s, used) && Known(s, e)
    ensures Stepped(s, AfterCommit(s, e, w), e, used)
  {
    if !Active(s, e) {
      DidMoves(s, s, used, e, DoCommit, w.writes);
    } else {
      CommittedMoves(s, used, e, w);
      CheckMoves(s, Committed(s, e, w), used, e, w);
    }
  }

  /** The EndPass hook. */
  function AfterEndPass(s: Globals, e: nat, w: World): (t: Globals)
    requires Known(s, e)
    ensures Known(t, e)
  {
    var b := s.bindings[e];
    if b.liteActive then if b.journal.Some? then WithJournal(s, e, b.journal.value.(passActive := false)) else s
    else
      var a := Did(s, e, DoEndPass, w.writes);
      if w.callOk && Active(s, e) then WithJournal(a, e, b.journal.value.(passActive := false)) else a
  }

  lemma EndPassMoves(s: Globals, used: set<nat>, e: nat, w: World)
    requires Ok(s, used) && Known(s, e)
    ensures Stepped(s, AfterEndPass(s, e, w), e, used)
  {
    assert BindingOk(e, s.bindings[e], s.plans);
    DidMoves(s, s, used, e, DoEndPass, w.writes);
    if Journaled(s, e) {
      var journal := s.bindings[e].journal.value.(passActive := false);
      JournalMoves(s, s, used, e, journal);
      if Active(s, e) {
        JournalMoves(s, Did(s, e, DoEndPass, w.writes), used, e, journal);
      }
    }
  }

  // ---- End ------------------------------------------------------------------------------------------

  function FrameworkEnded(s: Globals, e: nat, w: World): (t: Globals)
    requires Known(s, e)
    ensures Known(t, e) && t.bindings == s.bindings[e := s.bindings[e].(liteActive := false)]
  {
    var b := s.bindings[e];
    if b.liteActive then WithBinding(s, e, b.(liteActive := false))
    else assert s.bindings[e := b] == s.bindings; if !Active(s, e) || w.captureOk then Did(s, e, DoEnd, w.writes) else s
  }

  lemma FrameworkEndMoves(s: Globals, a: Globals, used: set<nat>, e: nat, w: World)
    requires PlansOk(s, used) && Stepped(s, a, e, used) && Known(a, e)
    ensures Stepped(s, FrameworkEnded(a, e, w), e, used)
  {
    DidMoves(s, a, used, e, DoEnd, w.writes);
    assert BindingOk(e, a.bindings[e], a.plans);
    if a.bindings[e].liteActive {
      BindingMoves(a, used, e, a.bindings[e].(liteActive := false));
      SteppedFurther(s, a, WithBinding(a, e, a.bindings[e].(liteActive := false)), e, used);
    }
  }

  /** The journal of an effect after its End. */
  function FlagsEnded(b: Binding, w: World): Flags
    requires b.journal.Some?
  {
    var journal := b.journal.value.After(w.journalFails || (!b.liteActive && !w.captureOk)).Restored(w.restoreOk);
    if journal.failed then journal.(disabled := true) else journal
  }

  /** The End hook. */
  function AfterEnd(s: Globals, e: nat, w: World): (t: Globals)
    requires Known(s, e)
    ensures Known(t, e)
  {
    var a := FrameworkEnded(RecordingStopped(s, e, w), e, w);
    if Active(s, e) && s.bindings[e].hooked then WithJournal(a, e, FlagsEnded(s.bindings[e], w)) else a
  }

  lemma EndHookMoves(s: Globals, used: set<nat>, e: nat, w: World)
    requires Ok(s, used) && Known(s, e)
    ensures Stepped(s, AfterEnd(s, e, w), e, used)
  {
    StopMoves(s, s, used, e, w);
    FrameworkEndMoves(s, RecordingStopped(s, e, w), used, e, w);
    if Active(s, e) {
      JournalMoves(s, FrameworkEnded(RecordingStopped(s, e, w), e, w), used, e, FlagsEnded(s.bindings[e], w));
    }
  }

  function Attached(s: Globals, e: nat, journal: Option<Flags>, hooked: bool, techniques: map<nat, Plan>): Globals {
    s.(bindings := s.bindings[e := Binding(journal, hooked, None, false, false, false)],
       frameworks := s.frameworks[e := Framework([], false, [])],
       plans := s.plans + PlansOf(e, techniques))
  }

  function PlansOf(e: nat, techniques: map<nat, Plan>): (plans: map<PlanId, Plan>)
    ensures forall p :: p in plans <==> p.effect == e && p.technique in techniques
    ensures forall p :: p in plans ==> plans[p] == techniques[p.technique]
  {
    map t | t in techniques :: PlanId(e, t) := techniques[t]
  }

  predicate Unrecorded(techniques: map<nat, Plan>) {
    forall t :: t in techniques ==> techniques[t].state == 0
  }

  lemma AttachMoves(s: Globals, used: set<nat>, e: nat, journal: Option<Flags>, hooked: bool, techniques: map<nat, Plan>)
    requires Ok(s, used) && e !in used && Unrecorded(techniques)
    ensures Ok(Attached(s, e, journal, hooked, techniques), used + {e})
    ensures PlansKept(s.plans, Attached(s, e, journal, hooked, techniques).plans, used)
    ensures forall p :: p in s.plans ==> Attached(s, e, journal, hooked, techniques).plans[p] == s.plans[p]
  {
    AttachPlans(s, used, e, techniques);
    AttachBindings(s, used, e, journal, hooked, techniques);
    AttachRecorder(s, used, e, journal, hooked, techniques);
  }

  lemma AttachBindings(s: Globals, used: set<nat>, e: nat, journal: Option<Flags>, hooked: bool, techniques: map<nat, Plan>)
    requires BindingsOk(s, used) && PlansOk(s, used) && e !in used && Unrecorded(techniques)
    ensures BindingsOk(Attached(s, e, journal, hooked, techniques), used + {e})
  {
    var t := Attached(s, e, journal, hooked, techniques);
    AttachPlans(s, used, e, techniques);
    forall f | f in t.bindings
      ensures BindingOk(f, t.bindings[f], t.plans)
    {
      assert f != e ==> BindingOk(f, s.bindings[f], s.plans);
    }
  }

  lemma AttachRecorder(s: Globals, used: set<nat>, e: nat, journal: Option<Flags>, hooked: bool, techniques: map<nat, Plan>)
    requires Ok(s, used) && e !in used && Unrecorded(techniques)
    ensures var t := Attached(s, e, journal, hooked, techniques); OutOk(t) && InnerOk(t) && TapsOk(t)
  {
    AttachPlans(s, used, e, techniques);
  }

  lemma AttachPlans(s: Globals, used: set<nat>, e: nat, techniques: map<nat, Plan>)
    requires PlansOk(s, used) && e !in used && Unrecorded(techniques)
    ensures var plans := s.plans + PlansOf(e, techniques);
      && PlansKept(s.plans, plans, used)
      && (forall p :: p in s.plans ==> plans[p] == s.plans[p])
      && (forall p :: p in plans ==> PlanOk(plans[p]) && p.effect in used + {e})
  {
    forall p | p in s.plans
      ensures p !in PlansOf(e, techniques)
    {
      assert p.effect in used;
    }
  }

  function Released(s: Globals, e: nat): Globals
    requires e in s.bindings
  {
    var closes := s.bindings[e].journal == None || s.inner == Some(e);
    Globals(s.bindings - {e}, map p | p in s.plans && p.effect != e :: s.plans[p], s.frameworks - {e},
            if closes then None else s.out, if closes then None else s.inner, s.taken)
  }

  lemma ReleaseMoves(s: Globals, used: set<nat>, e: nat)
    requires Ok(s, used) && e in s.bindings
    ensures Ok(Released(s, e), used) && PlansKept(s.plans, Released(s, e).plans, used)
    ensures forall p :: p in Released(s, e).plans ==> p in s.plans && Released(s, e).plans[p] == s.plans[p]
  {
    var t := Released(s, e);
    forall f | f in t.bindings
      ensures BindingOk(f, t.bindings[f], t.plans)
    {
      assert BindingOk(f, s.bindings[f], s.plans);
    }
  }

  /** Ends a recording of a plan; the second one decides. */
  method Advance(before: Plan, ok: bool, textures: seq<TextureEntry>) returns (plan: Plan)
    requires PlanOk(before)
    ensures plan == Ended(before, ok, textures)
  {
    plan := before;
    if !ok {
      plan := plan.(state := 3);
    } else if plan.state == 0 {
      plan := plan.(state := 1);
    } else if plan.state == 1 {
      var agree := RecordingsAgree(plan.slots, plan.rec1, plan.rec2);
      plan := plan.(state := if agree then 2 else 3);
      if agree {
        var stages := PassLite.LearnStages(textures, plan.rec1, plan.stages);
        plan := plan.(stages := stages);
      }
    }
  }

  /** A replay of a plan whose recording was kept, and whose stage table was learnt
      from the textures that still stand, puts every device where the recorded
      pass would have exactly when the shadow is current and nothing is lost. */
  lemma ReplayedIsPassIff(plan: Plan, calls: seq<Call>, pads: seq<Padding>, w: World)
    requires Recordable(calls) && |pads| == |calls| && KeptOps(EncodeAll(calls)) == EncodeAll(calls)
    requires UniqueParams(w.textures) && plan.rec1 == Record(EncodeAll(calls), pads)
    requires plan.stages == Learn(Fresh(), w.textures, Visited(plan.rec1))
    ensures SameRuns(Replayed(plan, w), calls)
      <==> ShadowCurrent(plan.slots, calls, w.shadow) && NoVertexTextures(calls) && FloatsKept(plan.slots, calls, w.shadow)
  {
    ReplayIsPassIff(plan.slots, calls, pads, w.shadow, w.textures);
  }

  // ---- What can happen ------------------------------------------------------------------------

  datatype Event =
    | Attach(effect: nat, journal: Option<Flags>, hooked: bool, techniques: map<nat, Plan>)
    | Begin(effect: nat, doNotSave: bool, world: World)
    | BeginPass(effect: nat, world: World)
    | CommitChanges(effect: nat, world: World)
    | EndPass(effect: nat, world: World)
    | End(effect: nat, world: World)
    | Release(effect: nat)

  /** One event; events on effects that are not there do nothing. */
  function AfterEvent(cfg: Config, s: Globals, event: Event): Globals {
    if event.Attach? then Attached(s, event.effect, event.journal, event.hooked, event.techniques)
    else if !Known(s, event.effect) then s
    else match event
      case Begin(e, doNotSave, w) => AfterBegin(cfg, s, e, doNotSave, w)
      case BeginPass(e, w) => AfterBeginPass(s, e, w)
      case CommitChanges(e, w) => AfterCommit(s, e, w)
      case EndPass(e, w) => AfterEndPass(s, e, w)
      case End(e, w) => AfterEnd(s, e, w)
      case _ => Released(s, event.effect)
  }

  function AfterEvents(cfg: Config, s: Globals, events: seq<Event>): Globals
    decreases events
  {
    if events == [] then s else AfterEvents(cfg, AfterEvent(cfg, s, events[0]), events[1..])
  }

  /** A call that neither ends the effect's transaction nor destroys or makes it. */
  predicate Inside(event: Event) {
    event.BeginPass? || event.CommitChanges? || event.EndPass? || event.Begin?
  }

  /** Effects are objects: a new one is none there has been before. */
  predicate Creates(event: Event, used: set<nat>) {
    event.Attach? ==> event.effect !in used && Unrecorded(event.techniques)
  }

  function UsedAfter(event: Event, used: set<nat>): set<nat> {
    if event.Attach? then used + {event.effect} else used
  }

  predicate CreatesAll(events: seq<Event>, used: set<nat>) {
    events != [] ==> Creates(events[0], used) && CreatesAll(events[1..], UsedAfter(events[0], used))
  }

  function UsedAll(events: seq<Event>, used: set<nat>): set<nat> {
    if events == [] then used else UsedAll(events[1..], UsedAfter(events[0], used))
  }

  lemma HookMoves(cfg: Config, s: Globals, used: set<nat>, event: Event, t: Globals)
    requires Ok(s, used) && Known(s, event.effect) && !event.Attach? && !event.Release? && t == AfterEvent(cfg, s, event)
    ensures Stepped(s, t, event.effect, used)
  {
    match event
    case Begin(e, doNotSave, w) => BeginMoves(cfg, s, used, e, doNotSave, w);
    case BeginPass(e, w) => BeginPassMoves(s, used, e, w);
    case CommitChanges(e, w) => CommitMoves(s, used, e, w);
    case EndPass(e, w) => EndPassMoves(s, used, e, w);
    case End(e, w) => EndHookMoves(s, used, e, w);
  }

  /** What every event keeps. */
  predicate Kept(s: Globals, t: Globals, e: nat, used: set<nat>, after: set<nat>) {
    && Ok(t, after) && PlansKept(s.plans, t.plans, used)
    && OthersSame(s.bindings, t.bindings, e) && OthersSame(s.frameworks, t.frameworks, e)
  }

  lemma AttachKeeps(s: Globals, used: set<nat>, e: nat, journal: Option<Flags>, hooked: bool, techniques: map<nat, Plan>, t: Globals)
    requires Ok(s, used) && e !in used && Unrecorded(techniques) && t == Attached(s, e, journal, hooked, techniques)
    ensures Kept(s, t, e, used, used + {e})
  {
    AttachMoves(s, used, e, journal, hooked, techniques);
  }

  lemma ReleaseKeeps(s: Globals, used: set<nat>, e: nat, t: Globals)
    requires Ok(s, used) && Known(s, e) && t == Released(s, e)
    ensures Kept(s, t, e, used, used)
  {
    ReleaseMoves(s, used, e);
  }

  lemma HookKeeps(cfg: Config, s: Globals, used: set<nat>, event: Event, t: Globals)
    requires Ok(s, used) && Known(s, event.effect) && !event.Attach? && !event.Release? && t == AfterEvent(cfg, s, event)
    ensures Kept(s, t, event.effect, used, used) && Known(t, event.effect)
  {
    HookMoves(cfg, s, used, event, t);
  }

  lemma EventMoves(cfg: Config, s: Globals, used: set<nat>, event: Event, t: Globals)
    requires Ok(s, used) && Creates(event, used) && t == AfterEvent(cfg, s, event)
    ensures Kept(s, t, event.effect, used, UsedAfter(event, used))
    ensures Inside(event) && Known(s, event.effect) ==> Known(t, event.effect)
  {
    var e := event.effect;
    if event.Attach? {
      AttachKeeps(s, used, e, event.journal, event.hooked, event.techniques, t);
    } else if Known(s, e) {
      if event.Release? {
        ReleaseKeeps(s, used, e, t);
      } else {
        HookKeeps(cfg, s, used, event, t);
      }
    }
  }

  /** Any run, of any events on any effects: the state of a plan never goes back, a
      first recording is never touched once it is settled, and a plan that has been
      validated, by two recordings that agree, stays exactly as it was. */
  lemma {:induction false} RunKeeps(cfg: Config, s: Globals, used: set<nat>, events: seq<Event>, t: Globals)
    requires Ok(s, used) && CreatesAll(events, used) && t == AfterEvents(cfg, s, events)
    ensures Ok(t, UsedAll(events, used)) && PlansKept(s.plans, t.plans, used)
    decreases events
  {
    if events != [] {
      var mid := AfterEvent(cfg, s, events[0]);
      EventMoves(cfg, s, used, events[0], mid);
      RunKeeps(cfg, mid, UsedAfter(events[0], used), events[1..], t);
      KeptFurther(s.plans, mid.plans, t.plans, used, UsedAfter(events[0], used));
    }
  }

  lemma {:induction false} AfterConcat(cfg: Config, s: Globals, xs: seq<Event>, ys: seq<Event>)
    ensures AfterEvents(cfg, s, xs + ys) == AfterEvents(cfg, AfterEvents(cfg, s, xs), ys)
    decreases xs
  {
    if xs == [] {
      assert xs + ys == ys;
    } else {
      assert (xs + ys)[0] == xs[0] && (xs + ys)[1..] == xs[1..] + ys;
      AfterConcat(cfg, AfterEvent(cfg, s, xs[0]), xs[1..], ys);
    }
  }

  // ---- When a transaction replays, and when it records ------------------------------------------

  /** A transaction can begin, and there is a plan for it that pass-lite may take. */
  predicate Offered(cfg: Config, s: Globals, e: nat, doNotSave: bool, w: World) {
    && Idle(s, e) && !doNotSave && w.threadOk && cfg.genericDirect && cfg.passLite && !s.bindings[e].directDisabled
    && PlanId(e, w.technique) in s.plans && s.plans[PlanId(e, w.technique)].eligible
  }

  function CallsOf(s: Globals, e: nat): seq<FrameworkCall>
    requires Known(s, e)
  {
    s.frameworks[e].calls
  }

  /** The framework's Begin in a transaction works out, or is not captured at all. */
  predicate Succeeds(w: World) {
    w.captureOk ==> w.callOk && w.finishOk && !w.journalFails
  }

  /** The calls of a Begin that is not replayed. */
  function BeginMakes(w: World): seq<FrameworkCall> {
    if Succeeds(w) then [DoBegin]
    else [DoBegin] + (if w.callOk && w.finishOk then [DoEnd] else []) + if w.restoreOk then [DoBegin] else []
  }

  lemma AbandonOutcome(s: Globals, e: nat, journal: Flags, w: World, t: Globals)
    requires Known(s, e) && t == BeginAbandoned(s, e, journal, w)
    ensures t.bindings[e].liteActive == s.bindings[e].liteActive && !t.bindings[e].liteRecording
    ensures CallsOf(t, e) == CallsOf(s, e) + if w.callOk && w.finishOk then [DoEnd] else []
  {
    assert CallsOf(RecordingStopped(s, e, w), e) == CallsOf(s, e);
  }

  lemma FrameworkOutcome(s: Globals, e: nat, w: World, t: Globals)
    requires Journaled(s, e) && s.bindings[e].journal == Some(BEGUN) && t == FrameworkBegun(s, e, w)
    ensures t.bindings[e].liteActive == s.bindings[e].liteActive
    ensures t.bindings[e].liteRecording <==> s.bindings[e].liteRecording && Succeeds(w)
    ensures CallsOf(t, e) == CallsOf(s, e) + BeginMakes(w)
  {
    if !Succeeds(w) {
      var begun, journal := Did(s, e, DoBegin, w.writes), BEGUN.After(w.journalFails);
      var given := BeginAbandoned(begun, e, journal, w);
      AbandonOutcome(begun, e, journal, w, given);
      assert t == if w.restoreOk then Did(given, e, DoBegin, w.again) else given;
    }
  }

  lemma RecorderOutcome(s: Globals, e: nat, p: PlanId, managerOk: bool, t: Globals)
    requires Journaled(s, e) && p in s.plans && t == RecordingBegun(s, e, p, managerOk)
    ensures t.bindings[e].liteActive == s.bindings[e].liteActive && t.bindings[e].journal == s.bindings[e].journal
    ensures t.bindings[e].liteRecording <==> s.bindings[e].liteRecording || (s.out.None? && managerOk)
    ensures CallsOf(t, e) == CallsOf(s, e)
  {
  }

  /** The plan for the transaction may be taken by pass-lite. */
  predicate Eligible(cfg: Config, s: Globals, e: nat, technique: nat) {
    && Known(s, e) && cfg.genericDirect && cfg.passLite && !s.bindings[e].directDisabled
    && PlanId(e, technique) in s.plans && s.plans[PlanId(e, technique)].eligible
  }

  /** What a transaction that begins comes to. */
  predicate Comes(s: Globals, t: Globals, e: nat, p: PlanId, replays: bool, records: bool, w: World)
    requires Known(s, e) && Known(t, e)
  {
    && (t.bindings[e].liteActive <==> replays) && (t.bindings[e].liteRecording <==> records)
    && CallsOf(t, e) == CallsOf(s, e) + (if replays then [] else BeginMakes(w))
    && (replays ==>
          && t.frameworks == s.frameworks && t.plans == s.plans && t.out == s.out
          && t.bindings[e].journal == Some(BEGUN) && t.bindings[e].plan == Some(p))
  }

  lemma ActionIs(cfg: Config, s: Globals, used: set<nat>, e: nat, technique: nat)
    requires Ok(s, used) && Known(s, e)
    ensures var plan := PlanFor(cfg, s, e, technique);
      && (plan.Some? ==> plan == Some(PlanId(e, technique)) && plan.value in s.plans)
      && (plan.Some? && ActionOf(cfg, s.plans[plan.value]) == ReplayPass <==>
            Eligible(cfg, s, e, technique) && s.plans[PlanId(e, technique)].state == 2)
      && (plan.Some? && ActionOf(cfg, s.plans[plan.value]) == RecordPass <==>
            Eligible(cfg, s, e, technique) && s.plans[PlanId(e, technique)].state <= 1)
  {
    if PlanId(e, technique) in s.plans {
      assert PlanOk(s.plans[PlanId(e, technique)]);
    }
  }

  lemma TransactionOutcome(cfg: Config, s: Globals, used: set<nat>, e: nat, w: World, t: Globals)
    requires Ok(s, used) && Idle(s, e) && t == TransactionBegun(cfg, s, e, w)
    ensures var p := PlanId(e, w.technique);
      Comes(s, t, e, p, Eligible(cfg, s, e, w.technique) && s.plans[p].state == 2,
            Eligible(cfg, s, e, w.technique) && s.plans[p].state <= 1 && s.out.None? && w.managerOk && Succeeds(w), w)
  {
    var a, plan := Prepared(cfg, s, e, w.technique), PlanFor(cfg, s, e, w.technique);
    PrepareMoves(cfg, s, used, e, w.technique, a);
    PreparedSame(cfg, s, e, w.technique, a);
    ActionIs(cfg, s, used, e, w.technique);
    TransactionShape(cfg, s, e, w, a, plan, t);
    var replays := plan.Some? && ActionOf(cfg, s.plans[plan.value]) == ReplayPass;
    var records := plan.Some? && ActionOf(cfg, s.plans[plan.value]) == RecordPass && s.out.None? && w.managerOk && Succeeds(w);
    PreparedOutcome(cfg, a, e, plan, w, t);
    ComesFrom(s, a, t, e, PlanId(e, w.technique), replays, records, w);
  }

  lemma ComesFrom(s: Globals, a: Globals, t: Globals, e: nat, p: PlanId, replays: bool, records: bool, w: World)
    requires Known(s, e) && Known(a, e) && Known(t, e) && Comes(a, t, e, p, replays, records, w)
    requires a.frameworks == s.frameworks && a.plans == s.plans && a.out == s.out
    ensures Comes(s, t, e, p, replays, records, w)
  {
  }

  lemma TransactionShape(cfg: Config, s: Globals, e: nat, w: World, a: Globals, plan: Option<PlanId>, t: Globals)
    requires Journaled(s, e) && a == Prepared(cfg, s, e, w.technique) && plan == PlanFor(cfg, s, e, w.technique)
    requires t == TransactionBegun(cfg, s, e, w)
    ensures plan.Some? ==> plan.value in s.plans
    ensures t == if plan.None? then FrameworkBegun(a, e, w)
                 else match ActionOf(cfg, s.plans[plan.value])
                   case ReplayPass => WithBinding(a, e, a.bindings[e].(liteActive := true))
                   case RecordPass => FrameworkBegun(RecordingBegun(a, e, plan.value, w.managerOk), e, w)
                   case Plain => FrameworkBegun(a, e, w)
  {
  }

  lemma PreparedOutcome(cfg: Config, a: Globals, e: nat, plan: Option<PlanId>, w: World, t: Globals)
    requires Journaled(a, e) && a.bindings[e].journal == Some(BEGUN) && !a.bindings[e].liteActive && !a.bindings[e].liteRecording
    requires plan.Some? ==> plan.value == PlanId(e, w.technique) && plan.value in a.plans && a.bindings[e].plan == plan
    requires t == if plan.None? then FrameworkBegun(a, e, w)
                  else match ActionOf(cfg, a.plans[plan.value])
                    case ReplayPass => WithBinding(a, e, a.bindings[e].(liteActive := true))
                    case RecordPass => FrameworkBegun(RecordingBegun(a, e, plan.value, w.managerOk), e, w)
                    case Plain => FrameworkBegun(a, e, w)
    ensures Comes(a, t, e, PlanId(e, w.technique), plan.Some? && ActionOf(cfg, a.plans[plan.value]) == ReplayPass,
                  plan.Some? && ActionOf(cfg, a.plans[plan.value]) == RecordPass && a.out.None? && w.managerOk && Succeeds(w), w)
  {
    if plan.None? || ActionOf(cfg, a.plans[plan.value]) == Plain {
      FrameworkOutcome(a, e, w, t);
    } else if ActionOf(cfg, a.plans[plan.value]) == RecordPass {
      RecordOutcome(a, e, plan.value, w, t);
    } else {
      assert CallsOf(a, e) + [] == CallsOf(a, e);
    }
  }

  lemma RecordOutcome(a: Globals, e: nat, p: PlanId, w: World, t: Globals)
    requires Journaled(a, e) && a.bindings[e].journal == Some(BEGUN) && p in a.plans && !a.bindings[e].liteActive && !a.bindings[e].liteRecording
    requires t == FrameworkBegun(RecordingBegun(a, e, p, w.managerOk), e, w)
    ensures Comes(a, t, e, p, false, a.out.None? && w.managerOk && Succeeds(w), w)
  {
    var r := RecordingBegun(a, e, p, w.managerOk);
    RecorderOutcome(a, e, p, w.managerOk, r);
    FrameworkOutcome(r, e, w, t);
  }

  lemma PreparedSame(cfg: Config, s: Globals, e: nat, technique: nat, a: Globals)
    requires Journaled(s, e) && a == Prepared(cfg, s, e, technique)
    ensures a.frameworks == s.frameworks && a.plans == s.plans && a.out == s.out
  {
  }

  lemma RefusalOutcome(s: Globals, e: nat, w: World, t: Globals)
    requires Journaled(s, e) && t == TransactionRefused(s, e, w)
    ensures t.bindings[e].liteActive == s.bindings[e].liteActive && t.bindings[e].liteRecording == s.bindings[e].liteRecording
    ensures CallsOf(t, e) == CallsOf(s, e) + if Refused(s.bindings[e].journal.value, w).failed then [] else [DoBegin]
  {
  }

  /** A Begin on an effect that does not replay makes it replay exactly when a
      transaction begins for an eligible plan that has been validated; it then makes
      no framework call. */
  lemma BeginReplaysIff(cfg: Config, s: Globals, used: set<nat>, e: nat, doNotSave: bool, w: World, t: Globals)
    requires Ok(s, used) && Known(s, e) && !s.bindings[e].liteActive && t == AfterBegin(cfg, s, e, doNotSave, w)
    ensures t.bindings[e].liteActive <==>
      Offered(cfg, s, e, doNotSave, w) && s.plans[PlanId(e, w.technique)].state == 2
    ensures t.bindings[e].liteActive ==>
      && t.frameworks == s.frameworks && t.plans == s.plans && t.out == s.out
      && t.bindings[e].journal == Some(BEGUN) && t.bindings[e].plan == Some(PlanId(e, w.technique))
  {
    if Idle(s, e) && !doNotSave && w.threadOk {
      TransactionOutcome(cfg, s, used, e, w, t);
    } else if Journaled(s, e) {
      RefusalOutcome(s, e, w, TransactionRefused(s, e, w));
    }
  }

  /** And exactly when the recorder records for the effect: it did already, or a
      transaction begins for an eligible plan that is not validated yet, the
      recorder is free and taken up, and the framework's Begin does not fail. */
  lemma BeginRecordsIff(cfg: Config, s: Globals, used: set<nat>, e: nat, doNotSave: bool, w: World, t: Globals)
    requires Ok(s, used) && Known(s, e) && t == AfterBegin(cfg, s, e, doNotSave, w)
    ensures t.bindings[e].liteRecording <==>
      || s.bindings[e].liteRecording
      || (&& Offered(cfg, s, e, doNotSave, w) && s.plans[PlanId(e, w.technique)].state <= 1
          && s.out.None? && w.managerOk && Succeeds(w))
  {
    if Idle(s, e) && !doNotSave && w.threadOk {
      assert BindingOk(e, s.bindings[e], s.plans);
      TransactionOutcome(cfg, s, used, e, w, t);
    } else if Journaled(s, e) {
      RefusalOutcome(s, e, w, TransactionRefused(s, e, w));
    }
  }

  // ---- The framework calls each hook makes --------------------------------------------------------

  /** The calls by which a pass is begun again without its journal. */
  function RestartMakes(passActive: bool, w: World): seq<FrameworkCall> {
    (if passActive then [DoEndPass, DoEnd] else [DoEnd])
    + if !w.restoreOk then [] else if w.callOk then [DoBegin, DoBeginPass] else [DoBegin]
  }

  lemma RestartCalls(s: Globals, e: nat, w: World)
    requires Journaled(s, e)
    ensures CallsOf(Restarted(s, e, w), e) == CallsOf(s, e) + RestartMakes(s.bindings[e].journal.value.passActive, w)
  {
  }

  /** Begin enters the framework once where no transaction can begin, unless the
      refusal leaves the journal failed; not at all for a replay; and otherwise
      once, and again when a failed Begin is undone. */
  lemma BeginCalls(cfg: Config, s: Globals, used: set<nat>, e: nat, doNotSave: bool, w: World, t: Globals)
    requires Ok(s, used) && Known(s, e) && t == AfterBegin(cfg, s, e, doNotSave, w)
    ensures CallsOf(t, e) == CallsOf(s, e) +
      if Idle(s, e) && !doNotSave && w.threadOk then
        if Offered(cfg, s, e, doNotSave, w) && s.plans[PlanId(e, w.technique)].state == 2 then [] else BeginMakes(w)
      else if Journaled(s, e) && s.bindings[e].hooked && !doNotSave && !s.bindings[e].journal.value.disabled
              && Refused(s.bindings[e].journal.value, w).failed then []
      else [DoBegin]
  {
    if Idle(s, e) && !doNotSave && w.threadOk {
      TransactionOutcome(cfg, s, used, e, w, t);
    } else if Journaled(s, e) {
      RefusalOutcome(s, e, w, TransactionRefused(s, e, w));
    }
  }

  /** BeginPass enters the framework unless the effect replays; a pass that fails
      inside a transaction is begun again without it. */
  lemma BeginPassCalls(s: Globals, e: nat, w: World, t: Globals)
    requires Known(s, e) && t == AfterBeginPass(s, e, w)
    ensures CallsOf(t, e) == CallsOf(s, e) +
      if s.bindings[e].liteActive then []
      else if !Active(s, e) then [DoBeginPass]
      else
        var journal := s.bindings[e].journal.value;
        if !w.captureOk then RestartMakes(journal.passActive, w)
        else if w.journalFails || journal.failed then [DoBeginPass] + RestartMakes(journal.passActive || w.callOk, w)
        else [DoBeginPass]
  {
    if s.bindings[e].liteActive {
    } else if Active(s, e) && !w.captureOk {
      RestartCalls(WithJournal(s, e, s.bindings[e].journal.value.(failed := true)), e, w);
    } else {
      var a := PassEntered(s, e, w);
      EnteredCalls(s, e, w, a);
      if Failing(a, e) {
        RestartCalls(a, e, w);
      }
    }
  }

  lemma EnteredCalls(s: Globals, e: nat, w: World, a: Globals)
    requires Known(s, e) && a == PassEntered(s, e, w)
    ensures CallsOf(a, e) == CallsOf(s, e) + [DoBeginPass]
    ensures a.bindings[e].journal ==
      if !Active(s, e) then s.bindings[e].journal
      else
        var journal := s.bindings[e].journal.value;
        Some(journal.After(w.journalFails).(passActive := journal.passActive || w.callOk))
  {
    var c := PassCalled(s, e, w);
    CalledCalls(s, e, w, c);
    assert CallsOf(PassRecorded(s, e, w), e) == CallsOf(c, e);
  }

  lemma CalledCalls(s: Globals, e: nat, w: World, c: Globals)
    requires Known(s, e) && c == PassCalled(s, e, w)
    ensures CallsOf(c, e) == CallsOf(s, e) + [DoBeginPass]
    ensures c.bindings[e].journal ==
      if !Active(s, e) then s.bindings[e].journal
      else
        var journal := s.bindings[e].journal.value;
        Some(journal.After(w.journalFails).(passActive := journal.passActive || w.callOk))
  {
  }

  /** CommitChanges enters the framework unless the effect replays or its capture
      does not begin; a failure inside a transaction begins the pass again. */
  lemma CommitCalls(s: Globals, e: nat, w: World, t: Globals)
    requires Known(s, e) && t == AfterCommit(s, e, w)
    ensures CallsOf(t, e) == CallsOf(s, e) +
      if s.bindings[e].liteActive then []
      else if !Active(s, e) then [DoCommit]
      else
        var journal := s.bindings[e].journal.value;
        (if w.captureOk then [DoCommit] else [])
        + if w.journalFails || !w.captureOk || journal.failed then RestartMakes(journal.passActive, w) else []
  {
    if !s.bindings[e].liteActive && Active(s, e) {
      var b := Committed(s, e, w);
      CommittedCalls(s, e, w, b);
      CheckedCalls(b, e, w, t);
      JoinCalls(CallsOf(s, e), if w.captureOk then [DoCommit] else [],
                if Failing(b, e) then RestartMakes(b.bindings[e].journal.value.passActive, w) else []);
    }
  }

  lemma JoinCalls(a: seq<FrameworkCall>, b: seq<FrameworkCall>, c: seq<FrameworkCall>)
    ensures a + b + c == a + (b + c)
  {
  }

  lemma CheckedCalls(s: Globals, e: nat, w: World, t: Globals)
    requires Journaled(s, e) && t == Checked(s, e, w)
    ensures CallsOf(t, e) == CallsOf(s, e) + if Failing(s, e) then RestartMakes(s.bindings[e].journal.value.passActive, w) else []
  {
    RestartCalls(s, e, w);
  }

  lemma CommittedCalls(s: Globals, e: nat, w: World, t: Globals)
    requires Active(s, e) && t == Committed(s, e, w)
    ensures CallsOf(t, e) == CallsOf(s, e) + if w.captureOk then [DoCommit] else []
    ensures t.bindings[e].journal == Some(s.bindings[e].journal.value.After(w.journalFails || !w.captureOk))
  {
  }

  lemma EndPassCalls(s: Globals, e: nat, w: World, t: Globals)
    requires Known(s, e) && t == AfterEndPass(s, e, w)
    ensures CallsOf(t, e) == CallsOf(s, e) + if s.bindings[e].liteActive then [] else [DoEndPass]
  {
  }

  lemma EndCalls(s: Globals, e: nat, w: World, t: Globals)
    requires Known(s, e) && t == AfterEnd(s, e, w)
    ensures CallsOf(t, e) == CallsOf(s, e) +
      if s.bindings[e].liteActive || (Active(s, e) && !w.captureOk) then [] else [DoEnd]
  {
  }

  // ---- What becomes of journals and failed recordings ------------------------------------------------

  /** A journal given up for good. */
  predicate GivenUp(s: Globals, e: nat) {
    Journaled(s, e) && !s.bindings[e].journal.value.active && s.bindings[e].journal.value.disabled
  }

  lemma RestartGivesUp(s: Globals, e: nat, w: World)
    requires Journaled(s, e)
    ensures GivenUp(Restarted(s, e, w), e)
  {
  }

  lemma BegunFlags(s: Globals, e: nat, w: World, t: Globals)
    requires Journaled(s, e) && s.bindings[e].journal == Some(BEGUN) && t == FrameworkBegun(s, e, w)
    ensures if w.captureOk && Succeeds(w) then t.bindings[e].journal == Some(BEGUN) else GivenUp(t, e)
  {
  }

  /** After Begin a transaction is open exactly if it could begin and is replayed or
      the framework's Begin went well under capture; one that was begun and is not
      open is given up, and so is an outer one that a second Begin finds open. */
  lemma BeginFlags(cfg: Config, s: Globals, used: set<nat>, e: nat, doNotSave: bool, w: World, t: Globals)
    requires Ok(s, used) && Journaled(s, e) && t == AfterBegin(cfg, s, e, doNotSave, w)
    ensures Idle(s, e) && !doNotSave && w.threadOk ==>
      if t.bindings[e].liteActive || (w.captureOk && Succeeds(w)) then t.bindings[e].journal == Some(BEGUN) else GivenUp(t, e)
    ensures !s.bindings[e].hooked || doNotSave || s.bindings[e].journal.value.disabled ==> t.bindings[e].journal == s.bindings[e].journal
    ensures Active(s, e) && s.bindings[e].hooked && !doNotSave && !s.bindings[e].journal.value.disabled ==> GivenUp(t, e)
    ensures Idle(s, e) && !doNotSave && !w.threadOk ==>
      Journaled(t, e) && t.bindings[e].journal.value == s.bindings[e].journal.value.(disabled := s.bindings[e].journal.value.failed)
  {
    if Idle(s, e) && !doNotSave && w.threadOk {
      TransactionFlags(cfg, s, used, e, w, t);
    }
  }

  lemma TransactionFlags(cfg: Config, s: Globals, used: set<nat>, e: nat, w: World, t: Globals)
    requires Ok(s, used) && Idle(s, e) && t == TransactionBegun(cfg, s, e, w)
    ensures if t.bindings[e].liteActive || (w.captureOk && Succeeds(w)) then t.bindings[e].journal == Some(BEGUN) else GivenUp(t, e)
  {
    var a, plan := Prepared(cfg, s, e, w.technique), PlanFor(cfg, s, e, w.technique);
    PrepareMoves(cfg, s, used, e, w.technique, a);
    if plan.None? || ActionOf(cfg, s.plans[plan.value]) == Plain {
      FrameworkOutcome(a, e, w, t);
      BegunFlags(a, e, w, t);
    } else if ActionOf(cfg, s.plans[plan.value]) == RecordPass {
      var r := RecordingBegun(a, e, plan.value, w.managerOk);
      RecorderOutcome(a, e, plan.value, w.managerOk, r);
      FrameworkOutcome(r, e, w, t);
      BegunFlags(r, e, w, t);
    }
  }

  /** A pass that the framework has begun keeps its transaction unless something in
      it has failed; then the transaction is given up. */
  lemma BeginPassFlags(s: Globals, e: nat, w: World, t: Globals)
    requires Active(s, e) && !s.bindings[e].liteActive && t == AfterBeginPass(s, e, w)
    ensures var journal := s.bindings[e].journal.value;
      if w.captureOk && !w.journalFails && !journal.failed
      then t.bindings[e].journal == Some(journal.(passActive := journal.passActive || w.callOk)) else GivenUp(t, e)
  {
    if w.captureOk {
      var a := PassEntered(s, e, w);
      EnteredCalls(s, e, w, a);
      if Failing(a, e) {
        RestartGivesUp(a, e, w);
      }
    } else {
      RestartGivesUp(WithJournal(s, e, s.bindings[e].journal.value.(failed := true)), e, w);
    }
  }

  lemma CommitFlags(s: Globals, e: nat, w: World, t: Globals)
    requires Active(s, e) && !s.bindings[e].liteActive && t == AfterCommit(s, e, w)
    ensures if w.captureOk && !w.journalFails && !s.bindings[e].journal.value.failed
            then t.bindings[e].journal == s.bindings[e].journal else GivenUp(t, e)
  {
    var b := Committed(s, e, w);
    CommittedCalls(s, e, w, b);
    if Failing(b, e) {
      RestartGivesUp(b, e, w);
    }
  }

  /** End closes the transaction, and the journal is given up exactly when something
      has failed: before, in the framework's End or in the restore. */
  lemma EndFlags(s: Globals, e: nat, w: World, t: Globals)
    requires Active(s, e) && s.bindings[e].hooked && t == AfterEnd(s, e, w)
    ensures Journaled(t, e) && !t.bindings[e].journal.value.active
    ensures t.bindings[e].journal.value.disabled <==>
      || s.bindings[e].journal.value.disabled || s.bindings[e].journal.value.failed
      || w.journalFails || !w.restoreOk || (!s.bindings[e].liteActive && !w.captureOk)
  {
  }

  /** A recording that does not come to its end bars its plan: when the framework's
      BeginPass fails, when there has been none by the time of End, or when Begin
      itself had to be undone. A barred plan stays so and is never replayed. */
  lemma FailedRecordingBars(s: Globals, used: set<nat>, e: nat, w: World)
    requires Ok(s, used) && Known(s, e) && s.bindings[e].liteRecording
    ensures s.bindings[e].plan.Some? && s.bindings[e].plan.value in s.plans
    ensures (Active(s, e) ==> w.captureOk) && !(w.callOk && w.finishOk) ==>
      BarredIn(AfterBeginPass(s, e, w), s.bindings[e].plan.value)
    ensures BarredIn(AfterEnd(s, e, w), s.bindings[e].plan.value)
  {
    CloseMoves(s, used, e);
    assert BindingOk(e, s.bindings[e], s.plans);
    var p := s.bindings[e].plan.value;
    if (Active(s, e) ==> w.captureOk) && !(w.callOk && w.finishOk) {
      FailedPassBars(s, used, e, p, w, AfterBeginPass(s, e, w));
    }
    EarlyEndBars(s, used, e, p, w, AfterEnd(s, e, w));
  }

  lemma BarredStays(s: Globals, t: Globals, e: nat, used: set<nat>, p: PlanId)
    requires Stepped(s, t, e, used) && BarredIn(s, p)
    ensures BarredIn(t, p)
  {
  }

  lemma EndedBars(s: Globals, e: nat, p: PlanId, textures: seq<TextureEntry>, t: Globals)
    requires Planned(s, e) && s.bindings[e].plan == Some(p) && t == RecordingEnded(s, e, false, textures)
    ensures BarredIn(t, p)
  {
  }

  lemma FailedPassBars(s: Globals, used: set<nat>, e: nat, p: PlanId, w: World, t: Globals)
    requires Ok(s, used) && Known(s, e) && s.bindings[e].liteRecording && !s.bindings[e].liteActive && s.bindings[e].plan == Some(p)
    requires (Active(s, e) ==> w.captureOk) && !(w.callOk && w.finishOk) && t == AfterBeginPass(s, e, w)
    ensures BarredIn(t, p)
  {
    var a := PassEntered(s, e, w);
    EnterMoves(s, used, e, w);
    EnteredBars(s, used, e, p, w, a);
    CheckedBars(a, used, e, p, w, t);
  }

  lemma EnteredBars(s: Globals, used: set<nat>, e: nat, p: PlanId, w: World, a: Globals)
    requires Ok(s, used) && Known(s, e) && s.bindings[e].liteRecording && s.bindings[e].plan == Some(p)
    requires !(w.callOk && w.finishOk) && a == PassEntered(s, e, w)
    ensures BarredIn(a, p)
  {
    var c := PassCalled(s, e, w);
    PassCallMoves(s, used, e, w);
    CloseMoves(s, used, e);
    EndedBars(c, e, p, w.textures, RecordingEnded(c, e, false, w.textures));
  }

  lemma CheckedBars(a: Globals, used: set<nat>, e: nat, p: PlanId, w: World, t: Globals)
    requires Ok(a, used) && Known(a, e) && BarredIn(a, p) && t == Checked(a, e, w)
    ensures BarredIn(t, p)
  {
    CheckMoves(a, a, used, e, w);
    BarredStays(a, t, e, used, p);
  }

  lemma EarlyEndBars(s: Globals, used: set<nat>, e: nat, p: PlanId, w: World, t: Globals)
    requires Ok(s, used) && Known(s, e) && s.bindings[e].liteRecording && s.bindings[e].plan == Some(p) && t == AfterEnd(s, e, w)
    ensures BarredIn(t, p)
  {
    var r := RecordingStopped(s, e, w);
    StopMoves(s, s, used, e, w);
    CloseMoves(s, used, e);
    EndedBars(s, e, p, w.textures, r);
    FrameworkEndMoves(r, r, used, e, w);
    BarredStays(r, FrameworkEnded(r, e, w), e, used, p);
    assert t.plans == FrameworkEnded(r, e, w).plans;
  }

  predicate BarredIn(s: Globals, p: PlanId) {
    p in s.plans && s.plans[p].state == 3
  }

  lemma UndoneBeginBars(cfg: Config, s: Globals, used: set<nat>, e: nat, w: World, t: Globals)
    requires Ok(s, used) && Offered(cfg, s, e, false, w) && s.plans[PlanId(e, w.technique)].state <= 1 && s.out.None?
    requires w.managerOk && !Succeeds(w) && t == AfterBegin(cfg, s, e, false, w)
    ensures BarredIn(t, PlanId(e, w.technique))
  {
    var p, a := PlanId(e, w.technique), Prepared(cfg, s, e, w.technique);
    PrepareMoves(cfg, s, used, e, w.technique, a);
    ActionIs(cfg, s, used, e, w.technique);
    PreparedSame(cfg, s, e, w.technique, a);
    PreparedUndone(a, used, e, p, w, t);
  }

  lemma PreparedUndone(a: Globals, used: set<nat>, e: nat, p: PlanId, w: World, t: Globals)
    requires Ok(a, used) && Journaled(a, e) && a.bindings[e].journal == Some(BEGUN) && a.out.None? && p in a.plans && p.effect == e
    requires !a.bindings[e].liteActive && a.bindings[e].plan == Some(p) && a.plans[p].state <= 1 && !Succeeds(w)
    requires t == FrameworkBegun(RecordingBegun(a, e, p, true), e, w)
    ensures BarredIn(t, p)
  {
    var r := RecordingBegun(a, e, p, true);
    RecordingHere(a, used, e, p, true);
    CalmOpen(a, e, p, r);
    UndoneBars(r, used, e, p, w, t);
  }

  lemma UndoneBars(r: Globals, used: set<nat>, e: nat, p: PlanId, w: World, t: Globals)
    requires Ok(r, used) && Journaled(r, e) && r.bindings[e].journal == Some(BEGUN) && r.bindings[e].liteRecording
    requires r.bindings[e].plan == Some(p) && p in r.plans && !Succeeds(w) && t == FrameworkBegun(r, e, w)
    ensures BarredIn(t, p)
  {
    var begun := Did(r, e, DoBegin, w.writes);
    DidMoves(r, r, used, e, DoBegin, w.writes);
    var given := BeginAbandoned(begun, e, BEGUN.After(w.journalFails), w);
    AbandonMoves(begun, begun, used, e, BEGUN.After(w.journalFails), w);
    AbandonBars(begun, used, e, p, BEGUN.After(w.journalFails), w, given);
    DidBars(given, used, e, p, w.again);
  }

  lemma DidBars(s: Globals, used: set<nat>, e: nat, p: PlanId, writes: seq<Write>)
    requires Ok(s, used) && Known(s, e) && BarredIn(s, p)
    ensures BarredIn(Did(s, e, DoBegin, writes), p)
  {
    DidMoves(s, s, used, e, DoBegin, writes);
    BarredStays(s, Did(s, e, DoBegin, writes), e, used, p);
  }

  lemma AbandonBars(s: Globals, used: set<nat>, e: nat, p: PlanId, journal: Flags, w: World, t: Globals)
    requires Ok(s, used) && Journaled(s, e) && s.bindings[e].liteRecording && s.bindings[e].plan == Some(p)
    requires t == BeginAbandoned(s, e, journal, w)
    ensures BarredIn(t, p)
  {
    var stopped := RecordingStopped(s, e, w);
    StopMoves(s, s, used, e, w);
    CloseMoves(s, used, e);
    EndedBars(s, e, p, w.textures, stopped);
    DidMoves(stopped, stopped, used, e, DoEnd, []);
    if w.callOk && w.finishOk {
      BarredStays(stopped, Did(stopped, e, DoEnd, []), e, used, p);
    }
  }

  // ---- From the first recording to the first replay -----------------------------------------------

  /** Nothing fails around a call. */
  predicate Calm(w: World) {
    w.threadOk && w.managerOk && w.captureOk && w.callOk && w.finishOk && !w.journalFails && w.restoreOk
  }

  /** A plan filled with a new recording by undisturbed writes. */
  function Refilled(plan: Plan, writes: seq<Write>): Plan {
    Filled(plan, plan.state != 0, Recorded(writes))
  }

  /** Effect `e` is being recorded for plan `p`, and `writes` is what has been taken. */
  predicate Recording(s: Globals, t: Globals, e: nat, p: PlanId, writes: seq<Write>) {
    && Known(s, e) && Known(t, e) && p in s.plans
    && t.bindings[e] == s.bindings[e].(journal := Some(BEGUN), plan := Some(p), liteRecording := true)
    && t.out == Some(Target(p, s.plans[p].state != 0)) && t.inner.Some? && t.taken == writes
    && t.plans == s.plans[p := Refilled(s.plans[p], writes)]
    && t.frameworks[e].tapped && CallsOf(t, e) == CallsOf(s, e) + [DoBegin]
  }

  lemma CalmBeginIs(cfg: Config, s: Globals, used: set<nat>, e: nat, w: World, t: Globals)
    requires Ok(s, used) && Offered(cfg, s, e, false, w) && Calm(w)
    requires s.plans[PlanId(e, w.technique)].state <= 1 && t == AfterBegin(cfg, s, e, false, w)
    ensures var a := Prepared(cfg, s, e, w.technique);
      && a.bindings[e] == s.bindings[e].(journal := Some(BEGUN), plan := Some(PlanId(e, w.technique)))
      && a.frameworks == s.frameworks && a.plans == s.plans && a.out == s.out
      && t == Did(RecordingBegun(a, e, PlanId(e, w.technique), true), e, DoBegin, w.writes)
  {
    var a := Prepared(cfg, s, e, w.technique);
    PrepareMoves(cfg, s, used, e, w.technique, a);
    PreparedSame(cfg, s, e, w.technique, a);
    ActionIs(cfg, s, used, e, w.technique);
  }

  lemma CalmBegin(cfg: Config, s: Globals, used: set<nat>, e: nat, w: World, t: Globals)
    requires Ok(s, used) && Offered(cfg, s, e, false, w) && s.out.None? && Calm(w)
    requires s.plans[PlanId(e, w.technique)].state <= 1 && t == AfterBegin(cfg, s, e, false, w)
    ensures Recording(s, t, e, PlanId(e, w.technique), w.writes)
  {
    CalmBeginIs(cfg, s, used, e, w, t);
    CalmStart(s, Prepared(cfg, s, e, w.technique), e, PlanId(e, w.technique), w.writes, t);
  }

  lemma CalmStart(s: Globals, a: Globals, e: nat, p: PlanId, writes: seq<Write>, t: Globals)
    requires Journaled(s, e) && Journaled(a, e) && p in s.plans && a.frameworks == s.frameworks && a.plans == s.plans && a.out.None?
    requires a.bindings[e] == s.bindings[e].(journal := Some(BEGUN), plan := Some(p))
    requires t == Did(RecordingBegun(a, e, p, true), e, DoBegin, writes)
    ensures Recording(s, t, e, p, writes)
  {
    var r := RecordingBegun(a, e, p, true);
    CalmOpen(a, e, p, r);
    CalmDid(r, e, p, DoBegin, writes, t);
    NothingRecorded();
    AppendAllRecords([], writes);
    assert [] + writes == writes;
  }

  lemma CalmOpen(a: Globals, e: nat, p: PlanId, r: Globals)
    requires Journaled(a, e) && a.out.None? && p in a.plans && r == RecordingBegun(a, e, p, true)
    ensures r.bindings == a.bindings[e := a.bindings[e].(liteRecording := true)] && r.out == Some(Target(p, a.plans[p].state != 0))
    ensures r.inner == Some(e) && r.taken == [] && r.frameworks[e].tapped && CallsOf(r, e) == CallsOf(a, e)
    ensures r.plans == a.plans[p := Filled(a.plans[p], a.plans[p].state != 0, [])]
  {
  }

  /** A call of the framework while the recorder takes its writes. */
  lemma CalmDid(s: Globals, e: nat, p: PlanId, call: FrameworkCall, writes: seq<Write>, t: Globals)
    requires Known(s, e) && s.frameworks[e].tapped && s.inner.Some? && s.out.Some? && s.out.value.plan == p && p in s.plans
    requires t == Did(s, e, call, writes)
    ensures t.taken == s.taken + writes && t.frameworks[e].tapped && CallsOf(t, e) == CallsOf(s, e) + [call]
    ensures t.plans == s.plans[p := Filled(s.plans[p], s.out.value.second, AppendAll(Buffer(s), writes))]
  {
    assert Taking(Called(s, e, call), e);
  }

  /** BeginPass ends the recording: the plan moves on with what was taken. */
  lemma CalmPass(s: Globals, u: Globals, e: nat, p: PlanId, first: seq<Write>, w: World, t: Globals)
    requires Recording(s, u, e, p, first) && Calm(w) && !u.bindings[e].liteActive && t == AfterBeginPass(u, e, w)
    ensures Known(t, e) && t.out.None? && !t.frameworks[e].tapped
    ensures t.bindings[e] == s.bindings[e].(journal := Some(Flags(true, false, false, true)), plan := Some(p), liteRecording := false)
    ensures t.plans == s.plans[p := Ended(Refilled(s.plans[p], first + w.writes), true, w.textures)]
    ensures CallsOf(t, e) == CallsOf(s, e) + [DoBegin] + [DoBeginPass]
  {
    var a := Did(u, e, DoBeginPass, w.writes);
    CalmDid(u, e, p, DoBeginPass, w.writes, a);
    AppendAllRecords(first, w.writes);
    assert a.plans[p] == Refilled(s.plans[p], first + w.writes);
    CalmEntered(u, e, p, a, w, PassEntered(u, e, w));
  }

  lemma CalmEntered(u: Globals, e: nat, p: PlanId, a: Globals, w: World, t: Globals)
    requires Journaled(u, e) && u.bindings[e].journal == Some(BEGUN) && u.bindings[e].liteRecording && u.bindings[e].plan == Some(p)
    requires Calm(w) && p in u.plans && a == Did(u, e, DoBeginPass, w.writes) && p in a.plans && t == PassEntered(u, e, w)
    ensures t.out.None? && !t.frameworks[e].tapped && CallsOf(t, e) == CallsOf(a, e)
    ensures t.bindings == u.bindings[e := u.bindings[e].(journal := Some(Flags(true, false, false, true)), liteRecording := false)]
    ensures t.plans == a.plans[p := Ended(a.plans[p], true, w.textures)]
  {
  }

  /** An idle journal of an effect with no transaction open. */
  const IDLE := Flags(false, false, false, false)

  lemma CalmEnd(s: Globals, e: nat, w: World, x: Globals, w': World, t: Globals)
    requires Journaled(s, e) && s.bindings[e].journal == Some(Flags(true, false, false, true)) && s.bindings[e].hooked
    requires !s.bindings[e].liteActive && !s.bindings[e].liteRecording && !s.frameworks[e].tapped && Calm(w) && Calm(w')
    requires x == AfterEndPass(s, e, w) && t == AfterEnd(x, e, w')
    ensures Known(t, e) && t.bindings[e] == s.bindings[e].(journal := Some(IDLE)) && t.plans == s.plans && t.out == s.out
    ensures !t.frameworks[e].tapped && CallsOf(t, e) == CallsOf(s, e) + [DoEndPass] + [DoEnd]
  {
  }

  /** One transaction with one pass. */
  function OnePass(e: nat, begin: World, pass: World, endPass: World, end: World): seq<Event> {
    [Begin(e, false, begin), BeginPass(e, pass), EndPass(e, endPass), End(e, end)]
  }

  lemma OnePassIs(cfg: Config, s: Globals, e: nat, a: World, b: World, c: World, d: World)
    requires Known(s, e)
    ensures AfterEvents(cfg, s, OnePass(e, a, b, c, d))
         == AfterEnd(AfterEndPass(AfterBeginPass(AfterBegin(cfg, s, e, false, a), e, b), e, c), e, d)
  {
    var u := AfterBegin(cfg, s, e, false, a);
    var v := AfterBeginPass(u, e, b);
    AfterFour(cfg, s, Event.Begin(e, false, a), Event.BeginPass(e, b), Event.EndPass(e, c), Event.End(e, d));
    assert AfterEvent(cfg, s, Event.Begin(e, false, a)) == u && AfterEvent(cfg, u, Event.BeginPass(e, b)) == v;
    assert AfterEvent(cfg, v, Event.EndPass(e, c)) == AfterEndPass(v, e, c);
  }

  lemma AfterFour(cfg: Config, s: Globals, w: Event, x: Event, y: Event, z: Event)
    ensures AfterEvents(cfg, s, [w, x, y, z])
         == AfterEvent(cfg, AfterEvent(cfg, AfterEvent(cfg, AfterEvent(cfg, s, w), x), y), z)
  {
    AfterTwo(cfg, s, w, x);
    AfterTwo(cfg, AfterEvents(cfg, s, [w, x]), y, z);
    AfterConcat(cfg, s, [w, x], [y, z]);
    assert [w, x] + [y, z] == [w, x, y, z];
  }

  lemma AfterOne(cfg: Config, s: Globals, x: Event)
    ensures AfterEvents(cfg, s, [x]) == AfterEvent(cfg, s, x)
  {
    assert [x][1..] == [];
  }

  lemma AfterTwo(cfg: Config, s: Globals, x: Event, y: Event)
    ensures AfterEvents(cfg, s, [x, y]) == AfterEvent(cfg, AfterEvent(cfg, s, x), y)
  {
    AfterOne(cfg, s, x);
    AfterOne(cfg, AfterEvent(cfg, s, x), y);
    AfterConcat(cfg, s, [x], [y]);
    assert [x] + [y] == [x, y];
  }

  /** An undisturbed transaction has recorded: the plan has moved on with exactly what
      the framework wrote, and all is as before. */
  predicate RecordedOnce(s: Globals, t: Globals, e: nat, p: PlanId, writes: seq<Write>, textures: seq<TextureEntry>) {
    && Known(s, e) && Known(t, e) && t.out.None? && p in s.plans
    && t.bindings[e] == s.bindings[e].(journal := Some(IDLE), plan := Some(p))
    && t.plans == s.plans[p := Ended(Refilled(s.plans[p], writes), true, textures)]
    && CallsOf(t, e) == CallsOf(s, e) + [DoBegin, DoBeginPass, DoEndPass, DoEnd]
  }

  lemma UndisturbedSteps(s: Globals, e: nat, p: PlanId, u: Globals, v: Globals, x: Globals, t: Globals,
                         first: seq<Write>, b: World, c: World, d: World)
    requires Recording(s, u, e, p, first) && s.bindings[e].hooked && !s.bindings[e].liteActive && !s.bindings[e].liteRecording
    requires Calm(b) && Calm(c) && Calm(d)
    requires v == AfterBeginPass(u, e, b)
    requires Known(v, e) ==> x == AfterEndPass(v, e, c)
    requires Known(x, e) ==> t == AfterEnd(x, e, d)
    ensures RecordedOnce(s, t, e, p, first + b.writes, b.textures)
  {
    CalmPass(s, u, e, p, first, b, v);
    CalmEnd(v, e, c, x, d, t);
    FourCalls(CallsOf(s, e));
  }

  lemma FourCalls(calls: seq<FrameworkCall>)
    ensures calls + [DoBegin] + [DoBeginPass] + [DoEndPass] + [DoEnd] == calls + [DoBegin, DoBeginPass, DoEndPass, DoEnd]
  {
  }

  lemma UndisturbedRecords(cfg: Config, s: Globals, used: set<nat>, e: nat, a: World, b: World, c: World, d: World, t: Globals)
    requires Ok(s, used) && Offered(cfg, s, e, false, a) && s.out.None? && Calm(a) && Calm(b) && Calm(c) && Calm(d)
    requires s.plans[PlanId(e, a.technique)].state <= 1 && t == AfterEvents(cfg, s, OnePass(e, a, b, c, d))
    ensures RecordedOnce(s, t, e, PlanId(e, a.technique), a.writes + b.writes, b.textures)
  {
    assert BindingOk(e, s.bindings[e], s.plans);
    OnePassIs(cfg, s, e, a, b, c, d);
    var u := AfterBegin(cfg, s, e, false, a);
    CalmBegin(cfg, s, used, e, a, u);
    var v := AfterBeginPass(u, e, b);
    var x := AfterEndPass(v, e, c);
    UndisturbedSteps(s, e, PlanId(e, a.technique), u, v, x, t, a.writes, b, c, d);
  }

  /** Two undisturbed transactions make the third one replay exactly when their
      recordings agree, that is when the ops that the recorder kept match one by one
      but for the values of masked constants. */
  lemma ThirdReplaysIff(cfg: Config, s: Globals, used: set<nat>, e: nat, technique: nat,
                        a: World, b: World, c: World, d: World, a': World, b': World, c': World, d': World, w: World, t: Globals)
    requires Ok(s, used) && a.technique == a'.technique == w.technique == technique
    requires Offered(cfg, s, e, false, a) && s.out.None? && s.plans[PlanId(e, technique)].state == 0
    requires Calm(a) && Calm(b) && Calm(c) && Calm(d) && Calm(a') && Calm(b') && Calm(c') && Calm(d') && w.threadOk
    requires t == AfterEvents(cfg, s, OnePass(e, a, b, c, d) + OnePass(e, a', b', c', d') + [Begin(e, false, w)])
    ensures Known(t, e)
    ensures t.bindings[e].liteActive <==>
      SameOps(s.plans[PlanId(e, technique)].slots, KeptOps(OpsOf(a.writes + b.writes)), KeptOps(OpsOf(a'.writes + b'.writes)))
    ensures t.bindings[e].liteActive ==>
      && CallsOf(t, e) == CallsOf(s, e) + [DoBegin, DoBeginPass, DoEndPass, DoEnd] + [DoBegin, DoBeginPass, DoEndPass, DoEnd]
      && PlanId(e, technique) in t.plans
      && t.plans[PlanId(e, technique)] ==
           Validated(s.plans[PlanId(e, technique)], a.writes + b.writes, a'.writes + b'.writes, b'.textures)
    ensures !t.bindings[e].liteActive ==> BarredIn(t, PlanId(e, technique))
  {
    var one, two := OnePass(e, a, b, c, d), OnePass(e, a', b', c', d');
    var u := AfterEvents(cfg, s, one);
    var v := AfterEvents(cfg, u, two);
    AfterConcat(cfg, s, one, two);
    AfterConcat(cfg, s, one + two, [Begin(e, false, w)]);
    AfterOne(cfg, v, Begin(e, false, w));
    UndisturbedRecords(cfg, s, used, e, a, b, c, d, u);
    OnePassKeeps(cfg, s, used, e, a, b, c, d, u);
    OnceOffered(cfg, s, u, e, a, a.writes + b.writes, b.textures, a');
    UndisturbedRecords(cfg, u, used, e, a', b', c', d', v);
    OnePassKeeps(cfg, u, used, e, a', b', c', d', v);
    TwiceOffered(cfg, s, u, v, e, a, a.writes + b.writes, b.textures, a'.writes + b'.writes, b'.textures, w);
    BeginReplaysIff(cfg, v, used, e, false, w, t);
    BeginCalls(cfg, v, used, e, false, w, t);
    if !t.bindings[e].liteActive {
      BeginMoves(cfg, v, used, e, false, w);
      BarredStays(v, t, e, used, PlanId(e, technique));
    }
  }

  lemma OnePassKeeps(cfg: Config, s: Globals, used: set<nat>, e: nat, a: World, b: World, c: World, d: World, t: Globals)
    requires Ok(s, used) && t == AfterEvents(cfg, s, OnePass(e, a, b, c, d))
    ensures Ok(t, used)
  {
    CreatesNone(OnePass(e, a, b, c, d), used);
    RunKeeps(cfg, s, used, OnePass(e, a, b, c, d), t);
  }

  lemma OnceOffered(cfg: Config, s: Globals, u: Globals, e: nat, a: World, x: seq<Write>, tx: seq<TextureEntry>, w: World)
    requires Offered(cfg, s, e, false, a) && s.plans[PlanId(e, a.technique)].state == 0 && w.threadOk && w.technique == a.technique
    requires RecordedOnce(s, u, e, PlanId(e, a.technique), x, tx)
    ensures Offered(cfg, u, e, false, w) && u.plans[PlanId(e, a.technique)].state == 1
  {
  }

  lemma TwiceOffered(cfg: Config, s: Globals, u: Globals, v: Globals, e: nat, a: World,
                     x: seq<Write>, tx: seq<TextureEntry>, y: seq<Write>, ty: seq<TextureEntry>, w: World)
    requires Offered(cfg, s, e, false, a) && s.plans[PlanId(e, a.technique)].state == 0 && w.threadOk && w.technique == a.technique
    requires RecordedOnce(s, u, e, PlanId(e, a.technique), x, tx) && RecordedOnce(u, v, e, PlanId(e, a.technique), y, ty)
    ensures Offered(cfg, v, e, false, w) && v.bindings[e].liteActive == s.bindings[e].liteActive
    ensures var plan := s.plans[PlanId(e, a.technique)];
      v.plans[PlanId(e, a.technique)] ==
        if SameOps(plan.slots, KeptOps(OpsOf(x)), KeptOps(OpsOf(y))) then Validated(plan, x, y, ty)
        else plan.(state := 3, rec1 := Recorded(x), rec2 := Recorded(y))
  {
    var plan := s.plans[PlanId(e, a.technique)];
    TwiceEnded(plan, x, y, tx, ty);
    RecordedAgreeIff(plan.slots, OpsOf(x), PadsOf(x), OpsOf(y), PadsOf(y));
  }

  /** A plan after two recordings that agree: the first is what will be replayed, and
      the stage table is learnt from it and the textures of that moment. */
  function Validated(plan: Plan, x: seq<Write>, y: seq<Write>, textures: seq<TextureEntry>): Plan {
    plan.(state := 2, rec1 := Recorded(x), rec2 := Recorded(y), stages := Learn(plan.stages, textures, Visited(Recorded(x))))
  }

  lemma TwiceEnded(plan: Plan, x: seq<Write>, y: seq<Write>, tx: seq<TextureEntry>, ty: seq<TextureEntry>)
    requires plan.state == 0
    ensures var once := Ended(Refilled(plan, x), true, tx); var twice := Ended(Refilled(once, y), true, ty);
      && once.state == 1 && once.eligible == plan.eligible
      && twice == if AgreeFrom(plan.slots, Recorded(x), 0, Recorded(y), 0) then Validated(plan, x, y, ty)
                  else plan.(state := 3, rec1 := Recorded(x), rec2 := Recorded(y))
  {
  }

  lemma {:induction false} CreatesNone(events: seq<Event>, used: set<nat>)
    requires forall i :: 0 <= i < |events| ==> !events[i].Attach?
    ensures CreatesAll(events, used) && UsedAll(events, used) == used
  {
    if events != [] {
      assert forall i :: 0 <= i < |events| - 1 ==> events[1..][i] == events[i + 1];
      CreatesNone(events[1..], used);
    }
  }

  // ---- Inside a replay ------------------------------------------------------------------------

  /** What one call on an effect that replays does to its journal. A second Begin
      ends the transaction for good. */
  function FlagsAfter(journal: Flags, event: Event): Flags {
    match event
    case BeginPass(_, w) => journal.(passActive := true).After(w.journalFails)
    case EndPass(_, _) => journal.(passActive := false)
    case Begin(_, doNotSave, w) =>
      if doNotSave || journal.disabled then journal else journal.Restored(w.restoreOk).(disabled := true)
    case _ => journal
  }

  /** A second Begin that goes through to the framework: one that asks for no
      journal or finds it given up, or one whose refusal leaves it unfailed. */
  predicate Enters(journal: Flags, event: Event) {
    event.Begin? && (event.doNotSave || journal.disabled || !journal.Restored(event.world.restoreOk).failed)
  }

  /** None of the effect's own calls in a row of events enters the framework. */
  predicate StaysOut(journal: Flags, e: nat, events: seq<Event>)
    decreases events
  {
    events != [] ==>
      if events[0].effect != e then StaysOut(journal, e, events[1..])
      else !Enters(journal, events[0]) && StaysOut(FlagsAfter(journal, events[0]), e, events[1..])
  }

  /** The framework's part of one call on an effect that replays. */
  function FrameworkAfter(s: Globals, e: nat, event: Event): Framework
    requires Journaled(s, e) && Planned(s, e)
  {
    var f := s.frameworks[e];
    if event.BeginPass? then f.(submitted := f.submitted + Replayed(s.plans[s.bindings[e].plan.value], event.world))
    else if Enters(s.bindings[e].journal.value, event) then f.(calls := f.calls + [DoBegin])
    else f
  }

  /** One call on an effect that replays: the replay goes on, and that is all. */
  predicate Continued(s: Globals, t: Globals, e: nat, event: Event) {
    && Journaled(s, e) && Planned(s, e) && e in t.bindings
    && t.bindings[e] == s.bindings[e].(journal := Some(FlagsAfter(s.bindings[e].journal.value, event)))
    && t.frameworks == s.frameworks[e := FrameworkAfter(s, e, event)]
    && t.plans == s.plans
  }

  lemma BeginContinues(cfg: Config, s: Globals, used: set<nat>, e: nat, doNotSave: bool, w: World, t: Globals)
    requires Ok(s, used) && Known(s, e) && s.bindings[e].liteActive && t == AfterBegin(cfg, s, e, doNotSave, w)
    ensures Continued(s, t, e, Event.Begin(e, doNotSave, w))
  {
    assert BindingOk(e, s.bindings[e], s.plans);
    assert s.bindings[e := s.bindings[e]] == s.bindings && s.frameworks[e := s.frameworks[e]] == s.frameworks;
  }

  lemma HookContinues(cfg: Config, s: Globals, used: set<nat>, e: nat, event: Event, t: Globals)
    requires Ok(s, used) && Known(s, e) && s.bindings[e].liteActive && event.effect == e && Inside(event)
    requires t == AfterEvent(cfg, s, event)
    ensures Continued(s, t, e, event)
  {
    assert BindingOk(e, s.bindings[e], s.plans);
    assert s.bindings[e := s.bindings[e]] == s.bindings && s.frameworks[e := s.frameworks[e]] == s.frameworks;
    if event.Begin? {
      BeginContinues(cfg, s, used, e, event.doNotSave, event.world, t);
    }
  }

  /** What the passes of a replaying effect submit. */
  function Submitted(plan: Plan, e: nat, events: seq<Event>): seq<Call> {
    if events == [] then []
    else if events[0].effect == e && events[0].BeginPass? then Replayed(plan, events[0].world) + Submitted(plan, e, events[1..])
    else Submitted(plan, e, events[1..])
  }

  /** Where a transaction of effect `e` stands that replays a plan, seen from state `s`. */
  predicate Replaying(s: Globals, e: nat, plan: Plan, journal: Flags) {
    && Journaled(s, e) && Planned(s, e) && s.bindings[e].liteActive && s.bindings[e].journal == Some(journal)
    && s.plans[s.bindings[e].plan.value] == plan
  }

  lemma ReplayingOn(s: Globals, t: Globals, e: nat, plan: Plan, journal: Flags, event: Event)
    requires Replaying(s, e, plan, journal) && Continued(s, t, e, event) && event.effect == e && Inside(event)
    ensures Replaying(t, e, plan, FlagsAfter(journal, event)) && t.frameworks[e].tapped == s.frameworks[e].tapped
    ensures t.frameworks[e].submitted == s.frameworks[e].submitted + if event.BeginPass? then Replayed(plan, event.world) else []
    ensures CallsOf(t, e) == CallsOf(s, e) + if Enters(journal, event) then [DoBegin] else []
  {
  }

  lemma ReplayingAside(s: Globals, t: Globals, used: set<nat>, e: nat, plan: Plan, journal: Flags, f: nat, after: set<nat>)
    requires Replaying(s, e, plan, journal) && Kept(s, t, f, used, after) && f != e && plan.state == 2
    ensures Replaying(t, e, plan, journal) && t.frameworks[e] == s.frameworks[e]
  {
    assert BindingOk(e, t.bindings[e], t.plans);
  }

  /** What happens while effect `e` replays, on it and on others: its passes submit the
      plan's recorded pass and nothing else, and the framework is entered for it
      exactly when a second Begin goes through. */
  lemma {:induction false} InsideReplay(cfg: Config, s: Globals, used: set<nat>, e: nat, plan: Plan, journal: Flags,
                                        inside: seq<Event>, t: Globals)
    requires Ok(s, used) && CreatesAll(inside, used) && Replaying(s, e, plan, journal) && plan.state == 2
    requires forall i :: 0 <= i < |inside| && inside[i].effect == e ==> Inside(inside[i])
    requires t == AfterEvents(cfg, s, inside)
    ensures Known(t, e) && t.bindings[e].liteActive && t.frameworks[e].tapped == s.frameworks[e].tapped
    ensures t.frameworks[e].submitted == s.frameworks[e].submitted + Submitted(plan, e, inside)
    ensures CallsOf(s, e) <= CallsOf(t, e)
    ensures CallsOf(t, e) == CallsOf(s, e) <==> StaysOut(journal, e, inside)
    decreases inside
  {
    if inside == [] {
      assert s.frameworks[e].submitted + [] == s.frameworks[e].submitted;
    } else {
      var event, mid := inside[0], AfterEvent(cfg, s, inside[0]);
      assert forall i :: 0 <= i < |inside| - 1 ==> inside[1..][i] == inside[i + 1];
      EventMoves(cfg, s, used, event, mid);
      if event.effect == e {
        HookContinues(cfg, s, used, e, event, mid);
        ReplayingOn(s, mid, e, plan, journal, event);
        InsideReplay(cfg, mid, UsedAfter(event, used), e, plan, FlagsAfter(journal, event), inside[1..], t);
        SubmitsNext(s.frameworks[e].submitted, plan, e, inside);
      } else {
        ReplayingAside(s, mid, used, e, plan, journal, event.effect, UsedAfter(event, used));
        InsideReplay(cfg, mid, UsedAfter(event, used), e, plan, journal, inside[1..], t);
      }
    }
  }

  lemma SubmitsNext(before: seq<Call>, plan: Plan, e: nat, events: seq<Event>)
    requires events != [] && events[0].effect == e
    ensures before + Submitted(plan, e, events)
         == before + (if events[0].BeginPass? then Replayed(plan, events[0].world) else []) + Submitted(plan, e, events[1..])
  {
  }

  /** And effects that do not replay stay there as well. */
  lemma {:induction false} StaysKnown(cfg: Config, s: Globals, used: set<nat>, e: nat, inside: seq<Event>, t: Globals)
    requires Ok(s, used) && CreatesAll(inside, used) && Known(s, e) && t == AfterEvents(cfg, s, inside)
    requires forall i :: 0 <= i < |inside| && inside[i].effect == e ==> Inside(inside[i])
    ensures Known(t, e)
    decreases inside
  {
    if inside != [] {
      var mid := AfterEvent(cfg, s, inside[0]);
      assert forall i :: 0 <= i < |inside| - 1 ==> inside[1..][i] == inside[i + 1];
      EventMoves(cfg, s, used, inside[0], mid);
      StaysKnown(cfg, mid, UsedAfter(inside[0], used), e, inside[1..], t);
    }
  }

  /** The End hook: whatever came before, nothing of the transaction is left. */
  lemma EndClears(s: Globals, used: set<nat>, e: nat, w: World, t: Globals)
    requires Ok(s, used) && Known(s, e) && t == AfterEnd(s, e, w)
    ensures !t.bindings[e].liteActive && !t.bindings[e].liteRecording && !t.frameworks[e].tapped
    ensures t.out.Some? ==> t.out.value.plan.effect != e
    ensures s.bindings[e].liteActive ==> t.frameworks == s.frameworks
  {
    EndHookMoves(s, used, e, w);
    assert BindingOk(e, s.bindings[e], s.plans);
  }

  // ---- The hooks ---------------------------------------------------------------------------

  class Bridge {
    const cfg: Config
    var s: Globals
    ghost var used: set<nat>        // every effect there has been

    ghost predicate Valid()
      reads this
    {
      Ok(s, used)
    }

    constructor (cfg: Config)
      ensures Valid() && s == Globals(map[], map[], map[], None, None, []) && used == {} && this.cfg == cfg
    {
      this.cfg := cfg;
      s := Globals(map[], map[], map[], None, None, []);
      used := {};
    }

    /** State writes the framework makes during one of its calls. The recorder takes
        them only while it is this effect's state manager, and open. */
    method Tap(e: nat, writes: seq<Write>)
      requires Known(s, e)
      modifies `s
      ensures s == Written(old(s), e, writes)
    {
      if !s.frameworks[e].tapped || s.inner == None || s.out == None || s.out.value.plan !in s.plans {
        return;
      }
      var p, second := s.out.value.plan, s.out.value.second;
      ghost var plan, data := s.plans[p], Buffer(s);
      var i := 0;
      assert writes[..0] == [] && s.taken + [] == s.taken && s.plans[p := Filled(plan, second, data)] == s.plans;
      while i < |writes|
        invariant 0 <= i <= |writes|
        invariant s == old(s).(plans := old(s).plans[p := Filled(plan, second, AppendAll(data, writes[..i]))],
                               taken := old(s).taken + writes[..i])
      {
        assert writes[..i + 1][..i] == writes[..i] && writes[..i + 1] == writes[..i] + [writes[i]];
        s := WithPlan(s, p, Filled(s.plans[p], second, Append(Buffer(s), writes[i].op, writes[i].pad)))
          .(taken := s.taken + [writes[i]]);
        i := i + 1;
      }
      assert writes[..|writes|] == writes;
    }

    method CallFramework(e: nat, call: FrameworkCall, writes: seq<Write>)
      requires Known(s, e)
      modifies `s
      ensures s == Did(old(s), e, call, writes)
    {
      s := Called(s, e, call);
      Tap(e, writes);
    }

    method PassAction(plan: Plan) returns (action: Action)
      ensures action == ActionOf(cfg, plan)
      ensures cfg.passLite && plan.eligible ==> (action == ReplayPass <==> plan.state == 2) && (action == RecordPass <==> plan.state <= 1)
      ensures !cfg.passLite || !plan.eligible ==> action == Plain
    {
      if !cfg.passLite || !plan.eligible {
        return Plain;
      }
      if plan.state == 2 {
        return ReplayPass;
      }
      if plan.state >= 3 {
        return Plain;
      }
      return RecordPass;
    }

    /** Opens the recorder for a plan, unless it is open already. */
    method BeginRecording(e: nat, p: PlanId, managerOk: bool)
      requires Known(s, e) && p in s.plans
      modifies `s
      ensures s == RecordingBegun(old(s), e, p, managerOk)
      ensures old(s).out.None? && managerOk ==>
        s.out == Some(Target(p, old(s).plans[p].state != 0)) && s.inner == Some(e) && s.frameworks[e].tapped && Buffer(s) == []
      ensures old(s).out.Some? || !managerOk ==> s.out == old(s).out && s.bindings == old(s).bindings && s.frameworks == old(s).frameworks
      ensures old(s).out.None? && !managerOk ==>
        s.inner == None && s.plans == old(s).plans[p := Filled(old(s).plans[p], old(s).plans[p].state != 0, [])]
    {
      if s.out != None {
        return;
      }
      if !managerOk {
        s := WithPlan(s, p, Filled(s.plans[p], s.plans[p].state != 0, [])).(inner := None);
        return;
      }
      s := Opened(s, e, p);
    }

    /** Closes a recording and moves its plan on. */
    method EndRecording(e: nat, ok: bool, textures: seq<TextureEntry>)
      requires Valid() && Known(s, e) && s.bindings[e].liteRecording
      modifies `s
      ensures s == RecordingEnded(old(s), e, ok, textures) && Stepped(old(s), s, e, used) && s.out == None
      ensures old(s).out == Some(Target(old(s).bindings[e].plan.value, false)) ==>
        s.plans[old(s).bindings[e].plan.value].rec1 == Recorded(old(s).taken)
    {
      EndHere(s, used, e, ok, textures);
      if s.out == Some(Target(s.bindings[e].plan.value, false)) {
        RecordingIsTaken(s, used, e, ok, textures);
      }
      var p := s.bindings[e].plan.value;
      var plan := Advance(s.plans[p], ok, textures);
      s := WithPlan(Closed(s, e), p, plan);
    }

    method SetBinding(e: nat, b: Binding)
      modifies `s
      ensures s == WithBinding(old(s), e, b)
    {
      s := WithBinding(s, e, b);
    }

    method SetJournal(e: nat, journal: Flags)
      requires Known(s, e)
      modifies `s
      ensures s == WithJournal(old(s), e, journal)
    {
      s := WithJournal(s, e, journal);
    }

    method CloseFailed(e: nat, w: World)
      requires Journaled(s, e)
      modifies `s
      ensures s == Dropped(old(s), e, w)
    {
      var journal := s.bindings[e].journal.value;
      if journal.passActive {
        CallFramework(e, DoEndPass, []);
      }
      CallFramework(e, DoEnd, []);
      SetJournal(e, journal.Retired(w.restoreOk));
    }

    method Reopen(e: nat, w: World)
      requires Known(s, e)
      modifies `s
      ensures s == Reopened(old(s), e, w)
    {
      CallFramework(e, DoBegin, w.again);
      if w.callOk {
        CallFramework(e, DoBeginPass, w.again);
      }
    }

    /** Drops a failed transaction and begins the pass again without the journal. */
    method RestartBaselinePass(e: nat, w: World)
      requires Journaled(s, e)
      modifies `s
      ensures s == Restarted(old(s), e, w)
      ensures CallsOf(s, e) == CallsOf(old(s), e) + RestartMakes(old(s).bindings[e].journal.value.passActive, w)
      ensures SameUse(old(s).bindings[e], s.bindings[e])
    {
      RestartCalls(s, e, w);
      CloseFailed(e, w);
      if w.restoreOk {
        Reopen(e, w);
      }
    }

    method RefuseTransaction(e: nat, w: World)
      requires Journaled(s, e)
      modifies `s
      ensures s == TransactionRefused(old(s), e, w)
    {
      var journal := Refused(s.bindings[e].journal.value, w);
      SetJournal(e, journal);
      if !journal.failed {
        CallFramework(e, DoBegin, w.writes);
      }
    }

    method ResolvePlan(e: nat, technique: nat) returns (plan: Option<PlanId>)
      requires Known(s, e)
      modifies `s
      ensures s == PlanResolved(cfg, old(s), e, technique) && plan == PlanFor(cfg, old(s), e, technique)
    {
      plan := None;
      if cfg.genericDirect && !s.bindings[e].directDisabled {
        plan := if PlanId(e, technique) in s.plans then Some(PlanId(e, technique)) else None;
        SetBinding(e, s.bindings[e].(plan := plan, directDisabled := plan == None));
      }
    }

    /** A recording whose BeginPass never came must not leave the recorder behind. */
    method StopRecording(e: nat, w: World)
      requires Valid() && Known(s, e)
      modifies `s
      ensures s == RecordingStopped(old(s), e, w) && Valid()
    {
      if s.bindings[e].liteRecording {
        EndRecording(e, false, w.textures);
      }
    }

    method BeginFramework(e: nat, w: World)
      requires Valid() && Journaled(s, e)
      modifies `s
      ensures s == FrameworkBegun(old(s), e, w)
    {
      var journal := s.bindings[e].journal.value;
      if !w.captureOk {
        SetJournal(e, journal.Retired(w.restoreOk));
        CallFramework(e, DoBegin, w.writes);
        return;
      }
      DidMoves(s, s, used, e, DoBegin, w.writes);
      CallFramework(e, DoBegin, w.writes);
      journal := journal.After(w.journalFails);
      if w.callOk && w.finishOk && !journal.failed {
        return;
      }
      StopRecording(e, w);
      if w.callOk && w.finishOk {
        CallFramework(e, DoEnd, []);
      }
      SetJournal(e, journal.Retired(w.restoreOk));
      if w.restoreOk {
        CallFramework(e, DoBegin, w.again);
      }
    }

    /** The Begin hook. */
    method Begin(e: nat, doNotSave: bool, w: World)
      requires Valid() && Known(s, e)
      modifies `s
      ensures Valid() && Known(s, e) && s == AfterBegin(cfg, old(s), e, doNotSave, w) && Stepped(old(s), s, e, used)
      ensures s.bindings[e].liteActive <==>
        || old(s).bindings[e].liteActive
        || (Offered(cfg, old(s), e, doNotSave, w) && old(s).plans[PlanId(e, w.technique)].state == 2)
      ensures s.bindings[e].liteActive && !old(s).bindings[e].liteActive ==> CallsOf(s, e) == CallsOf(old(s), e)
      ensures s.bindings[e].liteRecording <==>
        || old(s).bindings[e].liteRecording
        || (Offered(cfg, old(s), e, doNotSave, w) && old(s).plans[PlanId(e, w.technique)].state <= 1
            && old(s).out.None? && w.managerOk && Succeeds(w))
    {
      BeginMoves(cfg, s, used, e, doNotSave, w);
      BeginRecordsIff(cfg, s, used, e, doNotSave, w, AfterBegin(cfg, s, e, doNotSave, w));
      if s.bindings[e].liteActive {
        BeginContinues(cfg, s, used, e, doNotSave, w, AfterBegin(cfg, s, e, doNotSave, w));
      } else {
        BeginReplaysIff(cfg, s, used, e, doNotSave, w, AfterBegin(cfg, s, e, doNotSave, w));
      }
      BeginEffect(e, doNotSave, w);
    }

    method BeginEffect(e: nat, doNotSave: bool, w: World)
      requires Valid() && Known(s, e)
      modifies `s
      ensures s == AfterBegin(cfg, old(s), e, doNotSave, w)
    {
      var b := s.bindings[e];
      if b.journal == None || !b.hooked || b.journal.value.disabled || doNotSave {
        CallFramework(e, DoBegin, w.writes);
        return;
      }
      if b.journal.value.active || !w.threadOk {
        RefuseTransaction(e, w);
        return;
      }
      BeginJournaled(e, w);
    }

    method Prepare(e: nat, technique: nat) returns (plan: Option<PlanId>)
      requires Journaled(s, e)
      modifies `s
      ensures s == Prepared(cfg, old(s), e, technique) && plan == PlanFor(cfg, old(s), e, technique)
    {
      SetJournal(e, s.bindings[e].journal.value.Began());
      plan := ResolvePlan(e, technique);
    }

    /** A Begin whose transaction has begun. */
    method BeginJournaled(e: nat, w: World)
      requires Valid() && Idle(s, e)
      modifies `s
      ensures s == TransactionBegun(cfg, old(s), e, w)
    {
      PrepareMoves(cfg, s, used, e, w.technique, Prepared(cfg, s, e, w.technique));
      var plan := Prepare(e, w.technique);
      if plan.Some? {
        var action := PassAction(s.plans[plan.value]);
        if action == ReplayPass {
          SetBinding(e, s.bindings[e].(liteActive := true));
          return;
        }
        if action == RecordPass {
          RecordingHere(s, used, e, plan.value, w.managerOk);
          BeginRecording(e, plan.value, w.managerOk);
        }
      }
      BeginFramework(e, w);
    }

    /** The BeginPass hook: a replay does not enter the framework; a recording ends
        when the framework has applied the pass. */
    method BeginPass(e: nat, w: World)
      requires Valid() && Known(s, e)
      modifies `s
      ensures Valid() && s == AfterBeginPass(old(s), e, w) && Stepped(old(s), s, e, used)
      ensures old(s).bindings[e].liteActive ==> Continued(old(s), s, e, Event.BeginPass(e, w))
    {
      BeginPassMoves(s, used, e, w);
      if s.bindings[e].liteActive {
        HookContinues(cfg, s, used, e, Event.BeginPass(e, w), AfterBeginPass(s, e, w));
        Replay(e, w);
        return;
      }
      if Active(s, e) && !w.captureOk {
        SetJournal(e, s.bindings[e].journal.value.(failed := true));
        RestartBaselinePass(e, w);
        return;
      }
      EnterPass(e, w);
      if Failing(s, e) {
        RestartBaselinePass(e, w);
      }
    }

    /** The framework's BeginPass, the end of a recording with it, and the upload of
        the values that have been seen. */
    method EnterPass(e: nat, w: World)
      requires Valid() && Known(s, e)
      modifies `s
      ensures s == PassEntered(old(s), e, w)
    {
      PassCallMoves(s, used, e, w);
      var b, active := s.bindings[e], Active(s, e);
      CallPass(e, w);
      if b.liteRecording {
        EndRecording(e, w.callOk && w.finishOk, w.textures);
      }
      if w.callOk && w.finishOk && active && Planned(s, e) && !b.directDisabled {
        s := Submitting(s, e, SeenCalls(s.plans[s.bindings[e].plan.value].slots, w.shadow));
      }
    }

    method CallPass(e: nat, w: World)
      requires Known(s, e)
      modifies `s
      ensures s == PassCalled(old(s), e, w)
    {
      var b, active := s.bindings[e], Active(s, e);
      CallFramework(e, DoBeginPass, w.writes);
      if active {
        var journal := b.journal.value.After(w.journalFails);
        SetJournal(e, if w.callOk then journal.(passActive := true) else journal);
      }
    }

    /** A pass replayed: its calls go to the journal, any of which may fail there. */
    method Replay(e: nat, w: World)
      requires Known(s, e)
      modifies `s
      ensures s == PassReplayed(old(s), e, w)
    {
      if s.bindings[e].journal == None {
        return;
      }
      SetJournal(e, s.bindings[e].journal.value.(passActive := true).After(w.journalFails));
      if Planned(s, e) {
        s := Submitting(s, e, Replayed(s.plans[s.bindings[e].plan.value], w));
      }
    }

    method CommitChanges(e: nat, w: World)
      requires Valid() && Known(s, e)
      modifies `s
      ensures Valid() && s == AfterCommit(old(s), e, w) && Stepped(old(s), s, e, used)
      ensures old(s).bindings[e].liteActive ==> s == old(s)
    {
      CommitMoves(s, used, e, w);
      if s.bindings[e].liteActive {
        return;
      }
      if !Active(s, e) {
        CallFramework(e, DoCommit, w.writes);
        return;
      }
      var journal := s.bindings[e].journal.value;
      if w.captureOk {
        CallFramework(e, DoCommit, w.writes);
      }
      SetJournal(e, journal.After(w.journalFails || !w.captureOk));
      if Failing(s, e) {
        RestartBaselinePass(e, w);
      }
    }

    method EndPass(e: nat, w: World)
      requires Valid() && Known(s, e)
      modifies `s
      ensures Valid() && s == AfterEndPass(old(s), e, w) && Stepped(old(s), s, e, used)
      ensures old(s).bindings[e].liteActive ==> Continued(old(s), s, e, Event.EndPass(e, w))
    {
      EndPassMoves(s, used, e, w);
      var b := s.bindings[e];
      if b.liteActive {
        HookContinues(cfg, s, used, e, Event.EndPass(e, w), AfterEndPass(s, e, w));
        if b.journal.Some? {
          SetJournal(e, b.journal.value.(passActive := false));
        }
        return;
      }
      var active := Active(s, e);
      CallFramework(e, DoEndPass, w.writes);
      if w.callOk && active {
        SetJournal(e, b.journal.value.(passActive := false));
      }
    }

    /** The End hook: whatever came before, nothing of the transaction is left. */
    method End(e: nat, w: World)
      requires Valid() && Known(s, e)
      modifies `s
      ensures Valid() && Known(s, e) && s == AfterEnd(old(s), e, w) && Stepped(old(s), s, e, used)
      ensures !s.bindings[e].liteActive && !s.bindings[e].liteRecording && !s.frameworks[e].tapped
      ensures s.out.Some? ==> s.out.value.plan.effect != e
      ensures old(s).bindings[e].liteActive ==> s.frameworks == old(s).frameworks
    {
      EndHookMoves(s, used, e, w);
      EndClears(s, used, e, w, AfterEnd(s, e, w));
      EndEffect(e, w);
    }

    method EndEffect(e: nat, w: World)
      requires Valid() && Known(s, e)
      modifies `s
      ensures s == AfterEnd(old(s), e, w)
    {
      var before := s.bindings[e];
      StopRecording(e, w);
      var b := s.bindings[e];
      if b.liteActive {
        SetBinding(e, b.(liteActive := false));
      } else if !Active(s, e) || w.captureOk {
        CallFramework(e, DoEnd, w.writes);
      }
      if before.journal.Some? && before.journal.value.active && before.hooked {
        SetJournal(e, FlagsEnded(before, w));
      }
    }

    /** A new effect, with its plans unrecorded. */
    method Attach(e: nat, journal: Option<Flags>, hooked: bool, techniques: map<nat, Plan>)
      requires Valid() && e !in used && Unrecorded(techniques)
      modifies this
      ensures Valid() && used == old(used) + {e} && s == Attached(old(s), e, journal, hooked, techniques)
      ensures Kept(old(s), s, e, old(used), used)
      ensures e in s.bindings && s.bindings[e] == Binding(journal, hooked, None, false, false, false)
      ensures forall t :: t in techniques ==> PlanId(e, t) in s.plans && s.plans[PlanId(e, t)] == techniques[t]
    {
      AttachKeeps(s, used, e, journal, hooked, techniques, Attached(s, e, journal, hooked, techniques));
      used := used + {e};
      s := Attached(s, e, journal, hooked, techniques);
    }

    /** The Release hook, when the last reference goes: plans, binding and journal
        go, and with them the recorder's hold on the journal. An effect that never
        had a journal closes the recorder whoever it belongs to. */
    method Release(e: nat)
      requires Valid() && Known(s, e)
      modifies `s
      ensures Valid() && s == Released(old(s), e) && Kept(old(s), s, e, used, used)
      ensures s.bindings == old(s).bindings - {e} && s.inner != Some(e)
      ensures old(s).out.Some? && old(s).out.value.plan.effect != e ==>
        (s.out == old(s).out <==> old(s).bindings[e].journal.Some?)
    {
      ReleaseKeeps(s, used, e, Released(s, e));
      s := Released(s, e);
    }
  }

  // ---- Runs ------------------------------------------------------------------------------------

  method HandleCall(bridge: Bridge, event: Event)
    requires bridge.Valid() && Known(bridge.s, event.effect) && !event.Attach? && !event.Release?
    modifies bridge`s
    ensures bridge.Valid() && bridge.s == AfterEvent(bridge.cfg, old(bridge.s), event)
  {
    match event {
      case Begin(e, doNotSave, w) => bridge.Begin(e, doNotSave, w);
      case BeginPass(e, w) => bridge.BeginPass(e, w);
      case CommitChanges(e, w) => bridge.CommitChanges(e, w);
      case EndPass(e, w) => bridge.EndPass(e, w);
      case End(e, w) => bridge.End(e, w);
    }
  }

  /** One event; events on effects that are not there do nothing. */
  method Handle(bridge: Bridge, event: Event)
    requires bridge.Valid() && Creates(event, bridge.used)
    modifies bridge
    ensures bridge.Valid() && bridge.used == UsedAfter(event, old(bridge.used))
    ensures bridge.s == AfterEvent(bridge.cfg, old(bridge.s), event)
  {
    var e := event.effect;
    if event.Attach? {
      bridge.Attach(e, event.journal, event.hooked, event.techniques);
    } else if Known(bridge.s, e) {
      if event.Release? {
        bridge.Release(e);
      } else {
        HandleCall(bridge, event);
      }
    }
  }

  /** Any run: the hooks do what the run says, and what every run keeps. */
  method RunEvents(bridge: Bridge, events: seq<Event>)
    requires bridge.Valid() && CreatesAll(events, bridge.used)
    modifies bridge
    ensures bridge.Valid() && bridge.used == UsedAll(events, old(bridge.used))
    ensures bridge.s == AfterEvents(bridge.cfg, old(bridge.s), events)
    ensures PlansKept(old(bridge.s).plans, bridge.s.plans, old(bridge.used))
  {
    RunKeeps(bridge.cfg, bridge.s, bridge.used, events, AfterEvents(bridge.cfg, bridge.s, events));
    assert events[0..] == events;
    for i := 0 to |events|
      invariant bridge.Valid() && CreatesAll(events[i..], bridge.used)
      invariant UsedAll(events[i..], bridge.used) == UsedAll(events, old(bridge.used))
      invariant AfterEvents(bridge.cfg, bridge.s, events[i..]) == AfterEvents(bridge.cfg, old(bridge.s), events)
    {
      assert events[i..][0] == events[i] && events[i..][1..] == events[i + 1..];
      Handle(bridge, events[i]);
    }
  }

  /** A second Begin on an effect that is replaying: the replay goes on, but the
      framework is begun behind its back unless the refused transaction failed. */
  method BeginAgain(bridge: Bridge, e: nat, doNotSave: bool, w: World)
    requires bridge.Valid() && Known(bridge.s, e) && bridge.s.bindings[e].liteActive
    modifies bridge
    ensures bridge.Valid() && Known(bridge.s, e) && bridge.s.bindings[e].liteActive
    ensures old(bridge.s).bindings[e].journal.Some?
    ensures var journal := old(bridge.s).bindings[e].journal.value;
      bridge.s.frameworks[e].calls == old(bridge.s).frameworks[e].calls +
        if doNotSave || journal.disabled || !journal.Restored(w.restoreOk).failed then [DoBegin] else []
  {
    BeginContinues(bridge.cfg, bridge.s, bridge.used, e, doNotSave, w, AfterBegin(bridge.cfg, bridge.s, e, doNotSave, w));
    bridge.Begin(e, doNotSave, w);
  }

  /** A whole transaction of one effect, with anything on other effects inside it
      and even Begin once more on the same. It is a replay exactly when there is a
      validated plan for it to take; then its passes submit the plan's recorded
      pass and nothing else, and the framework is never entered for the effect
      exactly when no second Begin goes through to it. At the end nothing of the
      transaction is left. */
  method Transaction(bridge: Bridge, e: nat, doNotSave: bool, first: World, inside: seq<Event>, last: World)
    returns (replayed: bool)
    requires bridge.Valid() && Known(bridge.s, e) && !bridge.s.bindings[e].liteActive
    requires CreatesAll(inside, bridge.used)
    requires forall i :: 0 <= i < |inside| && inside[i].effect == e ==> Inside(inside[i])
    modifies bridge
    ensures bridge.Valid() && Known(bridge.s, e)
    ensures replayed <==>
      Offered(bridge.cfg, old(bridge.s), e, doNotSave, first) && old(bridge.s).plans[PlanId(e, first.technique)].state == 2
    ensures replayed ==>
      var plan := old(bridge.s).plans[PlanId(e, first.technique)];
      bridge.s.frameworks[e].submitted == old(bridge.s).frameworks[e].submitted + Submitted(plan, e, inside)
    ensures replayed ==>
      (CallsOf(bridge.s, e) == CallsOf(old(bridge.s), e) <==> StaysOut(BEGUN, e, inside))
    ensures !bridge.s.bindings[e].liteActive && !bridge.s.bindings[e].liteRecording && !bridge.s.frameworks[e].tapped
    ensures bridge.s.out.Some? ==> bridge.s.out.value.plan.effect != e
  {
    BeginReplaysIff(bridge.cfg, bridge.s, bridge.used, e, doNotSave, first, AfterBegin(bridge.cfg, bridge.s, e, doNotSave, first));
    ghost var start, used := bridge.s, bridge.used;
    bridge.Begin(e, doNotSave, first);
    replayed := bridge.s.bindings[e].liteActive;
    ghost var begun := bridge.s;
    RunEvents(bridge, inside);
    StaysKnown(bridge.cfg, begun, used, e, inside, bridge.s);
    if replayed {
      InsideReplay(bridge.cfg, begun, used, e, start.plans[PlanId(e, first.technique)], BEGUN, inside, bridge.s);
    }
    bridge.End(e, last);
  }
}
