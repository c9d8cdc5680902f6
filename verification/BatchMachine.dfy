// Effect batching: while the game draws one object after another with the same
// effect and technique, their Begin/End pairs become one.
module BatchMachine {
  import opened Words
  import opened JournalFlags

  // ---- The effect framework ------------------------------------------------------------

  datatype Call =
    | SetTechnique(effect: nat, technique: nat)
    | Begin(effect: nat)
    | BeginPass(effect: nat)
    | Commit(effect: nat)
    | EndPass(effect: nat)
    | End(effect: nat)

  /** Where the framework stands after a row of calls; `Broken` once a call came
      that does not belong where it came. */
  datatype Stand = Closed | Opened(effect: nat) | Passing(effect: nat) | Broken

  function Next(stand: Stand, call: Call): Stand {
    match call
    case SetTechnique(_, _) => if stand == Closed then Closed else Broken
    case Begin(e) => if stand == Closed then Opened(e) else Broken
    case BeginPass(e) => if stand == Opened(e) then Passing(e) else Broken
    case Commit(e) => if stand == Passing(e) then Passing(e) else Broken
    case EndPass(e) => if stand == Passing(e) then Opened(e) else Broken
    case End(e) => if stand == Opened(e) then Closed else Broken
  }

  function After(calls: seq<Call>): Stand {
    if calls == [] then Closed else Next(After(calls[..|calls| - 1]), calls[|calls| - 1])
  }

  /** Once broken, always broken: one standing at the end speaks for the whole run. */
  lemma {:induction false} BrokenStays(calls: seq<Call>, more: seq<Call>)
    requires After(calls) == Broken
    ensures After(calls + more) == Broken
  {
    if more == [] {
      assert calls + more == calls;
    } else {
      var n := |more| - 1;
      BrokenStays(calls, more[..n]);
      assert (calls + more)[..|calls + more| - 1] == calls + more[..n];
    }
  }

  lemma AfterLast(calls: seq<Call>, call: Call)
    ensures After(calls + [call]) == Next(After(calls), call)
  {
    assert (calls + [call])[..|calls|] == calls;
  }

  // ---- What the journal and its captures do during a call ----------------------------------

  datatype Outcome = Outcome(capture: bool, finish: bool, fails: bool, restore: bool)

  datatype Direct = NotTried | Committed | FellBack | Failed

  datatype World = World(
    attach: bool,
    threadOk: bool,
    passes: nat,
    begin: Outcome,
    pass: Outcome,
    end: Outcome,
    direct: Direct)

  datatype Path = NoPath | Mode2 | Standalone

  datatype Batch = Batch(path: Path, effect: Option<nat>, technique: Option<nat>, flags: nat, passes: nat, active: bool, reusePending: bool)

  const NO_BATCH := Batch(NoPath, None, None, 0, 0, false, false)

  datatype Config = Config(batching: bool, noSaveState: bool, stateJournal: bool)

  /** The framework, the journals of the effects and the batch. */
  datatype State = State(stand: Stand, calls: seq<Call>, journals: map<nat, Flags>, lastTechnique: map<nat, nat>, batch: Batch)

  function Fresh(): State {
    State(Closed, [], map[], map[], NO_BATCH)
  }

  /** A call of the framework's own method; these succeed. */
  function Do(s: State, call: Call): State {
    s.(stand := Next(s.stand, call), calls := s.calls + [call])
  }

  function Put(s: State, e: nat, journal: Flags): State {
    s.(journals := s.journals[e := journal])
  }

  predicate Live(s: State, e: nat) {
    e in s.journals && s.journals[e].active
  }

  /** The technique of an effect: as last set for the batch, or else for the effect. */
  function Remembered(s: State, path: Path, e: nat): Option<nat> {
    if s.batch.path == path && s.batch.effect == Some(e) && s.batch.technique.Some? then s.batch.technique
    else if e in s.lastTechnique then Some(s.lastTechnique[e])
    else None
  }

  // ---- The guard that opens a batch ------------------------------------------------------------

  datatype Facts = Facts(
    batchingEnabled: bool, noSaveStateActive: bool, techniqueKnown: bool, beginSucceeded: bool,
    passCountAvailable: bool, passCount: nat, bindingAvailable: bool, journalActive: bool, journalDisabled: bool)

  datatype Reject =
    | Accepted | BatchingDisabled | NoSaveStateInactive | MissingTechnique | BeginFailed
    | MissingPassCount | MultiPass | MissingBinding | JournalInactive | JournalDisabled

  function EvaluateBatchStart(f: Facts): (r: Reject)
    ensures r == Accepted <==>
      && f.batchingEnabled && f.noSaveStateActive && f.techniqueKnown && f.beginSucceeded
      && f.passCountAvailable && f.passCount == 1
      && f.bindingAvailable && f.journalActive && !f.journalDisabled
  {
    if !f.batchingEnabled then BatchingDisabled
    else if !f.noSaveStateActive then NoSaveStateInactive
    else if !f.techniqueKnown then MissingTechnique
    else if !f.beginSucceeded then BeginFailed
    else if !f.passCountAvailable then MissingPassCount
    else if f.passCount != 1 then MultiPass
    else if !f.bindingAvailable then MissingBinding
    else if f.journalDisabled then JournalDisabled
    else if !f.journalActive then JournalInactive
    else Accepted
  }

  // ---- The entry points, without batching -------------------------------------------------------

  function Acquired(s: State, e: nat, attach: bool): State {
    if e !in s.journals && attach then Put(s, e, Flags(false, false, false, false)) else s
  }

  predicate Usable(s: State, e: nat) {
    e in s.journals && !s.journals[e].disabled
  }

  /** The framework's Begin inside a transaction, and what follows when the
      journal or its capture fails. */
  function BegunWith(s: State, e: nat, w: World): (State, bool)
    requires e in s.journals
  {
    var begun := Do(s, Begin(e));
    var journal := s.journals[e].Began().After(w.begin.fails || !w.begin.finish);
    if w.begin.finish && !journal.failed then (Put(begun, e, journal), true)
    else
      var ended := Put(if w.begin.finish then Do(begun, End(e)) else begun, e, journal.Retired(w.begin.restore));
      if w.begin.restore then (Do(ended, Begin(e)), true) else (ended, false)
  }

  /** No transaction could be begun. A journal that had failed before stops all. */
  function BegunRefused(s: State, e: nat): (State, bool)
    requires e in s.journals
  {
    var off := Put(s, e, s.journals[e].(disabled := true));
    if s.journals[e].failed then (off, false) else (Do(off, Begin(e)), true)
  }

  function Begun(cfg: Config, s: State, e: nat, w: World): (State, bool) {
    if !(cfg.noSaveState && cfg.stateJournal) then (Do(s, Begin(e)), true)
    else
      var a := Acquired(s, e, w.attach);
      if !Usable(a, e) then (Do(a, Begin(e)), true)
      else if !w.threadOk then BegunRefused(a, e)
      else if !w.begin.capture then (Do(Put(a, e, a.journals[e].Began().Retired(w.begin.restore)), Begin(e)), true)
      else BegunWith(a, e, w)
  }

  /** Gives the journal up and begins the pass again without it. */
  function Restarted(s: State, e: nat, restore: bool): (State, bool)
    requires e in s.journals
  {
    var open := if s.journals[e].passActive then Do(s, EndPass(e)) else s;
    var closed := Put(Do(open, End(e)), e, s.journals[e].Retired(restore));
    if restore then (Do(Do(closed, Begin(e)), BeginPass(e)), true) else (closed, false)
  }

  function PassBegun(s: State, e: nat, w: World): (State, bool) {
    if !Live(s, e) then (Do(s, BeginPass(e)), true)
    else if !w.pass.capture then Restarted(s, e, w.pass.restore)
    else
      var journal := s.journals[e].(passActive := true).After(w.pass.fails || !w.pass.finish);
      var passing := Put(Do(s, BeginPass(e)), e, journal);
      if journal.failed || !w.pass.finish then Restarted(passing, e, w.pass.restore) else (passing, true)
  }

  function Committing(s: State, e: nat, w: World): (State, bool) {
    if !Live(s, e) then (Do(s, Commit(e)), true)
    else if w.direct.Committed? && !s.journals[e].failed then (s, true)
    else if w.direct.Committed? || w.direct.Failed? || !w.pass.capture then Restarted(s, e, w.pass.restore)
    else
      var journal := s.journals[e].After(w.pass.fails || !w.pass.finish);
      var committed := Put(Do(s, Commit(e)), e, journal);
      if journal.failed || !w.pass.finish then Restarted(committed, e, w.pass.restore) else (committed, true)
  }

  function PassEnded(s: State, e: nat): State {
    var ended := Do(s, EndPass(e));
    if Live(s, e) then Put(ended, e, s.journals[e].(passActive := false)) else ended
  }

  function Ended(s: State, e: nat, w: World): State {
    if !Live(s, e) then Do(s, End(e))
    else
      var journal := s.journals[e].After(w.end.fails || !w.end.capture || !w.end.finish).Restored(w.end.restore);
      Put(if w.end.capture then Do(s, End(e)) else s, e, if journal.failed then journal.(disabled := true) else journal)
  }

  // ---- The entry points, with batching ------------------------------------------------------------

  function Flushed(s: State, w: World): State {
    var idle := s.(batch := NO_BATCH);
    if !s.batch.active || s.batch.effect.None? then idle
    else
      var e := s.batch.effect.value;
      Ended(if e !in s.journals || s.journals[e].passActive then PassEnded(idle, e) else idle, e, w)
  }

  predicate SameTechnique(s: State, path: Path, e: nat, technique: nat) {
    s.batch.path == path && s.batch.effect == Some(e) && s.batch.technique == Some(technique)
  }

  function TechniqueSet(cfg: Config, s: State, path: Path, e: nat, technique: nat, w: World): State {
    if !(cfg.batching && cfg.noSaveState) then Named(s, e, technique)
    else if s.batch.active && SameTechnique(s, path, e, technique) then s
    else
      var closed := if s.batch.active then Flushed(s, w) else s;
      Named(closed.(batch := closed.batch.(path := path, effect := Some(e), technique := Some(technique))), e, technique)
  }

  /** The framework's SetTechnique, and what is remembered of it. */
  function Named(s: State, e: nat, technique: nat): State {
    Do(s, SetTechnique(e, technique)).(lastTechnique := s.lastTechnique[e := technique])
  }

  predicate Joins(cfg: Config, s: State, path: Path, e: nat, flags: nat) {
    && s.batch.active && cfg.batching && cfg.noSaveState && s.batch.path == path && s.batch.effect == Some(e)
    && s.batch.flags == flags && Live(s, e) && !s.journals[e].disabled
  }

  /** A real Begin, and a batch with it if the guard accepts. */
  function BegunFresh(cfg: Config, s: State, path: Path, e: nat, known: bool, flags: nat, w: World): (State, bool) {
    var technique := Remembered(s, path, e);
    var (t, ok) := Begun(cfg, s, e, w);
    var facts := Facts(cfg.batching, cfg.noSaveState, technique.Some?, ok, known, if known then w.passes else 0,
                       e in t.journals, Live(t, e), e in t.journals && t.journals[e].disabled);
    (t.(batch := if EvaluateBatchStart(facts) == Accepted
                 then Batch(path, Some(e), technique, flags, w.passes, true, false) else NO_BATCH), ok)
  }

  function BatchBegun(cfg: Config, s: State, path: Path, e: nat, known: bool, flags: nat, w: World): (State, bool, nat) {
    if Joins(cfg, s, path, e, flags) then (s.(batch := s.batch.(reusePending := true)), true, s.batch.passes)
    else
      var (t, ok) := BegunFresh(cfg, if s.batch.active then Flushed(s, w) else s, path, e, known, flags, w);
      (t, ok, w.passes)
  }

  /** After a pass call inside a batch: the batch goes with its journal. */
  function Settled(t: State, ok: bool, e: nat, w: World): (State, bool) {
    if !Live(t, e) || t.journals[e].disabled then (t.(batch := NO_BATCH), ok)
    else if ok then (t, true)
    else (Flushed(t, w), false)
  }

  function BatchPassBegun(s: State, e: nat, w: World): (State, bool) {
    if !s.batch.active || s.batch.effect != Some(e) then PassBegun(s, e, w)
    else if !Live(s, e) || s.journals[e].disabled then PassBegun(s.(batch := NO_BATCH), e, w)
    else if !s.batch.reusePending then var (t, ok) := PassBegun(s, e, w); Settled(t, ok, e, w)
    else var (t, ok) := Committing(s.(batch := s.batch.(reusePending := false)), e, w); Settled(t, ok, e, w)
  }

  function BatchPassEnded(s: State, e: nat): State {
    if s.batch.active && s.batch.effect == Some(e) then s else PassEnded(s, e)
  }

  /** The End of one object: `remaining` objects of the game's loop are still to
      come, if that could be read. */
  function BatchEnded(s: State, path: Path, e: nat, remaining: Option<nat>, w: World): State {
    if !s.batch.active || s.batch.path != path || s.batch.effect != Some(e) then Ended(s, e, w)
    else if FlushNow(remaining) then Flushed(s, w)
    else s
  }

  predicate FlushNow(remaining: Option<nat>) {
    remaining == None || remaining == Some(0)
  }

  // ---- Clients ------------------------------------------------------------------------------------

  /** What a client does, one thing after the other. */
  datatype Event =
    | Technique(path: Path, effect: nat, technique: nat, world: World)
    | Draw(path: Path, effect: nat, flags: nat, passesKnown: bool, remaining: Option<nat>, world: World)

  function Passes(s: State, e: nat, n: nat, w: World): State {
    if n == 0 then s else BatchPassEnded(BatchPassBegun(Passes(s, e, n - 1, w), e, w).0, e)
  }

  /** One object: Begin, every pass that Begin announced, End. */
  function Drawn(cfg: Config, s: State, d: Event): State
    requires d.Draw?
  {
    var (t, ok, passes) := BatchBegun(cfg, s, d.path, d.effect, d.passesKnown, d.flags, d.world);
    if ok then BatchEnded(Passes(t, d.effect, passes, d.world), d.path, d.effect, d.remaining, d.world) else t
  }

  function Step(cfg: Config, s: State, event: Event): State {
    match event
    case Technique(path, e, technique, w) => TechniqueSet(cfg, s, path, e, technique, w)
    case Draw(_, _, _, _, _, _) => Drawn(cfg, s, event)
  }

  function Run(cfg: Config, s: State, events: seq<Event>): State
    decreases events
  {
    if events == [] then s else Run(cfg, Step(cfg, s, events[0]), events[1..])
  }

  // ---- What holds between calls -------------------------------------------------------------------

  /** A journal has a transaction open only while its effect is open and nothing
      in it has failed, and it knows whether the pass is open. */
  predicate JournalFits(e: nat, journal: Flags, stand: Stand) {
    journal.active ==>
      !journal.disabled && !journal.failed && stand == if journal.passActive then Passing(e) else Opened(e)
  }

  predicate At(s: State, stand: Stand) {
    s.stand == stand && forall e :: e in s.journals ==> JournalFits(e, s.journals[e], stand)
  }

  /** The open batch is the effect that is open; it has one pass, and its journal
      is at work. */
  predicate BatchFits(cfg: Config, s: State) {
    s.batch.active ==>
      cfg.batching && cfg.noSaveState && s.batch.effect.Some? && s.batch.passes == 1 && Live(s, s.batch.effect.value)
  }

  /** Between the transactions of the client: a batch keeps its pass open. */
  predicate Between(cfg: Config, s: State) {
    && BatchFits(cfg, s) && At(s, if s.batch.active then Passing(s.batch.effect.value) else Closed)
    && (s.batch.active ==> !s.batch.reusePending)
  }

  /** The framework is left open with no one to close it, or was called out of turn. */
  predicate Lost(s: State) {
    s.stand == Broken || (s.stand.Opened? && !s.batch.active)
  }

  /** Only the effect that is open can have a journal with a transaction open. */
  lemma Moves(s: State, e: nat, journal: Flags, t: State)
    requires At(s, s.stand) && (s.stand == Closed || s.stand == Opened(e) || s.stand == Passing(e))
    requires t.journals == s.journals[e := journal] && JournalFits(e, journal, t.stand)
    ensures At(t, t.stand)
  {
  }

  lemma BreaksNext(cfg: Config, s: State, path: Path, e: nat, technique: nat, w: World)
    requires Lost(s)
    ensures TechniqueSet(cfg, s, path, e, technique, w).stand == Broken
  {
  }

  // ---- One call at a time --------------------------------------------------------------------------

  /** The effect is begun inside a transaction of its journal. */
  predicate Takes(cfg: Config, s: State, e: nat, w: World) {
    && cfg.noSaveState && cfg.stateJournal && w.threadOk && w.begin.capture
    && (if e in s.journals then !s.journals[e].disabled else w.attach)
  }

  predicate Lives(cfg: Config, s: State, e: nat, w: World) {
    Takes(cfg, s, e, w) && w.begin.finish && !w.begin.fails
  }

  predicate SameBut(s: State, t: State) {
    t.batch == s.batch && t.lastTechnique == s.lastTechnique
  }

  lemma BegunWithOutcome(s: State, e: nat, w: World)
    requires At(s, Closed) && Usable(s, e)
    ensures var (t, ok) := BegunWith(s, e, w);
      && SameBut(s, t)
      && (if w.begin.finish then At(t, if ok then Opened(e) else Closed)
          else !Live(t, e) && ok == w.begin.restore && t.stand == if ok then Broken else Opened(e))
      && (Live(t, e) <==> w.begin.finish && !w.begin.fails)
      && (Live(t, e) ==> ok && !t.journals[e].disabled && t.calls == s.calls + [Begin(e)])
  {
    var (t, ok) := BegunWith(s, e, w);
    if w.begin.finish {
      Moves(s, e, t.journals[e], t);
    }
  }

  /** A Begin on a closed framework goes right unless a transaction was taken
      whose capture then does not end. */
  lemma BegunOutcome(cfg: Config, s: State, e: nat, w: World)
    requires At(s, Closed)
    ensures var (t, ok) := Begun(cfg, s, e, w);
      && SameBut(s, t)
      && (if Takes(cfg, s, e, w) && !w.begin.finish then !Live(t, e) && ok == w.begin.restore && t.stand == if ok then Broken else Opened(e)
          else At(t, if ok then Opened(e) else Closed))
      && (Live(t, e) <==> Lives(cfg, s, e, w))
      && (Live(t, e) ==> ok && !t.journals[e].disabled && t.calls == s.calls + [Begin(e)])
      && (e !in s.journals && !w.attach ==> t.journals == s.journals)
  {
    var a := Acquired(s, e, w.attach);
    Moves(s, e, Flags(false, false, false, false), s.(journals := s.journals[e := Flags(false, false, false, false)]));
    if Takes(cfg, s, e, w) {
      BegunWithOutcome(a, e, w);
    } else if Usable(a, e) && cfg.noSaveState && cfg.stateJournal {
      var t := Begun(cfg, s, e, w).0;
      Moves(a, e, t.journals[e], t);
    }
  }

  /** The pass cannot stay inside the transaction. */
  predicate PassFails(w: World) {
    !w.pass.capture || w.pass.fails || !w.pass.finish
  }

  predicate CommitFails(w: World) {
    w.direct.Failed? || (!w.direct.Committed? && PassFails(w))
  }

  lemma RestartedOutcome(s: State, e: nat, restore: bool)
    requires e in s.journals && s.journals[e].active
    requires s.stand == if s.journals[e].passActive then Passing(e) else Opened(e)
    requires forall f :: f in s.journals && f != e ==> !s.journals[f].active
    ensures var (t, ok) := Restarted(s, e, restore);
      && SameBut(s, t) && ok == restore && At(t, if ok then Passing(e) else Closed) && !Live(t, e)
  {
  }

  lemma PassBegunOutcome(s: State, e: nat, w: World)
    requires At(s, Opened(e))
    ensures var (t, ok) := PassBegun(s, e, w);
      && SameBut(s, t) && (ok <==> Live(s, e) && PassFails(w) ==> w.pass.restore)
      && At(t, if ok then Passing(e) else Closed)
      && (Live(t, e) <==> Live(s, e) && !PassFails(w))
      && (Live(t, e) || !Live(s, e) ==> t.calls == s.calls + [BeginPass(e)])
  {
    if Live(s, e) {
      var journal := s.journals[e].(passActive := true).After(w.pass.fails || !w.pass.finish);
      var passing := Put(Do(s, BeginPass(e)), e, journal);
      if !w.pass.capture {
        RestartedOutcome(s, e, w.pass.restore);
      } else if PassFails(w) {
        RestartedOutcome(passing, e, w.pass.restore);
      } else {
        Moves(s, e, journal, passing);
      }
    }
  }

  lemma CommittingOutcome(s: State, e: nat, w: World)
    requires At(s, Passing(e)) && Live(s, e)
    ensures var (t, ok) := Committing(s, e, w);
      && SameBut(s, t) && (ok <==> CommitFails(w) ==> w.pass.restore)
      && At(t, if ok then Passing(e) else Closed)
      && (Live(t, e) <==> !CommitFails(w))
      && (Live(t, e) ==> t.calls == s.calls + if w.direct.Committed? then [] else [Commit(e)])
  {
    var journal := s.journals[e].After(w.pass.fails || !w.pass.finish);
    var committed := Put(Do(s, Commit(e)), e, journal);
    if w.direct.Failed? || !w.pass.capture {
      RestartedOutcome(s, e, w.pass.restore);
    } else if PassFails(w) {
      RestartedOutcome(committed, e, w.pass.restore);
    } else {
      Moves(s, e, journal, committed);
    }
  }

  lemma PassEndedOutcome(s: State, e: nat)
    requires At(s, Passing(e))
    ensures At(PassEnded(s, e), Opened(e)) && SameBut(s, PassEnded(s, e))
    ensures Live(PassEnded(s, e), e) == Live(s, e) && PassEnded(s, e).calls == s.calls + [EndPass(e)]
  {
    if Live(s, e) {
      Moves(s, e, s.journals[e].(passActive := false), PassEnded(s, e));
    }
  }

  /** An End closes the framework unless the restore's capture does not begin. */
  lemma EndedOutcome(s: State, e: nat, w: World)
    requires At(s, Opened(e))
    ensures var t := Ended(s, e, w);
      && SameBut(s, t) && !Live(t, e)
      && (if Live(s, e) && !w.end.capture then t.stand == Opened(e) && t.calls == s.calls
          else At(t, Closed) && t.calls == s.calls + [End(e)])
  {
    if Live(s, e) && w.end.capture {
      var t := Ended(s, e, w);
      Moves(s, e, t.journals[e], t);
    }
  }

  lemma FlushedOutcome(cfg: Config, s: State, w: World)
    requires BatchFits(cfg, s) && s.batch.active && At(s, Passing(s.batch.effect.value))
    ensures var t := Flushed(s, w);
      && t.batch == NO_BATCH && t.lastTechnique == s.lastTechnique
      && (if w.end.capture then
            At(t, Closed) && t.calls == s.calls + [EndPass(s.batch.effect.value), End(s.batch.effect.value)]
          else t.stand == Opened(s.batch.effect.value))
  {
    var e, idle := s.batch.effect.value, s.(batch := NO_BATCH);
    PassEndedOutcome(idle, e);
    EndedOutcome(PassEnded(idle, e), e, w);
  }

  // ---- Broken stays broken --------------------------------------------------------------------------

  lemma CallsBroken(s: State, e: nat, w: World)
    requires s.stand == Broken
    ensures PassBegun(s, e, w).0.stand == Broken && Committing(s, e, w).0.stand == Broken
    ensures PassEnded(s, e).stand == Broken && Ended(s, e, w).stand == Broken
  {
    if Live(s, e) {
      var journal := s.journals[e].(passActive := true).After(w.pass.fails || !w.pass.finish);
      RestartedBroken(s, e, w.pass.restore);
      RestartedBroken(Put(Do(s, BeginPass(e)), e, journal), e, w.pass.restore);
      RestartedBroken(Put(Do(s, Commit(e)), e, s.journals[e].After(w.pass.fails || !w.pass.finish)), e, w.pass.restore);
    }
  }

  lemma RestartedBroken(s: State, e: nat, restore: bool)
    requires s.stand == Broken && e in s.journals
    ensures Restarted(s, e, restore).0.stand == Broken
  {
  }

  lemma FlushedBroken(s: State, w: World)
    requires s.stand == Broken
    ensures Flushed(s, w).stand == Broken
  {
    if s.batch.active && s.batch.effect.Some? {
      var e, idle := s.batch.effect.value, s.(batch := NO_BATCH);
      CallsBroken(idle, e, w);
      CallsBroken(PassEnded(idle, e), e, w);
    }
  }

  lemma SettledBroken(t: State, ok: bool, e: nat, w: World)
    requires t.stand == Broken
    ensures Settled(t, ok, e, w).0.stand == Broken
  {
    FlushedBroken(t, w);
  }

  lemma PassBroken(s: State, e: nat, w: World)
    requires s.stand == Broken
    ensures BatchPassBegun(s, e, w).0.stand == Broken
  {
    var idle, reused := s.(batch := NO_BATCH), s.(batch := s.batch.(reusePending := false));
    CallsBroken(s, e, w);
    CallsBroken(idle, e, w);
    CallsBroken(reused, e, w);
    SettledBroken(PassBegun(s, e, w).0, PassBegun(s, e, w).1, e, w);
    SettledBroken(Committing(reused, e, w).0, Committing(reused, e, w).1, e, w);
  }

  lemma PassEndBroken(s: State, e: nat, w: World)
    requires s.stand == Broken
    ensures BatchPassEnded(BatchPassBegun(s, e, w).0, e).stand == Broken
  {
    PassBroken(s, e, w);
    CallsBroken(BatchPassBegun(s, e, w).0, e, w);
  }

  lemma {:induction false} PassesBroken(s: State, e: nat, n: nat, w: World)
    requires s.stand == Broken
    ensures Passes(s, e, n, w).stand == Broken
  {
    if n > 0 {
      PassesBroken(s, e, n - 1, w);
      PassEndBroken(Passes(s, e, n - 1, w), e, w);
    }
  }

  lemma EndBroken(s: State, path: Path, e: nat, remaining: Option<nat>, w: World)
    requires s.stand == Broken
    ensures BatchEnded(s, path, e, remaining, w).stand == Broken
  {
    CallsBroken(s, e, w);
    FlushedBroken(s, w);
  }

  // ---- One object ------------------------------------------------------------------------------------

  lemma PlainPass(s: State, e: nat, w: World)
    requires At(s, Opened(e)) && !s.batch.active
    ensures var t := BatchPassEnded(BatchPassBegun(s, e, w).0, e);
      if Live(s, e) && PassFails(w) && !w.pass.restore then t.stand == Broken
      else
        && At(t, Opened(e)) && SameBut(s, t) && (Live(t, e) <==> Live(s, e) && !PassFails(w))
        && (!Live(s, e) ==> t.journals == s.journals)
  {
    PassBegunOutcome(s, e, w);
    var u := PassBegun(s, e, w).0;
    if u.stand == Passing(e) {
      PassEndedOutcome(u, e);
    }
  }

  /** The passes of an effect begun without a batch. */
  lemma {:induction false} PlainPasses(s: State, e: nat, n: nat, w: World)
    requires At(s, Opened(e)) && !s.batch.active
    ensures var t := Passes(s, e, n, w);
      if Live(s, e) && n > 0 && PassFails(w) && !w.pass.restore then t.stand == Broken
      else
        && At(t, Opened(e)) && SameBut(s, t) && (Live(t, e) <==> Live(s, e) && !(n > 0 && PassFails(w)))
        && (!Live(s, e) ==> t.journals == s.journals)
  {
    if n > 0 {
      PlainPasses(s, e, n - 1, w);
      var t := Passes(s, e, n - 1, w);
      if t.stand == Broken {
        PassEndBroken(t, e, w);
      } else {
        PlainPass(t, e, w);
      }
    }
  }

  /** An effect begun without a batch, drawn and ended. */
  lemma PlainOutcome(cfg: Config, s: State, path: Path, e: nat, n: nat, remaining: Option<nat>, w: World)
    requires At(s, Opened(e)) && !s.batch.active
    ensures var t := BatchEnded(Passes(s, e, n, w), path, e, remaining, w);
      var failing := Live(s, e) && n > 0 && PassFails(w);
      if (failing && !w.pass.restore) || (Live(s, e) && !failing && !w.end.capture) then Lost(t)
      else Between(cfg, t) && !t.batch.active && (!Live(s, e) ==> t.journals == s.journals)
  {
    PlainPasses(s, e, n, w);
    var t := Passes(s, e, n, w);
    if t.stand == Broken {
      EndBroken(t, path, e, remaining, w);
    } else {
      EndedOutcome(t, e, w);
    }
  }

  /** The batch is the effect that is open. */
  predicate BatchOf(cfg: Config, s: State, path: Path, e: nat) {
    BatchFits(cfg, s) && s.batch.active && s.batch.effect == Some(e) && s.batch.path == path && !s.journals[e].disabled
  }

  /** What follows the pass call of an object in a batch. */
  lemma BatchEndOutcome(cfg: Config, s: State, path: Path, e: nat, remaining: Option<nat>, w: World)
    requires BatchOf(cfg, s, path, e) && At(s, Passing(e)) && !s.batch.reusePending
    ensures var t := BatchEnded(BatchPassEnded(s, e), path, e, remaining, w);
      if FlushNow(remaining) && !w.end.capture then Lost(t) else Between(cfg, t)
    ensures !FlushNow(remaining) ==> BatchEnded(BatchPassEnded(s, e), path, e, remaining, w) == s
    ensures FlushNow(remaining) && w.end.capture ==>
      var t := BatchEnded(BatchPassEnded(s, e), path, e, remaining, w);
      t.calls == s.calls + [EndPass(e), End(e)] && !t.batch.active && t.lastTechnique == s.lastTechnique
  {
    FlushedOutcome(cfg, s, w);
  }

  /** A batch whose journal has gone while its pass was begun or committed. */
  lemma FallenOutcome(cfg: Config, s: State, path: Path, e: nat, remaining: Option<nat>, ok: bool, w: World)
    requires At(s, if ok then Passing(e) else Closed) && !Live(s, e) && !s.batch.active
    ensures var t := BatchEnded(BatchPassEnded(s, e), path, e, remaining, w);
      if ok then Between(cfg, t) && !t.batch.active else Lost(t)
  {
    if ok {
      PassEndedOutcome(s, e);
      EndedOutcome(PassEnded(s, e), e, w);
    } else {
      EndBroken(PassEnded(s, e), path, e, remaining, w);
    }
  }

  /** A fresh Begin will open a batch, unless its first pass fails. */
  predicate Opens(cfg: Config, s: State, d: Event)
    requires d.Draw?
  {
    && Lives(cfg, s, d.effect, d.world) && cfg.batching && d.world.passes == 1 && d.passesKnown
    && Remembered(s, d.path, d.effect).Some?
  }

  function FreshDrawn(cfg: Config, s: State, d: Event): State
    requires d.Draw?
  {
    var (t, ok) := BegunFresh(cfg, s, d.path, d.effect, d.passesKnown, d.flags, d.world);
    if ok then BatchEnded(Passes(t, d.effect, d.world.passes, d.world), d.path, d.effect, d.remaining, d.world) else t
  }

  /** The guards of the branches that go wrong, for an object begun for real: a
      capture that will not end once the effect has begun, a restore that fails
      while the pass is restarted, a capture that will not begin at the End. */
  predicate FreshSafe(cfg: Config, s: State, d: Event)
    requires d.Draw?
  {
    var w := d.world;
    var lives, failing := Lives(cfg, s, d.effect, w), w.passes > 0 && PassFails(w);
    && (Takes(cfg, s, d.effect, w) ==> w.begin.finish)
    && (lives && failing ==> w.pass.restore)
    && (lives && !failing && (Opens(cfg, s, d) ==> FlushNow(d.remaining)) ==> w.end.capture)
  }

  lemma BegunLost(cfg: Config, s: State, e: nat, w: World)
    requires s.stand.Opened? || s.stand == Broken
    ensures var (t, ok) := Begun(cfg, s, e, w);
      t.stand == Broken || (t.stand == s.stand && !ok)
  {
  }

  lemma BrokenDrawn(t: State, d: Event, n: nat)
    requires d.Draw? && t.stand == Broken
    ensures BatchEnded(Passes(t, d.effect, n, d.world), d.path, d.effect, d.remaining, d.world).stand == Broken
  {
    PassesBroken(t, d.effect, n, d.world);
    EndBroken(Passes(t, d.effect, n, d.world), d.path, d.effect, d.remaining, d.world);
  }

  lemma FreshLost(cfg: Config, s: State, d: Event)
    requires d.Draw? && !s.batch.active && (s.stand.Opened? || s.stand == Broken)
    ensures Lost(FreshDrawn(cfg, s, d))
  {
    BegunLost(cfg, s, d.effect, d.world);
    var (t, ok) := BegunFresh(cfg, s, d.path, d.effect, d.passesKnown, d.flags, d.world);
    if t.stand == Broken {
      BrokenDrawn(t, d, d.world.passes);
    }
  }

  lemma OnePass(s: State, e: nat, w: World)
    ensures Passes(s, e, 1, w) == BatchPassEnded(BatchPassBegun(s, e, w).0, e)
  {
    assert Passes(s, e, 0, w) == s;
  }

  /** The first object of a batch. */
  lemma OpeningOutcome(cfg: Config, s: State, d: Event)
    requires d.Draw? && At(s, Closed) && !s.batch.active && Opens(cfg, s, d)
    ensures if FreshSafe(cfg, s, d) then Between(cfg, FreshDrawn(cfg, s, d)) else Lost(FreshDrawn(cfg, s, d))
    ensures FreshSafe(cfg, s, d) && PassFails(d.world) ==> !FreshDrawn(cfg, s, d).batch.active
    ensures !PassFails(d.world) && !FlushNow(d.remaining) ==>
      var t := FreshDrawn(cfg, s, d);
      && t.batch == Batch(d.path, Some(d.effect), Remembered(s, d.path, d.effect), d.flags, 1, true, false)
      && t.calls == s.calls + [Begin(d.effect)] + [BeginPass(d.effect)]
      && t.lastTechnique == s.lastTechnique
    ensures !PassFails(d.world) && FlushNow(d.remaining) && d.world.end.capture ==>
      var t := FreshDrawn(cfg, s, d);
      t.calls == s.calls + [Begin(d.effect)] + [BeginPass(d.effect)] + [EndPass(d.effect), End(d.effect)] && !t.batch.active
  {
    var e, w := d.effect, d.world;
    BegunOutcome(cfg, s, e, w);
    var t := BegunFresh(cfg, s, d.path, e, d.passesKnown, d.flags, w).0;
    assert t.batch == Batch(d.path, Some(e), Remembered(s, d.path, e), d.flags, 1, true, false);
    assert At(t, Opened(e));
    OnePass(t, e, w);
    PassBegunOutcome(t, e, w);
    var (u, ok) := PassBegun(t, e, w);
    if PassFails(w) {
      FallenOutcome(cfg, u.(batch := NO_BATCH), d.path, e, d.remaining, ok, w);
    } else {
      BatchEndOutcome(cfg, u, d.path, e, d.remaining, w);
    }
  }

  lemma FreshOutcome(cfg: Config, s: State, d: Event)
    requires d.Draw? && At(s, Closed) && !s.batch.active
    ensures if FreshSafe(cfg, s, d) then Between(cfg, FreshDrawn(cfg, s, d)) else Lost(FreshDrawn(cfg, s, d))
    ensures FreshSafe(cfg, s, d) && FreshDrawn(cfg, s, d).batch.active ==> Opens(cfg, s, d) && !PassFails(d.world)
    ensures d.effect !in s.journals && !d.world.attach ==> FreshDrawn(cfg, s, d).journals == s.journals
  {
    var e, w := d.effect, d.world;
    if Opens(cfg, s, d) {
      OpeningOutcome(cfg, s, d);
    } else {
      BegunOutcome(cfg, s, e, w);
      var (t, ok) := BegunFresh(cfg, s, d.path, e, d.passesKnown, d.flags, w);
      assert t.batch == NO_BATCH;
      if t.stand == Broken {
        BrokenDrawn(t, d, w.passes);
      } else if ok {
        PlainOutcome(cfg, t, d.path, e, w.passes, d.remaining, w);
      }
    }
  }

  /** An object that joins the open batch. */
  lemma JoiningOutcome(cfg: Config, s: State, d: Event)
    requires d.Draw? && Between(cfg, s) && Joins(cfg, s, d.path, d.effect, d.flags)
    ensures var t, w := Drawn(cfg, s, d), d.world;
      if (if CommitFails(w) then w.pass.restore else FlushNow(d.remaining) ==> w.end.capture) then Between(cfg, t) else Lost(t)
    ensures !CommitFails(d.world) && !FlushNow(d.remaining) ==>
      var t := Drawn(cfg, s, d);
      && t.batch == s.batch && t.lastTechnique == s.lastTechnique
      && t.calls == s.calls + if d.world.direct.Committed? then [] else [Commit(d.effect)]
    ensures !CommitFails(d.world) && FlushNow(d.remaining) && d.world.end.capture ==>
      var t := Drawn(cfg, s, d);
      && t.calls == s.calls + (if d.world.direct.Committed? then [] else [Commit(d.effect)]) + [EndPass(d.effect), End(d.effect)]
      && !t.batch.active
  {
    var e, w := d.effect, d.world;
    var t := s.(batch := s.batch.(reusePending := true));
    assert t.(batch := t.batch.(reusePending := false)) == s;
    OnePass(t, e, w);
    CommittingOutcome(s, e, w);
    var (u, ok) := Committing(s, e, w);
    if CommitFails(w) {
      FallenOutcome(cfg, u.(batch := NO_BATCH), d.path, e, d.remaining, ok, w);
    } else {
      BatchEndOutcome(cfg, u, d.path, e, d.remaining, w);
    }
  }

  // ---- Any run of a client ---------------------------------------------------------------------------

  /** When an event goes right: the guards of the branches that fail, over what
      the bridge knows before it. */
  predicate EventSafe(cfg: Config, s: State, event: Event) {
    var w := event.world;
    match event
    case Technique(path, e, technique, _) => s.batch.active && !SameTechnique(s, path, e, technique) ==> w.end.capture
    case Draw(path, e, flags, _, remaining, _) =>
      if Joins(cfg, s, path, e, flags) then
        if CommitFails(w) then w.pass.restore else FlushNow(remaining) ==> w.end.capture
      else
        && (s.batch.active ==> w.end.capture)
        && FreshSafe(cfg, if s.batch.active then Flushed(s, w) else s, event)
  }

  lemma TechniqueOutcome(cfg: Config, s: State, path: Path, e: nat, technique: nat, w: World)
    requires Between(cfg, s)
    ensures var t := TechniqueSet(cfg, s, path, e, technique, w);
      if s.batch.active && !SameTechnique(s, path, e, technique) && !w.end.capture then Lost(t) else Between(cfg, t)
    ensures !s.batch.active ==>
      var t := TechniqueSet(cfg, s, path, e, technique, w);
      && t.calls == s.calls + [SetTechnique(e, technique)] && t.journals == s.journals && !t.batch.active
      && t.lastTechnique == s.lastTechnique[e := technique]
      && (cfg.batching && cfg.noSaveState ==> SameTechnique(t, path, e, technique))
  {
    if s.batch.active {
      FlushedOutcome(cfg, s, w);
    }
  }

  /** One event from between transactions leads between transactions again exactly
      when it is safe; otherwise the framework is lost. */
  lemma EventOutcome(cfg: Config, s: State, event: Event)
    requires Between(cfg, s)
    ensures if EventSafe(cfg, s, event) then Between(cfg, Step(cfg, s, event)) else Lost(Step(cfg, s, event))
  {
    var w := event.world;
    match event
    case Technique(path, e, technique, _) => TechniqueOutcome(cfg, s, path, e, technique, w);
    case Draw(path, e, flags, _, _, _) =>
      if Joins(cfg, s, path, e, flags) {
        JoiningOutcome(cfg, s, event);
      } else {
        var closed := if s.batch.active then Flushed(s, w) else s;
        assert Drawn(cfg, s, event) == FreshDrawn(cfg, closed, event);
        if s.batch.active {
          FlushedOutcome(cfg, s, w);
        }
        if s.batch.active && !w.end.capture {
          FreshLost(cfg, closed, event);
        } else {
          FreshOutcome(cfg, closed, event);
        }
      }
  }

  /** Every event is safe where it comes. */
  predicate RunSafe(cfg: Config, s: State, events: seq<Event>)
    decreases events
  {
    events != [] ==> EventSafe(cfg, s, events[0]) && RunSafe(cfg, Step(cfg, s, events[0]), events[1..])
  }

  /** Some beginning of the run loses the framework. */
  ghost predicate Loses(cfg: Config, s: State, events: seq<Event>) {
    exists n :: 0 <= n <= |events| && Lost(Run(cfg, s, events[..n]))
  }

  lemma RunFirst(cfg: Config, s: State, events: seq<Event>, n: nat)
    requires n < |events|
    ensures Run(cfg, s, events[..n + 1]) == Run(cfg, Step(cfg, s, events[0]), events[1..][..n])
  {
    assert events[..n + 1][1..] == events[1..][..n];
  }

  lemma LosesFirst(cfg: Config, s: State, t: State, events: seq<Event>)
    requires events != [] && t == Step(cfg, s, events[0]) && !Lost(s)
    ensures Loses(cfg, s, events) <==> Loses(cfg, t, events[1..])
  {
    if n :| 0 <= n <= |events| && Lost(Run(cfg, s, events[..n])) {
      assert n > 0 by {
        assert events[..0] == [];
      }
      RunFirst(cfg, s, events, n - 1);
    }
    if n :| 0 <= n <= |events[1..]| && Lost(Run(cfg, t, events[1..][..n])) {
      RunFirst(cfg, s, events, n);
      assert Lost(Run(cfg, s, events[..n + 1]));
    }
  }

  lemma LostLoses(cfg: Config, s: State, events: seq<Event>)
    requires Lost(s)
    ensures Loses(cfg, s, events)
  {
    assert events[..0] == [];
  }

  lemma NotBoth(cfg: Config, s: State)
    requires Between(cfg, s)
    ensures !Lost(s)
  {
  }

  /** The framework stays balanced over a run exactly when every event of it is
      safe where it comes. */
  lemma {:induction false} RunIff(cfg: Config, s: State, events: seq<Event>)
    requires Between(cfg, s)
    ensures RunSafe(cfg, s, events) <==> !Loses(cfg, s, events)
    ensures RunSafe(cfg, s, events) ==> Between(cfg, Run(cfg, s, events))
    decreases events
  {
    NotBoth(cfg, s);
    if events == [] {
      assert forall n :: 0 <= n <= |events| ==> events[..n] == events;
    } else {
      var t := Step(cfg, s, events[0]);
      EventOutcome(cfg, s, events[0]);
      LosesFirst(cfg, s, t, events);
      if EventSafe(cfg, s, events[0]) {
        RunIff(cfg, t, events[1..]);
      } else {
        LostLoses(cfg, t, events[1..]);
      }
    }
  }

  // ---- Runs in one world -----------------------------------------------------------------------------

  predicate Under(events: seq<Event>, w: World) {
    forall i :: 0 <= i < |events| ==> events[i].world == w
  }

  /** Transactions are taken in this world. */
  predicate Uses(cfg: Config, w: World) {
    cfg.noSaveState && cfg.stateJournal && w.attach && w.threadOk && w.begin.capture
  }

  /** When batching survives a world: where transactions are taken their captures
      end; where they last, either passes fail and the restores work, or the
      captures at the End begin and a batch's failing commit can be restored. */
  predicate WorldSafe(cfg: Config, w: World) {
    Uses(cfg, w) ==>
      && w.begin.finish
      && (!w.begin.fails ==>
            if w.passes > 0 && PassFails(w) then w.pass.restore
            else w.end.capture && (cfg.batching && w.passes == 1 && w.direct.Failed? ==> w.pass.restore))
  }

  /** What runs in the world can reach. */
  predicate Reached(cfg: Config, w: World, s: State) {
    && Between(cfg, s) && (!w.attach ==> s.journals == map[])
    && (s.batch.active ==> Uses(cfg, w) && w.begin.finish && !w.begin.fails && cfg.batching && w.passes == 1 && !PassFails(w))
  }

  lemma TakesUses(cfg: Config, s: State, e: nat, w: World)
    requires !w.attach ==> s.journals == map[]
    ensures Takes(cfg, s, e, w) ==> Uses(cfg, w)
  {
  }

  lemma FreshReaches(cfg: Config, w: World, s: State, d: Event)
    requires d.Draw? && d.world == w && WorldSafe(cfg, w) && At(s, Closed) && !s.batch.active
    requires !w.attach ==> s.journals == map[]
    ensures FreshSafe(cfg, s, d) && Reached(cfg, w, FreshDrawn(cfg, s, d))
  {
    TakesUses(cfg, s, d.effect, w);
    FreshOutcome(cfg, s, d);
  }

  lemma EventReaches(cfg: Config, w: World, s: State, event: Event)
    requires Reached(cfg, w, s) && WorldSafe(cfg, w) && event.world == w
    ensures EventSafe(cfg, s, event) && Reached(cfg, w, Step(cfg, s, event))
  {
    match event
    case Technique(path, e, technique, _) => TechniqueOutcome(cfg, s, path, e, technique, w);
    case Draw(path, e, flags, _, _, _) =>
      if Joins(cfg, s, path, e, flags) {
        JoiningOutcome(cfg, s, event);
      } else {
        var closed := if s.batch.active then Flushed(s, w) else s;
        assert Drawn(cfg, s, event) == FreshDrawn(cfg, closed, event);
        if s.batch.active {
          FlushedOutcome(cfg, s, w);
        }
        FreshReaches(cfg, w, closed, event);
      }
  }

  lemma {:induction false} RunReaches(cfg: Config, w: World, s: State, events: seq<Event>)
    requires WorldSafe(cfg, w) && Under(events, w) && Reached(cfg, w, s)
    ensures RunSafe(cfg, s, events)
    decreases events
  {
    if events != [] {
      EventReaches(cfg, w, s, events[0]);
      RunReaches(cfg, w, Step(cfg, s, events[0]), events[1..]);
    }
  }

  /** The client's technique, and one or two objects. */
  function Trial(w: World, remaining: Option<nat>, twice: bool): seq<Event> {
    var d := Draw(Mode2, 0, 0, true, remaining, w);
    [Technique(Mode2, 0, 0, w), d] + if twice then [d] else []
  }

  function TrialState(cfg: Config, w: World): State {
    TechniqueSet(cfg, Fresh(), Mode2, 0, 0, w)
  }

  lemma TrialRun(cfg: Config, w: World, remaining: Option<nat>, twice: bool)
    ensures var d := Draw(Mode2, 0, 0, true, remaining, w);
      var t := Drawn(cfg, TrialState(cfg, w), d);
      Run(cfg, Fresh(), Trial(w, remaining, twice)) == if twice then Drawn(cfg, t, d) else t
  {
    var d := Draw(Mode2, 0, 0, true, remaining, w);
    var rest: seq<Event> := if twice then [d] else [];
    var t := Drawn(cfg, TrialState(cfg, w), d);
    assert Trial(w, remaining, twice)[1..] == [d] + rest && ([d] + rest)[1..] == rest && [d][1..] == [];
    assert Run(cfg, t, rest) == if twice then Drawn(cfg, t, d) else t;
    assert Run(cfg, TrialState(cfg, w), [d] + rest) == Run(cfg, t, rest);
  }

  lemma CommitLoses(cfg: Config, w: World)
    requires Uses(cfg, w) && w.begin.finish && !w.begin.fails && !PassFails(w)
    requires cfg.batching && w.passes == 1 && w.direct.Failed? && !w.pass.restore
    ensures Lost(Run(cfg, Fresh(), Trial(w, Some(1), true)))
  {
    var d := Draw(Mode2, 0, 0, true, Some(1), w);
    TechniqueOutcome(cfg, Fresh(), Mode2, 0, 0, w);
    OpeningOutcome(cfg, TrialState(cfg, w), d);
    JoiningOutcome(cfg, Drawn(cfg, TrialState(cfg, w), d), d);
    TrialRun(cfg, w, Some(1), true);
  }

  /** In a world that is not safe a technique and one or two objects will do. */
  lemma SomeRunLoses(cfg: Config, w: World) returns (events: seq<Event>)
    requires !WorldSafe(cfg, w)
    ensures Under(events, w) && Lost(Run(cfg, Fresh(), events))
  {
    var failing := w.passes > 0 && PassFails(w);
    if w.begin.finish && (if failing then w.pass.restore else w.end.capture) {
      CommitLoses(cfg, w);
      events := Trial(w, Some(1), true);
    } else {
      TechniqueOutcome(cfg, Fresh(), Mode2, 0, 0, w);
      FreshOutcome(cfg, TrialState(cfg, w), Draw(Mode2, 0, 0, true, None, w));
      TrialRun(cfg, w, None, false);
      events := Trial(w, None, false);
    }
  }

  /** No run in a world loses the framework exactly when the world is safe. */
  lemma SurvivesIff(cfg: Config, w: World)
    ensures (forall events :: Under(events, w) ==> !Loses(cfg, Fresh(), events)) <==> WorldSafe(cfg, w)
  {
    if WorldSafe(cfg, w) {
      forall events | Under(events, w) ensures !Loses(cfg, Fresh(), events) {
        RunReaches(cfg, w, Fresh(), events);
        RunIff(cfg, Fresh(), events);
      }
    } else {
      var events := SomeRunLoses(cfg, w);
      assert events[..|events|] == events;
    }
  }

  // ---- Which technique is drawn -----------------------------------------------------------------------

  /** The technique that the framework was last told to use for an effect. */
  function TechniqueOf(calls: seq<Call>, e: nat): Option<nat> {
    if calls == [] then None
    else
      var last := calls[|calls| - 1];
      if last.SetTechnique? && last.effect == e then Some(last.technique) else TechniqueOf(calls[..|calls| - 1], e)
  }

  /** The technique that the client last asked for an effect. */
  function Asked(events: seq<Event>, e: nat): Option<nat> {
    if events == [] then None
    else
      var last := events[|events| - 1];
      if last.Technique? && last.effect == e then Some(last.technique) else Asked(events[..|events| - 1], e)
  }

  /** The same, counting what the framework had been told before. */
  function AskedSince(calls: seq<Call>, events: seq<Event>, e: nat): Option<nat> {
    if Asked(events, e).Some? then Asked(events, e) else TechniqueOf(calls, e)
  }

  predicate Drawing(call: Call) {
    call.Begin? || call.BeginPass? || call.Commit?
  }

  /** A call that belongs in the drawing of an effect. */
  predicate Own(call: Call, e: nat) {
    !call.SetTechnique? && (Drawing(call) ==> call.effect == e)
  }

  /** What is remembered of techniques is what the framework has been told. */
  ghost predicate Remembering(cfg: Config, s: State) {
    && (forall e :: TechniqueOf(s.calls, e) == if e in s.lastTechnique then Some(s.lastTechnique[e]) else None)
    && (s.batch.active ==> s.batch.effect.Some? && s.batch.technique.Some?)
    && (cfg.batching && cfg.noSaveState && s.batch.effect.Some? && s.batch.technique.Some? ==>
          TechniqueOf(s.calls, s.batch.effect.value) == s.batch.technique)
  }

  /** The batch knows no technique but those known before. */
  predicate KnownBatch(s: State, b: Batch) {
    && (b.active ==> b.effect.Some? && (b.technique.Some? || (s.batch.active && s.batch.technique.None?)))
    && (b.effect.Some? && b.technique.Some? ==>
          || (b.effect == s.batch.effect && b.technique == s.batch.technique)
          || (b.effect.value in s.lastTechnique && b.technique == Some(s.lastTechnique[b.effect.value])))
  }

  /** From one state to another while an effect is drawn. */
  predicate Draws(s: State, t: State, e: nat) {
    && t.lastTechnique == s.lastTechnique && s.calls <= t.calls && (s.batch.active ==> s.batch.effect.Some?)
    && (forall n :: |s.calls| <= n < |t.calls| ==> Own(t.calls[n], e)) && KnownBatch(s, t.batch)
  }

  lemma DoDraws(s: State, t: State, call: Call, e: nat)
    requires Draws(s, t, e) && Own(call, e)
    ensures Draws(s, Do(t, call), e)
  {
  }

  /** Journals do not matter to what is drawn. */
  lemma PutDraws(s: State, t: State, f: nat, journal: Flags, e: nat)
    requires Draws(s, t, e)
    ensures Draws(s, Put(t, f, journal), e)
  {
  }

  lemma BatchDraws(s: State, t: State, batch: Batch, e: nat)
    requires Draws(s, t, e) && (batch == NO_BATCH || batch == t.batch.(reusePending := batch.reusePending))
    ensures Draws(s, t.(batch := batch), e)
  {
  }

  lemma BegunWithDraws(s: State, a: State, e: nat, w: World, t: State)
    requires Draws(s, a, e) && e in a.journals && t == BegunWith(a, e, w).0
    ensures Draws(s, t, e) && t.batch == a.batch
  {
    DoDraws(s, a, Begin(e), e);
    var begun := Do(a, Begin(e));
    DoDraws(s, begun, End(e), e);
    DoDraws(s, t, Begin(e), e);
    var journal := a.journals[e].Began().After(w.begin.fails || !w.begin.finish);
    PutDraws(s, begun, e, journal, e);
    var ended := if w.begin.finish then Do(begun, End(e)) else begun;
    PutDraws(s, ended, e, journal.Retired(w.begin.restore), e);
    DoDraws(s, Put(ended, e, journal.Retired(w.begin.restore)), Begin(e), e);
  }

  lemma BegunDraws(cfg: Config, s: State, a: State, e: nat, w: World, t: State)
    requires Draws(s, a, e) && t == Begun(cfg, a, e, w).0
    ensures Draws(s, t, e) && t.batch == a.batch
  {
    var b := Acquired(a, e, w.attach);
    PutDraws(s, a, e, Flags(false, false, false, false), e);
    DoDraws(s, a, Begin(e), e);
    DoDraws(s, b, Begin(e), e);
    if e in b.journals {
      var off := Put(b, e, b.journals[e].(disabled := true));
      var gone := Put(b, e, b.journals[e].Began().Retired(w.begin.restore));
      PutDraws(s, b, e, b.journals[e].(disabled := true), e);
      PutDraws(s, b, e, b.journals[e].Began().Retired(w.begin.restore), e);
      DoDraws(s, off, Begin(e), e);
      DoDraws(s, gone, Begin(e), e);
      BegunWithDraws(s, b, e, w, BegunWith(b, e, w).0);
    }
  }

  lemma RestartedDraws(s: State, a: State, e: nat, restore: bool, t: State)
    requires Draws(s, a, e) && e in a.journals && t == Restarted(a, e, restore).0
    ensures Draws(s, t, e)
  {
    DoDraws(s, a, EndPass(e), e);
    var open := if a.journals[e].passActive then Do(a, EndPass(e)) else a;
    DoDraws(s, open, End(e), e);
    var closed := Put(Do(open, End(e)), e, a.journals[e].Retired(restore));
    DoDraws(s, closed, Begin(e), e);
    DoDraws(s, Do(closed, Begin(e)), BeginPass(e), e);
  }

  lemma PassBegunDraws(s: State, a: State, e: nat, w: World, t: State)
    requires Draws(s, a, e) && t == PassBegun(a, e, w).0
    ensures Draws(s, t, e)
  {
    DoDraws(s, a, BeginPass(e), e);
    if Live(a, e) {
      var journal := a.journals[e].(passActive := true).After(w.pass.fails || !w.pass.finish);
      var passing := Put(Do(a, BeginPass(e)), e, journal);
      PutDraws(s, Do(a, BeginPass(e)), e, journal, e);
      RestartedDraws(s, a, e, w.pass.restore, Restarted(a, e, w.pass.restore).0);
      RestartedDraws(s, passing, e, w.pass.restore, Restarted(passing, e, w.pass.restore).0);
    }
  }

  lemma CommittingDraws(s: State, a: State, e: nat, w: World, t: State)
    requires Draws(s, a, e) && t == Committing(a, e, w).0
    ensures Draws(s, t, e)
  {
    DoDraws(s, a, Commit(e), e);
    if Live(a, e) {
      var journal := a.journals[e].After(w.pass.fails || !w.pass.finish);
      var committed := Put(Do(a, Commit(e)), e, journal);
      PutDraws(s, Do(a, Commit(e)), e, journal, e);
      RestartedDraws(s, a, e, w.pass.restore, Restarted(a, e, w.pass.restore).0);
      RestartedDraws(s, committed, e, w.pass.restore, Restarted(committed, e, w.pass.restore).0);
    }
  }

  lemma PassEndedDraws(s: State, a: State, f: nat, e: nat, t: State)
    requires Draws(s, a, e) && t == PassEnded(a, f)
    ensures Draws(s, t, e) && t.batch == a.batch
  {
    DoDraws(s, a, EndPass(f), e);
  }

  lemma EndedDraws(s: State, a: State, f: nat, e: nat, w: World, t: State)
    requires Draws(s, a, e) && t == Ended(a, f, w)
    ensures Draws(s, t, e) && t.batch == a.batch
  {
    DoDraws(s, a, End(f), e);
  }

  lemma FlushedDraws(s: State, a: State, e: nat, w: World, t: State)
    requires Draws(s, a, e) && t == Flushed(a, w)
    ensures Draws(s, t, e) && t.batch == NO_BATCH
  {
    var idle := a.(batch := NO_BATCH);
    BatchDraws(s, a, NO_BATCH, e);
    if a.batch.active && a.batch.effect.Some? {
      var f := a.batch.effect.value;
      PassEndedDraws(s, idle, f, e, PassEnded(idle, f));
      var u := if f !in a.journals || a.journals[f].passActive then PassEnded(idle, f) else idle;
      EndedDraws(s, u, f, e, w, t);
    }
  }

  lemma SettledDraws(s: State, a: State, ok: bool, e: nat, w: World, t: State)
    requires Draws(s, a, e) && t == Settled(a, ok, e, w).0
    ensures Draws(s, t, e)
  {
    FlushedDraws(s, a, e, w, Flushed(a, w));
    BatchDraws(s, a, NO_BATCH, e);
  }

  lemma PassDraws(s: State, a: State, e: nat, w: World, t: State)
    requires Draws(s, a, e) && t == BatchPassBegun(a, e, w).0
    ensures Draws(s, t, e)
  {
    if !a.batch.active || a.batch.effect != Some(e) {
      PassBegunDraws(s, a, e, w, t);
    } else if !Live(a, e) || a.journals[e].disabled {
      BatchDraws(s, a, NO_BATCH, e);
      PassBegunDraws(s, a.(batch := NO_BATCH), e, w, t);
    } else if !a.batch.reusePending {
      var (u, ok) := PassBegun(a, e, w);
      PassBegunDraws(s, a, e, w, u);
      SettledDraws(s, u, ok, e, w, t);
    } else {
      var used := a.batch.(reusePending := false);
      BatchDraws(s, a, used, e);
      var (u, ok) := Committing(a.(batch := used), e, w);
      CommittingDraws(s, a.(batch := used), e, w, u);
      SettledDraws(s, u, ok, e, w, t);
    }
  }

  lemma {:induction false} PassesDraw(s: State, a: State, e: nat, n: nat, w: World, t: State)
    requires Draws(s, a, e) && t == Passes(a, e, n, w)
    ensures Draws(s, t, e)
  {
    if n > 0 {
      var before := Passes(a, e, n - 1, w);
      PassesDraw(s, a, e, n - 1, w, before);
      var begun := BatchPassBegun(before, e, w).0;
      PassDraws(s, before, e, w, begun);
      PassEndedDraws(s, begun, e, e, PassEnded(begun, e));
    }
  }

  lemma BatchEndedDraws(s: State, a: State, path: Path, e: nat, remaining: Option<nat>, w: World, t: State)
    requires Draws(s, a, e) && t == BatchEnded(a, path, e, remaining, w)
    ensures Draws(s, t, e)
  {
    EndedDraws(s, a, e, e, w, Ended(a, e, w));
    FlushedDraws(s, a, e, w, Flushed(a, w));
  }

  lemma FreshDraws(cfg: Config, s: State, a: State, path: Path, e: nat, known: bool, flags: nat, w: World, t: State)
    requires Draws(s, a, e) && t == BegunFresh(cfg, a, path, e, known, flags, w).0
    ensures Draws(s, t, e)
  {
    var begun := Begun(cfg, a, e, w).0;
    BegunDraws(cfg, s, a, e, w, begun);
    assert t == begun.(batch := t.batch);
    assert t.batch.active ==> t.batch.effect == Some(e) && t.batch.technique == Remembered(a, path, e) && t.batch.technique.Some?;
    assert !t.batch.active ==> t.batch == NO_BATCH;
  }

  lemma BatchBegunDraws(cfg: Config, s: State, d: Event, t: State)
    requires d.Draw? && Draws(s, s, d.effect) && t == BatchBegun(cfg, s, d.path, d.effect, d.passesKnown, d.flags, d.world).0
    ensures Draws(s, t, d.effect)
  {
    if Joins(cfg, s, d.path, d.effect, d.flags) {
      BatchDraws(s, s, s.batch.(reusePending := true), d.effect);
    } else {
      var closed := if s.batch.active then Flushed(s, d.world) else s;
      FlushedDraws(s, s, d.effect, d.world, Flushed(s, d.world));
      FreshDraws(cfg, s, closed, d.path, d.effect, d.passesKnown, d.flags, d.world, t);
    }
  }

  /** Drawing an object makes calls for its effect alone, and names no technique. */
  lemma DrawnDraws(cfg: Config, s: State, d: Event, t: State)
    requires d.Draw? && Draws(s, s, d.effect) && t == Drawn(cfg, s, d)
    ensures Draws(s, t, d.effect)
  {
    var (begun, ok, passes) := BatchBegun(cfg, s, d.path, d.effect, d.passesKnown, d.flags, d.world);
    BatchBegunDraws(cfg, s, d, begun);
    if ok {
      var drawn := Passes(begun, d.effect, passes, d.world);
      PassesDraw(s, begun, d.effect, passes, d.world, drawn);
      BatchEndedDraws(s, drawn, d.path, d.effect, d.remaining, d.world, t);
    }
  }

  lemma TechniqueNext(calls: seq<Call>, call: Call, e: nat)
    ensures TechniqueOf(calls + [call], e)
         == if call.SetTechnique? && call.effect == e then Some(call.technique) else TechniqueOf(calls, e)
  {
    assert (calls + [call])[..|calls|] == calls;
  }

  lemma {:induction false} QuietTechnique(before: seq<Call>, calls: seq<Call>, n: nat, e: nat)
    requires |before| <= n <= |calls| && before <= calls
    requires forall i :: |before| <= i < n ==> !calls[i].SetTechnique?
    ensures TechniqueOf(calls[..n], e) == TechniqueOf(before, e)
    decreases n
  {
    if n == |before| {
      assert calls[..n] == before;
    } else {
      QuietTechnique(before, calls, n - 1, e);
      assert calls[..n] == calls[..n - 1] + [calls[n - 1]];
      TechniqueNext(calls[..n - 1], calls[n - 1], e);
    }
  }

  lemma QuietAll(s: State, t: State, e: nat, f: nat)
    requires Draws(s, t, e)
    ensures TechniqueOf(t.calls, f) == TechniqueOf(s.calls, f)
  {
    assert t.calls[..|t.calls|] == t.calls;
    QuietTechnique(s.calls, t.calls, |t.calls|, f);
  }

  lemma DrawnRemembers(cfg: Config, s: State, t: State, e: nat)
    requires Remembering(cfg, s) && Draws(s, t, e)
    ensures Remembering(cfg, t)
  {
    forall f ensures TechniqueOf(t.calls, f) == TechniqueOf(s.calls, f) {
      QuietAll(s, t, e, f);
    }
  }

  /** The technique of an effect in use on the path of the open batch. */
  predicate InUse(cfg: Config, s: State, path: Path, e: nat, technique: nat) {
    && cfg.batching && cfg.noSaveState && s.batch.active && s.batch.path == path && s.batch.effect == Some(e)
    && TechniqueOf(s.calls, e) == Some(technique)
  }

  lemma NamedNames(s: State, e: nat, technique: nat, f: nat)
    ensures TechniqueOf(Named(s, e, technique).calls, f) == if f == e then Some(technique) else TechniqueOf(s.calls, f)
    ensures Named(s, e, technique).calls == s.calls + [SetTechnique(e, technique)]
    ensures Named(s, e, technique).batch == s.batch && Named(s, e, technique).lastTechnique == s.lastTechnique[e := technique]
  {
    TechniqueNext(s.calls, SetTechnique(e, technique), f);
  }

  /** A technique that is asked for is the one in use from then on, and it costs no
      call exactly when it is in use already. */
  lemma TechniqueNames(cfg: Config, s: State, path: Path, e: nat, technique: nat, w: World, t: State)
    requires Remembering(cfg, s) && t == TechniqueSet(cfg, s, path, e, technique, w)
    ensures Remembering(cfg, t)
    ensures forall f :: TechniqueOf(t.calls, f) == if f == e then Some(technique) else TechniqueOf(s.calls, f)
    ensures s.calls <= t.calls && forall n :: |s.calls| <= n < |t.calls| ==> !Drawing(t.calls[n])
    ensures t.calls == s.calls <==> InUse(cfg, s, path, e, technique)
  {
    if !(cfg.batching && cfg.noSaveState) {
      forall f { NamedNames(s, e, technique, f); }
    } else if !(s.batch.active && SameTechnique(s, path, e, technique)) {
      var closed := if s.batch.active then Flushed(s, w) else s;
      FlushedQuiet(s, w);
      forall f ensures TechniqueOf(closed.calls, f) == TechniqueOf(s.calls, f) {
        if s.batch.active { QuietAll(s, closed, 0, f); }
      }
      var ready := closed.(batch := closed.batch.(path := path, effect := Some(e), technique := Some(technique)));
      assert t == Named(ready, e, technique);
      forall f { NamedNames(ready, e, technique, f); }
    }
  }

  lemma FlushedQuiet(s: State, w: World)
    requires s.batch.active ==> s.batch.effect.Some? && s.batch.technique.Some?
    ensures var t := Flushed(s, w);
      Draws(s, t, 0) && t.batch == NO_BATCH && forall n :: |s.calls| <= n < |t.calls| ==> !Drawing(t.calls[n])
  {
    FlushedDraws(s, s, 0, w, Flushed(s, w));
    FlushedDraws(s, s, 1, w, Flushed(s, w));
  }

  /** What one event does to the techniques and the calls. */
  lemma StepNames(cfg: Config, s: State, event: Event, t: State)
    requires Remembering(cfg, s) && t == Step(cfg, s, event)
    ensures Remembering(cfg, t) && s.calls <= t.calls
    ensures forall f ::
      TechniqueOf(t.calls, f) == (if event.Technique? && event.effect == f then Some(event.technique) else TechniqueOf(s.calls, f))
    ensures forall n :: |s.calls| <= n < |t.calls| && Drawing(t.calls[n]) ==>
      event.Draw? && t.calls[n].effect == event.effect && TechniqueOf(t.calls[..n], event.effect) == TechniqueOf(s.calls, event.effect)
  {
    match event
    case Technique(path, e, technique, w) => TechniqueNames(cfg, s, path, e, technique, w, t);
    case Draw(_, e, _, _, _, _) =>
      DrawnDraws(cfg, s, event, t);
      DrawnRemembers(cfg, s, t, e);
      forall f ensures TechniqueOf(t.calls, f) == TechniqueOf(s.calls, f) {
        QuietAll(s, t, e, f);
      }
      forall n | |s.calls| <= n < |t.calls| ensures TechniqueOf(t.calls[..n], e) == TechniqueOf(s.calls, e) {
        QuietTechnique(s.calls, t.calls, n, e);
      }
  }

  lemma {:induction false} RunLast(cfg: Config, s: State, init: seq<Event>, last: Event)
    ensures Run(cfg, s, init + [last]) == Step(cfg, Run(cfg, s, init), last)
    decreases |init|
  {
    if init == [] {
      assert init + [last] == [last] && [last][1..] == [];
    } else {
      assert (init + [last])[1..] == init[1..] + [last];
      RunLast(cfg, Step(cfg, s, init[0]), init[1..], last);
    }
  }

  lemma AskedNext(calls: seq<Call>, init: seq<Event>, last: Event, f: nat)
    ensures AskedSince(calls, init + [last], f)
         == if last.Technique? && last.effect == f then Some(last.technique) else AskedSince(calls, init, f)
  {
    assert (init + [last])[..|init|] == init;
  }

  /** Call `n` was made while event `i` was handled, and draws that event's effect
      with the technique the client had last asked for it. */
  predicate DrawnIn(cfg: Config, s: State, events: seq<Event>, n: nat, i: nat)
    requires n < |Run(cfg, s, events).calls|
  {
    var calls := Run(cfg, s, events).calls;
    && i < |events| && events[i].Draw? && Drawing(calls[n]) && calls[n].effect == events[i].effect
    && |Run(cfg, s, events[..i]).calls| <= n < |Run(cfg, s, events[..i + 1]).calls|
    && TechniqueOf(calls[..n], events[i].effect) == AskedSince(s.calls, events[..i], events[i].effect)
  }

  /** The framework knows each effect by the technique that the client last asked for
      it, and every Begin, BeginPass and Commit belongs to an object of its effect
      and comes under the technique asked for by then. */
  ghost predicate RightlyNamed(cfg: Config, s: State, events: seq<Event>, t: State)
    requires t == Run(cfg, s, events)
  {
    && s.calls <= t.calls && Remembering(cfg, t)
    && (forall f :: TechniqueOf(t.calls, f) == AskedSince(s.calls, events, f))
    && (forall n: nat :: |s.calls| <= n < |t.calls| && Drawing(t.calls[n]) ==> exists i: nat :: DrawnIn(cfg, s, events, n, i))
  }

  /** And so in any run, safe or not. */
  lemma {:induction false} RunNames(cfg: Config, s: State, events: seq<Event>, t: State)
    requires Remembering(cfg, s) && t == Run(cfg, s, events)
    ensures RightlyNamed(cfg, s, events, t)
    decreases |events|
  {
    if events != [] {
      var init, last := events[..|events| - 1], events[|events| - 1];
      assert events == init + [last];
      var mid := Run(cfg, s, init);
      RunNames(cfg, s, init, mid);
      RunLast(cfg, s, init, last);
      NamesNext(cfg, s, init, last, mid, t);
    }
  }

  lemma NamesNext(cfg: Config, s: State, init: seq<Event>, last: Event, mid: State, t: State)
    requires mid == Run(cfg, s, init) && RightlyNamed(cfg, s, init, mid)
    requires t == Step(cfg, mid, last) && t == Run(cfg, s, init + [last])
    ensures RightlyNamed(cfg, s, init + [last], t)
  {
    StepNames(cfg, mid, last, t);
    forall f ensures TechniqueOf(t.calls, f) == AskedSince(s.calls, init + [last], f) {
      AskedNext(s.calls, init, last, f);
    }
    forall n: nat | |s.calls| <= n < |t.calls| && Drawing(t.calls[n])
      ensures exists i: nat :: DrawnIn(cfg, s, init + [last], n, i)
    {
      DrawnLater(cfg, s, init, last, init + [last], n, mid, t);
    }
  }

  lemma DrawnLater(cfg: Config, s: State, init: seq<Event>, last: Event, events: seq<Event>, n: nat, mid: State, t: State)
    requires events == init + [last] && mid == Run(cfg, s, init) && t == Run(cfg, s, events)
    requires mid.calls <= t.calls && |s.calls| <= n < |t.calls| && Drawing(t.calls[n])
    requires n < |mid.calls| ==> exists i: nat :: DrawnIn(cfg, s, init, n, i)
    requires n >= |mid.calls| ==>
      last.Draw? && t.calls[n].effect == last.effect
      && TechniqueOf(t.calls[..n], last.effect) == AskedSince(s.calls, init, last.effect)
    ensures exists i: nat :: DrawnIn(cfg, s, events, n, i)
  {
    assert events[..|init|] == init && events[..|events|] == events;
    if n < |mid.calls| {
      var i: nat :| DrawnIn(cfg, s, init, n, i);
      assert events[..i] == init[..i] && events[..i + 1] == init[..i + 1] && t.calls[..n] == mid.calls[..n];
      assert DrawnIn(cfg, s, events, n, i);
    } else {
      assert DrawnIn(cfg, s, events, n, |init|);
    }
  }

  // ---- What batching does not survive -----------------------------------------------------------------

  /** A capture that does not begin when an effect is to end: the framework is left
      open, and the next Begin is out of turn. */
  lemma EndLeavesOpen(s: State, e: nat, f: nat, w: World)
    requires At(s, Opened(e))
    ensures Live(s, e) && !w.end.capture <==> Next(Ended(s, e, w).stand, Begin(f)) == Broken
  {
    EndedOutcome(s, e, w);
  }

  /** A capture that does not end when an effect has begun: the effect is begun
      twice, or left open by a Begin that reports failure. */
  lemma BeginTwice(cfg: Config, s: State, e: nat, w: World)
    requires At(s, Closed)
    ensures var (t, ok) := Begun(cfg, s, e, w);
      Takes(cfg, s, e, w) && !w.begin.finish <==> t.stand != if ok then Opened(e) else Closed
  {
    BegunOutcome(cfg, s, e, w);
  }

  /** A restore that fails while a pass is restarted: the framework is closed, and
      the calls the client still owes are out of turn. */
  lemma EndTwice(s: State, e: nat, w: World)
    requires At(s, Opened(e))
    ensures Live(s, e) && PassFails(w) && !w.pass.restore <==> PassEnded(PassBegun(s, e, w).0, e).stand == Broken
  {
    PassBegunOutcome(s, e, w);
    var t := PassBegun(s, e, w).0;
    if t.stand == Passing(e) {
      PassEndedOutcome(t, e);
    }
  }

  // ---- A loop without failures --------------------------------------------------------------------------

  /** Nothing fails, and the effect has one pass. */
  predicate Calm(w: World) {
    && w.attach && w.threadOk && w.passes == 1 && w.direct == NotTried
    && w.begin == w.pass == w.end == Outcome(true, true, false, true)
  }

  function Commits(e: nat, n: nat): seq<Call> {
    if n == 0 then [] else [Commit(e)] + Commits(e, n - 1)
  }

  /** The loop over n objects: each sets the technique and is drawn. */
  function Loop(path: Path, e: nat, technique: nat, flags: nat, n: nat, w: World): seq<Event> {
    if n == 0 then []
    else
      [Technique(path, e, technique, w), Draw(path, e, flags, true, Some(n - 1), w)] + Loop(path, e, technique, flags, n - 1, w)
  }

  lemma LoopStep(cfg: Config, s: State, path: Path, e: nat, technique: nat, flags: nat, n: nat, w: World)
    requires n > 0
    ensures var d := Draw(path, e, flags, true, Some(n - 1), w);
      Run(cfg, s, Loop(path, e, technique, flags, n, w))
      == Run(cfg, Drawn(cfg, TechniqueSet(cfg, s, path, e, technique, w), d), Loop(path, e, technique, flags, n - 1, w))
  {
    var d, t := Draw(path, e, flags, true, Some(n - 1), w), Technique(path, e, technique, w);
    var rest := Loop(path, e, technique, flags, n - 1, w);
    assert ([t, d] + rest)[1..] == [d] + rest && ([d] + rest)[1..] == rest;
    var u := Step(cfg, s, t);
    assert Run(cfg, u, [d] + rest) == Run(cfg, Step(cfg, u, d), rest);
  }

  predicate OpenBatch(cfg: Config, s: State, path: Path, e: nat, technique: nat, flags: nat) {
    Between(cfg, s) && s.batch == Batch(path, Some(e), Some(technique), flags, 1, true, false)
  }

  lemma JoinCalm(cfg: Config, s: State, path: Path, e: nat, technique: nat, flags: nat, n: nat, w: World)
    requires n > 0 && Calm(w) && OpenBatch(cfg, s, path, e, technique, flags)
    ensures TechniqueSet(cfg, s, path, e, technique, w) == s
    ensures var t := Drawn(cfg, s, Draw(path, e, flags, true, Some(n - 1), w));
      && (n > 1 ==> OpenBatch(cfg, t, path, e, technique, flags) && t.calls == s.calls + [Commit(e)])
      && (n == 1 ==> Between(cfg, t) && !t.batch.active && t.calls == s.calls + [Commit(e)] + [EndPass(e), End(e)])
  {
    JoiningOutcome(cfg, s, Draw(path, e, flags, true, Some(n - 1), w));
  }

  lemma CommitsNext(calls: seq<Call>, e: nat, n: nat)
    requires n > 0
    ensures calls + [Commit(e)] + Commits(e, n - 1) == calls + Commits(e, n)
  {
  }

  /** The rest of a loop, with the batch open. */
  lemma {:induction false} RestOfLoop(cfg: Config, s: State, path: Path, e: nat, technique: nat, flags: nat, n: nat, w: World, t: State)
    requires n > 0 && Calm(w) && OpenBatch(cfg, s, path, e, technique, flags)
    requires t == Run(cfg, s, Loop(path, e, technique, flags, n, w))
    ensures Between(cfg, t) && !t.batch.active && t.calls == s.calls + Commits(e, n) + [EndPass(e), End(e)]
    decreases n
  {
    LoopStep(cfg, s, path, e, technique, flags, n, w);
    JoinCalm(cfg, s, path, e, technique, flags, n, w);
    CommitsNext(s.calls, e, n);
    var u := Drawn(cfg, s, Draw(path, e, flags, true, Some(n - 1), w));
    if n > 1 {
      RestOfLoop(cfg, u, path, e, technique, flags, n - 1, w, t);
    } else {
      LoopDone(cfg, u, path, e, technique, flags, w);
    }
  }

  lemma LoopDone(cfg: Config, s: State, path: Path, e: nat, technique: nat, flags: nat, w: World)
    ensures Run(cfg, s, Loop(path, e, technique, flags, 0, w)) == s
    ensures Commits(e, 0) == []
  {
  }

  function Opening(e: nat, technique: nat): seq<Call> {
    [SetTechnique(e, technique), Begin(e), BeginPass(e)]
  }

  lemma OpenCalm(cfg: Config, s: State, path: Path, e: nat, technique: nat, flags: nat, n: nat, w: World)
    requires n > 0 && Calm(w) && Between(cfg, s) && !s.batch.active
    requires cfg == Config(true, true, true) && (e in s.journals ==> !s.journals[e].disabled)
    ensures var t := Drawn(cfg, TechniqueSet(cfg, s, path, e, technique, w), Draw(path, e, flags, true, Some(n - 1), w));
      && (n > 1 ==> OpenBatch(cfg, t, path, e, technique, flags) && t.calls == s.calls + Opening(e, technique))
      && (n == 1 ==> Between(cfg, t) && !t.batch.active && t.calls == s.calls + Opening(e, technique) + [EndPass(e), End(e)])
  {
    TechniqueOutcome(cfg, s, path, e, technique, w);
    OpeningOutcome(cfg, TechniqueSet(cfg, s, path, e, technique, w), Draw(path, e, flags, true, Some(n - 1), w));
    assert s.calls + [SetTechnique(e, technique)] + [Begin(e)] + [BeginPass(e)] == s.calls + Opening(e, technique);
  }

  /** The first object of a loop. */
  lemma FirstOfLoop(cfg: Config, s: State, path: Path, e: nat, technique: nat, flags: nat, n: nat, w: World) returns (u: State)
    requires n > 0 && Calm(w) && Between(cfg, s) && !s.batch.active
    requires cfg == Config(true, true, true) && (e in s.journals ==> !s.journals[e].disabled)
    ensures Run(cfg, s, Loop(path, e, technique, flags, n, w)) == Run(cfg, u, Loop(path, e, technique, flags, n - 1, w))
    ensures n > 1 ==> OpenBatch(cfg, u, path, e, technique, flags) && u.calls == s.calls + Opening(e, technique)
    ensures n == 1 ==> Between(cfg, u) && !u.batch.active && u.calls == s.calls + Opening(e, technique) + [EndPass(e), End(e)]
  {
    LoopStep(cfg, s, path, e, technique, flags, n, w);
    OpenCalm(cfg, s, path, e, technique, flags, n, w);
    u := Drawn(cfg, TechniqueSet(cfg, s, path, e, technique, w), Draw(path, e, flags, true, Some(n - 1), w));
  }

  /** A loop over n objects of one effect and technique enters the framework once:
      one Begin, one BeginPass, a commit for each object after the first, one
      EndPass and one End. */
  lemma DrawLoop(cfg: Config, s: State, path: Path, e: nat, technique: nat, flags: nat, n: nat, w: World, t: State)
    requires n > 0 && Calm(w) && Between(cfg, s) && !s.batch.active
    requires cfg == Config(true, true, true) && (e in s.journals ==> !s.journals[e].disabled)
    requires t == Run(cfg, s, Loop(path, e, technique, flags, n, w))
    ensures Between(cfg, t) && !t.batch.active
    ensures t.calls == s.calls + Opening(e, technique) + Commits(e, n - 1) + [EndPass(e), End(e)]
  {
    var u := FirstOfLoop(cfg, s, path, e, technique, flags, n, w);
    if n > 1 {
      RestOfLoop(cfg, u, path, e, technique, flags, n - 1, w, t);
    } else {
      LoopDone(cfg, u, path, e, technique, flags, w);
      assert s.calls + Opening(e, technique) + [] == s.calls + Opening(e, technique);
    }
  }

  // ---- The code ------------------------------------------------------------------------------------------

  lemma FlushedGrows(s: State, w: World)
    ensures s.calls <= Flushed(s, w).calls
  {
  }

  /** A Begin that reports success has made a call. */
  lemma BegunGrows(cfg: Config, s: State, e: nat, w: World)
    ensures s.calls <= Begun(cfg, s, e, w).0.calls
    ensures Begun(cfg, s, e, w).1 ==> s.calls < Begun(cfg, s, e, w).0.calls
  {
  }

  lemma FreshGrows(cfg: Config, s: State, path: Path, e: nat, known: bool, flags: nat, w: World)
    ensures BegunFresh(cfg, s, path, e, known, flags, w).1 ==> s.calls < BegunFresh(cfg, s, path, e, known, flags, w).0.calls
  {
    BegunGrows(cfg, s, e, w);
  }

  /** An object costs no Begin exactly when it joins: batching is on and saving of
      state is off, and the open batch is of this effect on this path with these
      flags, in a transaction that is still alive. */
  lemma SilentIff(cfg: Config, s: State, path: Path, e: nat, known: bool, flags: nat, w: World, r: (State, bool, nat))
    requires r == BatchBegun(cfg, s, path, e, known, flags, w)
    ensures r.1 && r.0.calls == s.calls <==>
      && s.batch.active && cfg.batching && cfg.noSaveState
      && s.batch.path == path && s.batch.effect == Some(e) && s.batch.flags == flags
      && e in s.journals && s.journals[e].active && !s.journals[e].disabled
  {
    if !Joins(cfg, s, path, e, flags) {
      FlushedGrows(s, w);
      FreshGrows(cfg, if s.batch.active then Flushed(s, w) else s, path, e, known, flags, w);
    }
  }

  class Batcher {
    const cfg: Config
    var s: State

    /** The stand that is kept is where the calls made lead. */
    ghost predicate Told()
      reads this
    {
      s.stand == After(s.calls)
    }

    constructor (cfg: Config)
      ensures this.cfg == cfg && s == Fresh() && Told() && Remembering(cfg, s)
    {
      this.cfg, s := cfg, Fresh();
    }

    method Call(call: Call)
      requires Told()
      modifies this
      ensures Told() && s == Do(old(s), call)
    {
      AfterLast(s.calls, call);
      s := Do(s, call);
    }

    method PutJournal(e: nat, journal: Flags)
      requires Told()
      modifies this
      ensures Told() && s == Put(old(s), e, journal)
    {
      s := Put(s, e, journal);
    }

    method OptimizedBegin(e: nat, w: World) returns (ok: bool)
      requires Told()
      modifies this
      ensures Told() && (s, ok) == Begun(cfg, old(s), e, w)
    {
      if !(cfg.noSaveState && cfg.stateJournal) {
        Call(Begin(e));
        return true;
      }
      if e !in s.journals && w.attach {
        PutJournal(e, Flags(false, false, false, false));
      }
      if e !in s.journals || s.journals[e].disabled {
        Call(Begin(e));
        return true;
      }
      if !w.threadOk {
        ok := !s.journals[e].failed;
        PutJournal(e, s.journals[e].(disabled := true));
        if ok {
          Call(Begin(e));
        }
        return;
      }
      if !w.begin.capture {
        PutJournal(e, s.journals[e].Began().Retired(w.begin.restore));
        Call(Begin(e));
        return true;
      }
      ok := BeginInTransaction(e, w);
    }

    method BeginInTransaction(e: nat, w: World) returns (ok: bool)
      requires Told() && e in s.journals
      modifies this
      ensures Told() && (s, ok) == BegunWith(old(s), e, w)
    {
      Call(Begin(e));
      var journal := s.journals[e].Began().After(w.begin.fails || !w.begin.finish);
      if w.begin.finish && !journal.failed {
        PutJournal(e, journal);
        return true;
      }
      if w.begin.finish {
        Call(End(e));
      }
      PutJournal(e, journal.Retired(w.begin.restore));
      ok := w.begin.restore;
      if ok {
        Call(Begin(e));
      }
    }

    method RestartBaselinePass(e: nat, restore: bool) returns (ok: bool)
      requires Told() && e in s.journals
      modifies this
      ensures Told() && (s, ok) == Restarted(old(s), e, restore)
    {
      var journal := s.journals[e];
      if journal.passActive {
        Call(EndPass(e));
      }
      Call(End(e));
      PutJournal(e, journal.Retired(restore));
      ok := restore;
      if ok {
        Call(Begin(e));
        Call(BeginPass(e));
      }
    }

    method OptimizedBeginPass(e: nat, w: World) returns (ok: bool)
      requires Told()
      modifies this
      ensures Told() && (s, ok) == PassBegun(old(s), e, w)
    {
      if !Live(s, e) {
        Call(BeginPass(e));
        return true;
      }
      if !w.pass.capture {
        ok := RestartBaselinePass(e, w.pass.restore);
        return;
      }
      var journal := s.journals[e].(passActive := true).After(w.pass.fails || !w.pass.finish);
      Call(BeginPass(e));
      PutJournal(e, journal);
      if journal.failed || !w.pass.finish {
        ok := RestartBaselinePass(e, w.pass.restore);
      } else {
        ok := true;
      }
    }

    method OptimizedCommitChanges(e: nat, w: World) returns (ok: bool)
      requires Told()
      modifies this
      ensures Told() && (s, ok) == Committing(old(s), e, w)
    {
      if !Live(s, e) {
        Call(Commit(e));
        return true;
      }
      if w.direct.Committed? && !s.journals[e].failed {
        return true;
      }
      if w.direct.Committed? || w.direct.Failed? || !w.pass.capture {
        ok := RestartBaselinePass(e, w.pass.restore);
        return;
      }
      var journal := s.journals[e].After(w.pass.fails || !w.pass.finish);
      Call(Commit(e));
      PutJournal(e, journal);
      if journal.failed || !w.pass.finish {
        ok := RestartBaselinePass(e, w.pass.restore);
      } else {
        ok := true;
      }
    }

    method OptimizedEndPass(e: nat)
      requires Told()
      modifies this
      ensures Told() && s == PassEnded(old(s), e)
    {
      Call(EndPass(e));
      if Live(s, e) {
        PutJournal(e, s.journals[e].(passActive := false));
      }
    }

    method OptimizedEnd(e: nat, w: World)
      requires Told()
      modifies this
      ensures Told() && s == Ended(old(s), e, w)
    {
      if !Live(s, e) {
        Call(End(e));
        return;
      }
      if w.end.capture {
        Call(End(e));
      }
      var journal := s.journals[e].After(w.end.fails || !w.end.capture || !w.end.finish).Restored(w.end.restore);
      PutJournal(e, if journal.failed then journal.(disabled := true) else journal);
    }

    method SetBatch(batch: Batch)
      requires Told()
      modifies this
      ensures Told() && s == old(s).(batch := batch)
    {
      s := s.(batch := batch);
    }

    method Flush(w: World)
      requires Told()
      modifies this
      ensures Told() && s == Flushed(old(s), w)
    {
      if !s.batch.active || s.batch.effect.None? {
        SetBatch(NO_BATCH);
        return;
      }
      var e := s.batch.effect.value;
      var passActive := e !in s.journals || s.journals[e].passActive;
      SetBatch(NO_BATCH);
      if passActive {
        OptimizedEndPass(e);
      }
      OptimizedEnd(e, w);
    }

    method SetTechniqueForBatch(path: Path, e: nat, technique: nat, w: World)
      requires Told()
      modifies this
      ensures Told() && s == TechniqueSet(cfg, old(s), path, e, technique, w)
      ensures Remembering(cfg, old(s)) ==>
        (s.calls == old(s).calls <==> InUse(cfg, old(s), path, e, technique)) && TechniqueOf(s.calls, e) == Some(technique)
    {
      if Remembering(cfg, s) {
        TechniqueNames(cfg, s, path, e, technique, w, TechniqueSet(cfg, s, path, e, technique, w));
      }
      if cfg.batching && cfg.noSaveState {
        if s.batch.active {
          if SameTechnique(s, path, e, technique) {
            return;
          }
          Flush(w);
        }
        SetBatch(s.batch.(path := path, effect := Some(e), technique := Some(technique)));
      }
      Call(SetTechnique(e, technique));
      s := s.(lastTechnique := s.lastTechnique[e := technique]);
    }

    method BeginForBatch(path: Path, e: nat, known: bool, flags: nat, w: World) returns (ok: bool, passes: nat)
      requires Told()
      modifies this
      ensures Told() && (s, ok, passes) == BatchBegun(cfg, old(s), path, e, known, flags, w)
      ensures ok && s.calls == old(s).calls <==>
        && old(s).batch.active && cfg.batching && cfg.noSaveState
        && old(s).batch.path == path && old(s).batch.effect == Some(e) && old(s).batch.flags == flags
        && e in old(s).journals && old(s).journals[e].active && !old(s).journals[e].disabled
    {
      SilentIff(cfg, s, path, e, known, flags, w, BatchBegun(cfg, s, path, e, known, flags, w));
      if s.batch.active {
        if Joins(cfg, s, path, e, flags) {
          SetBatch(s.batch.(reusePending := true));
          return true, s.batch.passes;
        }
        Flush(w);
      }
      var technique := Remembered(s, path, e);
      ok := OptimizedBegin(e, w);
      passes := w.passes;
      var facts := Facts(cfg.batching, cfg.noSaveState, technique.Some?, ok, known, if known then w.passes else 0,
                         e in s.journals, Live(s, e), e in s.journals && s.journals[e].disabled);
      if EvaluateBatchStart(facts) == Accepted {
        SetBatch(Batch(path, Some(e), technique, flags, w.passes, true, false));
      } else {
        SetBatch(NO_BATCH);
      }
    }

    method Settle(e: nat, before: bool, w: World) returns (ok: bool)
      requires Told()
      modifies this
      ensures Told() && (s, ok) == Settled(old(s), before, e, w)
    {
      ok := before;
      if !Live(s, e) || s.journals[e].disabled {
        SetBatch(NO_BATCH);
      } else if !ok {
        Flush(w);
      }
    }

    method BeginPassB(e: nat, w: World) returns (ok: bool)
      requires Told()
      modifies this
      ensures Told() && (s, ok) == BatchPassBegun(old(s), e, w)
    {
      if !s.batch.active || s.batch.effect != Some(e) {
        ok := OptimizedBeginPass(e, w);
        return;
      }
      if !Live(s, e) || s.journals[e].disabled {
        SetBatch(NO_BATCH);
        ok := OptimizedBeginPass(e, w);
        return;
      }
      if !s.batch.reusePending {
        ok := OptimizedBeginPass(e, w);
      } else {
        SetBatch(s.batch.(reusePending := false));
        ok := OptimizedCommitChanges(e, w);
      }
      ok := Settle(e, ok, w);
    }

    method EndPassB(e: nat)
      requires Told()
      modifies this
      ensures Told() && s == BatchPassEnded(old(s), e)
    {
      if s.batch.active && s.batch.effect == Some(e) {
        return;
      }
      OptimizedEndPass(e);
    }

    method FinishLoop(path: Path, e: nat, remaining: Option<nat>, w: World)
      requires Told()
      modifies this
      ensures Told() && s == BatchEnded(old(s), path, e, remaining, w)
      ensures old(s).batch.active && old(s).batch.path == path && old(s).batch.effect == Some(e) ==>
        if remaining.Some? && remaining.value > 0 then s == old(s) else !s.batch.active && s == Flushed(old(s), w)
    {
      if !s.batch.active || s.batch.path != path || s.batch.effect != Some(e) {
        OptimizedEnd(e, w);
        return;
      }
      if remaining == None {
        Flush(w);
        return;
      }
      if remaining.value > 0 {
        return;
      }
      Flush(w);
    }
  }

  /** One object as a client draws it: Begin, every pass, whatever they answer, End. */
  method DrawObject(b: Batcher, d: Event)
    requires d.Draw? && b.Told()
    modifies b
    ensures b.Told() && b.s == Drawn(b.cfg, old(b.s), d)
  {
    var ok, passes := b.BeginForBatch(d.path, d.effect, d.passesKnown, d.flags, d.world);
    if !ok {
      return;
    }
    ghost var begun := b.s;
    for i := 0 to passes
      invariant b.Told() && b.s == Passes(begun, d.effect, i, d.world)
    {
      var _ := b.BeginPassB(d.effect, d.world);
      b.EndPassB(d.effect);
    }
    b.FinishLoop(d.path, d.effect, d.remaining, d.world);
  }

  /** Any row of objects and techniques, on any effects. The framework is called
      as the events say; as long as they are safe, and only so long, it is never
      called out of turn, and what is open at the end is the batch alone. Whatever
      happens, nothing is drawn but with the technique last asked for. */
  method RunClient(b: Batcher, events: seq<Event>)
    requires b.Told() && Between(b.cfg, b.s) && Remembering(b.cfg, b.s)
    modifies b
    ensures b.Told() && b.s == Run(b.cfg, old(b.s), events)
    ensures RunSafe(b.cfg, old(b.s), events) ==> Between(b.cfg, b.s) && After(b.s.calls) != Broken
    ensures RunSafe(b.cfg, old(b.s), events) && !b.s.batch.active ==> After(b.s.calls) == Closed
    ensures RunSafe(b.cfg, old(b.s), events) <==> !Loses(b.cfg, old(b.s), events)
    ensures RightlyNamed(b.cfg, old(b.s), events, b.s)
  {
    ghost var start := b.s;
    RunIff(b.cfg, start, events);
    RunNames(b.cfg, start, events, Run(b.cfg, start, events));
    var i := 0;
    assert events[0..] == events;
    while i < |events|
      invariant i <= |events| && b.Told()
      invariant Run(b.cfg, b.s, events[i..]) == Run(b.cfg, start, events)
    {
      assert events[i..][1..] == events[i + 1..];
      match events[i] {
        case Technique(path, e, technique, w) => b.SetTechniqueForBatch(path, e, technique, w);
        case Draw(_, _, _, _, _, _) => DrawObject(b, events[i]);
      }
      i := i + 1;
    }
  }
}
