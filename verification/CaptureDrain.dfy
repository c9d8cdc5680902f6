// Ending an attribution capture: one controller clears the flag and waits until no
// transaction is under way, while any number of threads begin and end transactions.
// Every step below is one atomic action of one thread.
module CaptureDrain {

  type Thread = nat

  /** Where a thread is in TryBeginTransaction, or in a transaction that was admitted. */
  datatype Pc = Idle | Locked | SawActive | SawInactive | CountedLocked | Running

  /** Where the controller is in StartCapture and StopCapture. */
  datatype Control = Quiet | StartLocked | Started | StopLocked | Cleared | Waiting | Drained

  datatype Holder = Free | ByThread(t: Thread) | ByController

  datatype State = State(
    lock: Holder, active: bool, inFlight: int, pcs: map<Thread, Pc>, control: Control, admitted: nat, ended: nat)

  datatype Action =
    | Lock(t: Thread) | Read(t: Thread) | Count(t: Thread) | Unlock(t: Thread) | End(t: Thread)
    | StartLock | StartSet | StartUnlock | StopLock | StopClear | StopUnlock | Poll

  function PcOf(s: State, t: Thread): Pc {
    if t in s.pcs then s.pcs[t] else Idle
  }

  function With(s: State, t: Thread, pc: Pc): State {
    s.(pcs := s.pcs[t := pc])
  }

  /** One step; a step that is not due changes nothing. */
  function Next(s: State, a: Action): State {
    match a
    case Lock(t) => if PcOf(s, t) == Idle && s.lock == Free then With(s, t, Locked).(lock := ByThread(t)) else s
    case Read(t) => if PcOf(s, t) == Locked then With(s, t, if s.active then SawActive else SawInactive) else s
    case Count(t) =>
      if PcOf(s, t) == SawActive
      then With(s, t, CountedLocked).(inFlight := s.inFlight + 1, admitted := s.admitted + 1) else s
    case Unlock(t) =>
      if PcOf(s, t) == CountedLocked then With(s, t, Running).(lock := Free)
      else if PcOf(s, t) == SawInactive then With(s, t, Idle).(lock := Free) else s
    case End(t) =>
      if PcOf(s, t) == Running then With(s, t, Idle).(inFlight := s.inFlight - 1, ended := s.ended + 1) else s
    case StartLock =>
      if (s.control == Quiet || s.control == Drained) && s.lock == Free
      then s.(control := StartLocked, lock := ByController) else s
    case StartSet => if s.control == StartLocked then s.(control := Started, active := true) else s
    case StartUnlock => if s.control == Started && s.lock == ByController then s.(lock := Free) else s
    case StopLock => if s.control == Started && s.lock == Free then s.(control := StopLocked, lock := ByController) else s
    case StopClear => if s.control == StopLocked then s.(control := Cleared, active := false) else s
    case StopUnlock => if s.control == Cleared then s.(control := Waiting, lock := Free) else s
    case Poll => if s.control == Waiting && s.inFlight == 0 then s.(control := Drained) else s
  }

  function Run(s: State, actions: seq<Action>): State {
    if actions == [] then s else Next(Run(s, actions[..|actions| - 1]), actions[|actions| - 1])
  }

  function Start(): State {
    State(Free, false, 0, map[], Quiet, 0, 0)
  }

  // ---- Invariant ----------------------------------------------------------------------------

  predicate Admitted(pc: Pc) {
    pc == CountedLocked || pc == Running
  }

  /** The transactions that are under way. */
  function UnderWay(s: State): set<Thread> {
    set t | t in s.pcs && Admitted(s.pcs[t])
  }

  predicate HoldsLock(pc: Pc) {
    pc == Locked || pc == SawActive || pc == SawInactive || pc == CountedLocked
  }

  predicate ControllerHolds(s: State) {
    s.control == StartLocked || s.control == StopLocked || s.control == Cleared
  }

  ghost predicate Inv(s: State) {
    && (forall t :: HoldsLock(PcOf(s, t)) <==> s.lock == ByThread(t))
    && (ControllerHolds(s) ==> s.lock == ByController)
    && (s.lock == ByController ==> ControllerHolds(s) || s.control == Started)
    && (s.active <==> s.control == Started || s.control == StopLocked)
    && (!s.active ==> forall t :: PcOf(s, t) != SawActive)
    && s.inFlight == s.admitted - s.ended == |UnderWay(s)|
    && (s.control == Drained ==> UnderWay(s) == {})
  }

  lemma UnderWayMoves(s: State, t: Thread, pc: Pc)
    ensures UnderWay(With(s, t, pc)) == if Admitted(pc) then UnderWay(s) + {t} else UnderWay(s) - {t}
  {
  }

  /** A thread moves without being counted in or out. */
  lemma SameUnderWay(s: State, t: Thread, pc: Pc)
    requires Admitted(pc) <==> Admitted(PcOf(s, t))
    ensures UnderWay(With(s, t, pc)) == UnderWay(s)
    ensures forall u :: PcOf(With(s, t, pc), u) == if u == t then pc else PcOf(s, u)
  {
    UnderWayMoves(s, t, pc);
  }

  lemma LockStep(s: State, t: Thread)
    requires Inv(s)
    ensures Inv(Next(s, Lock(t)))
  {
    if PcOf(s, t) == Idle && s.lock == Free {
      SameUnderWay(s, t, Locked);
    }
  }

  lemma ReadStep(s: State, t: Thread)
    requires Inv(s)
    ensures Inv(Next(s, Read(t)))
  {
    if PcOf(s, t) == Locked {
      SameUnderWay(s, t, if s.active then SawActive else SawInactive);
    }
  }

  lemma UnlockStep(s: State, t: Thread)
    requires Inv(s)
    ensures Inv(Next(s, Unlock(t)))
  {
    if PcOf(s, t) == CountedLocked {
      SameUnderWay(s, t, Running);
    } else if PcOf(s, t) == SawInactive {
      SameUnderWay(s, t, Idle);
    }
  }

  lemma CountStep(s: State, t: Thread)
    requires Inv(s)
    ensures Inv(Next(s, Count(t)))
  {
    var n := Next(s, Count(t));
    if PcOf(s, t) == SawActive {
      UnderWayMoves(s, t, CountedLocked);
      assert t !in UnderWay(s) && UnderWay(n) == UnderWay(s) + {t};
      assert forall u :: u != t ==> PcOf(n, u) == PcOf(s, u);
    }
  }

  lemma EndStep(s: State, t: Thread)
    requires Inv(s)
    ensures Inv(Next(s, End(t)))
  {
    var n := Next(s, End(t));
    if PcOf(s, t) == Running {
      UnderWayMoves(s, t, Idle);
      assert t in UnderWay(s) && UnderWay(n) == UnderWay(s) - {t};
      assert forall u :: u != t ==> PcOf(n, u) == PcOf(s, u);
    }
  }

  lemma ThreadStep(s: State, a: Action)
    requires Inv(s) && (a.Lock? || a.Read? || a.Count? || a.Unlock? || a.End?)
    ensures Inv(Next(s, a))
  {
    match a
    case Count(t) => CountStep(s, t);
    case End(t) => EndStep(s, t);
    case Lock(t) => LockStep(s, t);
    case Read(t) => ReadStep(s, t);
    case Unlock(t) => UnlockStep(s, t);
  }

  lemma ControlStep(s: State, a: Action)
    requires Inv(s) && !(a.Lock? || a.Read? || a.Count? || a.Unlock? || a.End?)
    ensures Inv(Next(s, a))
  {
    assert UnderWay(Next(s, a)) == UnderWay(s);
    assert forall t :: PcOf(Next(s, a), t) == PcOf(s, t);
  }

  /** In every interleaving: the counter is admitted minus ended, and is the number
      of transactions under way. */
  lemma {:induction false} RunKeeps(actions: seq<Action>)
    ensures Inv(Run(Start(), actions))
  {
    if actions == [] {
      assert UnderWay(Start()) == {};
    } else {
      var n := |actions| - 1;
      RunKeeps(actions[..n]);
      var s, a := Run(Start(), actions[..n]), actions[n];
      if a.Lock? || a.Read? || a.Count? || a.Unlock? || a.End? {
        ThreadStep(s, a);
      } else {
        ControlStep(s, a);
      }
    }
  }

  /** Once StopCapture has returned, no admitted transaction is still running: the
      dump that follows sees the end of every one. */
  lemma StopDrains(actions: seq<Action>)
    ensures var s := Run(Start(), actions);
      s.control == Drained ==> s.admitted == s.ended && forall t :: !Admitted(PcOf(s, t))
  {
    RunKeeps(actions);
    var s := Run(Start(), actions);
    forall t | s.control == Drained
      ensures !Admitted(PcOf(s, t))
    {
      assert t !in UnderWay(s);
    }
  }

  predicate Restarts(actions: seq<Action>) {
    exists i :: 0 <= i < |actions| && actions[i] == StartSet
  }

  lemma QuietStep(s: State, a: Action)
    requires Inv(s) && !s.active && a != StartSet
    ensures var t := Next(s, a); Inv(t) && !t.active && t.admitted == s.admitted && t.inFlight <= s.inFlight
  {
    if a.Lock? || a.Read? || a.Count? || a.Unlock? || a.End? {
      ThreadStep(s, a);
    } else {
      ControlStep(s, a);
    }
  }

  /** After the flag has been cleared nothing is admitted until the next start, so
      the wait is for a number that only falls. */
  lemma {:induction false} NothingAdmitted(s: State, actions: seq<Action>)
    requires Inv(s) && !s.active && !Restarts(actions)
    ensures var t := Run(s, actions); Inv(t) && !t.active && t.admitted == s.admitted && t.inFlight <= s.inFlight
  {
    if actions != [] {
      var n := |actions| - 1;
      assert forall i :: 0 <= i < n ==> actions[i] == actions[..n][i];
      NothingAdmitted(s, actions[..n]);
      QuietStep(Run(s, actions[..n]), actions[n]);
    }
  }

  lemma {:induction false} RunConcat(s: State, xs: seq<Action>, ys: seq<Action>)
    ensures Run(s, xs + ys) == Run(Run(s, xs), ys)
  {
    if ys == [] {
      assert xs + ys == xs;
    } else {
      var n := |ys| - 1;
      RunConcat(s, xs, ys[..n]);
      assert (xs + ys)[..|xs + ys| - 1] == xs + ys[..n];
    }
  }

  /** One transaction under way finishes: there is one fewer. */
  lemma OneFinishes(s: State, t: Thread)
    requires Inv(s) && t in UnderWay(s)
    ensures var n := Run(s, [Unlock(t), End(t)]);
      Inv(n) && n.control == s.control && UnderWay(n) == UnderWay(s) - {t}
  {
    var m := Next(s, Unlock(t));
    ThreadStep(s, Unlock(t));
    ThreadStep(m, End(t));
    assert [Unlock(t), End(t)][..1] == [Unlock(t)] && [Unlock(t)][..0] == [];
    assert Run(s, [Unlock(t)]) == m;
    assert Run(s, [Unlock(t), End(t)]) == Next(m, End(t));
    UnderWayMoves(s, t, PcOf(m, t));
    UnderWayMoves(m, t, PcOf(Next(m, End(t)), t));
    assert t in UnderWay(m) ==> PcOf(m, t) == Running;
  }

  /** And the wait can always end: when the transactions under way finish, the
      controller goes on. */
  lemma {:induction false} CanDrain(s: State) returns (actions: seq<Action>)
    requires Inv(s) && s.control == Waiting
    ensures Run(s, actions).control == Drained
    decreases |UnderWay(s)|
  {
    if UnderWay(s) == {} {
      actions := [Poll];
      assert actions[..0] == [];
      assert Run(s, []) == s;
    } else {
      var t :| t in UnderWay(s);
      OneFinishes(s, t);
      var finish := [Unlock(t), End(t)];
      var rest := CanDrain(Run(s, finish));
      RunConcat(s, finish, rest);
      actions := finish + rest;
    }
  }

  // ---- What a capture is for ----------------------------------------------------------------

  /** Whoever holds the lock, nobody else gets it, neither a thread nor the controller. */
  lemma OneHolder(s: State, a: Action)
    requires s.lock != Free && (a.Lock? || a.StartLock? || a.StopLock?)
    ensures Next(s, a) == s
  {
  }

  lemma RunLast(s: State, init: seq<Action>, a: Action)
    ensures Run(s, init + [a]) == Next(Run(s, init), a)
  {
    assert (init + [a])[..|init|] == init;
  }

  lemma ThreeSteps(s: State, x: Action, y: Action, z: Action)
    ensures Run(s, [x, y, z]) == Next(Next(Next(s, x), y), z)
  {
    assert [x, y] + [z] == [x, y, z] && [x] + [y] == [x, y] && [] + [x] == [x];
    RunLast(s, [x, y], z);
    RunLast(s, [x], y);
    RunLast(s, [], x);
  }

  lemma FourSteps(s: State, w: Action, x: Action, y: Action, z: Action)
    ensures Run(s, [w, x, y, z]) == Next(Next(Next(Next(s, w), x), y), z)
  {
    ThreeSteps(s, w, x, y);
    assert [w, x, y] + [z] == [w, x, y, z];
    RunLast(s, [w, x, y], z);
  }

  /** Starting a capture takes the lock, sets the flag and gives the lock back. */
  lemma StartActivates(s: State)
    requires (s.control == Quiet || s.control == Drained) && s.lock == Free
    ensures Run(s, [StartLock, StartSet, StartUnlock]) == s.(active := true, control := Started)
    ensures Next(s, StartLock).lock == Next(Next(s, StartLock), StartSet).lock == ByController
  {
    ThreeSteps(s, StartLock, StartSet, StartUnlock);
  }

  /** Stopping it takes the lock, clears the flag and gives the lock back; then the
      controller waits. */
  lemma StopClears(s: State)
    requires s.control == Started && s.lock == Free
    ensures Run(s, [StopLock, StopClear, StopUnlock]) == s.(active := false, control := Waiting)
    ensures Next(s, StopLock).lock == Next(Next(s, StopLock), StopClear).lock == ByController
  {
    ThreeSteps(s, StopLock, StopClear, StopUnlock);
  }

  /** While the flag is set a thread that asks is admitted and counted. */
  lemma AskingAdmits(s: State, t: Thread)
    requires s.lock == Free && s.active && PcOf(s, t) == Idle
    ensures Run(s, [Lock(t), Read(t), Count(t), Unlock(t)])
         == s.(pcs := s.pcs[t := Running], inFlight := s.inFlight + 1, admitted := s.admitted + 1)
    ensures Next(s, Lock(t)).lock == Next(Next(s, Lock(t)), Read(t)).lock == ByThread(t)
  {
    var locked := s.(pcs := s.pcs[t := Locked], lock := ByThread(t));
    assert Next(s, Lock(t)) == locked;
    FourSteps(s, Lock(t), Read(t), Count(t), Unlock(t));
    Counted(s, t, locked);
  }

  /** While it is not, the thread is turned away and nothing is counted. */
  lemma AskingRefused(s: State, t: Thread)
    requires s.lock == Free && !s.active && PcOf(s, t) == Idle
    ensures Run(s, [Lock(t), Read(t), Unlock(t)]) == s.(pcs := s.pcs[t := Idle])
  {
    ThreeSteps(s, Lock(t), Read(t), Unlock(t));
    TurnedAway(s, t, s.(pcs := s.pcs[t := Locked], lock := ByThread(t)));
  }

  lemma TurnedAway(s: State, t: Thread, locked: State)
    requires s.lock == Free && !s.active && locked == s.(pcs := s.pcs[t := Locked], lock := ByThread(t))
    ensures Next(Next(locked, Read(t)), Unlock(t)) == s.(pcs := s.pcs[t := Idle])
  {
    var read := locked.(pcs := s.pcs[t := SawInactive]);
    assert Next(locked, Read(t)) == read;
    assert Next(read, Unlock(t)).pcs == s.pcs[t := Idle];
  }

  lemma Counted(s: State, t: Thread, locked: State)
    requires s.lock == Free && s.active && locked == s.(pcs := s.pcs[t := Locked], lock := ByThread(t))
    ensures Next(Next(Next(locked, Read(t)), Count(t)), Unlock(t))
         == s.(pcs := s.pcs[t := Running], inFlight := s.inFlight + 1, admitted := s.admitted + 1)
  {
    var read := locked.(pcs := s.pcs[t := SawActive]);
    assert Next(locked, Read(t)) == read;
    var counted := read.(pcs := s.pcs[t := CountedLocked], inFlight := s.inFlight + 1, admitted := s.admitted + 1);
    assert Next(read, Count(t)) == counted;
    assert Next(counted, Unlock(t)).pcs == s.pcs[t := Running];
  }

  /** An admitted transaction that ends is counted out, and the controller goes on
      exactly when the last one has been. */
  lemma EndingReleases(s: State, t: Thread)
    requires Inv(s) && PcOf(s, t) == Running
    ensures Next(s, End(t)) == s.(pcs := s.pcs[t := Idle], inFlight := s.inFlight - 1, ended := s.ended + 1)
    ensures s.control == Waiting ==> (Next(Next(s, End(t)), Poll).control == Drained <==> UnderWay(s) == {t})
  {
    EndStep(s, t);
    UnderWayMoves(s, t, Idle);
    var n := Next(s, End(t));
    assert t in UnderWay(s) && UnderWay(n) == UnderWay(s) - {t};
    if |UnderWay(n)| == 0 {
      assert UnderWay(n) == {};
    }
  }
}
