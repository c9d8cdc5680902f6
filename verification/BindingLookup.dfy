// Finding the binding of an effect: each thread looks at its last hit, then at its
// own list, and only then at the registry that all threads share. Bindings of
// released effects stay behind as tombstones, since other threads may know them.
module BindingLookup {
  import opened Words

  type Address = nat   // of an effect; 0 is null, and addresses are used again
  type BindingId = nat
  type Thread = nat

  datatype State = State(
    registry: map<Address, BindingId>,
    effectOf: map<BindingId, Address>,       // 0 for a tombstone
    lastHit: map<Thread, BindingId>,
    cache: map<Thread, seq<BindingId>>,
    next: BindingId)

  function CacheOf(s: State, t: Thread): seq<BindingId> {
    if t in s.cache then s.cache[t] else []
  }

  function Answer(registry: map<Address, BindingId>, e: Address): Option<BindingId> {
    if e in registry then Some(registry[e]) else None
  }

  // ---- Invariant ------------------------------------------------------------------------

  /** A binding that may be remembered: a tombstone, or what the registry has for
      its effect. */
  predicate Current(s: State, b: BindingId) {
    b in s.effectOf && (s.effectOf[b] == 0 || Answer(s.registry, s.effectOf[b]) == Some(b))
  }

  predicate RegistryOk(s: State) {
    && (forall e :: e in s.registry ==> e != 0 && s.registry[e] in s.effectOf && s.effectOf[s.registry[e]] == e)
    && (forall b :: b in s.effectOf ==> b < s.next)
  }

  predicate CachesOk(s: State) {
    && (forall t :: t in s.lastHit ==> Current(s, s.lastHit[t]))
    && (forall t, b :: t in s.cache && b in s.cache[t] ==> Current(s, b))
  }

  predicate Ok(s: State) {
    RegistryOk(s) && CachesOk(s)
  }

  // ---- Remembering and forgetting ----------------------------------------------------------

  function Remembered(s: State, t: Thread, b: BindingId, listed: bool): State {
    s.(lastHit := s.lastHit[t := b], cache := if listed then s.cache[t := CacheOf(s, t) + [b]] else s.cache)
  }

  lemma RememberOk(s: State, t: Thread, b: BindingId, listed: bool)
    requires Ok(s) && Current(s, b)
    ensures Ok(Remembered(s, t, b, listed))
  {
    var n := Remembered(s, t, b, listed);
    forall u, c | u in n.cache && c in n.cache[u]
      ensures Current(n, c)
    {
      assert c == b || c in CacheOf(s, u);
      assert Current(s, c);
    }
    forall u | u in n.lastHit
      ensures Current(n, n.lastHit[u])
    {
      assert u != t ==> Current(s, s.lastHit[u]);
    }
  }

  /** A binding that was made and thrown away leaves no trace but its identity. */
  lemma DiscardOk(s: State)
    requires Ok(s)
    ensures Ok(s.(next := s.next + 1))
  {
    var n := s.(next := s.next + 1);
    forall u, c | u in n.cache && c in n.cache[u]
      ensures Current(n, c)
    {
      assert Current(s, c);
    }
    forall u | u in n.lastHit
      ensures Current(n, n.lastHit[u])
    {
      assert Current(s, s.lastHit[u]);
    }
  }

  function Without(list: seq<BindingId>, b: BindingId): (r: seq<BindingId>)
    ensures forall c :: c in r <==> c in list && c != b
  {
    if list == [] then []
    else (if list[0] == b then [] else [list[0]]) + Without(list[1..], b)
  }

  /** A new effect and its binding, published. */
  function Published(s: State, e: Address): State {
    s.(registry := s.registry[e := s.next], effectOf := s.effectOf[s.next := e], next := s.next + 1)
  }

  lemma PublishOk(s: State, e: Address)
    requires Ok(s) && e != 0 && e !in s.registry
    ensures Ok(Published(s, e)) && Current(Published(s, e), s.next)
  {
    var n := Published(s, e);
    forall b | Current(s, b)
      ensures Current(n, b)
    {
    }
  }

  /** The newest binding taken back and deleted. */
  function Withdrawn(s: State, e: Address, b: BindingId): State {
    s.(registry := s.registry - {e}, effectOf := s.effectOf - {b})
  }

  /** Taking back what was just published leaves nothing but a used identity. */
  lemma WithdrawUndoes(s: State, e: Address)
    requires Ok(s) && e !in s.registry
    ensures Withdrawn(Published(s, e), e, s.next) == s.(next := s.next + 1)
  {
    var w := Withdrawn(Published(s, e), e, s.next);
    assert s.next !in s.effectOf;
    assert w.registry == s.registry && w.effectOf == s.effectOf;
  }

  /** What is left when the effect of binding `b` has been released by thread `t`. */
  function Buried(s: State, t: Thread, e: Address, b: BindingId): State {
    s.(registry := s.registry - {e},
       effectOf := s.effectOf[b := 0],
       cache := s.cache[t := Without(CacheOf(s, t), b)],
       lastHit := if t in s.lastHit && s.lastHit[t] == b then s.lastHit - {t} else s.lastHit)
  }

  lemma BuryOk(s: State, t: Thread, e: Address, b: BindingId)
    requires Ok(s) && Answer(s.registry, e) == Some(b)
    ensures Ok(Buried(s, t, e, b))
  {
    var n := Buried(s, t, e, b);
    forall c | Current(s, c)
      ensures Current(n, c)
    {
    }
    forall f | f in n.registry
      ensures n.registry[f] != b
    {
      assert s.effectOf[s.registry[f]] == f;
    }
    forall u, c | u in n.cache && c in n.cache[u]
      ensures Current(s, c)
    {
      assert c in CacheOf(s, u);
    }
  }

  // ---- Lookup ---------------------------------------------------------------------------------

  /** Lookup as the threads see it, on any state: first level that answers wins. */
  function Lookup(s: State, t: Thread, e: Address): Option<BindingId> {
    if e == 0 then None
    else if t in s.lastHit && s.lastHit[t] in s.effectOf && s.effectOf[s.lastHit[t]] == e then Some(s.lastHit[t])
    else if FirstFor(s, CacheOf(s, t), e).Some? then FirstFor(s, CacheOf(s, t), e)
    else Answer(s.registry, e)
  }

  function FirstFor(s: State, list: seq<BindingId>, e: Address): Option<BindingId> {
    if list == [] then None
    else if list[0] in s.effectOf && s.effectOf[list[0]] == e then Some(list[0])
    else FirstFor(s, list[1..], e)
  }

  lemma {:induction false} FirstForIn(s: State, list: seq<BindingId>, e: Address)
    requires FirstFor(s, list, e).Some?
    ensures FirstFor(s, list, e).value in list && FirstFor(s, list, e).value in s.effectOf
    ensures s.effectOf[FirstFor(s, list, e).value] == e
  {
    if !(list[0] in s.effectOf && s.effectOf[list[0]] == e) {
      FirstForIn(s, list[1..], e);
    }
  }

  /** The three levels together answer as the registry would. */
  lemma LookupIsAnswer(s: State, t: Thread, e: Address)
    requires Ok(s) && e != 0
    ensures Lookup(s, t, e) == Answer(s.registry, e)
  {
    if FirstFor(s, CacheOf(s, t), e).Some? {
      FirstForIn(s, CacheOf(s, t), e);
      assert Current(s, FirstFor(s, CacheOf(s, t), e).value);
    }
    if t in s.lastHit {
      assert Current(s, s.lastHit[t]);
    }
  }

  /** The tombstone is what makes it so: with the registry's entry gone and the
      binding not yet buried, a thread that remembers it is told of it still. */
  lemma StaleUntilBuried(s: State, t: Thread, e: Address)
    requires Ok(s) && e in s.registry && t in s.lastHit && s.lastHit[t] == s.registry[e]
    ensures var n := s.(registry := s.registry - {e});
      Lookup(n, t, e) == Some(s.registry[e]) && Answer(n.registry, e) == None && !Ok(n)
  {
    var n := s.(registry := s.registry - {e});
    assert s.effectOf[s.registry[e]] == e;
    assert !Current(n, s.lastHit[t]);
  }

  // ---- The operations ----------------------------------------------------------------------------

  class Bindings {
    var s: State

    constructor ()
      ensures s == State(map[], map[], map[], map[], 1)
    {
      s := State(map[], map[], map[], map[], 1);
    }

    method Find(t: Thread, e: Address, room: bool) returns (found: Option<BindingId>)
      requires Ok(s)
      modifies this
      ensures Ok(s) && s.registry == old(s).registry && s.effectOf == old(s).effectOf && s.next == old(s).next
      ensures e != 0 ==> found == Answer(s.registry, e)
      ensures e == 0 ==> found == None && s == old(s)
      ensures found == None ==> s == old(s)
      ensures found.Some? ==> s.lastHit == old(s).lastHit[t := found.value]
      ensures found.Some? && t in old(s).lastHit && old(s).lastHit[t] == found.value ==> s == old(s)
      ensures found.Some? && found.value in CacheOf(old(s), t) ==> s.cache == old(s).cache
      ensures s.cache == old(s).cache || (found.Some? && room && s.cache == old(s).cache[t := CacheOf(old(s), t) + [found.value]])
      ensures found.Some? && room && !(t in old(s).lastHit && old(s).lastHit[t] == found.value) ==> found.value in CacheOf(s, t)
    {
      if e == 0 {
        return None;
      }
      LookupIsAnswer(s, t, e);
      if t in s.lastHit && s.effectOf[s.lastHit[t]] == e {
        return Some(s.lastHit[t]);
      }
      var list := CacheOf(s, t);
      assert list[0..] == list;
      for i := 0 to |list|
        invariant s == old(s) && FirstFor(s, list[i..], e) == FirstFor(s, list, e)
        invariant forall j :: 0 <= j < i ==> list[j] in s.effectOf && s.effectOf[list[j]] != e
      {
        assert Current(s, list[i]) && list[i..][1..] == list[i + 1..];
        if s.effectOf[list[i]] == e {
          RememberOk(s, t, list[i], false);
          s := Remembered(s, t, list[i], false);
          return Some(list[i]);
        }
      }
      found := Answer(s.registry, e);
      if found.Some? {
        RememberOk(s, t, found.value, room);
        s := Remembered(s, t, found.value, room);
      }
    }

    /** Gives an effect its binding, unless it has one. A new one is published
        before its hooks are put in, and withdrawn if they cannot be. */
    method Acquire(t: Thread, e: Address, hooksOk: bool, room: bool) returns (binding: Option<BindingId>)
      requires Ok(s)
      modifies this
      ensures Ok(s) && (s.registry, s.next, binding) == AcquireSpec(old(s).registry, old(s).next, e, hooksOk)
      ensures e != 0 && e in old(s).registry ==> binding == Some(old(s).registry[e]) && s.registry == old(s).registry
      ensures e != 0 && e !in old(s).registry && hooksOk ==>
        binding == Some(old(s).next) && s.registry == old(s).registry[e := old(s).next]
      ensures e == 0 || (e !in old(s).registry && !hooksOk) ==> binding == None && s.registry == old(s).registry
      ensures binding.Some? ==> t in s.lastHit && s.lastHit[t] == binding.value
    {
      if e == 0 {
        return None;
      }
      binding := Find(t, e, room);
      if binding.Some? {
        return;
      }
      var b := s.next;
      ghost var before := s;
      PublishOk(s, e);
      s := Published(s, e);
      if !hooksOk {
        WithdrawUndoes(before, e);
        DiscardOk(before);
        s := Withdrawn(s, e, b);
        return None;
      }
      RememberOk(s, t, b, room);
      s := Remembered(s, t, b, room);
      binding := Some(b);
    }

    /** A reference to an effect is given up; with the last one its binding dies. */
    method Release(t: Thread, e: Address, last: bool, room: bool)
      requires Ok(s)
      modifies this
      ensures Ok(s) && s.next == old(s).next
      ensures s.registry == if last then old(s).registry - {e} else old(s).registry
      ensures last && e in old(s).registry ==>
        && s.effectOf == old(s).effectOf[old(s).registry[e] := 0] && old(s).registry[e] !in CacheOf(s, t)
        && (t in s.lastHit ==> s.lastHit[t] != old(s).registry[e])
    {
      var _ := Find(t, e, room);
      if !last || e !in s.registry {
        return;
      }
      BuryOk(s, t, e, s.registry[e]);
      s := Buried(s, t, e, s.registry[e]);
    }
  }

  // ---- Runs ---------------------------------------------------------------------------------------

  datatype Event =
    | Find(thread: Thread, effect: Address, room: bool)
    | Acquire(thread: Thread, effect: Address, hooksOk: bool, room: bool)
    | Release(thread: Thread, effect: Address, last: bool, room: bool)

  function AcquireSpec(registry: map<Address, BindingId>, next: BindingId, e: Address, hooksOk: bool)
    : (map<Address, BindingId>, BindingId, Option<BindingId>)
  {
    if e == 0 then (registry, next, None)
    else if e in registry then (registry, next, Some(registry[e]))
    else if !hooksOk then (registry, next + 1, None)
    else (registry[e := next], next + 1, Some(next))
  }

  /** The same without any caches: one registry, asked every time. */
  function Plain(registry: map<Address, BindingId>, next: BindingId, event: Event)
    : (map<Address, BindingId>, BindingId, Option<BindingId>)
  {
    match event
    case Find(_, e, _) => (registry, next, if e == 0 then None else Answer(registry, e))
    case Acquire(_, e, hooksOk, _) => AcquireSpec(registry, next, e, hooksOk)
    case Release(_, e, last, _) => (if last then registry - {e} else registry, next, None)
  }

  function PlainRun(registry: map<Address, BindingId>, next: BindingId, events: seq<Event>)
    : (r: (map<Address, BindingId>, BindingId, seq<Option<BindingId>>))
  {
    if events == [] then (registry, next, [])
    else
      var (reg, n, answers) := PlainRun(registry, next, events[..|events| - 1]);
      var (reg', n', answer) := Plain(reg, n, events[|events| - 1]);
      (reg', n', answers + [answer])
  }

  /** Whatever threads do, in whatever order, with addresses used again: every answer
      is the one that a registry without caches would have given. */
  method Run(b: Bindings, events: seq<Event>) returns (answers: seq<Option<BindingId>>)
    requires Ok(b.s)
    modifies b
    ensures Ok(b.s)
    ensures (b.s.registry, b.s.next, answers) == PlainRun(old(b.s).registry, old(b.s).next, events)
  {
    answers := [];
    assert events[..0] == [];
    for i := 0 to |events|
      invariant Ok(b.s)
      invariant (b.s.registry, b.s.next, answers) == PlainRun(old(b.s).registry, old(b.s).next, events[..i])
    {
      assert events[..i + 1][..i] == events[..i];
      var answer := None;
      match events[i] {
        case Find(t, e, room) => answer := b.Find(t, e, room);
        case Acquire(t, e, hooksOk, room) => answer := b.Acquire(t, e, hooksOk, room);
        case Release(t, e, last, room) => b.Release(t, e, last, room);
      }
      answers := answers + [answer];
    }
    assert events[..|events|] == events;
  }
}
