// The Vulkan pass host: plugins register passes, devices come, are suspended for a
// reset, and go; every pass is to be bound on every device that is at work.
module VulkanHost {
  import opened Words

  type HostId = nat
  type PassId = nat

  datatype Binding = Binding(host: HostId, token: nat)

  datatype Pass = Pass(owner: nat, token: nat, bindings: seq<Binding>)

  /** What the devices' own registries hold: for each device, token by token, the
      pass object that it will call. */
  type Registry = map<HostId, map<nat, PassId>>

  // ---- Bindings of one pass -------------------------------------------------------------

  function HostsOf(bindings: seq<Binding>): set<HostId> {
    set b | b in bindings :: b.host
  }

  /** No host twice. */
  predicate Distinct(bindings: seq<Binding>) {
    forall i, j :: 0 <= i < j < |bindings| ==> bindings[i].host != bindings[j].host
  }

  function Without(bindings: seq<Binding>, only: Option<HostId>): seq<Binding> {
    if bindings == [] then []
    else
      var rest, last := Without(bindings[..|bindings| - 1], only), bindings[|bindings| - 1];
      if only.Some? && last.host != only.value then rest + [last] else rest
  }

  lemma {:induction false} WithoutMembers(bindings: seq<Binding>, only: Option<HostId>)
    ensures forall b :: b in Without(bindings, only) <==> b in bindings && only.Some? && b.host != only.value
    ensures Distinct(bindings) ==> Distinct(Without(bindings, only))
  {
    if bindings != [] {
      var init, last := bindings[..|bindings| - 1], bindings[|bindings| - 1];
      WithoutMembers(init, only);
      assert bindings == init + [last];
      KeepsDistinct(bindings, Without(init, only), last);
    }
  }

  lemma {:induction false} WithoutAll(bindings: seq<Binding>)
    ensures Without(bindings, None) == []
  {
    if bindings != [] {
      WithoutAll(bindings[..|bindings| - 1]);
    }
  }

  lemma KeepsDistinct(bindings: seq<Binding>, rest: seq<Binding>, last: Binding)
    requires bindings != [] && last == bindings[|bindings| - 1]
    requires forall b :: b in rest ==> b in bindings[..|bindings| - 1]
    requires Distinct(bindings) ==> Distinct(rest)
    ensures Distinct(bindings) ==> Distinct(rest + [last])
  {
    if Distinct(bindings) {
      forall i | 0 <= i < |rest|
        ensures rest[i].host != last.host
      {
        assert rest[i] in rest;
        var j :| 0 <= j < |bindings| - 1 && bindings[j] == rest[i];
      }
    }
  }

  // ---- Invariants --------------------------------------------------------------------------

  /** No binding refers to a host that is detached or suspended, and no pass is
      bound twice to one. While host `h` is being worked on, the passes still `todo`
      are excused from the first. */
  predicate BindingsOk(passes: map<PassId, Pass>, working: set<HostId>, h: HostId, todo: set<PassId>) {
    forall p :: p in passes ==>
      && Distinct(passes[p].bindings)
      && forall b :: b in passes[p].bindings ==> b.host in working || (b.host == h && p in todo)
  }

  /** Every pass is bound on every host at work, but for the ones still `todo` on `h`. */
  predicate AllBound(passes: map<PassId, Pass>, working: set<HostId>, h: HostId, todo: set<PassId>) {
    forall p, k :: p in passes && k in working && !(k == h && p in todo) ==> k in HostsOf(passes[p].bindings)
  }

  function Entry(live: Registry, h: HostId, t: nat): Option<PassId> {
    if h in live && t in live[h] then Some(live[h][t]) else None
  }

  /** The devices hold exactly the bindings: nothing else, and under the same token. */
  ghost predicate Mirrors(live: Registry, passes: map<PassId, Pass>) {
    && (forall p, b :: p in passes && b in passes[p].bindings ==> Entry(live, b.host, b.token) == Some(p))
    && (forall h, t :: Entry(live, h, t).Some? ==> Backs(passes, Entry(live, h, t).value, Binding(h, t)))
  }

  predicate Backs(passes: map<PassId, Pass>, p: PassId, b: Binding) {
    p in passes && b in passes[p].bindings
  }

  // ---- Tokens -----------------------------------------------------------------------------------

  const TWO_64: nat := 0x1_0000_0000_0000_0000

  /** The token of the n-th registration: a 64-bit counter that starts at 1. */
  function TokenOf(n: nat): nat {
    n % TWO_64
  }

  predicate TokensGood(n: nat) {
    && (forall i :: 1 <= i <= n ==> TokenOf(i) != 0)
    && (forall i, j :: 1 <= i < j <= n ==> TokenOf(i) != TokenOf(j))
  }

  /** Tokens are nonzero and never reused exactly until the counter wraps. */
  lemma TokensGoodIff(n: nat)
    ensures TokensGood(n) <==> n < 0x1_0000_0000_0000_0000
  {
    if n >= TWO_64 {
      assert TokenOf(TWO_64) == 0;
    }
  }

  // ---- Single changes ----------------------------------------------------------------------------

  function Bind(passes: map<PassId, Pass>, p: PassId, b: Binding): map<PassId, Pass>
    requires p in passes
  {
    passes[p := passes[p].(bindings := passes[p].bindings + [b])]
  }

  function Enter(live: Registry, h: HostId, t: nat, p: PassId): Registry
    requires h in live
  {
    var entries: map<nat, PassId> := live[h][t := p];
    live[h := entries]
  }

  lemma BindMirrors(live: Registry, passes: map<PassId, Pass>, p: PassId, h: HostId, t: nat)
    requires Mirrors(live, passes) && p in passes && h in live && t !in live[h]
    ensures Mirrors(Enter(live, h, t, p), Bind(passes, p, Binding(h, t)))
  {
    var after, next := Enter(live, h, t, p), Bind(passes, p, Binding(h, t));
    forall q, b | q in next && b in next[q].bindings
      ensures Entry(after, b.host, b.token) == Some(q)
    {
      if q != p || b != Binding(h, t) {
        assert Backs(passes, q, b) && Entry(live, b.host, b.token) == Some(q);
      }
    }
    forall k, u | Entry(after, k, u).Some?
      ensures Backs(next, Entry(after, k, u).value, Binding(k, u))
    {
      if !(k == h && u == t) {
        assert Entry(live, k, u) == Entry(after, k, u);
      }
    }
  }

  function Erased(bindings: seq<Binding>, i: nat): seq<Binding>
    requires i < |bindings|
  {
    bindings[..i] + bindings[i + 1..]
  }

  lemma ErasedMembers(bindings: seq<Binding>, i: nat)
    requires i < |bindings| && Distinct(bindings)
    ensures Distinct(Erased(bindings, i))
    ensures forall b :: b in Erased(bindings, i) <==> b in bindings && b.host != bindings[i].host
  {
    var rest := Erased(bindings, i);
    assert forall j :: 0 <= j < |rest| ==> rest[j] == bindings[if j < i then j else j + 1];
    forall b | b in bindings && b.host != bindings[i].host
      ensures b in rest
    {
      var j :| 0 <= j < |bindings| && bindings[j] == b;
      assert rest[if j < i then j else j - 1] == b;
    }
  }

  function Unbind(passes: map<PassId, Pass>, p: PassId, i: nat): map<PassId, Pass>
    requires p in passes && i < |passes[p].bindings|
  {
    passes[p := passes[p].(bindings := Erased(passes[p].bindings, i))]
  }

  function Leave(live: Registry, h: HostId, t: nat): Registry
    requires h in live
  {
    var entries: map<nat, PassId> := live[h] - {t};
    live[h := entries]
  }

  lemma UnbindMirrors(live: Registry, passes: map<PassId, Pass>, p: PassId, i: nat)
    requires Mirrors(live, passes) && p in passes && Distinct(passes[p].bindings) && i < |passes[p].bindings|
    ensures var b := passes[p].bindings[i]; b.host in live && Mirrors(Leave(live, b.host, b.token), Unbind(passes, p, i))
  {
    var gone := passes[p].bindings[i];
    assert Backs(passes, p, gone) && Entry(live, gone.host, gone.token) == Some(p);
    ErasedMembers(passes[p].bindings, i);
    var after, next := Leave(live, gone.host, gone.token), Unbind(passes, p, i);
    forall q, b | q in next && b in next[q].bindings
      ensures Entry(after, b.host, b.token) == Some(q)
    {
      assert Backs(passes, q, b) && Entry(live, b.host, b.token) == Some(q);
    }
    forall k, u | Entry(after, k, u).Some?
      ensures Backs(next, Entry(after, k, u).value, Binding(k, u))
    {
      assert Entry(live, k, u) == Entry(after, k, u);
    }
  }

  /** A device that refuses to let a pass go keeps it: the bridge forgets the
      binding all the same, and once the pass is gone the device still calls it. */
  lemma RefusalDangles(live: Registry, passes: map<PassId, Pass>, p: PassId, i: nat)
    requires Mirrors(live, passes) && p in passes && i < |passes[p].bindings|
    ensures var b := passes[p].bindings[i];
      b.host in live && Entry(Left(live, b, false), b.host, b.token) == Some(p)
      && !Mirrors(Left(live, b, false), Unbind(passes, p, i) - {p})
  {
    var b := passes[p].bindings[i];
    assert Backs(passes, p, b) && Entry(live, b.host, b.token) == Some(p);
    assert !Backs(Unbind(passes, p, i) - {p}, p, b);
  }

  // ---- The host ---------------------------------------------------------------------------------

  predicate NoRepeat<T(==)>(s: seq<T>) {
    forall i, j :: 0 <= i < j < |s| ==> s[i] != s[j]
  }

  function Elements<T>(s: seq<T>): set<T> {
    set x | x in s
  }

  /** Passes carry distinct nonzero tokens, until the counter has wrapped. */
  predicate TokensOk(passes: map<PassId, Pass>, registered: nat, nextPass: nat) {
    && (forall p :: p in passes ==> p < nextPass)
    && (registered < TWO_64 ==>
          (forall p :: p in passes ==> 1 <= passes[p].token <= registered)
          && forall p, q :: p in passes && q in passes && p != q ==> passes[p].token != passes[q].token)
  }

  predicate LiveOk(live: Registry, nextHost: nat, nextBackend: nat) {
    nextBackend > 0 && forall h :: h in live ==> h < nextHost && forall t :: t in live[h] ==> t < nextBackend
  }

  lemma ElementsTail<T>(s: seq<T>, i: nat)
    requires NoRepeat(s) && i < |s|
    ensures s[i] in Elements(s) && Elements(s[i..]) - {s[i]} == Elements(s[i + 1..])
  {
    var rest := s[i + 1..];
    assert s[i..] == [s[i]] + rest;
    assert forall j :: 0 <= j < |rest| ==> rest[j] == s[i + 1 + j];
  }

  /** Passes that differ in their bindings only. */
  predicate OnlyBindings(before: map<PassId, Pass>, after: map<PassId, Pass>) {
    && after.Keys == before.Keys
    && forall p :: p in after ==> after[p] == before[p].(bindings := after[p].bindings)
  }

  /** Only one pass may differ. */
  predicate Others(before: map<PassId, Pass>, after: map<PassId, Pass>, p: PassId) {
    p in before && after.Keys == before.Keys && forall q :: q in after && q != p ==> after[q] == before[q]
  }

  function Left(live: Registry, b: Binding, ok: bool): Registry
    requires b.host in live
  {
    if ok then Leave(live, b.host, b.token) else live
  }

  lemma UnbindStep(live: Registry, passes: map<PassId, Pass>, p: PassId, i: nat, ok: bool,
                   registered: nat, nextPass: nat, nextHost: nat, nextBackend: nat)
    requires TokensOk(passes, registered, nextPass) && LiveOk(live, nextHost, nextBackend)
    requires p in passes && Distinct(passes[p].bindings) && i < |passes[p].bindings| && passes[p].bindings[i].host in live
    ensures TokensOk(Unbind(passes, p, i), registered, nextPass) && OnlyBindings(passes, Unbind(passes, p, i))
    ensures var after := Left(live, passes[p].bindings[i], ok);
      && LiveOk(after, nextHost, nextBackend) && after.Keys == live.Keys
      && (ok && Mirrors(live, passes) ==> Mirrors(after, Unbind(passes, p, i)))
  {
    TokensKept(passes, Unbind(passes, p, i), registered, nextPass);
    if Mirrors(live, passes) {
      UnbindMirrors(live, passes, p, i);
    }
  }

  datatype State = State(
    plugins: set<nat>,             // the plugins that are loaded
    order: seq<PassId>,            // their passes
    passes: map<PassId, Pass>,
    hosts: seq<HostId>,
    suspended: set<HostId>,
    nextToken: nat,
    live: Registry,                // what the devices hold
    nextBackend: nat,
    nextPass: nat,                 // the next objects
    nextHost: nat)

  /** The hosts at work: attached and not suspended. */
  function Working(s: State): set<HostId> {
    Elements(s.hosts) - s.suspended
  }

  predicate Shape(s: State, registered: nat) {
    && NoRepeat(s.order) && Elements(s.order) == s.passes.Keys && TokensOk(s.passes, registered, s.nextPass)
    && NoRepeat(s.hosts) && s.live.Keys == Elements(s.hosts) && s.suspended <= Elements(s.hosts)
    && LiveOk(s.live, s.nextHost, s.nextBackend) && s.nextToken == TokenOf(registered + 1)
  }

  predicate Ok(s: State, registered: nat) {
    Shape(s, registered) && BindingsOk(s.passes, Working(s), 0, {})
  }

  /** While every device has answered well: bindings are passes times hosts at
      work, and the devices hold just them. */
  ghost predicate Exact(s: State) {
    Mirrors(s.live, s.passes) && AllBound(s.passes, Working(s), 0, {})
  }

  /** Only bindings, and what the devices hold, differ; a device that answers well
      goes on holding the bindings. */
  ghost predicate Rebound(s: State, t: State, sound: bool) {
    && t == s.(passes := t.passes, live := t.live, nextBackend := t.nextBackend) && OnlyBindings(s.passes, t.passes)
    && (sound && Mirrors(s.live, s.passes) ==> Mirrors(t.live, t.passes))
  }

  function Bound(s: State, p: PassId, h: HostId): State
    requires p in s.passes && h in s.live
  {
    s.(passes := Bind(s.passes, p, Binding(h, s.nextBackend)),
       live := Enter(s.live, h, s.nextBackend, p),
       nextBackend := s.nextBackend + 1)
  }

  lemma BoundMoves(s: State, registered: nat, p: PassId, h: HostId)
    requires Shape(s, registered) && p in s.passes && h in s.hosts
    ensures h in s.live && Shape(Bound(s, p, h), registered) && Rebound(s, Bound(s, p, h), true)
    ensures Others(s.passes, Bound(s, p, h).passes, p)
  {
    assert h in Elements(s.hosts);
    if Mirrors(s.live, s.passes) {
      BindMirrors(s.live, s.passes, p, h, s.nextBackend);
    }
    TokensKept(s.passes, Bound(s, p, h).passes, registered, s.nextPass);
  }

  function Unbound(s: State, p: PassId, i: nat, ok: bool): State
    requires p in s.passes && i < |s.passes[p].bindings| && s.passes[p].bindings[i].host in s.live
  {
    s.(passes := Unbind(s.passes, p, i), live := Left(s.live, s.passes[p].bindings[i], ok))
  }

  lemma UnboundMoves(s: State, registered: nat, p: PassId, i: nat, ok: bool)
    requires Shape(s, registered) && p in s.passes && Distinct(s.passes[p].bindings) && i < |s.passes[p].bindings|
    requires forall b :: b in s.passes[p].bindings ==> b.host in s.live
    ensures Shape(Unbound(s, p, i, ok), registered) && Rebound(s, Unbound(s, p, i, ok), ok)
    ensures var t := Unbound(s, p, i, ok);
      Distinct(t.passes[p].bindings) && forall b :: b in t.passes[p].bindings ==> b.host in t.live
  {
    assert s.passes[p].bindings[i] in s.passes[p].bindings;
    ErasedMembers(s.passes[p].bindings, i);
    UnbindStep(s.live, s.passes, p, i, ok, registered, s.nextPass, s.nextHost, s.nextBackend);
  }

  // ---- The book of a run ------------------------------------------------------------------------------

  datatype Event =
    | Load(plugin: nat)
    | Unload(plugin: nat)
    | Register(plugin: nat, proper: bool)
    | Unregister(plugin: nat, inRecord: bool, token: nat)
    | Attach(supported: bool)
    | Suspend(host: HostId)
    | Resume(host: HostId)
    | Detach(host: HostId)

  /** What the bridge has on its books, without bindings and devices: plugins and
      hosts, and the owner and the token of each pass. */
  datatype Book = Book(
    plugins: set<nat>, hosts: set<HostId>, suspended: set<HostId>, held: map<PassId, (nat, nat)>,
    nextHost: nat, nextPass: nat, nextToken: nat)

  function BookOf(s: State): Book {
    Book(s.plugins, Elements(s.hosts), s.suspended, map p | p in s.passes :: (s.passes[p].owner, s.passes[p].token),
         s.nextHost, s.nextPass, s.nextToken)
  }

  /** One event on the books. */
  function BookAfter(b: Book, event: Event): Book {
    match event
    case Load(plugin) => b.(plugins := b.plugins + {plugin})
    case Unload(plugin) => b.(plugins := b.plugins - {plugin}, held := map p | p in b.held && b.held[p].0 != plugin :: b.held[p])
    case Register(plugin, proper) =>
      if !proper || plugin !in b.plugins then b
      else b.(held := b.held[b.nextPass := (plugin, b.nextToken)], nextPass := b.nextPass + 1,
              nextToken := (b.nextToken + 1) % 0x1_0000_0000_0000_0000)
    case Unregister(plugin, inRecord, token) =>
      if inRecord || token == 0 || plugin !in b.plugins then b
      else b.(held := map p | p in b.held && b.held[p] != (plugin, token) :: b.held[p])
    case Attach(supported) => if supported then b.(hosts := b.hosts + {b.nextHost}, nextHost := b.nextHost + 1) else b
    case Suspend(h) => if h in b.hosts then b.(suspended := b.suspended + {h}) else b
    case Resume(h) => if h in b.hosts then b.(suspended := b.suspended - {h}) else b
    case Detach(h) => if h in b.hosts then b.(hosts := b.hosts - {h}, suspended := b.suspended - {h}) else b
  }

  function BookAll(b: Book, events: seq<Event>): Book {
    if events == [] then b else BookAfter(BookAll(b, events[..|events| - 1]), events[|events| - 1])
  }

  lemma {:induction false} BookConcat(b: Book, xs: seq<Event>, ys: seq<Event>)
    ensures BookAll(b, xs + ys) == BookAll(BookAll(b, xs), ys)
  {
    if ys == [] {
      assert xs + ys == xs;
    } else {
      var n := |ys| - 1;
      BookConcat(b, xs, ys[..n]);
      assert (xs + ys)[..|xs + ys| - 1] == xs + ys[..n];
    }
  }

  lemma SameBook(s: State, t: State)
    requires t == s.(passes := t.passes, live := t.live, nextBackend := t.nextBackend) && OnlyBindings(s.passes, t.passes)
    ensures BookOf(t) == BookOf(s)
  {
  }

  lemma AddedBook(s: State, plugin: nat, t: State)
    requires plugin in s.plugins && t == Added(s, plugin)
    ensures BookOf(t) == BookAfter(BookOf(s), Register(plugin, true))
  {
    assert BookOf(t).held == BookOf(s).held[s.nextPass := (plugin, s.nextToken)];
  }

  lemma CreatedIs(s: State, plugin: nat, t: State, sound: bool)
    requires plugin in s.plugins && s.nextPass !in s.passes && Rebound(Added(s, plugin), t, sound)
    ensures BookOf(t) == BookAfter(BookOf(s), Register(plugin, true))
    ensures t.order == s.order + [s.nextPass] && s.nextPass in t.passes && Carries(t.passes[s.nextPass], plugin, s.nextToken)
    ensures forall p :: p in s.passes ==> Stays(s.passes, t.passes, p)
  {
    AddedBook(s, plugin, Added(s, plugin));
    SameBook(Added(s, plugin), t);
  }

  lemma AttachedBook(s: State, t: State)
    requires t == Attached(s)
    ensures BookOf(t) == BookAfter(BookOf(s), Event.Attach(true))
  {
    LongerBy(s.hosts, s.nextHost);
  }

  lemma WithoutOne(s: State, t: State, plugin: nat, token: nat)
    requires t.passes.Keys <= s.passes.Keys && forall p :: p in t.passes ==> t.passes[p] == s.passes[p]
    requires forall p :: p in s.passes ==> (p in t.passes <==> !Carries(s.passes[p], plugin, token))
    requires plugin in s.plugins && token != 0 && t == s.(order := t.order, passes := t.passes, live := t.live, nextBackend := t.nextBackend)
    ensures BookOf(t) == BookAfter(BookOf(s), Unregister(plugin, false, token))
  {
    assert BookOf(t).held == map p | p in BookOf(s).held && BookOf(s).held[p] != (plugin, token) :: BookOf(s).held[p];
  }

  lemma GoneFromBook(s: State, t: State, registered: nat, plugin: nat, token: nat, p: PassId)
    requires TokensOk(s.passes, registered, s.nextPass) && plugin in s.plugins && token != 0
    requires p in s.passes && Carries(s.passes[p], plugin, token) && t.passes == s.passes - {p}
    requires t == s.(order := t.order, passes := t.passes, live := t.live, nextBackend := t.nextBackend)
    ensures Unregistered(s.passes, t.passes, plugin, token)
    ensures registered < TWO_64 ==> BookOf(t) == BookAfter(BookOf(s), Unregister(plugin, false, token))
  {
    if registered < TWO_64 {
      OnlyOne(s, t, registered, plugin, token, p);
      WithoutOne(s, t, plugin, token);
    }
  }

  lemma WithoutPlugin(s: State, t: State, plugin: nat)
    requires OnlyWithout(s.passes, t.passes, plugin) && forall p :: p in t.passes ==> t.passes[p].owner != plugin
    requires t == s.(order := t.order, passes := t.passes, live := t.live, nextBackend := t.nextBackend)
    ensures BookOf(t.(plugins := s.plugins - {plugin})) == BookAfter(BookOf(s), Unload(plugin))
  {
    assert BookOf(t).held == map p | p in BookOf(s).held && BookOf(s).held[p].0 != plugin :: BookOf(s).held[p];
  }

  class Host {
    var s: State
    var faults: seq<bool>             // how the devices will answer; then they succeed
    ghost var registered: nat

    ghost predicate Valid()
      reads this
    {
      Ok(s, registered)
    }

    constructor (faults: seq<bool>)
      ensures Valid() && Exact(s) && this.faults == faults
      ensures s == State({}, [], map[], [], {}, 1, map[], 1, 0, 0)
    {
      s := State({}, [], map[], [], {}, 1, map[], 1, 0, 0);
      this.faults := faults;
      registered := 0;
    }

    method Answers() returns (ok: bool)
      modifies `faults
      ensures ok == (old(faults) == [] || old(faults)[0])
      ensures faults == if old(faults) == [] then [] else old(faults)[1..]
    {
      ok := true;
      if faults != [] {
        ok := faults[0];
        faults := faults[1..];
      }
    }

    method RegisterPassOnHost(p: PassId, h: HostId)
      requires Valid() && p in s.passes && h in s.hosts && h !in s.suspended
      modifies `s, `faults
      ensures Valid() && Rebound(old(s), s, old(faults) == []) && (old(faults) == [] ==> faults == [])
      ensures Others(old(s).passes, s.passes, p)
      ensures HostsOf(old(s).passes[p].bindings) <= HostsOf(s.passes[p].bindings)
      ensures old(faults) == [] ==> h in HostsOf(s.passes[p].bindings)
    {
      var bound := IsBound(s.passes[p].bindings, h);
      if bound {
        return;
      }
      var ok := Answers();
      if ok {
        BoundMoves(s, registered, p, h);
        BindOk(s.passes, Working(s), p, Binding(h, s.nextBackend));
        s := Bound(s, p, h);
      }
    }

    /** The binding before place `n` is taken off its device, if it is one of those
        asked for. */
    method UnbindBefore(ghost start: State, ghost sound: bool, p: PassId, only: Option<HostId>, n: nat)
      requires n > 0 && Taking(start, s, registered, sound, p, only, n) && (sound ==> faults == [])
      modifies `s, `faults
      ensures Taking(start, s, registered, sound, p, only, n - 1) && (sound ==> faults == [])
    {
      var i, now := n - 1, s.passes[p].bindings;
      if only.Some? && now[i].host != only.value {
        TakingPast(start, s, registered, sound, p, only, i);
        return;
      }
      var ok := Answers();
      TakingOn(start, s, registered, sound, p, only, i, ok, Unbound(s, p, i, ok));
      s := Unbound(s, p, i, ok);
    }

    /** Takes a pass off one host, or off all; a device that refuses is not asked
        again, the binding goes all the same. */
    method UnregisterBindings(p: PassId, only: Option<HostId>)
      requires Shape(s, registered) && p in s.passes && Distinct(s.passes[p].bindings)
      requires forall b :: b in s.passes[p].bindings ==> b.host in s.live
      modifies `s, `faults
      ensures Shape(s, registered) && Rebound(old(s), s, old(faults) == []) && (old(faults) == [] ==> faults == [])
      ensures Others(old(s).passes, s.passes, p)
      ensures s.passes[p].bindings == Without(old(s).passes[p].bindings, only)
    {
      var i := |s.passes[p].bindings|;
      TakingStarts(s, registered, faults == [], p, only);
      while i > 0
        invariant 0 <= i && Taking(old(s), s, registered, old(faults) == [], p, only, i)
        invariant old(faults) == [] ==> faults == []
      {
        UnbindBefore(old(s), old(faults) == [], p, only, i);
        i := i - 1;
      }
      TakingEnds(old(s), s, registered, old(faults) == [], p, only);
    }

    // ---- Devices ---------------------------------------------------------------------------------

    /** Binds every pass on a host that has just come to work. */
    method BindAll(h: HostId)
      requires Valid() && h in s.hosts && h !in s.suspended
      modifies `s, `faults
      ensures Valid() && Rebound(old(s), s, old(faults) == []) && (old(faults) == [] ==> faults == [])
      ensures old(faults) == [] && AllBound(old(s).passes, Working(s), h, old(s).passes.Keys) ==> AllBound(s.passes, Working(s), 0, {})
    {
      ghost var todo := s.passes.Keys;
      ghost var sound := faults == [] && AllBound(s.passes, Working(s), h, todo);
      for i := 0 to |s.order|
        invariant Valid() && Rebound(old(s), s, old(faults) == []) && (old(faults) == [] ==> faults == [])
        invariant todo == Elements(s.order[i..])
        invariant sound ==> AllBound(s.passes, Working(s), h, todo)
      {
        ElementsTail(s.order, i);
        ghost var before := s.passes;
        RegisterPassOnHost(s.order[i], h);
        if sound {
          OneBound(before, s.passes, Working(s), h, todo, s.order[i]);
        }
        todo := todo - {s.order[i]};
      }
    }

    /** Takes every pass off a host that has just stopped working. */
    method UnbindAll(h: HostId, ghost working: set<HostId>)
      requires Shape(s, registered) && BindingsOk(s.passes, working, h, s.passes.Keys)
      requires h in s.hosts && h !in working && working <= Elements(s.hosts)
      modifies `s, `faults
      ensures Shape(s, registered) && Rebound(old(s), s, old(faults) == []) && (old(faults) == [] ==> faults == [])
      ensures BindingsOk(s.passes, working, h, {})
      ensures AllBound(old(s).passes, working, h, {}) ==> AllBound(s.passes, working, h, {})
    {
      ghost var todo := s.passes.Keys;
      for i := 0 to |s.order|
        invariant Shape(s, registered) && Rebound(old(s), s, old(faults) == []) && (old(faults) == [] ==> faults == [])
        invariant BindingsOk(s.passes, working, h, todo)
        invariant todo == Elements(s.order[i..])
        invariant AllBound(old(s).passes, working, h, {}) ==> AllBound(s.passes, working, h, {})
      {
        ElementsTail(s.order, i);
        ghost var before := s.passes;
        UnregisterBindings(s.order[i], Some(h));
        WithoutOk(before, s.passes, working, h, todo, s.order[i]);
        todo := todo - {s.order[i]};
      }
    }

    method Attach(supported: bool) returns (host: Option<HostId>)
      requires Valid()
      modifies this
      ensures Valid() && (old(faults) == [] ==> faults == []) && (old(faults) == [] && Exact(old(s)) ==> Exact(s))
      ensures host.Some? <==> supported
      ensures s.hosts == if supported then old(s).hosts + [host.value] else old(s).hosts
      ensures s.suspended == old(s).suspended && s.order == old(s).order && OnlyBindings(old(s).passes, s.passes) && s.plugins == old(s).plugins
      ensures BookOf(s) == BookAfter(BookOf(old(s)), Event.Attach(supported)) && registered == old(registered)
    {
      if !supported {
        return None;
      }
      var h := s.nextHost;
      AttachMoves(s, registered);
      s := Attached(s);
      AttachedBook(old(s), s);
      ghost var attached := s;
      BindAll(h);
      SameBook(attached, s);
      return Some(h);
    }

    method Suspend(h: HostId)
      requires Valid() && h in s.hosts
      modifies this
      ensures Valid() && (old(faults) == [] ==> faults == []) && (old(faults) == [] && Exact(old(s)) ==> Exact(s))
      ensures s.suspended == old(s).suspended + {h} && s.hosts == old(s).hosts
      ensures s.order == old(s).order && OnlyBindings(old(s).passes, s.passes) && s.plugins == old(s).plugins
      ensures BookOf(s) == BookAfter(BookOf(old(s)), Event.Suspend(h)) && registered == old(registered)
      ensures h in old(s).suspended ==> s == old(s) && faults == old(faults)
    {
      if h in s.suspended {
        return;
      }
      ghost var working := Working(s) - {h};
      LessWorking(s.passes, Working(s), h);
      s := s.(suspended := s.suspended + {h});
      assert Working(s) == working;
      ghost var idle := s;
      UnbindAll(h, working);
      SameBook(idle, s);
    }

    method Resume(h: HostId)
      requires Valid() && h in s.hosts
      modifies this
      ensures Valid() && (old(faults) == [] ==> faults == []) && (old(faults) == [] && Exact(old(s)) ==> Exact(s))
      ensures s.suspended == old(s).suspended - {h} && s.hosts == old(s).hosts
      ensures s.order == old(s).order && OnlyBindings(old(s).passes, s.passes) && s.plugins == old(s).plugins
      ensures BookOf(s) == BookAfter(BookOf(old(s)), Event.Resume(h)) && registered == old(registered)
      ensures h !in old(s).suspended ==> s == old(s) && faults == old(faults)
    {
      if h !in s.suspended {
        return;
      }
      MoreWorking(s.passes, Working(s), h);
      s := s.(suspended := s.suspended - {h});
      assert Working(s) == Working(old(s)) + {h};
      ghost var back := s;
      BindAll(h);
      SameBook(back, s);
    }

    method Detach(h: HostId)
      requires Valid() && h in s.hosts
      modifies this
      ensures Valid() && (old(faults) == [] ==> faults == []) && (old(faults) == [] && Exact(old(s)) ==> Exact(s))
      ensures Elements(s.hosts) == Elements(old(s).hosts) - {h} && s.suspended == old(s).suspended - {h}
      ensures s.order == old(s).order && OnlyBindings(old(s).passes, s.passes) && s.plugins == old(s).plugins
      ensures BookOf(s) == BookAfter(BookOf(old(s)), Event.Detach(h)) && registered == old(registered)
    {
      ghost var working := Working(s) - {h};
      LessWorking(s.passes, Working(s), h);
      UnbindAll(h, working);
      var i := 0;
      while s.hosts[i] != h
        invariant 0 <= i < |s.hosts| && h in s.hosts[i..]
        decreases |s.hosts| - i
      {
        i := i + 1;
      }
      DetachMoves(s, registered, i);
      SameBook(old(s), s);
      s := Detached(s, i);
    }

    // ---- Passes -------------------------------------------------------------------------------------

    /** A plugin registers a pass; it is bound on every host at work. */
    method RegisterPass(plugin: nat, proper: bool) returns (result: Result, token: nat)
      requires Valid()
      modifies this
      ensures Valid() && (old(faults) == [] ==> faults == []) && (old(faults) == [] && Exact(old(s)) ==> Exact(s))
      ensures result == if !proper then InvalidCall else if plugin !in s.plugins then AccessDenied else Done
      ensures result == Done ==> registered == old(registered) + 1 && token == TokenOf(registered)
      ensures result == Done ==> s.order == old(s).order + [old(s).nextPass] && old(s).nextPass in s.passes
      ensures result == Done ==> Carries(s.passes[old(s).nextPass], plugin, token)
      ensures forall p :: p in old(s).passes ==> Stays(old(s).passes, s.passes, p)
      ensures result != Done ==> token == 0 && s == old(s)
      ensures s.hosts == old(s).hosts && s.suspended == old(s).suspended && s.plugins == old(s).plugins
      ensures BookOf(s) == BookAfter(BookOf(old(s)), Register(plugin, proper)) && old(registered) <= registered
    {
      if !proper {
        return InvalidCall, 0;
      }
      if plugin !in s.plugins {
        return AccessDenied, 0;
      }
      token := s.nextToken;
      Create(plugin);
      CreatedIs(old(s), plugin, s, old(faults) == []);
      result := Done;
    }

    /** A new pass with the next token, bound on every host at work. */
    method Create(plugin: nat)
      requires Valid()
      modifies this
      ensures Valid() && registered == old(registered) + 1 && Rebound(Added(old(s), plugin), s, old(faults) == [])
      ensures (old(faults) == [] ==> faults == []) && (old(faults) == [] && Exact(old(s)) ==> Exact(s))
    {
      var p := s.nextPass;
      AddMoves(s, registered, plugin);
      s, registered := Added(s, plugin), registered + 1;
      BindEverywhere(p);
    }

    /** Binds a new pass on every host at work. */
    method BindEverywhere(p: PassId)
      requires Valid() && p in s.passes
      modifies `s, `faults
      ensures Valid() && Rebound(old(s), s, old(faults) == []) && (old(faults) == [] ==> faults == [])
      ensures old(faults) == [] && AllBound(old(s).passes - {p}, Working(s), 0, {}) ==> AllBound(s.passes, Working(s), 0, {})
    {
      for i := 0 to |s.hosts|
        invariant Valid() && Rebound(old(s), s, old(faults) == []) && (old(faults) == [] ==> faults == [])
        invariant p in s.passes && Others(old(s).passes, s.passes, p)
        invariant old(faults) == [] ==> Elements(s.hosts[..i]) - s.suspended <= HostsOf(s.passes[p].bindings)
      {
        ElementsTake(s.hosts, i);
        if s.hosts[i] !in s.suspended {
          RegisterPassOnHost(p, s.hosts[i]);
        }
      }
      assert s.hosts[..|s.hosts|] == s.hosts;
      if old(faults) == [] && AllBound(old(s).passes - {p}, Working(s), 0, {}) {
        NewBound(old(s).passes, s.passes, Working(s), p);
      }
    }

    /** Destroys a pass: off every host first. */
    method DestroyPass(i: nat)
      requires Valid() && i < |s.order|
      modifies `s, `faults
      ensures Valid() && (old(faults) == [] ==> faults == []) && (old(faults) == [] && Exact(old(s)) ==> Exact(s))
      ensures s == old(s).(order := s.order, passes := s.passes, live := s.live, nextBackend := s.nextBackend)
      ensures s.order == old(s).order[..i] + old(s).order[i + 1..] && s.passes == old(s).passes - {old(s).order[i]}
    {
      var p := s.order[i];
      assert p in Elements(s.order);
      assert forall b :: b in s.passes[p].bindings ==> b.host in Working(s);
      WithoutAll(s.passes[p].bindings);
      UnregisterBindings(p, None);
      RemoveMoves(old(s), s, registered, i);
      s := Removed(s, i);
    }

    /** The place of the plugin's pass with that token, or the number of passes. */
    method FindPass(plugin: nat, token: nat) returns (i: nat)
      requires Valid()
      ensures i <= |s.order| && forall j :: 0 <= j < |s.order| ==> s.order[j] in s.passes
      ensures i < |s.order| ==> Carries(s.passes[s.order[i]], plugin, token)
      ensures i == |s.order| ==> forall p :: p in s.passes ==> !Carries(s.passes[p], plugin, token)
    {
      assert forall j :: 0 <= j < |s.order| ==> s.order[j] in Elements(s.order);
      i := 0;
      while i < |s.order|
        invariant i <= |s.order|
        invariant forall j :: 0 <= j < i ==> !Carries(s.passes[s.order[j]], plugin, token)
      {
        if s.passes[s.order[i]].owner == plugin && s.passes[s.order[i]].token == token {
          return;
        }
        i := i + 1;
      }
      forall p | p in s.passes
        ensures !Carries(s.passes[p], plugin, token)
      {
        assert p in Elements(s.order);
      }
    }

    method UnregisterPass(plugin: nat, inRecord: bool, token: nat) returns (result: Result)
      requires Valid()
      modifies `s, `faults
      ensures Valid() && (old(faults) == [] ==> faults == []) && (old(faults) == [] && Exact(old(s)) ==> Exact(s))
      ensures result == InvalidCall <==> inRecord || token == 0
      ensures result == AccessDenied <==> !inRecord && token != 0 && plugin !in old(s).plugins
      ensures result == Done <==>
        && !inRecord && token != 0 && plugin in old(s).plugins
        && exists p :: p in old(s).passes && old(s).passes[p].owner == plugin && old(s).passes[p].token == token
      ensures result != Done ==> s == old(s)
      ensures result == Done ==> Unregistered(old(s).passes, s.passes, plugin, token) && s.plugins == old(s).plugins
      ensures registered < TWO_64 ==> BookOf(s) == BookAfter(BookOf(old(s)), Unregister(plugin, inRecord, token))
    {
      if inRecord || token == 0 {
        return InvalidCall;
      }
      if plugin !in s.plugins {
        return AccessDenied;
      }
      var i := FindPass(plugin, token);
      if i == |s.order| {
        WithoutOne(s, s, plugin, token);
        return NotFound;
      }
      ghost var p := s.order[i];
      DestroyPass(i);
      GoneFromBook(old(s), s, registered, plugin, token, p);
      return Done;
    }

    /** A plugin goes, and all its passes with it. */
    method UnloadPlugin(plugin: nat)
      requires Valid()
      modifies this
      ensures Valid() && (old(faults) == [] ==> faults == []) && (old(faults) == [] && Exact(old(s)) ==> Exact(s))
      ensures s.plugins == old(s).plugins - {plugin} && s.hosts == old(s).hosts && s.suspended == old(s).suspended
      ensures forall p :: p in s.passes <==> p in old(s).passes && old(s).passes[p].owner != plugin
      ensures OnlyWithout(old(s).passes, s.passes, plugin)
      ensures BookOf(s) == BookAfter(BookOf(old(s)), Unload(plugin)) && registered == old(registered)
    {
      var i := |s.order|;
      while i > 0
        invariant 0 <= i <= |s.order| && Valid()
        invariant s == old(s).(order := s.order, passes := s.passes, live := s.live, nextBackend := s.nextBackend)
        invariant registered == old(registered)
        invariant (old(faults) == [] ==> faults == []) && (old(faults) == [] && Exact(old(s)) ==> Exact(s))
        invariant OnlyWithout(old(s).passes, s.passes, plugin)
        invariant forall j :: i <= j < |s.order| ==> s.order[j] in s.passes && s.passes[s.order[j]].owner != plugin
      {
        i := i - 1;
        assert s.order[i] in Elements(s.order);
        if s.passes[s.order[i]].owner == plugin {
          DestroyPass(i);
        }
      }
      forall p | p in s.passes
        ensures s.passes[p].owner != plugin
      {
        assert p in Elements(s.order);
      }
      WithoutPlugin(old(s), s, plugin);
      s := s.(plugins := s.plugins - {plugin});
    }
  }

  /** The pass is there still, with its owner and its token. */
  predicate Stays(before: map<PassId, Pass>, after: map<PassId, Pass>, p: PassId) {
    && p in before && p in after && after[p].owner == before[p].owner && after[p].token == before[p].token
  }

  /** One pass is gone, the one with that token. */
  ghost predicate Unregistered(before: map<PassId, Pass>, after: map<PassId, Pass>, plugin: nat, token: nat) {
    exists p :: p in before && Carries(before[p], plugin, token) && after == before - {p}
  }

  method IsBound(bindings: seq<Binding>, h: HostId) returns (bound: bool)
    ensures bound <==> h in HostsOf(bindings)
    ensures !bound ==> forall j :: 0 <= j < |bindings| ==> bindings[j].host != h
  {
    for i := 0 to |bindings|
      invariant forall j :: 0 <= j < i ==> bindings[j].host != h
    {
      if bindings[i].host == h {
        assert bindings[i] in bindings;
        return true;
      }
    }
    return false;
  }

  /** Only passes of one plugin are gone, and nothing else has changed. */
  predicate OnlyWithout(before: map<PassId, Pass>, after: map<PassId, Pass>, plugin: nat) {
    && (forall p :: p in after ==> p in before && after[p] == before[p])
    && (forall p :: p in before && p !in after ==> before[p].owner == plugin)
  }

  lemma OneBound(before: map<PassId, Pass>, after: map<PassId, Pass>, working: set<HostId>, h: HostId, todo: set<PassId>, p: PassId)
    requires AllBound(before, working, h, todo) && Others(before, after, p) && p in before
    requires HostsOf(before[p].bindings) <= HostsOf(after[p].bindings) && h in HostsOf(after[p].bindings)
    ensures AllBound(after, working, h, todo - {p})
  {
  }

  lemma ElementsTake<T>(s: seq<T>, i: nat)
    requires i < |s|
    ensures Elements(s[..i + 1]) == Elements(s[..i]) + {s[i]}
  {
    assert s[..i + 1] == s[..i] + [s[i]];
  }

  predicate Carries(pass: Pass, plugin: nat, token: nat) {
    pass.owner == plugin && pass.token == token
  }

  lemma TokensFewer(passes: map<PassId, Pass>, registered: nat, nextPass: nat, p: PassId)
    requires TokensOk(passes, registered, nextPass)
    ensures TokensOk(passes - {p}, registered, nextPass)
  {
  }

  function Removed(s: State, i: nat): State
    requires i < |s.order|
  {
    s.(order := s.order[..i] + s.order[i + 1..], passes := s.passes - {s.order[i]})
  }

  lemma RemoveMoves(before: State, s: State, registered: nat, i: nat)
    requires Ok(before, registered) && Shape(s, registered) && i < |s.order| && s.order == before.order && s.hosts == before.hosts
    requires s.suspended == before.suspended && s.order[i] in s.passes && Others(before.passes, s.passes, s.order[i])
    requires s.passes[s.order[i]].bindings == []
    ensures Ok(Removed(s, i), registered) && Removed(s, i).passes == before.passes - {s.order[i]}
    ensures Mirrors(s.live, s.passes) && AllBound(before.passes, Working(s), 0, {}) ==> Exact(Removed(s, i))
  {
    RestOf(s.order, i);
    TokensFewer(s.passes, registered, s.nextPass, s.order[i]);
    assert s.passes - {s.order[i]} == before.passes - {s.order[i]};
    if Mirrors(s.live, s.passes) {
      GoneMirrors(s.live, s.passes, s.order[i]);
    }
  }

  lemma RestOf<T>(s: seq<T>, i: nat)
    requires NoRepeat(s) && i < |s|
    ensures NoRepeat(s[..i] + s[i + 1..]) && Elements(s[..i] + s[i + 1..]) == Elements(s) - {s[i]}
  {
    var rest := s[..i] + s[i + 1..];
    assert forall j :: 0 <= j < |rest| ==> rest[j] == s[if j < i then j else j + 1];
    forall k | k in s && k != s[i]
      ensures k in rest
    {
      var j :| 0 <= j < |s| && s[j] == k;
      assert rest[if j < i then j else j - 1] == k;
    }
  }

  lemma GoneMirrors(live: Registry, passes: map<PassId, Pass>, p: PassId)
    requires Mirrors(live, passes) && p in passes && passes[p].bindings == []
    ensures Mirrors(live, passes - {p})
  {
    forall h, t | Entry(live, h, t).Some?
      ensures Backs(passes - {p}, Entry(live, h, t).value, Binding(h, t))
    {
      assert Backs(passes, Entry(live, h, t).value, Binding(h, t));
    }
  }

  lemma NewBound(before: map<PassId, Pass>, after: map<PassId, Pass>, working: set<HostId>, p: PassId)
    requires Others(before, after, p) && working <= HostsOf(after[p].bindings)
    requires AllBound(before - {p}, working, 0, {})
    ensures AllBound(after, working, 0, {})
  {
    forall q, k | q in after && k in working
      ensures k in HostsOf(after[q].bindings)
    {
      assert q != p ==> q in before - {p};
    }
  }

  lemma NextToken(registered: nat)
    ensures (TokenOf(registered + 1) + 1) % TWO_64 == TokenOf(registered + 2)
  {
  }

  datatype Result = Done | InvalidCall | AccessDenied | NotFound

  function Added(s: State, plugin: nat): State {
    s.(order := s.order + [s.nextPass],
       passes := s.passes[s.nextPass := Pass(plugin, s.nextToken, [])],
       nextPass := s.nextPass + 1,
       nextToken := (s.nextToken + 1) % TWO_64)
  }

  lemma AddMoves(s: State, registered: nat, plugin: nat)
    requires Ok(s, registered)
    ensures Ok(Added(s, plugin), registered + 1) && s.nextToken == TokenOf(registered + 1)
    ensures Mirrors(s.live, s.passes) ==> Mirrors(s.live, Added(s, plugin).passes)
    ensures Added(s, plugin).passes - {s.nextPass} == s.passes
  {
    NextToken(registered);
    LongerBy(s.order, s.nextPass);
    TokensMore(s.passes, registered, s.nextPass, Pass(plugin, s.nextToken, []));
    assert s.nextPass !in s.passes;
    if Mirrors(s.live, s.passes) {
      NewMirrors(s.live, s.passes, s.nextPass, Pass(plugin, s.nextToken, []));
    }
  }

  lemma LongerBy<T>(s: seq<T>, x: T)
    ensures Elements(s + [x]) == Elements(s) + {x}
    ensures NoRepeat(s) && x !in Elements(s) ==> NoRepeat(s + [x])
  {
    assert forall i :: 0 <= i < |s| ==> s[i] in Elements(s);
    assert (s + [x])[|s|] == x;
    forall k | k in s ensures k in s + [x] {
      var i :| 0 <= i < |s| && s[i] == k;
      assert (s + [x])[i] == k;
    }
  }

  lemma TokensMore(passes: map<PassId, Pass>, registered: nat, p: PassId, pass: Pass)
    requires TokensOk(passes, registered, p) && pass.token == TokenOf(registered + 1)
    ensures TokensOk(passes[p := pass], registered + 1, p + 1)
  {
  }

  lemma NewMirrors(live: Registry, passes: map<PassId, Pass>, p: PassId, pass: Pass)
    requires Mirrors(live, passes) && p !in passes && pass.bindings == []
    ensures Mirrors(live, passes[p := pass])
  {
    forall h, t | Entry(live, h, t).Some?
      ensures Backs(passes[p := pass], Entry(live, h, t).value, Binding(h, t))
    {
      assert Backs(passes, Entry(live, h, t).value, Binding(h, t));
    }
  }

  /** One host more at work: what is bound stays right, and the passes are still
      to be bound on it. */
  lemma MoreWorking(passes: map<PassId, Pass>, working: set<HostId>, h: HostId)
    requires BindingsOk(passes, working, 0, {})
    ensures BindingsOk(passes, working + {h}, h, {}) && BindingsOk(passes, working + {h}, 0, {})
    ensures AllBound(passes, working, 0, {}) ==> AllBound(passes, working + {h}, h, passes.Keys)
  {
  }

  /** One host fewer: its bindings are still to go. */
  lemma LessWorking(passes: map<PassId, Pass>, working: set<HostId>, h: HostId)
    requires BindingsOk(passes, working, 0, {})
    ensures BindingsOk(passes, working - {h}, h, passes.Keys)
    ensures AllBound(passes, working, 0, {}) ==> AllBound(passes, working - {h}, h, {})
  {
  }

  function Attached(s: State): State {
    s.(hosts := s.hosts + [s.nextHost], live := s.live[s.nextHost := map[]], nextHost := s.nextHost + 1)
  }

  lemma AttachMoves(s: State, registered: nat)
    requires Ok(s, registered)
    ensures Ok(Attached(s), registered) && s.nextHost !in s.suspended
    ensures Mirrors(s.live, s.passes) ==> Mirrors(Attached(s).live, s.passes)
    ensures AllBound(s.passes, Working(s), 0, {}) ==>
      AllBound(s.passes, Working(Attached(s)), s.nextHost, s.passes.Keys)
  {
    var h, t := s.nextHost, Attached(s);
    LongerBy(s.hosts, h);
    MoreWorking(s.passes, Working(s), h);
    assert h !in s.live && h !in Elements(s.hosts);
    assert Working(t) == Working(s) + {h};
    assert forall k, u :: Entry(t.live, k, u) == Entry(s.live, k, u);
  }

  function Detached(s: State, i: nat): State
    requires i < |s.hosts|
  {
    s.(hosts := s.hosts[..i] + s.hosts[i + 1..], suspended := s.suspended - {s.hosts[i]}, live := s.live - {s.hosts[i]})
  }

  lemma DetachMoves(s: State, registered: nat, i: nat)
    requires Shape(s, registered) && i < |s.hosts|
    requires BindingsOk(s.passes, Working(s) - {s.hosts[i]}, s.hosts[i], {})
    ensures Ok(Detached(s, i), registered) && Elements(Detached(s, i).hosts) == Elements(s.hosts) - {s.hosts[i]}
    ensures Working(Detached(s, i)) == Working(s) - {s.hosts[i]}
    ensures Mirrors(s.live, s.passes) ==> Mirrors(Detached(s, i).live, s.passes)
    ensures AllBound(s.passes, Working(s) - {s.hosts[i]}, s.hosts[i], {}) ==> AllBound(s.passes, Working(Detached(s, i)), 0, {})
  {
    var h, t := s.hosts[i], Detached(s, i);
    RestOf(s.hosts, i);
    assert Working(t) == Working(s) - {h};
    if Mirrors(s.live, s.passes) {
      forall p, b | p in s.passes && b in s.passes[p].bindings
        ensures Entry(t.live, b.host, b.token) == Some(p)
      {
        assert Entry(s.live, b.host, b.token) == Some(p);
      }
      forall k, u | Entry(t.live, k, u).Some?
        ensures Backs(s.passes, Entry(t.live, k, u).value, Binding(k, u))
      {
        assert Entry(s.live, k, u) == Entry(t.live, k, u);
      }
    }
  }

  lemma WithoutOk(passes: map<PassId, Pass>, next: map<PassId, Pass>, working: set<HostId>, h: HostId, todo: set<PassId>, p: PassId)
    requires p in passes && h !in working && BindingsOk(passes, working, h, todo)
    requires Others(passes, next, p) && next[p].bindings == Without(passes[p].bindings, Some(h))
    ensures BindingsOk(next, working, h, todo - {p})
    ensures AllBound(passes, working, h, {}) ==> AllBound(next, working, h, {})
  {
    var kept := Without(passes[p].bindings, Some(h));
    WithoutMembers(passes[p].bindings, Some(h));
    forall k | k in HostsOf(passes[p].bindings) && k != h
      ensures k in HostsOf(kept)
    {
      var b :| b in passes[p].bindings && b.host == k;
      assert b in kept;
    }
  }

  /** What is still to be looked at, and what has been, makes up the result. */
  ghost predicate Unbinding(now: seq<Binding>, all: seq<Binding>, only: Option<HostId>, i: nat) {
    i <= |now| && Without(now[..i], only) + now[i..] == Without(all, only)
  }

  /** Bindings of a pass being taken off, those from place `n` on looked at. */
  ghost predicate Taking(start: State, s: State, registered: nat, sound: bool, p: PassId, only: Option<HostId>, n: nat) {
    && Shape(s, registered) && Rebound(start, s, sound) && Others(start.passes, s.passes, p)
    && p in s.passes && n <= |s.passes[p].bindings|
    && Unbinding(s.passes[p].bindings, start.passes[p].bindings, only, n)
    && Distinct(s.passes[p].bindings) && forall b :: b in s.passes[p].bindings ==> b.host in s.live
  }

  lemma TakingStarts(s: State, registered: nat, sound: bool, p: PassId, only: Option<HostId>)
    requires Shape(s, registered) && p in s.passes && Distinct(s.passes[p].bindings)
    requires forall b :: b in s.passes[p].bindings ==> b.host in s.live
    ensures Taking(s, s, registered, sound, p, only, |s.passes[p].bindings|)
  {
    var all := s.passes[p].bindings;
    assert all[..|all|] == all && Without(all, only) + [] == Without(all, only);
  }

  /** One binding taken off, whatever its device answers. */
  lemma TakingOn(start: State, s: State, registered: nat, sound: bool, p: PassId, only: Option<HostId>, i: nat, ok: bool, t: State)
    requires Taking(start, s, registered, sound, p, only, i + 1) && (sound ==> ok)
    requires !(only.Some? && s.passes[p].bindings[i].host != only.value) && t == Unbound(s, p, i, ok)
    ensures Taking(start, t, registered, sound, p, only, i)
  {
    UnboundMoves(s, registered, p, i, ok);
    WithoutDrops(s.passes[p].bindings, i, only);
    ReboundFurther(start, s, t, sound, ok, p);
  }

  /** A binding that is not asked for stays. */
  lemma TakingPast(start: State, s: State, registered: nat, sound: bool, p: PassId, only: Option<HostId>, i: nat)
    requires Taking(start, s, registered, sound, p, only, i + 1)
    requires only.Some? && s.passes[p].bindings[i].host != only.value
    ensures Taking(start, s, registered, sound, p, only, i)
  {
    WithoutKeeps(s.passes[p].bindings, i, only);
  }

  lemma ReboundFurther(start: State, s: State, t: State, sound: bool, ok: bool, p: PassId)
    requires Rebound(start, s, sound) && Rebound(s, t, ok) && (sound ==> ok)
    requires Others(start.passes, s.passes, p) && t.passes.Keys == s.passes.Keys
    requires forall q :: q in t.passes && q != p ==> t.passes[q] == s.passes[q]
    ensures Rebound(start, t, sound) && Others(start.passes, t.passes, p)
  {
  }

  lemma TakingEnds(start: State, s: State, registered: nat, sound: bool, p: PassId, only: Option<HostId>)
    requires Taking(start, s, registered, sound, p, only, 0)
    ensures s.passes[p].bindings == Without(start.passes[p].bindings, only)
  {
    var last := s.passes[p].bindings;
    assert last[..0] == [] && last[0..] == last && Without([], only) == [] && [] + last == last;
  }

  lemma WithoutKeeps(now: seq<Binding>, i: nat, only: Option<HostId>)
    requires i < |now| && only.Some? && now[i].host != only.value
    ensures Without(now[..i], only) + now[i..] == Without(now[..i + 1], only) + now[i + 1..]
  {
    assert now[..i + 1][..i] == now[..i] && now[i..] == [now[i]] + now[i + 1..];
  }

  lemma WithoutDrops(now: seq<Binding>, i: nat, only: Option<HostId>)
    requires i < |now| && !(only.Some? && now[i].host != only.value)
    ensures Without(Erased(now, i)[..i], only) + Erased(now, i)[i..] == Without(now[..i + 1], only) + now[i + 1..]
  {
    assert now[..i + 1][..i] == now[..i] && Erased(now, i)[..i] == now[..i] && Erased(now, i)[i..] == now[i + 1..];
  }

  lemma TokensKept(before: map<PassId, Pass>, after: map<PassId, Pass>, registered: nat, nextPass: nat)
    requires TokensOk(before, registered, nextPass) && after.Keys == before.Keys
    requires forall p :: p in after ==> after[p].token == before[p].token
    ensures TokensOk(after, registered, nextPass)
  {
    assert forall p :: p in after ==> p in before;
  }

  lemma BindOk(passes: map<PassId, Pass>, working: set<HostId>, p: PassId, b: Binding)
    requires p in passes && b.host in working
    requires BindingsOk(passes, working, 0, {})
    requires forall j :: 0 <= j < |passes[p].bindings| ==> passes[p].bindings[j].host != b.host
    ensures BindingsOk(Bind(passes, p, b), working, 0, {})
    ensures HostsOf(Bind(passes, p, b)[p].bindings) == HostsOf(passes[p].bindings) + {b.host}
  {
    var next := Bind(passes, p, b);
    assert forall c :: c in next[p].bindings <==> c in passes[p].bindings || c == b;
  }

  // ---- Runs -----------------------------------------------------------------------------------------

  /** The event takes a pass of this owner and token away. */
  predicate Takes(event: Event, plugin: nat, token: nat) {
    || event == Unload(plugin)
    || (event.Unregister? && event.plugin == plugin && event.token == token && !event.inRecord)
  }

  method Handle(h: Host, event: Event)
    requires h.Valid()
    modifies h
    ensures h.Valid() && (old(h.faults) == [] ==> h.faults == [])
    ensures old(h.faults) == [] && Exact(old(h.s)) ==> Exact(h.s)
    ensures forall p :: p in old(h.s).passes && !Takes(event, old(h.s).passes[p].owner, old(h.s).passes[p].token) ==>
      Stays(old(h.s).passes, h.s.passes, p)
    ensures forall plugin :: plugin in old(h.s).plugins && event != Unload(plugin) ==> plugin in h.s.plugins
    ensures old(h.registered) <= h.registered
    ensures h.registered < TWO_64 ==> BookOf(h.s) == BookAfter(BookOf(old(h.s)), event)
  {
    match event {
      case Load(plugin) => h.s := h.s.(plugins := h.s.plugins + {plugin});
      case Unload(plugin) => h.UnloadPlugin(plugin);
      case Register(plugin, proper) => var _, _ := h.RegisterPass(plugin, proper);
      case Unregister(plugin, inRecord, token) => var _ := h.UnregisterPass(plugin, inRecord, token);
      case Attach(supported) => var _ := h.Attach(supported);
      case Suspend(k) => if k in h.s.hosts { h.Suspend(k); }
      case Resume(k) => if k in h.s.hosts { h.Resume(k); }
      case Detach(k) => if k in h.s.hosts { h.Detach(k); }
    }
  }

  /** Every run keeps bindings on hosts at work, no host twice; and as long as the
      devices answer well, they hold every pass on every host at work, and no pass
      that is gone. A pass that is not taken away stays. And until the tokens wrap the
      books are those of the events, whatever the devices answer. */
  method Run(h: Host, events: seq<Event>)
    requires h.Valid()
    modifies h
    ensures h.Valid() && (old(h.faults) == [] ==> h.faults == [])
    ensures old(h.faults) == [] && Exact(old(h.s)) ==> Exact(h.s)
    ensures forall p :: p in old(h.s).passes && TakenByNone(events, old(h.s).passes[p].owner, old(h.s).passes[p].token) ==>
      Stays(old(h.s).passes, h.s.passes, p)
    ensures forall plugin :: plugin in old(h.s).plugins && Unload(plugin) !in events ==> plugin in h.s.plugins
    ensures old(h.registered) <= h.registered
    ensures h.registered < TWO_64 ==> BookOf(h.s) == BookAll(BookOf(old(h.s)), events)
  {
    for i := 0 to |events|
      invariant old(h.registered) <= h.registered
      invariant h.registered < TWO_64 ==> BookOf(h.s) == BookAll(BookOf(old(h.s)), events[..i])
      invariant h.Valid() && (old(h.faults) == [] ==> h.faults == [])
      invariant old(h.faults) == [] && Exact(old(h.s)) ==> Exact(h.s)
      invariant forall p :: p in old(h.s).passes && TakenByNone(events, old(h.s).passes[p].owner, old(h.s).passes[p].token) ==>
        Stays(old(h.s).passes, h.s.passes, p)
      invariant forall plugin :: plugin in old(h.s).plugins && Unload(plugin) !in events ==> plugin in h.s.plugins
    {
      Handle(h, events[i]);
      assert events[..i + 1][..i] == events[..i];
    }
    assert events[..|events|] == events;
  }

  predicate TakenByNone(events: seq<Event>, plugin: nat, token: nat) {
    forall i :: 0 <= i < |events| ==> !Takes(events[i], plugin, token)
  }

  method GiveUp(h: Host, plugin: nat, token: nat, ghost p: PassId) returns (result: Result)
    requires h.Valid() && plugin in h.s.plugins && token != 0 && p in h.s.passes && Carries(h.s.passes[p], plugin, token)
    modifies h`s, h`faults
    ensures h.Valid() && result == Done && (old(h.faults) == [] && Exact(old(h.s)) ==> Exact(h.s))
    ensures h.registered < TWO_64 ==> p !in h.s.passes && forall q :: q in h.s.passes ==> !Carries(h.s.passes[q], plugin, token)
    ensures h.registered < TWO_64 ==> BookOf(h.s) == BookAfter(BookOf(old(h.s)), Unregister(plugin, false, token))
  {
    ghost var before := h.s;
    assert h.s.passes[p].owner == plugin && h.s.passes[p].token == token;
    result := h.UnregisterPass(plugin, false, token);
    if h.registered < TWO_64 {
      OnlyOne(before, h.s, h.registered, plugin, token, p);
    }
  }

  /** A token that was given out, and whose pass nobody has taken away since, can be
      handed back: the pass is then gone from the bridge, no other has its token,
      and devices that answer well no longer hold it. The one limit is the 64-bit
      counter of the tokens. */
  method HandBack(h: Host, plugin: nat, between: seq<Event>) returns (result: Result, ghost p: PassId)
    requires h.Valid() && plugin in h.s.plugins && h.registered + 1 < TWO_64
    requires TakenByNone(between, plugin, TokenOf(h.registered + 1))
    modifies h
    ensures h.Valid() && p == old(h.s).nextPass && result == Done
    ensures h.registered < TWO_64 ==> p !in h.s.passes
    ensures var run := [Register(plugin, true)] + between + [Unregister(plugin, false, TokenOf(old(h.registered) + 1))];
      h.registered < TWO_64 ==> BookOf(h.s) == BookAll(BookOf(old(h.s)), run)
    ensures h.registered < TWO_64 ==>
      forall q :: q in h.s.passes ==> !Carries(h.s.passes[q], plugin, TokenOf(old(h.registered) + 1))
    ensures h.registered < TWO_64 && old(h.faults) == [] && Exact(old(h.s)) ==> forall k, t :: Entry(h.s.live, k, t) != Some(p)
  {
    p := h.s.nextPass;
    var given, token := h.RegisterPass(plugin, true);
    ghost var start := h.s;
    Run(h, between);
    NotUnloaded(between, plugin, token);
    assert Stays(start.passes, h.s.passes, p);
    result := GiveUp(h, plugin, token, p);
    BookRoundTrip(BookOf(old(h.s)), Register(plugin, true), between, Unregister(plugin, false, token));
    if Mirrors(h.s.live, h.s.passes) && p !in h.s.passes {
      NobodyHolds(h.s.live, h.s.passes, p);
    }
  }

  lemma BookRoundTrip(b: Book, first: Event, between: seq<Event>, last: Event)
    ensures BookAll(b, [first] + between + [last]) == BookAfter(BookAll(BookAfter(b, first), between), last)
  {
    BookConcat(b, [first], between);
    BookConcat(b, [first] + between, [last]);
    assert [first][..0] == [] && [last][..0] == [];
  }

  lemma NotUnloaded(events: seq<Event>, plugin: nat, token: nat)
    requires TakenByNone(events, plugin, token)
    ensures Unload(plugin) !in events
  {
    forall i | 0 <= i < |events|
      ensures events[i] != Unload(plugin)
    {
      assert !Takes(events[i], plugin, token);
    }
  }

  lemma NobodyHolds(live: Registry, passes: map<PassId, Pass>, p: PassId)
    requires Mirrors(live, passes) && p !in passes
    ensures forall k, t :: Entry(live, k, t) != Some(p)
  {
    forall k, t ensures Entry(live, k, t) != Some(p) {
      assert Entry(live, k, t).Some? ==> Backs(passes, Entry(live, k, t).value, Binding(k, t));
    }
  }

  /** While tokens are distinct the pass that goes is the one that was meant. */
  lemma OnlyOne(before: State, after: State, registered: nat, plugin: nat, token: nat, p: PassId)
    requires TokensOk(before.passes, registered, before.nextPass) && registered < TWO_64
    requires p in before.passes && Carries(before.passes[p], plugin, token) && Unregistered(before.passes, after.passes, plugin, token)
    ensures after.passes == before.passes - {p} && forall q :: q in after.passes ==> !Carries(after.passes[q], plugin, token)
  {
  }
}
