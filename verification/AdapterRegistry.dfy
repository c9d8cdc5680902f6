// Which performance adapter owns a module: definitions are put in registration
// order, names are made unique, and tokens go to the first adapter that lists them.
module AdapterRegistry {
  import opened Words
  import opened ModulePath

  datatype Kind = ModuleGroup | Hybrid | ConfigSnapshot | SharedLayer

  datatype Definition = Definition(
    name: string, order: nat, kind: Kind, enabled: bool, modules: seq<string>, sharedModules: seq<string>)

  datatype Warning = Warning(code: string, adapter: string, other: string)

  // ---- Sorting ----------------------------------------------------------------------------

  predicate Sorted(s: seq<Definition>) {
    forall i, j :: 0 <= i < j < |s| ==> s[i].order <= s[j].order
  }

  /** Puts a definition after all that come no later. */
  function Insert(s: seq<Definition>, d: Definition): (r: seq<Definition>)
    ensures multiset(r) == multiset(s) + multiset{d}
  {
    if s == [] || s[|s| - 1].order <= d.order then s + [d]
    else
      var init, last := s[..|s| - 1], s[|s| - 1];
      assert s == init + [last];
      Insert(init, d) + [last]
  }

  function StableSort(s: seq<Definition>): (r: seq<Definition>)
    ensures multiset(r) == multiset(s)
  {
    if s == [] then []
    else
      var init, last := s[..|s| - 1], s[|s| - 1];
      assert s == init + [last];
      Insert(StableSort(init), last)
  }

  lemma {:induction false} InsertSorted(s: seq<Definition>, d: Definition)
    requires Sorted(s)
    ensures Sorted(Insert(s, d))
    ensures forall x :: x in Insert(s, d) <==> x in s || x == d
  {
    if s != [] && s[|s| - 1].order > d.order {
      var init, last := s[..|s| - 1], s[|s| - 1];
      InsertSorted(init, d);
      var r := Insert(init, d);
      forall i | 0 <= i < |r| ensures r[i].order <= last.order {
        assert r[i] in r;
      }
    }
  }

  lemma {:induction false} SortSorted(s: seq<Definition>)
    ensures Sorted(StableSort(s))
  {
    if s != [] {
      SortSorted(s[..|s| - 1]);
      InsertSorted(StableSort(s[..|s| - 1]), s[|s| - 1]);
    }
  }

  /** Definitions of the same registration order keep their places. */
  function Only(s: seq<Definition>, order: nat): seq<Definition> {
    if s == [] then []
    else Only(s[..|s| - 1], order) + if s[|s| - 1].order == order then [s[|s| - 1]] else []
  }

  lemma OnlyLast(s: seq<Definition>, d: Definition, order: nat)
    ensures Only(s + [d], order) == Only(s, order) + if d.order == order then [d] else []
  {
    assert (s + [d])[..|s|] == s;
  }

  lemma {:induction false} InsertStable(s: seq<Definition>, d: Definition, order: nat)
    requires Sorted(s)
    ensures Only(Insert(s, d), order) == Only(s, order) + if d.order == order then [d] else []
  {
    if s == [] || s[|s| - 1].order <= d.order {
      OnlyLast(s, d, order);
    } else {
      var init, last := s[..|s| - 1], s[|s| - 1];
      InsertStable(init, d, order);
      OnlyLast(Insert(init, d), last, order);
      OnlyLast(init, last, order);
      assert s == init + [last] && d.order < last.order;
      assert Insert(s, d) == Insert(init, d) + [last];
      if last.order == order {
        assert d.order != order;
      }
    }
  }

  lemma {:induction false} SortStable(s: seq<Definition>, order: nat)
    ensures Only(StableSort(s), order) == Only(s, order)
  {
    if s != [] {
      SortStable(s[..|s| - 1], order);
      SortSorted(s[..|s| - 1]);
      InsertStable(StableSort(s[..|s| - 1]), s[|s| - 1], order);
    }
  }

  predicate DistinctOrders(s: seq<Definition>) {
    forall i, j :: 0 <= i < j < |s| ==> s[i].order != s[j].order
  }

  /** Strictly increasing lists with the same elements are the same. */
  lemma {:induction false} SortedUnique(s: seq<Definition>, t: seq<Definition>)
    requires multiset(s) == multiset(t) && Sorted(s) && Sorted(t) && DistinctOrders(s) && DistinctOrders(t)
    ensures s == t
  {
    if s == [] {
      assert |multiset(t)| == 0;
    } else {
      var n := |s| - 1;
      assert |multiset(s)| == |multiset(t)|;
      LastIsGreatest(s, t);
      WithoutLast(s);
      WithoutLast(t);
      SortedUnique(s[..n], t[..n]);
    }
  }

  lemma WithoutLast(s: seq<Definition>)
    requires s != [] && Sorted(s) && DistinctOrders(s)
    ensures var init := s[..|s| - 1];
      && Sorted(init) && DistinctOrders(init) && multiset(init) == multiset(s) - multiset{s[|s| - 1]}
      && s == init + [s[|s| - 1]]
  {
    assert s == s[..|s| - 1] + [s[|s| - 1]];
  }

  lemma LastIsGreatest(s: seq<Definition>, t: seq<Definition>)
    requires multiset(s) == multiset(t) && |s| == |t| > 0 && Sorted(s) && Sorted(t) && DistinctOrders(s)
    ensures s[|s| - 1] == t[|t| - 1]
  {
    var n := |s| - 1;
    assert s[n] in multiset(s) && t[n] in multiset(t);
    var i :| 0 <= i < |t| && t[i] == s[n];
    var j :| 0 <= j < |s| && s[j] == t[n];
    assert t[i].order <= t[n].order && s[j].order <= s[n].order;
  }

  lemma DistinctMoves(s: seq<Definition>, t: seq<Definition>)
    requires multiset(s) == multiset(t) && DistinctOrders(s)
    ensures DistinctOrders(t)
  {
    forall i, j | 0 <= i < j < |t|
      ensures t[i].order != t[j].order
    {
      if t[i].order == t[j].order {
        TwiceIn(t, i, j);
        assert t[i] in multiset(s) && t[j] in multiset(s);
        var a :| 0 <= a < |s| && s[a] == t[i];
        var b :| 0 <= b < |s| && s[b] == t[j];
        assert a == b;
        OnceIn(s, a);
      }
    }
  }

  lemma TwiceIn(t: seq<Definition>, i: nat, j: nat)
    requires i < j < |t|
    ensures t[i] == t[j] ==> multiset(t)[t[i]] >= 2
  {
    assert t == t[..i] + [t[i]] + t[i + 1..j] + [t[j]] + t[j + 1..];
  }

  lemma OnceIn(s: seq<Definition>, a: nat)
    requires a < |s| && DistinctOrders(s)
    ensures multiset(s)[s[a]] == 1
  {
    assert s == s[..a] + [s[a]] + s[a + 1..];
    assert s[a] !in s[..a] && s[a] !in s[a + 1..];
  }

  /** With distinct registration orders, the order of the input does not matter. */
  lemma SortPermutation(s: seq<Definition>, t: seq<Definition>)
    requires multiset(s) == multiset(t) && DistinctOrders(s)
    ensures StableSort(s) == StableSort(t)
  {
    SortSorted(s);
    SortSorted(t);
    DistinctMoves(s, StableSort(s));
    DistinctMoves(s, StableSort(t));
    SortedUnique(StableSort(s), StableSort(t));
  }

  // ---- Names --------------------------------------------------------------------------------

  /** The first of the definitions that has a name, compared without case. */
  function FirstNamed(s: seq<Definition>, name: string): Option<nat> {
    if s == [] then None
    else match FirstNamed(s[..|s| - 1], name)
      case Some(i) => Some(i)
      case None => if Named(s[|s| - 1], name) then Some(|s| - 1) else None
  }

  function Kept(s: seq<Definition>): seq<Definition> {
    if s == [] then []
    else
      var init, last := Kept(s[..|s| - 1]), s[|s| - 1];
      if FirstNamed(init, Fold(last.name)).Some? then init else init + [last]
  }

  function Dropped(s: seq<Definition>): seq<Definition> {
    if s == [] then []
    else
      var init, last := Dropped(s[..|s| - 1]), s[|s| - 1];
      if FirstNamed(Kept(s[..|s| - 1]), Fold(last.name)).Some? then init + [last] else init
  }

  predicate UniqueNames(s: seq<Definition>) {
    forall i, j :: 0 <= i < j < |s| ==> !Named(s[i], Fold(s[j].name))
  }

  lemma {:induction false} FirstNamedIs(s: seq<Definition>, name: string)
    ensures FirstNamed(s, name) == None <==> forall i :: 0 <= i < |s| ==> !Named(s[i], name)
    ensures FirstNamed(s, name).Some? ==> FirstNamed(s, name).value < |s| && Named(s[FirstNamed(s, name).value], name)
  {
    if s != [] {
      var init := s[..|s| - 1];
      FirstNamedIs(init, name);
      assert forall i :: 0 <= i < |init| ==> s[i] == init[i];
    }
  }

  predicate Named(d: Definition, name: string) {
    Fold(d.name) == name
  }

  lemma OneMore(kept: seq<Definition>, dropped: seq<Definition>, init: seq<Definition>, last: Definition)
    requires multiset(kept) + multiset(dropped) == multiset(init)
    ensures multiset(kept + [last]) + multiset(dropped) == multiset(init + [last])
    ensures multiset(kept) + multiset(dropped + [last]) == multiset(init + [last])
  {
    assert multiset(init + [last]) == multiset(init) + multiset{last};
  }

  /** The last definition of a list goes to the kept ones or to the dropped ones. */
  predicate Splits(kept: seq<Definition> -> seq<Definition>, dropped: seq<Definition> -> seq<Definition>,
                   s: seq<Definition>)
    requires s != []
  {
    var init, last := s[..|s| - 1], s[|s| - 1];
    || (kept(s) == kept(init) && dropped(s) == dropped(init) + [last])
    || (kept(s) == kept(init) + [last] && dropped(s) == dropped(init))
  }

  lemma {:induction false} PartsAccount(kept: seq<Definition> -> seq<Definition>,
                                        dropped: seq<Definition> -> seq<Definition>, s: seq<Definition>)
    requires kept([]) == [] && dropped([]) == []
    requires forall t :: t != [] ==> Splits(kept, dropped, t)
    ensures multiset(kept(s)) + multiset(dropped(s)) == multiset(s)
  {
    if s != [] {
      var init, last := s[..|s| - 1], s[|s| - 1];
      PartsAccount(kept, dropped, init);
      assert Splits(kept, dropped, s) && s == init + [last];
      OneMore(kept(init), dropped(init), init, last);
    }
  }

  /** Nothing is lost but is told of. */
  lemma KeptAndDropped(s: seq<Definition>)
    ensures multiset(Kept(s)) + multiset(Dropped(s)) == multiset(s)
  {
    PartsAccount(Kept, Dropped, s);
  }

  /** Of each name the first definition is kept. */
  lemma {:induction false} KeptUnique(s: seq<Definition>)
    ensures UniqueNames(Kept(s))
    ensures Sorted(s) ==> Sorted(Kept(s))
    ensures forall d :: d in Kept(s) ==> d in s
    ensures forall d :: d in s ==> FirstNamed(Kept(s), Fold(d.name)).Some?
  {
    if s != [] {
      var init, last := s[..|s| - 1], s[|s| - 1];
      assert s == init + [last];
      KeptUnique(init);
      FirstNamedIs(Kept(init), Fold(last.name));
      KeptStep(Kept(init), init, last);
    }
  }

  lemma KeptStep(kept: seq<Definition>, init: seq<Definition>, last: Definition)
    requires UniqueNames(kept) && (forall d :: d in kept ==> d in init) && (Sorted(init) ==> Sorted(kept))
    requires forall d :: d in init ==> FirstNamed(kept, Fold(d.name)).Some?
    ensures FirstNamed(kept, Fold(last.name)).None? ==> UniqueNames(kept + [last])
    ensures Sorted(init + [last]) ==> Sorted(kept) && Sorted(kept + [last])
    ensures forall d :: d in init ==> FirstNamed(kept + [last], Fold(d.name)).Some?
    ensures FirstNamed(kept + [last], Fold(last.name)).Some?
  {
    FirstNamedIs(kept, Fold(last.name));
    assert (kept + [last])[..|kept|] == kept;
    if Sorted(init + [last]) {
      LongerSorted(kept, init, last);
    }
  }

  lemma LongerSorted(kept: seq<Definition>, init: seq<Definition>, last: Definition)
    requires (forall d :: d in kept ==> d in init) && (Sorted(init) ==> Sorted(kept)) && Sorted(init + [last])
    ensures Sorted(kept) && Sorted(kept + [last])
  {
    var all := init + [last];
    assert forall i :: 0 <= i < |init| ==> all[i] == init[i];
    assert forall i :: 0 <= i < |init| ==> all[i].order <= all[|init|].order;
    forall i | 0 <= i < |kept|
      ensures kept[i].order <= last.order
    {
      assert kept[i] in init;
      var j :| 0 <= j < |init| && init[j] == kept[i];
    }
  }

  // ---- Tokens -----------------------------------------------------------------------------------

  predicate HasSlash(token: string) {
    exists i :: 0 <= i < |token| && token[i] == '/'
  }

  /** Owners of tokens; paths and bare names are kept apart. */
  datatype Claims = Claims(full: map<string, nat>, base: map<string, nat>) {
    function Get(token: string): Option<nat> {
      var m := if HasSlash(token) then full else base;
      if token in m then Some(m[token]) else None
    }

    function Put(token: string, index: nat): Claims {
      if HasSlash(token) then this.(full := full[token := index]) else this.(base := base[token := index])
    }

    /** Paths are keys of one map, bare names of the other. */
    predicate Apart() {
      (forall t :: t in full ==> HasSlash(t)) && (forall t :: t in base ==> !HasSlash(t))
    }
  }

  predicate Lists(paths: seq<string>, token: string) {
    token != "" && exists i :: 0 <= i < |paths| && Norm(paths[i]) == token
  }

  predicate Owns(d: Definition, token: string) {
    d.enabled && (d.kind == ModuleGroup || d.kind == Hybrid) && Lists(d.modules, token)
  }

  predicate Shares(d: Definition, token: string) {
    && d.enabled && d.kind != ConfigSnapshot
    && (Lists(d.sharedModules, token) || (d.kind == SharedLayer && Lists(d.modules, token)))
  }

  predicate Layers(d: Definition, token: string) {
    d.enabled && d.kind == SharedLayer && (Lists(d.sharedModules, token) || Lists(d.modules, token))
  }

  /** The first adapter that claims a token. */
  function FirstClaim(adapters: seq<Definition>, claims: (Definition, string) -> bool, token: string): Option<nat> {
    if adapters == [] then None
    else match FirstClaim(adapters[..|adapters| - 1], claims, token)
      case Some(i) => Some(i)
      case None => if claims(adapters[|adapters| - 1], token) then Some(|adapters| - 1) else None
  }

  /** It is the claiming adapter of least registration order. */
  lemma {:induction false} FirstClaimIsLeast(adapters: seq<Definition>, claims: (Definition, string) -> bool, token: string)
    ensures FirstClaim(adapters, claims, token) == None <==> forall i :: 0 <= i < |adapters| ==> !claims(adapters[i], token)
    ensures var f := FirstClaim(adapters, claims, token); f.Some? ==>
      f.value < |adapters| && claims(adapters[f.value], token)
    ensures var f := FirstClaim(adapters, claims, token); f.Some? && Sorted(adapters) ==>
      forall j :: 0 <= j < |adapters| && claims(adapters[j], token) ==> adapters[f.value].order <= adapters[j].order
  {
    if adapters != [] {
      FirstClaimIsLeast(adapters[..|adapters| - 1], claims, token);
    }
  }

  /** What claiming a list of paths for one adapter does to the claims. */
  ghost predicate Claimed(before: Claims, after: Claims, paths: seq<string>, index: nat) {
    forall t :: after.Get(t) == if before.Get(t).Some? then before.Get(t) else if Lists(paths, t) then Some(index) else None
  }

  /** Who has the token of path `i` when it is reached: the one who had it before,
      or the adapter itself if an earlier path gave it that token. */
  ghost function Taker(claims: Claims, paths: seq<string>, i: nat, index: nat): Option<nat>
    requires i < |paths|
  {
    var token := Norm(paths[i]);
    if token == "" then None
    else if claims.Get(token).Some? then claims.Get(token)
    else if Lists(paths[..i], token) then Some(index)
    else None
  }

  /** One warning for each taken token among the first `n` paths, in order, that
      names the adapter and the taker. */
  ghost function Told(claims: Claims, paths: seq<string>, index: nat, adapters: seq<Definition>, code: string, quiet: bool, n: nat)
    : seq<Warning>
    requires n <= |paths| && index < |adapters| && forall t :: claims.Get(t).Some? ==> claims.Get(t).value < |adapters|
  {
    if n == 0 then []
    else
      var init, taker := Told(claims, paths, index, adapters, code, quiet, n - 1), Taker(claims, paths, n - 1, index);
      if taker.Some? && !(quiet && taker.value == index)
      then init + [Warning(code, adapters[index].name, adapters[taker.value].name)] else init
  }

  /** Claims tokens for an adapter; those that are taken are told of, by name of the
      taker, unless that is the adapter itself and `quiet`. */
  method ClaimAll(claims: Claims, paths: seq<string>, index: nat, adapters: seq<Definition>, code: string, quiet: bool)
    returns (after: Claims, warnings: seq<Warning>)
    requires index < |adapters| && forall t :: claims.Get(t).Some? ==> claims.Get(t).value < |adapters|
    ensures Claimed(claims, after, paths, index)
    ensures forall t :: after.Get(t).Some? ==> after.Get(t).value < |adapters|
    ensures warnings == Told(claims, paths, index, adapters, code, quiet, |paths|)
  {
    after, warnings := claims, [];
    for i := 0 to |paths|
      invariant Claimed(claims, after, paths[..i], index)
      invariant warnings == Told(claims, paths, index, adapters, code, quiet, i)
    {
      var token := Norm(paths[i]);
      ghost var mid := after;
      if token != "" {
        var owner := after.Get(token);
        assert owner == Taker(claims, paths, i, index);
        if owner.Some? {
          if !(quiet && owner.value == index) {
            warnings := warnings + [Warning(code, adapters[index].name, adapters[owner.value].name)];
          }
        } else {
          after := after.Put(token, index);
        }
      }
      ClaimedNext(claims, mid, after, paths, i, index);
    }
    assert paths[..|paths|] == paths;
  }

  lemma ListsNext(paths: seq<string>, i: nat, token: string)
    requires i < |paths|
    ensures Lists(paths[..i + 1], token) <==> Lists(paths[..i], token) || (token != "" && Norm(paths[i]) == token)
  {
    var shorter, longer := paths[..i], paths[..i + 1];
    assert longer[i] == paths[i] && forall j :: 0 <= j < i ==> longer[j] == shorter[j];
  }

  lemma ClaimedNext(before: Claims, mid: Claims, after: Claims, paths: seq<string>, i: nat, index: nat)
    requires i < |paths| && Claimed(before, mid, paths[..i], index)
    requires var t := Norm(paths[i]); after == if t == "" || mid.Get(t).Some? then mid else mid.Put(t, index)
    ensures Claimed(before, after, paths[..i + 1], index)
  {
    forall t ensures Lists(paths[..i + 1], t) <==> Lists(paths[..i], t) || (t != "" && Norm(paths[i]) == t) {
      ListsNext(paths, i, t);
    }
  }

  // ---- The registry ---------------------------------------------------------------------------------

  function OwnerOf(adapters: seq<Definition>, token: string): Option<nat> {
    FirstClaim(adapters, Owns, token)
  }

  function LayerOf(adapters: seq<Definition>, token: string): Option<nat> {
    FirstClaim(adapters, Layers, token)
  }

  predicate SharedBy(adapters: seq<Definition>, token: string) {
    exists i :: 0 <= i < |adapters| && Shares(adapters[i], token)
  }

  /** Each token is with the first adapter that claims it, and nothing else is claimed. */
  ghost predicate Matches(adapters: seq<Definition>, owners: Claims, layers: Claims, shared: set<string>) {
    && (forall t :: owners.Get(t) == OwnerOf(adapters, t))
    && (forall t :: layers.Get(t) == LayerOf(adapters, t))
    && (forall t :: t in shared <==> SharedBy(adapters, t))
  }

  lemma FirstClaimNext(adapters: seq<Definition>, i: nat, claims: (Definition, string) -> bool, token: string)
    requires i < |adapters|
    ensures FirstClaim(adapters[..i + 1], claims, token) ==
      if FirstClaim(adapters[..i], claims, token).Some? then FirstClaim(adapters[..i], claims, token)
      else if claims(adapters[i], token) then Some(i) else None
  {
    assert adapters[..i + 1][..i] == adapters[..i];
  }

  /** The tokens of a list of paths. */
  ghost predicate Gathered(tokens: set<string>, paths: seq<string>) {
    forall t :: t in tokens <==> Lists(paths, t)
  }

  lemma GatheredNext(tokens: set<string>, paths: seq<string>, i: nat, token: string, more: set<string>)
    requires i < |paths| && Gathered(tokens, paths[..i]) && token == Norm(paths[i])
    requires more == if token == "" then tokens else tokens + {token}
    ensures Gathered(more, paths[..i + 1])
  {
    forall t ensures t in more <==> Lists(paths[..i + 1], t) {
      ListsNext(paths, i, t);
    }
  }

  method Tokens(paths: seq<string>) returns (tokens: set<string>)
    ensures Gathered(tokens, paths)
  {
    tokens := {};
    for i := 0 to |paths|
      invariant Gathered(tokens, paths[..i])
    {
      var token, before := Norm(paths[i]), tokens;
      if token != "" {
        tokens := tokens + {token};
      }
      GatheredNext(before, paths, i, token, tokens);
    }
    assert paths[..|paths|] == paths;
  }

  class Registry {
    var adapters: seq<Definition>
    var warnings: seq<Warning>
    var owners: Claims
    var layers: Claims
    var shared: set<string>

    ghost predicate Valid()
      reads this
    {
      Matches(adapters, owners, layers, shared)
    }

    /** Builds the registry of the given definitions. */
    constructor (definitions: seq<Definition>)
      ensures Valid() && adapters == Kept(StableSort(definitions))
      ensures |Dropped(StableSort(definitions))| <= |warnings|
      ensures forall i :: 0 <= i < |Dropped(StableSort(definitions))| ==>
        warnings[i].code == "duplicate-adapter-name" && warnings[i].adapter == Dropped(StableSort(definitions))[i].name
    {
      adapters, warnings := [], [];
      owners, layers, shared := Claims(map[], map[]), Claims(map[], map[]), {};
      new;
      KeepNames(StableSort(definitions));
      AddAdapters();
    }

    method AddAdapters()
      requires owners == layers == Claims(map[], map[]) && shared == {}
      modifies `owners, `layers, `shared, `warnings
      ensures Valid() && old(warnings) <= warnings
    {
      assert adapters[..0] == [];
      for i := 0 to |adapters|
        invariant Matches(adapters[..i], owners, layers, shared) && old(warnings) <= warnings
        invariant forall t :: owners.Get(t).Some? ==> owners.Get(t).value < |adapters|
        invariant forall t :: layers.Get(t).Some? ==> layers.Get(t).value < |adapters|
      {
        AddAdapter(i);
      }
      assert adapters[..|adapters|] == adapters;
    }

    /** Keeps the first definition of each name, and warns of the others. */
    method KeepNames(sorted: seq<Definition>)
      requires adapters == [] && warnings == []
      modifies `adapters, `warnings
      ensures adapters == Kept(sorted) && |warnings| == |Dropped(sorted)|
      ensures forall i :: 0 <= i < |warnings| ==>
        warnings[i].code == "duplicate-adapter-name" && warnings[i].adapter == Dropped(sorted)[i].name
    {
      assert sorted[..0] == [];
      for i := 0 to |sorted|
        invariant adapters == Kept(sorted[..i]) && |warnings| == |Dropped(sorted[..i])|
        invariant forall j :: 0 <= j < |warnings| ==>
          warnings[j].code == "duplicate-adapter-name" && warnings[j].adapter == Dropped(sorted[..i])[j].name
      {
        assert sorted[..i + 1][..i] == sorted[..i];
        var existing := FirstNamed(adapters, Fold(sorted[i].name));
        FirstNamedIs(adapters, Fold(sorted[i].name));
        if existing.Some? {
          warnings := warnings + [Warning("duplicate-adapter-name", sorted[i].name, adapters[existing.value].name)];
        } else {
          adapters := adapters + [sorted[i]];
        }
      }
      assert sorted[..|sorted|] == sorted;
    }

    /** The claims of one adapter. */
    method AddAdapter(i: nat)
      requires i < |adapters| && Matches(adapters[..i], owners, layers, shared)
      requires forall t :: owners.Get(t).Some? ==> owners.Get(t).value < |adapters|
      requires forall t :: layers.Get(t).Some? ==> layers.Get(t).value < |adapters|
      modifies `owners, `layers, `shared, `warnings
      ensures Matches(adapters[..i + 1], owners, layers, shared)
      ensures forall t :: owners.Get(t).Some? ==> owners.Get(t).value < |adapters|
      ensures forall t :: layers.Get(t).Some? ==> layers.Get(t).value < |adapters|
      ensures old(warnings) <= warnings
    {
      var d := adapters[i];
      ghost var owners0, layers0, shared0 := owners, layers, shared;
      if d.enabled && d.kind != ConfigSnapshot {
        if d.kind == ModuleGroup || d.kind == Hybrid {
          var told;
          owners, told := ClaimAll(owners, d.modules, i, adapters, "duplicate-owner", false);
          warnings := warnings + told;
        }
        var tokens := Tokens(d.sharedModules);
        shared := shared + tokens;
        if d.kind == SharedLayer {
          var told;
          layers, told := ClaimAll(layers, d.sharedModules, i, adapters, "duplicate-shared-layer", true);
          warnings := warnings + told;
          tokens := Tokens(d.modules);
          shared := shared + tokens;
          layers, told := ClaimAll(layers, d.modules, i, adapters, "duplicate-shared-layer", true);
          warnings := warnings + told;
        }
      }
      AdapterMatches(adapters, i, owners0, layers0, shared0, owners, layers, shared);
    }
  }

  lemma AdapterMatches(adapters: seq<Definition>, i: nat, owners: Claims, layers: Claims, shared: set<string>,
                       owners': Claims, layers': Claims, shared': set<string>)
    requires i < |adapters| && Matches(adapters[..i], owners, layers, shared)
    requires forall t :: owners'.Get(t) == if owners.Get(t).Some? then owners.Get(t) else if Owns(adapters[i], t) then Some(i) else None
    requires forall t :: layers'.Get(t) == if layers.Get(t).Some? then layers.Get(t) else if Layers(adapters[i], t) then Some(i) else None
    requires forall t :: t in shared' <==> t in shared || Shares(adapters[i], t)
    ensures Matches(adapters[..i + 1], owners', layers', shared')
  {
    forall t
      ensures owners'.Get(t) == OwnerOf(adapters[..i + 1], t) && layers'.Get(t) == LayerOf(adapters[..i + 1], t)
      ensures t in shared' <==> SharedBy(adapters[..i + 1], t)
    {
      FirstClaimNext(adapters, i, Owns, t);
      FirstClaimNext(adapters, i, Layers, t);
      SharedNext(adapters, i, t);
    }
  }

  lemma SharedNext(adapters: seq<Definition>, i: nat, token: string)
    requires i < |adapters|
    ensures SharedBy(adapters[..i + 1], token) <==> SharedBy(adapters[..i], token) || Shares(adapters[i], token)
  {
    var shorter, longer := adapters[..i], adapters[..i + 1];
    assert longer[i] == adapters[i] && forall j :: 0 <= j < i ==> longer[j] == shorter[j];
  }

  // ---- Lookup -----------------------------------------------------------------------------------------

  datatype Module = Module(path: string, basename: string)

  function LastSlash(s: string): int {
    if s == "" then -1 else if s[|s| - 1] == '/' then |s| - 1 else LastSlash(s[..|s| - 1])
  }

  lemma {:induction false} LastSlashIs(s: string)
    ensures -1 <= LastSlash(s) < |s|
    ensures LastSlash(s) >= 0 ==> s[LastSlash(s)] == '/'
    ensures forall i :: LastSlash(s) < i < |s| ==> s[i] != '/'
  {
    if s != "" {
      LastSlashIs(s[..|s| - 1]);
    }
  }

  lemma NoSlashFrom(s: string, k: nat)
    requires k <= |s| && forall i :: k <= i < |s| ==> s[i] != '/'
    ensures !HasSlash(s[k..])
  {
    var tail := s[k..];
    assert forall j :: 0 <= j < |tail| ==> tail[j] == s[k + j];
  }

  lemma TailIsBare(s: string)
    ensures -1 <= LastSlash(s) < |s| && !HasSlash(s[LastSlash(s) + 1..])
  {
    LastSlashIs(s);
    NoSlashFrom(s, LastSlash(s) + 1);
  }

  /** What stands after the last slash. */
  function BareTail(s: string): (tail: string)
    ensures !HasSlash(tail) && |tail| <= |s| && tail == s[|s| - |tail|..]
    ensures |tail| < |s| ==> s[|s| - |tail| - 1] == '/'
  {
    TailIsBare(s);
    LastSlashIs(s);
    s[LastSlash(s) + 1..]
  }

  function Basename(path: string): (name: string)
    ensures !HasSlash(name)
  {
    BareTail(Norm(path))
  }

  function LookupPath(m: Module): string {
    Norm(m.path)
  }

  function LookupName(m: Module): (name: string)
    ensures !HasSlash(name)
  {
    if m.basename != "" then Basename(m.basename) else Basename(LookupPath(m))
  }

  predicate IsShared(adapters: seq<Definition>, m: Module) {
    (HasSlash(LookupPath(m)) && SharedBy(adapters, LookupPath(m))) || SharedBy(adapters, LookupName(m))
  }

  /** The full path decides, the bare name is asked after it. */
  function FindFirst(adapters: seq<Definition>, claims: (Definition, string) -> bool, m: Module): Option<nat> {
    if HasSlash(LookupPath(m)) && FirstClaim(adapters, claims, LookupPath(m)).Some?
    then FirstClaim(adapters, claims, LookupPath(m))
    else FirstClaim(adapters, claims, LookupName(m))
  }

  function ExclusiveOwner(adapters: seq<Definition>, m: Module): Option<nat> {
    if IsShared(adapters, m) then None else FindFirst(adapters, Owns, m)
  }

  function SharedLayerOf(adapters: seq<Definition>, m: Module): Option<nat> {
    FindFirst(adapters, Layers, m)
  }

  method FindClaim(claims: Claims, m: Module) returns (found: Option<nat>)
    ensures found == if HasSlash(LookupPath(m)) && claims.Get(LookupPath(m)).Some? then claims.Get(LookupPath(m))
                     else claims.Get(LookupName(m))
  {
    var path := Norm(m.path);
    if path in claims.full && HasSlash(path) {
      return Some(claims.full[path]);
    }
    var name := LookupName(m);
    if name in claims.base {
      return Some(claims.base[name]);
    }
    return None;
  }

  method IsSharedModule(r: Registry, m: Module) returns (shared: bool)
    requires r.Valid()
    ensures shared == IsShared(r.adapters, m)
  {
    var path := Norm(m.path);
    if HasSlash(path) && path in r.shared {
      return true;
    }
    return LookupName(m) in r.shared;
  }

  method FindExclusiveOwner(r: Registry, m: Module) returns (owner: Option<nat>)
    requires r.Valid()
    ensures owner == ExclusiveOwner(r.adapters, m)
  {
    var shared := IsSharedModule(r, m);
    if shared {
      return None;
    }
    owner := FindClaim(r.owners, m);
  }

  method FindSharedLayer(r: Registry, m: Module) returns (layer: Option<nat>)
    requires r.Valid()
    ensures layer == SharedLayerOf(r.adapters, m)
  {
    layer := FindClaim(r.layers, m);
  }

  /** An enabled group or hybrid adapter that lists the token among its modules. */
  predicate OwnsModule(d: Definition, token: string) {
    && d.enabled && (d.kind == ModuleGroup || d.kind == Hybrid)
    && token != "" && exists i :: 0 <= i < |d.modules| && Norm(d.modules[i]) == token
  }

  /** `owner` claims the token and is registered first of all that do; or nobody does. */
  predicate FirstOf(adapters: seq<Definition>, owner: Option<nat>, token: string) {
    match owner
    case None => forall j :: 0 <= j < |adapters| ==> !OwnsModule(adapters[j], token)
    case Some(i) =>
      && i < |adapters| && OwnsModule(adapters[i], token)
      && forall j :: 0 <= j < |adapters| && OwnsModule(adapters[j], token) ==> adapters[i].order <= adapters[j].order
  }

  lemma OwnerIsFirstOf(adapters: seq<Definition>, token: string)
    requires Sorted(adapters)
    ensures FirstOf(adapters, OwnerOf(adapters, token), token)
  {
    FirstClaimIsLeast(adapters, Owns, token);
    forall j | 0 <= j < |adapters|
      ensures Owns(adapters[j], token) <==> OwnsModule(adapters[j], token)
    {
      assert Lists(adapters[j].modules, token) <==>
        token != "" && exists i :: 0 <= i < |adapters[j].modules| && Norm(adapters[j].modules[i]) == token;
    }
  }

  /** The path if it is one that somebody lists, or else the bare name. */
  predicate Decides(adapters: seq<Definition>, m: Module, token: string) {
    if HasSlash(LookupPath(m)) && exists j :: 0 <= j < |adapters| && OwnsModule(adapters[j], LookupPath(m))
    then token == LookupPath(m) else token == LookupName(m)
  }

  /** The owner of a module that is not shared: an enabled group or hybrid adapter
      that lists its path, or failing that its name, and of those the one registered
      first. */
  lemma OwnerIsFirst(definitions: seq<Definition>, m: Module, token: string)
    requires Decides(Kept(StableSort(definitions)), m, token)
    ensures var adapters := Kept(StableSort(definitions));
      !IsShared(adapters, m) ==> FirstOf(adapters, ExclusiveOwner(adapters, m), token)
  {
    SortSorted(definitions);
    KeptUnique(StableSort(definitions));
    OwnerDecided(Kept(StableSort(definitions)), m, token);
  }

  lemma OwnerDecided(adapters: seq<Definition>, m: Module, token: string)
    requires Sorted(adapters) && Decides(adapters, m, token)
    ensures FirstOf(adapters, FindFirst(adapters, Owns, m), token)
  {
    OwnerIsFirstOf(adapters, LookupPath(m));
    OwnerIsFirstOf(adapters, LookupName(m));
  }

  predicate ListedBy(d: Definition, token: string) {
    || (exists i :: 0 <= i < |d.sharedModules| && Norm(d.sharedModules[i]) == token)
    || (d.kind == SharedLayer && exists i :: 0 <= i < |d.modules| && Norm(d.modules[i]) == token)
  }

  /** A name the module is known by: its bare name, or its path if that is one. */
  predicate KnownAs(m: Module, token: string) {
    token != "" && (token == LookupName(m) || (token == LookupPath(m) && HasSlash(token)))
  }

  predicate SharedAs(adapters: seq<Definition>, token: string) {
    exists i :: 0 <= i < |adapters| && adapters[i].enabled && adapters[i].kind != ConfigSnapshot && ListedBy(adapters[i], token)
  }

  /** When a module is shared: by an enabled adapter that is no config snapshot and
      lists its path or its name as shared, or is a shared layer and lists it. */
  lemma SharedIff(adapters: seq<Definition>, m: Module)
    ensures IsShared(adapters, m) <==> exists token :: KnownAs(m, token) && SharedAs(adapters, token)
  {
    forall token | KnownAs(m, token)
      ensures SharedBy(adapters, token) <==> SharedAs(adapters, token)
    {
      forall i | 0 <= i < |adapters|
        ensures Shares(adapters[i], token) <==>
          adapters[i].enabled && adapters[i].kind != ConfigSnapshot && ListedBy(adapters[i], token)
      {
        SharesIff(adapters[i], token);
      }
    }
    if IsShared(adapters, m) {
      var token := if HasSlash(LookupPath(m)) && SharedBy(adapters, LookupPath(m)) then LookupPath(m) else LookupName(m);
      assert SharedBy(adapters, token) && KnownAs(m, token);
    }
  }

  lemma SharesIff(d: Definition, token: string)
    requires token != ""
    ensures Shares(d, token) <==> d.enabled && d.kind != ConfigSnapshot && ListedBy(d, token)
  {
  }

  /** Every definition is kept or told of, and with distinct registration orders any
      order of the input gives the same adapters, and so the same owners. */
  lemma InputOrderIrrelevant(s: seq<Definition>, t: seq<Definition>)
    requires multiset(s) == multiset(t) && DistinctOrders(s)
    ensures Kept(StableSort(s)) == Kept(StableSort(t)) && Dropped(StableSort(s)) == Dropped(StableSort(t))
    ensures multiset(Kept(StableSort(s))) + multiset(Dropped(StableSort(s))) == multiset(s)
    ensures forall m :: ExclusiveOwner(Kept(StableSort(s)), m) == ExclusiveOwner(Kept(StableSort(t)), m)
  {
    SortPermutation(s, t);
    KeptAndDropped(StableSort(s));
  }
}
