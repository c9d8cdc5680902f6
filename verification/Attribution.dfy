// Attribution of captured samples: module samples go to the owner of the module,
// stacks through shared modules to the first caller's owner, or else to the shared
// layer, or to nobody; 64-bit counters saturate, and a warning tells of it.
module Attribution {
  import opened Words
  import opened AdapterRegistry

  const MAX: nat := 0xFFFF_FFFF_FFFF_FFFF
  type u64 = x: nat | x <= 0xFFFF_FFFF_FFFF_FFFF

  datatype ModuleSample = ModuleSample(base: nat, m: Module, samples: u64)

  datatype StackSample = StackSample(instruction: nat, callers: seq<nat>, samples: u64)

  // ---- Saturation ------------------------------------------------------------------------

  function Sat(n: nat): u64 {
    if n <= MAX then n else MAX
  }

  function SaturatedSum(left: u64, right: u64): u64 {
    if right > MAX - left then MAX else left + right
  }

  /** A counter with the warning that it has overflowed. */
  datatype Counter = Counter(value: u64, warned: bool) {
    /** It holds the exact sum, cut off, and warns exactly when it had to be. */
    predicate Holds(exact: nat) {
      value == Sat(exact) && (warned <==> exact > MAX)
    }

    function Add(samples: u64): Counter {
      Counter(SaturatedSum(value, samples), warned || samples > MAX - value)
    }
  }

  lemma AddHolds(c: Counter, exact: nat, samples: u64)
    requires c.Holds(exact)
    ensures c.Add(samples).Holds(exact + samples)
  {
  }

  lemma SumOfSat(exact: nat, samples: u64)
    ensures SaturatedSum(Sat(exact), samples) == Sat(exact + samples)
  {
  }

  // ---- Who owns what --------------------------------------------------------------------------

  /** What the registry answers for every module, and which adapters are enabled. */
  datatype Rules = Rules(owner: Module -> Option<nat>, shared: Module -> bool, layer: Module -> Option<nat>, enabled: seq<bool>) {
    /** Claims are only ever those of enabled adapters, so that each has a summary. */
    ghost predicate Sound() {
      && (forall m :: owner(m).Some? ==> owner(m).value < |enabled| && enabled[owner(m).value])
      && (forall m :: layer(m).Some? ==> layer(m).value < |enabled| && enabled[layer(m).value])
    }
  }

  function EnabledOnes(adapters: seq<Definition>): (r: seq<bool>)
    ensures |r| == |adapters| && forall i :: 0 <= i < |r| ==> r[i] == adapters[i].enabled
  {
    if adapters == [] then [] else EnabledOnes(adapters[..|adapters| - 1]) + [adapters[|adapters| - 1].enabled]
  }

  function RulesOf(adapters: seq<Definition>): Rules {
    Rules(m => ExclusiveOwner(adapters, m), m => IsShared(adapters, m), m => SharedLayerOf(adapters, m), EnabledOnes(adapters))
  }

  lemma FindFirstEnabled(adapters: seq<Definition>, claims: (Definition, string) -> bool, m: Module)
    requires forall d, t :: claims(d, t) ==> d.enabled
    ensures FindFirst(adapters, claims, m).Some? ==>
      FindFirst(adapters, claims, m).value < |adapters| && adapters[FindFirst(adapters, claims, m).value].enabled
  {
    FirstClaimIsLeast(adapters, claims, LookupPath(m));
    FirstClaimIsLeast(adapters, claims, LookupName(m));
  }

  lemma RegistryIsSound(adapters: seq<Definition>)
    ensures RulesOf(adapters).Sound()
  {
    forall m
      ensures ExclusiveOwner(adapters, m).Some? ==>
        ExclusiveOwner(adapters, m).value < |adapters| && adapters[ExclusiveOwner(adapters, m).value].enabled
      ensures SharedLayerOf(adapters, m).Some? ==>
        SharedLayerOf(adapters, m).value < |adapters| && adapters[SharedLayerOf(adapters, m).value].enabled
    {
      FindFirstEnabled(adapters, Owns, m);
      FindFirstEnabled(adapters, Layers, m);
    }
  }

  // ---- Where samples belong -----------------------------------------------------------------------

  /** The modules by base; of two with the same base the first is kept. */
  function Known(modules: seq<ModuleSample>): map<nat, Module> {
    if modules == [] then map[]
    else
      var known, last := Known(modules[..|modules| - 1]), modules[|modules| - 1];
      if last.base == 0 || last.base in known then known else known[last.base := last.m]
  }

  /** For whom a module sample is counted, after the ones before it. */
  function CountedFor(rules: Rules, before: seq<ModuleSample>, sample: ModuleSample): Option<nat> {
    if sample.base == 0 || sample.base in Known(before) then None else rules.owner(sample.m)
  }

  function CallerOwner(rules: Rules, known: map<nat, Module>, callers: seq<nat>): Option<nat> {
    if callers == [] then None
    else if callers[0] != 0 && callers[0] in known && rules.owner(known[callers[0]]).Some?
    then rules.owner(known[callers[0]])
    else CallerOwner(rules, known, callers[1..])
  }

  datatype Lot = Ignored | Attributed(adapter: nat) | Unresolved(adapter: nat) | Unassigned

  /** Where a stack belongs: every stack through a known shared module is in exactly
      one of the last three lots. */
  function LotOf(rules: Rules, known: map<nat, Module>, stack: StackSample): (lot: Lot)
    ensures lot == Ignored <==> !(stack.instruction in known && rules.shared(known[stack.instruction]))
  {
    if stack.instruction !in known || !rules.shared(known[stack.instruction]) then Ignored
    else match CallerOwner(rules, known, stack.callers)
      case Some(i) => Attributed(i)
      case None =>
        match rules.layer(known[stack.instruction])
        case Some(i) => Unresolved(i)
        case None => Unassigned
  }

  lemma {:induction false} CallerOwnerSound(rules: Rules, known: map<nat, Module>, callers: seq<nat>)
    requires rules.Sound()
    ensures var o := CallerOwner(rules, known, callers); o.Some? ==> o.value < |rules.enabled| && rules.enabled[o.value]
  {
    if callers != [] {
      CallerOwnerSound(rules, known, callers[1..]);
    }
  }

  /** The module of base `b` is that of the first sample with this base. */
  predicate FirstWith(modules: seq<ModuleSample>, i: nat, b: nat) {
    i < |modules| && modules[i].base == b && forall j :: 0 <= j < i ==> modules[j].base != b
  }

  /** A base is known exactly when it is not zero and some sample has it, and its
      module is that of the first such sample. */
  lemma {:induction false} KnownIff(modules: seq<ModuleSample>, b: nat, m: Module)
    ensures b in Known(modules) && Known(modules)[b] == m <==>
      b != 0 && exists i: nat :: FirstWith(modules, i, b) && modules[i].m == m
    ensures b in Known(modules) <==> b != 0 && exists i :: 0 <= i < |modules| && modules[i].base == b
  {
    if modules != [] {
      var n := |modules| - 1;
      var init := modules[..n];
      KnownIff(init, b, m);
      forall i: nat
        ensures FirstWith(modules, i, b) <==>
          FirstWith(init, i, b) || (i == n && modules[n].base == b && forall j :: 0 <= j < n ==> init[j].base != b)
      {
      }
      if i: nat :| FirstWith(init, i, b) && init[i].m == m {
        assert FirstWith(modules, i, b);
      }
      if modules[n].base == b && modules[n].m == m && forall j :: 0 <= j < n ==> init[j].base != b {
        assert FirstWith(modules, n, b);
      }
    }
  }

  /** A sample is counted for an adapter exactly when its base is not zero, no sample
      before it has that base, and the adapter owns its module. */
  lemma CountedIff(rules: Rules, before: seq<ModuleSample>, sample: ModuleSample, adapter: nat)
    ensures CountedFor(rules, before, sample) == Some(adapter) <==>
      && sample.base != 0 && (forall i :: 0 <= i < |before| ==> before[i].base != sample.base)
      && rules.owner(sample.m) == Some(adapter)
  {
    KnownIff(before, sample.base, sample.m);
  }

  /** Caller `i` is in a known module that has an owner. */
  predicate Owned(rules: Rules, known: map<nat, Module>, callers: seq<nat>, i: nat)
    requires i < |callers|
  {
    callers[i] != 0 && callers[i] in known && rules.owner(known[callers[i]]).Some?
  }

  /** Adapter `a` owns the module of caller `i`, and no caller before it is owned. */
  predicate FirstOwned(rules: Rules, known: map<nat, Module>, callers: seq<nat>, i: nat, a: nat) {
    && i < |callers| && Owned(rules, known, callers, i) && rules.owner(known[callers[i]]) == Some(a)
    && forall j: nat :: j < i ==> !Owned(rules, known, callers, j)
  }

  predicate NoneOwned(rules: Rules, known: map<nat, Module>, callers: seq<nat>) {
    forall i: nat :: i < |callers| ==> !Owned(rules, known, callers, i)
  }

  /** The owner of the callers is that of the first one that has an owner. */
  lemma {:induction false} CallerOwnerIs(rules: Rules, known: map<nat, Module>, callers: seq<nat>)
    ensures var owner := CallerOwner(rules, known, callers);
      && (owner == None ==> NoneOwned(rules, known, callers))
      && (owner.Some? ==> exists i: nat :: FirstOwned(rules, known, callers, i, owner.value))
  {
    if callers != [] {
      var rest := callers[1..];
      CallerOwnerIs(rules, known, rest);
      var owner := CallerOwner(rules, known, callers);
      if Owned(rules, known, callers, 0) {
        assert FirstOwned(rules, known, callers, 0, owner.value);
      } else if owner.Some? {
        var i: nat :| FirstOwned(rules, known, rest, i, owner.value);
        forall j: nat | j < i + 1
          ensures !Owned(rules, known, callers, j)
        {
          assert j > 0 ==> !Owned(rules, known, rest, j - 1);
        }
        assert FirstOwned(rules, known, callers, i + 1, owner.value);
      } else {
        forall j: nat | j < |callers|
          ensures !Owned(rules, known, callers, j)
        {
          assert j > 0 ==> !Owned(rules, known, rest, j - 1);
        }
      }
    }
  }

  predicate ThroughShared(rules: Rules, known: map<nat, Module>, stack: StackSample) {
    stack.instruction in known && rules.shared(known[stack.instruction])
  }

  /** Where a stack belongs: to the owner of its first owned caller; if no caller is
      owned, to the shared layer of its module; if that has none, to nobody. */
  lemma LotIff(rules: Rules, known: map<nat, Module>, stack: StackSample, a: nat)
    ensures LotOf(rules, known, stack) == Attributed(a) <==>
      ThroughShared(rules, known, stack) && exists i: nat :: FirstOwned(rules, known, stack.callers, i, a)
    ensures LotOf(rules, known, stack) == Unresolved(a) <==>
      && ThroughShared(rules, known, stack) && NoneOwned(rules, known, stack.callers)
      && rules.layer(known[stack.instruction]) == Some(a)
    ensures LotOf(rules, known, stack) == Unassigned <==>
      && ThroughShared(rules, known, stack) && NoneOwned(rules, known, stack.callers)
      && rules.layer(known[stack.instruction]) == None
  {
    CallerOwnerIs(rules, known, stack.callers);
    var owner := CallerOwner(rules, known, stack.callers);
    if owner.Some? {
      var i: nat :| FirstOwned(rules, known, stack.callers, i, owner.value);
      if k: nat :| FirstOwned(rules, known, stack.callers, k, a) {
        assert i == k;
      }
    }
  }

  // ---- Exact totals ---------------------------------------------------------------------------------

  datatype Want =
    | AllShared | AllAttributed | AllUnresolved | AllUnassigned
    | AttributedTo(adapter: nat) | UnresolvedBy(adapter: nat)
  {
    predicate Takes(lot: Lot) {
      match this
      case AllShared => lot != Ignored
      case AllAttributed => lot.Attributed?
      case AllUnresolved => lot.Unresolved?
      case AllUnassigned => lot == Unassigned
      case AttributedTo(i) => lot == Attributed(i)
      case UnresolvedBy(i) => lot == Unresolved(i)
    }
  }

  function Weight(rules: Rules, known: map<nat, Module>, stack: StackSample, want: Want): nat {
    if want.Takes(LotOf(rules, known, stack)) then stack.samples else 0
  }

  function Total(rules: Rules, known: map<nat, Module>, stacks: seq<StackSample>, want: Want): nat {
    if stacks == [] then 0
    else Total(rules, known, stacks[..|stacks| - 1], want) + Weight(rules, known, stacks[|stacks| - 1], want)
  }

  /** Module samples counted for one adapter, or for all. */
  function OwnTotal(rules: Rules, modules: seq<ModuleSample>, want: Option<nat>): nat {
    if modules == [] then 0
    else
      var init, last := modules[..|modules| - 1], modules[|modules| - 1];
      var owner := CountedFor(rules, init, last);
      OwnTotal(rules, init, want) + if owner.Some? && (want == None || want == owner) then last.samples else 0
  }

  /** Conservation: what went through shared modules is attributed, unresolved or
      unassigned, once. */
  lemma {:induction false} SharedConserved(rules: Rules, known: map<nat, Module>, stacks: seq<StackSample>)
    ensures Total(rules, known, stacks, AllShared)
         == Total(rules, known, stacks, AllAttributed)
          + Total(rules, known, stacks, AllUnresolved)
          + Total(rules, known, stacks, AllUnassigned)
  {
    if stacks != [] {
      SharedConserved(rules, known, stacks[..|stacks| - 1]);
    }
  }

  lemma TotalLast(rules: Rules, known: map<nat, Module>, stacks: seq<StackSample>, last: StackSample, want: Want)
    ensures Total(rules, known, stacks + [last], want) == Total(rules, known, stacks, want) + Weight(rules, known, last, want)
  {
    assert (stacks + [last])[..|stacks|] == stacks;
  }

  lemma WithoutLast<T>(all: seq<T>, init: seq<T>, last: T, i: nat)
    requires i < |init| && all == init + [last]
    ensures all[..i] + all[i + 1..] == init[..i] + init[i + 1..] + [last] && all[i] == init[i]
  {
  }

  lemma {:induction false} TotalWithout(rules: Rules, known: map<nat, Module>, stacks: seq<StackSample>, i: nat, want: Want)
    requires i < |stacks|
    ensures Total(rules, known, stacks, want)
         == Total(rules, known, stacks[..i] + stacks[i + 1..], want) + Weight(rules, known, stacks[i], want)
  {
    var n := |stacks| - 1;
    if i < n {
      var init, last := stacks[..n], stacks[n];
      TotalWithout(rules, known, init, i, want);
      WithoutLast(stacks, init, last, i);
      TotalLast(rules, known, init[..i] + init[i + 1..], last, want);
    } else {
      assert stacks[..i] + stacks[i + 1..] == stacks[..n];
    }
  }

  /** Totals do not depend on the order of the stacks. */
  lemma {:induction false} StackOrderIrrelevant(rules: Rules, known: map<nat, Module>,
                                                s: seq<StackSample>, t: seq<StackSample>, want: Want)
    requires multiset(s) == multiset(t)
    ensures Total(rules, known, s, want) == Total(rules, known, t, want)
    decreases |s|
  {
    if s == [] {
      assert |multiset(t)| == 0;
    } else {
      var n := |s| - 1;
      var i := Find(t, s);
      Removed(s, n);
      Removed(t, i);
      var init, rest := s[..n], t[..i] + t[i + 1..];
      assert s[..n] + s[n + 1..] == init;
      StackOrderIrrelevant(rules, known, init, rest, want);
      TotalWithout(rules, known, t, i, want);
    }
  }

  lemma Find(t: seq<StackSample>, s: seq<StackSample>) returns (i: nat)
    requires s != [] && multiset(s) == multiset(t)
    ensures i < |t| && t[i] == s[|s| - 1]
  {
    assert s[|s| - 1] in multiset(t);
    i :| 0 <= i < |t| && t[i] == s[|s| - 1];
  }

  lemma Removed(t: seq<StackSample>, i: nat)
    requires i < |t|
    ensures multiset(t[..i] + t[i + 1..]) == multiset(t) - multiset{t[i]}
  {
    assert t == t[..i] + [t[i]] + t[i + 1..];
  }

  // ---- Sums over the adapters -----------------------------------------------------------------------

  function Sum(ns: seq<nat>): nat {
    if ns == [] then 0 else Sum(ns[..|ns| - 1]) + ns[|ns| - 1]
  }

  lemma SumLast(ns: seq<nat>, n: nat)
    ensures Sum(ns + [n]) == Sum(ns) + n
  {
    assert (ns + [n])[..|ns|] == ns;
  }

  predicate CutOff(ns: seq<nat>, each: seq<u64>) {
    |each| == |ns| && forall i :: 0 <= i < |ns| ==> each[i] == Sat(ns[i])
  }

  /** A total that saturates is the saturated sum of parts that do. */
  lemma {:induction false} SatOfSum(ns: seq<nat>, each: seq<u64>)
    requires CutOff(ns, each)
    ensures Sat(Sum(each)) == Sat(Sum(ns)) && Sum(each) <= Sum(ns)
  {
    if ns != [] {
      SatOfSum(ns[..|ns| - 1], each[..|ns| - 1]);
    }
  }

  function OwnTotals(rules: Rules, modules: seq<ModuleSample>, n: nat): (r: seq<nat>)
    ensures |r| == n && forall i :: 0 <= i < n ==> r[i] == OwnTotal(rules, modules, Some(i))
  {
    if n == 0 then [] else OwnTotals(rules, modules, n - 1) + [OwnTotal(rules, modules, Some(n - 1))]
  }

  lemma OwnTotalLast(rules: Rules, init: seq<ModuleSample>, last: ModuleSample, i: nat)
    ensures OwnTotal(rules, init + [last], Some(i)) == OwnTotal(rules, init, Some(i))
      + if CountedFor(rules, init, last) == Some(i) then last.samples else 0
  {
    assert (init + [last])[..|init|] == init;
  }

  /** What one sample adds to the adapters' totals, up to adapter `n`. */
  lemma {:induction false} OneMoreSample(rules: Rules, init: seq<ModuleSample>, last: ModuleSample, n: nat)
    ensures var owner := CountedFor(rules, init, last);
      Sum(OwnTotals(rules, init + [last], n)) == Sum(OwnTotals(rules, init, n))
        + if owner.Some? && owner.value < n then last.samples else 0
  {
    if n > 0 {
      var k: nat := n - 1;
      OneMoreSample(rules, init, last, k);
      OwnTotalLast(rules, init, last, k);
      TotalsLast(rules, init + [last], k);
      TotalsLast(rules, init, k);
    }
  }

  lemma TotalsLast(rules: Rules, modules: seq<ModuleSample>, k: nat)
    ensures Sum(OwnTotals(rules, modules, k + 1)) == Sum(OwnTotals(rules, modules, k)) + OwnTotal(rules, modules, Some(k))
  {
    SumLast(OwnTotals(rules, modules, k), OwnTotal(rules, modules, Some(k)));
    assert OwnTotals(rules, modules, k + 1) == OwnTotals(rules, modules, k) + [OwnTotal(rules, modules, Some(k))];
  }

  lemma {:induction false} NothingYet(rules: Rules, n: nat)
    ensures Sum(OwnTotals(rules, [], n)) == 0
  {
    if n > 0 {
      NothingYet(rules, n - 1);
      SumLast(OwnTotals(rules, [], n - 1), 0);
    }
  }

  /** What is counted for all is what is counted for each. */
  lemma {:induction false} OwnTotalIsSum(rules: Rules, modules: seq<ModuleSample>)
    requires rules.Sound()
    ensures OwnTotal(rules, modules, None) == Sum(OwnTotals(rules, modules, |rules.enabled|))
  {
    if modules == [] {
      NothingYet(rules, |rules.enabled|);
    } else {
      var init, last := modules[..|modules| - 1], modules[|modules| - 1];
      OwnTotalIsSum(rules, init);
      OneMoreSample(rules, init, last, |rules.enabled|);
      assert modules == init + [last];
    }
  }

  lemma {:induction false} PartAtMostAll(rules: Rules, modules: seq<ModuleSample>, i: nat)
    ensures OwnTotal(rules, modules, Some(i)) <= OwnTotal(rules, modules, None)
  {
    if modules != [] {
      PartAtMostAll(rules, modules[..|modules| - 1], i);
    }
  }

  lemma {:induction false} LotAtMostAll(rules: Rules, known: map<nat, Module>, stacks: seq<StackSample>, i: nat)
    ensures Total(rules, known, stacks, AttributedTo(i)) <= Total(rules, known, stacks, AllAttributed)
    ensures Total(rules, known, stacks, UnresolvedBy(i)) <= Total(rules, known, stacks, AllUnresolved)
  {
    if stacks != [] {
      LotAtMostAll(rules, known, stacks[..|stacks| - 1], i);
    }
  }

  // ---- The capture ---------------------------------------------------------------------------------------

  datatype Own = Own(each: seq<u64>, all: Counter)

  /** Every adapter's counter, and that of all, hold their exact totals. The warning
      they share is the one of the total, which is never less. */
  ghost predicate OwnHolds(rules: Rules, modules: seq<ModuleSample>, own: Own) {
    && |own.each| == |rules.enabled|
    && (forall i :: 0 <= i < |own.each| ==> own.each[i] == Sat(OwnTotal(rules, modules, Some(i))))
    && own.all.Holds(OwnTotal(rules, modules, None))
  }

  datatype Evidence = Evidence(
    attributed: seq<u64>, unresolved: seq<u64>,
    allAttributed: Counter, allUnresolved: Counter, unassigned: Counter)

  ghost predicate EvidenceHolds(rules: Rules, known: map<nat, Module>, stacks: seq<StackSample>, e: Evidence) {
    && |e.attributed| == |e.unresolved| == |rules.enabled|
    && (forall i :: 0 <= i < |e.attributed| ==> e.attributed[i] == Sat(Total(rules, known, stacks, AttributedTo(i))))
    && (forall i :: 0 <= i < |e.unresolved| ==> e.unresolved[i] == Sat(Total(rules, known, stacks, UnresolvedBy(i))))
    && e.allAttributed.Holds(Total(rules, known, stacks, AllAttributed))
    && e.allUnresolved.Holds(Total(rules, known, stacks, AllUnresolved))
    && e.unassigned.Holds(Total(rules, known, stacks, AllUnassigned))
  }

  /** The counters a module sample changes. */
  method AddOwn(own: Own, enabled: seq<bool>, owner: Option<nat>, samples: u64) returns (after: Own)
    requires |own.each| == |enabled| && (owner.Some? ==> owner.value < |enabled| && enabled[owner.value])
    ensures after == if owner == None then own else
      Own(own.each[owner.value := SaturatedSum(own.each[owner.value], samples)], own.all.Add(samples))
  {
    after := own;
    if owner.Some? && enabled[owner.value] {
      after := after.(each := after.each[owner.value := SaturatedSum(after.each[owner.value], samples)]);
      after := after.(all := after.all.Add(samples));
    }
  }

  lemma OwnStart(rules: Rules, own: Own)
    requires own == Own(seq(|rules.enabled|, _ => 0), Counter(0, false))
    ensures OwnHolds(rules, [], own)
  {
  }

  lemma OwnStep(rules: Rules, before: seq<ModuleSample>, sample: ModuleSample, own: Own, after: Own)
    requires OwnHolds(rules, before, own)
    requires var owner := CountedFor(rules, before, sample);
      && (owner.Some? ==> owner.value < |own.each|)
      && after == if owner == None then own else
        Own(own.each[owner.value := SaturatedSum(own.each[owner.value], sample.samples)], own.all.Add(sample.samples))
    ensures OwnHolds(rules, before + [sample], after)
  {
    assert (before + [sample])[..|before|] == before;
    AddHolds(own.all, OwnTotal(rules, before, None), sample.samples);
    var owner := CountedFor(rules, before, sample);
    if owner.Some? {
      SumOfSat(OwnTotal(rules, before, owner), sample.samples);
    }
  }

  /** One more module sample: whether its base is new, and for whom it is counted. */
  method TakeModule(r: Registry, ghost before: seq<ModuleSample>, known: map<nat, Module>, sample: ModuleSample)
    returns (after: map<nat, Module>, owner: Option<nat>)
    requires r.Valid() && known == Known(before)
    ensures after == Known(before + [sample])
    ensures owner == CountedFor(RulesOf(r.adapters), before, sample)
    ensures owner.Some? ==> owner.value < |r.adapters| && EnabledOnes(r.adapters)[owner.value]
  {
    RegistryIsSound(r.adapters);
    assert (before + [sample])[..|before|] == before;
    after, owner := known, None;
    if sample.base != 0 && sample.base !in known {
      after := known[sample.base := sample.m];
      owner := FindExclusiveOwner(r, sample.m);
    }
  }

  /** What is known and counted after some module samples. */
  ghost predicate Counted(rules: Rules, modules: seq<ModuleSample>, known: map<nat, Module>, own: Own) {
    known == Known(modules) && OwnHolds(rules, modules, own)
  }

  method CountModule(r: Registry, ghost before: seq<ModuleSample>, known: map<nat, Module>, own: Own,
                     enabled: seq<bool>, sample: ModuleSample)
    returns (after: map<nat, Module>, more: Own)
    requires r.Valid() && Counted(RulesOf(r.adapters), before, known, own) && enabled == EnabledOnes(r.adapters)
    ensures Counted(RulesOf(r.adapters), before + [sample], after, more)
  {
    var owner;
    after, owner := TakeModule(r, before, known, sample);
    more := AddOwn(own, enabled, owner, sample.samples);
    OwnStep(RulesOf(r.adapters), before, sample, own, more);
  }

  /** Module samples: each known module once, for its owner. */
  method CountModules(r: Registry, modules: seq<ModuleSample>) returns (known: map<nat, Module>, own: Own)
    requires r.Valid()
    ensures known == Known(modules) && OwnHolds(RulesOf(r.adapters), modules, own)
  {
    known := map[];
    var enabled := EnabledOnes(r.adapters);
    own := Own(seq(|enabled|, _ => 0), Counter(0, false));
    OwnStart(RulesOf(r.adapters), own);
    assert modules[..0] == [];
    for i := 0 to |modules|
      invariant Counted(RulesOf(r.adapters), modules[..i], known, own)
    {
      assert modules[..i + 1] == modules[..i] + [modules[i]];
      known, own := CountModule(r, modules[..i], known, own, enabled, modules[i]);
    }
    assert modules[..|modules|] == modules;
  }

  /** The owner of the first caller that has one. */
  method FindCallerOwner(r: Registry, known: map<nat, Module>, callers: seq<nat>) returns (owner: Option<nat>)
    requires r.Valid()
    ensures owner == CallerOwner(RulesOf(r.adapters), known, callers)
  {
    ghost var rules := RulesOf(r.adapters);
    assert callers[0..] == callers;
    for i := 0 to |callers|
      invariant CallerOwner(rules, known, callers) == CallerOwner(rules, known, callers[i..])
    {
      assert callers[i..][0] == callers[i] && callers[i..][1..] == callers[i + 1..];
      if callers[i] == 0 || callers[i] !in known {
        continue;
      }
      owner := FindExclusiveOwner(r, known[callers[i]]);
      assert owner == rules.owner(known[callers[i]]);
      if owner.Some? {
        return;
      }
    }
    owner := None;
  }

  method FindLot(r: Registry, known: map<nat, Module>, stack: StackSample) returns (lot: Lot)
    requires r.Valid()
    ensures lot == LotOf(RulesOf(r.adapters), known, stack)
  {
    ghost var rules := RulesOf(r.adapters);
    if stack.instruction !in known {
      return Ignored;
    }
    var m := known[stack.instruction];
    var shared := IsSharedModule(r, m);
    assert shared == rules.shared(m);
    if !shared {
      return Ignored;
    }
    var owner := FindCallerOwner(r, known, stack.callers);
    if owner.Some? {
      return Attributed(owner.value);
    }
    var layer := FindSharedLayer(r, m);
    assert layer == rules.layer(m);
    return if layer.Some? then Unresolved(layer.value) else Unassigned;
  }

  function WithStack(e: Evidence, lot: Lot, samples: u64): Evidence
    requires lot.Attributed? ==> lot.adapter < |e.attributed|
    requires lot.Unresolved? ==> lot.adapter < |e.unresolved|
  {
    match lot
    case Ignored => e
    case Attributed(i) =>
      e.(attributed := e.attributed[i := SaturatedSum(e.attributed[i], samples)], allAttributed := e.allAttributed.Add(samples))
    case Unresolved(i) =>
      e.(unresolved := e.unresolved[i := SaturatedSum(e.unresolved[i], samples)], allUnresolved := e.allUnresolved.Add(samples))
    case Unassigned => e.(unassigned := e.unassigned.Add(samples))
  }

  lemma LotSound(rules: Rules, known: map<nat, Module>, stack: StackSample)
    requires rules.Sound()
    ensures var lot := LotOf(rules, known, stack);
      lot.Attributed? || lot.Unresolved? ==> lot.adapter < |rules.enabled| && rules.enabled[lot.adapter]
  {
    CallerOwnerSound(rules, known, stack.callers);
  }

  lemma StackCounters(rules: Rules, known: map<nat, Module>, before: seq<StackSample>, stack: StackSample, e: Evidence)
    requires rules.Sound() && EvidenceHolds(rules, known, before, e)
    ensures LotFits(rules, LotOf(rules, known, stack))
    ensures var t := WithStack(e, LotOf(rules, known, stack), stack.samples);
      && t.allAttributed.Holds(Total(rules, known, before + [stack], AllAttributed))
      && t.allUnresolved.Holds(Total(rules, known, before + [stack], AllUnresolved))
      && t.unassigned.Holds(Total(rules, known, before + [stack], AllUnassigned))
  {
    LotSound(rules, known, stack);
    TotalLast(rules, known, before, stack, AllAttributed);
    TotalLast(rules, known, before, stack, AllUnresolved);
    TotalLast(rules, known, before, stack, AllUnassigned);
    AddHolds(e.allAttributed, Total(rules, known, before, AllAttributed), stack.samples);
    AddHolds(e.allUnresolved, Total(rules, known, before, AllUnresolved), stack.samples);
    AddHolds(e.unassigned, Total(rules, known, before, AllUnassigned), stack.samples);
  }

  predicate LotFits(rules: Rules, lot: Lot) {
    lot.Attributed? || lot.Unresolved? ==> lot.adapter < |rules.enabled| && rules.enabled[lot.adapter]
  }

  lemma StackStep(rules: Rules, known: map<nat, Module>, before: seq<StackSample>, stack: StackSample, e: Evidence)
    requires rules.Sound() && EvidenceHolds(rules, known, before, e)
    ensures LotFits(rules, LotOf(rules, known, stack))
    ensures EvidenceHolds(rules, known, before + [stack], WithStack(e, LotOf(rules, known, stack), stack.samples))
  {
    StackCounters(rules, known, before, stack, e);
    var lot := LotOf(rules, known, stack);
    forall i: nat
      ensures Total(rules, known, before + [stack], AttributedTo(i))
           == Total(rules, known, before, AttributedTo(i)) + if lot == Attributed(i) then stack.samples else 0
    {
      TotalLast(rules, known, before, stack, AttributedTo(i));
    }
    forall i: nat
      ensures Total(rules, known, before + [stack], UnresolvedBy(i))
           == Total(rules, known, before, UnresolvedBy(i)) + if lot == Unresolved(i) then stack.samples else 0
    {
      TotalLast(rules, known, before, stack, UnresolvedBy(i));
    }
  }

  /** Stacks through shared modules. */
  method CountStacks(r: Registry, known: map<nat, Module>, stacks: seq<StackSample>) returns (e: Evidence)
    requires r.Valid()
    ensures EvidenceHolds(RulesOf(r.adapters), known, stacks, e)
  {
    ghost var rules := RulesOf(r.adapters);
    RegistryIsSound(r.adapters);
    var zeros := seq(|r.adapters|, _ => 0);
    var enabled := EnabledOnes(r.adapters);
    e := Evidence(zeros, zeros, Counter(0, false), Counter(0, false), Counter(0, false));
    assert stacks[..0] == [];
    for i := 0 to |stacks|
      invariant EvidenceHolds(rules, known, stacks[..i], e)
    {
      assert stacks[..i + 1] == stacks[..i] + [stacks[i]];
      var lot := FindLot(r, known, stacks[i]);
      StackStep(rules, known, stacks[..i], stacks[i], e);
      if (lot.Attributed? || lot.Unresolved?) && !enabled[lot.adapter] {
        continue;
      }
      e := WithStack(e, lot, stacks[i].samples);
    }
    assert stacks[..|stacks|] == stacks;
  }

  /** The evidence for an adapter does not fit the counter. */
  predicate Exceeds(own: u64, attributed: u64) {
    attributed > MAX - own
  }

  method AnyExceeds(adapters: seq<Definition>, own: seq<u64>, attributed: seq<u64>) returns (overflow: bool)
    requires |own| == |attributed| == |adapters|
    ensures overflow <==> exists i :: 0 <= i < |adapters| && adapters[i].enabled && Exceeds(own[i], attributed[i])
  {
    overflow := false;
    for i := 0 to |adapters|
      invariant overflow <==> exists j :: 0 <= j < i && adapters[j].enabled && Exceeds(own[j], attributed[j])
    {
      if adapters[i].enabled && Exceeds(own[i], attributed[i]) {
        overflow := true;
      }
    }
  }

  datatype Result = Result(own: Own, evidence: Evidence, evidenceOverflow: bool)

  /** A whole capture. Counters are the exact totals, cut off, and each warns just
      when its total had to be; so neither depends on the order of the stacks. */
  method AttributeCapture(r: Registry, modules: seq<ModuleSample>, stacks: seq<StackSample>) returns (result: Result)
    requires r.Valid()
    ensures OwnHolds(RulesOf(r.adapters), modules, result.own)
    ensures EvidenceHolds(RulesOf(r.adapters), Known(modules), stacks, result.evidence)
    ensures result.evidenceOverflow <==>
      exists i :: 0 <= i < |r.adapters| && r.adapters[i].enabled && Exceeds(result.own.each[i], result.evidence.attributed[i])
  {
    var known, own := CountModules(r, modules);
    var evidence := CountStacks(r, known, stacks);
    var overflow := AnyExceeds(r.adapters, own.each, evidence.attributed);
    result := Result(own, evidence, overflow);
  }

  /** The counter of all own samples is the saturated sum of the adapters' counters. */
  lemma AssignedIsSummed(rules: Rules, modules: seq<ModuleSample>, own: Own)
    requires rules.Sound() && OwnHolds(rules, modules, own)
    ensures own.all.value == Sat(Sum(own.each))
    ensures forall i :: 0 <= i < |own.each| && OwnTotal(rules, modules, Some(i)) > MAX ==> own.all.warned
  {
    var totals := OwnTotals(rules, modules, |rules.enabled|);
    OwnTotalIsSum(rules, modules);
    SatOfSum(totals, own.each);
    forall i | 0 <= i < |own.each| && OwnTotal(rules, modules, Some(i)) > MAX
      ensures own.all.warned
    {
      PartAtMostAll(rules, modules, i);
    }
  }
}
