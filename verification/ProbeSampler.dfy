// The journal probe's sampling of transactions: the first one of a technique is the
// baseline, later ones are compared with it, ever more rarely.
module ProbeSampler {
  import opened Words

  const MAX_COMPARISONS: nat := 4096
  const MAX_STRIDE: nat := 4096

  /** One state write of a transaction: what it wrote, in which pass, and a hash of
      the value. */
  datatype Item = Item(op: byte, key: u32, pass: u32, hash: nat)

  // ---- Closed forms -----------------------------------------------------------------------

  function Min(a: nat, b: nat): nat {
    if a < b then a else b
  }

  /** The stride after `m` comparisons: it doubles after every 256, twelve times. */
  function StrideAfter(m: nat): nat {
    if m == 0 then 1 else Pow2(Min(12, (m - 1) / 256))
  }

  /** Transactions that have been waited for up to the m-th comparison. */
  function Waited(m: nat): nat {
    if m == 0 then 0 else Waited(m - 1) + StrideAfter(m - 1)
  }

  predicate SamePlace(a: Item, b: Item) {
    a.op == b.op && a.key == b.key && a.pass == b.pass
  }

  /** The transaction writes the same things as the baseline up to and including
      place `i`. */
  predicate Alike(base: seq<Item>, items: seq<Item>, i: nat) {
    i < |base| && i < |items| && forall j :: 0 <= j <= i ==> SamePlace(base[j], items[j])
  }

  predicate Differs(base: seq<Item>, items: seq<Item>, i: nat) {
    Alike(base, items, i) && base[i].hash != items[i].hash
  }

  predicate Structural(base: seq<Item>, items: seq<Item>) {
    |items| != |base| || exists i :: 0 <= i < |base| && !SamePlace(base[i], items[i])
  }

  function CountDiffers(base: seq<Item>, compared: seq<seq<Item>>, i: nat): nat {
    if compared == [] then 0
    else CountDiffers(base, compared[..|compared| - 1], i) + if Differs(base, compared[|compared| - 1], i) then 1 else 0
  }

  function CountStructural(base: seq<Item>, compared: seq<seq<Item>>): nat {
    if compared == [] then 0
    else CountStructural(base, compared[..|compared| - 1]) + if Structural(base, compared[|compared| - 1]) then 1 else 0
  }

  predicate SameWrite(a: Item, b: Item) {
    a.op == b.op && a.key == b.key && a.pass == b.pass
  }

  /** Place `i` has changed: up to it both wrote the same things in the same passes,
      and there another value. */
  predicate Changed(base: seq<Item>, items: seq<Item>, i: nat) {
    && i < |base| && i < |items| && base[i].hash != items[i].hash
    && forall j :: 0 <= j <= i ==> SameWrite(base[j], items[j])
  }

  /** The sequence of writes itself is another one. */
  predicate Rewritten(base: seq<Item>, items: seq<Item>) {
    |items| != |base| || exists i :: 0 <= i < |base| && !SameWrite(base[i], items[i])
  }

  lemma PlacesIff(base: seq<Item>, items: seq<Item>, i: nat)
    ensures Differs(base, items, i) <==> Changed(base, items, i)
    ensures Structural(base, items) <==> Rewritten(base, items)
  {
    assert forall a, b :: SameWrite(a, b) <==> SamePlace(a, b);
  }

  function ChangedIn(base: seq<Item>, compared: seq<seq<Item>>, i: nat): set<nat> {
    set j: nat | j < |compared| && Changed(base, compared[j], i)
  }

  function RewrittenIn(base: seq<Item>, compared: seq<seq<Item>>): set<nat> {
    set j: nat | j < |compared| && Rewritten(base, compared[j])
  }

  lemma Grown(before: set<nat>, after: set<nat>, n: nat, more: bool)
    requires n !in before && after == before + if more then {n} else {}
    ensures |after| == |before| + if more then 1 else 0
  {
  }

  lemma ChangedNext(base: seq<Item>, init: seq<seq<Item>>, items: seq<Item>, i: nat)
    ensures |ChangedIn(base, init + [items], i)| == |ChangedIn(base, init, i)| + if Changed(base, items, i) then 1 else 0
  {
    Grown(ChangedIn(base, init, i), ChangedIn(base, init + [items], i), |init|, Changed(base, items, i));
  }

  lemma RewrittenNext(base: seq<Item>, init: seq<seq<Item>>, items: seq<Item>)
    ensures |RewrittenIn(base, init + [items])| == |RewrittenIn(base, init)| + if Rewritten(base, items) then 1 else 0
  {
    Grown(RewrittenIn(base, init), RewrittenIn(base, init + [items]), |init|, Rewritten(base, items));
  }

  /** The counters count comparisons, each once. */
  lemma {:induction false} CountsAre(base: seq<Item>, compared: seq<seq<Item>>, i: nat)
    ensures CountDiffers(base, compared, i) == |ChangedIn(base, compared, i)|
    ensures CountStructural(base, compared) == |RewrittenIn(base, compared)|
  {
    if compared == [] {
      assert ChangedIn(base, [], i) == {} && RewrittenIn(base, []) == {};
    } else {
      var init, last := compared[..|compared| - 1], compared[|compared| - 1];
      assert compared == init + [last];
      CountsAre(base, init, i);
      PlacesIff(base, last, i);
      ChangedNext(base, init, last, i);
      RewrittenNext(base, init, last);
    }
  }

  /** The first 257 comparisons are of 257 transactions in a row. */
  lemma {:induction false} FirstInARow(m: nat)
    requires m <= 257
    ensures Waited(m) == m
  {
    if m > 0 {
      FirstInARow(m - 1);
    }
  }

  lemma {:induction false} Pow2Grows(a: nat, b: nat)
    requires a <= b
    ensures Pow2(a) <= Pow2(b) && (a < b ==> 2 * Pow2(a) <= Pow2(b))
  {
    if a < b {
      Pow2Grows(a, b - 1);
    }
  }

  /** Doubling when 256 more have been compared keeps the closed form. */
  lemma StrideStep(m: nat)
    ensures StrideAfter(m + 1) == if m != 0 && m % 256 == 0 && StrideAfter(m) < MAX_STRIDE then 2 * StrideAfter(m) else StrideAfter(m)
    ensures 1 <= StrideAfter(m) <= 4096
  {
    assert Pow2(12) == 4096 by {
      assert Pow2(2) == 4 && Pow2(4) == 16 && Pow2(6) == 64 && Pow2(8) == 256 && Pow2(10) == 1024;
    }
    if m != 0 {
      var before, after := (m - 1) / 256, m / 256;
      assert after == if m % 256 == 0 then before + 1 else before;
      Pow2Grows(Min(12, before), 12);
      if before < 12 {
        Pow2Grows(before, before + 1);
        Pow2Grows(before + 1, 12);
      }
    }
  }

  /** The 256th comparison, and every 256th after it, doubles the stride. */
  predicate Doubles(comparisons: nat, stride: nat) {
    comparisons != 0 && comparisons % 256 == 0 && stride < MAX_STRIDE
  }

  lemma StrideGrows(m: nat, stride: nat)
    requires stride == StrideAfter(m)
    ensures StrideAfter(m + 1) == if Doubles(m, stride) then 2 * stride else stride
    ensures Waited(m + 1) == Waited(m) + stride && stride > 0
  {
    StrideStep(m);
  }

  /** The comparison stops at the first place that differs. */
  predicate StopsAt(base: seq<Item>, items: seq<Item>, i: nat) {
    && i <= |base| && i <= |items| && (forall j :: 0 <= j < i ==> SamePlace(base[j], items[j]))
    && (i < |base| && i < |items| ==> !SamePlace(base[i], items[i]))
  }

  lemma StopIsExact(base: seq<Item>, items: seq<Item>, i: nat)
    requires StopsAt(base, items, i)
    ensures forall j: nat :: j < |base| ==> (Alike(base, items, j) <==> j < i)
    ensures Structural(base, items) <==> |items| != |base| || i < |base|
  {
  }

  function Bump(base: seq<Item>, items: seq<Item>, j: nat): nat {
    if Differs(base, items, j) then 1 else 0
  }

  /** Walks both in step, and counts the places whose values differ. */
  method Walk(base: seq<Item>, items: seq<Item>, before: seq<nat>) returns (after: seq<nat>, structural: bool)
    requires |before| == |base|
    ensures |after| == |base| && structural == Structural(base, items)
    ensures forall j :: 0 <= j < |base| ==> after[j] == before[j] + Bump(base, items, j)
  {
    var n := if |items| < |base| then |items| else |base|;
    after := before;
    structural := |items| != |base|;
    var i := 0;
    while i < n && SamePlace(base[i], items[i])
      invariant 0 <= i <= n && |after| == |base|
      invariant forall j :: 0 <= j < i ==> SamePlace(base[j], items[j])
      invariant forall j :: 0 <= j < i ==> after[j] == before[j] + if base[j].hash != items[j].hash then 1 else 0
      invariant forall j :: i <= j < |base| ==> after[j] == before[j]
    {
      if base[i].hash != items[i].hash {
        after := after[i := after[i] + 1];
      }
      i := i + 1;
    }
    StopIsExact(base, items, i);
    if i < n {
      structural := true;
    }
  }

  lemma WrapNext(n: nat)
    ensures Add32(Wrap(n), 1) == Wrap(n + 1)
  {
    var q := n / TWO_32;
    assert n == TWO_32 * q + Wrap(n);
    if Wrap(n) + 1 == TWO_32 {
      assert n + 1 == TWO_32 * (q + 1);
    } else {
      assert n + 1 == TWO_32 * q + (Wrap(n) + 1);
    }
  }

  class TechniqueStat {
    var transactions: u32
    var comparisons: nat
    var structuralMismatch: nat
    var stride: nat
    var sinceSample: nat
    var base: seq<Item>
    var changed: seq<nat>
    ghost var seen: nat                   // transactions, uncut
    ghost var compared: seq<seq<Item>>    // those that were compared

    /** The counters are what the compared transactions say. */
    ghost predicate Counts()
      reads this
    {
      && comparisons == |compared| <= MAX_COMPARISONS && stride == StrideAfter(comparisons)
      && |changed| == |base| && (forall i :: 0 <= i < |changed| ==> changed[i] == CountDiffers(base, compared, i))
      && structuralMismatch == CountStructural(base, compared)
    }

    ghost predicate Valid()
      reads this
    {
      && Counts() && transactions == Wrap(seen) && sinceSample < stride
      && (base == [] ==> seen == 0 && compared == [] && sinceSample == 0)
      && (base != [] && comparisons < MAX_COMPARISONS ==> seen == 1 + Waited(comparisons) + sinceSample)
    }

    constructor ()
      ensures Valid() && seen == 0 && base == []
    {
      transactions, comparisons, structuralMismatch, stride, sinceSample := 0, 0, 0, 1, 0;
      base, changed := [], [];
      seen, compared := 0, [];
    }

    /** One more transaction of the technique. */
    method Observe(items: seq<Item>)
      requires Valid()
      modifies this
      ensures Valid() && seen == old(seen) + (if items == [] then 0 else 1)
      ensures base == if old(base) == [] then items else old(base)
      ensures compared == old(compared) || compared == old(compared) + [items]
      ensures compared == old(compared) + [items] <==>
        items != [] && old(base) != [] && old(sinceSample) + 1 == old(stride) && old(comparisons) < 4096
      ensures |compared| > |old(compared)| ==> seen == 1 + Waited(|compared|)
    {
      if items == [] {
        return;
      }
      WrapNext(seen);
      transactions, seen := Add32(transactions, 1), seen + 1;
      if base == [] {
        base := items;
        changed := seq(|items|, _ => 0);
        return;
      }
      Sample(items);
    }

    /** Compares the transaction if enough have been waited for. */
    method Sample(items: seq<Item>)
      requires base != [] && seen > 0 && Counts() && transactions == Wrap(seen) && sinceSample < stride
      requires comparisons < MAX_COMPARISONS ==> seen == 2 + Waited(comparisons) + sinceSample
      modifies `sinceSample, `stride, `changed, `comparisons, `structuralMismatch, `compared
      ensures Valid() && (compared == old(compared) || compared == old(compared) + [items])
      ensures compared == old(compared) + [items] <==>
        old(sinceSample) + 1 == old(stride) && old(comparisons) < 4096
      ensures |compared| > |old(compared)| ==> seen == 1 + Waited(|compared|)
    {
      sinceSample := sinceSample + 1;
      if sinceSample < stride {
        return;
      }
      sinceSample := 0;
      if comparisons >= MAX_COMPARISONS {
        return;
      }
      Accept(items);
    }

    method Accept(items: seq<Item>)
      requires base != [] && comparisons < MAX_COMPARISONS && Counts()
      modifies `stride, `changed, `comparisons, `structuralMismatch, `compared
      ensures Counts() && compared == old(compared) + [items] && comparisons == old(comparisons) + 1
      ensures Waited(comparisons) == Waited(old(comparisons)) + old(stride) && stride > 0
    {
      StrideGrows(comparisons, stride);
      if Doubles(comparisons, stride) {
        stride := stride * 2;
      }
      Compare(items);
    }

    method Compare(items: seq<Item>)
      requires |changed| == |base| && comparisons == |compared|
      requires forall i :: 0 <= i < |changed| ==> changed[i] == CountDiffers(base, compared, i)
      requires structuralMismatch == CountStructural(base, compared)
      modifies `changed, `comparisons, `structuralMismatch, `compared
      ensures |changed| == |base| && comparisons == |compared| == old(comparisons) + 1 && compared == old(compared) + [items]
      ensures forall i :: 0 <= i < |changed| ==> changed[i] == CountDiffers(base, compared, i)
      ensures structuralMismatch == CountStructural(base, compared)
    {
      var after, structural := Walk(base, items, changed);
      assert (compared + [items])[..|compared|] == compared;
      changed, compared := after, compared + [items];
      if structural {
        structuralMismatch := structuralMismatch + 1;
      }
      comparisons := comparisons + 1;
    }
  }

  /** The transactions that recorded anything; the others are not looked at. */
  function Recorded(transactions: seq<seq<Item>>): seq<seq<Item>> {
    if transactions == [] then []
    else
      var init, last := Recorded(transactions[..|transactions| - 1]), transactions[|transactions| - 1];
      if last == [] then init else init + [last]
  }

  /** Comparison `j` was made when the waiting for it ran out. */
  ghost predicate Placed(recorded: seq<seq<Item>>, compared: seq<seq<Item>>, j: nat)
    requires j < |compared|
  {
    Waited(j + 1) < |recorded| && compared[j] == recorded[Waited(j + 1)]
  }

  ghost predicate ComparedAt(recorded: seq<seq<Item>>, compared: seq<seq<Item>>) {
    forall j :: 0 <= j < |compared| ==> Placed(recorded, compared, j)
  }

  lemma ComparedNext(recorded: seq<seq<Item>>, was: seq<seq<Item>>, now: seq<seq<Item>>, items: seq<Item>)
    requires ComparedAt(recorded, was)
    requires now == was || (now == was + [items] && |recorded| == Waited(|now|))
    ensures ComparedAt(recorded + [items], now)
  {
    forall j | 0 <= j < |now| ensures Placed(recorded + [items], now, j) {
      if j < |was| {
        assert Placed(recorded, was, j) && now[j] == was[j];
      }
    }
  }

  /** A whole session of one technique. */
  method Session(transactions: seq<seq<Item>>) returns (stat: TechniqueStat)
    ensures stat.Valid() && stat.seen == |Recorded(transactions)| && stat.transactions == Wrap(|Recorded(transactions)|)
    ensures stat.comparisons <= 4096
    ensures stat.comparisons >= 1 ==> stat.stride == Pow2(Min(12, (stat.comparisons - 1) / 256))
    ensures Recorded(transactions) != [] && stat.comparisons < MAX_COMPARISONS ==>
      |Recorded(transactions)| == 1 + Waited(stat.comparisons) + stat.sinceSample
    ensures Recorded(transactions) != [] ==> stat.base == Recorded(transactions)[0] && |stat.changed| == |stat.base|
    ensures ComparedAt(Recorded(transactions), stat.compared)
    ensures forall i :: 0 <= i < |stat.changed| ==> stat.changed[i] == CountDiffers(stat.base, stat.compared, i)
  {
    stat := new TechniqueStat();
    assert transactions[..0] == [];
    for i := 0 to |transactions|
      invariant stat.Valid() && fresh(stat)
      invariant stat.seen == |Recorded(transactions[..i])|
      invariant stat.base == if stat.seen == 0 then [] else Recorded(transactions[..i])[0]
      invariant ComparedAt(Recorded(transactions[..i]), stat.compared)
    {
      assert transactions[..i + 1][..i] == transactions[..i];
      ghost var was, before := stat.compared, Recorded(transactions[..i]);
      stat.Observe(transactions[i]);
      if transactions[i] != [] {
        ComparedNext(before, was, stat.compared, transactions[i]);
        assert Recorded(transactions[..i + 1]) == before + [transactions[i]];
      }
    }
    assert transactions[..|transactions|] == transactions;
  }
}
