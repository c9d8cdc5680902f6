// Call patches in a loaded module: six bytes of code replaced by a call, all of
// them or none, and put back in the opposite order.
module CallPatches {
  import opened Words

  const CALL: byte := 0xE8
  const NOP: byte := 0x90
  const PATCH_SIZE: nat := 6

  /** One place to patch: its offset, the code expected there, the new target. */
  datatype Site = Site(rva: nat, expected: seq<byte>, target: u32)

  // ---- The call --------------------------------------------------------------------------

  /** A 32-bit word read as a signed number. */
  function Signed(w: u32): (d: int)
    ensures -0x8000_0000 <= d < 0x8000_0000 && Wrap(d) == w
  {
    if w < 0x8000_0000 then w else w - TWO_32
  }

  /** The distance a call must carry. A pointer difference has 32 bits in the
      x86 build, so it always fits the field. */
  function Displacement(address: u32, target: u32): int {
    Signed(Wrap(target - (address + 5)))
  }

  function CallBytes(address: u32, target: u32): (bytes: seq<byte>)
    ensures |bytes| == PATCH_SIZE
  {
    [CALL] + WordBytes(Wrap(Displacement(address, target))) + [NOP]
  }

  /** Where the processor goes from a call standing at `address`. */
  function CallTarget(address: u32, bytes: seq<byte>): u32
    requires |bytes| == PATCH_SIZE
  {
    Wrap(address + 5 + Signed(WordAt(bytes, 1)))
  }

  predicate IsCallTo(address: u32, bytes: seq<byte>, target: u32) {
    && |bytes| == PATCH_SIZE
    && bytes[0] == CALL && bytes[5] == NOP
    && CallTarget(address, bytes) == target
  }

  lemma WordAtShift(w: u32)
    ensures WordAt([CALL] + WordBytes(w) + [NOP], 1) == WordAt(WordBytes(w), 0)
  {
  }

  lemma WrapSum(address: u32, target: u32)
    ensures Wrap(address + 5 + Signed(Wrap(target - (address + 5)))) == target
  {
    var d := target - (address + 5);
    var w := Wrap(d);
    if d >= 0 {
      assert w == d;
    } else {
      assert -TWO_32 - 5 < d;
      assert w == d + TWO_32 || w == d + 2 * TWO_32;
    }
  }

  /** Whatever the two addresses, the call written leads to the target. */
  lemma CallReachesTarget(address: u32, target: u32)
    ensures IsCallTo(address, CallBytes(address, target), target)
    ensures CallBytes(address, target)[0] == 0xE8 && CallBytes(address, target)[5] == 0x90
  {
    var w := Wrap(Displacement(address, target));
    WordAtShift(w);
    WordRoundTrip(w);
    WrapSum(address, target);
  }

  // ---- Writing and undoing ---------------------------------------------------------------

  predicate Fits(size: nat, site: Site) {
    |site.expected| == PATCH_SIZE && site.rva <= size && PATCH_SIZE <= size - site.rva
  }

  /** One piece of six bytes for each of `n` sites. */
  predicate Sized(pieces: seq<seq<byte>>, n: nat) {
    |pieces| == n && forall i :: 0 <= i < n ==> |pieces[i]| == PATCH_SIZE
  }

  function Calls(base: u32, sites: seq<Site>): (calls: seq<seq<byte>>)
    ensures Sized(calls, |sites|)
    ensures forall i :: 0 <= i < |sites| ==> calls[i] == CallFor(base, sites[i])
  {
    seq(|sites|, i requires 0 <= i < |sites| => CallFor(base, sites[i]))
  }

  /** Each piece is a call that leads from its site to the replacement. */
  lemma CallsLead(base: u32, sites: seq<Site>, i: nat)
    requires i < |sites|
    ensures IsCallTo(Wrap(base + sites[i].rva), Calls(base, sites)[i], sites[i].target)
  {
    CallReachesTarget(Wrap(base + sites[i].rva), sites[i].target);
  }

  predicate AllFit(size: nat, sites: seq<Site>) {
    forall i :: 0 <= i < |sites| ==> Fits(size, sites[i])
  }

  function CodeAt(image: seq<byte>, site: Site): (code: seq<byte>)
    requires Fits(|image|, site)
    ensures |code| == PATCH_SIZE
  {
    image[site.rva..site.rva + PATCH_SIZE]
  }

  function CallFor(base: u32, site: Site): (bytes: seq<byte>)
    ensures |bytes| == PATCH_SIZE
  {
    CallBytes(Wrap(base + site.rva), site.target)
  }

  predicate Covers(site: Site, at: nat) {
    site.rva <= at < site.rva + PATCH_SIZE
  }

  /** The image with six bytes put at a site. */
  function Put(image: seq<byte>, site: Site, code: seq<byte>): (r: seq<byte>)
    requires Fits(|image|, site) && |code| == PATCH_SIZE
    ensures |r| == |image|
  {
    seq(|image|, i requires 0 <= i < |image| => if Covers(site, i) then code[i - site.rva] else image[i])
  }

  /** The image once the first `k` sites are written. */
  function Written(image: seq<byte>, sites: seq<Site>, calls: seq<seq<byte>>, k: nat): (r: seq<byte>)
    requires k <= |sites| && AllFit(|image|, sites) && Sized(calls, |sites|)
    ensures |r| == |image|
  {
    if k == 0 then image
    else Put(Written(image, sites, calls, k - 1), sites[k - 1], calls[k - 1])
  }

  /** The code each of the first `k` sites held when it was written. */
  ghost predicate Saves(image: seq<byte>, sites: seq<Site>, calls: seq<seq<byte>>, saved: seq<seq<byte>>, k: nat)
    requires k <= |sites| && AllFit(|image|, sites) && Sized(calls, |sites|)
  {
    && |saved| == |sites|
    && forall i {:trigger saved[i]} :: 0 <= i < k ==> saved[i] == CodeAt(Written(image, sites, calls, i), sites[i])
  }

  /** The sites from `n` down to `k` put back, the last one first, each only if
      its page can be made writable. */
  function Restored(image: seq<byte>, sites: seq<Site>, saved: seq<seq<byte>>, allowed: seq<bool>, k: nat, n: nat)
    : (r: seq<byte>)
    requires k <= n <= |sites| == |saved| == |allowed| && AllFit(|image|, sites)
    requires forall i :: k <= i < n ==> |saved[i]| == PATCH_SIZE
    ensures |r| == |image|
    decreases n - k
  {
    if k == n then image
    else
      var later := Restored(image, sites, saved, allowed, k + 1, n);
      if allowed[k] then Put(later, sites[k], saved[k]) else later
  }

  lemma PutBack(image: seq<byte>, site: Site, bytes: seq<byte>)
    requires Fits(|image|, site) && |bytes| == PATCH_SIZE
    ensures Put(Put(image, site, bytes), site, CodeAt(image, site)) == image
  {
  }

  /** Restoring undoes writing, even where sites overlap. */
  lemma {:induction false} RestoreUndoes(image: seq<byte>, sites: seq<Site>, calls: seq<seq<byte>>, saved: seq<seq<byte>>,
                                         allowed: seq<bool>, k: nat, n: nat)
    requires k <= n <= |sites| == |allowed| && AllFit(|image|, sites) && Sized(calls, |sites|)
    requires Saves(image, sites, calls, saved, n)
    requires forall i :: k <= i < n ==> allowed[i]
    ensures Restored(Written(image, sites, calls, n), sites, saved, allowed, k, n) == Written(image, sites, calls, k)
    decreases n - k
  {
    if k < n {
      RestoreUndoes(image, sites, calls, saved, allowed, k + 1, n);
      PutBack(Written(image, sites, calls, k), sites[k], calls[k]);
    }
  }

  // ---- Sites that do not overlap ---------------------------------------------------------

  predicate Apart(a: Site, b: Site) {
    a.rva + PATCH_SIZE <= b.rva || b.rva + PATCH_SIZE <= a.rva
  }

  ghost predicate Disjoint(sites: seq<Site>) {
    forall i, j :: 0 <= i < j < |sites| ==> Apart(sites[i], sites[j])
  }

  lemma PutApart(image: seq<byte>, site: Site, bytes: seq<byte>, other: Site)
    requires Fits(|image|, site) && Fits(|image|, other) && Apart(site, other) && |bytes| == PATCH_SIZE
    ensures CodeAt(Put(image, site, bytes), other) == CodeAt(image, other)
  {
    var put := Put(image, site, bytes);
    assert |put| == |image|;
    forall j | other.rva <= j < other.rva + PATCH_SIZE
      ensures put[j] == image[j]
    {
    }
    assert forall j :: 0 <= j < PATCH_SIZE ==> CodeAt(put, other)[j] == put[other.rva + j];
  }

  lemma PutAt(image: seq<byte>, site: Site, bytes: seq<byte>)
    requires Fits(|image|, site) && |bytes| == PATCH_SIZE
    ensures CodeAt(Put(image, site, bytes), site) == bytes
  {
  }

  /** A written site holds its call, one still to come its own code. */
  lemma {:induction false} WrittenSite(image: seq<byte>, sites: seq<Site>, calls: seq<seq<byte>>, k: nat, i: nat)
    requires k <= |sites| && i < |sites| && AllFit(|image|, sites) && Sized(calls, |sites|) && Disjoint(sites)
    ensures CodeAt(Written(image, sites, calls, k), sites[i]) == if i < k then calls[i] else CodeAt(image, sites[i])
  {
    if k > 0 {
      WrittenSite(image, sites, calls, k - 1, i);
      var before := Written(image, sites, calls, k - 1);
      if i == k - 1 {
        PutAt(before, sites[i], calls[i]);
      } else {
        PutApart(before, sites[k - 1], calls[k - 1], sites[i]);
      }
    }
  }

  /** No byte outside the sites is touched. */
  lemma {:induction false} WrittenElsewhere(image: seq<byte>, sites: seq<Site>, calls: seq<seq<byte>>, k: nat, at: nat)
    requires k <= |sites| && at < |image| && AllFit(|image|, sites) && Sized(calls, |sites|)
    requires forall i :: 0 <= i < |sites| ==> !Covers(sites[i], at)
    ensures Written(image, sites, calls, k)[at] == image[at]
  {
    if k > 0 {
      WrittenElsewhere(image, sites, calls, k - 1, at);
      assert !Covers(sites[k - 1], at);
    }
  }

  /** After a complete installation every site holds its own call. */
  lemma InstalledSite(image: seq<byte>, sites: seq<Site>, calls: seq<seq<byte>>, i: nat, address: u32)
    requires AllFit(|image|, sites) && Sized(calls, |sites|) && Disjoint(sites) && i < |sites|
    requires IsCallTo(address, calls[i], sites[i].target)
    ensures IsCallTo(address, CodeAt(Written(image, sites, calls, |sites|), sites[i]), sites[i].target)
  {
    WrittenSite(image, sites, calls, |sites|, i);
  }

  /** A site whose page stays locked keeps its call; a restored one its code. */
  lemma {:induction false} RestoredSite(now: seq<byte>, sites: seq<Site>, saved: seq<seq<byte>>, allowed: seq<bool>, k: nat, n: nat,
                                        i: nat)
    requires k <= n <= |sites| == |saved| == |allowed| && i < |sites| && AllFit(|now|, sites) && Disjoint(sites)
    requires forall j :: k <= j < n ==> |saved[j]| == PATCH_SIZE
    ensures CodeAt(Restored(now, sites, saved, allowed, k, n), sites[i])
         == if k <= i < n && allowed[i] then saved[i] else CodeAt(now, sites[i])
    decreases n - k
  {
    if k < n {
      RestoredSite(now, sites, saved, allowed, k + 1, n, i);
      var later := Restored(now, sites, saved, allowed, k + 1, n);
      if allowed[k] {
        if i == k {
          PutAt(later, sites[i], saved[i]);
        } else {
          PutApart(later, sites[k], saved[k], sites[i]);
        }
      }
    }
  }

  /** What a failed installation leaves: nothing, exactly when every page that
      was written could be made writable again. */
  lemma NothingLeftIff(image: seq<byte>, sites: seq<Site>, calls: seq<seq<byte>>, saved: seq<seq<byte>>, allowed: seq<bool>, n: nat)
    requires n <= |sites| == |allowed| && AllFit(|image|, sites) && Sized(calls, |sites|) && Disjoint(sites)
    requires Saves(image, sites, calls, saved, n)
    requires forall i :: 0 <= i < |sites| ==> CodeAt(image, sites[i]) == sites[i].expected && sites[i].expected != calls[i]
    ensures Restored(Written(image, sites, calls, n), sites, saved, allowed, 0, n) == image
       <==> forall i :: 0 <= i < n ==> allowed[i]
  {
    var now := Written(image, sites, calls, n);
    if i :| 0 <= i < n && !allowed[i] {
      RestoredSite(now, sites, saved, allowed, 0, n, i);
      WrittenSite(image, sites, calls, n, i);
      assert CodeAt(Restored(now, sites, saved, allowed, 0, n), sites[i]) == calls[i];
    } else {
      RestoreUndoes(image, sites, calls, saved, allowed, 0, n);
    }
  }

  // ---- The installer ---------------------------------------------------------------------

  predicate Preflight(image: seq<byte>, sites: seq<Site>) {
    AllFit(|image|, sites) && forall i :: 0 <= i < |sites| ==> CodeAt(image, sites[i]) == sites[i].expected
  }

  /** Site `i` can be written once its predecessors are. */
  predicate Writable(image: seq<byte>, sites: seq<Site>, calls: seq<seq<byte>>, writable: seq<bool>, i: nat)
    requires i < |sites| == |writable| && AllFit(|image|, sites) && Sized(calls, |sites|)
  {
    CodeAt(Written(image, sites, calls, i), sites[i]) == sites[i].expected && writable[i]
  }

  /** Which patches a restore takes back: those that stand on pages it can write. */
  function Chosen(installed: seq<bool>, allowed: seq<bool>): (r: seq<bool>)
    requires |installed| == |allowed|
    ensures |r| == |installed| && forall i :: 0 <= i < |r| ==> r[i] == (installed[i] && allowed[i])
  {
    seq(|installed|, i requires 0 <= i < |installed| => installed[i] && allowed[i])
  }

  /** The writing loop after `k` sites. */
  ghost predicate Progress(was: seq<byte>, now: seq<byte>, sites: seq<Site>, calls: seq<seq<byte>>, saved: seq<seq<byte>>,
                           installed: seq<bool>, writable: seq<bool>, k: nat)
  {
    && k <= |sites| == |installed| == |writable| && AllFit(|was|, sites) && Sized(calls, |sites|)
    && now == Written(was, sites, calls, k)
    && Saves(was, sites, calls, saved, k)
    && (forall i :: 0 <= i < |sites| ==> installed[i] == (i < k))
    && forall i :: 0 <= i < k ==> Writable(was, sites, calls, writable, i)
  }

  lemma ProgressStep(was: seq<byte>, now: seq<byte>, sites: seq<Site>, calls: seq<seq<byte>>, saved: seq<seq<byte>>,
                     installed: seq<bool>, writable: seq<bool>, k: nat)
    requires Progress(was, now, sites, calls, saved, installed, writable, k) && k < |sites|
    requires Writable(was, sites, calls, writable, k)
    ensures Progress(was, Put(now, sites[k], calls[k]), sites, calls, saved[k := CodeAt(now, sites[k])],
                     installed[k := true], writable, k + 1)
  {
    SavesNext(was, sites, calls, saved, k);
  }

  lemma SavesNext(was: seq<byte>, sites: seq<Site>, calls: seq<seq<byte>>, saved: seq<seq<byte>>, k: nat)
    requires k < |sites| && AllFit(|was|, sites) && Sized(calls, |sites|) && Saves(was, sites, calls, saved, k)
    ensures Saves(was, sites, calls, saved[k := CodeAt(Written(was, sites, calls, k), sites[k])], k + 1)
  {
  }

  /** What an installation may end in: refused untouched, complete, or stopped
      at the first site that could not be written and taken back. */
  ghost predicate Outcome(was: seq<byte>, now: seq<byte>, readable: bool, sites: seq<Site>, calls: seq<seq<byte>>,
                          saved: seq<seq<byte>>, writable: seq<bool>, allowed: seq<bool>, ok: bool, written: nat)
  {
    if !readable || !Preflight(was, sites) then !ok && now == was
    else
      && written <= |sites| == |writable| == |allowed| == |saved| && Sized(calls, |sites|) && Sized(saved, |sites|)
      && Saves(was, sites, calls, saved, written)
      && (forall i :: 0 <= i < written ==> Writable(was, sites, calls, writable, i))
      && (ok <==> written == |sites|)
      && (!ok ==> !Writable(was, sites, calls, writable, written))
      && now == if ok then Written(was, sites, calls, |sites|)
                else Restored(Written(was, sites, calls, written), sites, saved, allowed, 0, written)
  }

  /** The first site whose bytes are not the expected ones, or the number of sites. */
  method FindFirstMismatch(image: array<byte>, sites: seq<Site>) returns (at: nat)
    requires AllFit(image.Length, sites)
    ensures at <= |sites| && (at < |sites| ==> CodeAt(image[..], sites[at]) != sites[at].expected)
    ensures forall i :: 0 <= i < at ==> CodeAt(image[..], sites[i]) == sites[i].expected
  {
    at := 0;
    while at < |sites|
      invariant at <= |sites|
      invariant forall i :: 0 <= i < at ==> CodeAt(image[..], sites[i]) == sites[i].expected
    {
      assert image[sites[at].rva..sites[at].rva + PATCH_SIZE] == CodeAt(image[..], sites[at]);
      if image[sites[at].rva..sites[at].rva + PATCH_SIZE] != sites[at].expected {
        return;
      }
      at := at + 1;
    }
  }

  /** Six bytes copied into the image. */
  method CopyInto(image: array<byte>, site: Site, code: seq<byte>)
    requires Fits(image.Length, site) && |code| == PATCH_SIZE
    modifies image
    ensures image[..] == Put(old(image[..]), site, code)
  {
    var i := 0;
    while i < PATCH_SIZE
      invariant i <= PATCH_SIZE
      invariant forall j :: 0 <= j < image.Length ==>
        image[j] == if site.rva <= j < site.rva + i then code[j - site.rva] else old(image[j])
    {
      image[site.rva + i] := code[i];
      i := i + 1;
    }
  }

  /** The optimization patches of one module: its bytes, and per patch whether it
      stands and what it replaced. */
  class Patches {
    const base: u32
    const sites: seq<Site>
    const image: array<byte>
    var saved: seq<seq<byte>>
    var installed: seq<bool>
    var active: bool
    var hooksInstalled: bool

    ghost predicate Valid()
      reads this
    {
      && |saved| == |installed| == |sites|
      && (forall i :: 0 <= i < |sites| ==> |sites[i].expected| == PATCH_SIZE && |saved[i]| == PATCH_SIZE)
      && (hooksInstalled ==> active)
    }

    ghost predicate Idle()
      reads this
    {
      Valid() && !active && forall i :: 0 <= i < |installed| ==> !installed[i]
    }

    constructor (base: u32, sites: seq<Site>, image: array<byte>)
      requires forall i :: 0 <= i < |sites| ==> |sites[i].expected| == PATCH_SIZE
      ensures Idle() && this.base == base && this.sites == sites && this.image == image
    {
      this.base, this.sites, this.image := base, sites, image;
      saved := seq(|sites|, i => [0, 0, 0, 0, 0, 0]);
      installed := seq(|sites|, i => false);
      active, hooksInstalled := false, false;
    }

    /** One site: checked again, made writable, saved, overwritten. */
    method WriteCallPatch(i: nat, writable: bool) returns (ok: bool)
      requires Valid() && i < |sites| && Fits(image.Length, sites[i])
      modifies image, `saved, `installed
      ensures Valid()
      ensures ok <==> CodeAt(old(image[..]), sites[i]) == sites[i].expected && writable
      ensures !ok ==> image[..] == old(image[..]) && saved == old(saved) && installed == old(installed)
      ensures ok ==> image[..] == Put(old(image[..]), sites[i], CallFor(base, sites[i]))
      ensures ok ==> saved == old(saved)[i := CodeAt(old(image[..]), sites[i])] && installed == old(installed)[i := true]
    {
      var site := sites[i];
      var code := image[site.rva..site.rva + PATCH_SIZE];
      assert code == CodeAt(image[..], site);
      if code != site.expected || !writable {
        return false;
      }
      saved := saved[i := code];
      CopyInto(image, site, CallFor(base, site));
      installed := installed[i := true];
      return true;
    }

    /** Every standing patch taken back, the last one first. */
    method Restore(allowed: seq<bool>)
      requires Valid() && |allowed| == |sites| && (active ==> AllFit(image.Length, sites))
      modifies this, image
      ensures Valid() && saved == old(saved)
      ensures !old(active) ==> image[..] == old(image[..]) && installed == old(installed) && !active
      ensures old(active) ==>
        && Idle() && !hooksInstalled
        && image[..] == Restored(old(image[..]), sites, saved, Chosen(old(installed), allowed), 0, |sites|)
    {
      if !active {
        return;
      }
      ghost var before := image[..];
      ghost var chosen := Chosen(installed, allowed);
      var i := |sites|;
      while i > 0
        invariant 0 <= i <= |sites| && Valid() && saved == old(saved) && AllFit(image.Length, sites)
        invariant forall j :: 0 <= j < i ==> installed[j] == old(installed)[j]
        invariant forall j :: i <= j < |sites| ==> !installed[j]
        invariant image[..] == Restored(before, sites, saved, chosen, i, |sites|)
      {
        i := i - 1;
        if installed[i] {
          if allowed[i] {
            CopyInto(image, sites[i], saved[i]);
          }
          installed := installed[i := false];
        }
      }
      hooksInstalled := false;
      active := false;
    }

    /** Writes the sites in order and stops at the first that cannot be written. */
    method WriteAll(writable: seq<bool>) returns (written: nat)
      requires Valid() && |writable| == |sites| && AllFit(image.Length, sites)
      requires forall i :: 0 <= i < |sites| ==> !installed[i]
      modifies image, `saved, `installed
      ensures Valid()
      ensures Progress(old(image[..]), image[..], sites, Calls(base, sites), saved, installed, writable, written)
      ensures written < |sites| ==> !Writable(old(image[..]), sites, Calls(base, sites), writable, written)
    {
      ghost var code, calls := image[..], Calls(base, sites);
      written := 0;
      while written < |sites|
        invariant Valid()
        invariant Progress(code, image[..], sites, calls, saved, installed, writable, written)
      {
        ghost var now, kept, stood := image[..], saved, installed;
        var ok := WriteCallPatch(written, writable[written]);
        if !ok {
          return;
        }
        ProgressStep(code, now, sites, calls, kept, stood, writable, written);
        written := written + 1;
      }
    }

    /** All sites or none: the bounds and the expected bytes are checked before
        the first byte is written, and a failure takes back what was written. */
    method Install(readable: bool, writable: seq<bool>, allowed: seq<bool>) returns (ok: bool, written: nat)
      requires Valid() && |writable| == |allowed| == |sites| && (hooksInstalled || Idle())
      modifies this, image
      ensures Valid() && ok == hooksInstalled && (!ok ==> Idle())
      ensures old(hooksInstalled) ==> ok && image[..] == old(image[..]) && installed == old(installed) && saved == old(saved)
      ensures !old(hooksInstalled) ==>
        Outcome(old(image[..]), image[..], readable, sites, Calls(base, sites), saved, writable, allowed, ok, written)
      ensures !old(hooksInstalled) && ok ==> forall i :: 0 <= i < |sites| ==> installed[i]
    {
      if hooksInstalled {
        return true, 0;
      }
      if !readable {
        return false, 0;
      }
      var expected := CheckSites();
      if !expected {
        return false, 0;
      }
      active := true;
      written := WriteAll(writable);
      ok := written == |sites|;
      if !ok {
        RestoredChosen(image[..], sites, saved, installed, allowed, written, 0);
        Restore(allowed);
      } else {
        hooksInstalled := true;
      }
    }

    /** Every signature lies inside the image and holds the expected bytes. */
    method CheckSites() returns (ok: bool)
      requires Valid()
      ensures ok <==> Preflight(image[..], sites)
    {
      var i := 0;
      while i < |sites|
        invariant i <= |sites|
        invariant forall j :: 0 <= j < i ==> Fits(image.Length, sites[j])
      {
        if sites[i].rva > image.Length || PATCH_SIZE > image.Length - sites[i].rva {
          return false;
        }
        i := i + 1;
      }
      var mismatch := FindFirstMismatch(image, sites);
      return mismatch == |sites|;
    }
  }

  /** A restore over all patches works on the written ones alone. */
  lemma {:induction false} RestoredChosen(now: seq<byte>, sites: seq<Site>, saved: seq<seq<byte>>, installed: seq<bool>,
                                          allowed: seq<bool>, written: nat, k: nat)
    requires k <= |sites| == |saved| == |allowed| == |installed| && AllFit(|now|, sites) && written <= |sites|
    requires forall j :: 0 <= j < |sites| ==> |saved[j]| == PATCH_SIZE && installed[j] == (j < written)
    ensures Restored(now, sites, saved, Chosen(installed, allowed), k, |sites|)
         == if k <= written then Restored(now, sites, saved, allowed, k, written) else now
    decreases |sites| - k
  {
    if k < |sites| {
      RestoredChosen(now, sites, saved, installed, allowed, written, k + 1);
    }
  }

  /** On sites that do not overlap the check before each write repeats the one
      before all of them, so only a locked page can stop an installation. */
  lemma WritableIff(image: seq<byte>, sites: seq<Site>, calls: seq<seq<byte>>, writable: seq<bool>, i: nat)
    requires Preflight(image, sites) && Disjoint(sites) && Sized(calls, |sites|) && i < |sites| == |writable|
    ensures Writable(image, sites, calls, writable, i) <==> writable[i]
  {
    WrittenSite(image, sites, calls, i, i);
  }

  /** Installed or not, after a restore on writable pages the module is as it
      was, overlapping sites included. */
  method InstallAndRestore(patches: Patches, readable: bool, writable: seq<bool>, allowed: seq<bool>)
    requires patches.Idle() && |writable| == |allowed| == |patches.sites|
    requires forall i :: 0 <= i < |allowed| ==> allowed[i]
    modifies patches, patches.image
    ensures patches.Idle() && patches.image[..] == old(patches.image[..])
  {
    ghost var image := patches.image[..];
    ghost var sites, calls := patches.sites, Calls(patches.base, patches.sites);
    var ok, written := patches.Install(readable, writable, allowed);
    if ok {
      RestoreUndoes(image, sites, calls, patches.saved, Chosen(patches.installed, allowed), 0, |sites|);
    } else if readable && Preflight(image, sites) {
      RestoreUndoes(image, sites, calls, patches.saved, allowed, 0, written);
    }
    patches.Restore(allowed);
  }

  // ---- The sites the bridge patches ------------------------------------------------------

  const RVAS: seq<nat> := [
    0x12DC9, 0x12DD9, 0x12E2F, 0x12E44, 0x12F0F, 0x12FC4, 0x12FD5, 0x13014, 0x13029, 0x1303D, 0x13078, 0x13087,
    0x13092, 0x130AF, 0x130B8, 0x132EE, 0x13300, 0x13312, 0x133F1, 0x13409, 0x134F1, 0x13784, 0x13794, 0x1386F,
    0x13884, 0x13892, 0x138A4, 0x138AF, 0x138C9, 0x138D2, 0x138EE, 0x138FC, 0x13DA9, 0x13DB7
  ]

  lemma {:induction false} RvasGrow(i: nat, j: nat)
    requires i < j < |RVAS|
    ensures RVAS[i] + PATCH_SIZE <= RVAS[j]
  {
    if i + 1 < j {
      RvasGrow(i, j - 1);
    }
  }

  lemma ShippedSitesAreDisjoint(sites: seq<Site>)
    requires |sites| == |RVAS| && forall i :: 0 <= i < |sites| ==> sites[i].rva == RVAS[i]
    ensures Disjoint(sites)
  {
    forall i, j | 0 <= i < j < |sites| ensures Apart(sites[i], sites[j]) {
      RvasGrow(i, j);
    }
  }
}
