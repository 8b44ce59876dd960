/** The driver's `pRaw` pointer seen as a lease on arrays from the NDArray
    pool: the array it currently points at, the next array the pool hands
    out, and every release the driver has made, in order. */
module Buffers {
  import opened Options

  datatype Lease = Lease(held: Option<nat>, next: nat, released: seq<nat>)

  const NoLease := Lease(None, 0, [])

  /** No array appears twice. */
  predicate Distinct(s: seq<nat>)
    decreases |s|
  {
    s == [] || (s[|s| - 1] !in s[..|s| - 1] && Distinct(s[..|s| - 1]))
  }

  /** Every array named was handed out before `next`. */
  predicate AllBelow(s: seq<nat>, next: nat)
    decreases |s|
  {
    s == [] || (s[|s| - 1] < next && AllBelow(s[..|s| - 1], next))
  }

  lemma {:induction false} AllBelowMonotone(s: seq<nat>, next: nat, next': nat)
    requires AllBelow(s, next) && next <= next'
    ensures AllBelow(s, next')
    decreases |s|
  {
    if s != [] {
      AllBelowMonotone(s[..|s| - 1], next, next');
    }
  }

  lemma {:induction false} AllBelowExcludes(s: seq<nat>, next: nat)
    requires AllBelow(s, next)
    ensures next !in s
    decreases |s|
  {
    if s != [] {
      AllBelowExcludes(s[..|s| - 1], next);
      assert s == s[..|s| - 1] + [s[|s| - 1]];
    }
  }

  /** Every array is released at most once, the pointer never points at a
      released array, and only arrays the pool handed out are named. */
  predicate Sound(l: Lease) {
    && Distinct(l.released)
    && AllBelow(l.released, l.next)
    && (l.held.Some? ==> l.held.value < l.next && l.held.value !in l.released)
  }

  lemma NoLeaseSound()
    ensures Sound(NoLease)
  {
  }

  /** A successful `alloc`: the pointer takes a fresh array. */
  function Allocate(l: Lease): (r: Lease)
    ensures r.held == Some(l.next) && r.next == l.next + 1 && r.released == l.released
  {
    Lease(Some(l.next), l.next + 1, l.released)
  }

  /** A failed `alloc`: the pointer becomes NULL. */
  function AllocationFailed(l: Lease): (r: Lease)
    ensures r.held.None? && r.next == l.next && r.released == l.released
  {
    l.(held := None)
  }

  /** Release of the held array followed by `pRaw = NULL`, as the success
      path does it; a NULL pointer is left alone. */
  function ReleaseAndClear(l: Lease): (r: Lease)
    ensures r.held.None? && r.next == l.next
    ensures r.released == l.released + (if l.held.Some? then [l.held.value] else [])
  {
    if l.held.Some? then Lease(None, l.next, l.released + [l.held.value]) else l
  }

  /** Each of the three steps of the corrected loop keeps the lease sound. */
  lemma StepsKeepSound(l: Lease)
    requires Sound(l)
    ensures Sound(Allocate(l)) && Sound(AllocationFailed(l)) && Sound(ReleaseAndClear(l))
  {
    AllBelowMonotone(l.released, l.next, l.next + 1);
    AllBelowExcludes(l.released, l.next);
    if l.held.Some? {
      var r := ReleaseAndClear(l);
      assert r.released[..|r.released| - 1] == l.released;
    }
  }

  /** The failure path of the grab loop as written: the held array is
      released but the pointer keeps it. */
  function ReleaseKeepingPointer(l: Lease): (r: Lease)
    ensures r.held == l.held && r.next == l.next
    ensures r.released == l.released + (if l.held.Some? then [l.held.value] else [])
    ensures l.held.Some? ==> !Sound(r)
  {
    if l.held.Some? then
      var r := Lease(l.held, l.next, l.released + [l.held.value]);
      assert r.released[|l.released|] == l.held.value;
      r
    else l
  }

  /** Two failed frames in a row: a colour conversion fails after an array was
      allocated, then the next `AcquireImageEx` fails before any allocation. The
      failure path runs twice on the same pointer and array 0 is released twice. */
  lemma DoubleReleaseWitness()
    ensures var first := ReleaseKeepingPointer(Allocate(NoLease));
      && Sound(Allocate(NoLease))
      && ReleaseKeepingPointer(first).released == [0, 0]
      && !Distinct(ReleaseKeepingPointer(first).released)
  {
    var first := ReleaseKeepingPointer(Allocate(NoLease));
    assert first.released == [0];
    var second := ReleaseKeepingPointer(first);
    assert second.released == [0, 0];
    assert second.released[0] == second.released[1];
  }

  /** With the pointer cleared on the failure path, any sequence of
      allocations, failed allocations and releases keeps the lease sound. */
  datatype Step = Alloc | AllocFail | Release

  function Run(l: Lease, steps: seq<Step>): Lease
    decreases |steps|
  {
    if steps == [] then l
    else
      var l' := match steps[0]
        case Alloc => Allocate(l)
        case AllocFail => AllocationFailed(l)
        case Release => ReleaseAndClear(l);
      Run(l', steps[1..])
  }

  lemma {:induction false} RunStaysSound(l: Lease, steps: seq<Step>)
    requires Sound(l)
    ensures Sound(Run(l, steps))
    decreases |steps|
  {
    if steps != [] {
      var l' := match steps[0]
        case Alloc => Allocate(l)
        case AllocFail => AllocationFailed(l)
        case Release => ReleaseAndClear(l);
      StepsKeepSound(l);
      RunStaysSound(l', steps[1..]);
    }
  }
}
