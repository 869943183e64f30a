/** A pool of resources with a limit on the number of allocations, and a list of tasks that want to be notified. */
module ResourcePools {
  type Resource = nat
  type Task = nat

  datatype Request = Request(task: Task, needed: int, condition: nat)

  /** The number of values of size_t. */
  const SIZES: nat := 0x1_0000_0000_0000_0000

  function Min(a: nat, b: nat): nat {
    if a < b then a else b
  }

  /** How many more resources may be allocated. */
  function Room(maxAllocations: nat, allocations: nat): nat {
    if allocations < maxAllocations then maxAllocations - allocations else 0
  }

  /** The number of needed resources, converted to size_t. */
  function Needed(r: Request): nat {
    r.needed % SIZES
  }

  function Sum(requests: seq<Request>): nat {
    if requests == [] then 0 else Sum(requests[..|requests| - 1]) + Needed(requests[|requests| - 1])
  }

  lemma {:induction false} SumGrows(requests: seq<Request>, i: nat, j: nat)
    requires i <= j <= |requests|
    ensures Sum(requests[..i]) <= Sum(requests[..j])
    decreases j
  {
    if i < j {
      SumGrows(requests, i, j - 1);
      assert requests[..j][..j - 1] == requests[..j - 1];
    }
  }

  /** The first n requests are the longest prefix that can be served together. */
  ghost predicate IsLongestPrefix(requests: seq<Request>, n: nat, available: nat) {
    && n <= |requests|
    && forall k | 0 <= k <= |requests| :: Sum(requests[..k]) <= available <==> k <= n
  }

  lemma GreedyIsLongest(requests: seq<Request>, n: nat, available: nat)
    requires n <= |requests| && Sum(requests[..n]) <= available
    requires n < |requests| ==> Sum(requests[..n]) + Needed(requests[n]) > available
    ensures IsLongestPrefix(requests, n, available)
  {
    forall k | 0 <= k <= |requests| ensures Sum(requests[..k]) <= available <==> k <= n {
      if k <= n {
        SumGrows(requests, k, n);
      } else {
        assert requests[..n + 1][..n] == requests[..n];
        SumGrows(requests, n + 1, k);
      }
    }
  }

  /** When the notified tasks come to acquire what they asked for, in order, there is enough for each of them. */
  lemma EachIsServed(requests: seq<Request>, n: nat, available: nat, i: nat)
    requires IsLongestPrefix(requests, n, available) && i < n
    ensures Needed(requests[i]) <= available - Sum(requests[..i])
  {
    assert requests[..i + 1][..i] == requests[..i];
    assert Sum(requests[..i + 1]) <= available;
  }

  /** The number of free resources, and of all that are allocated. */
  datatype Stock = Stock(free: nat, allocations: nat)

  /** How many resources a call of acquire() returns. */
  function Acquired(maxAllocations: nat, s: Stock, size: nat): nat {
    Min(size, s.free + Room(maxAllocations, s.allocations))
  }

  /** What it leaves: it takes free resources first. */
  function Left(maxAllocations: nat, s: Stock, size: nat): Stock {
    var n := Min(size, s.free);
    Stock(s.free - n, s.allocations + (Acquired(maxAllocations, s, size) - n))
  }

  /** What is left when these requests were satisfied one after the other. */
  function LeftAfter(maxAllocations: nat, s: Stock, requests: seq<Request>): Stock {
    if requests == [] then s
    else
      var n := |requests| - 1;
      Left(maxAllocations, LeftAfter(maxAllocations, s, requests[..n]), Needed(requests[n]))
  }

  lemma {:induction false} LeftIsLess(maxAllocations: nat, s: Stock, requests: seq<Request>)
    requires Sum(requests) <= s.free + Room(maxAllocations, s.allocations)
    ensures var s' := LeftAfter(maxAllocations, s, requests);
      s'.free + Room(maxAllocations, s'.allocations) == s.free + Room(maxAllocations, s.allocations) - Sum(requests)
    decreases |requests|
  {
    if requests != [] {
      LeftIsLess(maxAllocations, s, requests[..|requests| - 1]);
    }
  }

  /** When the tasks of the longest prefix call acquire() for what they need, in order, each gets all of it; and the
      next one would not. */
  lemma AllAreServed(maxAllocations: nat, s: Stock, requests: seq<Request>, n: nat, i: nat)
    requires IsLongestPrefix(requests, n, s.free + Room(maxAllocations, s.allocations)) && i <= n && i < |requests|
    ensures var needed := Needed(requests[i]);
      i < n <==> Acquired(maxAllocations, LeftAfter(maxAllocations, s, requests[..i]), needed) == needed
  {
    assert requests[..i + 1][..i] == requests[..i];
    assert Sum(requests[..i]) <= s.free + Room(maxAllocations, s.allocations);
    assert Sum(requests[..i + 1]) <= s.free + Room(maxAllocations, s.allocations) <==> i + 1 <= n;
    LeftIsLess(maxAllocations, s, requests[..i]);
  }

  /** m_max_allocations - m_allocations + m_free_list.size(), in size_t. */
  function Available(maxAllocations: nat, allocations: nat, free: nat): nat {
    (maxAllocations - allocations + free) % SIZES
  }

  /** The number of available resources as computed in size_t is what can be acquired, exactly when the pool is not
      above its limit; it wraps around when the pool is above its limit by more than what is free. */
  lemma AvailableIsExact(maxAllocations: nat, allocations: nat, free: nat)
    requires maxAllocations + free < SIZES && allocations < SIZES
    ensures var available := Available(maxAllocations, allocations, free);
      && (available == free + Room(maxAllocations, allocations) <==> allocations <= maxAllocations)
      && (available > free <==> allocations < maxAllocations || allocations > maxAllocations + free)
  {
    if allocations > maxAllocations + free {
      assert (maxAllocations - allocations + free) % SIZES == maxAllocations - allocations + free + SIZES;
    }
  }

  /** A request for a negative number of resources is never served by a pool that fits into memory, and so it
      blocks all that come after it. */
  lemma NegativeBlocks(requests: seq<Request>, n: nat, available: nat, i: nat)
    requires IsLongestPrefix(requests, n, available) && available < SIZES / 2
    requires i < |requests| && -(SIZES / 2) <= requests[i].needed < 0
    ensures n <= i
  {
    assert requests[..i + 1][..i] == requests[..i];
    assert Needed(requests[i]) == requests[i].needed + SIZES;
    assert Sum(requests[..i + 1]) > available;
  }

  predicate Distinct(s: seq<Resource>) {
    forall i, j | 0 <= i < j < |s| :: s[i] != s[j]
  }

  function Elements(s: seq<Resource>): set<Resource> {
    set r | r in s
  }

  /** The next resources that the factory makes. */
  function Fresh(made: nat, count: nat): seq<Resource> {
    seq(count, i => made + i)
  }

  lemma {:induction false} CountElements(s: seq<Resource>, others: set<Resource>)
    requires Distinct(s) && Elements(s) !! others
    ensures |others + Elements(s)| == |others| + |s|
    decreases |s|
  {
    if s == [] {
      assert others + Elements(s) == others;
    } else {
      var n := |s| - 1;
      assert Elements(s[..n]) <= Elements(s);
      CountElements(s[..n], others);
      assert others + Elements(s) == (others + Elements(s[..n])) + {s[n]};
      assert s[n] !in others + Elements(s[..n]) by {
        assert s[n] in Elements(s);
      }
    }
  }

  /** Every resource that was allocated is either free or outstanding, and never both. */
  ghost predicate Accounted(free: seq<Resource>, outstanding: set<Resource>, made: nat, allocations: nat) {
    && Distinct(free) && Elements(free) !! outstanding
    && (forall r | r in free || r in outstanding :: r < made)
    && |free| + |outstanding| == allocations
  }

  lemma FromPool(free: seq<Resource>, n: nat, made: nat, count: nat)
    requires Distinct(free) && n <= |free| && forall r | r in free :: r < made
    ensures var got := free[..n] + Fresh(made, count);
      && Distinct(got)
      && (forall r | r in got :: (r < made && r in free) || made <= r < made + count)
      && (forall r | r in free[n..] :: r in free && r !in got)
  {
    var got := free[..n] + Fresh(made, count);
    forall i | 0 <= i < |got| ensures if i < n then got[i] == free[i] && got[i] < made else got[i] == made + (i - n) {
      assert i < n ==> free[i] in free;
    }
    forall r | r in free[n..] ensures r in free && r !in got {
      var j :| n <= j < |free| && free[j] == r;
      assert free[j] in free;
      forall i | 0 <= i < |got| ensures got[i] != r {
        assert i < n ==> free[i] != free[j];
      }
    }
  }

  /** The oldest n free resources and count new ones are handed out. */
  lemma HandedOut(free: seq<Resource>, outstanding: set<Resource>, made: nat, allocations: nat, n: nat, count: nat)
    requires Accounted(free, outstanding, made, allocations) && n <= |free|
    ensures var got := free[..n] + Fresh(made, count);
      && Distinct(got) && Elements(got) !! outstanding
      && Accounted(free[n..], outstanding + Elements(got), made + count, allocations + count)
  {
    var got := free[..n] + Fresh(made, count);
    FromPool(free, n, made, count);
    assert Elements(got) !! outstanding by {
      forall r | r in Elements(got) ensures r !in outstanding {
        assert r < made ==> r in Elements(free);
      }
    }
    CountElements(got, outstanding);
  }

  /** Some outstanding resources are returned: the first ones to the factory, the others to the pool. */
  lemma HandedBack(free: seq<Resource>, outstanding: set<Resource>, made: nat, allocations: nat,
                   back: seq<Resource>, n: nat)
    requires Accounted(free, outstanding, made, allocations) && n <= |back|
    requires Distinct(back) && Elements(back) <= outstanding
    ensures |back| <= allocations
    ensures Accounted(free + back[n..], outstanding - Elements(back), made, allocations - n)
  {
    var rest := outstanding - Elements(back);
    CountElements(back, rest);
    assert rest + Elements(back) == outstanding;
    forall r | r in back ensures r in Elements(back) {
    }
    forall r | r in back[n..] ensures r in back && r in outstanding {
      assert r in Elements(back);
    }
    forall r | r in free ensures r in Elements(free) && r !in back {
      assert r in back ==> r in Elements(back);
    }
    var free' := free + back[n..];
    forall i, j | 0 <= i < j < |free'| ensures free'[i] != free'[j] {
      if i < |free| && j >= |free| {
        assert free[i] in free && free'[j] in back[n..];
      }
    }
    forall r | r in Elements(free') ensures r !in rest {
      assert r in free || r in back[n..];
    }
  }

  class ResourcePool {
    const maxAllocations: nat
    var allocations: nat
    var freeList: seq<Resource>
    var requests: seq<Request>
    // How many resources the factory made so far.
    var made: nat
    // The resources that were acquired, and not released yet.
    ghost var outstanding: set<Resource>

    ghost predicate Valid()
      reads this
    {
      Accounted(freeList, outstanding, made, allocations)
    }

    constructor (maxAllocations: nat)
      ensures Valid() && this.maxAllocations == maxAllocations && allocations == 0 && freeList == [] && requests == []
      ensures outstanding == {}
    {
      this.maxAllocations := maxAllocations;
      allocations, freeList, requests, made, outstanding := 0, [], [], 0, {};
    }

    /** The factory makes some resources. */
    method DoAllocate(resources: array<Resource>, start: nat, count: nat)
      requires start + count <= resources.Length
      modifies resources, this`made
      ensures made == old(made) + count
      ensures resources[..start] == old(resources[..start])
      ensures resources[start..start + count] == Fresh(old(made), count)
      ensures resources[start + count..] == old(resources[start + count..])
    {
      for i := 0 to count
        modifies resources, this`made
        invariant made == old(made) + i
        invariant resources[..start] == old(resources[..start])
        invariant resources[start..start + i] == Fresh(old(made), i)
        invariant resources[start + i..] == old(resources[start + i..])
      {
        resources[start + i] := made;
        made := made + 1;
      }
    }

    /** Takes resources from the pool, the oldest first, and makes new ones as far as the limit allows. */
    method Acquire(resources: array<Resource>, size: nat) returns (index: nat)
      requires Valid() && size <= resources.Length
      modifies this, resources
      ensures Valid() && requests == old(requests)
      ensures var stock := Stock(|old(freeList)|, old(allocations));
        && index == Acquired(maxAllocations, stock, size)
        && Stock(|freeList|, allocations) == Left(maxAllocations, stock, size)
      ensures var n := Min(size, |old(freeList)|);
        && resources[..index] == old(freeList)[..n] + Fresh(old(made), index - n)
        && freeList == old(freeList)[n..]
        && allocations == old(allocations) + (index - n)
      ensures resources[index..] == old(resources[index..])
      ensures Distinct(resources[..index]) && Elements(resources[..index]) !! old(outstanding)
      ensures outstanding == old(outstanding) + Elements(resources[..index])
      ensures old(allocations) <= maxAllocations ==> allocations <= maxAllocations
    {
      hide Accounted, Distinct, Elements, Fresh;
      var n := TakeFree(resources, size);
      index := AllocateRest(resources, n, size);
      HandedOut(old(freeList), old(outstanding), old(made), old(allocations), n, index - n);
      outstanding := outstanding + Elements(resources[..index]);
    }

    /** Makes resources for the rest of the array, as far as the limit allows. */
    method AllocateRest(resources: array<Resource>, start: nat, size: nat) returns (index: nat)
      requires start <= size <= resources.Length
      modifies this`allocations, this`made, resources
      ensures index == start + Min(size - start, Room(maxAllocations, old(allocations)))
      ensures allocations == old(allocations) + (index - start) && made == old(made) + (index - start)
      ensures resources[..index] == old(resources[..start]) + Fresh(old(made), index - start)
      ensures resources[index..] == old(resources[index..])
    {
      index := start;
      if index < size {
        var toAllocate := Min(size - index, Room(maxAllocations, allocations));
        if toAllocate > 0 {
          DoAllocate(resources, index, toAllocate);
          index := index + toAllocate;
          allocations := allocations + toAllocate;
        }
      }
      assert resources[..index] == resources[..start] + resources[start..index];
    }

    /** Moves free resources to the array, the oldest first. */
    method TakeFree(resources: array<Resource>, size: nat) returns (index: nat)
      requires size <= resources.Length
      modifies this`freeList, resources
      ensures index == Min(size, |old(freeList)|) && resources[..index] == old(freeList)[..index]
      ensures freeList == old(freeList)[index..] && resources[index..] == old(resources[index..])
    {
      var inPool := |freeList|;
      index := 0;
      if index < inPool {
        while index < Min(inPool, size)
          modifies resources
          invariant index <= Min(inPool, size)
          invariant resources[..index] == freeList[..index] && resources[index..] == old(resources[index..])
        {
          resources[index] := freeList[index];
          index := index + 1;
        }
        freeList := freeList[index..];
      }
    }

    /** Returns resources, and says which requests were notified. */
    method Release(resources: array<Resource>, size: nat) returns (notified: seq<Request>)
      requires Valid() && size <= resources.Length
      requires Distinct(resources[..size]) && Elements(resources[..size]) <= outstanding
      modifies this
      ensures Valid() && outstanding == old(outstanding) - Elements(resources[..size])
      ensures var toFree := Min(size, Excess(old(allocations)));
        && allocations == old(allocations) - toFree
        && freeList == old(freeList) + resources[toFree..size]
      ensures notified + requests == old(requests)
      // What can be acquired now, as long as it fits into size_t.
      ensures allocations <= maxAllocations && maxAllocations - allocations + |freeList| < SIZES ==>
        IsLongestPrefix(old(requests), |notified|, |freeList| + Room(maxAllocations, allocations))
      // Above the limit less is available than is free, or more than there can ever be.
      ensures maxAllocations < allocations <= maxAllocations + |freeList| && |freeList| <= SIZES ==>
        IsLongestPrefix(old(requests), |notified|, |freeList| - Excess(allocations))
      ensures maxAllocations + |freeList| < allocations <= SIZES + maxAllocations + |freeList| ==>
        IsLongestPrefix(old(requests), |notified|, SIZES + maxAllocations + |freeList| - allocations)
    {
      hide Accounted, Distinct, Elements, IsLongestPrefix;
      var start, count := 0, size;
      if allocations > maxAllocations {
        var toFree := Min(count, allocations - maxAllocations);
        HandedBack(freeList, outstanding, made, allocations, resources[..size], toFree);
        allocations := allocations - toFree;
        count := count - toFree;
        start := start + toFree;
      }
      HandedBack(old(freeList), outstanding, made, old(allocations), resources[..size], start);
      outstanding := outstanding - Elements(resources[..size]);
      PutBack(resources, start, count);
      assert resources[..size][start..] == resources[start..size];
      notified := NotifyWaiting();
      AvailableInSizes();
    }

    lemma AvailableInSizes()
      ensures allocations <= maxAllocations && maxAllocations - allocations + |freeList| < SIZES ==>
        Available(maxAllocations, allocations, |freeList|) == |freeList| + Room(maxAllocations, allocations)
      ensures maxAllocations < allocations <= maxAllocations + |freeList| && |freeList| <= SIZES ==>
        Available(maxAllocations, allocations, |freeList|) == |freeList| - Excess(allocations)
      ensures maxAllocations + |freeList| < allocations <= SIZES + maxAllocations + |freeList| ==>
        Available(maxAllocations, allocations, |freeList|) == SIZES + maxAllocations + |freeList| - allocations
    {
      if maxAllocations + |freeList| < allocations <= SIZES + maxAllocations + |freeList| {
        assert (maxAllocations - allocations + |freeList|) % SIZES
            == maxAllocations - allocations + |freeList| + SIZES;
      }
    }

    /** Puts resources on the free list. */
    method PutBack(resources: array<Resource>, start: nat, count: nat)
      requires start + count <= resources.Length
      modifies this`freeList
      ensures freeList == old(freeList) + resources[start..start + count]
    {
      var index := 0;
      while index < count
        modifies this`freeList
        invariant index <= count && freeList == old(freeList) + resources[start..start + index]
      {
        freeList := freeList + [resources[start + index]];
        index := index + 1;
      }
    }

    function Excess(allocations: nat): nat {
      if allocations > maxAllocations then allocations - maxAllocations else 0
    }

    /** Removes the requests that can be served, oldest first, and notifies their tasks in that order. */
    method NotifyWaiting() returns (mustBeNotified: seq<Request>)
      modifies this`requests
      ensures mustBeNotified + requests == old(requests)
      ensures IsLongestPrefix(old(requests), |mustBeNotified|, Available(maxAllocations, allocations, |freeList|))
    {
      mustBeNotified := [];
      if requests == [] {
        assert requests[..0] == [];
        GreedyIsLongest(requests, 0, Available(maxAllocations, allocations, |freeList|));
        return;
      }
      var available: nat := Available(maxAllocations, allocations, |freeList|);
      var i := 0;
      assert requests[..0] == [];
      while i < |requests|
        invariant i <= |requests| && mustBeNotified == requests[..i]
        invariant Sum(requests[..i]) + available == Available(maxAllocations, allocations, |freeList|)
      {
        assert requests[..i + 1][..i] == requests[..i];
        if Needed(requests[i]) > available {
          break;
        }
        mustBeNotified := mustBeNotified + [requests[i]];
        available := available - Needed(requests[i]);
        i := i + 1;
      }
      GreedyIsLongest(requests, i, Available(maxAllocations, allocations, |freeList|));
      requests := requests[i..];
    }
  }
}
