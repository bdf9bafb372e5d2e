/** RemovableDispatcherDetails.hpp: a list of functor slots addressed by
 *  handles. `add` fills a freed slot (most recently freed first) or appends
 *  one, and returns `index + 1`, so that 0 is never a handle; `remove`
 *  empties a slot and pushes its index on the free list; `dispatch` calls
 *  every non-empty slot in index order. Slots have TrivialFunctor
 *  semantics, the only functor with the `destroy()` that `remove` calls:
 *  a slot is the callable it holds, or None once destroyed. */
module RemovableDispatchers {
  import opened Memory

  type Slots = seq<Option<Callable>>

  /** Handles and the sizes of both TinyVectors are `std::uint32_t`. */
  const HandleModulus: int := 0x1_0000_0000

  /** The largest uint32, so the most slots a TinyVector can count. */
  const MaxHandle: nat := 0xFFFF_FFFF

  /** The callables of the non-empty slots, in index order. */
  function LiveTargets(slots: Slots): (r: seq<Callable>)
    ensures |r| <= |slots|
    decreases |slots|
  {
    if slots == [] then []
    else
      var last := slots[|slots| - 1];
      LiveTargets(slots[..|slots| - 1]) + (if last.Some? then [last.value] else [])
  }

  /** The indices of the empty slots. */
  function FreeSlots(slots: Slots): set<nat> {
    set i: nat | i < |slots| && slots[i].None?
  }

  /** The entries of a sequence are pairwise different. */
  predicate Distinct(xs: seq<nat>) {
    forall i, j | 0 <= i < j < |xs| :: xs[i] != xs[j]
  }

  /** The state that adds and removes of live handles keep: the free list
   *  holds each empty slot's index exactly once, and nothing else. */
  predicate Tidy(slots: Slots, freeList: seq<nat>) {
    && Distinct(freeList)
    && (forall k | 0 <= k < |freeList| :: freeList[k] < |slots|)
    && (forall i | 0 <= i < |slots| :: slots[i].None? <==> i in freeList)
  }

  /** A slot is live, or listed as free, but not both. */
  lemma {:induction false} LiveAndFreePartition(slots: Slots)
    ensures |LiveTargets(slots)| + |FreeSlots(slots)| == |slots|
    decreases |slots|
  {
    if slots != [] {
      var init, last := slots[..|slots| - 1], slots[|slots| - 1];
      LiveAndFreePartition(init);
      var n := |init|;
      if last.None? {
        assert FreeSlots(slots) == FreeSlots(init) + {n};
      } else {
        assert FreeSlots(slots) == FreeSlots(init);
      }
    }
  }

  /** The entries of a sequence, as a set. */
  function Entries(xs: seq<nat>): set<nat> {
    set x | x in xs
  }

  /** A distinct sequence has as many elements as its set. */
  lemma {:induction false} DistinctCard(xs: seq<nat>)
    requires Distinct(xs)
    ensures |Entries(xs)| == |xs|
    decreases |xs|
  {
    if xs != [] {
      var init, last := xs[..|xs| - 1], xs[|xs| - 1];
      assert Distinct(init) by {
        forall i, j | 0 <= i < j < |init| ensures init[i] != init[j] {
          assert init[i] == xs[i] && init[j] == xs[j];
        }
      }
      DistinctCard(init);
      assert xs == init + [last];
      assert last !in init by {
        forall k | 0 <= k < |init| ensures init[k] != last {
          assert init[k] == xs[k];
        }
      }
      assert Entries(xs) == Entries(init) + {last};
    }
  }

  /** In a tidy state, `count() = size - freeList.size` is the number of live slots. */
  lemma TidyCount(slots: Slots, freeList: seq<nat>)
    ensures Tidy(slots, freeList) ==> |slots| - |freeList| == |LiveTargets(slots)|
  {
    if Tidy(slots, freeList) {
      assert Entries(freeList) == FreeSlots(slots);
      DistinctCard(freeList);
      LiveAndFreePartition(slots);
    }
  }

  /** Every live slot's callable is dispatched, and only those. */
  lemma {:induction false} LiveTargetsExact(slots: Slots, c: Callable)
    ensures c in LiveTargets(slots) <==> Some(c) in slots
    decreases |slots|
  {
    if slots != [] {
      var init := slots[..|slots| - 1];
      LiveTargetsExact(init, c);
      assert slots == init + [slots[|slots| - 1]];
    }
  }

  /** The slot index the free-function `add` reuses, as written:
   *  `_freeList.back() - 1` in Handle (uint32) arithmetic. */
  function FreeAddIndexAsWritten(back: nat): (index: nat)
    requires back <= MaxHandle
    ensures index != back
    ensures index <= MaxHandle
  {
    if back == 0 then MaxHandle else back - 1
  }

  /** Slots 0 and 1 filled, then slot 1 removed: the free-function `add`, as
   *  written, prepares slot 0, which is live, and returns handle 1, the
   *  handle of the functor it overwrote; slot 1 is left empty and off the
   *  free list. */
  lemma FreeAddOverwritesLiveSlot(a: Callable)
    ensures var slots: Slots := [Some(a), None];
            && Tidy(slots, [1])
            && FreeAddIndexAsWritten(1) == 0
            && slots[0].Some?
            && !Tidy(slots[0 := Some(Free(0))], [])
  {
    var slots: Slots := [Some(a), None];
    assert slots[0 := Some(Free(0))][1].None?;
  }

  /** Slot 0 removed: the free-function `add`, as written, computes
   *  `0u - 1`, an index past the end of any slot vector a handle can reach. */
  lemma FreeAddUnderflows(slots: Slots)
    requires |slots| <= MaxHandle
    ensures FreeAddIndexAsWritten(0) >= |slots|
  {
  }

  /** Reusing the most recently freed slot keeps the free list exact. */
  lemma TidyAfterReuse(slots: Slots, freeList: seq<nat>, c: Callable)
    requires Tidy(slots, freeList) && freeList != []
    ensures var n := |freeList| - 1;
            Tidy(slots[freeList[n] := Some(c)], freeList[..n])
  {
    var n := |freeList| - 1;
    var index, rest := freeList[n], freeList[..n];
    assert freeList == rest + [index];
    assert index !in rest;
    var after := slots[index := Some(c)];
    forall i | 0 <= i < |after|
      ensures after[i].None? <==> i in rest
    {
      if i != index {
        assert i in freeList <==> i in rest;
      }
    }
  }

  /** Appending a slot keeps the free list exact. */
  lemma TidyAfterAppend(slots: Slots, freeList: seq<nat>, c: Callable)
    requires Tidy(slots, freeList)
    ensures Tidy(slots + [Some(c)], freeList)
  {
    var after := slots + [Some(c)];
    forall i | 0 <= i < |after|
      ensures after[i].None? <==> i in freeList
    {
      if i == |slots| {
        assert forall k | 0 <= k < |freeList| :: freeList[k] != i;
      }
    }
  }

  /** Emptying a live slot and listing its index keeps the free list exact. */
  lemma TidyAfterRemove(slots: Slots, freeList: seq<nat>, index: nat)
    requires Tidy(slots, freeList) && index < |slots| && slots[index].Some?
    ensures Tidy(slots[index := None], freeList + [index])
  {
    var after, listed := slots[index := None], freeList + [index];
    assert index !in freeList;
    forall i | 0 <= i < |after|
      ensures after[i].None? <==> i in listed
    {
      assert i in listed <==> i in freeList || i == index;
    }
    forall i, j | 0 <= i < j < |listed|
      ensures listed[i] != listed[j]
    {
      if j == |freeList| {
        assert listed[i] == freeList[i];
      }
    }
  }

  class RemovableDispatcher {
    /** The CacheSize of the slot functors. */
    const cacheSize: nat
    /** `_functors`. */
    var functors: Slots
    /** `_freeList`, indices of removed slots, most recent last. */
    var freeList: seq<nat>

    /** Both vectors within their uint32 size, every free index a slot. */
    ghost predicate Valid()
      reads this
    {
      && |functors| <= MaxHandle
      && |freeList| <= MaxHandle
      && forall k | 0 <= k < |freeList| :: freeList[k] < |functors|
    }

    ghost predicate IsTidy()
      reads this
    {
      Tidy(functors, freeList)
    }

    /** The default constructor: no slots, empty free list. */
    constructor (cacheSize: nat)
      ensures Valid() && IsTidy() && this.cacheSize == cacheSize
      ensures functors == [] && freeList == []
    {
      this.cacheSize := cacheSize;
      functors, freeList := [], [];
    }

    /** The defaulted move constructor: both vectors are taken; the source is left empty. */
    constructor Moved(other: RemovableDispatcher)
      modifies other
      ensures cacheSize == other.cacheSize
      ensures functors == old(other.functors) && freeList == old(other.freeList)
      ensures other.functors == [] && other.freeList == []
    {
      cacheSize := other.cacheSize;
      functors, freeList := other.functors, other.freeList;
      other.functors, other.freeList := [], [];
    }

    /** The defaulted move assignment. */
    method MoveAssign(other: RemovableDispatcher)
      requires other != this && other.cacheSize == cacheSize
      modifies this, other
      ensures functors == old(other.functors) && freeList == old(other.freeList)
      ensures other.functors == [] && other.freeList == []
    {
      functors, freeList := other.functors, other.freeList;
      other.functors, other.freeList := [], [];
    }

    /** `count()`: `_functors.size() - _freeList.size()` in uint32
     *  arithmetic; in a tidy state it is the number of live slots. */
    function Count(): (r: nat)
      reads this
      ensures Valid() && Tidy(functors, freeList) ==> r == |LiveTargets(functors)|
    {
      TidyCount(functors, freeList);
      (|functors| - |freeList|) % HandleModulus
    }

    /** The slot choice shared by the functor and member `add` overloads:
     *  pop the most recently freed index and reuse that slot, or append one.
     *  The handle is `index + 1`. */
    method Place(c: Callable) returns (handle: nat)
      requires Valid()
      requires freeList != [] || |functors| < MaxHandle
      modifies this
      ensures Valid() && handle > 0 && handle <= |functors|
      ensures functors[handle - 1] == Some(c)
      ensures old(freeList) == [] ==>
                && handle == |old(functors)| + 1
                && functors == old(functors) + [Some(c)] && freeList == []
      ensures old(freeList) != [] ==>
                && handle == old(freeList)[|old(freeList)| - 1] + 1
                && functors == old(functors)[handle - 1 := Some(c)]
                && freeList == old(freeList)[..|old(freeList)| - 1]
      ensures old(IsTidy()) ==> IsTidy() && Count() == old(Count()) + 1
    {
      if IsTidy() {
        if freeList != [] {
          TidyAfterReuse(functors, freeList, c);
        } else {
          TidyAfterAppend(functors, freeList, c);
        }
        TidyCount(functors, freeList);
      }
      var index: nat;
      if freeList != [] {
        index := freeList[|freeList| - 1];
        freeList := freeList[..|freeList| - 1];
        functors := functors[index := Some(c)];
      } else {
        index := |functors|;
        functors := functors + [Some(c)];
      }
      handle := index + 1;
    }

    /** `add(functor)`: the functor must meet TrivialFunctor's cache requirements. */
    method AddFunctor(classType: ClassType, state: nat) returns (handle: nat)
      requires Valid() && FitsCache(classType, cacheSize)
      requires freeList != [] || |functors| < MaxHandle
      modifies this
      ensures Valid() && handle > 0 && handle <= |functors|
      ensures functors[handle - 1] == Some(ClassFunctor(classType, state))
      ensures old(freeList) == [] ==>
                && handle == |old(functors)| + 1
                && functors == old(functors) + [Some(ClassFunctor(classType, state))] && freeList == []
      ensures old(freeList) != [] ==>
                && handle == old(freeList)[|old(freeList)| - 1] + 1
                && functors == old(functors)[handle - 1 := Some(ClassFunctor(classType, state))]
                && freeList == old(freeList)[..|old(freeList)| - 1]
      ensures old(IsTidy()) ==> IsTidy() && Count() == old(Count()) + 1
    {
      handle := Place(ClassFunctor(classType, state));
    }

    /** `add<MemberFunction>(instance)`. */
    method AddMember(memberFunction: nat, instance: Address) returns (handle: nat)
      requires Valid()
      requires freeList != [] || |functors| < MaxHandle
      modifies this
      ensures Valid() && handle > 0 && handle <= |functors|
      ensures functors[handle - 1] == Some(Member(memberFunction, instance))
      ensures old(freeList) == [] ==>
                && handle == |old(functors)| + 1
                && functors == old(functors) + [Some(Member(memberFunction, instance))] && freeList == []
      ensures old(freeList) != [] ==>
                && handle == old(freeList)[|old(freeList)| - 1] + 1
                && functors == old(functors)[handle - 1 := Some(Member(memberFunction, instance))]
                && freeList == old(freeList)[..|old(freeList)| - 1]
      ensures old(IsTidy()) ==> IsTidy() && Count() == old(Count()) + 1
    {
      handle := Place(Member(memberFunction, instance));
    }

    /** `add<MemberFunction>(const instance)`. */
    method AddConstMember(memberFunction: nat, instance: Address) returns (handle: nat)
      requires Valid()
      requires freeList != [] || |functors| < MaxHandle
      modifies this
      ensures Valid() && handle > 0 && handle <= |functors|
      ensures functors[handle - 1] == Some(ConstMember(memberFunction, instance))
      ensures old(freeList) == [] ==>
                && handle == |old(functors)| + 1
                && functors == old(functors) + [Some(ConstMember(memberFunction, instance))] && freeList == []
      ensures old(freeList) != [] ==>
                && handle == old(freeList)[|old(freeList)| - 1] + 1
                && functors == old(functors)[handle - 1 := Some(ConstMember(memberFunction, instance))]
                && freeList == old(freeList)[..|old(freeList)| - 1]
      ensures old(IsTidy()) ==> IsTidy() && Count() == old(Count()) + 1
    {
      handle := Place(ConstMember(memberFunction, instance));
    }

    /** `add<FreeFunction>()` with the free-list reuse of the other overloads:
     *  slot `back()`, handle `back() + 1`. */
    method AddFree(freeFunction: nat) returns (handle: nat)
      requires Valid()
      requires freeList != [] || |functors| < MaxHandle
      modifies this
      ensures Valid() && handle > 0 && handle <= |functors|
      ensures functors[handle - 1] == Some(Free(freeFunction))
      ensures old(freeList) == [] ==>
                && handle == |old(functors)| + 1
                && functors == old(functors) + [Some(Free(freeFunction))] && freeList == []
      ensures old(freeList) != [] ==>
                && handle == old(freeList)[|old(freeList)| - 1] + 1
                && functors == old(functors)[handle - 1 := Some(Free(freeFunction))]
                && freeList == old(freeList)[..|old(freeList)| - 1]
      ensures old(IsTidy()) ==> IsTidy() && Count() == old(Count()) + 1
    {
      handle := Place(Free(freeFunction));
    }

    /** `add<FreeFunction>()` as written: slot `back() - 1` in uint32
     *  arithmetic. None when that index is past the end (`_functors[index]`
     *  out of bounds, after freeing slot 0); otherwise the handle returned. */
    method AddFreeAsWritten(freeFunction: nat) returns (handle: Option<nat>)
      requires Valid() && (freeList != [] || |functors| < MaxHandle)
      modifies this
      ensures old(freeList) == [] ==>
                && handle == Some(|old(functors)| + 1)
                && functors == old(functors) + [Some(Free(freeFunction))] && freeList == []
      ensures old(freeList) != [] ==>
                var index := FreeAddIndexAsWritten(old(freeList)[|old(freeList)| - 1]);
                && freeList == old(freeList)[..|old(freeList)| - 1]
                && (index < |old(functors)| ==>
                      handle == Some(index + 1) && functors == old(functors)[index := Some(Free(freeFunction))])
                && (index >= |old(functors)| ==> handle == None && functors == old(functors))
    {
      if freeList != [] {
        var index := FreeAddIndexAsWritten(freeList[|freeList| - 1]);
        freeList := freeList[..|freeList| - 1];
        if index >= |functors| {
          return None;
        }
        functors := functors[index := Some(Free(freeFunction))];
        handle := Some(index + 1);
      } else {
        functors := functors + [Some(Free(freeFunction))];
        handle := Some(|functors|);
      }
    }

    /** `remove(handle)`: handle 0 fails the assertion and aborts; otherwise
     *  slot `handle - 1` is destroyed and its index pushed on the free list.
     *  Removing the same handle twice is not detected. */
    method Remove(handle: nat) returns (aborted: bool)
      requires Valid() && (handle == 0 || handle - 1 < |functors|)
      requires handle == 0 || |freeList| < MaxHandle
      modifies this
      ensures Valid()
      ensures aborted <==> handle == 0
      ensures aborted ==> functors == old(functors) && freeList == old(freeList)
      ensures !aborted ==>
                && functors == old(functors)[handle - 1 := None]
                && freeList == old(freeList) + [handle - 1]
      ensures !aborted && old(IsTidy()) && old(functors)[handle - 1].Some? ==>
                IsTidy() && Count() == old(Count()) - 1
    {
      if handle == 0 {
        return true;
      }
      var index := handle - 1;
      if IsTidy() && functors[index].Some? {
        TidyAfterRemove(functors, freeList, index);
        TidyCount(functors, freeList);
      }
      functors := functors[index := None];
      freeList := freeList + [index];
      aborted := false;
    }

    /** `clear()`: both vectors emptied. */
    method Clear()
      modifies this
      ensures Valid() && IsTidy() && functors == [] && freeList == [] && Count() == 0
    {
      functors, freeList := [], [];
    }

    /** `dispatch(args...)`: every non-empty slot is called with the
     *  arguments, in index order; the calls made are returned. */
    method Dispatch<A>(args: A) returns (calls: seq<(Callable, A)>)
      ensures |calls| == |LiveTargets(functors)|
      ensures forall k | 0 <= k < |calls| :: calls[k] == (LiveTargets(functors)[k], args)
    {
      calls := [];
      var i := 0;
      while i < |functors|
        invariant 0 <= i <= |functors|
        invariant |calls| == |LiveTargets(functors[..i])|
        invariant forall k | 0 <= k < |calls| :: calls[k] == (LiveTargets(functors[..i])[k], args)
      {
        assert functors[..i + 1][..i] == functors[..i];
        if functors[i].Some? {
          calls := calls + [(functors[i].value, args)];
        }
        i := i + 1;
      }
      assert functors[..i] == functors;
    }

    /** `dispatch(callback, args...)`: the callback receives each non-empty
     *  slot's return value, in index order; the values it received are returned. */
    method DispatchWithCallback<A, R>(invoke: (Callable, A) -> R, args: A) returns (received: seq<R>)
      ensures |received| == |LiveTargets(functors)|
      ensures forall k | 0 <= k < |received| :: received[k] == invoke(LiveTargets(functors)[k], args)
    {
      received := [];
      var i := 0;
      while i < |functors|
        invariant 0 <= i <= |functors|
        invariant |received| == |LiveTargets(functors[..i])|
        invariant forall k | 0 <= k < |received| :: received[k] == invoke(LiveTargets(functors[..i])[k], args)
      {
        assert functors[..i + 1][..i] == functors[..i];
        if functors[i].Some? {
          received := received + [invoke(functors[i].value, args)];
        }
        i := i + 1;
      }
      assert functors[..i] == functors;
    }
  }

  /** Handles are `index + 1`: on an empty dispatcher two adds give
   *  handles 1 and 2 and append one slot each. */
  method TwoAdded(m: nat, x: Address) returns (d: RemovableDispatcher)
    ensures fresh(d) && d.Valid() && d.freeList == []
    ensures d.functors == [Some(Member(m, x)), Some(ConstMember(m, x))]
  {
    d := new RemovableDispatcher(8);
    var h1 := d.AddMember(m, x);
    assert h1 == 1 && d.functors == [Some(Member(m, x))];
    var h2 := d.AddConstMember(m, x);
    assert h2 == 2;
  }

  /** A third add gives handle 3; removing the first and the third pushes
   *  their indices on the free list, in that order. */
  method ThreeAddedTwoRemoved(m: nat, x: Address) returns (d: RemovableDispatcher)
    ensures fresh(d) && d.Valid() && |d.functors| == 3 && d.freeList == [0, 2]
  {
    d := TwoAdded(m, x);
    var h3 := d.AddFree(m);
    assert h3 == 3 && |d.functors| == 3 && d.freeList == [];
    var _ := d.Remove(1);
    assert d.freeList == [0] && |d.functors| == 3;
    var _ := d.Remove(h3);
  }

  /** Freed slots are reused last-in first-out: after the first and the
   *  third of three handles are removed, the next add gets the third handle
   *  back and the one after it the first; removing handle 0 aborts. */
  method HandleReuse(m: nat, x: Address)
  {
    var d := ThreeAddedTwoRemoved(m, x);
    var h4 := d.AddMember(m, x);
    assert h4 == 3 && d.freeList == [0];
    var h5 := d.AddFree(m);
    assert h5 == 1 && d.freeList == [] && |d.functors| == 3;
    var aborted := d.Remove(0);
    assert aborted;
  }

  /** `count()` follows adds and removes of live handles. */
  method CountFollowsLiveHandles(m: nat, x: Address)
  {
    var d := new RemovableDispatcher(8);
    var h1 := d.AddMember(m, x);
    var h2 := d.AddFree(m);
    assert d.IsTidy() && d.Count() == 2;
    var _ := d.Remove(h1);
    assert d.IsTidy() && d.Count() == 1;
    d.Clear();
    assert d.Count() == 0;
  }

  /** The as-written free-function add after slot 1 is removed: it returns
   *  handle 1 again, overwriting the live slot 0, and leaves slot 1 empty
   *  and unlisted, so `count()` no longer matches the live slots. */
  method FreeAddAsWrittenReusesLiveHandle(m: nat, x: Address)
  {
    var d := new RemovableDispatcher(8);
    var h1 := d.AddMember(m, x);
    var h2 := d.AddMember(m, x);
    var _ := d.Remove(h2);
    var h := d.AddFreeAsWritten(m);
    assert h == Some(h1);
    assert d.functors[1].None? && d.freeList == [];
    assert !d.IsTidy();
  }
}
