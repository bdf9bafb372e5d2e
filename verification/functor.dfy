/** Functor.hpp: an opaque functor that keeps small trivially copyable
 *  callables inline in its cache and any other callable on the heap, or
 *  behind a pointer owned by a custom deleter. The state is the invoke
 *  pointer (the callable it stands for) and the optional destructor, which
 *  says what `_destruct(_cache)` will free. */
module Functors {
  import opened Memory
  import Utils

  /** `sizeof(RuntimeAllocation)`: the heap pointer a functor that does not
   *  fit keeps in the cache, a `void *` aligned to an eighth cache line. */
  const RuntimeAllocationSize: nat := Utils.SizeOfSizeT

  /** The static assertions on RuntimeAllocation: it fits an eighth cache
   *  line, so the default `Functor` cache (a quarter cache line) holds it,
   *  as the constructors require. */
  lemma DefaultCacheHoldsRuntimeAllocation()
    ensures RuntimeAllocationSize <= Utils.CacheLineEighthSize
    ensures RuntimeAllocationSize <= Utils.CacheLineQuarterSize
  {
  }

  /** A non-null `_destruct`: destroy and deallocate the heap copy of the
   *  functor, or call a custom deleter on the stored pointer. */
  datatype Destructor =
    | DestroyAndDeallocate(block: Block)
    | RunDeleter(deleter: nat, pointer: Address)

  /** The heap blocks that running `destruct` frees. */
  function Frees(destruct: Option<Destructor>): (r: multiset<Block>)
    ensures |r| <= 1
    ensures destruct.None? ==> r == multiset{}
  {
    if destruct.Some? && destruct.value.DestroyAndDeallocate? then multiset{destruct.value.block}
    else multiset{}
  }

  /** The deleter calls that running `destruct` makes. */
  function DeleterLog(destruct: Option<Destructor>): (r: seq<DeleterCall>)
    ensures |r| <= 1
    ensures destruct.None? ==> r == []
  {
    if destruct.Some? && destruct.value.RunDeleter? then
      [DeleterCall(destruct.value.deleter, destruct.value.pointer)]
    else []
  }

  /** The destructor each prepare overload installs next to its callable:
   *  none for inline functors, member and free functions, a deallocation of
   *  exactly `sizeof`/`alignof` for heap functors, and the deleter on the
   *  stored pointer for pointer functors. */
  predicate Matches(invoke: Option<Callable>, destruct: Option<Destructor>, cacheSize: nat) {
    match invoke
    case None => destruct.None?
    case Some(ClassFunctor(t, _)) =>
      if FitsCache(t, cacheSize) then destruct.None?
      else && destruct.Some? && destruct.value.DestroyAndDeallocate?
           && destruct.value.block.size == t.size
           && destruct.value.block.alignment == t.alignment
    case Some(Pointee(t, p)) =>
      && !FitsCache(t, cacheSize)
      && destruct.Some? && destruct.value.RunDeleter? && destruct.value.pointer == p
    case Some(_) => destruct.None?
  }

  /** Freeing one of two disjointly owned parts keeps the other one live. */
  lemma RemoveDisjoint(mine: multiset<Block>, theirs: multiset<Block>, live: multiset<Block>)
    requires mine + theirs <= live
    ensures theirs <= live - mine
  {
  }

  class Functor {
    /** The CacheSize template parameter. */
    const cacheSize: nat
    /** The Allocator template parameter. */
    const heap: Heap
    /** `_invoke` with the callable stored in `_cache`. */
    var invoke: Option<Callable>
    /** `_destruct`. */
    var destruct: Option<Destructor>

    /** The heap blocks this functor is responsible for freeing. */
    ghost function Owned(): multiset<Block>
      reads this
    {
      Frees(destruct)
    }

    ghost predicate Valid()
      reads this, heap
    {
      && cacheSize >= RuntimeAllocationSize
      && heap.Valid()
      && Matches(invoke, destruct, cacheSize)
      && Owned() <= heap.live
    }

    /** The default constructor: both pointers null. The cache must hold a
     *  RuntimeAllocation (the static assertion). */
    constructor (heap: Heap, cacheSize: nat)
      requires heap.Valid() && cacheSize >= RuntimeAllocationSize
      ensures Valid() && this.heap == heap && this.cacheSize == cacheSize
      ensures invoke == None && destruct == None && Owned() == multiset{}
    {
      this.heap := heap;
      this.cacheSize := cacheSize;
      invoke, destruct := None, None;
    }

    /** The default constructor with the default cache of `CacheLineQuarterSize` bytes. */
    constructor Default(heap: Heap)
      requires heap.Valid()
      ensures Valid() && this.heap == heap && cacheSize == Utils.CacheLineQuarterSize
      ensures invoke == None && destruct == None
    {
      DefaultCacheHoldsRuntimeAllocation();
      this.heap := heap;
      cacheSize := Utils.CacheLineQuarterSize;
      invoke, destruct := None, None;
    }

    /** The move constructor: a bitwise copy, then the source's two pointers are nulled. */
    constructor Moved(other: Functor)
      requires other.Valid()
      modifies other
      ensures heap == other.heap && cacheSize == other.cacheSize
      ensures invoke == old(other.invoke) && destruct == old(other.destruct)
      ensures other.invoke == None && other.destruct == None
      ensures Valid() && other.Valid()
      ensures Owned() == old(other.Owned()) && other.Owned() == multiset{}
    {
      heap := other.heap;
      cacheSize := other.cacheSize;
      invoke, destruct := other.invoke, other.destruct;
      other.invoke, other.destruct := None, None;
    }

    /** The prepare constructor: `prepare(functor)` on an empty functor picks
     *  the inline overload when the functor fits the cache, and the
     *  allocating one otherwise. */
    constructor FromFunctor(heap: Heap, cacheSize: nat, classType: ClassType, state: nat)
      requires heap.Valid() && cacheSize >= RuntimeAllocationSize
      modifies heap
      ensures Valid() && this.heap == heap && this.cacheSize == cacheSize
      ensures invoke == Some(ClassFunctor(classType, state))
      ensures heap.live == old(heap.live) + Owned()
      ensures FitsCache(classType, cacheSize) ==> Owned() == multiset{}
      ensures !FitsCache(classType, cacheSize) ==> |Owned()| == 1 && Owned() !! old(heap.live)
      ensures heap.deleterCalls == old(heap.deleterCalls)
    {
      this.heap := heap;
      this.cacheSize := cacheSize;
      invoke := Some(ClassFunctor(classType, state));
      if FitsCache(classType, cacheSize) {
        destruct := None;
      } else {
        var b := heap.Allocate(classType.size, classType.alignment);
        destruct := Some(DestroyAndDeallocate(b));
      }
    }

    /** `_destruct(_cache)` when `_destruct` is set; the fields are left as
     *  they are, as with `release<false>`. */
    method RunDestructor()
      requires heap.Valid() && Owned() <= heap.live
      modifies heap
      ensures heap.Valid()
      ensures heap.live == old(heap.live) - Owned()
      ensures heap.deleterCalls == old(heap.deleterCalls) + DeleterLog(destruct)
      ensures heap.nextAddress == old(heap.nextAddress)
    {
      if destruct.None? {
        assert Owned() == multiset{} && DeleterLog(destruct) == [];
        assert heap.live - multiset{} == heap.live;
      } else if destruct.value.DestroyAndDeallocate? {
        assert Owned() == multiset{destruct.value.block} && DeleterLog(destruct) == [];
        heap.Deallocate(destruct.value.block);
      } else {
        assert Owned() == multiset{};
        assert heap.live - multiset{} == heap.live;
        heap.CallDeleter(destruct.value.deleter, destruct.value.pointer);
      }
    }

    /** `release()` (ResetMembers = true): run the destructor if one is set, then reset to empty. */
    method Release()
      requires Valid()
      modifies this, heap
      ensures Valid() && invoke == None && destruct == None
      ensures heap.live == old(heap.live) - old(Owned())
      ensures heap.deleterCalls == old(heap.deleterCalls) + DeleterLog(old(destruct))
    {
      RunDestructor();
      invoke, destruct := None, None;
    }

    /** `~Functor`, which is `release<false>()`: run the destructor if one is
     *  set and leave the members as they are; the object is dead afterwards. */
    method Destroy()
      requires Valid()
      modifies heap
      ensures heap.Valid()
      ensures heap.live == old(heap.live) - Owned()
      ensures heap.deleterCalls == old(heap.deleterCalls) + DeleterLog(destruct)
    {
      RunDestructor();
    }

    /** Move assignment: `release<false>()`, a bitwise copy of `other`, then
     *  `other`'s pointers are nulled. On self-assignment that last step
     *  empties the functor itself. */
    method MoveAssign(other: Functor)
      requires Valid() && other.Valid() && other.heap == heap && other.cacheSize == cacheSize
      requires other != this ==> Owned() + other.Owned() <= heap.live
      modifies this, other, heap
      ensures Valid() && other.Valid()
      ensures other == this ==> invoke == None && destruct == None
      ensures other != this ==>
                && invoke == old(other.invoke) && destruct == old(other.destruct)
                && other.invoke == None && other.destruct == None
      ensures heap.live == old(heap.live) - old(Owned())
      ensures heap.deleterCalls == old(heap.deleterCalls) + DeleterLog(old(destruct))
    {
      if other == this {
        Release();
        return;
      }
      ghost var taken := other.Owned();
      RemoveDisjoint(Owned(), taken, heap.live);
      RunDestructor();
      assert taken <= heap.live;
      invoke, destruct := other.invoke, other.destruct;
      other.invoke, other.destruct := None, None;
      assert Owned() == taken && other.Owned() == multiset{};
    }

    /** `operator bool`: whether `_invoke` is set; an unprepared functor
     *  has no destructor and owns no block. */
    predicate IsPrepared(): (r: bool)
      reads this
      ensures Matches(invoke, destruct, cacheSize) && !r ==> destruct.None? && Owned() == multiset{}
    {
      invoke.Some?
    }

    /** `prepare(functor)` for a trivially copyable functor that fits the
     *  cache: the old callable is released, the new one is copied inline and
     *  no destructor is installed. */
    method PrepareInline(classType: ClassType, state: nat)
      requires Valid() && FitsCache(classType, cacheSize)
      modifies this, heap
      ensures Valid() && invoke == Some(ClassFunctor(classType, state)) && destruct == None
      ensures heap.live == old(heap.live) - old(Owned())
      ensures heap.deleterCalls == old(heap.deleterCalls) + DeleterLog(old(destruct))
    {
      RunDestructor();
      invoke := Some(ClassFunctor(classType, state));
      destruct := None;
    }

    /** `prepare(functor)` for any other functor: the old callable is
     *  released, then exactly one `Allocate(sizeof, alignof)` holds the new
     *  one and the installed destructor deallocates that very block. */
    method PrepareAllocated(classType: ClassType, state: nat)
      requires Valid() && !FitsCache(classType, cacheSize)
      modifies this, heap
      ensures Valid() && invoke == Some(ClassFunctor(classType, state))
      ensures destruct.Some? && destruct.value.DestroyAndDeallocate?
      ensures destruct.value.block.size == classType.size
      ensures destruct.value.block.alignment == classType.alignment
      ensures destruct.value.block !in old(heap.live)
      ensures heap.live == old(heap.live) - old(Owned()) + multiset{destruct.value.block}
      ensures heap.deleterCalls == old(heap.deleterCalls) + DeleterLog(old(destruct))
    {
      RunDestructor();
      var b := heap.Allocate(classType.size, classType.alignment);
      invoke := Some(ClassFunctor(classType, state));
      destruct := Some(DestroyAndDeallocate(b));
    }

    /** `prepare<MemberFunction>(instance)`. */
    method PrepareMember(memberFunction: nat, instance: Address)
      requires Valid()
      modifies this, heap
      ensures Valid() && invoke == Some(Member(memberFunction, instance)) && destruct == None
      ensures heap.live == old(heap.live) - old(Owned())
      ensures heap.deleterCalls == old(heap.deleterCalls) + DeleterLog(old(destruct))
    {
      RunDestructor();
      invoke := Some(Member(memberFunction, instance));
      destruct := None;
    }

    /** `prepare<MemberFunction>(const instance)`. */
    method PrepareConstMember(memberFunction: nat, instance: Address)
      requires Valid()
      modifies this, heap
      ensures Valid() && invoke == Some(ConstMember(memberFunction, instance)) && destruct == None
      ensures heap.live == old(heap.live) - old(Owned())
      ensures heap.deleterCalls == old(heap.deleterCalls) + DeleterLog(old(destruct))
    {
      RunDestructor();
      invoke := Some(ConstMember(memberFunction, instance));
      destruct := None;
    }

    /** `prepare<Function>()`. */
    method PrepareFree(freeFunction: nat)
      requires Valid()
      modifies this, heap
      ensures Valid() && invoke == Some(Free(freeFunction)) && destruct == None
      ensures heap.live == old(heap.live) - old(Owned())
      ensures heap.deleterCalls == old(heap.deleterCalls) + DeleterLog(old(destruct))
    {
      RunDestructor();
      invoke := Some(Free(freeFunction));
      destruct := None;
    }

    /** `prepare<Deleter>(functorPtr)` for a functor that does not fit the
     *  cache: the pointer is stored and the destructor calls the deleter on
     *  it; nothing is allocated. */
    method PrepareWithDeleter(deleter: nat, classType: ClassType, pointer: Address)
      requires Valid() && !FitsCache(classType, cacheSize)
      modifies this, heap
      ensures Valid() && invoke == Some(Pointee(classType, pointer))
      ensures destruct == Some(RunDeleter(deleter, pointer))
      ensures heap.live == old(heap.live) - old(Owned())
      ensures heap.deleterCalls == old(heap.deleterCalls) + DeleterLog(old(destruct))
    {
      RunDestructor();
      invoke := Some(Pointee(classType, pointer));
      destruct := Some(RunDeleter(deleter, pointer));
    }
  }

  /** The free-function test case: moving leaves the source empty, and
   *  move-assigning the emptied source empties the target. */
  method FreeFunctionMoves(heap: Heap)
    requires heap.Valid()
    modifies heap
  {
    var func := new Functor.Default(heap);
    func.PrepareFree(7);
    assert func.IsPrepared();
    var func2 := new Functor.Moved(func);
    assert !func.IsPrepared() && func2.IsPrepared();
    func2.MoveAssign(func);
    assert !func2.IsPrepared();
  }

  /** The custom-deleter test case: move-assigning an empty functor over a
   *  pointer functor empties it and runs its deleter once. */
  method DeleterLifecycle(heap: Heap, big: ClassType, small: ClassType)
    requires heap.Valid() && heap.deleterCalls == []
    requires !FitsCache(big, Utils.CacheLineQuarterSize) && FitsCache(small, Utils.CacheLineQuarterSize)
    modifies heap
  {
    var func := new Functor.Default(heap);
    func.PrepareWithDeleter(3, big, 100);
    var func2 := new Functor.Moved(func);
    assert func2.Owned() == multiset{} && func.Owned() == multiset{};
    assert DeleterLog(func2.destruct) == [DeleterCall(3, 100)];
    func2.MoveAssign(func);
    assert !func.IsPrepared() && !func2.IsPrepared();
    assert heap.deleterCalls == [DeleterCall(3, 100)];
  }

  /** The re-prepare step of the custom-deleter test case: preparing an
   *  inline lambda over a pointer functor runs its deleter once and leaves
   *  the allocator untouched. */
  method ReprepareOverDeleter(heap: Heap, big: ClassType, small: ClassType)
    requires heap.Valid()
    requires !FitsCache(big, Utils.CacheLineQuarterSize) && FitsCache(small, Utils.CacheLineQuarterSize)
    modifies heap
  {
    var func := new Functor.Default(heap);
    func.PrepareWithDeleter(3, big, 200);
    ghost var live, calls := heap.live, heap.deleterCalls;
    assert func.Owned() == multiset{};
    assert DeleterLog(func.destruct) == [DeleterCall(3, 200)];
    func.PrepareInline(small, 0);
    assert func.IsPrepared() && heap.deleterCalls == calls + [DeleterCall(3, 200)];
    assert heap.live == live;
  }

  /** A heap functor's block is allocated once and freed once: after
   *  preparing it and releasing it the allocator holds nothing. */
  method AllocatedBalance(heap: Heap, big: ClassType)
    requires heap.Valid() && heap.live == multiset{}
    requires !FitsCache(big, Utils.CacheLineQuarterSize)
    modifies heap
  {
    var func := new Functor.FromFunctor(heap, Utils.CacheLineQuarterSize, big, 1);
    assert |heap.live| == 1;
    var moved := new Functor.Moved(func);
    assert moved.Owned() == heap.live;
    func.Release();
    assert |heap.live| == 1;
    moved.Release();
    assert heap.live == multiset{};
  }
}
