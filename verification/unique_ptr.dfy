/** UniquePtr.hpp: a single owning pointer over the static allocator.
 *  `Make` allocates and constructs, `release` destroys and deallocates,
 *  moves transfer or swap the pointer and `steal` gives it up. */
module UniquePtrs {
  import opened Memory

  /** The block that `releaseUnsafe` passes to `Deallocate`, as written: the
   *  held address with `sizeof(Type)` and `alignof(Type)` of the pointer's
   *  own Type, whatever size the object was allocated with. */
  function ReleasedBlockAsWritten(held: Block, typeSize: nat, typeAlign: nat): (b: Block)
    ensures b.address == held.address
    ensures b == held <==> held.size == typeSize && held.alignment == typeAlign
  {
    Block(held.address, typeSize, typeAlign)
  }

  /** For an object made by the same-type `Make`, the as-written release
   *  returns exactly the allocated block. */
  lemma SameTypeReleaseMatches(held: Block, typeSize: nat, typeAlign: nat)
    requires held.size == typeSize && held.alignment == typeAlign
    ensures ReleasedBlockAsWritten(held, typeSize, typeAlign) == held
  {
  }

  /** `Make<Derived>` on a UniquePtr<Type> allocates `sizeof(Derived)`; when
   *  that differs from `sizeof(Type)` (a 16-byte Derived of an 8-byte Type,
   *  say) releasing it as written deallocates a block that is not live, so
   *  the allocator's precondition fails. */
  lemma DerivedReleaseMismatch(heap: Heap, held: Block, typeSize: nat, typeAlign: nat)
    requires heap.Valid() && held in heap.live && held.size != typeSize
    ensures ReleasedBlockAsWritten(held, typeSize, typeAlign) != held
    ensures ReleasedBlockAsWritten(held, typeSize, typeAlign) !in heap.live
  {
  }

  /** The concrete instance: 16 bytes allocated, 8 bytes deallocated. */
  lemma DerivedReleaseExample()
    ensures ReleasedBlockAsWritten(Block(1, 16, 8), 8, 8) == Block(1, 8, 8) != Block(1, 16, 8)
  {
  }

  class UniquePtr {
    /** `sizeof(Type)` and `alignof(Type)`. */
    const typeSize: nat
    const typeAlign: nat
    /** The Allocator template parameter. */
    const heap: Heap
    /** `_ptr`, with the block it was allocated as; None is nullptr. */
    var ptr: Option<Block>

    /** The heap blocks this pointer is responsible for freeing. */
    ghost function Owned(): multiset<Block>
      reads this
    {
      if ptr.Some? then multiset{ptr.value} else multiset{}
    }

    ghost predicate Valid()
      reads this, heap
    {
      heap.Valid() && Owned() <= heap.live
    }

    /** The default constructor: null. */
    constructor (heap: Heap, typeSize: nat, typeAlign: nat)
      requires heap.Valid()
      ensures Valid() && this.heap == heap && this.typeSize == typeSize && this.typeAlign == typeAlign
      ensures ptr == None && !IsSet()
    {
      this.heap := heap;
      this.typeSize, this.typeAlign := typeSize, typeAlign;
      ptr := None;
    }

    /** `Make(args...)`: one `Allocate(sizeof(Type), alignof(Type))`, owned by the new pointer. */
    static method Make(heap: Heap, typeSize: nat, typeAlign: nat) returns (p: UniquePtr)
      requires heap.Valid()
      modifies heap
      ensures fresh(p) && p.Valid() && p.heap == heap
      ensures p.typeSize == typeSize && p.typeAlign == typeAlign
      ensures p.ptr.Some? && p.ptr.value.size == typeSize && p.ptr.value.alignment == typeAlign
      ensures p.ptr.value !in old(heap.live)
      ensures heap.live == old(heap.live) + multiset{p.ptr.value}
      ensures heap.deleterCalls == old(heap.deleterCalls)
    {
      var b := heap.Allocate(typeSize, typeAlign);
      p := new UniquePtr.Holding(heap, typeSize, typeAlign, b);
    }

    /** `Make<Derived>(args...)`: one `Allocate(sizeof(Derived), alignof(Derived))`. */
    static method MakeDerived(heap: Heap, typeSize: nat, typeAlign: nat, derivedSize: nat, derivedAlign: nat)
      returns (p: UniquePtr)
      requires heap.Valid()
      modifies heap
      ensures fresh(p) && p.Valid() && p.heap == heap
      ensures p.typeSize == typeSize && p.typeAlign == typeAlign
      ensures p.ptr.Some? && p.ptr.value.size == derivedSize && p.ptr.value.alignment == derivedAlign
      ensures p.ptr.value !in old(heap.live)
      ensures heap.live == old(heap.live) + multiset{p.ptr.value}
      ensures heap.deleterCalls == old(heap.deleterCalls)
    {
      var b := heap.Allocate(derivedSize, derivedAlign);
      p := new UniquePtr.Holding(heap, typeSize, typeAlign, b);
    }

    /** The private instance constructor `UniquePtr(ptr)`. */
    constructor Holding(heap: Heap, typeSize: nat, typeAlign: nat, b: Block)
      requires heap.Valid() && b in heap.live
      ensures Valid() && this.heap == heap && this.typeSize == typeSize && this.typeAlign == typeAlign
      ensures ptr == Some(b)
    {
      this.heap := heap;
      this.typeSize, this.typeAlign := typeSize, typeAlign;
      ptr := Some(b);
    }

    /** The move constructor: take the pointer and null the source. The
     *  derived-type move constructor `_ptr(other.steal())` has the same effect. */
    constructor Moved(other: UniquePtr, typeSize: nat, typeAlign: nat)
      requires other.Valid()
      modifies other
      ensures Valid() && heap == other.heap && this.typeSize == typeSize && this.typeAlign == typeAlign
      ensures ptr == old(other.ptr) && other.ptr == None
      ensures other.Valid()
    {
      heap := other.heap;
      this.typeSize, this.typeAlign := typeSize, typeAlign;
      ptr := other.ptr;
      other.ptr := None;
    }

    /** `operator bool`: whether the pointer is non-null, that is, whether it owns an object. */
    predicate IsSet(): (r: bool)
      reads this
      ensures r <==> Owned() != multiset{}
    {
      ptr.Some?
    }

    /** Same-type move assignment: `std::swap(_ptr, other._ptr)`, so the
     *  target's object is handed to the source instead of being freed. */
    method MoveAssign(other: UniquePtr)
      requires Valid() && other.Valid() && other.heap == heap
      requires other != this ==> Owned() + other.Owned() <= heap.live
      modifies this, other
      ensures Valid() && other.Valid()
      ensures ptr == old(other.ptr) && other.ptr == old(ptr)
      ensures Owned() + other.Owned() == old(Owned()) + old(other.Owned())
    {
      ptr, other.ptr := other.ptr, ptr;
    }

    /** `swap(other)`: exchange the two pointers. */
    method Swap(other: UniquePtr)
      requires Valid() && other.Valid() && other.heap == heap
      modifies this, other
      ensures Valid() && other.Valid()
      ensures ptr == old(other.ptr) && other.ptr == old(ptr)
    {
      ptr, other.ptr := other.ptr, ptr;
    }

    /** `releaseUnsafe()`: destroy the object, deallocate its block and null
     *  the pointer. Deallocation uses the block the object was allocated
     *  as (see ReleasedBlockAsWritten for what the header passes). */
    method ReleaseUnsafe()
      requires Valid() && ptr.Some?
      modifies this, heap
      ensures Valid() && ptr == None
      ensures heap.live == old(heap.live) - multiset{old(ptr.value)}
      ensures heap.deleterCalls == old(heap.deleterCalls)
    {
      heap.Deallocate(ptr.value);
      ptr := None;
    }

    /** `release()`: releaseUnsafe when non-null, nothing on null. */
    method Release()
      requires Valid()
      modifies this, heap
      ensures Valid() && ptr == None
      ensures heap.live == old(heap.live) - old(Owned())
      ensures heap.deleterCalls == old(heap.deleterCalls)
    {
      if ptr.Some? {
        ReleaseUnsafe();
      } else {
        assert heap.live - multiset{} == heap.live;
      }
    }

    /** `steal()`: return the pointer and leave null; the caller now owns the object. */
    method Steal() returns (stolen: Option<Block>)
      requires Valid()
      modifies this
      ensures Valid() && ptr == None && stolen == old(ptr)
    {
      stolen := ptr;
      ptr := None;
    }

    /** Derived-type move assignment: release the current object, then steal
     *  `other`'s pointer (a UniquePtr of another type, so not this one). */
    method DerivedMoveAssign(other: UniquePtr)
      requires Valid() && other.Valid() && other.heap == heap && other != this
      requires Owned() + other.Owned() <= heap.live
      modifies this, other, heap
      ensures Valid() && other.Valid()
      ensures ptr == old(other.ptr) && other.ptr == None
      ensures heap.live == old(heap.live) - old(Owned())
    {
      ghost var theirs := other.Owned();
      assert theirs <= heap.live - Owned();
      Release();
      var stolen := other.Steal();
      ptr := stolen;
    }
  }

  /** A made pointer moved into another: the source is null and releasing
   *  it frees nothing; the new pointer holds the one allocated block. */
  method MakeAndMove(heap: Heap) returns (b: UniquePtr, ghost block: Block)
    requires heap.Valid()
    modifies heap
    ensures fresh(b) && b.Valid() && b.heap == heap && b.ptr == Some(block)
    ensures heap.live == old(heap.live) + multiset{block}
  {
    var a := UniquePtr.Make(heap, 8, 8);
    block := a.ptr.value;
    b := new UniquePtr.Moved(a, 8, 8);
    assert a.ptr == None && a.Owned() == multiset{};
    a.Release();
  }

  /** Each allocation is freed exactly once: a made pointer moved into
   *  another, then both released, leaves the allocator as it was. */
  method MakeMoveRelease(heap: Heap)
    requires heap.Valid()
    modifies heap
  {
    ghost var before := heap.live;
    var b, block := MakeAndMove(heap);
    b.Release();
    assert heap.live == before + multiset{block} - multiset{block};
    assert heap.live == before;
  }

  /** Same-type move assignment swaps: the source ends up owning the
   *  target's old object, so nothing is freed by the assignment itself. */
  method MoveAssignSwaps(heap: Heap)
    requires heap.Valid()
    modifies heap
  {
    var a := UniquePtr.Make(heap, 8, 8);
    var b := UniquePtr.Make(heap, 8, 8);
    ghost var pa, pb := a.ptr, b.ptr;
    a.MoveAssign(b);
    assert a.ptr == pb && b.ptr == pa && b.IsSet();
  }
}
