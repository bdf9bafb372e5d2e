/** Shared vocabulary of the model: an optional value, the opaque callables
 *  that functors and dispatchers store, and the static allocator
 *  (`Allocate(bytes, alignment)` / `Deallocate(data, bytes, alignment)`)
 *  as an explicit object that keeps a ghost multiset of its live blocks. */
module Memory {

  datatype Option<T> = None | Some(value: T)

  /** An address handed out by the allocator; 0 plays the part of nullptr. */
  type Address = nat

  /** One allocation: its address and the size and alignment it was requested with. */
  datatype Block = Block(address: Address, size: nat, alignment: nat)

  /** A user-supplied deleter called on a pointer. */
  datatype DeleterCall = DeleterCall(deleter: nat, pointer: Address)

  /** What the compiler knows about a functor's class type. */
  datatype ClassType = ClassType(id: nat, size: nat, alignment: nat, triviallyCopyable: bool)

  /** The things a functor can be prepared with, as opaque identities:
   *  a functor object (a lambda or a class with operator()), a member
   *  function bound to an instance, a const member function bound to an
   *  instance, a free function, or a functor reached through a pointer that
   *  a custom deleter owns. */
  datatype Callable =
    | ClassFunctor(classType: ClassType, state: nat)
    | Member(memberFunction: nat, instance: Address)
    | ConstMember(memberFunction: nat, instance: Address)
    | Free(freeFunction: nat)
    | Pointee(pointeeType: ClassType, pointer: Address)

  /** A functor type can live in a cache of `cacheSize` bytes when it is
   *  trivially copyable and no larger than the cache. */
  predicate FitsCache(t: ClassType, cacheSize: nat) {
    t.triviallyCopyable && t.size <= cacheSize
  }

  /** No two live blocks share an address. */
  ghost predicate LiveAddressesUnique(live: multiset<Block>) {
    forall b, c | b in live && c in live && b.address == c.address :: b == c
  }

  /** The static allocator, with the log of calls made to custom deleters. */
  class Heap {
    ghost var live: multiset<Block>
    ghost var deleterCalls: seq<DeleterCall>
    var nextAddress: Address

    ghost predicate Valid()
      reads this
    {
      && nextAddress > 0
      && (forall b | b in live :: 0 < b.address < nextAddress)
      && LiveAddressesUnique(live)
    }

    constructor ()
      ensures Valid() && live == multiset{} && deleterCalls == []
    {
      live := multiset{};
      deleterCalls := [];
      nextAddress := 1;
    }

    /** Allocate(bytes, alignment): a fresh, non-null block of exactly that size and alignment. */
    method Allocate(size: nat, alignment: nat) returns (b: Block)
      requires Valid()
      modifies this
      ensures Valid()
      ensures b.address != 0 && b.size == size && b.alignment == alignment
      ensures b !in old(live)
      ensures b.address == old(nextAddress) && nextAddress > old(nextAddress)
      ensures live == old(live) + multiset{b}
      ensures deleterCalls == old(deleterCalls)
    {
      b := Block(nextAddress, size, alignment);
      nextAddress := nextAddress + size + 1;
      live := live + multiset{b};
    }

    /** Deallocate(data, bytes, alignment): the caller must pass back a live
     *  block with the size and alignment it was allocated with. */
    method Deallocate(b: Block)
      requires Valid() && b in live
      modifies this
      ensures Valid()
      ensures live == old(live) - multiset{b}
      ensures deleterCalls == old(deleterCalls)
      ensures nextAddress == old(nextAddress)
    {
      live := live - multiset{b};
    }

    /** Record that a custom deleter was called on a pointer. */
    method CallDeleter(deleter: nat, pointer: Address)
      requires Valid()
      modifies this
      ensures Valid()
      ensures deleterCalls == old(deleterCalls) + [DeleterCall(deleter, pointer)]
      ensures live == old(live) && nextAddress == old(nextAddress)
    {
      deleterCalls := deleterCalls + [DeleterCall(deleter, pointer)];
    }
  }
}
