/** DispatcherDetails.hpp: an append-only list of prepared functors that
 *  `dispatch` calls in insertion order. Each slot is the callable it holds;
 *  the heap block a `Functor` slot owns for a large functor is not modelled. */
module Dispatchers {
  import opened Memory

  class Dispatcher {
    /** The CacheSize of the slot functors. */
    const cacheSize: nat
    /** `_functors`, in insertion order. */
    var functors: seq<Callable>

    /** The default constructor: no functors. */
    constructor (cacheSize: nat)
      ensures this.cacheSize == cacheSize && functors == [] && Count() == 0
    {
      this.cacheSize := cacheSize;
      functors := [];
    }

    /** The defaulted move constructor: the functors are taken; the source is left empty. */
    constructor Moved(other: Dispatcher)
      modifies other
      ensures cacheSize == other.cacheSize
      ensures functors == old(other.functors) && other.functors == []
    {
      cacheSize := other.cacheSize;
      functors := other.functors;
      other.functors := [];
    }

    /** The defaulted move assignment. */
    method MoveAssign(other: Dispatcher)
      requires other != this && other.cacheSize == cacheSize
      modifies this, other
      ensures functors == old(other.functors) && other.functors == []
    {
      functors := other.functors;
      other.functors := [];
    }

    /** `count()`: one per stored functor. */
    function Count(): (r: nat)
      reads this
      ensures r == |functors|
    {
      |functors|
    }

    /** `add(functor)`: push one slot and prepare it with the functor, of
     *  any size (a `Functor` slot keeps one that does not fit on the heap). */
    method AddFunctor(classType: ClassType, state: nat)
      modifies this
      ensures functors == old(functors) + [ClassFunctor(classType, state)]
      ensures Count() == old(Count()) + 1
    {
      functors := functors + [ClassFunctor(classType, state)];
    }

    /** `add<MemberFunction>(instance)`. */
    method AddMember(memberFunction: nat, instance: Address)
      modifies this
      ensures functors == old(functors) + [Member(memberFunction, instance)]
      ensures Count() == old(Count()) + 1
    {
      functors := functors + [Member(memberFunction, instance)];
    }

    /** `add<MemberFunction>(const instance)`. */
    method AddConstMember(memberFunction: nat, instance: Address)
      modifies this
      ensures functors == old(functors) + [ConstMember(memberFunction, instance)]
      ensures Count() == old(Count()) + 1
    {
      functors := functors + [ConstMember(memberFunction, instance)];
    }

    /** `add<FreeFunction>()`. */
    method AddFree(freeFunction: nat)
      modifies this
      ensures functors == old(functors) + [Free(freeFunction)]
      ensures Count() == old(Count()) + 1
    {
      functors := functors + [Free(freeFunction)];
    }

    /** `clear()`. */
    method Clear()
      modifies this
      ensures functors == [] && Count() == 0
    {
      functors := [];
    }

    /** `dispatch(args...)`: each functor is called once with the arguments,
     *  in insertion order; the calls made are returned. */
    method Dispatch<A>(args: A) returns (calls: seq<(Callable, A)>)
      ensures |calls| == Count()
      ensures forall k | 0 <= k < |calls| :: calls[k] == (functors[k], args)
    {
      calls := [];
      var i := 0;
      while i < |functors|
        invariant 0 <= i <= |functors| && |calls| == i
        invariant forall k | 0 <= k < i :: calls[k] == (functors[k], args)
      {
        calls := calls + [(functors[i], args)];
        i := i + 1;
      }
    }

    /** `dispatch(callback, args...)`: the callback receives each functor's
     *  return value in insertion order; the values it received are returned. */
    method DispatchWithCallback<A, R>(invoke: (Callable, A) -> R, args: A) returns (received: seq<R>)
      ensures |received| == Count()
      ensures forall k | 0 <= k < |received| :: received[k] == invoke(functors[k], args)
    {
      received := [];
      var i := 0;
      while i < |functors|
        invariant 0 <= i <= |functors| && |received| == i
        invariant forall k | 0 <= k < i :: received[k] == invoke(functors[k], args)
      {
        received := received + [invoke(functors[i], args)];
        i := i + 1;
      }
    }
  }

  /** Two adds then a dispatch: both are called, oldest first; after
   *  `clear()` nothing is called; a functor too large for the cache is
   *  still added. */
  method DispatchOrder(f: nat, g: nat, x: Address, args: int)
  {
    var d := new Dispatcher(8);
    d.AddFree(f);
    d.AddMember(g, x);
    var calls := d.Dispatch(args);
    assert calls == [(Free(f), args), (Member(g, x), args)];
    d.Clear();
    calls := d.Dispatch(args);
    assert calls == [];
    var large := ClassType(7, 32, 8, false);
    d.AddFunctor(large, 0);
    assert d.Count() == 1 && d.functors == [ClassFunctor(large, 0)];
  }
}
