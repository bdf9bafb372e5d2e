/** ObservedProperty.hpp: a value with a removable dispatcher of observers.
 *  Assigning a value equal to the current one does nothing; assigning a
 *  different one stores it and then dispatches it once to every observer. */
module ObservedProperties {
  import opened Memory
  import opened RemovableDispatchers
  import Utils

  /** The observers' slot functors use the default Functor cache size. */
  const ObserverCacheSize: nat := Utils.CacheLineQuarterSize

  class ObservedProperty<T(==)> {
    /** `_value`. */
    var value: T
    /** `_dispatcher`, owned by the property. */
    var dispatcher: RemovableDispatcher

    ghost predicate Valid()
      reads this, dispatcher
    {
      dispatcher.Valid()
    }

    /** The value constructors (copy and move): the value is stored and the
     *  dispatcher starts with no observers. The default constructor is the
     *  same with a value-initialized `T`. */
    constructor (value: T)
      ensures Valid() && fresh(dispatcher)
      ensures this.value == value && Get() == value
      ensures dispatcher.functors == [] && dispatcher.freeList == []
    {
      this.value := value;
      dispatcher := new RemovableDispatcher(ObserverCacheSize);
    }

    /** The move constructor: the value and the dispatcher's observers are taken. */
    constructor Moved(other: ObservedProperty<T>)
      requires other.Valid()
      modifies other.dispatcher
      ensures Valid() && fresh(dispatcher)
      ensures value == old(other.value)
      ensures dispatcher.functors == old(other.dispatcher.functors)
      ensures dispatcher.freeList == old(other.dispatcher.freeList)
      ensures other.dispatcher.functors == [] && other.dispatcher.freeList == []
    {
      value := other.value;
      dispatcher := new RemovableDispatcher.Moved(other.dispatcher);
    }

    /** Move assignment: the value, then the dispatcher, are move-assigned. */
    method MoveAssign(other: ObservedProperty<T>)
      requires Valid() && other.Valid()
      requires other.dispatcher != dispatcher && other.dispatcher.cacheSize == dispatcher.cacheSize
      modifies this, dispatcher, other.dispatcher
      ensures Valid() && dispatcher == old(dispatcher)
      ensures value == old(other.value)
      ensures dispatcher.functors == old(other.dispatcher.functors)
      ensures dispatcher.freeList == old(other.dispatcher.freeList)
      ensures other.dispatcher.functors == [] && other.dispatcher.freeList == []
    {
      value := other.value;
      dispatcher.MoveAssign(other.dispatcher);
    }

    /** The copy and move value assignments: nothing happens when the new
     *  value equals the stored one; otherwise it is stored, then every live
     *  observer is called once with it, in slot order. The calls are returned. */
    method Assign(v: T) returns (notified: seq<(Callable, T)>)
      requires Valid()
      modifies this
      ensures Valid() && dispatcher == old(dispatcher) && value == v && Get() == v
      ensures old(value) == v ==> notified == []
      ensures old(value) != v ==>
                && |notified| == |LiveTargets(dispatcher.functors)|
                && forall k | 0 <= k < |notified| :: notified[k] == (LiveTargets(dispatcher.functors)[k], v)
    {
      if value == v {
        return [];
      }
      value := v;
      notified := dispatcher.Dispatch(value);
    }

    /** `get()` and the const conversion: the stored value. */
    function Get(): (r: T)
      reads this
      ensures r == value
    {
      value
    }
  }

  /** An observer is notified on a change and not on a repeated value;
   *  after its handle is removed, a change notifies no one. The removal
   *  relies on the TrivialFunctor slot semantics of the model: with the
   *  `Functor` slots of the source's dispatcher, `remove` would call a
   *  `destroy()` that `Functor` does not have. */
  method NotifyOnChange(f: nat)
  {
    var p := new ObservedProperty<int>(1);
    var h := p.dispatcher.AddFree(f);
    var calls := p.Assign(1);
    assert calls == [];
    calls := p.Assign(2);
    assert p.dispatcher.functors == [Some(Free(f))];
    assert LiveTargets(p.dispatcher.functors) == [Free(f)];
    assert calls == [(Free(f), 2)] && p.Get() == 2;
    var _ := p.dispatcher.Remove(h);
    assert LiveTargets(p.dispatcher.functors) == [];
    calls := p.Assign(3);
    assert calls == [] && p.Get() == 3;
  }
}
