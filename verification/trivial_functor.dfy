/** TrivialFunctor.hpp: an opaque functor that only holds trivially copyable
 *  callables fitting its byte cache. Its whole state is the invoke pointer
 *  together with the cache contents, modelled as the callable it stands for
 *  (None for a null `_invoke`). Nothing is ever allocated or freed. */
module TrivialFunctors {
  import opened Memory
  import Utils

  /** `TrivialFunctorCacheRequirements`: trivially copyable and no larger than the cache. */
  predicate Accepts(t: ClassType, cacheSize: nat) {
    FitsCache(t, cacheSize)
  }

  class TrivialFunctor {
    /** The CacheSize template parameter. */
    const cacheSize: nat
    /** `_invoke` with the matching `_cache` contents. */
    var invoke: Option<Callable>

    /** The default constructor: `_invoke { nullptr }`. */
    constructor (cacheSize: nat)
      ensures this.cacheSize == cacheSize && invoke == None && !IsPrepared()
    {
      this.cacheSize := cacheSize;
      invoke := None;
    }

    /** The default constructor with the default cache, `CacheLineEighthSize` bytes. */
    constructor Default()
      ensures cacheSize == Utils.CacheLineEighthSize && invoke == None
    {
      cacheSize := Utils.CacheLineEighthSize;
      invoke := None;
    }

    /** The defaulted copy constructor: a bitwise copy. */
    constructor Copy(other: TrivialFunctor)
      ensures cacheSize == other.cacheSize && invoke == other.invoke
    {
      cacheSize := other.cacheSize;
      invoke := other.invoke;
    }

    /** The defaulted move constructor is the same bitwise copy: unlike
     *  Functor, the source keeps its callable. */
    constructor Move(other: TrivialFunctor)
      ensures cacheSize == other.cacheSize && invoke == other.invoke
      ensures other.invoke == old(other.invoke)
    {
      cacheSize := other.cacheSize;
      invoke := other.invoke;
    }

    /** The prepare constructor, which forwards to `prepare(functor)`. */
    constructor FromFunctor(cacheSize: nat, classType: ClassType, state: nat)
      requires Accepts(classType, cacheSize)
      ensures this.cacheSize == cacheSize && invoke == Some(ClassFunctor(classType, state))
      ensures IsPrepared()
    {
      this.cacheSize := cacheSize;
      invoke := Some(ClassFunctor(classType, state));
    }

    /** The defaulted copy assignment: the source is left as it was. */
    method CopyAssign(other: TrivialFunctor)
      requires other.cacheSize == cacheSize
      modifies this
      ensures invoke == old(other.invoke)
      ensures other != this ==> other.invoke == old(other.invoke)
    {
      invoke := other.invoke;
    }

    /** The defaulted move assignment: a bitwise copy as well. */
    method MoveAssign(other: TrivialFunctor)
      requires other.cacheSize == cacheSize
      modifies this
      ensures invoke == old(other.invoke)
      ensures other != this ==> other.invoke == old(other.invoke)
    {
      invoke := other.invoke;
    }

    /** `operator bool`: whether `_invoke` is set, that is, whether the
     *  functor holds a callable that `Target` can reach. */
    predicate IsPrepared(): (r: bool)
      reads this
      ensures r <==> invoke != None
    {
      invoke.Some?
    }

    /** `destroy()`: null `_invoke`; there is nothing to free. */
    method Destroy()
      modifies this
      ensures invoke == None && !IsPrepared()
    {
      invoke := None;
    }

    /** `release()`: identical to destroy. */
    method Release()
      modifies this
      ensures invoke == None && !IsPrepared()
    {
      invoke := None;
    }

    /** `prepare(functor)`, accepted only for trivially copyable class
     *  functors no larger than the cache. */
    method Prepare(classType: ClassType, state: nat)
      requires Accepts(classType, cacheSize)
      modifies this
      ensures invoke == Some(ClassFunctor(classType, state)) && IsPrepared()
    {
      invoke := Some(ClassFunctor(classType, state));
    }

    /** `prepare<MemberFunction>(instance)`: the instance pointer goes in the cache. */
    method PrepareMember(memberFunction: nat, instance: Address)
      modifies this
      ensures invoke == Some(Member(memberFunction, instance)) && IsPrepared()
    {
      invoke := Some(Member(memberFunction, instance));
    }

    /** `prepare<MemberFunction>(const instance)`. */
    method PrepareConstMember(memberFunction: nat, instance: Address)
      modifies this
      ensures invoke == Some(ConstMember(memberFunction, instance)) && IsPrepared()
    {
      invoke := Some(ConstMember(memberFunction, instance));
    }

    /** `prepare<Function>()`: the cache is not used. */
    method PrepareFree(freeFunction: nat)
      modifies this
      ensures invoke == Some(Free(freeFunction)) && IsPrepared()
    {
      invoke := Some(Free(freeFunction));
    }

    /** `operator()`: calls the stored callable; calling an empty functor
     *  dereferences a null function pointer, so it must be prepared. */
    function Target(): (c: Callable)
      reads this
      requires IsPrepared()
      ensures invoke == Some(c)
    {
      invoke.value
    }
  }

  /** A default functor is empty; after a move both it and its source hold
   *  the same callable; destroy empties only the one destroyed. */
  method CopySemantics(t: ClassType, state: nat)
    requires Accepts(t, Utils.CacheLineEighthSize)
  {
    var empty := new TrivialFunctor.Default();
    assert !empty.IsPrepared();
    var a := new TrivialFunctor.FromFunctor(Utils.CacheLineEighthSize, t, state);
    var b := new TrivialFunctor.Move(a);
    assert a.IsPrepared() && b.IsPrepared() && a.Target() == b.Target();
    a.Destroy();
    assert !a.IsPrepared() && b.invoke == Some(ClassFunctor(t, state));
    empty.MoveAssign(b);
    assert empty.invoke == b.invoke;
  }
}
