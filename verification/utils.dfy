/** The global helpers of Utils.hpp: cache-line constants, enum-flag helpers
 *  over the enumeration's underlying integer, the branchless select, and the
 *  `IteratorRange` view over a random-access range. */
module Utils {

  /** sizeof(std::size_t) on the 64-bit targets the library is built for. */
  const SizeOfSizeT: nat := 8

  const CacheLineSize: nat := SizeOfSizeT * 8
  const CacheLineDoubleSize: nat := CacheLineSize * 2
  const CacheLineHalfSize: nat := CacheLineSize / 2
  const CacheLineQuarterSize: nat := CacheLineSize / 4
  const CacheLineEighthSize: nat := CacheLineSize / 8

  // ---------------------------------------------------------------- flags

  /** The underlying integer of a flag enumeration (32 bits here). */
  type Underlying = bv32

  /** Bitwise OR, AND and "clear these bits" of the underlying integer. */
  function Or(a: Underlying, b: Underlying): Underlying { a | b }
  function And(a: Underlying, b: Underlying): Underlying { a & b }
  function Clear(flags: Underlying, mask: Underlying): Underlying { flags & !mask }

  /** `sub` has no bit outside `mask`. */
  predicate Within(sub: Underlying, mask: Underlying) {
    And(sub, mask) == sub
  }

  /** `value & flag` is non-zero. */
  predicate Meets(value: Underlying, flag: Underlying) {
    And(value, flag) != 0
  }

  lemma OrCovers(a: Underlying, b: Underlying, c: Underlying)
    ensures Within(a, Or(a, b)) && Within(b, Or(a, b))
    ensures Within(c, a) ==> Within(c, Or(a, b))
  {
  }

  lemma OrWithin(a: Underlying, b: Underlying, mask: Underlying)
    requires Within(a, mask) && Within(b, mask)
    ensures Within(Or(a, b), mask)
  {
  }

  lemma MeetsOr(x: Underlying, a: Underlying, b: Underlying)
    ensures Meets(x, Or(a, b)) <==> Meets(x, a) || Meets(x, b)
  {
    assert x & (a | b) == (x & a) | (x & b);
    NonZeroOr(x & a, x & b);
  }

  lemma NonZeroOr(p: Underlying, q: Underlying)
    ensures p | q != 0 <==> p != 0 || q != 0
  {
  }

  lemma ZeroMeetsNothing(x: Underlying)
    ensures !Meets(x, 0)
  {
  }

  lemma ClearMask(f: Underlying, m: Underlying)
    ensures And(Clear(f, m), m) == 0
    ensures Or(Clear(f, m), And(f, m)) == f
    ensures Within(Clear(f, m), f)
  {
  }

  /** The bitwise OR of all the flags, the reference the helpers are checked against. */
  function OrAll(flags: seq<Underlying>): (r: Underlying)
    ensures forall k :: 0 <= k < |flags| ==> Within(flags[k], r)
    decreases |flags|
  {
    if flags == [] then 0
    else
      var init, last := flags[..|flags| - 1], flags[|flags| - 1];
      var r := Or(OrAll(init), last);
      forall k | 0 <= k < |init| ensures Within(flags[k], r) {
        assert flags[k] == init[k];
        OrCovers(OrAll(init), last, flags[k]);
      }
      OrCovers(OrAll(init), last, last);
      r
  }

  /** OrAll is the least value that covers every flag. */
  lemma {:induction false} OrAllLeast(flags: seq<Underlying>, mask: Underlying)
    requires forall k :: 0 <= k < |flags| ==> Within(flags[k], mask)
    ensures Within(OrAll(flags), mask)
    decreases |flags|
  {
    if flags == [] {
      assert And(0, mask) == 0;
    } else {
      var init := flags[..|flags| - 1];
      assert forall k :: 0 <= k < |init| ==> init[k] == flags[k];
      OrAllLeast(init, mask);
      OrWithin(OrAll(init), flags[|flags| - 1], mask);
    }
  }

  /** The fold `((first | args) | ...)` of the variadic MakeFlags. */
  function OrFold(acc: Underlying, args: seq<Underlying>): Underlying
    decreases |args|
  {
    if args == [] then acc else OrFold(Or(acc, args[0]), args[1..])
  }

  lemma {:induction false} OrFoldIsOrAll(prefix: seq<Underlying>, args: seq<Underlying>)
    ensures OrFold(OrAll(prefix), args) == OrAll(prefix + args)
    decreases |args|
  {
    if args == [] {
      assert prefix + args == prefix;
    } else {
      var next := prefix + [args[0]];
      assert next[..|next| - 1] == prefix;
      assert OrAll(next) == Or(OrAll(prefix), args[0]);
      assert prefix + args == next + args[1..];
      OrFoldIsOrAll(next, args[1..]);
    }
  }

  lemma OrAllSingle(flag: Underlying)
    ensures OrAll([flag]) == flag
  {
    assert [flag][..0] == [];
    assert Or(0, flag) == flag;
  }

  /** `MakeFlags(first, args...)`: the single-flag overload returns its flag,
   *  the variadic one ORs all of them. */
  function MakeFlags(first: Underlying, args: seq<Underlying>): (r: Underlying)
    ensures r == OrAll([first] + args)
    ensures args == [] ==> r == first
  {
    OrAllSingle(first);
    if args == [] then
      assert [first] + args == [first];
      first
    else
      OrFoldIsOrAll([first], args);
      OrFold(first, args)
  }

  /** MakeFlags covers every argument, and any mask that covers every
   *  argument covers MakeFlags: it sets exactly the arguments' bits. */
  lemma MakeFlagsExact(first: Underlying, args: seq<Underlying>, mask: Underlying)
    ensures Within(first, MakeFlags(first, args))
    ensures forall k :: 0 <= k < |args| ==> Within(args[k], MakeFlags(first, args))
    ensures Within(first, mask) && (forall k :: 0 <= k < |args| ==> Within(args[k], mask))
            ==> Within(MakeFlags(first, args), mask)
  {
    var all := [first] + args;
    assert all[0] == first;
    assert forall k :: 0 <= k < |args| ==> all[k + 1] == args[k];
    if Within(first, mask) && (forall k :: 0 <= k < |args| ==> Within(args[k], mask)) {
      forall k | 0 <= k < |all| ensures Within(all[k], mask) {
        if k > 0 { assert all[k] == args[k - 1]; }
      }
      OrAllLeast(all, mask);
    }
  }

  /** `RemoveFlags(flags, toRemove...)`: `flags & ~MakeFlags(toRemove...)`;
   *  it clears exactly the bits of the removed flags and keeps the rest. */
  function RemoveFlags(flags: Underlying, toRemove: seq<Underlying>): (r: Underlying)
    requires |toRemove| != 0
    ensures And(r, OrAll(toRemove)) == 0
    ensures Or(r, And(flags, OrAll(toRemove))) == flags
    ensures Within(r, flags)
  {
    assert [toRemove[0]] + toRemove[1..] == toRemove;
    var m := MakeFlags(toRemove[0], toRemove[1..]);
    ClearMask(flags, m);
    Clear(flags, m)
  }

  /** `HasFlags(value, args...)`: the fold `((value & args) && ...)`. */
  function HasFlags(value: Underlying, args: seq<Underlying>): (r: bool)
    requires |args| != 0
    ensures r <==> forall k :: 0 <= k < |args| ==> Meets(value, args[k])
    decreases |args|
  {
    if |args| == 1 then Meets(value, args[0])
    else Meets(value, args[0]) && HasFlags(value, args[1..])
  }

  /** `HasAnyFlags(value, args...)`: `value & (args | ...)`. */
  function HasAnyFlags(value: Underlying, args: seq<Underlying>): (r: bool)
    requires |args| != 0
    ensures r <==> exists k :: 0 <= k < |args| && Meets(value, args[k])
  {
    assert [args[0]] + args[1..] == args;
    AndOrAll(value, args);
    Meets(value, MakeFlags(args[0], args[1..]))
  }

  /** A value meets the OR of some flags iff it meets one of them. */
  lemma {:induction false} AndOrAll(value: Underlying, flags: seq<Underlying>)
    ensures Meets(value, OrAll(flags)) <==> exists k :: 0 <= k < |flags| && Meets(value, flags[k])
    decreases |flags|
  {
    if flags == [] {
      ZeroMeetsNothing(value);
    } else {
      var init, last := flags[..|flags| - 1], flags[|flags| - 1];
      AndOrAll(value, init);
      MeetsOr(value, OrAll(init), last);
      if exists k :: 0 <= k < |init| && Meets(value, init[k]) {
        var k :| 0 <= k < |init| && Meets(value, init[k]);
        assert flags[k] == init[k];
      }
      if exists k :: 0 <= k < |flags| && Meets(value, flags[k]) {
        var k :| 0 <= k < |flags| && Meets(value, flags[k]);
        if k < |init| { assert init[k] == flags[k]; }
      }
    }
  }

  // ------------------------------------------------------- branchless select

  /** `BranchlessIf(condition, lhs, rhs) = condition * lhs - rhs * (condition - 1)`
   *  in unbounded integers: a signed integral type whose products do not
   *  overflow. */
  function BranchlessIf(condition: int, lhs: int, rhs: int): (r: int)
    ensures condition == 1 ==> r == lhs
    ensures condition == 0 ==> r == rhs
  {
    condition * lhs - rhs * (condition - 1)
  }

  /** How a call ends when the depth of nested calls is bounded: with a
   *  value, or by running out of stack. */
  datatype Outcome<T> = Returned(value: T) | StackExhausted

  /** The bool overload as written, for any `Type`. Its call
   *  `BranchlessIf(static_cast<Type>(condition), lhs, rhs)` depends on
   *  `Type`, so ordinary lookup sees only the declarations before it (the
   *  bool overload itself, not the `Type`-condition one declared after it),
   *  and argument-dependent lookup adds nothing for arithmetic types. The
   *  converted condition becomes the same bool again and the overload calls
   *  itself with the same arguments. `depth` is the number of nested calls
   *  the stack allows: whatever it is, no value comes back. */
  function BranchlessIfBoolAsWritten<T>(depth: nat, condition: bool, lhs: T, rhs: T): (r: Outcome<T>)
    ensures r == StackExhausted
    decreases depth
  {
    if depth == 0 then StackExhausted
    else
      var converted: int := if condition then 1 else 0;
      BranchlessIfBoolAsWritten(depth - 1, converted != 0, lhs, rhs)
  }

  /** `BranchlessIf(true, 3, 5)`: the intended overload selects 3; the
   *  overload as written returns nothing at any depth. */
  lemma BoolOverloadExample(depth: nat)
    ensures BranchlessIfBool(true, 3, 5) == 3
    ensures BranchlessIfBoolAsWritten(depth, true, 3, 5) != Returned(3)
  {
  }

  /** The bool overload as evidently intended: the condition is cast to 0
   *  or 1 and the `Type`-condition overload selects. */
  function BranchlessIfBool(condition: bool, lhs: int, rhs: int): (r: int)
    ensures r == if condition then lhs else rhs
  {
    BranchlessIf(if condition then 1 else 0, lhs, rhs)
  }

  newtype U32 = x: int | 0 <= x < 0x1_0000_0000

  function WrapMul(a: U32, b: U32): U32 { ((a as int * b as int) % 0x1_0000_0000) as U32 }
  function WrapSub(a: U32, b: U32): U32 { ((a as int - b as int) % 0x1_0000_0000) as U32 }

  /** The same expression for an unsigned 32-bit type, where `condition - 1`
   *  and the products wrap around modulo 2^32. */
  function BranchlessIfU32(condition: U32, lhs: U32, rhs: U32): (r: U32)
    ensures condition == 1 ==> r == lhs
    ensures condition == 0 ==> r == rhs
  {
    if condition == 0 then
      NegateTwice(lhs, rhs);
      WrapSub(WrapMul(condition, lhs), WrapMul(rhs, WrapSub(condition, 1)))
    else if condition == 1 then
      SelectLeft(lhs, rhs);
      WrapSub(WrapMul(condition, lhs), WrapMul(rhs, WrapSub(condition, 1)))
    else
    WrapSub(WrapMul(condition, lhs), WrapMul(rhs, WrapSub(condition, 1)))
  }

  /** `1 * lhs - rhs * 0` is `lhs`. */
  lemma SelectLeft(lhs: U32, rhs: U32)
    ensures WrapSub(WrapMul(1, lhs), WrapMul(rhs, WrapSub(1, 1))) == lhs
  {
    assert WrapSub(1, 1) == 0;
    assert WrapMul(rhs, 0) == 0;
    assert WrapMul(1, lhs) == lhs;
  }

  /** `0 * lhs - rhs * (2^32 - 1)` wraps back to `rhs`. */
  lemma NegateTwice(lhs: U32, rhs: U32)
    ensures WrapSub(WrapMul(0, lhs), WrapMul(rhs, WrapSub(0, 1))) == rhs
  {
    assert WrapMul(0, lhs) == 0;
    var m := 0x1_0000_0000;
    assert WrapSub(0, 1) as int == m - 1;
    var p := rhs as int * (m - 1);
    assert p == rhs as int * m - rhs as int;
    if rhs == 0 {
    } else {
      assert p == (rhs as int - 1) * m + (m - rhs as int);
      assert p % m == m - rhs as int;
    }
  }

  /** The bool overload for an unsigned 32-bit type, as evidently intended
   *  (as written it recurses like `BranchlessIfBoolAsWritten`). */
  function BranchlessIfBoolU32(condition: bool, lhs: U32, rhs: U32): (r: U32)
    ensures r == if condition then lhs else rhs
  {
    BranchlessIfU32(if condition then 1 else 0, lhs, rhs)
  }

  // ---------------------------------------------------------- IteratorRange

  /** A pair of random-access iterators `from`, `to` into `storage`. */
  datatype IteratorRange<T> = IteratorRange(storage: seq<T>, from: nat, to: nat) {

    ghost predicate Valid() {
      from <= to <= |storage|
    }

    /** The elements the range designates. */
    function Elements(): seq<T>
      requires Valid()
    {
      storage[from..to]
    }

    /** `empty()`: `from == to`. */
    predicate Empty()
      requires Valid()
      ensures Empty() <==> Elements() == []
    {
      from == to
    }

    /** `size()`: `std::distance(from, to)`. */
    function Size(): (r: nat)
      requires Valid()
      ensures r == |Elements()|
    {
      to - from
    }

    /** `at(index)` and `operator[]`: `from[index]`. */
    function At(index: nat): (r: T)
      requires Valid() && index < to - from
      ensures r == Elements()[index]
    {
      storage[from + index]
    }

    /** `front()`: `at(0)`. */
    function Front(): (r: T)
      requires Valid() && !Empty()
      ensures r == Elements()[0]
    {
      At(0)
    }

    /** `back()`: `at(size() - 1)`. */
    function Back(): (r: T)
      requires Valid() && !Empty()
      ensures r == Elements()[|Elements()| - 1]
    {
      At(Size() - 1)
    }
  }
}
