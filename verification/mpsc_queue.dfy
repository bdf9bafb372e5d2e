/** The sequential contract of MPSCQueue.hpp: a bounded FIFO ring buffer with
 *  a consumer index `head` and a producer index `tail`. One cell is always
 *  left unused so that a full queue (`tail` just behind `head`) differs from
 *  an empty one (`tail == head`). */
module MPSCQueues {

  class MPSCQueue<T(0)> {
    /** The buffer's cells. */
    var cells: array<T>
    /** Index of the oldest element (the consumer's position). */
    var head: nat
    /** Index of the next free cell (the producers' position). */
    var tail: nat
    /** The queued elements, oldest first. */
    ghost var Contents: seq<T>

    ghost predicate Valid()
      reads this, cells
    {
      && cells.Length >= 1
      && head < cells.Length
      && tail < cells.Length
      && Contents == if head <= tail then cells[head..tail]
                     else cells[head..] + cells[..tail]
    }

    /** How many elements fit: every cell but the spare one. */
    function Capacity(): nat
      reads this
      requires cells.Length >= 1
    {
      cells.Length - 1
    }

    /** The ring successor of a cell index. */
    function Next(i: nat): (r: nat)
      reads this
      requires i < cells.Length
      ensures r < cells.Length
    {
      if i + 1 == cells.Length then 0 else i + 1
    }

    /** `(tail - head) mod cells`, the number of queued elements. */
    function Count(): (r: nat)
      reads this, cells
      requires Valid()
      ensures r == |Contents| && r <= Capacity()
    {
      if head <= tail then tail - head else cells.Length - head + tail
    }

    /** `MPSCQueue(capacity, usedAsBuffer)`: with `usedAsBuffer` one more cell
     *  is reserved, so exactly `capacity` elements fit. */
    constructor (capacity: nat, usedAsBuffer: bool)
      requires usedAsBuffer || capacity >= 1
      ensures Valid() && fresh(cells) && Contents == []
      ensures cells.Length == if usedAsBuffer then capacity + 1 else capacity
      ensures Capacity() == if usedAsBuffer then capacity else capacity - 1
    {
      cells := new T[if usedAsBuffer then capacity + 1 else capacity];
      head, tail := 0, 0;
      Contents := [];
    }

    /** Store one element at `tail`; the caller has checked that it fits. */
    method PushUnchecked(value: T)
      requires Valid() && |Contents| < Capacity()
      modifies this, cells
      ensures Valid() && cells == old(cells) && head == old(head)
      ensures Contents == old(Contents) + [value]
    {
      cells[tail] := value;
      tail := Next(tail);
      Contents := Contents + [value];
    }

    /** `push`: true iff the element was inserted; a full queue is left unchanged. */
    method Push(value: T) returns (ok: bool)
      requires Valid()
      modifies this, cells
      ensures Valid() && cells == old(cells)
      ensures ok <==> |old(Contents)| < Capacity()
      ensures Contents == if ok then old(Contents) + [value] else old(Contents)
    {
      if Next(tail) == head {
        return false;
      }
      PushUnchecked(value);
      ok := true;
    }

    /** Take the oldest element out; the caller has checked that there is one. */
    method PopUnchecked() returns (value: T)
      requires Valid() && |Contents| > 0
      modifies this
      ensures Valid() && cells == old(cells) && tail == old(tail)
      ensures value == old(Contents)[0] && Contents == old(Contents)[1..]
    {
      value := cells[head];
      head := Next(head);
      Contents := Contents[1..];
    }

    /** `pop(value)`: true iff the oldest element was moved into `value`;
     *  on an empty queue `value` and the queue are left as they were. */
    method Pop(value: T) returns (ok: bool, out: T)
      requires Valid()
      modifies this
      ensures Valid() && cells == old(cells)
      ensures ok <==> old(Contents) != []
      ensures ok ==> out == old(Contents)[0] && Contents == old(Contents)[1..]
      ensures !ok ==> out == value && Contents == old(Contents)
    {
      if head == tail {
        return false, value;
      }
      out := PopUnchecked();
      ok := true;
    }

    /** `pushRangeImpl<AllowLess>`: insert the whole range if it fits;
     *  otherwise, with AllowLess, the longest prefix that fits, and without
     *  it nothing. Returns how many were inserted. */
    method PushRangeImpl(items: seq<T>, allowLess: bool) returns (count: nat)
      requires Valid()
      modifies this, cells
      ensures Valid() && cells == old(cells)
      ensures var free := Capacity() - |old(Contents)|;
              count == if |items| <= free then |items| else if allowLess then free else 0
      ensures Contents == old(Contents) + items[..count]
    {
      var free := Capacity() - Count();
      count := |items|;
      if count > free {
        if !allowLess {
          return 0;
        }
        count := free;
      }
      var i := 0;
      while i < count
        invariant 0 <= i <= count <= |items|
        invariant Valid() && cells == old(cells)
        invariant |old(Contents)| + count <= Capacity()
        invariant Contents == old(Contents) + items[..i]
        invariant |Contents| == |old(Contents)| + i
      {
        assert items[..i + 1] == items[..i] + [items[i]];
        PushUnchecked(items[i]);
        i := i + 1;
      }
    }

    /** `tryPushRange(from, to)`: all of the range or none of it. The count
     *  is returned as a bool, so an empty range reports false. */
    method TryPushRange(items: seq<T>) returns (ok: bool)
      requires Valid()
      modifies this, cells
      ensures Valid() && cells == old(cells)
      ensures ok <==> 0 < |items| <= Capacity() - |old(Contents)|
      ensures Contents == if |items| <= Capacity() - |old(Contents)| then old(Contents) + items
                          else old(Contents)
    {
      var count := PushRangeImpl(items, false);
      assert items[..|items|] == items;
      ok := count != 0;
    }

    /** `pushRange(from, to)`: the longest prefix that fits; returns its length. */
    method PushRange(items: seq<T>) returns (count: nat)
      requires Valid()
      modifies this, cells
      ensures Valid() && cells == old(cells)
      ensures count == if |items| <= Capacity() - |old(Contents)| then |items|
                       else Capacity() - |old(Contents)|
      ensures Contents == old(Contents) + items[..count]
    {
      count := PushRangeImpl(items, true);
    }

    /** `popRangeImpl<AllowLess>`: fill the output range `dest` with the oldest
     *  elements when there are enough; otherwise, with AllowLess, move out all
     *  there are, and without it nothing. Returns how many were moved. */
    method PopRangeImpl(dest: array<T>, allowLess: bool) returns (count: nat)
      requires Valid() && dest != cells
      modifies this, dest
      ensures Valid() && cells == old(cells)
      ensures count == if dest.Length <= |old(Contents)| then dest.Length
                       else if allowLess then |old(Contents)| else 0
      ensures dest[..count] == old(Contents)[..count]
      ensures dest[count..] == old(dest[count..])
      ensures Contents == old(Contents)[count..]
    {
      var available := Count();
      count := dest.Length;
      if count > available {
        if !allowLess {
          return 0;
        }
        count := available;
      }
      PopFront(dest, count);
      assert dest[..count] == old(Contents)[..count];
      assert dest[count..] == old(dest[count..]);
    }

    /** The loop of `popRangeImpl`: the `count` oldest elements are moved,
     *  in order, into the first `count` cells of `dest`. */
    method PopFront(dest: array<T>, count: nat)
      requires Valid() && dest != cells && count <= dest.Length && count <= |Contents|
      modifies this, dest
      ensures Valid() && cells == old(cells)
      ensures Contents == old(Contents)[count..]
      ensures forall k | 0 <= k < count :: dest[k] == old(Contents)[k]
      ensures forall k | count <= k < dest.Length :: dest[k] == old(dest[k])
    {
      var i := 0;
      while i < count
        invariant 0 <= i <= count
        invariant Valid() && cells == old(cells)
        invariant Contents == old(Contents)[i..]
        invariant forall k | 0 <= k < i :: dest[k] == old(Contents)[k]
        invariant forall k | count <= k < dest.Length :: dest[k] == old(dest[k])
      {
        PopInto(dest, i);
        i := i + 1;
      }
    }

    /** One step of `popRangeImpl`: the oldest element is moved into `dest[i]`. */
    method PopInto(dest: array<T>, i: nat)
      requires Valid() && dest != cells && i < dest.Length && |Contents| > 0
      modifies this, dest
      ensures Valid() && cells == old(cells)
      ensures Contents == old(Contents)[1..]
      ensures dest[i] == old(Contents)[0]
      ensures forall k | 0 <= k < dest.Length && k != i :: dest[k] == old(dest[k])
    {
      var value := PopUnchecked();
      dest[i] := value;
    }

    /** `tryPopRange(from, to)`: exactly `to - from` elements or none; the
     *  count is returned as a bool, so an empty range reports false. */
    method TryPopRange(dest: array<T>) returns (ok: bool)
      requires Valid() && dest != cells
      modifies this, dest
      ensures Valid() && cells == old(cells)
      ensures ok <==> 0 < dest.Length <= |old(Contents)|
      ensures if dest.Length <= |old(Contents)| then
                dest[..] == old(Contents)[..dest.Length] && Contents == old(Contents)[dest.Length..]
              else
                dest[..] == old(dest[..]) && Contents == old(Contents)
    {
      var count := PopRangeImpl(dest, false);
      assert dest[..] == dest[..count] + dest[count..];
      assert old(dest[..]) == old(dest[..count]) + old(dest[count..]);
      ok := count != 0;
    }

    /** `popRange(from, to)`: up to `to - from` of the oldest elements, in
     *  FIFO order; returns how many were moved. */
    method PopRange(dest: array<T>) returns (count: nat)
      requires Valid() && dest != cells
      modifies this, dest
      ensures Valid() && cells == old(cells)
      ensures count == if dest.Length <= |old(Contents)| then dest.Length else |old(Contents)|
      ensures dest[..count] == old(Contents)[..count]
      ensures dest[count..] == old(dest[count..])
      ensures Contents == old(Contents)[count..]
    {
      count := PopRangeImpl(dest, true);
    }

    /** `clear()`: drop every element and reset both indices. */
    method Clear()
      requires Valid()
      modifies this
      ensures Valid() && cells == old(cells) && Contents == []
    {
      head, tail := 0, 0;
      Contents := [];
    }

    /** `size()`: the number of queued elements, never above the capacity. */
    method Size() returns (n: nat)
      requires Valid()
      ensures n == |Contents| && n <= Capacity()
    {
      n := Count();
    }
  }

  /** A queue built for C elements takes exactly C single pushes; the next
   *  one fails, and once drained, `size()` is 0 and `pop` fails. */
  method FillAndDrain(c: nat, x: int)
  {
    var q := new MPSCQueue<int>(c, true);
    var i := 0;
    while i < c
      invariant 0 <= i <= c
      invariant q.Valid() && q.Capacity() == c && |q.Contents| == i
      invariant fresh(q) && fresh(q.cells)
    {
      var ok := q.Push(x);
      assert ok;
      i := i + 1;
    }
    var full := q.Push(x);
    assert !full && |q.Contents| == c;
    while i > 0
      invariant 0 <= i <= c
      invariant q.Valid() && |q.Contents| == i
      invariant fresh(q) && fresh(q.cells)
    {
      var ok, _ := q.Pop(0);
      assert ok;
      i := i - 1;
    }
    var n := q.Size();
    assert n == 0;
    var ok, _ := q.Pop(0);
    assert !ok;
  }

  /** With 3 free cells, tryPushRange of 5 elements fails and changes nothing,
   *  while pushRange of the same 5 inserts 3 and returns 3. */
  method RangeOnThreeFreeCells(items: seq<int>)
    requires |items| == 5
  {
    var q := new MPSCQueue<int>(3, true);
    var ok := q.TryPushRange(items);
    assert !ok && q.Contents == [];
    var count := q.PushRange(items);
    assert count == 3 && q.Contents == items[..3];
  }
}
