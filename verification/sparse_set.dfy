/** SparseSet.hpp: a paged index set. An index of the Range type (uint32 by
 *  default) is split into a page number and a position inside the page;
 *  the page table holds a pointer per page, each page holding exactly
 *  PageSize element slots. */
module SparseSets {
  import opened Memory

  /** The default Range, `std::uint32_t`. */
  newtype Range = x: int | 0 <= x < 0x1_0000_0000

  /** `GetPageIndex(index)`: `index / PageSize`. */
  function GetPageIndex(index: Range, pageSize: nat): (page: Range)
    requires pageSize > 0
    ensures page as int * pageSize <= index as int < (page as int + 1) * pageSize
  {
    var n := index as int;
    var q := n / pageSize;
    DivisionBounds(n, pageSize);
    assert q * pageSize <= n < (q + 1) * pageSize && q <= n;
    q as Range
  }

  /** `GetElementIndex(index)`: `index % PageSize`, a position inside one page. */
  function GetElementIndex(index: Range, pageSize: nat): (element: Range)
    requires pageSize > 0
    ensures element as int < pageSize
    ensures element as int <= index as int
  {
    (index as int % pageSize) as Range
  }

  lemma DivisionBounds(n: nat, d: nat)
    requires d > 0
    ensures n / d <= n
    ensures (n / d) * d <= n < (n / d + 1) * d
  {
    var q, r := n / d, n % d;
    assert n == q * d + r && 0 <= r < d;
    AtLeastFactor(q, d);
    assert (q + 1) * d == q * d + d;
  }

  lemma AtLeastFactor(q: nat, d: nat)
    requires d > 0
    ensures q <= q * d
  {
    var e := d - 1;
    assert q * d == q * e + q;
    assert q * e >= 0;
  }

  /** The two halves recompose the index: `page * PageSize + element == index`. */
  lemma Recompose(index: Range, pageSize: nat)
    requires pageSize > 0
    ensures GetPageIndex(index, pageSize) as int * pageSize + GetElementIndex(index, pageSize) as int
            == index as int
  {
    var n, d := index as int, pageSize;
    assert n == (n / d) * d + n % d;
  }

  /** Every (page, element) pair with the element inside the page is the
   *  split of exactly one index, so distinct indices address distinct slots. */
  lemma {:induction false} SplitOfJoin(page: nat, element: nat, pageSize: nat)
    requires element < pageSize && page * pageSize + element < 0x1_0000_0000
    ensures var index := (page * pageSize + element) as Range;
            && GetPageIndex(index, pageSize) as int == page
            && GetElementIndex(index, pageSize) as int == element
  {
    var n := page * pageSize + element;
    var q := GetPageIndex(n as Range, pageSize) as int;
    assert q * pageSize <= n < (q + 1) * pageSize;
    if q < page {
      assert (q + 1) * pageSize <= page * pageSize by {
        MultiplyMonotone(q + 1, page, pageSize);
      }
      assert false;
    } else if q > page {
      assert (page + 1) * pageSize <= q * pageSize by {
        MultiplyMonotone(page + 1, q, pageSize);
      }
      assert false;
    }
    Recompose(n as Range, pageSize);
  }

  lemma MultiplyMonotone(a: nat, b: nat, c: nat)
    requires a <= b
    ensures a * c <= b * c
  {
  }

  /** Two indices split the same way are the same index. */
  lemma SplitInjective(i: Range, j: Range, pageSize: nat)
    requires pageSize > 0
    requires GetPageIndex(i, pageSize) == GetPageIndex(j, pageSize)
    requires GetElementIndex(i, pageSize) == GetElementIndex(j, pageSize)
    ensures i == j
  {
    Recompose(i, pageSize);
    Recompose(j, pageSize);
  }

  class SparseSet<T> {
    /** The PageSize template parameter. */
    const pageSize: nat
    /** `_pages`: a null PagePtr is None; a page lists its PageSize slots. */
    var pages: seq<Option<seq<T>>>

    ghost predicate Valid()
      reads this
    {
      && pageSize > 0
      && forall p | 0 <= p < |pages| && pages[p].Some? :: |pages[p].value| == pageSize
    }

    /** The default constructor: an empty page table. */
    constructor (pageSize: nat)
      requires pageSize > 0
      ensures Valid() && this.pageSize == pageSize && pages == []
    {
      this.pageSize := pageSize;
      pages := [];
    }

    /** The defaulted move constructor: the page table is taken. */
    constructor Moved(other: SparseSet<T>)
      requires other.Valid()
      modifies other
      ensures Valid() && pageSize == other.pageSize
      ensures pages == old(other.pages) && other.pages == []
    {
      pageSize := other.pageSize;
      pages := other.pages;
      other.pages := [];
    }

    /** Whether the page holding `index` is allocated. */
    predicate Holds(index: Range)
      reads this
      requires Valid()
    {
      GetPageIndex(index, pageSize) as int < |pages| && pages[GetPageIndex(index, pageSize)].Some?
    }

    /** `at(pageIndex, elementIndex)`: slot `elementIndex` of the page. */
    function AtPage(pageIndex: Range, elementIndex: Range): (value: T)
      reads this
      requires Valid()
      requires pageIndex as int < |pages| && pages[pageIndex].Some? && elementIndex as int < pageSize
      ensures value == pages[pageIndex].value[elementIndex]
    {
      pages[pageIndex].value[elementIndex]
    }

    /** `at(index)`: the slot at `(GetPageIndex(index), GetElementIndex(index))`. */
    function At(index: Range): (value: T)
      reads this
      requires Valid() && Holds(index)
      ensures value == AtPage(GetPageIndex(index, pageSize), GetElementIndex(index, pageSize))
    {
      var page := pages[GetPageIndex(index, pageSize)].value;
      page[GetElementIndex(index, pageSize)]
    }

    /** `extract(index)`: delegates to `extract(GetPageIndex(index),
     *  GetElementIndex(index))` and returns the value held there. */
    method Extract(index: Range) returns (value: T)
      requires Valid() && Holds(index)
      ensures value == AtPage(GetPageIndex(index, pageSize), GetElementIndex(index, pageSize))
    {
      value := ExtractAt(GetPageIndex(index, pageSize), GetElementIndex(index, pageSize));
    }

    /** `extract(pageIndex, elementIndex)`: the value in that slot. */
    method ExtractAt(pageIndex: Range, elementIndex: Range) returns (value: T)
      requires Valid()
      requires pageIndex as int < |pages| && pages[pageIndex].Some? && elementIndex as int < pageSize
      ensures value == AtPage(pageIndex, elementIndex)
    {
      value := pages[pageIndex].value[elementIndex];
    }

    /** `swap(other)`: the two page tables are exchanged. */
    method Swap(other: SparseSet<T>)
      requires Valid() && other.Valid() && other.pageSize == pageSize
      modifies this, other
      ensures Valid() && other.Valid()
      ensures pages == old(other.pages) && other.pages == old(pages)
    {
      pages, other.pages := other.pages, pages;
    }

    /** `clearUnsafe()`: the page table is emptied, without destroying elements. */
    method ClearUnsafe()
      requires Valid()
      modifies this
      ensures Valid() && pages == []
    {
      pages := [];
    }
  }

  /** With pages of 4096 slots, index 10000 sits at slot 1808 of page 2. */
  lemma SplitExample()
    ensures GetPageIndex(10000, 4096) == 2 && GetElementIndex(10000, 4096) == 1808
  {
  }
}
