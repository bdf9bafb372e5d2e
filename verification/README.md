# Kube Core, sequential model

This project is a Dafny model of the sequential core of the Kube-Framework `Core` C++ library. It covers these components:

- the compile-time string hash and its resumable continuation;
- the bit-flag and branchless helpers and `IteratorRange`;
- the single-threaded contract of the bounded MPSC ring buffer;
- the callable holders `TrivialFunctor` and `Functor`, and `UniquePtr`, with their ownership of allocator blocks;
- the append-only `Dispatcher` and the handle-based `RemovableDispatcher`, which has a free list;
- `SparseSet` page arithmetic;
- `ObservedProperty` change notification;
- the `StringDetails` facade;
- sorted-vector placement.

The modules follow the headers one to one:

| module | header |
|---|---|
| `Hash` | Hash.hpp |
| `Utils` | Utils.hpp |
| `MPSCQueues` | MPSCQueue.hpp |
| `TrivialFunctors` | TrivialFunctor.hpp |
| `Functors` | Functor.hpp |
| `UniquePtrs` | UniquePtr.hpp |
| `Dispatchers` | DispatcherDetails.hpp |
| `RemovableDispatchers` | RemovableDispatcherDetails.hpp |
| `SparseSets` | SparseSet.hpp |
| `ObservedProperties` | ObservedProperty.hpp |
| `Strings` | StringDetails.hpp |
| `SortedVectors` | SortedVectorDetails.hpp |

The shared module `Memory` holds the abstractions they share:

- `Option`;
- callables as opaque identities (`Callable`: a class functor with its type and state, a member or const-member function with its instance, a free function, or a pointee with a custom deleter);
- the static allocator as a `Heap` object. Its ghost multiset of live blocks, no two at the same address, records every `Allocate`/`Deallocate`, and its ghost log records every custom-deleter call.

Objects whose fields the C++ code updates in place are classes with `modifies` clauses. Pure helpers are functions. The loops of `Hash`, `ContinueHash`, the queue's range operations, `dispatch` and `findSortedPlacement` are `while` loops with invariants. Each loop is proved against a reference function:

- `Fold` for the hash;
- the ghost `Contents` sequence for the queue;
- `LiveTargets` for the removable dispatcher;
- `UpperBound` for the sorted vector.

Properties that relate several calls are lemmas. Examples are the hash composition law, the closed polynomial form of the hash, the live count under the free-list discipline, page/element recomposition, and sortedness after an insertion.

Integer widths are explicit where they matter:

- `HashedName` arithmetic is modulo 2^32 and `char` is signed 8-bit.
- Flags are `bv32`.
- `BranchlessIf` is computed in wrapping 32-bit arithmetic.
- Dispatcher handles and `TinyVector` sizes are 32-bit, so `count()` is taken modulo 2^32 and the slot and free-list vectors are bounded by `0xFFFFFFFF`.
- `SparseSet` indices are `uint32`.

## Model

| member | source | states |
|---|---|---|
| Hash.HashString | Hash.hpp:19-24 | `Hash(str, len)` is the left fold `h ← 31·h + c mod 2^32` from `HashOffset` over the first `len` characters; a length of 0 gives `HashOffset` |
| Hash.HashChar | Hash.hpp:27-28 | `Hash(c)` is the fold of the one-character string, i.e. `Hash(&c, 1)` |
| Hash.HashView | Hash.hpp:31-32 | `Hash(view)` is the fold of the view's characters, i.e. `Hash(data, length)` |
| Hash.ContinueHashString | Hash.hpp:36-40 | `ContinueHash(hash, str, len)` folds from the given hash; with `len == 0` the hash is returned unchanged, and `Hash(s, n) == ContinueHash(HashOffset, s, n)` |
| Hash.ContinueHashChar | Hash.hpp:43-44 | `ContinueHash(h, c)` equals `ContinueHash(h, &c, 1)` |
| Hash.ContinueHashView | Hash.hpp:47-48 | `ContinueHash(h, view)` is the fold of the view from `h` |
| Hash.EmptyLiteralHash | Hash.hpp:53-55 | `""_hash` equals `HashOffset` |
| Hash.FoldAppend | Hash.hpp:57 | composition: hashing `s + t` equals continuing the hash of `s` with `t` |
| Hash.Hash1234Composes | Hash.hpp:57 | the asserted instance `Hash("1234") == ContinueHash(ContinueHash(Hash('1'), "2"), "34")` |
| Hash.FoldIsPolynomial | Hash.hpp:19-24 | the hash equals the closed polynomial `h·31^n + Σ c_i·31^(n-1-i)` modulo 2^32 |
| Utils.MakeFlags | Utils.hpp:216-226 | `MakeFlags` is the OR of all its arguments; with a single argument it is that argument |
| Utils.MakeFlagsExact | Utils.hpp:216-226 | every argument's bits are set in the result, and the result is the least value covering them all |
| Utils.RemoveFlags | Utils.hpp:229-235 | exactly the bits of the OR of the removed flags are cleared; every other bit of the input is kept |
| Utils.HasFlags | Utils.hpp:238-244 | true iff `value & flag != 0` for every argument |
| Utils.HasAnyFlags | Utils.hpp:247-253 | true iff `value & OR(args) != 0`, i.e. some argument meets the value |
| Utils.AndOrAll | Utils.hpp:247-253 | meeting the OR of the flags is the same as meeting one of them |
| Utils.BranchlessIf | Utils.hpp:269-272 | condition 1 selects the left operand, 0 the right one |
| Utils.BranchlessIfBoolAsWritten | Utils.hpp:265-266 | as written, the bool overload can only call itself with the same arguments, so at any bounded call depth it runs out of stack and returns no value |
| Utils.BoolOverloadExample | Utils.hpp:265-266 | `BranchlessIf(true, 3, 5)`: the intended overload gives 3, the one as written never returns it |
| Utils.BranchlessIfBool | Utils.hpp:265-266 | the intended selection (see Findings): `lhs` when true and `rhs` when false |
| Utils.BranchlessIfU32 | Utils.hpp:269-272 | the arithmetic formula in wrapping 32-bit arithmetic selects `lhs` on 1 and `rhs` on 0 |
| Utils.BranchlessIfBoolU32 | Utils.hpp:265-266 | the intended selection (see Findings) in 32-bit arithmetic: `lhs` when true and `rhs` when false |
| Utils.IteratorRange.Empty | Utils.hpp:127 | `empty()` iff the range has no element (`from == to`) |
| Utils.IteratorRange.Size | Utils.hpp:139 | `size()` is the number of elements between `from` and `to` |
| Utils.IteratorRange.At | Utils.hpp:147 | `at(i)` is element `i` of the range |
| Utils.IteratorRange.Front | Utils.hpp:150-151 | `front()` is element 0 |
| Utils.IteratorRange.Back | Utils.hpp:154-155 | `back()` is element `size() - 1` |
| MPSCQueues.MPSCQueue.constructor | MPSCQueue.hpp:57-59 | the buffer has `capacity + 1` cells when used as a buffer (else `capacity`), one cell stays unused, so `capacity` (else `capacity - 1`) elements fit; the queue starts empty |
| MPSCQueues.MPSCQueue.Count | MPSCQueue.hpp:106-107 | the head/tail distance is the number of queued elements, never above the usable capacity |
| MPSCQueues.MPSCQueue.Push | MPSCQueue.hpp:62-66 | true iff there was room, in which case the value is appended at the back; on false the contents are unchanged |
| MPSCQueues.MPSCQueue.Pop | MPSCQueue.hpp:69-71 | true iff the queue was non-empty, in which case the oldest element is extracted; on an empty queue false, the target value and the queue unchanged |
| MPSCQueues.MPSCQueue.PushRangeImpl | MPSCQueue.hpp:123-125 | inserts the whole range when it fits; otherwise the free-room prefix when less is allowed, or nothing; returns how many it inserted |
| MPSCQueues.MPSCQueue.TryPushRange | MPSCQueue.hpp:74-79 | all or nothing: true iff the non-empty range fits and was inserted whole |
| MPSCQueues.MPSCQueue.PushRange | MPSCQueue.hpp:81-86 | inserts the longest prefix that fits and returns its length |
| MPSCQueues.MPSCQueue.PopRangeImpl | MPSCQueue.hpp:127-129 | extracts the requested count in FIFO order into the destination, or fewer when less is allowed, and returns the count |
| MPSCQueues.MPSCQueue.TryPopRange | MPSCQueue.hpp:89-93 | extracts exactly the requested count in FIFO order, or nothing; true iff it did so for a non-empty request |
| MPSCQueues.MPSCQueue.PopRange | MPSCQueue.hpp:95-99 | extracts up to the requested count in FIFO order and returns how many; the rest of the destination is untouched |
| MPSCQueues.MPSCQueue.Clear | MPSCQueue.hpp:102-103 | the queue becomes empty |
| MPSCQueues.MPSCQueue.Size | MPSCQueue.hpp:106-107 | the number of queued elements, between 0 and the usable capacity |
| TrivialFunctors.TrivialFunctor.Default | TrivialFunctor.hpp:55 | a default functor has the eighth-cache-line size and is empty |
| TrivialFunctors.TrivialFunctor.constructor | TrivialFunctor.hpp:55 | a default functor of the given cache size is empty, so `operator bool` is false |
| TrivialFunctors.TrivialFunctor.Copy | TrivialFunctor.hpp:58 | a copy holds the same callable |
| TrivialFunctors.TrivialFunctor.Move | TrivialFunctor.hpp:61 | a bitwise move: the new functor holds the callable and the source keeps it too |
| TrivialFunctors.TrivialFunctor.FromFunctor | TrivialFunctor.hpp:64-67 | only trivially copyable functors no larger than the cache are accepted; the result holds the functor |
| TrivialFunctors.TrivialFunctor.CopyAssign | TrivialFunctor.hpp:71 | the target takes the callable, the source keeps it |
| TrivialFunctors.TrivialFunctor.MoveAssign | TrivialFunctor.hpp:74 | the defaulted move assignment copies; the source keeps its callable |
| TrivialFunctors.TrivialFunctor.Destroy | TrivialFunctor.hpp:82 | the functor becomes empty; nothing is freed |
| TrivialFunctors.TrivialFunctor.Release | TrivialFunctor.hpp:85 | the functor becomes empty; nothing is freed |
| TrivialFunctors.TrivialFunctor.Prepare | TrivialFunctor.hpp:89-99 | an accepted functor is stored and the functor becomes non-empty |
| TrivialFunctors.TrivialFunctor.PrepareMember | TrivialFunctor.hpp:102-110 | the member function and its instance are stored; non-empty |
| TrivialFunctors.TrivialFunctor.PrepareConstMember | TrivialFunctor.hpp:113-121 | the const member function and its instance are stored; non-empty |
| TrivialFunctors.TrivialFunctor.PrepareFree | TrivialFunctor.hpp:124-131 | the free function is stored; non-empty |
| TrivialFunctors.TrivialFunctor.Target | TrivialFunctor.hpp:134 | a prepared functor invokes exactly the callable it holds |
| TrivialFunctors.TrivialFunctor.IsPrepared | TrivialFunctor.hpp:78 | `operator bool` is true iff `_invoke` is set, which is what `Target` needs |
| Functors.Functor.Default | Functor.hpp:69 | a default functor (quarter-cache-line size) is empty and owns nothing |
| Functors.DefaultCacheHoldsRuntimeAllocation | Functor.hpp:49-57 | `RuntimeAllocation`, one pointer, fits an eighth cache line, so the default quarter-cache-line `Functor` cache meets the static assertion `CacheSize >= sizeof(RuntimeAllocation)` that the constructors require |
| Functors.Functor.constructor | Functor.hpp:69 | a default functor of any cache size that holds a `RuntimeAllocation` is empty and owns nothing |
| Functors.Functor.Moved | Functor.hpp:72-77 | the move constructor takes the callable and its destructor; the source is left empty and owning nothing |
| Functors.Functor.FromFunctor | Functor.hpp:80-84 | a fitting trivially copyable functor is held inline with no allocation; any other is held in exactly one fresh block |
| Functors.Functor.RunDestructor | Functor.hpp:99-108 | the stored destructor, if any, runs once: the owned block is deallocated, or the deleter is called once on the pointer |
| Functors.Functor.Release | Functor.hpp:99-108 | the destructor runs only if set, then the functor is empty and owns nothing |
| Functors.Functor.Destroy | Functor.hpp:66 | the destructor releases without resetting: the owned block is freed or the deleter called, once |
| Functors.Functor.MoveAssign | Functor.hpp:88-95 | the target's callable is destroyed first, then the source's state is taken and the source emptied |
| Functors.Functor.PrepareInline | Functor.hpp:115-132 | a trivially copyable functor that fits the cache is stored inline with no destructor and no allocation, after releasing the old one |
| Functors.Functor.PrepareAllocated | Functor.hpp:135-160 | any other functor causes exactly one fresh allocation of its size and alignment, which its destructor will free, after releasing the old one |
| Functors.Functor.PrepareMember | Functor.hpp:163-176 | releases the old callable, stores the member function and instance, with no destructor |
| Functors.Functor.PrepareConstMember | Functor.hpp:179-192 | releases the old callable, stores the const member function and instance, with no destructor |
| Functors.Functor.PrepareFree | Functor.hpp:195-207 | releases the old callable, stores the free function, with no destructor |
| Functors.Functor.PrepareWithDeleter | Functor.hpp:210-232 | releases the old callable and stores the pointer; the destructor will call the deleter once on that pointer |
| Functors.Functor.IsPrepared | Functor.hpp:111 | `operator bool` is true iff `_invoke` is set; an unprepared functor has no destructor and owns no block |
| UniquePtrs.UniquePtr.constructor | UniquePtr.hpp:37 | a default pointer is null, so `operator bool` is false |
| UniquePtrs.UniquePtr.Make | UniquePtr.hpp:22-24 | exactly one fresh allocation of `sizeof(Type)`/`alignof(Type)`, held by the new pointer |
| UniquePtrs.UniquePtr.MakeDerived | UniquePtr.hpp:27-30 | exactly one fresh allocation of `sizeof(Derived)`/`alignof(Derived)`, held by the new pointer |
| UniquePtrs.UniquePtr.Holding | UniquePtr.hpp:107 | the private constructor holds the given live block |
| UniquePtrs.UniquePtr.Moved | UniquePtr.hpp:40 | the move constructor takes the pointer and nulls the source |
| UniquePtrs.UniquePtr.MoveAssign | UniquePtr.hpp:43-44 | same-type move assignment swaps the two pointers; nothing is freed |
| UniquePtrs.UniquePtr.Swap | UniquePtr.hpp:85 | the two pointers are exchanged |
| UniquePtrs.UniquePtr.ReleaseUnsafe | UniquePtr.hpp:110 | the held block is deallocated once and the pointer nulled (the corrected release; see Findings) |
| UniquePtrs.UniquePtr.Release | UniquePtr.hpp:88 | on non-null the held block is deallocated once and the pointer nulled; on null nothing happens |
| UniquePtrs.UniquePtr.Steal | UniquePtr.hpp:92 | the held pointer is returned and the pointer left null, with nothing freed |
| UniquePtrs.UniquePtr.IsSet | UniquePtr.hpp:60 | `operator bool` is true iff the pointer owns a block |
| UniquePtrs.UniquePtr.DerivedMoveAssign | UniquePtr.hpp:53-56 | derived move assignment releases the current object, then steals the source's pointer |
| UniquePtrs.ReleasedBlockAsWritten | UniquePtr.hpp:110 | as written, the deallocation names the held address with the static type's size and alignment; it matches the allocated block iff those agree |
| UniquePtrs.SameTypeReleaseMatches | UniquePtr.hpp:22-24 | for a `Make<Type>` block the as-written deallocation frees exactly that block |
| UniquePtrs.DerivedReleaseMismatch | UniquePtr.hpp:29-30 | for a live `Make<Derived>` block of another size, the as-written deallocation names a block that differs from it and is not live, since no two live blocks share an address; `Deallocate`'s precondition fails |
| UniquePtrs.DerivedReleaseExample | UniquePtr.hpp:29-30 | 16 bytes allocated for a derived type, 8 deallocated for the base type |
| Dispatchers.Dispatcher.constructor | DispatcherDetails.hpp:82 | a new dispatcher has no functors |
| Dispatchers.Dispatcher.Moved | DispatcherDetails.hpp:33 | the functors are taken and the source left empty |
| Dispatchers.Dispatcher.MoveAssign | DispatcherDetails.hpp:37 | the functors are taken and the source left empty |
| Dispatchers.Dispatcher.Count | DispatcherDetails.hpp:41 | `count()` is the number of stored functors |
| Dispatchers.Dispatcher.AddFunctor | DispatcherDetails.hpp:45-46 | any functor, fitting the cache or not, is appended as exactly one prepared slot; earlier ones are untouched; count rises by 1 |
| Dispatchers.Dispatcher.AddMember | DispatcherDetails.hpp:49-50 | exactly one member-function slot is appended; earlier ones untouched |
| Dispatchers.Dispatcher.AddConstMember | DispatcherDetails.hpp:53-54 | exactly one const member-function slot is appended; earlier ones untouched |
| Dispatchers.Dispatcher.AddFree | DispatcherDetails.hpp:57-58 | exactly one free-function slot is appended; earlier ones untouched |
| Dispatchers.Dispatcher.Clear | DispatcherDetails.hpp:62 | no functors remain; count is 0 |
| Dispatchers.Dispatcher.Dispatch | DispatcherDetails.hpp:66-70 | every functor is called exactly once with the arguments, in insertion order |
| Dispatchers.Dispatcher.DispatchWithCallback | DispatcherDetails.hpp:73-79 | the callback receives each functor's return value, once each, in insertion order |
| RemovableDispatchers.LiveTargets | RemovableDispatcherDetails.hpp:135-141 | the non-empty slots' callables in index order, at most one per slot |
| RemovableDispatchers.LiveTargetsExact | RemovableDispatcherDetails.hpp:135-141 | a callable is dispatched iff some slot holds it |
| RemovableDispatchers.LiveAndFreePartition | RemovableDispatcherDetails.hpp:45 | live slots plus empty slots make up the whole slot vector |
| RemovableDispatchers.DistinctCard | RemovableDispatcherDetails.hpp:127 | a free list without duplicates has as many distinct indices as entries |
| RemovableDispatchers.TidyCount | RemovableDispatcherDetails.hpp:45 | when the free list lists exactly the empty slots, once each, `size - freeList.size` is the number of live slots |
| RemovableDispatchers.TidyAfterReuse | RemovableDispatcherDetails.hpp:54-57 | reusing the most recently freed slot keeps the free list listing exactly the empty slots, once each |
| RemovableDispatchers.TidyAfterAppend | RemovableDispatcherDetails.hpp:58-61 | appending a slot keeps the free list listing exactly the empty slots |
| RemovableDispatchers.TidyAfterRemove | RemovableDispatcherDetails.hpp:125-127 | emptying a live slot and pushing its index keeps the free list listing exactly the empty slots, once each |
| RemovableDispatchers.RemovableDispatcher.Count | RemovableDispatcherDetails.hpp:45 | `count()` is the number of live functors whenever the free list matches the empty slots |
| RemovableDispatchers.RemovableDispatcher.constructor | RemovableDispatcherDetails.hpp:34 | empty slot vector and free list |
| RemovableDispatchers.RemovableDispatcher.Moved | RemovableDispatcherDetails.hpp:37 | both vectors are taken; the source is left empty |
| RemovableDispatchers.RemovableDispatcher.MoveAssign | RemovableDispatcherDetails.hpp:41 | both vectors are taken; the source is left empty |
| RemovableDispatchers.RemovableDispatcher.AddFunctor | RemovableDispatcherDetails.hpp:49-64 | the handle is index+1, never 0; with an empty free list one slot is appended and `oldSize+1` returned; otherwise the most recently freed slot is reused without growing; count rises by 1 |
| RemovableDispatchers.RemovableDispatcher.AddMember | RemovableDispatcherDetails.hpp:67-82 | as `AddFunctor`, for a member function and instance |
| RemovableDispatchers.RemovableDispatcher.AddConstMember | RemovableDispatcherDetails.hpp:85-100 | as `AddFunctor`, for a const member function and instance |
| RemovableDispatchers.RemovableDispatcher.AddFree | RemovableDispatcherDetails.hpp:103-118 | the corrected free-function add: reuses the freed slot `back()` like the other overloads (see Findings) |
| RemovableDispatchers.RemovableDispatcher.AddFreeAsWritten | RemovableDispatcherDetails.hpp:108-111 | the free-function add as written prepares slot `back() - 1` (uint32), failing when that index is out of bounds |
| RemovableDispatchers.FreeAddIndexAsWritten | RemovableDispatcherDetails.hpp:109 | the as-written index is never the freed index |
| RemovableDispatchers.FreeAddOverwritesLiveSlot | RemovableDispatcherDetails.hpp:109 | after freeing slot 1 of two, the as-written add overwrites live slot 0 and breaks the free-list discipline |
| RemovableDispatchers.FreeAddUnderflows | RemovableDispatcherDetails.hpp:109 | after freeing slot 0, the as-written index `0u - 1` is past the end of any reachable slot vector |
| RemovableDispatchers.RemovableDispatcher.Remove | RemovableDispatcherDetails.hpp:122-128 | handle 0 aborts with nothing changed; otherwise slot `h-1` is emptied and `h-1` pushed on the free list; removing a live handle lowers the count by 1 |
| RemovableDispatchers.RemovableDispatcher.Clear | RemovableDispatcherDetails.hpp:131 | both the slot vector and the free list are emptied; count is 0 |
| RemovableDispatchers.RemovableDispatcher.Dispatch | RemovableDispatcherDetails.hpp:135-141 | only non-empty slots are called, once each, in index order |
| RemovableDispatchers.RemovableDispatcher.DispatchWithCallback | RemovableDispatcherDetails.hpp:144-152 | the callback receives the return value of each non-empty slot, in index order |
| SparseSets.GetPageIndex | SparseSet.hpp:37 | the page index is the floor of `index / PageSize` |
| SparseSets.GetElementIndex | SparseSet.hpp:40 | the element index is below `PageSize` |
| SparseSets.Recompose | SparseSet.hpp:37-40 | `GetPageIndex(i)·PageSize + GetElementIndex(i) == i` |
| SparseSets.SplitOfJoin | SparseSet.hpp:37-40 | every (page, element) pair inside a page is the split of the index it composes |
| SparseSets.SplitInjective | SparseSet.hpp:37-40 | distinct indices address distinct slots |
| SparseSets.SplitExample | SparseSet.hpp:37-40 | with 4096-slot pages, index 10000 is slot 1808 of page 2 |
| SparseSets.SparseSet.constructor | SparseSet.hpp:99 | an empty page table |
| SparseSets.SparseSet.Moved | SparseSet.hpp:50 | the page table is taken and the source left empty |
| SparseSets.SparseSet.AtPage | SparseSet.hpp:86-89 | `at(page, element)` is the value in slot `element` of page `page` |
| SparseSets.SparseSet.At | SparseSet.hpp:80-83 | `at(i)` addresses `(GetPageIndex(i), GetElementIndex(i))` |
| SparseSets.SparseSet.Extract | SparseSet.hpp:72-73 | `extract(i)` addresses `(GetPageIndex(i), GetElementIndex(i))` |
| SparseSets.SparseSet.ExtractAt | SparseSet.hpp:76 | `extract(page, element)` yields that slot's value |
| SparseSets.SparseSet.Swap | SparseSet.hpp:56 | the page tables are exchanged |
| SparseSets.SparseSet.ClearUnsafe | SparseSet.hpp:93 | the page table is emptied |
| ObservedProperties.ObservedProperty.constructor | ObservedProperty.hpp:44-51 | the value is stored and the dispatcher starts with no observers |
| ObservedProperties.ObservedProperty.Moved | ObservedProperty.hpp:39-41 | the value and the dispatcher's observers are transferred; the source dispatcher is left empty |
| ObservedProperties.ObservedProperty.MoveAssign | ObservedProperty.hpp:54-60 | the value, then the dispatcher, are transferred |
| ObservedProperties.ObservedProperty.Assign | ObservedProperty.hpp:63-82 | an equal value leaves everything as it is and notifies no one; a different value is stored, then every live observer is called once with it, in slot order |
| ObservedProperties.ObservedProperty.Get | ObservedProperty.hpp:92 | `get()` and the conversion return the stored value |
| Strings.SafeStrlen | StringDetails.hpp:161 | the C string's length, 0 for a null pointer |
| Strings.Equal | StringDetails.hpp:124 | the four-iterator `std::equal` is true iff both ranges have the same length and the same characters |
| Strings.UpToNul | StringDetails.hpp:149-157 | what a `c_str()` pointer stands for: the longest prefix without `'\0'`, stopping at the first one, and the whole sequence iff it holds none |
| Strings.StringDetails.FromCString | StringDetails.hpp:73-75 | the string holds the C string's characters (none for nullptr) |
| Strings.StringDetails.FromCStringLength | StringDetails.hpp:84-86 | the string holds the first `length` characters |
| Strings.StringDetails.FromView | StringDetails.hpp:95-97 | the string holds the view's characters |
| Strings.StringDetails.Copy | StringDetails.hpp:66 | a copy holds the same characters |
| Strings.StringDetails.constructor | StringDetails.hpp:56-57 | a default string is empty and has no storage |
| Strings.StringDetails.Resize | StringDetails.hpp:43 | the base `resize(from, to)`: the characters become exactly the given range |
| Strings.StringDetails.CopyAssign | StringDetails.hpp:106 | the target holds the source's characters |
| Strings.StringDetails.AssignCString | StringDetails.hpp:112 | the string holds the C string's characters (none for nullptr) |
| Strings.StringDetails.AssignView | StringDetails.hpp:115 | the string holds the view's characters |
| Strings.StringDetails.Length | StringDetails.hpp:119 | `length()` is `size()`, the number of characters |
| Strings.StringDetails.EqualsString | StringDetails.hpp:124 | equal iff the same length and the same characters |
| Strings.StringDetails.NotEqualsString | StringDetails.hpp:125 | the negation of equality |
| Strings.StringDetails.EqualsCString | StringDetails.hpp:126 | equal iff the same characters as the C string; a null pointer equals exactly the empty string |
| Strings.StringDetails.NotEqualsCString | StringDetails.hpp:127 | the negation of C string equality |
| Strings.StringDetails.EqualsView | StringDetails.hpp:128 | equal iff the same characters as the view |
| Strings.StringDetails.NotEqualsView | StringDetails.hpp:129 | the negation of view equality |
| Strings.StringDetails.AppendString | StringDetails.hpp:133 | the other string's characters are appended; the existing ones are unchanged |
| Strings.StringDetails.AppendCString | StringDetails.hpp:134 | the C string's characters are appended; the existing ones are unchanged |
| Strings.StringDetails.AppendView | StringDetails.hpp:135 | the view's characters are appended; the existing ones are unchanged |
| Strings.StringDetails.InsertAtEnd | StringDetails.hpp:44 | the base `insert(end(), from, to)`: the range is appended after the existing characters |
| Strings.StringDetails.ToView | StringDetails.hpp:145 | the view shows the string's characters (the empty view when there is no storage) |
| Strings.StringDetails.GrowOne | StringDetails.hpp:47 | the base `grow(1)`: the capacity increases and the characters are kept |
| Strings.StringDetails.CStr | StringDetails.hpp:149-157 | null for an empty string; otherwise the buffer grows only when full, `'\0'` is written at `end()`, characters and size are unchanged, and the result stands for the characters up to the first `'\0'` among them: all of them when there is none |
| SortedVectors.UpperBound | SortedVectorDetails.hpp:215-218 | the first position whose element `e` has `Compare(v, e)`, or the end |
| SortedVectors.SortedVector.FindSortedPlacement | SortedVectorDetails.hpp:215-218 | the linear search returns exactly that upper bound |
| SortedVectors.InsertKeepsSorted | SortedVectorDetails.hpp:215-216 | inserting at the upper bound keeps a sorted sequence sorted |
| SortedVectors.UpperBoundSplits | SortedVectorDetails.hpp:215-216 | in a sorted sequence every element from the upper bound on is greater than `v`, so `v` lands after its equals |
| SortedVectors.SortedVector.Insert | SortedVectorDetails.hpp:154-160 | the value is placed at `findSortedPlacement` and that position returned; a sorted vector stays sorted with `v` after the elements not greater than it and before the greater ones |
| SortedVectors.SortedVector.InsertAtPosition | SortedVectorDetails.hpp:171-177 | the value is inserted exactly at the given position, with no sorting |
| SortedVectors.InsertAt | SortedVectorDetails.hpp:171-177 | insertion at a position keeps the prefix and suffix and adds the value to the multiset |
| SortedVectors.SortBy | SortedVectorDetails.hpp:206 | a reference sort of the same length |
| SortedVectors.SortByPermutation | SortedVectorDetails.hpp:206 | the reference sort is a permutation |
| SortedVectors.SortBySorted | SortedVectorDetails.hpp:206 | the reference sort is sorted under a strict weak ordering |
| SortedVectors.SortedVector.Sort | SortedVectorDetails.hpp:206 | the elements end sorted by `Compare` and are a permutation of the old ones |
| SortedVectors.SortedVector.CopyAssign | SortedVectorDetails.hpp:132-133 | the contents become equal to the other's |
| SortedVectors.SortedVector.constructor | SortedVectorDetails.hpp:44 | a default sorted vector has no elements |
| SortedVectors.SortedVector.MoveAssign | SortedVectorDetails.hpp:136-137 | the other's storage is stolen and the other left empty |

## Left out

- Concurrency of the MPSC queue: the atomics, the fetch-and-add reservation of producers, memory ordering, the cached head/tail copies and the cache-line layout. Only the single-threaded FIFO contract is modelled.
- The bodies of the queue's `pushRangeImpl`/`popRangeImpl` and of `SafeStrlen`, `grow`, `resize`, `insert`, `push` and `steal` live in `.ipp` files that are not part of this model. They are modelled from their declarations and documented behaviour.
- `push` and `insert(value)` of the sorted vector are modelled as insertion at `findSortedPlacement`, because `push`'s body is not part of this model.
- Strings.StringDetails.CStr: states only that the capacity increases when the buffer is full, not by exactly one, because `grow(1)`'s body is not part of this model.
- Strings.StringDetails.AppendString: `str += str` is modelled as appending the string's old characters; the aliasing of `insert`'s source iterators into the buffer being grown is not modelled.
- Utils.BranchlessIf: proved in unbounded integers only. A signed instantiation can overflow, for example `rhs * (condition - 1)` with condition 0 and `rhs == INT_MIN`, which is undefined behaviour. Floating-point instantiations are not modelled: with infinities or NaN the formula does not select (`BranchlessIf(1.0f, 1.0f, INFINITY)` is NaN), and signed zeros can change. The unsigned 32-bit form is modelled by `BranchlessIfU32`.
- Utils.BranchlessIfBool: has the same integer-only scope as `BranchlessIf`.
- `isSafe()` is modelled as the buffer having storage (capacity above 0).
- `kFAssert` is not part of this model. A null handle in `remove` is modelled as an abort that changes nothing, reported by the result.
- Removing a handle twice is not detected by the code. The model states what happens (the index is pushed twice) and proves the count law only for live handles.
- RemovableDispatchers.RemovableDispatcher.Count: `count()` equals the live count only when the free list lists exactly the empty slots; after a double remove or the as-written free-function add it does not, and the model does not promise it.
- The removable dispatcher's slots are `Functor`s, but `remove` calls `destroy()`, which only `TrivialFunctor` has. Its slots are modelled with TrivialFunctor semantics: what they hold and no heap ownership, so its `add(functor)` takes only functors that fit the cache.
- Dispatchers.Dispatcher.AddFunctor: a plain dispatcher's `Functor` slot puts a functor that does not fit its cache on the heap; the slot is modelled as the callable it holds, and that heap block and its release by `clear()` or the destructor are not modelled.
- The dispatchers' argument packs are a single generic value; invoking callables is not modelled. A dispatch returns the calls it makes, and a callback dispatch returns the values the callback received, through an `invoke` function parameter.
- The raw memory of `Functor`/`TrivialFunctor`: the `reinterpret_cast` caches, placement `new`, `memcpy` moves and the invoke trampolines. They are replaced by the abstract callable and, for `Functor`, the owned block or deleter.
- `operator()` of the functors, `get`/`operator->`/`operator*` and the comparison operators of `UniquePtr`, and `operator->`/`dispatcher()` of `ObservedProperty`: plain accessors with nothing to state beyond the held value.
- The copy and default constructors of `ObservedProperty` are the value constructor with a copied or value-initialized value.
- `SparseSet` `add`/`remove` and `releaseUnsafe` are declared only, and the removal half of `extract` lives in the unseen `.ipp`; `Extract` returns the value addressed and leaves the pages as they are. The page allocation through `UniquePtr` is reduced to an optional page.
- `operator+` of the string is declared only.
- The allocator-taking variants of the constructors are the same operations with an explicit allocator; the allocator is the single `Heap` object.
- The sorted vector's range and initializer constructors, `insertDefault`, `insertFill`, range `insert`, `resize` and `assign` have their bodies in the unseen `.ipp`.
- The lock-free allocator (SafeAllocator.hpp, AllocatorUtils.hpp) and `StaticAllocator`: their bodies are not part of this model. The allocator is an abstract `Heap` that hands out fresh blocks.
- `AlignedAlloc`/`AlignedFree`, `AlignOffset`, `IsPowerOf2`, `NextPowerOf2`, Unicode, the logging and platform queries, and the metaprogramming headers are outside this core.

## Findings

| source | as written | input that shows it | evidently intended | confidence | as-written member | corrected member |
|---|---|---|---|---|---|---|
| RemovableDispatcherDetails.hpp:109 | the free-function `add` reuses slot `_freeList.back() - 1` | two handles added, handle 2 removed, then `add<FreeFunction>()`: it overwrites live slot 0 and returns handle 1 again; with slot 0 freed, `0u - 1` indexes past the end | reuse slot `_freeList.back()` like the other three overloads | not executed | RemovableDispatchers.FreeAddOverwritesLiveSlot | RemovableDispatchers.RemovableDispatcher.AddFree |
| UniquePtr.hpp:110 | `releaseUnsafe` deallocates `sizeof(Type)`/`alignof(Type)` also for objects made by `Make<Derived>` (UniquePtr.hpp:29-30), which allocated `sizeof(Derived)`/`alignof(Derived)` | `UniquePtr<Base>::Make<Derived>()` with `sizeof(Derived) == 16`, `sizeof(Base) == 8`: 16 bytes allocated, 8 deallocated | deallocate with the size and alignment the block was allocated with | not executed | UniquePtrs.DerivedReleaseMismatch | UniquePtrs.UniquePtr.ReleaseUnsafe |
| Utils.hpp:265-266 | the bool overload of `BranchlessIf` calls `BranchlessIf(static_cast<Type>(condition), lhs, rhs)`; that call depends on `Type`, so unqualified lookup sees only the declarations before the template, which is the bool overload itself, not the `Type`-condition overload declared after it at :269-272; argument-dependent lookup adds nothing for arithmetic types, and the converted condition turns back into the same bool | `BranchlessIf(true, 3, 5)` with `Type = int` calls itself with the same arguments without end on a compiler that does two-phase lookup | call the `Type`-condition overload (declare it first), which selects `lhs` when true and `rhs` when false | not executed | Utils.BranchlessIfBoolAsWritten | Utils.BranchlessIfBool |
