# Smart pointers with a shared control block, in Dafny

This project models the four headers of a small C++ smart-pointer library:

- `cb_base.hpp`: the control block. It holds a strong count, a weak count and the owned pointer.
- `shared_ptr.hpp`: the strong handle `shared_ptr`.
- `weak_ptr.hpp`: the weak handle `weak_ptr`.
- `unique_ptr.hpp`: the exclusive pointer `unique_ptr`.

All four are imperative, so the model is imperative too. Each C++ class becomes a Dafny class with the same fields, and each operation becomes a method or constructor that updates those fields. Readers (`get`, `use_count`, `operator bool`, `expired`, `get_ref_count`, `operator==`) become functions.

`T*` is the datatype `Ptr = Null | Addr(id)` (raw_pointers.dfy). `delete` is modelled as ghost bookkeeping:

- A control block keeps a log of its teardown steps: `[]`, then `[DataDeleted]` when the pointee is deleted, then `[DataDeleted, BlockDeleted]` when the block is deleted.
- A `unique_ptr` keeps the multiset of the ids it has deleted.

So "deleted exactly once" (per block: a block deletes its pointee at most once, and itself at most once) and "pointee before block" are facts about these logs. Nothing relates two blocks over the same raw pointer; `Drivers.DoubleOwnerScenario` shows that pointer being deleted twice.

The control block module, cb_base.dfy, has two layers:

1. **A value model.** `Counts` holds the two counters and the log. The functions `Init`, `AddRef`, `AddWeak`, `ReleaseRef` and `ReleaseWeak` are one per count-changing member. `Consistent` is the block invariant:
   - the strong count is never negative;
   - the weak count includes one baseline unit while any strong unit remains;
   - the log is exactly the one the counters call for.
2. **The `ControlBlock` class.** Each method ensures `State() == F(old(State()))` for the matching function `F`.

The blocks also keep ghost sets of the handles that hold a strong or a weak unit. A handle's `Valid()` says that it is registered with its block, so a handle's own release can never be the one that deletes a block still in use.

The model keeps these behaviours of the code:

- A `shared_ptr` is empty when its pointer is null, whatever its `cb` field holds. `shared_ptr(nullptr)` and `reset(nullptr)` therefore build a block with strong count 1 that `reset()` never releases.
- `use_count()` on a `shared_ptr` reads `cb` without a null check, so it requires `cb != null`.
- The three `weak_ptr` assignment operators overwrite `cb` without giving back the weak unit held before. The block observed before is then never deleted (`Drivers.WeakReassignScenario`).
- Promotion `shared_ptr(const weak_ptr&)` fails with `bad_weak_ptr` on an expired handle, while `lock()` on the same handle quietly returns an empty handle.

Promotion is the method `WeakPointers.SharedFromWeak`, which returns a `Result`. It lives in the weak module because Dafny modules cannot import each other in a cycle. Its success path is the constructor `SharedPointers.SharedPtr.Share`.

The three example programs (`shared_ptr_test.cpp`, `weak_ptr_test.cpp`, `unique_ptr_test.cpp`) are client methods in drivers.dfy. Each returns the values its program prints, and its contract states those values. Objects created with `new` get fixed distinct addresses.

## Model

| member | source | states |
|---|---|---|
| RawPointers.Deletion | unique_ptr.hpp:46 | `delete` of a null pointer deletes nothing; deleting a non-null pointer deletes exactly that one object, once |
| ControlBlocks.TeardownAt | cb_base.hpp:20-33 | the teardown the counters call for: the pointee is deleted iff the strong count is zero; the block is deleted iff both counts are zero; the block never goes without the pointee going first |
| ControlBlocks.Init | cb_base.hpp:12 | a new block has strong count 1, and weak count 1 made up only of the baseline unit; it satisfies the block invariant and nothing is torn down |
| ControlBlocks.AddRef | cb_base.hpp:17 | raises the strong count by exactly one and changes nothing else; keeps the invariant when a strong unit is already held |
| ControlBlocks.AddWeak | cb_base.hpp:18 | raises the weak count by exactly one and changes nothing else; keeps the invariant on a block that has not been deleted |
| ControlBlocks.ReleaseWeak | cb_base.hpp:26-30 | lowers the weak count by one, never undoes a teardown step, and deletes the block iff the weak count reaches zero; keeps the invariant when the released unit is not the baseline |
| ControlBlocks.ReleaseRef | cb_base.hpp:20-25 | lowers the strong count by one; when it reaches zero it deletes the pointee and gives up exactly the baseline weak unit; never undoes a teardown step; keeps the invariant |
| ControlBlocks.TeardownOrder | cb_base.hpp:12-33 | under the block invariant: while a strong unit remains nothing is torn down and the weak count stays at least 1; the block is deleted only after the pointee and only at zero counts; neither is deleted twice |
| ControlBlocks.AddRefThenRelease | cb_base.hpp:17-25 | releasing a strong unit right after acquiring one restores the block exactly |
| ControlBlocks.AddWeakThenRelease | cb_base.hpp:18-30 | releasing a weak unit right after acquiring one restores a live block exactly |
| ControlBlocks.ReleaseThenAddRef | cb_base.hpp:17-25 | dropping a strong unit that is not the last and acquiring one again restores the block exactly |
| ControlBlocks.LegalRunKeepsConsistent | cb_base.hpp:17-30 | every sequence of count changes the handles may perform keeps the block invariant, only extends the teardown log, and never revives a strong count that reached zero |
| ControlBlocks.RepeatAddRef | cb_base.hpp:17 | `n` strong acquisitions raise the strong count by exactly `n` |
| ControlBlocks.RepeatReleaseRef | cb_base.hpp:20-25 | `n` strong releases that stay above zero lower the strong count by exactly `n` and tear nothing down |
| ControlBlocks.CopiesThenResets | cb_base.hpp:17-25 | `n` copies of a live strong handle followed by `n` resets return the block to exactly its earlier state |
| ControlBlocks.RepeatAddWeak | cb_base.hpp:18 | `n` weak acquisitions raise the weak count by exactly `n` |
| ControlBlocks.RepeatReleaseWeak | cb_base.hpp:26-30 | `n` weak releases that stay above zero lower the weak count by exactly `n` and tear nothing down |
| ControlBlocks.WeakCopiesThenResets | cb_base.hpp:18-30 | `n` weak copies followed by `n` weak resets return the block to exactly its earlier state |
| ControlBlocks.ControlBlock.constructor | cb_base.hpp:12 | `cb_base(ptr)`: stores the pointer, starts from `Init()` with no registered handles, and is valid |
| ControlBlocks.ControlBlock.AddRefCount | cb_base.hpp:17 | the new state is `AddRef` of the old one; validity is kept |
| ControlBlocks.ControlBlock.AddWeakCount | cb_base.hpp:18 | the new state is `AddWeak` of the old one; validity is kept |
| ControlBlocks.ControlBlock.ReleaseRefCount | cb_base.hpp:20-25 | the new state is `ReleaseRef` of the old one: the pointee is deleted, and then the weak count lowered, exactly when the strong count reaches zero |
| ControlBlocks.ControlBlock.ReleaseWeakCount | cb_base.hpp:26-30 | the new state is `ReleaseWeak` of the old one: the block is deleted exactly when the weak count reaches zero |
| ControlBlocks.ControlBlock.DestroyData | cb_base.hpp:32 | `delete data` happens only at strong count zero with nothing torn down yet, and logs exactly one pointee deletion |
| ControlBlocks.ControlBlock.DestroySelf | cb_base.hpp:33 | `delete this` happens only at weak count zero after the pointee is gone, and logs exactly one block deletion |
| ControlBlocks.ControlBlock.GetRefCount | cb_base.hpp:35 | returns the strong count without side effects; on a valid block it covers every registered strong handle and is zero iff the pointee has been deleted |
| SharedPointers.SharedPtr.Empty | shared_ptr.hpp:56 | the default handle has a null pointer, no block, and is false |
| SharedPointers.SharedPtr.FromRaw | shared_ptr.hpp:59 | builds a fresh block over the pointer, even a null one; `use_count()` is 1, and the handle is true iff the pointer is non-null |
| SharedPointers.SharedPtr.Share | shared_ptr.hpp:64-66 | the success path of promotion: shares the block and raises its strong count by one |
| SharedPointers.SharedPtr.Copy | shared_ptr.hpp:70-77 | from a source with a non-null pointer, shares its block and raises the strong count by one; from a null source, stays empty and changes no count |
| SharedPointers.SharedPtr.Adopt | shared_ptr.hpp:83-87 | the shared step of copying: takes the source's fields and raises that block's strong count by one |
| SharedPointers.SharedPtr.Move | shared_ptr.hpp:92-96 | takes the source's pointer and block, leaves the source null, and leaves the block's counts untouched |
| SharedPointers.SharedPtr.TakeOver | shared_ptr.hpp:102-105 | the shared step of moving: takes the source's fields, nulls the source, and changes no count |
| SharedPointers.SharedPtr.Reset | shared_ptr.hpp:128-133 | with a null pointer, changes nothing (a block is kept as it is); otherwise releases exactly one strong unit of the block and leaves both fields null |
| SharedPointers.SharedPtr.Dispose | shared_ptr.hpp:110 | the destructor has the effect of `reset()` |
| SharedPointers.SharedPtr.ResetTo | shared_ptr.hpp:136-140 | `reset()` first (the old block loses one strong unit, or is left untouched when the pointer was null), then a fresh block over `ptr` with count 1, even for a null `ptr` |
| SharedPointers.SharedPtr.Assign | shared_ptr.hpp:80-89 | self-assignment changes nothing. Otherwise: the old block loses one strong unit through `reset()`; a source with a non-null pointer is adopted and its strong count raised; a null source leaves the handle null. Giving up and re-adopting the same block leaves it exactly as it was |
| SharedPointers.SharedPtr.MoveAssign | shared_ptr.hpp:99-107 | self-assignment changes nothing; otherwise releases the old block through `reset()`, takes the source's fields and nulls the source; the block taken over keeps its counts unless `reset()` released a unit of that same block (including when the destination's null pointer sat on the source's block) |
| SharedPointers.SharedPtr.Get | shared_ptr.hpp:113 | returns the cached pointer; on a valid handle a non-null pointer means the pointee has not been deleted |
| SharedPointers.SharedPtr.UseCount | shared_ptr.hpp:116 | requires a block (no null check in the code); returns its strong count, at least 1 for a valid handle |
| SharedPointers.SharedPtr.ToBool | shared_ptr.hpp:119 | true iff `get()` is non-null; a true valid handle has a live pointee |
| WeakPointers.WeakPtr.Empty | weak_ptr.hpp:41-42 | the default handle has no block, `use_count()` 0 and is expired |
| WeakPointers.WeakPtr.FromShared | weak_ptr.hpp:45-50 | copies the strong handle's fields; raises the weak count by one iff there is a block; the strong count and so `use_count()` are unchanged |
| WeakPointers.WeakPtr.AssignShared | weak_ptr.hpp:53-61 | copies the strong handle's fields and raises the new block's weak count; the weak unit held before is not released, so the old block is left untouched |
| WeakPointers.WeakPtr.Copy | weak_ptr.hpp:64-69 | copies the fields and raises the weak count by one when there is a block |
| WeakPointers.WeakPtr.Assign | weak_ptr.hpp:72-81 | self-assignment changes nothing; otherwise copies the fields and raises the new block's weak count, without releasing the unit held before |
| WeakPointers.WeakPtr.Move | weak_ptr.hpp:84-88 | takes the fields, leaves the source null, changes no count |
| WeakPointers.WeakPtr.MoveAssign | weak_ptr.hpp:91-98 | self-assignment changes nothing; otherwise takes the fields and nulls the source, changing no count and not releasing the unit held before |
| WeakPointers.WeakPtr.Reset | weak_ptr.hpp:106-112 | releases exactly one weak unit when there is a block, leaves the handle null; afterwards `use_count()` is 0 and the handle is expired |
| WeakPointers.WeakPtr.Dispose | weak_ptr.hpp:101-103 | the destructor has the effect of `reset()` |
| WeakPointers.WeakPtr.UseCount | weak_ptr.hpp:114-120 | the block's strong count (not its weak count), or 0 without a block; on a valid handle it is 0 iff there is no block or the pointee has been deleted |
| WeakPointers.WeakPtr.Expired | weak_ptr.hpp:123-125 | true iff `use_count()` is 0, that is, iff nothing is left to observe |
| WeakPointers.WeakPtr.Lock | weak_ptr.hpp:128-130 | never fails. When expired, returns an empty handle and changes no count. Otherwise returns a handle sharing the block, with the strong count raised by one; the new handle reports the old use count plus one |
| WeakPointers.SharedFromWeak | shared_ptr.hpp:62-67 | fails with `bad_weak_ptr` iff the weak handle's `use_count()` is 0, changing nothing; otherwise a fresh strong handle sharing the block, with the strong count raised by one |
| UniquePointers.UniquePtr.Empty | unique_ptr.hpp:33 | the default handle is null and has deleted nothing |
| UniquePointers.UniquePtr.FromRaw | unique_ptr.hpp:36 | stores the pointer; the handle is true iff it is non-null |
| UniquePointers.UniquePtr.Move | unique_ptr.hpp:39-41 | takes the source's pointer, leaves the source null, deletes nothing |
| UniquePointers.UniquePtr.MoveAssign | unique_ptr.hpp:44-51 | self-assignment changes nothing; otherwise deletes the object owned before exactly once (nothing if null), takes the source's pointer and nulls the source |
| UniquePointers.UniquePtr.Dispose | unique_ptr.hpp:54-56 | the destructor deletes the owned object once and leaves the handle null |
| UniquePointers.UniquePtr.Release | unique_ptr.hpp:59-63 | returns the stored pointer, becomes null, deletes nothing |
| UniquePointers.UniquePtr.Reset | unique_ptr.hpp:66-69 | deletes the old object once and stores `ptr`, which defaults to null |
| UniquePointers.UniquePtr.Get | unique_ptr.hpp:72-74 | returns the stored pointer without side effects |
| UniquePointers.UniquePtr.ToBool | unique_ptr.hpp:77-79 | true iff the stored pointer is non-null |
| UniquePointers.Equal | unique_ptr.hpp:92-94 | true iff the two handles store the same pointer; equal handles agree on `operator bool` |
| Drivers.SharedCopyPhase | shared_ptr_test.cpp:14-29 | construction, copy and copy assignment print the use counts 1, 2, 2, 1, 3, 3; the block of Test(20) is torn down |
| Drivers.SharedMovePhase | shared_ptr_test.cpp:32-41 | the moves print 3, 1, 3 and two false handles; the block of Test(30) is torn down |
| Drivers.SharedResetPhase | shared_ptr_test.cpp:44-50 | the reset handle is false; after `reset(new Test(40))` the use count is 1 and Test(10) keeps one owner |
| Drivers.SharedScopePhase | shared_ptr_test.cpp:53-59 | three owners report a use count of 3; leaving the scope tears their block down |
| Drivers.SharedEndPhase | shared_ptr_test.cpp:62-64 | the destructors at the end of `main` tear down the blocks of Test(10) and Test(40) |
| Drivers.SharedPtrTest | shared_ptr_test.cpp:12-64 | the program prints the use counts 1, 2, 2, 1, 3, 3, 3, 1, 3, 1, 3 and three false handles, and each of its five blocks is torn down exactly once, pointee first |
| Drivers.WeakLifecycleTest | weak_ptr_test.cpp:16-32 | the weak handle reports 1 and is not expired; after the reset it reports 0 and is expired |
| Drivers.WeakLockPhase | weak_ptr_test.cpp:37-47 | locking a live block yields a true handle and a use count of 2 |
| Drivers.WeakLockTest | weak_ptr_test.cpp:35-53 | the first lock is true with use count 2, the lock after destruction is false, and the block is torn down |
| Drivers.WeakCopyTest | weak_ptr_test.cpp:56-67 | the copied and the assigned weak handles both report 1; the block is torn down at scope exit |
| Drivers.WeakMoveTest | weak_ptr_test.cpp:70-80 | use count 1 before and after the move; the moved-from handle reports 0 |
| Drivers.WeakResetTest | weak_ptr_test.cpp:83-92 | a reset weak handle is expired with use count 0 |
| Drivers.ExpiredPromotionScenario | weak_ptr.hpp:123-130 | after the only strong handle is reset, the weak handle is expired, `lock()` is false and promotion fails |
| Drivers.LockReleaseScenario | weak_ptr.hpp:128-130 | a lock on a live block reports 2, and 1 again once the locked handle is reset |
| Drivers.EmptyWeakScenario | weak_ptr.hpp:41-42 | an empty weak handle is expired, `lock()` is false without failing, and promotion fails |
| Drivers.WeakReassignScenario | weak_ptr.hpp:53-61 | reassigning a weak handle leaks its old weak unit: the first block is never deleted, while the second is torn down |
| Drivers.NullOwnerScenario | shared_ptr.hpp:128-129 | a strong handle over a null pointer is false with use count 1, and destroying it leaves its block at count 1, never torn down |
| Drivers.DoubleOwnerScenario | shared_ptr.hpp:59 | two strong handles built over the same raw pointer each get their own block, and destroying both deletes that pointer twice |
| Drivers.UniqueMovePhase | unique_ptr_test.cpp:28-50 | the move and `release()` steps print null, not null, null, not null, null; Test(20) is deleted by the move assignment, and `release()` returns Test(10) |
| Drivers.UniqueResetPhase | unique_ptr_test.cpp:53-65 | both ints owned by `ip` are deleted by its resets; `pnull.get()` is null, and the handle is null then not null |
| Drivers.UniqueScopePhase | unique_ptr_test.cpp:68-86 | Test(999) is deleted at scope exit; `p` prints null, not null, null, and the released int is never deleted |
| Drivers.UniquePtrTest | unique_ptr_test.cpp:25-89 | the ten null/not-null lines of the program, the pointer `release()` returns, and exactly the deletions Test(20), 42, 100, Test(999), 77 performed by the handles |

## Left out

- `operator*` and `operator->` of `shared_ptr` and `unique_ptr`: these are raw dereferences. They are undefined behaviour on an empty handle, and the model has no pointee values to return.
- The message string carried by `bad_weak_ptr`: a failed promotion is the value `Err(BadWeakPtr)`, not a thrown exception.
- Real heap allocation and `delete`: pointees are fixed `Addr` ids and deletion is ghost logs. The manual `delete raw` in unique_ptr_test.cpp is not among the deletions `Drivers.UniquePtrTest` reports.
- The self-check `this == &r` in `weak_ptr::operator=(const shared_ptr&)`: it compares pointers of unrelated types and can never hold, so `WeakPointers.WeakPtr.AssignShared` has no self-check.
- Templates over `T`, and concurrency: the code has no synchronisation, and the model is single-threaded.
- Console output of the example programs: the drivers return the printed values instead.
- WeakPointers.WeakPtr.Lock: the returned handle is true whenever the handle was not expired only if the observed pointer is non-null. For a block built over a null pointer, `lock()` returns an owning but false handle; the contract states exactly this.
- UniquePointers.UniquePtr.MoveAssign: each handle logs only the deletions it performs itself. A deletion is not attributed to the object's original owner.
- Deletion is logged per block, not as one set of deleted objects shared by all blocks. The model therefore does not promise that a pointee is deleted only once across blocks. The code deletes a pointee twice when two `shared_ptr`s are built over the same raw pointer (shared_ptr.hpp:59), or when `reset(get())` is called on the last owner (shared_ptr.hpp:136-140).
- The `long` counters of the block (cb_base.hpp:7-8) are unbounded integers in the model. Overflow after more than `LONG_MAX` copies is not modelled.
