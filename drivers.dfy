/**
 * The three example programs of the repository (shared_ptr_test.cpp, weak_ptr_test.cpp and
 * unique_ptr_test.cpp) as client methods. Each returns what its program prints, and its contract states
 * the values the program is expected to print. Objects created with `new` get fixed distinct
 * addresses; console output is left out. Long programs are split into phases, each a method that hands
 * its live handles to the next.
 */
module Drivers {
  import opened RawPointers
  import opened ControlBlocks
  import opened SharedPointers
  import opened WeakPointers
  import opened UniquePointers

  /** shared_ptr_test.cpp, construction, copy construction and copy assignment: three handles sharing
    * the block of Test(10); the block of Test(20) was torn down by the assignment. */
  method SharedCopyPhase() returns (p1: SharedPtr, p2: SharedPtr, p3: SharedPtr, counts: seq<int>,
                                    ghost torn20: seq<Teardown>)
    ensures fresh(p1) && fresh(p2) && fresh(p3) && p1 != p2 && p1 != p3 && p2 != p3
    ensures p1.Valid() && p2.Valid() && p3.Valid()
    ensures p1.cb != null && fresh(p1.cb) && p2.cb == p1.cb && p3.cb == p1.cb
    ensures p1.data == Addr(10) && p1.cb.refCount == 3 && p1.cb.weakCount == 1
    ensures counts == [1, 2, 2, 1, 3, 3]
    ensures torn20 == [DataDeleted, BlockDeleted]
  {
    p1 := new SharedPtr.FromRaw(Addr(10));
    var c1 := p1.UseCount();

    p2 := new SharedPtr.Copy(p1);
    var c2, c3 := p1.UseCount(), p2.UseCount();

    p3 := new SharedPtr.FromRaw(Addr(20));
    var block20 := p3.cb;
    var c4 := p3.UseCount();
    p3.Assign(p1);
    var c5, c6 := p3.UseCount(), p1.UseCount();

    counts := [c1, c2, c3, c4, c5, c6];
    torn20 := block20.teardown;
  }

  /** shared_ptr_test.cpp, move construction and move assignment: `p1` moves into `p4`, `p2` into `p5`,
    * whose Test(30) block is torn down; Test(10) keeps its three owners. */
  method SharedMovePhase(p1: SharedPtr, p2: SharedPtr, p3: SharedPtr)
      returns (p4: SharedPtr, p5: SharedPtr, counts: seq<int>, flags: seq<bool>, ghost torn30: seq<Teardown>)
    requires p1 != p2 && p1 != p3 && p2 != p3
    requires p1.Valid() && p2.Valid() && p3.Valid()
    requires p1.cb != null && p2.cb == p1.cb && p3.cb == p1.cb
    requires p1.data == Addr(10) && p1.cb.refCount == 3
    modifies p1, p2, p1.cb
    ensures fresh(p4) && fresh(p5) && p4 != p5
    ensures p3.Valid() && p4.Valid() && p5.Valid()
    ensures p4.cb == old(p1.cb) && p5.cb == p4.cb && p3.cb == p4.cb && p4.data == Addr(10)
    ensures p4.cb.refCount == 3 && p4.cb.weakCount == old(p1.cb.weakCount)
    ensures p1.data == Null && p1.cb == null && p2.data == Null && p2.cb == null
    ensures counts == [3, 1, 3] && flags == [false, false]
    ensures torn30 == [DataDeleted, BlockDeleted]
  {
    p4 := new SharedPtr.Move(p1);
    var c7 := p4.UseCount();
    var f1 := p1.ToBool();

    p5 := new SharedPtr.FromRaw(Addr(30));
    var block30 := p5.cb;
    var c8 := p5.UseCount();
    p5.MoveAssign(p2);
    var c9 := p5.UseCount();
    var f2 := p2.ToBool();

    counts := [c7, c8, c9];
    flags := [f1, f2];
    torn30 := block30.teardown;
  }

  /** shared_ptr_test.cpp, the two resets: `p3.reset()` empties `p3`; `p4.reset(new Test(40))` gives up
    * Test(10), which `p5` still owns, and owns a new block. */
  method SharedResetPhase(p3: SharedPtr, p4: SharedPtr, p5: SharedPtr)
      returns (count: int, flag: bool)
    requires p3 != p4 && p3 != p5 && p4 != p5
    requires p3.Valid() && p4.Valid() && p5.Valid()
    requires p4.cb != null && p5.cb == p4.cb && p3.cb == p4.cb
    requires p4.data == Addr(10) && p4.cb.refCount == 3 && p4.cb.weakCount == 1
    modifies p3, p4, p4.cb
    ensures p3.Valid() && p4.Valid() && p5.Valid()
    ensures p3.data == Null && p3.cb == null
    ensures p5.cb == old(p4.cb) && p5.data == Addr(10) && p5.cb.refCount == 1 && p5.cb.weakCount == 1
    ensures p4.cb != null && fresh(p4.cb) && p4.data == Addr(40)
    ensures p4.cb.refCount == 1 && p4.cb.weakCount == 1
    ensures count == 1 && !flag
  {
    p3.Reset();
    flag := p3.ToBool();
    p4.ResetTo(Addr(40));
    count := p4.UseCount();
  }

  /** shared_ptr_test.cpp, the inner scope: three owners of Test(100) report a use count of 3, and
    * leaving the scope (destroying `c`, `b`, `a` in that order) tears the block down completely. */
  method SharedScopePhase() returns (count: int, ghost torn100: seq<Teardown>)
    ensures count == 3
    ensures torn100 == [DataDeleted, BlockDeleted]
  {
    var a := new SharedPtr.FromRaw(Addr(100));
    var b := new SharedPtr.Copy(a);
    var c := new SharedPtr.Copy(b);
    count := a.UseCount();
    var block100 := a.cb;
    c.Dispose();
    b.Dispose();
    a.Dispose();
    torn100 := block100.teardown;
  }

  /** shared_ptr_test.cpp, the end of `main`: the handles are destroyed in reverse order of declaration,
    * which tears down the blocks of Test(10) (owned by `p5`) and Test(40) (owned by `p4`). */
  method SharedEndPhase(p1: SharedPtr, p2: SharedPtr, p3: SharedPtr, p4: SharedPtr, p5: SharedPtr)
      returns (ghost torn10: seq<Teardown>, ghost torn40: seq<Teardown>)
    requires p1.Valid() && p2.Valid() && p3.Valid() && p4.Valid() && p5.Valid()
    requires p1.data == Null && p1.cb == null && p2.data == Null && p2.cb == null
    requires p3.data == Null && p3.cb == null
    requires p4.cb != null && p5.cb != null && p4.cb != p5.cb && p4 != p5
    requires p4.data == Addr(40) && p4.cb.refCount == 1 && p4.cb.weakCount == 1
    requires p5.data == Addr(10) && p5.cb.refCount == 1 && p5.cb.weakCount == 1
    modifies p1, p2, p3, p4, p5, p4.cb, p5.cb
    ensures torn10 == [DataDeleted, BlockDeleted] && torn40 == [DataDeleted, BlockDeleted]
  {
    var block10, block40 := p5.cb, p4.cb;
    p5.Dispose();
    p4.Dispose();
    p3.Dispose();
    p2.Dispose();
    p1.Dispose();
    torn10, torn40 := block10.teardown, block40.teardown;
  }

  /**
   * shared_ptr_test.cpp as a whole: the eleven use counts it prints, the three truth values it prints
   * (all false: moved-from and reset handles), and the teardown of the blocks of Test(20), Test(30),
   * Test(100), Test(10) and Test(40), each deleted exactly once, pointee first.
   */
  method SharedPtrTest() returns (counts: seq<int>, flags: seq<bool>, ghost torn: seq<seq<Teardown>>)
    ensures counts == [1, 2, 2, 1, 3, 3, 3, 1, 3, 1, 3]
    ensures flags == [false, false, false]
    ensures |torn| == 5 && forall i :: 0 <= i < |torn| ==> torn[i] == [DataDeleted, BlockDeleted]
  {
    var p1, p2, p3, counts1, torn20 := SharedCopyPhase();
    var p4, p5, counts2, flags2, torn30 := SharedMovePhase(p1, p2, p3);
    var count3, flag3 := SharedResetPhase(p3, p4, p5);
    var count4, torn100 := SharedScopePhase();
    var torn10, torn40 := SharedEndPhase(p1, p2, p3, p4, p5);
    counts := counts1 + counts2 + [count3, count4];
    flags := flags2 + [flag3];
    torn := [torn20, torn30, torn100, torn10, torn40];
  }

  /** weak_ptr_test.cpp, test 1: a weak handle reports the strong count 1 and is not expired; after the
    * only strong handle is reset it reports 0 and is expired. Leaving the scope deletes the block. */
  method WeakLifecycleTest() returns (count1: int, expired1: bool, count2: int, expired2: bool,
                                      ghost torn: seq<Teardown>)
    ensures count1 == 1 && !expired1
    ensures count2 == 0 && expired2
    ensures torn == [DataDeleted, BlockDeleted]
  {
    var sp1 := new SharedPtr.FromRaw(Addr(10));
    var block := sp1.cb;
    var wp1 := new WeakPtr.FromShared(sp1);
    count1 := wp1.UseCount();
    expired1 := wp1.Expired();
    sp1.Reset();
    count2 := wp1.UseCount();
    expired2 := wp1.Expired();
    wp1.Dispose();
    sp1.Dispose();
    torn := block.teardown;
  }

  /** weak_ptr_test.cpp, test 2, first half: locking while a strong handle lives yields a true handle
    * and a strong count of 2; resetting the locked handle and `sp2` then deletes the pointee, and the
    * weak handle keeps the block alive. */
  method WeakLockPhase() returns (sp2: SharedPtr, wp2: WeakPtr, locked: SharedPtr, locked1: bool, count: int)
    ensures fresh(sp2) && fresh(wp2) && fresh(locked) && sp2 != locked
    ensures sp2.Valid() && wp2.Valid() && locked.Valid()
    ensures sp2.data == Null && sp2.cb == null && locked.data == Null && locked.cb == null
    ensures wp2.cb != null && fresh(wp2.cb)
    ensures wp2.cb.refCount == 0 && wp2.cb.weakCount == 1 && wp2.cb.teardown == [DataDeleted]
    ensures locked1 && count == 2
  {
    sp2 := new SharedPtr.FromRaw(Addr(20));
    wp2 := new WeakPtr.FromShared(sp2);
    locked := wp2.Lock();
    locked1 := locked.ToBool();
    count := wp2.UseCount();
    locked.Reset();
    sp2.Reset();
  }

  /** weak_ptr_test.cpp, test 2: after the first half, locking yields a false handle, and leaving the
    * scope deletes the block on the weak handle's release. */
  method WeakLockTest() returns (locked1: bool, count: int, locked2: bool, ghost torn: seq<Teardown>)
    ensures locked1 && count == 2 && !locked2
    ensures torn == [DataDeleted, BlockDeleted]
  {
    var sp2, wp2, locked, l1, c := WeakLockPhase();
    locked1, count := l1, c;
    var block := wp2.cb;
    var lockedAfter := wp2.Lock();
    locked2 := lockedAfter.ToBool();
    lockedAfter.Dispose();
    locked.Dispose();
    wp2.Dispose();
    sp2.Dispose();
    torn := block.teardown;
  }

  /** weak_ptr_test.cpp, test 3: a copied and a copy-assigned weak handle both report the strong count 1;
    * leaving the scope releases the three weak units and then the strong one, deleting the block. */
  method WeakCopyTest() returns (copyCount: int, assignCount: int, ghost torn: seq<Teardown>)
    ensures copyCount == 1 && assignCount == 1
    ensures torn == [DataDeleted, BlockDeleted]
  {
    var sp3 := new SharedPtr.FromRaw(Addr(30));
    var block := sp3.cb;
    var wpOrig := new WeakPtr.FromShared(sp3);
    var wpCopy := new WeakPtr.Copy(wpOrig);
    copyCount := wpCopy.UseCount();
    var wpAssign := new WeakPtr.Empty();
    wpAssign.Assign(wpOrig);
    assignCount := wpAssign.UseCount();
    wpAssign.Dispose();
    wpCopy.Dispose();
    wpOrig.Dispose();
    sp3.Dispose();
    torn := block.teardown;
  }

  /** weak_ptr_test.cpp, test 4: moving a weak handle keeps the strong count it reports, and the
    * moved-from handle is left without a block. */
  method WeakMoveTest() returns (before: int, after: int, movedFromCount: int, ghost torn: seq<Teardown>)
    ensures before == 1 && after == 1 && movedFromCount == 0
    ensures torn == [DataDeleted, BlockDeleted]
  {
    var sp4 := new SharedPtr.FromRaw(Addr(40));
    var block := sp4.cb;
    var wpToMove := new WeakPtr.FromShared(sp4);
    before := wpToMove.UseCount();
    var wpMovedTo := new WeakPtr.Move(wpToMove);
    after := wpMovedTo.UseCount();
    movedFromCount := wpToMove.UseCount();
    wpMovedTo.Dispose();
    wpToMove.Dispose();
    sp4.Dispose();
    torn := block.teardown;
  }

  /** weak_ptr_test.cpp, test 5: a reset weak handle is expired and reports 0, although its strong
    * handle is alive. */
  method WeakResetTest() returns (success: bool, ghost torn: seq<Teardown>)
    ensures success
    ensures torn == [DataDeleted, BlockDeleted]
  {
    var sp5 := new SharedPtr.FromRaw(Addr(50));
    var block := sp5.cb;
    var wp5 := new WeakPtr.FromShared(sp5);
    wp5.Reset();
    success := wp5.Expired() && wp5.UseCount() == 0;
    wp5.Dispose();
    sp5.Dispose();
    torn := block.teardown;
  }

  /** Scenario: once the only strong handle is reset, the weak handle is expired, `lock()` yields a
    * false handle and promotion by `shared_ptr(const weak_ptr&)` fails with `bad_weak_ptr`. */
  method ExpiredPromotionScenario() returns (expired: bool, locked: bool, promoted: Result<SharedPtr, BadWeakPtr>)
    ensures expired && !locked
    ensures promoted.Err?
  {
    var s := new SharedPtr.FromRaw(Addr(20));
    var w := new WeakPtr.FromShared(s);
    s.Reset();
    expired := w.Expired();
    var l := w.Lock();
    locked := l.ToBool();
    promoted := SharedFromWeak(w);
  }

  /** Scenario: locking while the strong handle lives gives a strong count of 2, which returns to 1 once
    * the locked handle is released. */
  method LockReleaseScenario() returns (during: int, after: int)
    ensures during == 2 && after == 1
  {
    var s := new SharedPtr.FromRaw(Addr(30));
    var w := new WeakPtr.FromShared(s);
    var l := w.Lock();
    during := l.UseCount();
    l.Reset();
    after := w.UseCount();
  }

  /** Scenario: an empty weak handle is expired, `lock()` gives a false handle without failing, and
    * promotion fails with `bad_weak_ptr`. */
  method EmptyWeakScenario() returns (expired: bool, locked: bool, promoted: Result<SharedPtr, BadWeakPtr>)
    ensures expired && !locked
    ensures promoted.Err?
  {
    var w := new WeakPtr.Empty();
    expired := w.Expired();
    var l := w.Lock();
    locked := l.ToBool();
    promoted := SharedFromWeak(w);
  }

  /** unique_ptr_test.cpp, move construction, move assignment and `release()`: Test(10) passes from `p1`
    * to `p2` to `p3`, Test(20) is deleted by the move assignment, and `release()` hands Test(10) back. */
  method UniqueMovePhase() returns (p1: UniquePtr, p2: UniquePtr, p3: UniquePtr, flags: seq<bool>, raw: Ptr)
    ensures fresh(p1) && fresh(p2) && fresh(p3)
    ensures p1.data == Null && p2.data == Null && p3.data == Null
    ensures p1.deleted == multiset{} && p2.deleted == multiset{} && p3.deleted == multiset{20}
    ensures flags == [false, true, false, true, false] && raw == Addr(10)
  {
    p1 := new UniquePtr.FromRaw(Addr(10));
    p2 := new UniquePtr.Move(p1);
    var f1, f2 := p1.ToBool(), p2.ToBool();

    p3 := new UniquePtr.FromRaw(Addr(20));
    p3.MoveAssign(p2);
    var f3, f4 := p2.ToBool(), p3.ToBool();

    raw := p3.Release();
    var f5 := p3.ToBool();
    flags := [f1, f2, f3, f4, f5];
  }

  /** unique_ptr_test.cpp, `reset()` and `get()`: the int 42 and then the int 100 are deleted by the
    * resets of `ip`; `pnull` starts null and then owns the int 77. */
  method UniqueResetPhase() returns (ip: UniquePtr, pnull: UniquePtr, flags: seq<bool>, nullGet: Ptr)
    ensures fresh(ip) && fresh(pnull) && ip != pnull
    ensures ip.data == Null && ip.deleted == multiset{42, 100}
    ensures pnull.data == Addr(77) && pnull.deleted == multiset{}
    ensures flags == [false, true] && nullGet == Null
  {
    ip := new UniquePtr.FromRaw(Addr(42));
    ip.Reset(Addr(100));
    ip.Reset();

    pnull := new UniquePtr.FromRaw(Null);
    nullGet := pnull.Get();
    var f6 := pnull.ToBool();
    pnull.Reset(Addr(77));
    var f7 := pnull.ToBool();
    flags := [f6, f7];
  }

  /** unique_ptr_test.cpp, the inner scope and `operator bool`: Test(999) is deleted on leaving its scope;
    * `p` starts null, owns the second int 42 (at address 420) and releases it, which is never deleted. */
  method UniqueScopePhase() returns (p: UniquePtr, flags: seq<bool>, ghost deleted999: multiset<nat>)
    ensures fresh(p) && p.data == Null && p.deleted == multiset{}
    ensures flags == [false, true, false] && deleted999 == multiset{999}
  {
    var temp := new UniquePtr.FromRaw(Addr(999));
    temp.Dispose();
    deleted999 := temp.deleted;

    p := new UniquePtr.FromRaw(Null);
    var f8 := p.ToBool();
    p.Reset(Addr(420));
    var f9 := p.ToBool();
    var leaked := p.Release();
    var f10 := p.ToBool();
    flags := [f8, f9, f10];
  }

  /**
   * unique_ptr_test.cpp as a whole: the ten "null"/"not null" lines it prints (as false/true), the
   * pointer that `release()` hands back, and every deletion the handles perform, the destructors at the
   * end of `main` included. Test(10) is deleted by hand after `release()` and is not among them.
   */
  method UniquePtrTest() returns (flags: seq<bool>, raw: Ptr, nullGet: Ptr, ghost deleted: multiset<nat>)
    ensures flags == [false, true, false, true, false, false, true, false, true, false]
    ensures raw == Addr(10) && nullGet == Null
    ensures deleted == multiset{20, 42, 100, 999, 77}
  {
    var p1, p2, p3, flags1, raw1 := UniqueMovePhase();
    var ip, pnull, flags2, nullGet2 := UniqueResetPhase();
    var p, flags3, deleted999 := UniqueScopePhase();
    flags, raw, nullGet := flags1 + flags2 + flags3, raw1, nullGet2;
    assert flags == [false, true, false, true, false, false, true, false, true, false];
    deleted := deleted999;
    p.Dispose();
    deleted := deleted + p.deleted;
    pnull.Dispose();
    deleted := deleted + pnull.deleted;
    ip.Dispose();
    deleted := deleted + ip.deleted;
    p3.Dispose();
    deleted := deleted + p3.deleted;
    p2.Dispose();
    deleted := deleted + p2.deleted;
    p1.Dispose();
    deleted := deleted + p1.deleted;
  }

  /** Reassigning a weak handle does not give back the weak unit it held: after every handle is
    * destroyed, the first pointee is deleted but its block never is, while the second block is torn
    * down completely. */
  method WeakReassignScenario() returns (ghost tornFirst: seq<Teardown>, ghost tornSecond: seq<Teardown>)
    ensures tornFirst == [DataDeleted]
    ensures tornSecond == [DataDeleted, BlockDeleted]
  {
    var s1 := new SharedPtr.FromRaw(Addr(1));
    var first := s1.cb;
    var w := new WeakPtr.FromShared(s1);
    var s2 := new SharedPtr.FromRaw(Addr(2));
    var second := s2.cb;
    w.AssignShared(s2);
    w.Dispose();
    s2.Dispose();
    s1.Dispose();
    tornFirst, tornSecond := first.teardown, second.teardown;
  }

  /** A strong handle over a null pointer is false and reports a use count of 1; destroying it releases
    * nothing, so its block is never deleted. */
  method NullOwnerScenario() returns (flag: bool, count: int, ghost countAfter: int, ghost torn: seq<Teardown>)
    ensures !flag && count == 1
    ensures countAfter == 1 && torn == []
  {
    var s := new SharedPtr.FromRaw(Null);
    var block := s.cb;
    flag := s.ToBool();
    count := s.UseCount();
    s.Dispose();
    countAfter, torn := block.refCount, block.teardown;
  }

  /** Two strong handles built over the same raw pointer get two blocks, and each block deletes that
    * pointer when its own handle is destroyed: the pointee is deleted twice. */
  method DoubleOwnerScenario() returns (ghost deletedIds: multiset<nat>)
    ensures deletedIds == multiset{5, 5}
  {
    var s1 := new SharedPtr.FromRaw(Addr(5));
    var s2 := new SharedPtr.FromRaw(Addr(5));
    var b1, b2 := s1.cb, s2.cb;
    s2.Dispose();
    s1.Dispose();
    deletedIds := multiset{};
    if b1.DataDestroyed() {
      deletedIds := deletedIds + Deletion(b1.data);
    }
    if b2.DataDestroyed() {
      deletedIds := deletedIds + Deletion(b2.data);
    }
  }
}
