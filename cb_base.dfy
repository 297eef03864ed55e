/**
 * The control block shared by strong and weak handles (cb_base.hpp).
 *
 * The block carries a strong count, a weak count and the owned pointer. Its weak count includes one
 * baseline unit that the block holds on itself while any strong unit remains. Teardown has two stages:
 * the last strong release deletes the pointee and then gives up the baseline unit; the last weak release
 * deletes the block. `delete` is modelled as a ghost log of teardown steps.
 *
 * The first half is a value model of the counters (`Counts` and the functions that change them), with
 * the invariants and lemmas about it; the second half is the `ControlBlock` class, whose methods are
 * specified by those functions.
 */
module ControlBlocks {
  import opened RawPointers

  /** The two teardown steps, `delete data` and `delete this`. */
  datatype Teardown = DataDeleted | BlockDeleted

  /** The two counters of a block and the teardown steps it has taken so far. */
  datatype Counts = Counts(refCount: int, weakCount: int, teardown: seq<Teardown>)

  /** The weak unit the block holds on itself: one while any strong unit remains, none afterwards. */
  function Baseline(refCount: int): nat
  {
    if refCount > 0 then 1 else 0
  }

  /** The teardown steps a block with these counters has taken: the pointee goes when the strong count
    * is zero, the block when the weak count is zero as well, and always the pointee first. */
  function TeardownAt(refCount: int, weakCount: int): (t: seq<Teardown>)
    ensures multiset(t)[DataDeleted] == (if refCount > 0 then 0 else 1)
    ensures multiset(t)[BlockDeleted] == (if refCount <= 0 && weakCount <= 0 then 1 else 0)
    ensures BlockDeleted in t ==> t == [DataDeleted, BlockDeleted]
  {
    if refCount > 0 then []
    else if weakCount > 0 then [DataDeleted]
    else [DataDeleted, BlockDeleted]
  }

  /** The block invariant: the counters are never negative, the baseline unit is there while a strong
    * unit is, and the teardown log is exactly the one the counters call for. */
  ghost predicate Consistent(c: Counts)
  {
    0 <= c.refCount &&
    Baseline(c.refCount) <= c.weakCount &&
    c.teardown == TeardownAt(c.refCount, c.weakCount)
  }

  /** A new block `cb_base(ptr)`. */
  function Init(): (c: Counts)
    ensures Consistent(c)
    ensures c.refCount == 1 && c.teardown == []
    ensures c.weakCount == Baseline(c.refCount)  // the one weak unit is the baseline, no observer
  {
    Counts(1, 1, [])
  }

  /** `add_ref_count`: `++ref_count`. */
  function AddRef(c: Counts): (r: Counts)
    ensures r.refCount == c.refCount + 1
    ensures r.weakCount == c.weakCount && r.teardown == c.teardown
    ensures Consistent(c) && c.refCount >= 1 ==> Consistent(r)
  {
    c.(refCount := c.refCount + 1)
  }

  /** `add_weak_count`: `++weak_count`. */
  function AddWeak(c: Counts): (r: Counts)
    ensures r.weakCount == c.weakCount + 1
    ensures r.refCount == c.refCount && r.teardown == c.teardown
    ensures Consistent(c) && c.weakCount >= 1 ==> Consistent(r)
  {
    c.(weakCount := c.weakCount + 1)
  }

  /** `release_weak_count`: `--weak_count`, and delete the block when it reaches zero. */
  function ReleaseWeak(c: Counts): (r: Counts)
    ensures r.weakCount == c.weakCount - 1 && r.refCount == c.refCount
    ensures c.teardown <= r.teardown
    ensures (BlockDeleted in r.teardown) <==> (BlockDeleted in c.teardown || r.weakCount == 0)
    ensures Consistent(c) && c.weakCount > Baseline(c.refCount) ==> Consistent(r)
  {
    var c1 := c.(weakCount := c.weakCount - 1);
    if c1.weakCount == 0 then c1.(teardown := c1.teardown + [BlockDeleted]) else c1
  }

  /** `release_ref_count`: `--ref_count`; when it reaches zero, delete the pointee and then release the
    * baseline weak unit. */
  function ReleaseRef(c: Counts): (r: Counts)
    ensures r.refCount == c.refCount - 1
    ensures r.weakCount == c.weakCount - Baseline(c.refCount) + Baseline(r.refCount)
    ensures c.teardown <= r.teardown
    ensures (DataDeleted in r.teardown) <==> (DataDeleted in c.teardown || r.refCount == 0)
    ensures Consistent(c) && c.refCount >= 1 ==> Consistent(r)
  {
    var c1 := c.(refCount := c.refCount - 1);
    if c1.refCount == 0 then ReleaseWeak(c1.(teardown := c1.teardown + [DataDeleted])) else c1
  }

  /** What the block invariant says about teardown: while a strong unit remains nothing is torn down and
    * the baseline keeps the weak count positive; the block is deleted only after its pointee and only
    * once both counts are zero; neither is deleted twice. */
  lemma TeardownOrder(c: Counts)
    requires Consistent(c)
    ensures c.refCount >= 1 ==> c.weakCount >= 1 && c.teardown == []
    ensures BlockDeleted in c.teardown ==>
      c.teardown == [DataDeleted, BlockDeleted] && c.refCount == 0 && c.weakCount == 0
    ensures multiset(c.teardown)[DataDeleted] <= 1 && multiset(c.teardown)[BlockDeleted] <= 1
  {
  }

  /** Releasing a strong unit undoes acquiring one. */
  lemma AddRefThenRelease(c: Counts)
    requires c.refCount >= 1
    ensures ReleaseRef(AddRef(c)) == c
  {
  }

  /** Releasing a weak unit undoes acquiring one, on a block that has not been deleted. */
  lemma AddWeakThenRelease(c: Counts)
    requires c.weakCount >= 1
    ensures ReleaseWeak(AddWeak(c)) == c
  {
  }

  /** Dropping a strong unit that is not the last one and acquiring one again leaves the block as it was. */
  lemma ReleaseThenAddRef(c: Counts)
    requires c.refCount >= 2
    ensures AddRef(ReleaseRef(c)) == c
  {
  }

  /** One change of counts, as the handles perform them. */
  datatype CountOp = IncRef | IncWeak | DecRef | DecWeak

  function Step(c: Counts, op: CountOp): Counts
  {
    match op
    case IncRef => AddRef(c)
    case IncWeak => AddWeak(c)
    case DecRef => ReleaseRef(c)
    case DecWeak => ReleaseWeak(c)
  }

  /** When a handle may perform `op`: a strong unit is acquired only by copying or promoting from a
    * live one; a weak unit only on a block that still exists; a unit is released only by a handle that
    * holds it, and the baseline weak unit is never released by a handle. */
  predicate Allowed(c: Counts, op: CountOp)
  {
    match op
    case IncRef => c.refCount >= 1
    case IncWeak => c.weakCount >= 1
    case DecRef => c.refCount >= 1
    case DecWeak => c.weakCount > Baseline(c.refCount)
  }

  predicate Legal(c: Counts, ops: seq<CountOp>)
    decreases |ops|
  {
    ops == [] || (Allowed(c, ops[0]) && Legal(Step(c, ops[0]), ops[1..]))
  }

  function Run(c: Counts, ops: seq<CountOp>): Counts
    decreases |ops|
  {
    if ops == [] then c else Run(Step(c, ops[0]), ops[1..])
  }

  /**
   * Every legal sequence of count changes keeps the block invariant (so the pointee is deleted exactly
   * once, when the strong count reaches zero, and the block exactly once afterwards, when the weak
   * count reaches zero), never undoes a teardown step, and never revives a strong count that reached
   * zero.
   */
  lemma {:induction false} LegalRunKeepsConsistent(c: Counts, ops: seq<CountOp>)
    requires Consistent(c) && Legal(c, ops)
    ensures Consistent(Run(c, ops))
    ensures c.teardown <= Run(c, ops).teardown
    ensures c.refCount == 0 ==> Run(c, ops).refCount == 0
    decreases |ops|
  {
    if ops != [] {
      var c1 := Step(c, ops[0]);
      assert Consistent(c1) && c.teardown <= c1.teardown;
      LegalRunKeepsConsistent(c1, ops[1..]);
    }
  }

  /** `n` repetitions of one count change. */
  function Repeat(c: Counts, op: CountOp, n: nat): Counts
    decreases n
  {
    if n == 0 then c else Repeat(Step(c, op), op, n - 1)
  }

  lemma {:induction false} RepeatAddRef(c: Counts, n: nat)
    ensures Repeat(c, IncRef, n) == c.(refCount := c.refCount + n)
    decreases n
  {
    if n > 0 {
      RepeatAddRef(AddRef(c), n - 1);
    }
  }

  lemma {:induction false} RepeatReleaseRef(c: Counts, k: int, n: nat)
    requires k >= 1 && c.refCount == k + n
    ensures Repeat(c, DecRef, n) == c.(refCount := k)
    decreases n
  {
    if n > 0 {
      RepeatReleaseRef(ReleaseRef(c), k, n - 1);
    }
  }

  /** Making `n` copies of a live strong handle and resetting all of them returns the block to the
    * state it had: the strong count is back where it started and nothing was torn down. */
  lemma CopiesThenResets(c: Counts, n: nat)
    requires c.refCount >= 1
    ensures Repeat(c, IncRef, n).refCount == c.refCount + n
    ensures Repeat(Repeat(c, IncRef, n), DecRef, n) == c
  {
    RepeatAddRef(c, n);
    RepeatReleaseRef(Repeat(c, IncRef, n), c.refCount, n);
  }

  lemma {:induction false} RepeatAddWeak(c: Counts, n: nat)
    ensures Repeat(c, IncWeak, n) == c.(weakCount := c.weakCount + n)
    decreases n
  {
    if n > 0 {
      RepeatAddWeak(AddWeak(c), n - 1);
    }
  }

  lemma {:induction false} RepeatReleaseWeak(c: Counts, k: int, n: nat)
    requires k >= 1 && c.weakCount == k + n
    ensures Repeat(c, DecWeak, n) == c.(weakCount := k)
    decreases n
  {
    if n > 0 {
      RepeatReleaseWeak(ReleaseWeak(c), k, n - 1);
    }
  }

  /** The same for weak handles: `n` weak copies followed by `n` weak resets leave the block as it was. */
  lemma WeakCopiesThenResets(c: Counts, n: nat)
    requires c.weakCount >= 1
    ensures Repeat(c, IncWeak, n).weakCount == c.weakCount + n
    ensures Repeat(Repeat(c, IncWeak, n), DecWeak, n) == c
  {
    RepeatAddWeak(c, n);
    RepeatReleaseWeak(Repeat(c, IncWeak, n), c.weakCount, n);
  }

  /** A handle leaving a holder set frees exactly one place in it. */
  lemma HolderLeaves(holders: set<object>, h: object)
    requires h in holders
    ensures |holders - {h}| == |holders| - 1
  {
    assert holders == (holders - {h}) + {h};
  }

  /**
   * The block object. Besides the source's fields it keeps ghost bookkeeping: the teardown log, and the
   * handles that hold a unit of each count. A holder gives up its unit only by releasing it, so each
   * count covers its holders; a unit may outlive its holder (the source leaks some), so the counts may
   * exceed the holders.
   */
  class ControlBlock {
    var refCount: int
    var weakCount: int
    const data: Ptr
    ghost var teardown: seq<Teardown>
    ghost var strongHolders: set<object>
    ghost var weakHolders: set<object>

    ghost function State(): Counts
      reads this
    {
      Counts(refCount, weakCount, teardown)
    }

    ghost predicate Valid()
      reads this
    {
      Consistent(State()) &&
      |strongHolders| <= refCount &&
      |weakHolders| + Baseline(refCount) <= weakCount
    }

    ghost predicate DataDestroyed()
      reads this
    {
      DataDeleted in teardown
    }

    ghost predicate SelfDestroyed()
      reads this
    {
      BlockDeleted in teardown
    }

    constructor (ptr: Ptr)
      ensures Valid() && data == ptr
      ensures State() == Init()
      ensures strongHolders == {} && weakHolders == {}
    {
      refCount, weakCount, data := 1, 1, ptr;
      teardown := [];
      strongHolders, weakHolders := {}, {};
    }

    method AddRefCount()
      requires Valid() && refCount >= 1
      modifies this
      ensures Valid() && State() == AddRef(old(State()))
      ensures strongHolders == old(strongHolders) && weakHolders == old(weakHolders)
    {
      refCount := refCount + 1;
    }

    method AddWeakCount()
      requires Valid() && weakCount >= 1
      modifies this
      ensures Valid() && State() == AddWeak(old(State()))
      ensures strongHolders == old(strongHolders) && weakHolders == old(weakHolders)
    {
      weakCount := weakCount + 1;
    }

    /** The unit released must not be claimed by a registered holder: a holder deregisters first. */
    method ReleaseRefCount()
      requires Valid() && |strongHolders| < refCount
      modifies this
      ensures Valid() && State() == ReleaseRef(old(State()))
      ensures DataDestroyed() <==> old(DataDestroyed()) || refCount == 0
      ensures strongHolders == old(strongHolders) && weakHolders == old(weakHolders)
    {
      refCount := refCount - 1;
      if refCount == 0 {
        DestroyData();
        ReleaseWeakCount();
      }
    }

    /** The unit released is neither the baseline nor claimed by a registered holder. */
    method ReleaseWeakCount()
      requires Valid() && |weakHolders| + Baseline(refCount) < weakCount
      modifies this
      ensures Valid() && State() == ReleaseWeak(old(State()))
      ensures SelfDestroyed() <==> old(SelfDestroyed()) || weakCount == 0
      ensures strongHolders == old(strongHolders) && weakHolders == old(weakHolders)
    {
      weakCount := weakCount - 1;
      if weakCount == 0 {
        DestroySelf();
      }
    }

    /** `delete data`: only at the moment the strong count has just reached zero, before anything else
      * was torn down, so at most once. */
    method DestroyData()
      requires refCount == 0 && teardown == []
      modifies this
      ensures teardown == [DataDeleted] && DataDestroyed() && !SelfDestroyed()
      ensures refCount == old(refCount) && weakCount == old(weakCount)
      ensures strongHolders == old(strongHolders) && weakHolders == old(weakHolders)
    {
      teardown := teardown + [DataDeleted];
    }

    /** `delete this`: only when the weak count has just reached zero, after the pointee is gone. */
    method DestroySelf()
      requires weakCount == 0 && teardown == [DataDeleted]
      modifies this
      ensures teardown == [DataDeleted, BlockDeleted] && DataDestroyed() && SelfDestroyed()
      ensures refCount == old(refCount) && weakCount == old(weakCount)
      ensures strongHolders == old(strongHolders) && weakHolders == old(weakHolders)
    {
      teardown := teardown + [BlockDeleted];
    }

    /** `get_ref_count`: the strong count, which covers every registered strong holder and is zero
      * exactly when the pointee has been deleted. */
    function GetRefCount(): (n: int)
      reads this
      ensures Valid() ==> n >= |strongHolders| && (n == 0 <==> DataDestroyed())
      ensures n == refCount
    {
      refCount
    }
  }
}
