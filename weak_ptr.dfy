/**
 * The weak handle `weak_ptr` (weak_ptr.hpp), and the constructor `shared_ptr(const weak_ptr&)`
 * (shared_ptr.hpp) that promotes a weak handle to a strong one.
 *
 * A weak handle holds the same two fields as a strong one but holds a weak unit of its block. Unlike
 * the strong handle, its three assignment operators overwrite `cb` without releasing the weak unit held
 * before, so that unit is never given back and the old block is never deleted on its account.
 */
module WeakPointers {
  import opened RawPointers
  import opened ControlBlocks
  import opened SharedPointers

  class WeakPtr {
    var data: Ptr
    var cb: ControlBlock?

    /** A handle without a block has a null pointer; a handle with a block is registered with it as a
      * weak holder, caches its pointer, and the block is valid (so it has not been deleted). */
    ghost predicate Valid()
      reads this, cb
    {
      (cb == null ==> data == Null) &&
      (cb != null ==> this in cb.weakHolders && data == cb.data && cb.Valid())
    }

    /** `weak_ptr()`. */
    constructor Empty()
      ensures Valid() && data == Null && cb == null
      ensures UseCount() == 0 && Expired()
    {
      data, cb := Null, null;
    }

    /** `weak_ptr(const shared_ptr&)`: observe the strong handle's block, raising its weak count if
      * there is one; the strong count does not change. */
    constructor FromShared(r: SharedPtr)
      requires r.Valid()
      modifies r.cb
      ensures Valid() && r.Valid()
      ensures data == r.data && cb == r.cb
      ensures cb != null ==>
        cb.State() == AddWeak(old(r.cb.State())) &&
        cb.weakHolders == old(r.cb.weakHolders) + {this} &&
        cb.strongHolders == old(r.cb.strongHolders)
      ensures cb != null ==> UseCount() == old(r.UseCount())
    {
      data, cb := r.data, r.cb;
      new;
      if cb != null {
        HolderCount(cb, r);
        cb.AddWeakCount();
        cb.weakHolders := cb.weakHolders + {this};
      }
    }

    /** `operator=(const shared_ptr&)`: observe the strong handle's block, raising its weak count if
      * there is one. There is no self-check (a weak and a strong handle are never the same object) and
      * the weak unit held before is not released. */
    method AssignShared(r: SharedPtr)
      requires Valid() && r.Valid()
      modifies this, r.cb
      ensures Valid() && r.Valid()
      ensures data == r.data && cb == r.cb
      ensures cb != null ==>
        cb.State() == AddWeak(old(r.cb.State())) &&
        cb.weakHolders == old(r.cb.weakHolders) + {this} &&
        cb.strongHolders == old(r.cb.strongHolders)
      ensures old(cb) != null && old(cb) != cb ==>
        old(cb).State() == old(cb.State()) && old(cb).weakHolders == old(cb.weakHolders)
    {
      data, cb := r.data, r.cb;
      if cb != null {
        HolderCount(cb, r);
        cb.AddWeakCount();
        cb.weakHolders := cb.weakHolders + {this};
      }
    }

    /** The copy constructor: observe the source's block, raising its weak count if there is one. */
    constructor Copy(r: WeakPtr)
      requires r.Valid()
      modifies r.cb
      ensures Valid() && r.Valid()
      ensures data == r.data && cb == r.cb
      ensures cb != null ==>
        cb.State() == AddWeak(old(r.cb.State())) &&
        cb.weakHolders == old(r.cb.weakHolders) + {this} &&
        cb.strongHolders == old(r.cb.strongHolders)
    {
      data, cb := r.data, r.cb;
      new;
      if cb != null {
        WeakHolderCount(cb, r);
        cb.AddWeakCount();
        cb.weakHolders := cb.weakHolders + {this};
      }
    }

    /** Copy assignment: nothing on self-assignment; otherwise observe the source's block, raising its
      * weak count if there is one, without releasing the weak unit held before. */
    method Assign(r: WeakPtr)
      requires Valid() && r.Valid()
      modifies this, r.cb
      ensures Valid() && r.Valid()
      ensures this == r ==>
        data == old(data) && cb == old(cb) &&
        (cb != null ==> cb.State() == old(cb.State()) && cb.weakHolders == old(cb.weakHolders))
      ensures this != r ==> data == r.data && cb == r.cb
      ensures this != r && cb != null ==>
        cb.State() == AddWeak(old(r.cb.State())) &&
        cb.weakHolders == old(r.cb.weakHolders) + {this} &&
        cb.strongHolders == old(r.cb.strongHolders)
      ensures this != r && old(cb) != null && old(cb) != cb ==>
        old(cb).State() == old(cb.State()) && old(cb).weakHolders == old(cb.weakHolders)
    {
      if this == r {
        return;
      }
      data, cb := r.data, r.cb;
      if cb != null {
        WeakHolderCount(cb, r);
        cb.AddWeakCount();
        cb.weakHolders := cb.weakHolders + {this};
      }
    }

    /** The move constructor: take the source's pointer and block and leave the source null; no count
      * changes, the source's weak unit passes to the new handle. */
    constructor Move(r: WeakPtr)
      requires r.Valid()
      modifies r, r.cb
      ensures Valid() && r.Valid()
      ensures data == old(r.data) && cb == old(r.cb)
      ensures r.data == Null && r.cb == null
      ensures cb != null ==>
        cb.State() == old(r.cb.State()) &&
        cb.weakHolders == old(r.cb.weakHolders) - {r} + {this} &&
        cb.strongHolders == old(r.cb.strongHolders)
    {
      data, cb := r.data, r.cb;
      new;
      r.data, r.cb := Null, null;
      if cb != null {
        HolderLeaves(cb.weakHolders, r);
        cb.weakHolders := cb.weakHolders - {r} + {this};
      }
    }

    /** Move assignment: nothing on self-assignment; otherwise take the source's pointer and block and
      * leave the source null, without releasing the weak unit held before. No count changes. */
    method MoveAssign(r: WeakPtr)
      requires Valid() && r.Valid()
      modifies this, r, r.cb
      ensures Valid() && r.Valid()
      ensures this == r ==>
        data == old(data) && cb == old(cb) &&
        (cb != null ==> cb.State() == old(cb.State()) && cb.weakHolders == old(cb.weakHolders))
      ensures this != r ==> data == old(r.data) && cb == old(r.cb) && r.data == Null && r.cb == null
      ensures this != r && cb != null ==>
        cb.State() == old(r.cb.State()) &&
        cb.weakHolders == old(r.cb.weakHolders) - {r} + {this} &&
        cb.strongHolders == old(r.cb.strongHolders)
      ensures this != r && old(cb) != null && old(cb) != cb ==>
        old(cb).State() == old(cb.State()) && old(cb).weakHolders == old(cb.weakHolders)
    {
      if this == r {
        return;
      }
      data, cb := r.data, r.cb;
      r.data, r.cb := Null, null;
      if cb != null {
        HolderLeaves(cb.weakHolders, r);
        cb.weakHolders := cb.weakHolders - {r} + {this};
      }
    }

    /** `reset()`: release one weak unit if there is a block, and become null. */
    method Reset()
      requires Valid()
      modifies this, cb
      ensures Valid() && data == Null && cb == null
      ensures UseCount() == 0 && Expired()
      ensures old(cb) != null ==>
        old(cb).Valid() &&
        old(cb).State() == ReleaseWeak(old(cb.State())) &&
        old(cb).weakHolders == old(cb.weakHolders) - {this} &&
        old(cb).strongHolders == old(cb.strongHolders)
    {
      if cb != null {
        HolderLeaves(cb.weakHolders, this);
        cb.weakHolders := cb.weakHolders - {this};
        cb.ReleaseWeakCount();
      }
      data, cb := Null, null;
    }

    /** The destructor `~weak_ptr`, which runs `reset()`. */
    method Dispose()
      requires Valid()
      modifies this, cb
      ensures Valid() && data == Null && cb == null
      ensures old(cb) != null ==>
        old(cb).Valid() &&
        old(cb).State() == ReleaseWeak(old(cb.State())) &&
        old(cb).weakHolders == old(cb.weakHolders) - {this} &&
        old(cb).strongHolders == old(cb.strongHolders)
    {
      Reset();
    }

    /** `use_count()`: the block's strong count (not the weak count), or zero without a block. It is
      * zero exactly when there is no block or the pointee has been deleted. */
    function UseCount(): (n: int)
      reads this, cb
      ensures cb == null ==> n == 0
      ensures cb != null ==> n == cb.GetRefCount()
      ensures Valid() ==> n >= 0 && (n == 0 <==> cb == null || cb.DataDestroyed())
    {
      if cb != null then cb.GetRefCount() else 0
    }

    /** `expired()`: `use_count() == 0`, that is, nothing is left to observe. */
    function Expired(): (e: bool)
      reads this, cb
      ensures e <==> UseCount() == 0
      ensures Valid() ==> (e <==> cb == null || cb.DataDestroyed())
    {
      UseCount() == 0
    }

    /** `lock()`: never throws. When expired, an empty strong handle without a block; otherwise a strong
      * handle sharing the block, with the strong count raised by one. */
    method Lock() returns (s: SharedPtr)
      requires Valid()
      modifies cb
      ensures Valid() && fresh(s) && s.Valid()
      ensures old(Expired()) ==> s.data == Null && s.cb == null && !s.ToBool()
      ensures old(Expired()) && cb != null ==>
        cb.State() == old(cb.State()) &&
        cb.strongHolders == old(cb.strongHolders) && cb.weakHolders == old(cb.weakHolders)
      ensures !old(Expired()) ==>
        cb != null && s.data == data && s.cb == cb &&
        cb.State() == AddRef(old(cb.State())) &&
        cb.strongHolders == old(cb.strongHolders) + {s} &&
        cb.weakHolders == old(cb.weakHolders)
      ensures !old(Expired()) ==> s.UseCount() == old(UseCount()) + 1 && (s.ToBool() <==> data != Null)
    {
      if Expired() {
        s := new SharedPtr.Empty();
      } else {
        var res := SharedFromWeak(this);
        s := res.value;
      }
    }
  }

  /** A registered weak holder is a weak unit besides the baseline. */
  lemma WeakHolderCount(block: ControlBlock, h: object)
    requires block.Valid() && h in block.weakHolders
    ensures block.weakCount > Baseline(block.refCount)
  {
    HolderLeaves(block.weakHolders, h);
  }

  /**
   * `shared_ptr(const weak_ptr& r)`: throws `bad_weak_ptr` exactly when `r.use_count()` is zero;
   * otherwise a strong handle sharing `r`'s block, with the strong count raised by one.
   */
  method SharedFromWeak(r: WeakPtr) returns (res: Result<SharedPtr, BadWeakPtr>)
    requires r.Valid()
    modifies r.cb
    ensures r.Valid()
    ensures res.Err? <==> old(r.UseCount()) == 0
    ensures res.Err? && r.cb != null ==>
      r.cb.State() == old(r.cb.State()) &&
      r.cb.strongHolders == old(r.cb.strongHolders) && r.cb.weakHolders == old(r.cb.weakHolders)
    ensures res.Ok? ==>
      fresh(res.value) && res.value.Valid() &&
      r.cb != null && res.value.data == r.data && res.value.cb == r.cb &&
      r.cb.State() == AddRef(old(r.cb.State())) &&
      r.cb.strongHolders == old(r.cb.strongHolders) + {res.value} &&
      r.cb.weakHolders == old(r.cb.weakHolders)
  {
    if r.UseCount() == 0 {
      return Err(BadWeakPtr);
    }
    var s := new SharedPtr.Share(r.data, r.cb);
    return Ok(s);
  }
}
