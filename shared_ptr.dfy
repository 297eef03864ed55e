/**
 * The strong handle `shared_ptr` (shared_ptr.hpp).
 *
 * A handle holds a cached pointee address `data` and a reference `cb` to the control block. Whether a
 * handle is empty is decided by `data` alone: a handle built over a null pointer has a block with strong
 * count 1 that it never releases, because `reset()` returns early when `data` is null.
 *
 * The promoting constructor `shared_ptr(const weak_ptr&)` lives in the WeakPointers module, because it
 * needs the weak handle's class and Dafny modules cannot depend on each other in a cycle; its success
 * path is the constructor `Share` below.
 */
module SharedPointers {
  import opened RawPointers
  import opened ControlBlocks

  /** The exception `bad_weak_ptr` thrown by a failed promotion; its message text is not modelled. */
  datatype BadWeakPtr = BadWeakPtr

  class SharedPtr {
    var data: Ptr
    var cb: ControlBlock?

    /** A handle without a block has a null pointer; a handle with a block is registered with it as a
      * strong holder, caches its pointer, and the block is valid. */
    ghost predicate Valid()
      reads this, cb
    {
      (cb == null ==> data == Null) &&
      (cb != null ==> this in cb.strongHolders && data == cb.data && cb.Valid())
    }

    /** `shared_ptr()`. */
    constructor Empty()
      ensures Valid() && data == Null && cb == null
      ensures !ToBool()
    {
      data, cb := Null, null;
    }

    /** `shared_ptr(T* ptr)`: a fresh block over `ptr`, even a null one. */
    constructor FromRaw(ptr: Ptr)
      ensures Valid() && data == ptr && cb != null && fresh(cb)
      ensures cb.data == ptr && cb.State() == Init()
      ensures cb.strongHolders == {this} && cb.weakHolders == {}
      ensures UseCount() == 1 && (ToBool() <==> ptr != Null)
    {
      data := ptr;
      cb := new ControlBlock(ptr);
      new;
      cb.strongHolders := {this};
    }

    /** Adopt `block`, whose pointer is `ptr`, and raise its strong count: the success path of the
      * promoting constructor `shared_ptr(const weak_ptr&)`. */
    constructor Share(ptr: Ptr, block: ControlBlock)
      requires block.Valid() && block.refCount >= 1 && ptr == block.data
      modifies block
      ensures Valid() && data == ptr && cb == block
      ensures block.State() == AddRef(old(block.State()))
      ensures block.strongHolders == old(block.strongHolders) + {this}
      ensures block.weakHolders == old(block.weakHolders)
    {
      data, cb := ptr, block;
      new;
      cb.AddRefCount();
      cb.strongHolders := cb.strongHolders + {this};
    }

    /** The copy constructor: share the source's block if the source's pointer is non-null, otherwise
      * stay empty without a block. */
    constructor Copy(s: SharedPtr)
      requires s.Valid()
      modifies s.cb
      ensures Valid() && s.Valid()
      ensures old(s.data) == Null ==> data == Null && cb == null
      ensures old(s.data) == Null && s.cb != null ==> unchanged(s.cb)
      ensures old(s.data) != Null ==>
        data == s.data && cb == s.cb &&
        cb.State() == AddRef(old(s.cb.State())) &&
        cb.strongHolders == old(s.cb.strongHolders) + {this} &&
        cb.weakHolders == old(s.cb.weakHolders)
    {
      data, cb := Null, null;
      new;
      if s.data != Null {
        Adopt(s);
      }
    }

    /** The move constructor: take the source's pointer and block, leave the source null; no count
      * changes, the source's unit passes to the new handle. */
    constructor Move(s: SharedPtr)
      requires s.Valid()
      modifies s, s.cb
      ensures Valid() && s.Valid()
      ensures data == old(s.data) && cb == old(s.cb)
      ensures s.data == Null && s.cb == null
      ensures cb != null ==>
        cb.State() == old(s.cb.State()) &&
        cb.strongHolders == old(s.cb.strongHolders) - {s} + {this} &&
        cb.weakHolders == old(s.cb.weakHolders)
    {
      data, cb := Null, null;
      new;
      TakeOver(s);
    }

    /** `reset()`: nothing when the pointer is null (the block, if any, is kept); otherwise release one
      * strong unit and become null. */
    method Reset()
      requires Valid()
      modifies this, cb
      ensures Valid()
      ensures old(data) == Null ==> data == old(data) && cb == old(cb) && (cb != null ==> unchanged(cb))
      ensures old(data) != Null ==>
        data == Null && cb == null &&
        old(cb).Valid() &&
        old(cb).State() == ReleaseRef(old(cb.State())) &&
        old(cb).strongHolders == old(cb.strongHolders) - {this} &&
        old(cb).weakHolders == old(cb.weakHolders)
    {
      if data == Null {
        return;
      }
      HolderLeaves(cb.strongHolders, this);
      cb.strongHolders := cb.strongHolders - {this};
      cb.ReleaseRefCount();
      data, cb := Null, null;
    }

    /** The destructor `~shared_ptr`, which runs `reset()`. */
    method Dispose()
      requires Valid()
      modifies this, cb
      ensures Valid()
      ensures old(data) == Null ==> data == old(data) && cb == old(cb) && (cb != null ==> unchanged(cb))
      ensures old(data) != Null ==>
        data == Null && cb == null &&
        old(cb).Valid() &&
        old(cb).State() == ReleaseRef(old(cb.State())) &&
        old(cb).strongHolders == old(cb.strongHolders) - {this} &&
        old(cb).weakHolders == old(cb.weakHolders)
    {
      Reset();
    }

    /** `reset(T* ptr)`: `reset()`, then a fresh block over `ptr`, even a null one. A block that the
      * handle kept because its pointer was null is left behind unreleased. */
    method ResetTo(ptr: Ptr)
      requires Valid()
      modifies this, cb
      ensures Valid() && data == ptr && fresh(cb)
      ensures cb.data == ptr && cb.State() == Init()
      ensures cb.strongHolders == {this} && cb.weakHolders == {}
      ensures old(data) == Null && old(cb) != null ==> unchanged(old(cb))
      ensures old(data) != Null ==>
        old(cb).Valid() &&
        old(cb).State() == ReleaseRef(old(cb.State())) &&
        old(cb).strongHolders == old(cb.strongHolders) - {this} &&
        old(cb).weakHolders == old(cb.weakHolders)
    {
      Reset();
      data := ptr;
      cb := new ControlBlock(ptr);
      cb.strongHolders := {this};
    }

    /** Copy assignment: nothing on self-assignment; otherwise `reset()`, then share the source's block
      * if the source's pointer is non-null. */
    method Assign(s: SharedPtr)
      requires Valid() && s.Valid()
      modifies this, cb, s.cb
      ensures Valid() && s.Valid()
      ensures this == s ==> data == old(data) && cb == old(cb) && (cb != null ==> unchanged(cb))
      // the handle's fields afterwards
      ensures this != s && old(s.data) != Null ==> data == old(s.data) && cb == old(s.cb)
      ensures this != s && old(s.data) == Null && old(data) != Null ==> data == Null && cb == null
      ensures this != s && old(s.data) == Null && old(data) == Null ==> data == old(data) && cb == old(cb)
      // the block given up, when it is not the one adopted
      ensures this != s && old(data) != Null && old(cb) != old(s.cb) ==>
        old(cb).Valid() &&
        old(cb).State() == ReleaseRef(old(cb.State())) &&
        old(cb).strongHolders == old(cb.strongHolders) - {this} &&
        old(cb).weakHolders == old(cb.weakHolders)
      ensures this != s && old(data) == Null && old(cb) != null && old(cb) != old(s.cb) ==> unchanged(old(cb))
      // the block adopted, when it is not the one given up
      ensures this != s && old(s.data) != Null && old(cb) != old(s.cb) ==>
        s.cb.State() == AddRef(old(s.cb.State())) &&
        s.cb.strongHolders == old(s.cb.strongHolders) + {this} &&
        s.cb.weakHolders == old(s.cb.weakHolders)
      ensures this != s && old(s.data) == Null && s.cb != null && old(cb) != old(s.cb) ==> unchanged(s.cb)
      // giving up and adopting the same block changes nothing in it
      ensures this != s && old(cb) == old(s.cb) && cb != null ==>
        cb.State() == old(cb.State()) &&
        cb.strongHolders == old(cb.strongHolders) && cb.weakHolders == old(cb.weakHolders)
    {
      if this == s {
        return;
      }
      if data != Null && cb == s.cb {
        // this handle and the source both hold a unit of the same block
        HolderLeaves(cb.strongHolders, this);
        assert s in cb.strongHolders - {this};
        ReleaseThenAddRef(cb.State());
        assert cb.strongHolders == cb.strongHolders - {this} + {this};
      }
      Reset();
      if s.data != Null {
        Adopt(s);
      }
    }

    /** Move assignment: nothing on self-assignment; otherwise `reset()`, then take the source's pointer
      * and block and leave the source null. The source's unit passes to this handle. */
    method MoveAssign(s: SharedPtr)
      requires Valid() && s.Valid()
      modifies this, cb, s, s.cb
      ensures Valid() && s.Valid()
      ensures this == s ==> data == old(data) && cb == old(cb) && (cb != null ==> unchanged(cb))
      ensures this != s ==> data == old(s.data) && cb == old(s.cb) && s.data == Null && s.cb == null
      // the block given up
      ensures this != s && old(data) != Null ==>
        old(cb).Valid() && old(cb).State() == ReleaseRef(old(cb.State()))
      ensures this != s && old(data) != Null && old(cb) != old(s.cb) ==>
        old(cb).strongHolders == old(cb.strongHolders) - {this} &&
        old(cb).weakHolders == old(cb.weakHolders)
      ensures this != s && old(data) == Null && old(cb) != null && old(cb) != old(s.cb) ==> unchanged(old(cb))
      // the block taken over: its counts are untouched unless `reset()` released a unit of it
      ensures this != s && cb != null && (old(data) == Null || old(cb) != cb) ==> cb.State() == old(s.cb.State())
      ensures this != s && cb != null ==>
        cb.strongHolders == old(s.cb.strongHolders) - {s} + {this} &&
        cb.weakHolders == old(s.cb.weakHolders)
    {
      if this == s {
        return;
      }
      Reset();
      TakeOver(s);
    }

    /** The common step of copy construction and copy assignment: overwrite both fields with the
      * source's, whose pointer is non-null, and raise the strong count of its block. Whatever block
      * the fields named before is not touched. */
    method Adopt(s: SharedPtr)
      requires s.Valid() && s.data != Null && s != this
      modifies this, s.cb
      ensures Valid() && s.Valid()
      ensures data == s.data && cb == s.cb && cb == old(s.cb)
      ensures cb.State() == AddRef(old(s.cb.State()))
      ensures cb.strongHolders == old(s.cb.strongHolders) + {this}
      ensures cb.weakHolders == old(s.cb.weakHolders)
    {
      data, cb := s.data, s.cb;
      HolderCount(cb, s);
      cb.AddRefCount();
      cb.strongHolders := cb.strongHolders + {this};
    }

    /** The common step of move construction and move assignment: overwrite both fields with the
      * source's and leave the source null; the source's unit passes to this handle and no count
      * changes. Whatever block the fields named before is not touched. */
    method TakeOver(s: SharedPtr)
      requires s.Valid() && s != this
      modifies this, s, s.cb
      ensures Valid() && s.Valid()
      ensures data == old(s.data) && cb == old(s.cb) && s.data == Null && s.cb == null
      ensures cb != null ==>
        cb.State() == old(s.cb.State()) &&
        cb.strongHolders == old(s.cb.strongHolders) - {s} + {this} &&
        cb.weakHolders == old(s.cb.weakHolders)
    {
      data, cb := s.data, s.cb;
      s.data, s.cb := Null, null;
      if cb != null {
        HolderLeaves(cb.strongHolders, s);
        cb.strongHolders := cb.strongHolders - {s} + {this};
      }
    }

    /** `get()`: the cached pointer; when it is non-null the pointee has not been deleted. */
    function Get(): (p: Ptr)
      reads this, cb
      ensures p == data
      ensures Valid() && p != Null ==> cb != null && !cb.DataDestroyed()
    {
      data
    }

    /** `use_count()`: the block's strong count, read without a null check on `cb`. A handle that has a
      * block counts at least itself. */
    function UseCount(): (n: int)
      requires cb != null
      reads this, cb
      ensures n == cb.GetRefCount()
      ensures Valid() ==> n >= 1
    {
      cb.GetRefCount()
    }

    /** `operator bool`: whether `get()` is non-null; a true handle has a live pointee. */
    function ToBool(): (b: bool)
      reads this, cb
      ensures b <==> Get() != Null
      ensures Valid() && b ==> cb != null && cb.refCount >= 1 && !cb.DataDestroyed()
    {
      Get() != Null
    }
  }

  /** A registered strong holder guarantees a strong count of at least one. */
  lemma HolderCount(block: ControlBlock, h: object)
    requires block.Valid() && h in block.strongHolders
    ensures block.refCount >= 1
  {
    HolderLeaves(block.strongHolders, h);
  }
}
