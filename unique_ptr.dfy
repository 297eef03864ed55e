/**
 * The exclusive-ownership pointer `unique_ptr` (unique_ptr.hpp): one owning field, transferred only by
 * moving. `delete` is modelled by a ghost log of the objects the handle has deleted; `delete` of a null
 * pointer deletes nothing.
 */
module UniquePointers {
  import opened RawPointers

  class UniquePtr {
    var data: Ptr
    /** The ids of the objects this handle has deleted, each as often as it was deleted. */
    ghost var deleted: multiset<nat>

    /** `unique_ptr()`. */
    constructor Empty()
      ensures data == Null && deleted == multiset{}
      ensures !ToBool()
    {
      data := Null;
      deleted := multiset{};
    }

    /** `unique_ptr(T* ptr)`: own `ptr`. */
    constructor FromRaw(ptr: Ptr)
      ensures data == ptr && deleted == multiset{}
      ensures Get() == ptr && (ToBool() <==> ptr != Null)
    {
      data := ptr;
      deleted := multiset{};
    }

    /** The move constructor: take the source's pointer and leave the source null; nothing is deleted. */
    constructor Move(u: UniquePtr)
      modifies u
      ensures data == old(u.data) && deleted == multiset{}
      ensures u.data == Null && u.deleted == old(u.deleted)
      ensures !u.ToBool() && (ToBool() <==> old(u.ToBool()))
    {
      data := u.data;
      deleted := multiset{};
      new;
      u.data := Null;
    }

    /** Move assignment: nothing on self-assignment; otherwise delete the object owned so far (once),
      * take the source's pointer and leave the source null. */
    method MoveAssign(u: UniquePtr)
      modifies this, u
      ensures this == u ==> data == old(data) && deleted == old(deleted)
      ensures this != u ==> deleted == old(deleted) + Deletion(old(data))
      ensures this != u ==> data == old(u.data) && u.data == Null && u.deleted == old(u.deleted)
    {
      if this != u {
        deleted := deleted + Deletion(data);
        data := u.data;
        u.data := Null;
      }
    }

    /** The destructor `~unique_ptr`, which runs `reset()`: delete the owned object. */
    method Dispose()
      modifies this
      ensures deleted == old(deleted) + Deletion(old(data)) && data == Null
    {
      Reset();
    }

    /** `release()`: give up ownership without deleting anything and return the pointer. */
    method Release() returns (p: Ptr)
      modifies this
      ensures p == old(data) && data == Null && deleted == old(deleted)
      ensures !ToBool()
    {
      p := data;
      data := Null;
    }

    /** `reset(T* ptr = nullptr)`: delete the owned object (once) and own `ptr` instead. */
    method Reset(ptr: Ptr := Null)
      modifies this
      ensures deleted == old(deleted) + Deletion(old(data)) && data == ptr
    {
      deleted := deleted + Deletion(data);
      data := ptr;
    }

    /** `get()`: the owned pointer. */
    function Get(): (p: Ptr)
      reads this
      ensures p == data
    {
      data
    }

    /** `operator bool`: whether the owned pointer is non-null. */
    function ToBool(): (b: bool)
      reads this
      ensures b <==> data != Null
    {
      data != Null
    }
  }

  /** `operator==`: whether two handles hold the same pointer. Handles that compare equal agree on
    * `operator bool`. */
  function Equal(u1: UniquePtr, u2: UniquePtr): (b: bool)
    reads u1, u2
    ensures b <==> u1.Get() == u2.Get()
    ensures b ==> (u1.ToBool() <==> u2.ToBool())
  {
    u1.Get() == u2.Get()
  }
}
