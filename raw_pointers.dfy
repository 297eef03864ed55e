/** Raw pointers, the bookkeeping of `delete`, and the value-or-exception result used by the smart pointers. */
module RawPointers {

  /** A raw `T*`: null, or the address of a heap object named by an opaque id. */
  datatype Ptr = Null | Addr(id: nat)

  /** The objects one `delete p` destroys: nothing for a null pointer, the pointee once otherwise. */
  function Deletion(p: Ptr): (d: multiset<nat>)
    ensures p.Null? ==> d == multiset{}
    ensures p.Addr? ==> d[p.id] == 1 && |d| == 1
  {
    if p.Null? then multiset{} else multiset{p.id}
  }

  /** Either a value or the exception that was thrown instead. */
  datatype Result<+T, +E> = Ok(value: T) | Err(error: E)
}
