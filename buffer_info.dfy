/** `BufferInfo`: a buffer pointer managed elsewhere, the capacity it was
    allocated with and the length currently in use. */
module Buffers {
  import opened Uint

  /** The `byte *buf` pointer. The object owns no memory and never reads
      through the pointer, so it is kept as an opaque address. */
  datatype Pointer = Null | Address(at: nat)

  /** The length `SetLength` stores: the requested one, cut to the capacity. */
  function Clamp(newLength: u16, capacity: u16): (r: u16)
    ensures r <= capacity
    ensures newLength <= capacity ==> r == newLength
    ensures newLength > capacity ==> r == capacity
  {
    if newLength > capacity then capacity else newLength
  }

  /** Clamping twice to the same capacity is clamping once. */
  lemma ClampIdempotent(newLength: u16, capacity: u16)
    ensures Clamp(Clamp(newLength, capacity), capacity) == Clamp(newLength, capacity)
  {
  }

  class BufferInfo {
    var buf: Pointer
    var len: u16
    var capacity: u16

    /** The length never exceeds the capacity. */
    ghost predicate Valid()
      reads this
    {
      len <= capacity
    }

    /** The default object: no buffer, length and capacity 0. */
    constructor ()
      ensures Valid() && buf == Null && len == 0 && capacity == 0
    {
      buf := Null;
      len := 0;
      capacity := 0;
    }

    /** A buffer allocated elsewhere with `cap` bytes, all of them in use. */
    constructor Wrap(b: Pointer, cap: u16)
      ensures Valid() && buf == b && len == cap && capacity == cap
      ensures Buf() == b && ConstBuf() == b && Capacity() == cap && Length() == cap
    {
      buf := b;
      len := cap;
      capacity := cap;
    }

    /** The buffer pointer; `ConstBuf` is its read-only twin. */
    function Buf(): Pointer
      reads this
    {
      buf
    }

    function ConstBuf(): Pointer
      reads this
    {
      buf
    }

    /** The current length, never above the capacity. */
    function Length(): (n: u16)
      reads this
      requires Valid()
      ensures n <= Capacity()
    {
      len
    }

    /** The capacity the buffer was wrapped with. */
    function Capacity(): u16
      reads this
    {
      capacity
    }

    /** Sets the length, cut to the capacity when it would exceed it; the
        buffer and the capacity stay as they are. */
    method SetLength(newLength: u16)
      requires Valid()
      modifies this
      ensures Valid() && len == Clamp(newLength, capacity)
      ensures buf == old(buf) && capacity == old(capacity)
      ensures Buf() == old(Buf()) && Capacity() == old(Capacity())
    {
      var n := newLength;
      if n > capacity {
        n := capacity;
      }
      len := n;
    }
  }

  /** Setting the same length twice leaves the object as setting it once. */
  method SetLengthTwice(info: BufferInfo, n: u16)
    requires info.Valid()
    modifies info
    ensures info.Valid() && info.len == Clamp(n, old(info.capacity))
    ensures info.buf == old(info.buf) && info.capacity == old(info.capacity)
  {
    info.SetLength(n);
    ghost var once := info.len;
    info.SetLength(n);
    assert info.len == once;
  }
}
