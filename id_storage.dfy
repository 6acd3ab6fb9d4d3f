/** The `IdStorage` object: a heap buffer `storage` of `storageSize` bytes,
    created lazily and grown one chunk at a time, and the base `ref` of the
    ids it hands out. Each method is proved against the functions of IdSpec. */
module Ids {
  import opened Uint
  import opened Bitmap
  import IdSpec

  /** `memcpy(dst, src, n)` on two distinct buffers. */
  method CopyBytes(src: array<bv8>, dst: array<bv8>, n: nat)
    requires n <= src.Length && n <= dst.Length && src != dst
    modifies dst
    ensures dst[..n] == src[..n]
    ensures dst[n..] == old(dst[n..])
  {
    var k := 0;
    while k < n
      invariant 0 <= k <= n
      invariant dst[..k] == src[..k]
      invariant dst[k..] == old(dst[k..])
    {
      dst[k] := src[k];
      k := k + 1;
      assert dst[..k] == dst[..k - 1] + [src[k - 1]];
    }
  }

  /** `memset(dst + from, 0, n)`. */
  method ZeroBytes(dst: array<bv8>, from: nat, n: nat)
    requires from + n <= dst.Length
    modifies dst
    ensures dst[..from] == old(dst[..from])
    ensures dst[from..from + n] == IdSpec.Zeros(n)
    ensures dst[from + n..] == old(dst[from + n..])
  {
    var k := 0;
    while k < n
      invariant 0 <= k <= n
      invariant dst[..from] == old(dst[..from])
      invariant forall j :: from <= j < from + k ==> dst[j] == 0
      invariant dst[from + k..] == old(dst[from + k..])
    {
      dst[from + k] := 0;
      k := k + 1;
    }
  }

  /** The bit loop of `Allocate` on a byte that is not full: the position
      of its lowest clear bit. */
  method FindClearBit(x: bv8) returns (bitpos: nat)
    requires x != Full
    ensures bitpos < 8 && !IsSet(x, bitpos)
    ensures forall j :: 0 <= j < bitpos ==> IsSet(x, j)
  {
    bitpos := 0;
    while IsSet(x, bitpos)
      invariant 0 <= bitpos <= LowestClear(x)
      decreases 8 - bitpos
    {
      bitpos := bitpos + 1;
    }
  }

  class IdStorage {
    var storage: array?<bv8>
    var storageSize: u16
    var ref: u16

    /** `storage` is NULL exactly when `storageSize` is 0, otherwise it holds
        `storageSize` bytes, and the size is a whole number of chunks. */
    ghost predicate Valid()
      reads this
    {
      (storage == null <==> storageSize == 0) &&
      (storage != null ==> storage.Length == storageSize as int) &&
      storageSize as int % IdSpec.MinChunkSize == 0
    }

    /** The bitmap as a sequence of bytes; empty when there is no storage. */
    ghost function Bytes(): seq<bv8>
      reads this, storage
      requires Valid()
    {
      if storage == null then [] else storage[..]
    }

    /** Id `x` is currently allocated. */
    ghost predicate InUse(x: int)
      reads this, storage
      requires Valid()
    {
      IdSpec.InUse(ref, Bytes(), x)
    }

    /** The default constructor: no storage and base 0. */
    constructor ()
      ensures Valid() && storage == null && storageSize == 0 && ref == 0
    {
      storage := null;
      storageSize := 0;
      ref := 0;
    }

    /** An id storage with base `base` and no storage yet. */
    constructor WithRef(base: u16)
      ensures Valid() && storage == null && storageSize == 0 && ref == base
    {
      storage := null;
      storageSize := 0;
      ref := base;
    }

    /** The copy constructor: a default object assigned from `other`;
        `mallocOk` says whether the buffer for the copy can be obtained. */
    constructor Copy(other: IdStorage, mallocOk: bool)
      requires other.Valid()
      ensures Valid() && ref == other.ref
      ensures other.storage == old(other.storage) && other.Bytes() == old(other.Bytes())
      ensures other.storageSize > 0 && mallocOk ==>
        fresh(storage) && storageSize == other.storageSize && Bytes() == other.Bytes()
      ensures !(other.storageSize > 0 && mallocOk) ==> storage == null && storageSize == 0
    {
      storage := null;
      storageSize := 0;
      ref := 0;
      new;
      Assign(other, mallocOk);
    }

    /** Frees the storage and forgets the base. */
    method Cleanup()
      modifies this
      ensures Valid() && storage == null && storageSize == 0 && ref == 0
    {
      storage := null;
      ref := 0;
      storageSize := 0;
    }

    /** `operator=`: clean up first, then deep-copy the bitmap of `other`
        into a new buffer (when `mallocOk`) and take its base. Assigning an
        object to itself therefore leaves it empty with base 0. */
    method Assign(other: IdStorage, mallocOk: bool)
      requires Valid() && other.Valid()
      modifies this
      ensures Valid()
      ensures other == this ==> storage == null && storageSize == 0 && ref == 0
      ensures other != this ==> ref == other.ref && other.storage == old(other.storage) && other.Bytes() == old(other.Bytes())
      ensures other != this && other.storageSize > 0 && mallocOk ==>
        fresh(storage) && storageSize == other.storageSize && Bytes() == other.Bytes()
      ensures other != this && !(other.storageSize > 0 && mallocOk) ==> storage == null && storageSize == 0
    {
      Cleanup();
      if other.storageSize > 0 {
        if mallocOk {
          storage := new bv8[other.storageSize];
          storageSize := other.storageSize;
          CopyBytes(other.storage, storage, storageSize as int);
          assert storage[..] == storage[..storageSize];
          assert other.storage[..] == other.storage[..storageSize];
        }
      }
      ref := other.ref;
    }

    /** The base id. */
    function Ref(): (r: u16)
      reads this
      ensures r == ref
    {
      ref
    }

    /** The byte loop of `Allocate`: scan the bytes from the lowest index,
        skip full ones, set the lowest clear bit of the next one, and stop
        once the id computed is not the sentinel 0. */
    method ScanBytes() returns (id: u16)
      requires Valid() && storage != null
      modifies storage
      ensures IdSpec.Scanned(id, storage[..]) == IdSpec.Scan(ref, old(storage[..]), 0)
    {
      id := 0;
      var i := 0;
      while id == 0 && i < storageSize as int
        invariant 0 <= i <= storage.Length
        invariant id == 0 ==> IdSpec.Scan(ref, storage[..], i) == IdSpec.Scan(ref, old(storage[..]), 0)
        invariant id != 0 ==> IdSpec.Scanned(id, storage[..]) == IdSpec.Scan(ref, old(storage[..]), 0)
      {
        if storage[i] == Full {
          i := i + 1;
          continue;
        }
        var bitpos := FindClearBit(storage[i]);
        storage[i] := SetBit(storage[i], bitpos);
        id := IdSpec.IdAt(ref, i, bitpos);
        i := i + 1;
      }
    }

    /** The lazy creation in `Allocate`: one chunk, zeroed by `memset`. */
    method CreateChunk()
      requires Valid() && storage == null
      modifies this
      ensures Valid() && ref == old(ref) && fresh(storage)
      ensures Bytes() == IdSpec.Zeros(IdSpec.MinChunkSize)
    {
      storage := new bv8[IdSpec.MinChunkSize];
      storageSize := IdSpec.MinChunkSize as u16;
      ZeroBytes(storage, 0, storageSize as int);
      assert storage[..] == storage[0..storageSize];
    }

    /** The growth in `Allocate`: a buffer one chunk bigger, the old bytes
        copied to its front by `memcpy`, the new chunk zeroed by `memset`. */
    method GrowChunk()
      requires Valid() && storage != null
      requires storageSize as int + IdSpec.MinChunkSize < U16Limit
      modifies this
      ensures Valid() && ref == old(ref) && fresh(storage)
      ensures Bytes() == old(Bytes()) + IdSpec.Zeros(IdSpec.MinChunkSize)
    {
      var newEph := new bv8[storageSize as int + IdSpec.MinChunkSize];
      CopyBytes(storage, newEph, storageSize as int);
      ghost var kept := storage[..];
      storage := newEph;
      storageSize := storageSize + IdSpec.MinChunkSize as u16;
      ZeroBytes(storage, storageSize as int - IdSpec.MinChunkSize, IdSpec.MinChunkSize);
      assert storage[..] == storage[..|kept|] + storage[|kept|..|kept| + IdSpec.MinChunkSize];
    }

    /** `Allocate`: creates the first chunk when there is no storage, scans
        for a free id, and when none is found grows the storage by one chunk
        and retries. `createOk` and `growOk` say whether the two allocations
        of the heap succeed; `failed` is the value stored through the
        `failed` pointer. */
    method Allocate(createOk: bool, growOk: bool) returns (id: u16, failed: bool)
      requires Valid()
      requires storageSize as int + IdSpec.MinChunkSize < U16Limit
      modifies this, storage
      ensures Valid() && ref == old(ref)
      ensures storage == old(storage) || fresh(storage)
      ensures IdSpec.Outcome(id, failed, Bytes()) == IdSpec.Allocate(ref, old(Bytes()), createOk, growOk)
      ensures !failed && IdSpec.NoWrap(ref, old(storageSize) as int + IdSpec.MinChunkSize) ==>
        !old(InUse(id as int)) && InUse(id as int) &&
        forall x :: x != id as int ==> (InUse(x) <==> old(InUse(x)))
    {
      ghost var before := Bytes();
      if storage == null {
        if !createOk {
          return 0, true;
        }
        CreateChunk();
      }
      id := ScanBytes();
      if id == 0 {
        if !growOk {
          return 0, true;
        }
        ghost var scanned := Bytes();
        GrowChunk();
        // The recursive call `Allocate(failed)`: the storage exists now, so
        // it goes straight to the scan, which finds an id.
        IdSpec.RetryFinds(ref, scanned);
        id := ScanBytes();
      }
      failed := false;
      if IdSpec.NoWrap(ref, |before| + IdSpec.MinChunkSize) {
        IdSpec.AllocateClaimsOneId(ref, before, createOk, growOk);
      }
    }

    /** `Release`: clears the bit of `id` by subtracting its value from its
        byte when that byte exists; an id whose offset from the base lies
        past the storage changes nothing. */
    method Release(id: u16)
      requires Valid()
      modifies storage
      ensures Bytes() == IdSpec.Release(ref, old(Bytes()), id)
    {
      ghost var before := Bytes();
      var offset := Trunc16(id as int - ref as int);
      var storageIdx := offset as int / 8;
      if storageIdx < storageSize as int {
        var bitpos := offset as int % 8;
        storage[storageIdx] := SubBit(storage[storageIdx], bitpos);
        assert storage[..] == before[storageIdx := SubBit(before[storageIdx], bitpos)];
      }
    }
  }

  /** The documented example run on an object with base 100. */
  method DocumentedExampleOnObject() returns (ids: seq<u16>)
    ensures ids == [100, 101, 102, 101, 103]
  {
    var s := new IdStorage.WithRef(100);
    var first := FirstThree(s);
    var rest := RecycleAndGo(s);
    ids := first + rest;
  }

  /** First part of the documented example: three allocations from a fresh
      object with base 100. */
  method FirstThree(s: IdStorage) returns (ids: seq<u16>)
    requires s.Valid() && s.ref == 100 && s.storageSize == 0
    modifies s
    ensures s.Valid() && s.ref == 100 && s.storageSize == 4 && s.Bytes() == [7, 0, 0, 0]
    ensures fresh(s.storage)
    ensures ids == [100, 101, 102]
  {
    IdSpec.DocumentedExample();
    var a, _ := s.Allocate(true, true);
    assert s.Bytes() == [1, 0, 0, 0];
    var b, _ := s.Allocate(true, true);
    assert s.Bytes() == [3, 0, 0, 0];
    var c, _ := s.Allocate(true, true);
    ids := [a, b, c];
  }

  /** Second part: `Release(101)`, then two allocations. */
  method RecycleAndGo(s: IdStorage) returns (ids: seq<u16>)
    requires s.Valid() && s.ref == 100 && s.storageSize == 4 && s.Bytes() == [7, 0, 0, 0]
    modifies s, s.storage
    ensures ids == [101, 103]
  {
    IdSpec.DocumentedExample();
    s.Release(101);
    assert s.Bytes() == [5, 0, 0, 0];
    var d, _ := s.Allocate(true, true);
    assert s.Bytes() == [7, 0, 0, 0];
    var e, _ := s.Allocate(true, true);
    ids := [d, e];
  }

  /** A copy is independent: allocating from the copy of `a` leaves the ids
      of `a` as they were. The copy allocates as `a` itself would have when
      its buffer could be obtained, and as a fresh storage with the base of
      `a` otherwise. */
  method AllocateFromCopy(a: IdStorage, mallocOk: bool, createOk: bool, growOk: bool)
    returns (b: IdStorage, id: u16, failed: bool)
    requires a.Valid() && a.storageSize as int + IdSpec.MinChunkSize < U16Limit
    ensures fresh(b) && b.Valid() && b.ref == a.ref
    ensures a.storage == old(a.storage) && a.Bytes() == old(a.Bytes())
    ensures a.storageSize > 0 && mallocOk ==>
      IdSpec.Outcome(id, failed, b.Bytes()) == IdSpec.Allocate(a.ref, a.Bytes(), createOk, growOk)
    ensures !(a.storageSize > 0 && mallocOk) ==>
      IdSpec.Outcome(id, failed, b.Bytes()) == IdSpec.Allocate(a.ref, [], createOk, growOk)
  {
    b := new IdStorage.Copy(a, mallocOk);
    id, failed := b.Allocate(createOk, growOk);
  }
}
