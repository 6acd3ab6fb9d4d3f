# IdStorage, BufferInfo and DynamicTimeout in Dafny

A model of the identifier allocator `IdStorage` of the SearchAThing Arduino
utility library, with the two small stateful helpers `BufferInfo` and
`DynamicTimeout`, and proofs of what their code and comments promise.

`IdStorage` hands out 16-bit ids relative to a base `ref`. Bit `b` of byte
`i` of the heap buffer `storage` marks id `ref + 8*i + b` as in use.
`Allocate` scans first-fit: bytes from the lowest index, bits from the least
significant. The buffer is created lazily as one zeroed chunk of
`minChunkSize` (4) bytes. When no free bit is found it grows by exactly one
zeroed chunk and retries once. `Release` subtracts the value of the id's bit
from its byte after checking the byte index against `storageSize`.

Files:

- `uint.dfy` (module `Uint`): `uint16_t`/`unsigned int` and `unsigned long` as
  newtypes. It also holds the explicit 16-bit truncation and wrapping addition.
- `bitmap.dfy` (module `Bitmap`): the bits of one byte, the lowest clear bit,
  and what `|=` and byte subtraction do to the bits.
- `id_spec.dfy` (module `IdSpec`): the bitmap as a value. It has the byte scan
  (`Scan`), one whole `Allocate` call and `Release` as functions of the base
  and the bytes, and lemmas for first fit, growth, failure, "exactly one id
  claimed", recycling and the documented example.
- `id_storage.dfy` (module `Ids`): the class `IdStorage`. Its fields are
  `storage: array?<bv8>`, `storageSize` and `ref`. Its methods have the
  source's loops and are proved equal to the `IdSpec` functions on the bytes.
  `memcpy`/`memset` are the loops `CopyBytes`/`ZeroBytes`.
- `buffer_info.dfy` (module `Buffers`): the class `BufferInfo` and the clamp
  of `SetLength`.
- `dynamic_timeout.dfy` (module `Timeouts`): the class `DynamicTimeout`, the
  backoff step and its invariant.

How the model treats the environment:

- Heap allocation success is a boolean parameter. `Allocate` takes `createOk`
  for the first chunk and `growOk` for the grown buffer. The assignment
  operator and copy constructor take `mallocOk`. This lets both failure paths
  be stated.
- `*failed` is the returned `failed` value. A caller that passes NULL ignores it.
- The id `ref + i*8 + bitpos` is narrowed to `uint16_t` explicitly (`IdAt`).
  So the clash with the "not found" sentinel 0 is modelled. If the id
  computed is 0 the byte loop goes on and claims a bit of the next non-full
  byte too.
- With base 0, the first `Allocate` claims bit 0 of byte 0 and bit 0 of
  byte 1, and returns 8 (`IdSpec.AllocateFreshAtBaseZero`). So the first
  chunk fills up one call early: after 31 calls all 32 bits are set, and
  the 32nd call grows the storage and returns 32 (`IdSpec.BaseZeroGrowsAt32`
  proves that last step). The same clash happens at every base from 65505
  to 65535, where some bit of the first chunk narrows to id 0. With base
  65535 the second call sets two bits and returns 7
  (`IdSpec.AllocateAtTopBase`).
- A failed call leaves the bitmap unchanged only under `NoWrap`
  (`IdSpec.AllocateGrows`). Otherwise a bit whose id is the sentinel may
  be set by the scan and stay set when the growth then fails
  (`IdSpec.FailedGrowthKeepsSentinelBit`).
- `Release` computes `id - ref` in `uint16_t`. On the 16-bit target the
  operands are not promoted to a signed type, so the difference wraps
  modulo 2^16 (`IdSpec.Offset`). An id below the base therefore has an
  offset past every byte of a bitmap without wrap-around, and releasing it
  changes nothing (`IdSpec.ReleaseBelowBase`).
- The clean properties (first fit, growth, exactly one id claimed,
  recycling) are stated under `NoWrap(ref, size)`: `ref > 0` and
  `ref + 8*size <= 65536`. Under that condition no id of the bitmap wraps
  around or equals the sentinel.
- The retry after growth is the recursive call `Allocate(failed)`. It is
  modelled as a second scan. `IdSpec.RetryFinds` proves that this scan
  always finds an id, so the recursion never goes deeper and the retry
  needs no allocation oracle.
- `DynamicTimeout.Expired` takes the current time `now` and the elapsed time
  `elapsed` (the value `TimeDiff(begin, millis())` would give) as parameters.
  `timeout += timeoutBase` wraps modulo 2^16 as in the code. The backoff
  invariant is proved under `NoOverflow(timeoutBase, timeoutMax)`.

## Model

| member | source | states |
|---|---|---|
| `Uint.Add16` | DynamicTimeout.cpp:53 | 16-bit unsigned addition: the exact sum when it fits, the sum minus 2^16 otherwise |
| `Bitmap.NotFullHasClearBit` | IdStorage.cpp:114-117 | a byte other than 0xff has a clear bit, so the bit loop of a non-full byte ends |
| `Bitmap.LowestClear` | IdStorage.cpp:116-117 | the bit where `while (storage[i] & (1 << bitpos)) ++bitpos` stops: it is below 8, clear, and every lower bit is set |
| `Bitmap.OrBit` | IdStorage.cpp:118 | `|= (1 << b)`, the function `SetBit` (no contract of its own), sets bit b and keeps every other bit |
| `Bitmap.SubSetBit` | IdStorage.cpp:158 | `-= (1 << b)`, the function `SubBit` (no contract of its own): subtracting the value of a set bit clears exactly that bit |
| `Bitmap.SubClearBit` | IdStorage.cpp:158 | subtracting the value of a clear bit borrows: the bit becomes set and the byte changes |
| `IdSpec.FirstNonFull` | IdStorage.cpp:112-114 | index of the first byte from i on that is not 0xff (every byte before it is full), or the size |
| `IdSpec.ClaimAt` | IdStorage.cpp:116-120 | claiming a non-full byte sets its lowest clear bit, previously clear, and changes no other byte; the id is `IdAt`, the sum `ref + 8*i + b` narrowed by `Uint.Trunc16` (whose contract gives the value modulo 2^16) |
| `IdSpec.Scan` | IdStorage.cpp:109-121 | the byte loop keeps the bitmap's length and never changes the bytes before where it starts |
| `IdSpec.ScanFirstFit` | IdStorage.cpp:112-121 | without wrap-around the scan claims the lowest clear bit of the first non-full byte and returns its id `ref + 8*i + b`; with every byte full it returns 0 and changes nothing |
| `IdSpec.ScanNonzero` | IdStorage.cpp:112-123 | a non-full byte whose claimed id is not 0 makes the scan return a non-zero id |
| `IdSpec.RetryFinds` | IdStorage.cpp:123-144 | after one zeroed chunk is appended the scan always finds an id, so the recursive retry happens at most once |
| `IdSpec.FreshChunkFinds` | IdStorage.cpp:89-121 | the scan of a freshly created zeroed chunk always finds an id, so creation is never followed by growth |
| `IdSpec.RetryClaimsNewChunk` | IdStorage.cpp:137-144 | without wrap-around, the retry after growing an all-full bitmap claims bit 0 of the new chunk and returns `ref + 8*oldSize` |
| `IdSpec.Allocate` | IdStorage.cpp:87-150 | one call: failure exactly when the id is 0; the size stays or grows by exactly one chunk, so it never shrinks and stays a multiple of the chunk; a failed first creation leaves the bitmap empty |
| `IdSpec.ClaimMarksOneId` | IdStorage.cpp:118-120 | setting a clear bit marks exactly the id `ref + 8*j + b` in use |
| `IdSpec.AppendZerosMarksNothing` | IdStorage.cpp:137-141 | growing by zeroed bytes keeps the set of ids in use |
| `IdSpec.ClaimIsExact` | IdStorage.cpp:116-120 | setting a clear bit of a bitmap that only appends zero bytes to another claims exactly one id relative to the shorter one |
| `IdSpec.AllocateFresh` | IdStorage.cpp:89-106 | on empty storage: a failed creation gives failed, id 0 and still no storage; a successful one creates exactly one chunk; with ref > 0 the result is ref and the bitmap is [1, 0, 0, 0] |
| `IdSpec.BaseZeroGrowsAt32` | IdStorage.cpp:109-144 | with base 0 and the first chunk full, the scan finds nothing, the bitmap grows to the four full bytes followed by [1, 0, 0, 0], and the call returns 32 with success |
| `IdSpec.AllocateFreshAtBaseZero` | IdStorage.cpp:109-123 | with base 0 the first allocation sets bit 0 of bytes 0 and 1 and returns 8 |
| `IdSpec.AllocateAtTopBase` | IdStorage.cpp:112-121 | with base 65535 the id of bit 1 of byte 0 narrows to 0, so the second allocation sets that bit and bit 0 of byte 1 and returns 7 |
| `IdSpec.FailedGrowthKeepsSentinelBit` | IdStorage.cpp:112-133 | with base 0, a call on [0xfe, 0xff, 0xff, 0xff] whose growth fails returns 0 with failed but leaves bit 0 of byte 0 set |
| `IdSpec.AllocateFirstFit` | IdStorage.cpp:112-121 | without wrap-around and with a non-full byte: the result is `ref + 8*i + b` for the first non-full byte i and its lowest clear bit b, success, and the bitmap changes only in that bit |
| `IdSpec.AllocateGrows` | IdStorage.cpp:123-144 | with every byte full: on success the bitmap becomes the old bytes followed by [1, 0, 0, 0] and the result is `ref + 8*oldSize`; if the bigger buffer cannot be had the call fails with id 0 and the bitmap unchanged |
| `IdSpec.AllocateClaimsOneId` | IdStorage.cpp:112-144 | without wrap-around a successful allocation returns an id that was free, marks it in use, and leaves every other id as it was |
| `IdSpec.FreshClaimsOneId` | IdStorage.cpp:89-121 | the first allocation with ref > 0 claims exactly the id ref |
| `IdSpec.FirstFitClaimsOneId` | IdStorage.cpp:112-121 | without wrap-around, claiming a bit of an existing byte changes exactly one id from free to in use |
| `IdSpec.GrowthClaimsOneId` | IdStorage.cpp:123-144 | without wrap-around, an allocation that grows the bitmap changes exactly one id from free to in use |
| `IdSpec.Offset` | IdStorage.cpp:154 | the 16-bit unsigned `id - ref`: the plain difference when id >= ref, the difference plus 2^16 when id < ref |
| `IdSpec.Release` | IdStorage.cpp:152-159 | for every id: release keeps the size, changes nothing when the index offset/8 is not below the size, and touches no byte but that index |
| `IdSpec.ReleaseBelowBase` | IdStorage.cpp:152-159 | without wrap-around, releasing an id below the base changes nothing |
| `IdSpec.ReleaseFreesOneId` | IdStorage.cpp:154-158 | releasing an id in use frees exactly that id |
| `IdSpec.ReleaseOfFreeIdMarksIt` | IdStorage.cpp:158 | releasing an id that is already free marks it in use again and changes the byte |
| `IdSpec.DoubleReleaseExample` | IdStorage.cpp:158 | releasing the free id 100 of an all-zero byte makes the byte 0xff |
| `IdSpec.AllSetIsFull` | IdStorage.cpp:114 | a byte with all eight bits set is 0xff, so the scan skips it |
| `IdSpec.ReleaseThenAllocateRecycles` | IdStorage.h:45 | when every id from ref up to x is in use, releasing x makes the next allocation return x |
| `IdSpec.DocumentedExample` | IdStorage.h:47-54 | base 100: allocations give 100, 101, 102; after Release(101) they give 101 then 103 |
| `IdSpec.Step` | IdStorage.h:47-54 | with base 100, one allocation from a bitmap `[x, 0, 0, 0]` with x not full returns 100 plus the lowest clear bit of x and sets that bit |
| `Ids.CopyBytes` | IdStorage.cpp:137 | memcpy: the first n bytes of the destination equal the source's, the rest is unchanged |
| `Ids.ZeroBytes` | IdStorage.cpp:141 | memset: the given range becomes zero and nothing else changes |
| `Ids.FindClearBit` | IdStorage.cpp:116-117 | the `while` loop over `bitpos` on a non-full byte stops at a clear bit below 8 with every lower bit set |
| `Ids.IdStorage.constructor` | IdStorage.h:60-69 | a new object has no storage, size 0 and base 0 |
| `Ids.IdStorage.WithRef` | IdStorage.cpp:75-78 | a new object has no storage, size 0 and the given base |
| `Ids.IdStorage.Copy` | IdStorage.cpp:46-49 | copy construction is assignment into a default object: same base, and a fresh equal byte buffer when the source has storage and malloc succeeds, else no storage; the source is unchanged |
| `Ids.IdStorage.Cleanup` | IdStorage.cpp:34-40 | no storage, size 0, base 0 |
| `Ids.IdStorage.Assign` | IdStorage.cpp:51-73 | self-assignment leaves the object empty with base 0; otherwise the target gets the source's base and, when the source has storage and malloc succeeds, a fresh buffer of the same size and bytes, else no storage and size 0; the source is unchanged |
| `Ids.IdStorage.Ref` | IdStorage.cpp:85 | returns the base and reads only the object |
| `Ids.IdStorage.ScanBytes` | IdStorage.cpp:109-121 | the `for`/`while` loops leave exactly the bitmap and id that `IdSpec.Scan` gives |
| `Ids.IdStorage.CreateChunk` | IdStorage.cpp:89-106 | lazy creation: a fresh buffer of exactly one chunk, all zero; the base is unchanged |
| `Ids.IdStorage.GrowChunk` | IdStorage.cpp:125-142 | growth: a fresh buffer one chunk bigger, the old bytes as its prefix and a zero tail; the base is unchanged |
| `Ids.IdStorage.Allocate` | IdStorage.cpp:87-150 | the returned id, the failed flag and the new bytes are those of `IdSpec.Allocate`; the base is unchanged, the storage is the old buffer or a fresh one, and the size stays a multiple of the chunk; without wrap-around a successful call returns an id that was free, is in use afterwards, and every other id keeps its state |
| `Ids.IdStorage.Release` | IdStorage.cpp:152-166 | for every id, the new bytes are those of `IdSpec.Release`; no write happens outside the buffer, even with no storage |
| `Ids.DocumentedExampleOnObject` | IdStorage.h:47-54 | run on an object with base 100, the documented sequence returns 100, 101, 102, 101, 103 |
| `Ids.FirstThree` | IdStorage.h:48-51 | three allocations from a fresh base-100 object return 100, 101, 102 and leave the bitmap [7, 0, 0, 0] |
| `Ids.RecycleAndGo` | IdStorage.h:52-54 | then Release(101) and two allocations return 101 and 103 |
| `Ids.AllocateFromCopy` | IdStorage.cpp:51-73 | allocating from a copy leaves the original's bytes unchanged; it behaves as an allocation on the original's bytes when the original has storage and the copy's buffer is obtained, and otherwise as an allocation on an empty bitmap with the original's base |
| `Buffers.Clamp` | BufferInfo.cpp:48-55 | the stored length is at most the capacity, equals the request when that fits and the capacity otherwise |
| `Buffers.ClampIdempotent` | BufferInfo.cpp:46-56 | clamping twice equals clamping once |
| `Buffers.BufferInfo.constructor` | BufferInfo.h:47-53 | the default object has a null buffer, length 0 and capacity 0 |
| `Buffers.BufferInfo.Wrap` | BufferInfo.cpp:37-58 | keeps the given buffer, which `Buf` and `ConstBuf` return; length and capacity, as `Length` and `Capacity` return them, both equal the given capacity |
| `Buffers.BufferInfo.Length` | BufferInfo.cpp:57 | the current length, never above the capacity |
| `Buffers.BufferInfo.SetLength` | BufferInfo.cpp:46-56 | length becomes the request clamped to the capacity; buffer and capacity, also as `Buf` and `Capacity` return them, are unchanged; length <= capacity is kept |
| `Buffers.SetLengthTwice` | BufferInfo.cpp:46-56 | two SetLength calls with the same value leave the same state as one |
| `Timeouts.NextTimeout` | DynamicTimeout.cpp:53-54 | the timeout after an expiry is the base or at most the maximum; without overflow it is timeout + base when that is within the maximum, else the base |
| `Timeouts.NextTimeoutReachable` | DynamicTimeout.cpp:42-58 | without overflow an expiry keeps the timeout a positive multiple of the base, at least the base and at most max(base, maximum) |
| `Timeouts.NextTimeoutWithinMax` | DynamicTimeout.cpp:53-54 | with base <= maximum, an expiry never takes the timeout past the maximum, even when the addition wraps |
| `Timeouts.OverflowExample` | DynamicTimeout.cpp:53 | base 40000, maximum 50000: the 16-bit addition gives 14464, not a multiple of the base |
| `Timeouts.DynamicTimeout.constructor` | DynamicTimeout.cpp:34-40 | stores base and maximum, then resets: timeout is the base and begin is now |
| `Timeouts.DynamicTimeout.Reset` | DynamicTimeout.cpp:42-46 | begin becomes now and timeout the base; base and maximum unchanged |
| `Timeouts.DynamicTimeout.Expired` | DynamicTimeout.cpp:48-58 | true exactly when elapsed > timeout; then timeout takes the backoff step and begin becomes now; otherwise nothing changes; base and maximum never change; with base <= maximum the timeout always stays within the maximum, and without overflow it stays a multiple of the base |

## Left out

- The destructor and the real `malloc`, `free`, `memcpy` and `memset`. Allocation success is a parameter, freed memory is left to the garbage collector, and the copies are loops over arrays.
- `DPrint`/`F()` diagnostics and the `DEBUG`/`DEBUG_ASSERT` switches. They produce output only and change no state.
- `Ids.IdStorage.Release`: models the 16-bit target, where `int` is 16 bits wide and `id - ref` wraps as an unsigned value. On a target with a wider `int` the operands would be promoted to signed `int`, and an id below the base would give an index of 0 or below, then a negative index or shift. That is undefined behaviour, and this model does not cover such targets.
- `Ids.IdStorage.Allocate`: requires `storageSize + 4 < 65536`. The `uint16_t` `storageSize += minChunkSize` of a growth would otherwise wrap. No byte buffer of that size fits the target's memory anyway.
- `Ids.IdStorage.Assign`: returns nothing. The reference `*this` that `operator=` returns only serves chaining.
- `millis()` and `TimeDiff` are not part of this model. `Timeouts.DynamicTimeout.Expired` takes `now` and `elapsed` as parameters, and the model does not tie `elapsed` to `begin` and `now`.
- `Timeouts.DynamicTimeout.Expired`: that the timeout stays a multiple of the base is proved only under `NoOverflow(timeoutBase, timeoutMax)`. The 16-bit wrap itself is modelled, and `Timeouts.OverflowExample` shows what it breaks. The bound by the maximum is kept on every input.
- `BufferInfo`'s `byte *buf` is an opaque `Pointer` value that is never dereferenced. The accessors `Buf`, `ConstBuf` and `Capacity` return their fields. They have no contract of their own and appear in the contracts of `Wrap` and `SetLength`.
- Concurrency and interrupts: the code has none.
