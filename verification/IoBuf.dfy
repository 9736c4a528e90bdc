/**
 PslIOBuf: a byte buffer of bounded size that is filled once and then consumed from the
 front.  `storage` and `len` stand for the GArray: resizing it changes `len` only, and the
 octets uncovered by growing are whatever the storage last held.
 */
module IoBuffer {
  import opened Common

  class IoBuf {
    const maxSize: nat
    const storage: array<byte>
    var len: nat
    var nextConsumeIndex: nat

    ghost predicate Valid()
      reads this
    {
      0 < maxSize == storage.Length && nextConsumeIndex <= len <= maxSize
    }

    /** The abstract value: the octets not yet consumed. */
    ghost function Contents(): (s: seq<byte>)
      requires Valid()
      reads this, storage
    {
      storage[nextConsumeIndex..len]
    }

    constructor (max: nat)
      requires 0 < max
      ensures Valid() && fresh(storage) && maxSize == max && Contents() == []
    {
      maxSize := max;
      storage := new byte[max](_ => 0);
      len := 0;
      nextConsumeIndex := 0;
    }

    method GetDataSize() returns (size: nat)
      requires Valid()
      ensures size == |Contents()|
    {
      size := len - nextConsumeIndex;
    }

    method IsEmpty() returns (empty: bool)
      requires Valid()
      ensures empty <==> Contents() == []
    {
      var size := GetDataSize();
      empty := size == 0;
    }

    /** What the data pointer and count give access to. */
    method GetData() returns (data: seq<byte>)
      requires Valid()
      ensures data == Contents()
    {
      data := storage[nextConsumeIndex..len];
    }

    method ResetData()
      requires Valid()
      modifies this`len, this`nextConsumeIndex
      ensures Valid() && Contents() == []
    {
      if len > 0 {
        len := 0;
      }
      nextConsumeIndex := 0;
    }

    /** Drops the old data and exposes up to `reqCnt` octets for the caller to fill. */
    method ResetSetSize(reqCnt: nat) returns (newSize: nat)
      requires Valid()
      modifies this`len, this`nextConsumeIndex
      ensures Valid() && newSize == |Contents()| == Min(reqCnt, maxSize)
    {
      len := if reqCnt <= maxSize then reqCnt else maxSize;
      nextConsumeIndex := 0;
      newSize := GetDataSize();
    }

    /** memcpy through the data pointer. */
    method FillData(src: seq<byte>)
      requires Valid() && |src| == |Contents()|
      modifies storage
      ensures Valid() && Contents() == src
    {
      forall i | 0 <= i < |src| {
        storage[nextConsumeIndex + i] := src[i];
      }
    }

    /** memmove of `cnt` octets down to the start of the storage; the two stretches may overlap. */
    method MoveToFront(from: nat, cnt: nat)
      requires from + cnt <= storage.Length
      modifies storage
      ensures storage[..cnt] == old(storage[from..from + cnt])
    {
      ghost var was := storage[from..from + cnt];
      var i := 0;
      while i < cnt
        invariant i <= cnt
        invariant forall k :: 0 <= k < i ==> storage[k] == was[k]
        invariant forall k :: from + i <= k < from + cnt ==> storage[k] == was[k - from]
      {
        storage[i] := storage[from + i];
        i := i + 1;
      }
    }

    /** Grows the data at its end, never beyond the capacity, moving it down when it must. */
    method ExtendIfPossible(reqCnt: nat) returns (newSize: nat)
      requires Valid()
      modifies this`len, this`nextConsumeIndex, storage
      ensures Valid() && old(Contents()) <= Contents()
      ensures newSize == |Contents()| == Min(|old(Contents())| + reqCnt, maxSize)
    {
      var dataSize := GetDataSize();
      var maxRes := maxSize - dataSize;
      var actualRes := if reqCnt <= maxRes then reqCnt else maxRes;
      if len + actualRes <= maxSize {
        len := len + actualRes;
      } else {
        if dataSize != 0 {
          MoveToFront(nextConsumeIndex, dataSize);
        }
        len := dataSize + actualRes;
        nextConsumeIndex := 0;
        assert storage[..dataSize] == old(Contents());
      }
      newSize := GetDataSize();
    }

    method TruncateData(keepCnt: nat)
      requires Valid() && keepCnt <= |Contents()|
      modifies this`len
      ensures Valid() && Contents() == old(Contents())[..keepCnt]
    {
      len := nextConsumeIndex + keepCnt;
    }

    method Consume(consumeCnt: nat) returns (newSize: nat)
      requires Valid() && consumeCnt <= |Contents()|
      modifies this`nextConsumeIndex
      ensures Valid() && Contents() == old(Contents())[consumeCnt..] && newSize == |Contents()|
    {
      nextConsumeIndex := nextConsumeIndex + consumeCnt;
      newSize := GetDataSize();
    }
  }
}
