/** The growable gap buffer of src/include/buffer.h and src/buffer.cpp.

    `Op`, `ContentsAfter` and `ShapeAfter` say what each operation means: the first for the bytes a reader
    sees, the second for the size of the storage and the two indices. The class `Buffer` is the storage
    itself, updated in place, and every method is proved against both functions. */
module Buffers {

  newtype Byte = b: int | 0 <= b < 256

  const CHEAP_PREPEND_SIZE: nat := 8
  const INITIAL_SIZE: nat := 1024
  const EXTRA_SIZE: nat := 65536

  /** The storage size and the two indices of a buffer. */
  datatype Shape = Shape(size: nat, reader: nat, writer: nat) {
    predicate Ok() {
      reader <= writer <= size && CHEAP_PREPEND_SIZE <= size
    }

    function Readable(): nat
      requires Ok()
    {
      writer - reader
    }

    function Writable(): nat
      requires Ok()
    {
      size - writer
    }
  }

  /** The operations a client performs. `ReadFd(data)` is a scatter read to which the kernel answered `data`. */
  datatype Op =
    | Append(data: seq<Byte>)
    | Prepend(data: seq<Byte>)
    | Retrieve(len: nat)
    | RetrieveAll
    | ReadFd(data: seq<Byte>)

  const INITIAL_SHAPE: Shape :=
    Shape(CHEAP_PREPEND_SIZE + INITIAL_SIZE, CHEAP_PREPEND_SIZE, CHEAP_PREPEND_SIZE)

  /** The assertion an operation makes on entry; for `ReadFd`, what readv can deliver into the two areas. */
  predicate Allowed(s: Shape, op: Op)
    requires s.Ok()
  {
    match op
    case Append(_) => true
    case Prepend(data) => |data| <= s.reader
    case Retrieve(len) => len <= s.Readable()
    case RetrieveAll => true
    case ReadFd(data) => |data| <= s.Writable() + EXTRA_SIZE
  }

  /** A buffer seen as a plain byte sequence. */
  function ContentsAfter(c: seq<Byte>, op: Op): seq<Byte> {
    match op
    case Append(data) => c + data
    case Prepend(data) => data + c
    case Retrieve(len) => if len <= |c| then c[len..] else []
    case RetrieveAll => []
    case ReadFd(data) => c + data
  }

  /** `ensureWritableBytes`: nothing, growth to exactly `writer + len`, or compaction. */
  function EnsuredShape(s: Shape, len: nat): (t: Shape)
    requires s.Ok()
    ensures t.Ok() && t.Readable() == s.Readable() && len <= t.Writable()
    ensures t.size <= s.size || t.size <= 2 * (s.Readable() + len) + 7
  {
    if len <= s.Writable() then s
    else if s.Writable() + s.reader < len + CHEAP_PREPEND_SIZE then s.(size := s.writer + len)
    else Shape(s.size, CHEAP_PREPEND_SIZE, CHEAP_PREPEND_SIZE + s.Readable())
  }

  function AppendedShape(s: Shape, len: nat): (t: Shape)
    requires s.Ok()
    ensures t.Ok() && t.Readable() == s.Readable() + len
  {
    var t := EnsuredShape(s, len);
    t.(writer := t.writer + len)
  }

  function ShapeAfter(s: Shape, op: Op): (t: Shape)
    requires s.Ok() && Allowed(s, op)
    ensures t.Ok()
  {
    match op
    case Append(data) => AppendedShape(s, |data|)
    case Prepend(data) => s.(reader := s.reader - |data|)
    case Retrieve(len) => s.(reader := s.reader + len)
    case RetrieveAll => s.(reader := CHEAP_PREPEND_SIZE, writer := CHEAP_PREPEND_SIZE)
    case ReadFd(data) =>
      if |data| <= s.Writable() then s.(writer := s.writer + |data|)
      else AppendedShape(s.(writer := s.size), |data| - s.Writable())
  }

  // ---------------------------------------------------------------------------------------------
  // Whole runs
  // ---------------------------------------------------------------------------------------------

  predicate AllAllowed(s: Shape, ops: seq<Op>)
    requires s.Ok()
    decreases |ops|
  {
    ops == [] || (Allowed(s, ops[0]) && AllAllowed(ShapeAfter(s, ops[0]), ops[1..]))
  }

  function ShapeAfterAll(s: Shape, ops: seq<Op>): (t: Shape)
    requires s.Ok() && AllAllowed(s, ops)
    ensures t.Ok()
    decreases |ops|
  {
    if ops == [] then s else ShapeAfterAll(ShapeAfter(s, ops[0]), ops[1..])
  }

  function ContentsAfterAll(c: seq<Byte>, ops: seq<Op>): seq<Byte>
    decreases |ops|
  {
    if ops == [] then c else ContentsAfterAll(ContentsAfter(c, ops[0]), ops[1..])
  }

  function Max(a: nat, b: nat): nat {
    if a < b then b else a
  }

  /** The largest readable content held at any point of a run. */
  function Peak(c: seq<Byte>, ops: seq<Op>): nat
    decreases |ops|
  {
    if ops == [] then |c| else Max(|c|, Peak(ContentsAfter(c, ops[0]), ops[1..]))
  }

  /** The two views agree: over any run the window between the indices is as long as the byte sequence. */
  lemma {:induction false} ViewsAgree(s: Shape, c: seq<Byte>, ops: seq<Op>)
    requires s.Ok() && AllAllowed(s, ops) && s.Readable() == |c|
    ensures ShapeAfterAll(s, ops).Readable() == |ContentsAfterAll(c, ops)|
    decreases |ops|
  {
    if ops != [] {
      ViewsAgree(ShapeAfter(s, ops[0]), ContentsAfter(c, ops[0]), ops[1..]);
    }
  }

  /** The storage a largest content of `held` bytes justifies. */
  function Bound(held: nat): nat {
    Max(CHEAP_PREPEND_SIZE + INITIAL_SIZE, 2 * held + 7)
  }

  /** The storage is never larger than twice the largest content ever held, plus seven bytes. */
  lemma {:induction false} MemoryBound(ops: seq<Op>)
    requires AllAllowed(INITIAL_SHAPE, ops)
    ensures ShapeAfterAll(INITIAL_SHAPE, ops).size <=
            Max(CHEAP_PREPEND_SIZE + INITIAL_SIZE, 2 * Peak([], ops) + 7)
  {
    MemoryBoundFrom(INITIAL_SHAPE, [], ops, 0);
  }

  /** One operation: the storage grows only to what the new content justifies. */
  lemma StepBound(s: Shape, op: Op)
    requires s.Ok() && Allowed(s, op)
    ensures var t := ShapeAfter(s, op); t.size <= s.size || t.size <= 2 * t.Readable() + 7
  {
  }

  lemma StepKeepsBound(s: Shape, op: Op, held: nat)
    requires s.Ok() && Allowed(s, op) && s.size <= Bound(held)
    ensures ShapeAfter(s, op).size <= Bound(Max(held, ShapeAfter(s, op).Readable()))
  {
    StepBound(s, op);
  }

  lemma {:induction false} MemoryBoundFrom(s: Shape, c: seq<Byte>, ops: seq<Op>, held: nat)
    requires s.Ok() && AllAllowed(s, ops) && s.Readable() == |c| && s.size <= Bound(held)
    ensures ShapeAfterAll(s, ops).size <= Bound(Max(held, Peak(c, ops)))
    decreases |ops|
  {
    if ops != [] {
      var t, c' := ShapeAfter(s, ops[0]), ContentsAfter(c, ops[0]);
      assert t.Readable() == |c'|;
      StepKeepsBound(s, ops[0], held);
      MemoryBoundFrom(t, c', ops[1..], Max(held, |c'|));
      PeakCoversStart(c', ops[1..]);
    }
  }

  lemma PeakCoversStart(c: seq<Byte>, ops: seq<Op>)
    ensures |c| <= Peak(c, ops)
  {
  }

  /** The bound cannot be lowered: for every peak above the initial size some run reaches it. */
  lemma MemoryBoundIsAttained(peak: nat, ops: seq<Op>)
    requires INITIAL_SIZE < peak
    requires |ops| == 3 && ops[0].Append? && ops[2].Append?
    requires |ops[0].data| == peak - 1 && ops[1] == Retrieve(peak - 1) && |ops[2].data| == peak
    ensures AllAllowed(INITIAL_SHAPE, ops)
    ensures Peak([], ops) == peak
    ensures ShapeAfterAll(INITIAL_SHAPE, ops).size == 2 * peak + 7
  {
    var s1 := Shape(peak + 7, 8, peak + 7);
    var s2 := Shape(peak + 7, peak + 7, peak + 7);
    assert ShapeAfter(INITIAL_SHAPE, ops[0]) == s1 && ShapeAfter(s1, ops[1]) == s2;
    assert ShapeAfter(s2, ops[2]).size == 2 * peak + 7;
    var last := ops[1..][1..];
    assert last == [ops[2]] && last[1..] == [];
    var s3 := ShapeAfter(s2, ops[2]);
    assert last[0] == ops[2] && AllAllowed(s3, []) && ShapeAfterAll(s3, []) == s3;
    assert AllAllowed(s2, last);
    assert ShapeAfterAll(s2, last) == ShapeAfterAll(s3, last[1..]) == s3;
    var c1 := ContentsAfter([], ops[0]);
    assert c1 == ops[0].data;
    var c2 := ContentsAfter(c1, ops[1]);
    assert c2 == [] && Peak(c2, last) == peak;
    assert Peak(c1, ops[1..]) == peak;
  }

  // ---------------------------------------------------------------------------------------------
  // shrink
  // ---------------------------------------------------------------------------------------------

  /** The storage `shrink` installs: the readable bytes at offset 8, zeros around them. */
  function ShrunkStorage(window: seq<Byte>, reserve: nat): seq<Byte> {
    seq(CHEAP_PREPEND_SIZE, _ => 0 as Byte) + window + seq(reserve, _ => 0 as Byte)
  }

  /** Whether the unchanged indices still delimit the same bytes after `shrink`. */
  predicate ShrinkKeeps(s: Shape, window: seq<Byte>, reserve: nat)
    requires s.Ok() && |window| == s.Readable()
  {
    var storage := ShrunkStorage(window, reserve);
    s.writer <= |storage| && storage[s.reader..s.writer] == window
  }

  /** `shrink` does not move the indices, so it is right exactly when the data already starts at offset 8,
      or when there is no data and the indices still fit. */
  lemma ShrinkKeepsContentsIff(s: Shape, reserve: nat)
    requires s.Ok()
    ensures (forall window: seq<Byte> | |window| == s.Readable() :: ShrinkKeeps(s, window, reserve))
            <==> (s.reader == CHEAP_PREPEND_SIZE
                  || (s.Readable() == 0 && s.reader <= CHEAP_PREPEND_SIZE + reserve))
  {
    var n := s.Readable();
    if s.reader == CHEAP_PREPEND_SIZE || (n == 0 && s.reader <= CHEAP_PREPEND_SIZE + reserve) {
      forall window: seq<Byte> | |window| == n
        ensures ShrinkKeeps(s, window, reserve)
      {
        assert ShrunkStorage(window, reserve)[s.reader..s.writer] == window;
      }
    } else {
      var marked: seq<Byte> := seq(n, i => if i == 0 then 1 else 0);
      if n != 0 && s.writer <= |ShrunkStorage(marked, reserve)| {
        assert ShrunkStorage(marked, reserve)[s.reader..s.writer][0] == 0;
      }
      assert !ShrinkKeeps(s, marked, reserve);
    }
  }

  // ---------------------------------------------------------------------------------------------
  // The class
  // ---------------------------------------------------------------------------------------------

  /** The window up to the end of bytes written behind it. */
  lemma WindowEnd(front: seq<Byte>, data: seq<Byte>, back: seq<Byte>, from: nat)
    requires from <= |front|
    ensures (front + data + back)[from..|front| + |data|] == front[from..] + data
  {
  }

  /** The window from the start of bytes written in front of it. */
  lemma WindowStart(front: seq<Byte>, data: seq<Byte>, back: seq<Byte>, len: nat)
    requires len <= |back|
    ensures (front + data + back)[|front|..|front| + |data| + len] == data + back[..len]
  {
  }

  /** What readv returned: the bytes it scattered, or -1 with errno. */
  datatype ReadResult = Received(bytes: seq<Byte>) | ReadFailed(errno: int)

  class Buffer {
    var storage: array<Byte>
    var readerIdx: nat
    var writerIdx: nat

    ghost predicate Valid()
      reads this
    {
      readerIdx <= writerIdx <= storage.Length && CHEAP_PREPEND_SIZE <= storage.Length
    }

    ghost function GetShape(): (s: Shape)
      reads this
      requires Valid()
      ensures s.Ok()
    {
      Shape(storage.Length, readerIdx, writerIdx)
    }

    /** The readable window. */
    ghost function Contents(): (c: seq<Byte>)
      reads this, storage
      requires Valid()
      ensures |c| == GetShape().Readable()
    {
      storage[readerIdx..writerIdx]
    }

    constructor ()
      ensures Valid() && fresh(storage)
      ensures GetShape() == INITIAL_SHAPE && Contents() == []
    {
      storage := new Byte[CHEAP_PREPEND_SIZE + INITIAL_SIZE](_ => 0);
      readerIdx := CHEAP_PREPEND_SIZE;
      writerIdx := CHEAP_PREPEND_SIZE;
    }

    function ReadableBytes(): nat
      reads this
      requires Valid()
    {
      writerIdx - readerIdx
    }

    function WritableBytes(): nat
      reads this
      requires Valid()
    {
      storage.Length - writerIdx
    }

    /** The bytes from `peek()` on. */
    method Peek() returns (window: seq<Byte>)
      requires Valid()
      ensures window == Contents()
    {
      window := storage[readerIdx..writerIdx];
    }

    method Retrieve(len: nat)
      requires Valid() && Allowed(GetShape(), Op.Retrieve(len))
      modifies this`readerIdx
      ensures Valid()
      ensures GetShape() == ShapeAfter(old(GetShape()), Op.Retrieve(len))
      ensures Contents() == old(Contents())[len..]
    {
      readerIdx := readerIdx + len;
    }

    method RetrieveAll()
      requires Valid()
      modifies this`readerIdx, this`writerIdx
      ensures Valid()
      ensures GetShape() == Shape(storage.Length, 8, 8) && Contents() == []
    {
      readerIdx := CHEAP_PREPEND_SIZE;
      writerIdx := CHEAP_PREPEND_SIZE;
    }

    method RetrieveAsString() returns (str: seq<Byte>)
      requires Valid()
      modifies this`readerIdx, this`writerIdx
      ensures Valid()
      ensures GetShape() == Shape(storage.Length, 8, 8)
      ensures str == old(Contents()) && Contents() == []
    {
      str := Peek();
      RetrieveAll();
    }

    /** `std::vector::resize` to a larger size: old bytes kept, new bytes zero. */
    method Resize(size: nat)
      requires Valid() && storage.Length <= size
      modifies this`storage
      ensures Valid() && fresh(storage) && storage.Length == size
      ensures storage[..old(storage.Length)] == old(storage[..])
    {
      var bigger := new Byte[size](_ => 0);
      forall i | 0 <= i < storage.Length {
        bigger[i] := storage[i];
      }
      storage := bigger;
    }

    /** `std::copy` to a lower address, lowest address first; the two ranges may overlap. */
    method CopyDown(from: nat, to: nat, n: nat)
      requires to <= from && from + n <= storage.Length
      modifies storage
      ensures storage[to..to + n] == old(storage[from..from + n])
    {
      ghost var before := storage[..];
      var i := 0;
      while i < n
        invariant i <= n
        invariant forall k :: to <= k < to + i ==> storage[k] == before[k + (from - to)]
        invariant forall k :: from + i <= k < storage.Length ==> storage[k] == before[k]
      {
        storage[to + i] := storage[from + i];
        i := i + 1;
      }
      ghost var copied := storage[to..to + n];
      forall k | 0 <= k < n
        ensures copied[k] == before[from..from + n][k]
      {
        assert copied[k] == storage[to + k] == before[from + k];
      }
    }

    /** Move the readable bytes down to offset 8. */
    method Compact()
      requires Valid() && CHEAP_PREPEND_SIZE < readerIdx
      modifies this`readerIdx, this`writerIdx, storage
      ensures Valid()
      ensures GetShape() == Shape(storage.Length, CHEAP_PREPEND_SIZE, CHEAP_PREPEND_SIZE + old(ReadableBytes()))
      ensures Contents() == old(Contents())
    {
      var readable := writerIdx - readerIdx;
      CopyDown(readerIdx, CHEAP_PREPEND_SIZE, readable);
      readerIdx := CHEAP_PREPEND_SIZE;
      writerIdx := CHEAP_PREPEND_SIZE + readable;
    }

    method MakeSpace(len: nat)
      requires Valid() && WritableBytes() < len
      modifies this, storage
      ensures Valid() && (storage == old(storage) || fresh(storage))
      ensures GetShape() == EnsuredShape(old(GetShape()), len)
      ensures Contents() == old(Contents())
    {
      if WritableBytes() + readerIdx < len + CHEAP_PREPEND_SIZE {
        Resize(writerIdx + len);
        assert forall k | readerIdx <= k < writerIdx ::
            storage[k] == storage[..old(storage.Length)][k] == old(storage[..])[k];
      } else {
        assert CHEAP_PREPEND_SIZE < readerIdx;  // the source's own assertion
        Compact();
      }
    }

    method EnsureWritableBytes(len: nat)
      requires Valid()
      modifies this, storage
      ensures Valid() && (storage == old(storage) || fresh(storage))
      ensures GetShape() == EnsuredShape(old(GetShape()), len)
      ensures Contents() == old(Contents())
    {
      if WritableBytes() < len {
        MakeSpace(len);
      }
      assert len <= WritableBytes();  // the source's own assertion
    }

    /** `std::copy` of `data` into the storage at `at`. */
    method CopyIn(at: nat, data: seq<Byte>)
      requires at + |data| <= storage.Length
      modifies storage
      ensures storage[..] == old(storage[..at]) + data + old(storage[at + |data|..])
    {
      forall i | 0 <= i < |data| {
        storage[at + i] := data[i];
      }
    }

    /** Bytes arrive at `beginWrite()`, and `hasWritten` takes them in. */
    method Fill(data: seq<Byte>)
      requires Valid() && |data| <= WritableBytes()
      modifies this`writerIdx, storage
      ensures Valid()
      ensures GetShape() == old(GetShape()).(writer := old(writerIdx) + |data|)
      ensures Contents() == old(Contents()) + data
    {
      ghost var before := storage[..];
      CopyIn(writerIdx, data);
      WindowEnd(before[..writerIdx], data, before[writerIdx + |data|..], readerIdx);
      assert before[..writerIdx][readerIdx..] == old(Contents());
      assert storage[readerIdx..writerIdx + |data|] == storage[..][readerIdx..writerIdx + |data|];
      writerIdx := writerIdx + |data|;
    }

    method Append(data: seq<Byte>)
      requires Valid()
      modifies this, storage
      ensures Valid() && (storage == old(storage) || fresh(storage))
      ensures GetShape() == ShapeAfter(old(GetShape()), Op.Append(data))
      ensures Contents() == old(Contents()) + data
    {
      EnsureWritableBytes(|data|);
      Fill(data);
    }

    method Prepend(data: seq<Byte>)
      requires Valid() && Allowed(GetShape(), Op.Prepend(data))
      modifies this`readerIdx, storage
      ensures Valid()
      ensures GetShape() == ShapeAfter(old(GetShape()), Op.Prepend(data))
      ensures Contents() == data + old(Contents())
    {
      ghost var before := storage[..];
      ghost var at, len := readerIdx, writerIdx - readerIdx;
      readerIdx := readerIdx - |data|;
      CopyIn(readerIdx, data);
      WindowStart(before[..readerIdx], data, before[at..], len);
      assert before[at..][..len] == old(Contents());
      assert storage[readerIdx..writerIdx] == storage[..][readerIdx..writerIdx];
    }

    /** `readFd`. The kernel fills the writable tail first and puts the rest into the 64 KiB stack area. */
    method ReadFd(result: ReadResult) returns (n: int, savedErrno: int)
      requires Valid()
      requires result.Received? ==> Allowed(GetShape(), Op.ReadFd(result.bytes))
      modifies this, storage
      ensures Valid() && (storage == old(storage) || fresh(storage))
      ensures result.Received? ==>
                && n == |result.bytes| && savedErrno == 0
                && GetShape() == ShapeAfter(old(GetShape()), Op.ReadFd(result.bytes))
                && Contents() == old(Contents()) + result.bytes
      ensures result.ReadFailed? ==>
                && n == -1 && savedErrno == result.errno
                && unchanged(this) && unchanged(storage)
    {
      savedErrno := 0;
      match result
      case ReadFailed(errno) =>
        n, savedErrno := -1, errno;
      case Received(bytes) =>
        n := |bytes|;
        var writable := WritableBytes();
        // the kernel fills the writable tail, then extrabuf
        Fill(if n <= writable then bytes else bytes[..writable]);
        if n > writable {
          assert bytes == bytes[..writable] + bytes[writable..];
          assert GetShape() == old(GetShape()).(writer := old(GetShape()).size);
          Append(bytes[writable..]);
        }
    }

    /** Any one operation, with its effect on both views. */
    method Perform(op: Op)
      requires Valid() && Allowed(GetShape(), op)
      modifies this, storage
      ensures Valid() && (storage == old(storage) || fresh(storage))
      ensures GetShape() == ShapeAfter(old(GetShape()), op)
      ensures Contents() == ContentsAfter(old(Contents()), op)
    {
      match op {
        case Append(data) => Append(data);
        case Prepend(data) => Prepend(data);
        case Retrieve(len) => Retrieve(len);
        case RetrieveAll => RetrieveAll();
        case ReadFd(data) => var _, _ := ReadFd(Received(data));
      }
    }

    /** Any sequence of operations a client may perform: the real storage follows the plain byte sequence and the
        indices all the way. */
    method PerformAll(ops: seq<Op>)
      requires Valid() && AllAllowed(GetShape(), ops)
      modifies this, storage
      ensures Valid() && (storage == old(storage) || fresh(storage))
      ensures GetShape() == ShapeAfterAll(old(GetShape()), ops)
      ensures Contents() == ContentsAfterAll(old(Contents()), ops)
    {
      var i := 0;
      while i < |ops|
        invariant 0 <= i <= |ops|
        invariant Valid() && (storage == old(storage) || fresh(storage))
        invariant AllAllowed(GetShape(), ops[i..])
        invariant ShapeAfterAll(GetShape(), ops[i..]) == ShapeAfterAll(old(GetShape()), ops)
        invariant ContentsAfterAll(Contents(), ops[i..]) == ContentsAfterAll(old(Contents()), ops)
      {
        assert ops[i..][0] == ops[i] && ops[i..][1..] == ops[i + 1..];
        Perform(ops[i]);
        i := i + 1;
      }
    }
  }
}
