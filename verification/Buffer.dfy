/** The growable byte buffer of src/Buffer.h and src/Buffer.cc. */
module Buffers {
  import Sequences

  newtype Byte = x: int | 0 <= x < 256

  const CHEAP_PREPEND: nat := 8
  const INITIAL_SIZE: nat := 1024
  const EXTRA_BUF_SIZE: nat := 65536

  function Min(a: nat, b: nat): nat { if a <= b then a else b }

  function Max(a: nat, b: nat): nat { if a <= b then b else a }

  // ---------------------------------------------------------------------------------------------
  // Geometry: the vector size and the two indices, without the bytes.

  datatype Shape = Shape(size: nat, reader: nat, writer: nat) {
    predicate Ok() { CHEAP_PREPEND <= reader <= writer <= size }

    function Readable(): nat requires Ok() { writer - reader }

    function Writable(): nat requires Ok() { size - writer }
  }

  function InitialShape(initialSize: nat): (s: Shape)
    ensures s.Ok() && s.Readable() == 0 && s.Writable() == initialSize
  {
    Shape(CHEAP_PREPEND + initialSize, CHEAP_PREPEND, CHEAP_PREPEND)
  }

  /** `ensureWriteableBytes`, with the two branches of `makeSpace`. */
  function AfterReserve(s: Shape, len: nat): (t: Shape)
    requires s.Ok()
    ensures t.Ok() && t.Writable() >= len && t.Readable() == s.Readable() && t.size >= s.size
    ensures t.size > s.size ==> t.Writable() == len && t.reader == s.reader
  {
    if s.Writable() >= len then s
    else if s.Writable() + s.reader < len + CHEAP_PREPEND then s.(size := s.writer + len)
    else s.(reader := CHEAP_PREPEND, writer := CHEAP_PREPEND + s.Readable())
  }

  function AfterAppend(s: Shape, len: nat): (t: Shape)
    requires s.Ok()
    ensures t.Ok() && t.Readable() == s.Readable() + len && t.size >= s.size
  {
    var r := AfterReserve(s, len);
    r.(writer := r.writer + len)
  }

  function AfterRetrieve(s: Shape, len: nat): (t: Shape)
    requires s.Ok()
    ensures t.Ok() && t.size == s.size && t.Readable() == s.Readable() - Min(len, s.Readable())
  {
    if len < s.Readable() then s.(reader := s.reader + len)
    else s.(reader := CHEAP_PREPEND, writer := CHEAP_PREPEND)
  }

  /** `readFd` when the kernel delivered `n` bytes. */
  function AfterReadFd(s: Shape, n: nat): (t: Shape)
    requires s.Ok()
    ensures t.Ok() && t.Readable() == s.Readable() + n && t.size >= s.size
  {
    if n <= s.Writable() then s.(writer := s.writer + n)
    else AfterAppend(s.(writer := s.size), n - s.Writable())
  }

  /** How much one `readv` can deliver: the tail alone, or the tail and the 64 KiB stack block. */
  function IovCapacity(writable: nat): (cap: nat)
    ensures writable <= cap <= Max(writable, 131071) && cap >= 65536
  {
    if writable < EXTRA_BUF_SIZE then writable + EXTRA_BUF_SIZE else writable
  }

  // ---------------------------------------------------------------------------------------------
  // The class.

  /** What the kernel has for one `readv`: the bytes it would hand over, or an error. */
  datatype ReadOutcome = Delivered(bytes: seq<Byte>) | ReadFailed(errno: int) {
    /** A `readv` never delivers more than the blocks it is given can hold. */
    function Clip(cap: nat): ReadOutcome {
      if Delivered? && |bytes| > cap then Delivered(bytes[..cap]) else this
    }
  }

  /** What the kernel answers to one `write`: it took up to `n` bytes, or failed. */
  datatype Errno = EWouldBlock | EPipe | EConnReset | EOther

  datatype WriteOutcome = Wrote(n: nat) | WriteFailed(errno: Errno) {
    /** A `write` never takes more than it is given. */
    function Taken(len: nat): nat { if Wrote? then Min(n, len) else 0 }
  }

  /** Forward copy within one array, the `std::copy` of `makeSpace`; its standard forbids a
      destination inside the source range, which would overwrite bytes before they are read. */
  method CopyForward(a: array<Byte>, first: nat, last: nat, dst: nat)
    requires first <= last <= a.Length && dst + (last - first) <= a.Length
    requires !(first <= dst < last)
    modifies a
    ensures a[..] == old(a[..dst]) + old(a[first..last]) + old(a[dst + (last - first)..])
  {
    var n := last - first;
    ghost var before := a[..];
    var i := 0;
    while i < n
      invariant 0 <= i <= n
      invariant forall k :: dst <= k < dst + i ==> a[k] == before[k - dst + first]
      invariant forall k :: first + i <= k < last ==> a[k] == before[k]
      invariant forall k :: 0 <= k < dst || dst + n <= k < a.Length ==> a[k] == before[k]
    {
      a[dst + i] := a[first + i];
      i := i + 1;
    }
  }

  /** One `write` of the `len` bytes found at `start`: the kernel takes a prefix of them or fails. */
  method SysWrite(a: array<Byte>, start: nat, len: nat, kernel: WriteOutcome) returns (n: int, ghost taken: seq<Byte>)
    requires start + len <= a.Length
    ensures n == if kernel.Wrote? then kernel.Taken(len) else -1
    ensures taken == a[start..start + kernel.Taken(len)]
  {
    n := if kernel.Wrote? then kernel.Taken(len) else -1;
    taken := a[start..start + kernel.Taken(len)];
  }

  class Buffer {
    var buffer: array<Byte>
    var readerIndex: nat
    var writerIndex: nat

    ghost predicate Valid()
      reads this
    {
      GetShape().Ok()
    }

    ghost function GetShape(): Shape
      reads this
    {
      Shape(buffer.Length, readerIndex, writerIndex)
    }

    /** The readable bytes: all a client of the buffer sees. */
    ghost function Content(): seq<Byte>
      requires Valid()
      reads this, buffer
    {
      buffer[readerIndex..writerIndex]
    }

    constructor (initialSize: nat := INITIAL_SIZE)
      ensures Valid() && fresh(buffer)
      ensures GetShape() == InitialShape(initialSize) && Content() == []
    {
      buffer := new Byte[CHEAP_PREPEND + initialSize](_ => 0);
      readerIndex := CHEAP_PREPEND;
      writerIndex := CHEAP_PREPEND;
    }

    method ReadableBytes() returns (n: nat)
      requires Valid()
      ensures n == |Content()|
    {
      n := writerIndex - readerIndex;
    }

    method RetrieveAll()
      requires Valid()
      modifies this
      ensures Valid() && buffer == old(buffer)
      ensures GetShape() == AfterRetrieve(old(GetShape()), |old(Content())|) && Content() == []
    {
      readerIndex := CHEAP_PREPEND;
      writerIndex := CHEAP_PREPEND;
    }

    method Retrieve(len: nat)
      requires Valid()
      modifies this
      ensures Valid() && buffer == old(buffer)
      ensures GetShape() == AfterRetrieve(old(GetShape()), len)
      ensures Content() == old(Content())[Min(len, |old(Content())|)..]
    {
      if len < writerIndex - readerIndex {
        readerIndex := readerIndex + len;
      } else {
        RetrieveAll();
      }
    }

    /** Only bytes inside the vector may be read. What is returned followed by what is left is the
        old content exactly when no more is asked for than is readable. */
    method RetrieveAsString(len: nat) returns (result: seq<Byte>)
      requires Valid() && readerIndex + len <= buffer.Length
      modifies this
      ensures Valid() && buffer == old(buffer)
      ensures GetShape() == AfterRetrieve(old(GetShape()), len)
      ensures result == old(buffer[readerIndex..readerIndex + len])
      ensures result + Content() == old(Content()) <==> len <= |old(Content())|
    {
      result := buffer[readerIndex..readerIndex + len];
      Retrieve(len);
      assert |result + Content()| == len + |Content()|;
    }

    method RetrieveAllAsString() returns (result: seq<Byte>)
      requires Valid()
      modifies this
      ensures Valid() && buffer == old(buffer)
      ensures GetShape() == AfterRetrieve(old(GetShape()), |old(Content())|)
      ensures result == old(Content()) && Content() == []
    {
      var n := ReadableBytes();
      result := RetrieveAsString(n);
    }

    /** `makeSpace`, reached only when the tail is too short; in the compaction branch the
        destination is then strictly below the source. */
    method MakeSpace(len: nat)
      requires Valid() && GetShape().Writable() < len
      modifies this, buffer
      ensures Valid() && (buffer == old(buffer) || fresh(buffer))
      ensures GetShape() == AfterReserve(old(GetShape()), len) && Content() == old(Content())
    {
      if buffer.Length - writerIndex + readerIndex < len + CHEAP_PREPEND {
        // std::vector::resize keeps the old elements and zero-fills the new ones
        var previous := buffer;
        var n := previous.Length;
        var bigger := new Byte[writerIndex + len](i requires 0 <= i reads previous =>
                                                    if i < previous.Length then previous[i] else 0);
        buffer := bigger;
        assert forall k :: readerIndex <= k < writerIndex ==> bigger[k] == previous[k];
      } else {
        var readable := writerIndex - readerIndex;
        assert CHEAP_PREPEND < readerIndex;
        CopyForward(buffer, readerIndex, writerIndex, CHEAP_PREPEND);
        readerIndex := CHEAP_PREPEND;
        writerIndex := readerIndex + readable;
      }
    }

    method EnsureWriteableBytes(len: nat)
      requires Valid()
      modifies this, buffer
      ensures Valid() && (buffer == old(buffer) || fresh(buffer))
      ensures GetShape() == AfterReserve(old(GetShape()), len) && Content() == old(Content())
    {
      if buffer.Length - writerIndex < len {
        MakeSpace(len);
      }
    }

    method Append(data: seq<Byte>)
      requires Valid()
      modifies this, buffer
      ensures Valid() && (buffer == old(buffer) || fresh(buffer))
      ensures GetShape() == AfterAppend(old(GetShape()), |data|)
      ensures Content() == old(Content()) + data
    {
      EnsureWriteableBytes(|data|);
      WriteTail(data);
      AdvanceWriter(|data|);
    }

    /** Fills the tail starting at `beginWrite()`. */
    method WriteTail(data: seq<Byte>)
      requires Valid() && |data| <= GetShape().Writable()
      modifies buffer
      ensures Content() == old(Content())
      ensures buffer[writerIndex..writerIndex + |data|] == data
    {
      var i := 0;
      while i < |data|
        invariant 0 <= i <= |data|
        invariant Content() == old(Content())
        invariant buffer[writerIndex..writerIndex + i] == data[..i]
      {
        buffer[writerIndex + i] := data[i];
        i := i + 1;
      }
    }

    /** `readv` fills the first block before it touches the second. */
    method Readv(iovcnt: nat, offered: ReadOutcome) returns (n: int, extrabuf: seq<Byte>)
      requires Valid() && (iovcnt == 1 || iovcnt == 2)
      modifies buffer
      ensures Content() == old(Content())
      ensures offered.ReadFailed? ==> n < 0 && extrabuf == []
      ensures offered.Delivered? ==>
                var writable := GetShape().Writable();
                var read := offered.Clip(writable + if iovcnt == 2 then EXTRA_BUF_SIZE else 0);
                var here := Min(|read.bytes|, writable);
                && n == |read.bytes|
                && buffer[writerIndex..writerIndex + here] == read.bytes[..here]
                && extrabuf == read.bytes[here..]
                && |extrabuf| <= EXTRA_BUF_SIZE
                && (iovcnt == 1 ==> extrabuf == [])
    {
      if offered.ReadFailed? {
        return -1, [];
      }
      var writable := buffer.Length - writerIndex;
      var read := offered.Clip(writable + if iovcnt == 2 then EXTRA_BUF_SIZE else 0);
      var here := Min(|read.bytes|, writable);
      WriteTail(read.bytes[..here]);
      n := |read.bytes|;
      extrabuf := read.bytes[here..];
    }

    /** `readFd` is an append of what the kernel delivered, however it was split, and delivers no
        more than one tail and one stack block; an error leaves the content alone. The value the
        callers use is returned. */
    method ReadFd(offered: ReadOutcome) returns (n: int, ghost read: ReadOutcome)
      requires Valid()
      modifies this, buffer
      ensures Valid() && (buffer == old(buffer) || fresh(buffer))
      ensures read == offered.Clip(IovCapacity(old(GetShape().Writable())))
      ensures offered.ReadFailed? ==> read == offered
      ensures offered.Delivered? && |offered.bytes| <= 65536 ==> read == offered
      ensures offered.Delivered? ==>
                var tail := old(buffer.Length - writerIndex);
                && read.Delivered? && read.bytes <= offered.bytes
                && |read.bytes| == Min(|offered.bytes|, if tail < 65536 then tail + 65536 else tail)
      ensures read.ReadFailed? ==> n < 0 && Content() == old(Content()) && GetShape() == old(GetShape())
      ensures read.Delivered? ==> n == |read.bytes| && Content() == old(Content()) + read.bytes
      ensures read.Delivered? ==> GetShape() == AfterReadFd(old(GetShape()), |read.bytes|)
    {
      var writable := buffer.Length - writerIndex;
      var iovcnt := if writable < EXTRA_BUF_SIZE then 2 else 1;
      read := offered.Clip(IovCapacity(writable));
      var extrabuf: seq<Byte>;
      n, extrabuf := Readv(iovcnt, offered);
      if n >= 0 {
        if n <= writable {
          AdvanceWriter(n);
          assert read.bytes[..n] == read.bytes;
        } else {
          assert read.bytes == read.bytes[..writable] + read.bytes[writable..];
          AppendOverflow(read.bytes[..writable], extrabuf);
        }
      }
    }

    method AdvanceWriter(n: nat)
      requires Valid() && n <= GetShape().Writable()
      modifies this`writerIndex
      ensures Valid() && writerIndex == old(writerIndex) + n
      ensures Content() == old(Content()) + old(buffer[writerIndex..writerIndex + n])
    {
      writerIndex := writerIndex + n;
    }

    /** The branch of `readFd` for a filled tail: the bytes in the stack block are appended. */
    method AppendOverflow(ghost tail: seq<Byte>, extrabuf: seq<Byte>)
      requires Valid() && buffer[writerIndex..] == tail
      modifies this, buffer
      ensures Valid() && (buffer == old(buffer) || fresh(buffer))
      ensures Content() == old(Content()) + (tail + extrabuf)
      ensures GetShape() == AfterAppend(old(GetShape()).(writer := old(buffer.Length)), |extrabuf|)
    {
      AdvanceWriter(buffer.Length - writerIndex);
      Append(extrabuf);
      assert old(Content()) + tail + extrabuf == old(Content()) + (tail + extrabuf);
    }

    /** `writeFd` offers the whole content, from `peek()` on, and does not consume it. */
    method WriteFd(kernel: WriteOutcome) returns (n: int, ghost taken: seq<Byte>)
      requires Valid()
      ensures n == if kernel.Wrote? then kernel.Taken(|Content()|) else -1
      ensures taken == Content()[..kernel.Taken(|Content()|)]
    {
      n, taken := SysWrite(buffer, readerIndex, writerIndex - readerIndex, kernel);
    }
  }

  // ---------------------------------------------------------------------------------------------
  // Whole runs.

  datatype BufferOp =
    | AppendOp(data: seq<Byte>)
    | ReadFdOp(bytes: seq<Byte>)
    | RetrieveOp(len: nat)
    | ReserveOp(len: nat)

  /** What a run sees of a buffer: its geometry and its content. */
  datatype BufferState = BufferState(shape: Shape, content: seq<Byte>) {
    ghost predicate Ok() { shape.Ok() && shape.Readable() == |content| }
  }

  function Put(op: BufferOp): seq<Byte> {
    match op
    case AppendOp(data) => data
    case ReadFdOp(bytes) => bytes
    case RetrieveOp(_) => []
    case ReserveOp(_) => []
  }

  function Took(s: BufferState, op: BufferOp): seq<Byte> {
    if op.RetrieveOp? then s.content[..Min(op.len, |s.content|)] else []
  }

  function BufferStep(s: BufferState, op: BufferOp): (t: BufferState)
    requires s.Ok()
    ensures t.Ok()
  {
    match op
    case AppendOp(data) => BufferState(AfterAppend(s.shape, |data|), s.content + data)
    case ReadFdOp(bytes) => BufferState(AfterReadFd(s.shape, |bytes|), s.content + bytes)
    case RetrieveOp(len) => BufferState(AfterRetrieve(s.shape, len), s.content[Min(len, |s.content|)..])
    case ReserveOp(len) => BufferState(AfterReserve(s.shape, len), s.content)
  }

  function BufferRun(s: BufferState, ops: seq<BufferOp>): (t: BufferState)
    requires s.Ok()
    ensures t.Ok()
    decreases |ops|
  {
    if ops == [] then s else BufferRun(BufferStep(s, ops[0]), ops[1..])
  }

  function AllPut(ops: seq<BufferOp>): seq<Byte> {
    if ops == [] then [] else Put(ops[0]) + AllPut(ops[1..])
  }

  function AllTaken(s: BufferState, ops: seq<BufferOp>): seq<Byte>
    requires s.Ok()
    decreases |ops|
  {
    if ops == [] then [] else Took(s, ops[0]) + AllTaken(BufferStep(s, ops[0]), ops[1..])
  }

  lemma StepIsFifo(s: BufferState, op: BufferOp)
    requires s.Ok()
    ensures Took(s, op) + BufferStep(s, op).content == s.content + Put(op)
  {
  }

  /** A first-in first-out byte queue: over any run, what was taken followed by what is left is
      what was there followed by what was put, and the indices stay ordered. */
  lemma {:induction false} BufferIsFifo(s: BufferState, ops: seq<BufferOp>)
    requires s.Ok()
    ensures AllTaken(s, ops) + BufferRun(s, ops).content == s.content + AllPut(ops)
    ensures BufferRun(s, ops).shape.Ok()
    decreases |ops|
  {
    if ops != [] {
      var t := BufferStep(s, ops[0]);
      StepIsFifo(s, ops[0]);
      BufferIsFifo(t, ops[1..]);
      Sequences.Regroup(Took(s, ops[0]), AllTaken(t, ops[1..]), BufferRun(t, ops[1..]).content,
                        s.content, t.content, Put(ops[0]), AllPut(ops[1..]));
    }
  }

  /** The content, with what a reservation asks for, never exceeds `peak`. */
  ghost predicate StaysWithin(s: BufferState, ops: seq<BufferOp>, peak: nat)
    requires s.Ok()
    decreases |ops|
  {
    ops == [] ||
    (&& |BufferStep(s, ops[0]).content| + (if ops[0].ReserveOp? then ops[0].len else 0) <= peak
     && StaysWithin(BufferStep(s, ops[0]), ops[1..], peak))
  }

  function SizeBound(initialSize: nat, peak: nat): nat {
    Max(CHEAP_PREPEND + initialSize, Max(2 * peak + 6, peak + CHEAP_PREPEND))
  }

  /** An emptied buffer has been rewound. */
  predicate Rewound(s: Shape) { s.Ok() && (s.Readable() == 0 ==> s.reader == CHEAP_PREPEND) }

  lemma ReserveStaysBounded(s: Shape, len: nat, initialSize: nat, peak: nat)
    requires Rewound(s) && s.size <= SizeBound(initialSize, peak) && s.Readable() + len <= peak
    ensures Rewound(AfterReserve(s, len)) && AfterReserve(s, len).size <= SizeBound(initialSize, peak)
  {
  }

  /** Memory bound: through every mix of growth and compaction the vector never shrinks and never
      exceeds max(8 + initialSize, 2 * peak + 6, peak + 8). */
  lemma {:induction false} MemoryBound(s: BufferState, ops: seq<BufferOp>, initialSize: nat, peak: nat)
    requires s.Ok() && Rewound(s.shape) && s.shape.size <= SizeBound(initialSize, peak)
    requires StaysWithin(s, ops, peak)
    ensures s.shape.size <= BufferRun(s, ops).shape.size <= SizeBound(initialSize, peak)
    decreases |ops|
  {
    if ops != [] {
      match ops[0] {
        case AppendOp(data) => ReserveStaysBounded(s.shape, |data|, initialSize, peak);
        case ReadFdOp(bytes) =>
          if |bytes| > s.shape.Writable() {
            ReserveStaysBounded(s.shape.(writer := s.shape.size), |bytes| - s.shape.Writable(), initialSize, peak);
          }
        case ReserveOp(len) => ReserveStaysBounded(s.shape, len, initialSize, peak);
        case RetrieveOp(_) =>
      }
      MemoryBound(BufferStep(s, ops[0]), ops[1..], initialSize, peak);
    }
  }

  function Zeros(n: nat): seq<Byte> { seq(n, _ => 0) }

  /** The bound is met: some run that never holds more than `peak` bytes drives a vector that began
      no larger than peak + 7 to exactly 2 * peak + 6. */
  lemma MemoryBoundIsAttained(peak: nat) returns (ops: seq<BufferOp>)
    requires peak >= 2
    ensures var s := BufferState(InitialShape(peak - 1), []);
            StaysWithin(s, ops, peak) && BufferRun(s, ops).shape.size == 2 * peak + 6 == SizeBound(peak - 1, peak)
  {
    var s := BufferState(InitialShape(peak - 1), []);
    var a, b, c := AppendOp(Zeros(peak - 1)), RetrieveOp(peak - 2), AppendOp(Zeros(peak - 1));
    ops := [a, b, c];
    var s1 := BufferStep(s, a);
    var s2 := BufferStep(s1, b);
    var s3 := BufferStep(s2, c);
    assert s1.shape == Shape(peak + 7, 8, peak + 7);
    assert s2.shape == Shape(peak + 7, peak + 6, peak + 7);
    assert s3.shape == Shape(2 * peak + 6, peak + 6, 2 * peak + 6);
    assert ops[1..] == [b, c] && [b, c][1..] == [c] && [c][1..] == [];
    assert BufferRun(s2, [c]) == BufferRun(s3, []) == s3;
    assert BufferRun(s1, [b, c]) == s3;
    assert StaysWithin(s3, [], peak) && StaysWithin(s2, [c], peak) && StaysWithin(s1, [b, c], peak);
  }
}
