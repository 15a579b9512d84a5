/** The compacting, growing receive/send buffer, proved to behave as a plain byte sequence. */
module ByteBuffer {
  import opened Streaming

  const INITIAL_CAPACITY: nat := 4096
  const EXTRA_BUF_SIZE: nat := 65536

  function Max(a: nat, b: nat): nat { if a < b then b else a }

  /** Capacity and the two positions, without the stored bytes. */
  datatype Shape = Shape(cap: nat, read: nat, write: nat) {
    predicate Ok() { read <= write <= cap && INITIAL_CAPACITY <= cap }

    function Unread(): nat
      requires Ok()
    {
      write - read
    }
  }

  /** Growth by half until `need` bytes fit. */
  function Grow(size: nat, need: nat): (r: nat)
    requires 2 <= size
    ensures r >= need && r >= size
    ensures 2 * r <= Max(2 * size, 3 * need)
    decreases need - size
  {
    if size >= need then size else Grow(size * 3 / 2, need)
  }

  /** Making room for `len` more bytes: nothing, compaction, or growth. */
  function Reserve(s: Shape, len: nat): (r: Shape)
    requires s.Ok()
    ensures r.Ok() && r.Unread() == s.Unread() && r.cap - r.write >= len
  {
    if s.cap - s.write >= len then s
    else if s.cap - s.write + s.read >= len then Shape(s.cap, 0, s.Unread())
    else Shape(Grow(s.cap, s.write + len), s.read, s.write)
  }

  function Consume(s: Shape, len: nat): (r: Shape)
    requires s.Ok() && len <= s.Unread()
    ensures r.Ok() && r.Unread() == s.Unread() - len
  {
    if s.read + len == s.write then Shape(s.cap, 0, 0) else s.(read := s.read + len)
  }

  lemma Rejoin(front: Bytes, b: Bytes, n: nat)
    requires n <= |b|
    ensures (front + b[..n]) + b[n..] == front + b
  {
    assert b == b[..n] + b[n..];
  }

  class Buffer {
    var data: array<byte>
    var readPtr: nat
    var writePtr: nat

    ghost predicate Valid()
      reads this
    {
      readPtr <= writePtr <= data.Length && INITIAL_CAPACITY <= data.Length
    }

    ghost function Layout(): (s: Shape)
      requires Valid()
      reads this
      ensures s.Ok()
    {
      Shape(data.Length, readPtr, writePtr)
    }

    /** The unread bytes: what the buffer stands for. */
    ghost function Contents(): Bytes
      requires Valid()
      reads this, data
    {
      data[readPtr..writePtr]
    }

    constructor ()
      ensures Valid() && fresh(data) && Contents() == []
      ensures Layout() == Shape(4096, 0, 0)
    {
      data := new byte[INITIAL_CAPACITY](_ => 0);
      readPtr, writePtr := 0, 0;
    }

    method Readable() returns (n: nat)
      requires Valid()
      ensures n == |Contents()|
    {
      n := writePtr - readPtr;
    }

    method EnableWrite(len: nat)
      requires Valid()
      modifies this, data
      ensures Valid() && (data == old(data) || fresh(data))
      ensures Contents() == old(Contents())
      ensures Layout() == Reserve(old(Layout()), len)
      ensures data.Length - writePtr >= len
      ensures data.Length > old(data.Length) ==> old(data.Length - writePtr + readPtr) < len
    {
      var writable := data.Length - writePtr;
      if writable < len {
        if writable + readPtr >= len {
          var readable := writePtr - readPtr;
          forall i | 0 <= i < readable { data[i] := data[readPtr + i]; }
          readPtr, writePtr := 0, readable;
        } else {
          var newSize := data.Length;
          while newSize - writePtr < len
            invariant data.Length <= newSize && 2 <= newSize
            invariant Grow(newSize, writePtr + len) == Grow(data.Length, writePtr + len)
            decreases writePtr + len - newSize
          {
            newSize := newSize * 3 / 2;
          }
          var resized := new byte[newSize](_ => 0);
          forall i | 0 <= i < data.Length { resized[i] := data[i]; }
          data := resized;
        }
      }
    }

    method Append(msg: Bytes)
      requires Valid()
      modifies this, data
      ensures Valid() && (data == old(data) || fresh(data))
      ensures Contents() == old(Contents()) + msg
      ensures Layout() == var r := Reserve(old(Layout()), |msg|); r.(write := r.write + |msg|)
    {
      EnableWrite(|msg|);
      WriteTail(msg);
    }

    method MoveReadPtr(len: nat)
      requires Valid() && len <= |Contents()|
      modifies this
      ensures Valid() && data == old(data)
      ensures Contents() == old(Contents())[len..]
      ensures Layout() == Consume(old(Layout()), len)
      ensures Contents() == [] ==> readPtr == 0 && writePtr == 0
    {
      readPtr := readPtr + len;
      if readPtr == writePtr {
        readPtr, writePtr := 0, 0;
      }
    }

    /** Publishes bytes that were stored directly behind the unread ones. */
    method MoveWritePtr(len: nat)
      requires Valid() && len <= data.Length - writePtr
      modifies this
      ensures Valid() && data == old(data)
      ensures Contents() == old(Contents()) + old(data[writePtr..writePtr + len])
      ensures Layout() == old(Layout()).(write := old(writePtr) + len)
    {
      writePtr := writePtr + len;
    }

    /** The kernel's (or `memcpy`'s) store behind the unread bytes, before they are published. */
    method FillTail(bytes: Bytes)
      requires Valid() && |bytes| <= data.Length - writePtr
      modifies data
      ensures Valid() && Contents() == old(Contents())
      ensures data[writePtr..writePtr + |bytes|] == bytes
    {
      for i := 0 to |bytes|
        invariant data[..writePtr] == old(data[..writePtr])
        invariant data[writePtr..writePtr + i] == bytes[..i]
      {
        data[writePtr + i] := bytes[i];
      }
      assert Contents() == data[..writePtr][readPtr..];
    }

    /** Stores and publishes bytes that fit behind the unread ones. */
    method WriteTail(bytes: Bytes)
      requires Valid() && |bytes| <= data.Length - writePtr
      modifies this, data
      ensures Valid() && data == old(data)
      ensures Contents() == old(Contents()) + bytes
      ensures Layout() == old(Layout()).(write := old(writePtr) + |bytes|)
    {
      FillTail(bytes);
      MoveWritePtr(|bytes|);
    }

    /** One `readv` into the tail and the 64 KiB side buffer; `bytes` is what the kernel delivered. */
    method Receive(bytes: Bytes)
      requires Valid()
      modifies this, data
      ensures Valid() && (data == old(data) || fresh(data))
      ensures Contents() == old(Contents()) + bytes
    {
      var writable := data.Length - writePtr;
      if writable == 0 {
        EnableWrite(EXTRA_BUF_SIZE);
        writable := data.Length - writePtr;
      }
      if |bytes| <= writable {
        WriteTail(bytes);
      } else {
        WriteTail(bytes[..writable]);
        Append(bytes[writable..]);
        Rejoin(old(Contents()), bytes, writable);
      }
    }
  }

  // ----- capacity over whole runs -----

  datatype Op = Room(len: nat) | Push(len: nat) | Tail(len: nat) | Pop(len: nat)

  /** The callers' obligations, and: unread bytes plus requested room stay within `m`. */
  predicate Allowed(s: Shape, op: Op, m: nat)
    requires s.Ok()
  {
    match op
    case Room(len) => s.Unread() + len <= m
    case Push(len) => s.Unread() + len <= m
    case Tail(len) => len <= s.cap - s.write
    case Pop(len) => len <= s.Unread()
  }

  function Act(s: Shape, op: Op): (r: Shape)
    requires s.Ok() && (op.Tail? ==> op.len <= s.cap - s.write) && (op.Pop? ==> op.len <= s.Unread())
    ensures r.Ok()
  {
    match op
    case Room(len) => Reserve(s, len)
    case Push(len) => var r := Reserve(s, len); r.(write := r.write + len)
    case Tail(len) => s.(write := s.write + len)
    case Pop(len) => Consume(s, len)
  }

  ghost predicate Run(s: Shape, ops: seq<Op>, m: nat, end: Shape)
    requires s.Ok()
    decreases |ops|
  {
    if ops == [] then end == s
    else Allowed(s, ops[0], m) && Run(Act(s, ops[0]), ops[1..], m, end)
  }

  /** If unread plus requested bytes never exceed `m`, capacity never exceeds max(4096, 3m). */
  lemma {:induction false} CapacityBound(s: Shape, ops: seq<Op>, m: nat, end: Shape)
    requires s.Ok() && Run(s, ops, m, end)
    requires s.cap <= Max(INITIAL_CAPACITY, 3 * m)
    ensures end.cap <= 4096 || end.cap <= 3 * m
    decreases |ops|
  {
    if ops != [] {
      var op := ops[0];
      if (op.Room? || op.Push?) && s.cap - s.write + s.read < op.len && s.cap - s.write < op.len {
        assert s.cap < s.Unread() + op.len <= m;
        assert 2 * Grow(s.cap, s.write + op.len) <= Max(2 * s.cap, 3 * (s.write + op.len));
      }
      CapacityBound(Act(s, op), ops[1..], m, end);
    }
  }
}
