/** The growable byte buffer of src/Buffer.h and src/Buffer.cpp.

    The class keeps a real array and two indices.  What a caller sees is the byte sequence
    `Contents()`; what decides reallocation and compaction is the `Geometry()`, a triple of
    numbers.  Space is bounded on geometries, over every run of operations. */
module Buffers {

  type byte = bv8

  const CHEAP_PREPEND := 8
  const INITIAL_SIZE := 1024
  /** Size of the stack area `readFd` spills into. */
  const EXTRA_BUF := 65536

  /** Length of the backing array and the two indices into it. */
  datatype Geometry = Geometry(size: nat, reader: nat, writer: nat) {
    predicate Ok() {
      CHEAP_PREPEND <= reader <= writer <= size
    }

    function Readable(): nat
      requires Ok()
    {
      writer - reader
    }

    function Writable(): nat
      requires Ok()
    {
      size - writer
    }

    /** True when `makeSpace` has to enlarge the array; otherwise it shifts the contents down. */
    predicate MustGrow(len: nat)
      requires Ok()
    {
      Writable() + reader < len + CHEAP_PREPEND
    }

    function EnsureWritable(len: nat): (g: Geometry)
      requires Ok()
      ensures g.Ok() && g.Writable() >= len && g.Readable() == Readable()
    {
      if Writable() >= len then this
      else if MustGrow(len) then this.(size := writer + len)
      else Geometry(size, CHEAP_PREPEND, CHEAP_PREPEND + Readable())
    }

    function Append(len: nat): (g: Geometry)
      requires Ok()
      ensures g.Ok() && g.Readable() == Readable() + len
    {
      var e := EnsureWritable(len);
      e.(writer := e.writer + len)
    }

    function Retrieve(len: nat): (g: Geometry)
      requires Ok()
      ensures g.Ok() && g.size == size
      ensures g.Readable() == if len < Readable() then Readable() - len else 0
    {
      if len < Readable() then this.(reader := reader + len)
      else this.(reader := CHEAP_PREPEND, writer := CHEAP_PREPEND)
    }

    /** `readFd` when the kernel delivers `n` bytes. */
    function Read(n: nat): (g: Geometry)
      requires Ok()
      ensures g.Ok() && g.Readable() == Readable() + n
    {
      if n < Writable() then this.(writer := writer + n)
      else this.(writer := size).Append(n - Writable())
    }
  }

  const FRESH := Geometry(CHEAP_PREPEND + INITIAL_SIZE, CHEAP_PREPEND, CHEAP_PREPEND)

  // ---------------------------------------------------------------- space

  datatype Op = Append(n: nat) | Read(n: nat) | Retrieve(n: nat)

  function Do(g: Geometry, op: Op): (r: Geometry)
    requires g.Ok()
    ensures r.Ok()
  {
    match op
    case Append(n) => g.Append(n)
    case Read(n) => g.Read(n)
    case Retrieve(n) => g.Retrieve(n)
  }

  /** The geometry after a run of operations on a new buffer. */
  function Run(ops: seq<Op>): (g: Geometry)
    ensures g.Ok()
  {
    if ops == [] then FRESH else Do(Run(ops[..|ops| - 1]), ops[|ops| - 1])
  }

  /** The largest number of readable bytes seen during the run. */
  function Peak(ops: seq<Op>): nat {
    if ops == [] then 0
    else
      var before := Peak(ops[..|ops| - 1]);
      var now := Run(ops).Readable();
      if now > before then now else before
  }

  /** Shifting is chosen only when the contents start strictly above the prepend area, so the
      copy always moves bytes to lower addresses and its destination is never inside its source. */
  lemma CompactionMovesDown(g: Geometry, len: nat)
    requires g.Ok() && g.Writable() < len && !g.MustGrow(len)
    ensures g.reader > CHEAP_PREPEND
    ensures g.EnsureWritable(len).size == g.size
    ensures g.EnsureWritable(len).writer < g.writer
  {
  }

  /** Reallocation happens only when the needed bytes would not fit even in a compacted array. */
  lemma GrowsOnlyWhenItMust(g: Geometry, len: nat)
    requires g.Ok()
    ensures g.EnsureWritable(len).size > g.size <==> CHEAP_PREPEND + g.Readable() + len > g.size
  {
  }

  lemma AppendBound(g: Geometry, len: nat, peak: nat)
    requires g.Ok() && g.size >= CHEAP_PREPEND + INITIAL_SIZE
    requires g.Readable() == 0 ==> g.reader == CHEAP_PREPEND
    requires g.Readable() + len <= peak
    ensures g.Append(len).size == g.size || g.Append(len).size <= 2 * peak + 6
  {
  }

  lemma {:induction false} RunShape(ops: seq<Op>)
    ensures Run(ops).size >= CHEAP_PREPEND + INITIAL_SIZE
    ensures Run(ops).Readable() == 0 ==> Run(ops).reader == CHEAP_PREPEND
    ensures Run(ops).Readable() <= Peak(ops)
  {
    if ops != [] {
      RunShape(ops[..|ops| - 1]);
    }
  }

  /** Space bound: however the buffer is used, its array is never longer than its initial 1032
      bytes or twice the largest contents it ever held plus 6. */
  lemma {:induction false} SpaceBound(ops: seq<Op>)
    ensures Run(ops).size == CHEAP_PREPEND + INITIAL_SIZE || Run(ops).size <= 2 * Peak(ops) + 6
  {
    if ops != [] {
      var before := ops[..|ops| - 1];
      SpaceBound(before);
      RunShape(before);
      RunShape(ops);
      var g := Run(before);
      match ops[|ops| - 1]
      case Append(n) => AppendBound(g, n, Peak(ops));
      case Read(n) =>
        if n >= g.Writable() {
          AppendBound(g.(writer := g.size), n - g.Writable(), Peak(ops));
        }
      case Retrieve(_) =>
    }
  }

  /** One more operation at the end of a run. */
  lemma Next(before: seq<Op>, op: Op) returns (ops: seq<Op>)
    ensures ops == before + [op]
    ensures Run(ops) == Do(Run(before), op)
    ensures Peak(ops) == if Run(ops).Readable() > Peak(before) then Run(ops).Readable() else Peak(before)
  {
    ops := before + [op];
    assert ops[..|ops| - 1] == before;
  }

  /** The bound is the least possible: a run that holds at most 1025 bytes ends with an array of
      2 * 1025 + 6. */
  lemma SpaceBoundIsTight() returns (ops: seq<Op>)
    ensures Peak(ops) == 1025 && Run(ops).size == 2 * Peak(ops) + 6
  {
    var a := Next([], Op.Append(1024));
    var b := Next(a, Op.Retrieve(1023));
    ops := Next(b, Op.Append(1024));
  }

  // ---------------------------------------------------------------- the class

  class Buffer {
    var data: array<byte>
    var reader: nat
    var writer: nat

    ghost predicate Valid()
      reads this
    {
      CHEAP_PREPEND <= reader <= writer <= data.Length
    }

    function Shape(): (g: Geometry)
      reads this
      requires Valid()
      ensures g.Ok()
    {
      Geometry(data.Length, reader, writer)
    }

    /** The readable bytes, oldest first. */
    function Contents(): (s: seq<byte>)
      reads this, data
      requires Valid()
      ensures |s| == Shape().Readable()
    {
      data[reader..writer]
    }

    /** The initial size is fixed: the source's parameter is never used. */
    constructor (initialSize: nat := INITIAL_SIZE)
      ensures Valid() && fresh(data)
      ensures Contents() == [] && Shape() == FRESH
    {
      data := new byte[CHEAP_PREPEND + INITIAL_SIZE](_ => 0);
      reader := CHEAP_PREPEND;
      writer := CHEAP_PREPEND;
    }

    method RetrieveAll()
      requires Valid()
      modifies this`reader, this`writer
      ensures Valid() && data == old(data)
      ensures Contents() == [] && Shape() == old(Shape()).Retrieve(old(Shape()).Readable())
    {
      reader := CHEAP_PREPEND;
      writer := CHEAP_PREPEND;
    }

    method Retrieve(len: nat)
      requires Valid()
      modifies this`reader, this`writer
      ensures Valid() && data == old(data)
      ensures Contents() == if len <= |old(Contents())| then old(Contents())[len..] else []
      ensures Shape() == old(Shape()).Retrieve(len)
    {
      if len < writer - reader {
        reader := reader + len;
      } else {
        RetrieveAll();
      }
    }

    /** Copies out `len` bytes from the read position, then retrieves them.  The copy needs only
        that the bytes exist in the array; they are contents when `len` is at most the readable
        length. */
    method RetrieveAsString(len: nat) returns (s: seq<byte>)
      requires Valid() && reader + len <= data.Length
      modifies this`reader, this`writer
      ensures Valid() && data == old(data)
      ensures |s| == len
      ensures len <= |old(Contents())| ==> s + Contents() == old(Contents())
      ensures len > |old(Contents())| ==> Contents() == [] && s[..|old(Contents())|] == old(Contents())
      ensures Shape() == old(Shape()).Retrieve(len)
    {
      s := data[reader..reader + len];
      assert len > writer - reader ==> s[..writer - reader] == data[reader..writer];
      Retrieve(len);
    }

    method RetrieveAllAsString() returns (s: seq<byte>)
      requires Valid()
      modifies this`reader, this`writer
      ensures Valid() && data == old(data)
      ensures s == old(Contents()) && Contents() == []
    {
      s := RetrieveAsString(writer - reader);
    }

    /** The in-place shift to lower addresses, one byte at a time; source and destination overlap
        whenever the contents are longer than the gap. */
    method ShiftDown()
      requires Valid() && reader > CHEAP_PREPEND
      modifies data
      ensures data[CHEAP_PREPEND..CHEAP_PREPEND + (writer - reader)] == old(Contents())
    {
      var n := writer - reader;
      ghost var before := Contents();
      for i := 0 to n
        invariant forall k :: CHEAP_PREPEND <= k < CHEAP_PREPEND + i ==> data[k] == before[k - CHEAP_PREPEND]
        invariant forall k :: reader + i <= k < writer ==> data[k] == before[k - reader]
      {
        data[CHEAP_PREPEND + i] := data[reader + i];
      }
    }

    method MakeSpace(len: nat)
      requires Valid() && data.Length - writer < len
      modifies this, data
      ensures Valid() && (data == old(data) || fresh(data))
      ensures Contents() == old(Contents())
      ensures Shape() == old(Shape()).EnsureWritable(len)
    {
      if (data.Length - writer) + reader < len + CHEAP_PREPEND {
        var from := data;
        var bigger := new byte[writer + len](
          i requires 0 <= i reads from => if i < from.Length then from[i] else 0);
        data := bigger;
      } else {
        var readable := writer - reader;
        ShiftDown();
        reader := CHEAP_PREPEND;
        writer := reader + readable;
      }
    }

    method EnsureWritableBytes(len: nat)
      requires Valid()
      modifies this, data
      ensures Valid() && (data == old(data) || fresh(data))
      ensures Contents() == old(Contents())
      ensures Shape() == old(Shape()).EnsureWritable(len)
    {
      if data.Length - writer < len {
        MakeSpace(len);
      }
    }

    method Append(s: seq<byte>)
      requires Valid()
      modifies this, data
      ensures Valid() && (data == old(data) || fresh(data))
      ensures Contents() == old(Contents()) + s
      ensures Shape() == old(Shape()).Append(|s|)
    {
      EnsureWritableBytes(|s|);
      CopyInto(data, writer, s);
      writer := writer + |s|;
    }

    /** What `readv` is offered: the writable tail, and the spill area when the tail is shorter
        than it. */
    function Offered(): nat
      reads this
      requires Valid()
    {
      var writable := data.Length - writer;
      if writable < EXTRA_BUF then writable + EXTRA_BUF else writable
    }

    /** Scatter read: `incoming` is what the kernel hands over in this call, at most what was
        offered.  It lands first in the tail of the array and then in the spill area. */
    method ReadFd(incoming: seq<byte>) returns (n: nat)
      requires Valid() && |incoming| <= Offered()
      modifies this, data
      ensures Valid() && (data == old(data) || fresh(data))
      ensures n == |incoming|
      ensures Contents() == old(Contents()) + incoming
      ensures Shape() == old(Shape()).Read(n)
    {
      hide Geometry.Append, Geometry.EnsureWritable, Geometry.Retrieve;
      var extrabuf := new byte[EXTRA_BUF](_ => 0);
      var writable := data.Length - writer;
      ghost var before := Contents();
      n := |incoming|;
      var direct := if n < writable then n else writable;
      CopyInto(data, writer, incoming[..direct]);
      CopyInto(extrabuf, 0, incoming[direct..]);
      assert data[reader..writer] == data[..writer][reader..] == before;
      assert data[reader..writer + direct] == data[reader..writer] + data[writer..writer + direct];
      Regroup(before, incoming, direct);
      if n < writable {
        writer := writer + n;
        assert Contents() == before + incoming[..direct];
      } else {
        writer := data.Length;
        assert Contents() == before + incoming[..direct];
        Append(extrabuf[..n - writable]);
        assert extrabuf[0..n - writable] == incoming[direct..];
      }
    }

    /** `write` from the read position: the kernel is offered the readable bytes and takes `taken` of
        them into `wire`.  Together with what is left they are the contents, which do not change, so
        retrieving `n` afterwards loses no byte. */
    method WriteFd(taken: nat) returns (n: nat, wire: seq<byte>)
      requires Valid() && taken <= writer - reader
      ensures n == |wire| == taken
      ensures wire + Contents()[n..] == Contents()
    {
      n := taken;
      wire := data[reader..reader + taken];
    }
  }

  lemma Regroup(a: seq<byte>, b: seq<byte>, k: nat)
    requires k <= |b|
    ensures a + b[..k] + b[k..] == a + b
    ensures k == |b| ==> a + b[..k] == a + b
  {
    assert b[..k] + b[k..] == b;
  }

  /** `std::copy` of a whole sequence to position `at`. */
  method CopyInto(a: array<byte>, at: nat, s: seq<byte>)
    requires at + |s| <= a.Length
    modifies a
    ensures a[at..at + |s|] == s
    ensures a[..at] == old(a[..at]) && a[at + |s|..] == old(a[at + |s|..])
  {
    for i := 0 to |s|
      invariant forall k :: 0 <= k < a.Length ==>
        a[k] == if at <= k < at + i then s[k - at] else old(a[k])
    {
      a[at + i] := s[i];
    }
  }
}
