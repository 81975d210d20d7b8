/**
 The input/output buffer of a connection: a gap buffer kept in one vector,
 with eight spare bytes in front, that compacts before it grows.

 `Layout` is the arithmetic of the three indices; `Buffer` is the class itself,
 whose methods are proved against the byte sequence it stands for (`Contents`)
 and against `Layout`.
 */
module Buffers {
  import opened Basics

  const CHEAP_PREPEND: nat := 8
  const INITIAL_SIZE: nat := 1024
  const EXTRA_BUF_SIZE: nat := 65536

  // ---------------------------------------------------------------------------
  // Index arithmetic
  // ---------------------------------------------------------------------------

  datatype Layout = Layout(size: nat, reader: nat, writer: nat) {
    predicate Ordered() {
      reader <= writer <= size && CHEAP_PREPEND <= size
    }

    function Readable(): (n: nat)
      requires Ordered()
    {
      writer - reader
    }

    function Writable(): (n: nat)
      requires Ordered()
    {
      size - writer
    }

    /** The layout after room for `len` more bytes was made behind the writer. */
    function Ensured(len: nat): (l: Layout)
      requires Ordered()
      ensures l.Ordered() && l.Readable() == Readable() && l.Writable() >= len
    {
      if Writable() >= len then this
      else if Writable() + reader < len + CHEAP_PREPEND then Layout(writer + len, reader, writer)
      else Layout(size, CHEAP_PREPEND, CHEAP_PREPEND + Readable())
    }

    function Appended(len: nat): (l: Layout)
      requires Ordered()
      ensures l.Ordered() && l.Readable() == Readable() + len
    {
      var l := Ensured(len);
      l.(writer := l.writer + len)
    }
  }

  const INITIAL: Layout := Layout(CHEAP_PREPEND + INITIAL_SIZE, CHEAP_PREPEND, CHEAP_PREPEND)

  datatype Op =
    | Append(len: nat)
    | Retrieve(len: nat)
    | RetrieveAll
    | Prepend(len: nat)
    | ReadFd(n: nat)

  /** What the buffer's own asserts, and readv for its two areas, demand of a call. */
  predicate Allowed(l: Layout, op: Op)
    requires l.Ordered()
  {
    match op
    case Retrieve(len) => len <= l.Readable()
    case Prepend(len) => len <= l.reader
    case ReadFd(n) => n <= l.Writable() + EXTRA_BUF_SIZE
    case _ => true
  }

  function Apply(l: Layout, op: Op): (r: Layout)
    requires l.Ordered() && Allowed(l, op)
    ensures r.Ordered()
  {
    match op
    case Append(len) => l.Appended(len)
    case Retrieve(len) => l.(reader := l.reader + len)
    case RetrieveAll => Layout(l.size, CHEAP_PREPEND, CHEAP_PREPEND)
    case Prepend(len) => l.(reader := l.reader - len)
    case ReadFd(n) =>
      if n <= l.Writable() then l.(writer := l.writer + n)
      else l.(writer := l.size).Appended(n - l.Writable())
  }

  // ---------------------------------------------------------------------------
  // Whole runs
  // ---------------------------------------------------------------------------

  /** Every operation of `ops` is allowed when its turn comes, and the readable bytes stay within `m`. */
  predicate StaysWithin(l: Layout, ops: seq<Op>, m: nat)
    requires l.Ordered()
    decreases |ops|
  {
    && l.Readable() <= m
    && (ops == [] || (Allowed(l, ops[0]) && StaysWithin(Apply(l, ops[0]), ops[1..], m)))
  }

  function Run(l: Layout, ops: seq<Op>, m: nat): (r: Layout)
    requires l.Ordered() && StaysWithin(l, ops, m)
    ensures r.Ordered()
    decreases |ops|
  {
    if ops == [] then l else Run(Apply(l, ops[0]), ops[1..], m)
  }

  /** The storage a buffer can come to own while at most `m` bytes are readable. */
  function SizeBound(m: nat): nat {
    if m <= INITIAL_SIZE then CHEAP_PREPEND + INITIAL_SIZE else 2 * m + 7
  }

  lemma AppendWithinBound(l: Layout, len: nat, m: nat)
    requires l.Ordered() && CHEAP_PREPEND + INITIAL_SIZE <= l.size <= SizeBound(m)
    requires l.Readable() + len <= m
    ensures l.size <= l.Appended(len).size <= SizeBound(m)
  {
  }

  /** Growth happens only when compaction cannot make room, so storage stays bounded over any run. */
  lemma {:induction false} StorageBound(l: Layout, ops: seq<Op>, m: nat)
    requires l.Ordered() && CHEAP_PREPEND + INITIAL_SIZE <= l.size <= SizeBound(m)
    requires StaysWithin(l, ops, m)
    ensures Run(l, ops, m).size <= if m <= 1024 then 1032 else 2 * m + 7
    decreases |ops|
  {
    if ops != [] {
      match ops[0] {
        case Append(len) => AppendWithinBound(l, len, m);
        case ReadFd(n) =>
          if n > l.Writable() {
            AppendWithinBound(l.(writer := l.size), n - l.Writable(), m);
          }
        case _ =>
      }
      StorageBound(Apply(l, ops[0]), ops[1..], m);
    }
  }

  /** The bound is exact: some run of a new buffer reaches it, whatever `m` is. */
  lemma StorageBoundReached(m: nat) returns (ops: seq<Op>)
    ensures StaysWithin(INITIAL, ops, m) && Run(INITIAL, ops, m).size == if m <= 1024 then 1032 else 2 * m + 7
  {
    if m <= INITIAL_SIZE {
      ops := [];
    } else {
      ops := [Append(m - 1), Retrieve(m - 1), Append(m)];
      var l0, l1 := Apply(INITIAL, ops[0]), Apply(Apply(INITIAL, ops[0]), ops[1]);
      var l2 := Apply(l1, ops[2]);
      assert l2.size == SizeBound(m);
      assert ops[1..] == [Retrieve(m - 1), Append(m)] && ops[1..][1..] == [Append(m)] && ops[1..][1..][1..] == [];
      assert StaysWithin(l2, [], m) && Run(l2, [], m) == l2;
      assert StaysWithin(l1, [Append(m)], m) && Run(l1, [Append(m)], m) == l2;
      assert StaysWithin(l0, [Retrieve(m - 1), Append(m)], m);
    }
  }

  // ---------------------------------------------------------------------------
  // The class
  // ---------------------------------------------------------------------------

  class Buffer {
    var buffer: array<byte>
    var readerIndex: nat
    var writerIndex: nat

    ghost predicate Valid()
      reads this
    {
      View().Ordered()
    }

    ghost function View(): Layout
      reads this
    {
      Layout(buffer.Length, readerIndex, writerIndex)
    }

    /** The byte sequence this buffer stands for. */
    ghost function Contents(): seq<byte>
      reads this, buffer
      requires Valid()
    {
      buffer[readerIndex..writerIndex]
    }

    constructor ()
      ensures Valid() && fresh(buffer)
      ensures Contents() == [] && View() == INITIAL == Layout(1032, 8, 8)
    {
      buffer := new byte[CHEAP_PREPEND + INITIAL_SIZE];
      readerIndex, writerIndex := CHEAP_PREPEND, CHEAP_PREPEND;
    }

    function ReadableBytes(): (n: nat)
      reads this, buffer
      requires Valid()
      ensures n == |Contents()|
    {
      writerIndex - readerIndex
    }

    function WritableBytes(): nat
      reads this
      requires Valid()
    {
      buffer.Length - writerIndex
    }

    /** The readable bytes, as a write call is given them. */
    method Peek() returns (data: seq<byte>)
      requires Valid()
      ensures data == Contents()
    {
      data := buffer[readerIndex..writerIndex];
    }

    method Retrieve(len: nat)
      requires Valid() && len <= |Contents()|
      modifies `readerIndex
      ensures Valid() && Contents() == old(Contents())[len..]
      ensures View() == Apply(old(View()), Op.Retrieve(len))
    {
      readerIndex := readerIndex + len;
    }

    method RetrieveAll()
      requires Valid()
      modifies `readerIndex, `writerIndex
      ensures Valid() && Contents() == [] && readerIndex == writerIndex == 8
      ensures View() == Apply(old(View()), Op.RetrieveAll)
    {
      readerIndex, writerIndex := CHEAP_PREPEND, CHEAP_PREPEND;
    }

    method RetrieveAsString() returns (str: seq<byte>)
      requires Valid()
      modifies `readerIndex, `writerIndex
      ensures Valid() && str == old(Contents()) && Contents() == []
      ensures View() == Apply(old(View()), Op.RetrieveAll)
    {
      str := Peek();
      RetrieveAll();
    }

    /** Copies readable bytes into new storage, leaving the indices alone, as vector::resize does. */
    method Resize(size: nat)
      requires Valid() && size >= buffer.Length
      modifies `buffer
      ensures Valid() && fresh(buffer) && Contents() == old(Contents())
      ensures View() == old(View()).(size := size)
    {
      var grown := new byte[size];
      for i := 0 to buffer.Length
        invariant unchanged(this) && unchanged(buffer)
        invariant grown[..i] == buffer[..i]
      {
        grown[i] := buffer[i];
      }
      assert grown[..buffer.Length][readerIndex..writerIndex] == Contents();
      buffer := grown;
    }

    /** Moves the readable bytes down to the front. Source and target overlap; the copy runs forward. */
    method Compact()
      requires Valid() && CHEAP_PREPEND < readerIndex
      modifies this, buffer
      ensures Valid() && buffer == old(buffer) && Contents() == old(Contents())
      ensures View() == Layout(buffer.Length, CHEAP_PREPEND, CHEAP_PREPEND + |old(Contents())|)
    {
      var readable := ReadableBytes();
      for i := 0 to readable
        invariant unchanged(this)
        invariant buffer[CHEAP_PREPEND..CHEAP_PREPEND + i] == old(Contents())[..i]
        invariant buffer[readerIndex + i..writerIndex] == old(Contents())[i..]
      {
        assert buffer[readerIndex + i] == old(Contents())[i];
        buffer[CHEAP_PREPEND + i] := buffer[readerIndex + i];
      }
      readerIndex := CHEAP_PREPEND;
      writerIndex := readerIndex + readable;
    }

    method MakeSpace(len: nat)
      requires Valid() && WritableBytes() < len
      modifies this, buffer
      ensures Valid() && (buffer == old(buffer) || fresh(buffer))
      ensures Contents() == old(Contents()) && View() == old(View()).Ensured(len)
    {
      if WritableBytes() + readerIndex < len + CHEAP_PREPEND {
        Resize(writerIndex + len);
      } else {
        assert CHEAP_PREPEND < readerIndex;   // the source's own assert
        Compact();
      }
    }

    method EnsureWritableBytes(len: nat)
      requires Valid()
      modifies this, buffer
      ensures Valid() && (buffer == old(buffer) || fresh(buffer))
      ensures Contents() == old(Contents()) && View() == old(View()).Ensured(len)
    {
      if WritableBytes() < len {
        MakeSpace(len);
      }
      assert WritableBytes() >= len;          // the source's own assert
    }

    /** Copies `data` behind the writer, which moves past it. */
    method Fill(data: seq<byte>)
      requires Valid() && |data| <= WritableBytes()
      modifies `writerIndex, buffer
      ensures Valid() && Contents() == old(Contents()) + data
      ensures View() == old(View()).(writer := old(writerIndex) + |data|)
    {
      for i := 0 to |data|
        invariant unchanged(this)
        invariant Contents() == old(Contents())
        invariant buffer[writerIndex..writerIndex + i] == data[..i]
      {
        buffer[writerIndex + i] := data[i];
      }
      ghost var w := writerIndex;
      writerIndex := writerIndex + |data|;
      assert buffer[readerIndex..writerIndex] == buffer[readerIndex..w] + buffer[w..writerIndex];
    }

    method Append(data: seq<byte>)
      requires Valid()
      modifies this, buffer
      ensures Valid() && (buffer == old(buffer) || fresh(buffer))
      ensures Contents() == old(Contents()) + data
      ensures View() == Apply(old(View()), Op.Append(|data|))
    {
      EnsureWritableBytes(|data|);
      Fill(data);
    }

    method Prepend(data: seq<byte>)
      requires Valid() && |data| <= readerIndex
      modifies `readerIndex, buffer
      ensures Valid() && Contents() == data + old(Contents())
      ensures View() == Apply(old(View()), Op.Prepend(|data|))
    {
      readerIndex := readerIndex - |data|;
      label Moved:
      for i := 0 to |data|
        invariant unchanged@Moved(this)
        invariant buffer[readerIndex..readerIndex + i] == data[..i]
        invariant buffer[old(readerIndex)..writerIndex] == old(Contents())
      {
        buffer[readerIndex + i] := data[i];
      }
      assert data[..|data|] == data;
      assert Contents() == buffer[readerIndex..old(readerIndex)] + buffer[old(readerIndex)..writerIndex];
    }

    /**
     One scatter read. `data` is what the kernel delivered over the two areas:
     the free tail of the vector and, past that, the extra stack area. `None`
     is a failed read, which changes nothing.
     */
    method ReadFd(data: Received) returns (n: int)
      requires Valid()
      requires data.Bytes? ==> |data.bytes| <= WritableBytes() + 65536
      modifies this, buffer
      ensures Valid() && (buffer == old(buffer) || fresh(buffer))
      ensures data.Failed? ==> n < 0 && Contents() == old(Contents()) && View() == old(View())
      ensures data.Bytes? ==>
                && n == |data.bytes|
                && Contents() == old(Contents()) + data.bytes
                && View() == Apply(old(View()), Op.ReadFd(n))
    {
      var writable := WritableBytes();
      match data {
        case Failed =>
          n := -1;
        case Bytes(bytes) =>
          n := |bytes|;
          if n <= writable {
            Fill(bytes);
          } else {
            var tail, extra := bytes[..writable], bytes[writable..];
            Fill(tail);
            Append(extra);
            assert bytes == tail + extra;
            assert old(Contents()) + bytes == (old(Contents()) + tail) + extra;
          }
      }
    }

    /** Swaps in new storage with `reserve` spare bytes, but leaves both indices where they were. */
    method Shrink(reserve: nat)
      requires Valid()
      modifies `buffer
      ensures fresh(buffer)
      ensures buffer[..] == Shrunk(old(buffer[..]), readerIndex, writerIndex, reserve)
    {
      var readable := ReadableBytes();
      var storage := new byte[CHEAP_PREPEND + readable + reserve](_ => 0);
      for i := 0 to readable
        invariant unchanged(this) && unchanged(buffer)
        invariant storage[CHEAP_PREPEND..CHEAP_PREPEND + i] == Contents()[..i]
        invariant forall k :: 0 <= k < storage.Length && !(CHEAP_PREPEND <= k < CHEAP_PREPEND + i) ==> storage[k] == 0
      {
        storage[CHEAP_PREPEND + i] := buffer[readerIndex + i];
      }
      buffer := storage;
    }
  }

  /** What one readv call came back with. */
  datatype Received = Failed | Bytes(bytes: seq<byte>)

  /** The storage `Shrink` builds: eight zeros, the readable bytes, `reserve` zeros. */
  function Shrunk(store: seq<byte>, reader: nat, writer: nat, reserve: nat): seq<byte>
    requires reader <= writer <= |store|
  {
    seq(CHEAP_PREPEND, _ => 0) + store[reader..writer] + seq(reserve, _ => 0)
  }

  /** The indices still select the old readable bytes after a shrink. */
  predicate ShrinkKeeps(store: seq<byte>, reader: nat, writer: nat, reserve: nat)
    requires reader <= writer <= |store|
  {
    var after := Shrunk(store, reader, writer, reserve);
    writer <= |after| && after[reader..writer] == store[reader..writer]
  }

  /**
   Shrinking is faithful for every content exactly when the reader stands at the
   front, or the buffer is empty and its indices still fit the new storage.
   */
  lemma ShrinkExact(size: nat, reader: nat, writer: nat, reserve: nat)
    requires reader <= writer <= size
    ensures (forall store: seq<byte> :: |store| == size ==> ShrinkKeeps(store, reader, writer, reserve))
      <==> reader == 8 || (reader == writer && writer <= 8 + reserve)
  {
    if reader == CHEAP_PREPEND || (reader == writer && writer <= CHEAP_PREPEND + reserve) {
      forall store: seq<byte> | |store| == size
        ensures ShrinkKeeps(store, reader, writer, reserve)
      {
        var after := Shrunk(store, reader, writer, reserve);
        assert after[reader..writer] == store[reader..writer];
      }
    } else {
      // A store whose readable bytes are all distinct from their neighbours' targets: only the
      // byte the moved window sees first (or last) differs.
      var store := if reader < CHEAP_PREPEND then seq(size, _ => 1) else seq(size, i => if i == reader then 1 else 0);
      var after := Shrunk(store, reader, writer, reserve);
      if reader < writer && writer <= |after| {
        assert after[reader..writer][0] == after[reader];
        assert store[reader..writer][0] == store[reader] == 1;
      }
      assert !ShrinkKeeps(store, reader, writer, reserve);
    }
  }
}
