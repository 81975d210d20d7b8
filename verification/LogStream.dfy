/**
 The in-place conversions, the fixed buffer they write into, and the log stream
 that guards them with a 32-byte reserve.
 */
module LogStreams {
  import opened Basics
  import opened Formatting

  const K_MAX_NUMERIC_SIZE: nat := 32
  const K_SMALL_BUFFER: nat := 4000

  // ---------------------------------------------------------------------------
  // Conversions
  // ---------------------------------------------------------------------------

  /** std::reverse on buf[lo..hi]. */
  method Reverse(buf: array<char>, lo: nat, hi: nat)
    requires lo <= hi <= buf.Length
    modifies buf
    ensures buf[lo..hi] == Reversed(old(buf[lo..hi]))
    ensures buf[..lo] == old(buf[..lo]) && buf[hi..] == old(buf[hi..])
  {
    hide Reversed;
    ghost var was := buf[lo..hi];
    ghost var now := was;
    var i, j := lo, hi;
    while i < j && i < j - 1
      invariant lo <= i <= j + 1 <= hi + 1 && i - lo == hi - j && j <= hi
      invariant buf[..lo] == old(buf[..lo]) && buf[hi..] == old(buf[hi..])
      invariant buf[lo..hi] == now && |now| == |was| == hi - lo
      invariant forall k :: 0 <= k < |now| && i - lo <= k < j - lo ==> now[k] == was[k]
      invariant forall k :: 0 <= k < |now| && k < i - lo ==> now[k] == was[|was| - 1 - k]
      invariant forall k :: 0 <= k < |now| && j - lo <= k ==> now[k] == was[|was| - 1 - k]
      decreases j - i
    {
      j := j - 1;
      buf[i], buf[j] := buf[j], buf[i];
      now := now[i - lo := now[j - lo]][j - lo := now[i - lo]];
      i := i + 1;
    }
    IsReversed(was, now);
  }

  /** *p++ = c */
  method PutChar(buf: array<char>, ghost at: nat, p: nat, c: char) returns (next: nat)
    requires at <= p < buf.Length
    modifies buf
    ensures next == p + 1 && buf[at..next] == old(buf[at..p]) + [c] && buf[..at] == old(buf[..at])
  {
    buf[p] := c;
    next := p + 1;
  }

  /** The digit loop of convert: least significant first, at least once. */
  method EmitDecimal(buf: array<char>, at: nat, value: int) returns (p: nat)
    requires at + |LowFirst(Abs(value), 10)| <= buf.Length
    modifies buf
    ensures p == at + |LowFirst(Abs(value), 10)| && buf[at..p] == LowFirst(Abs(value), 10)
    ensures buf[..at] == old(buf[..at])
  {
    hide LowFirst, TruncDiv, TruncMod, Abs, ZeroAt;
    ghost var all := LowFirst(Abs(value), 10);
    ghost var rest := all;
    var i := value;
    p := at;
    var more := true;
    while more
      invariant at <= p <= buf.Length && buf[..at] == old(buf[..at])
      invariant buf[at..p] + rest == all && rest == if more then LowFirst(Abs(i), 10) else []
      decreases more, Abs(i)
    {
      EmitStep(i);
      var lsd := TruncMod(i, 10);
      i := TruncDiv(i, 10);
      assert rest == [ZeroAt(lsd)] + rest[1..];
      Regroup(buf[at..p], [ZeroAt(lsd)], rest[1..]);
      p := PutChar(buf, at, p, ZeroAt(lsd));
      more := i != 0;
      rest := rest[1..];
    }
  }

  /** convert: writes the decimal numeral and a terminating NUL at `at`, without ever negating the value. */
  method Convert(buf: array<char>, at: nat, value: int) returns (len: nat)
    requires at + |Decimal(value)| < buf.Length
    modifies buf
    ensures len == |Decimal(value)| && buf[at..at + len] == Decimal(value)
    ensures buf[at + len] == '\0' && buf[..at] == old(buf[..at])
  {
    hide LowFirst, Reversed, Decimal, Abs;
    DecimalText(value);
    ghost var text := LowFirst(Abs(value), 10) + if value < 0 then ['-'] else [];
    var p := EmitDecimal(buf, at, value);
    if value < 0 {
      buf[p] := '-';
      p := p + 1;
    }
    assert buf[at..p] == text;
    Terminate(buf, at, p);
    len := p - at;
  }

  /** The common end of both conversions: NUL behind the digits, then the digits reversed. */
  method Terminate(buf: array<char>, at: nat, p: nat)
    requires at <= p < buf.Length
    modifies buf
    ensures buf[at..p] == Reversed(old(buf[at..p])) && buf[p] == '\0' && buf[..at] == old(buf[..at])
  {
    buf[p] := '\0';
    label Ended:
    Reverse(buf, at, p);
    assert buf[p..][0] == old@Ended(buf[p..])[0];
  }

  /** The digit loop of convertHex. */
  method EmitHex(buf: array<char>, at: nat, value: nat) returns (p: nat)
    requires at + |LowFirst(value, 16)| <= buf.Length
    modifies buf
    ensures p == at + |LowFirst(value, 16)| && buf[at..p] == LowFirst(value, 16)
    ensures buf[..at] == old(buf[..at])
  {
    hide LowFirst, TruncDiv, TruncMod, Digit;
    ghost var all := LowFirst(value, 16);
    ghost var rest := all;
    var i := value;
    p := at;
    var more := true;
    while more
      invariant at <= p <= buf.Length && buf[..at] == old(buf[..at]) && i >= 0
      invariant buf[at..p] + rest == all && rest == if more then LowFirst(i, 16) else []
      decreases more, i
    {
      EmitHexStep(i);
      var lsd := TruncMod(i, 16);
      i := TruncDiv(i, 16);
      assert rest == [Digit(lsd)] + rest[1..];
      Regroup(buf[at..p], [Digit(lsd)], rest[1..]);
      p := PutChar(buf, at, p, Digit(lsd));
      more := i != 0;
      rest := rest[1..];
    }
  }

  method ConvertHex(buf: array<char>, at: nat, value: nat) returns (len: nat)
    requires at + |Hex(value)| < buf.Length
    modifies buf
    ensures len == |Hex(value)| && buf[at..at + len] == Hex(value)
    ensures buf[at + len] == '\0' && buf[..at] == old(buf[..at])
  {
    var p := EmitHex(buf, at, value);
    Terminate(buf, at, p);
    len := p - at;
  }

  /** The prefix, then the address. */
  method ConvertPointer(buf: array<char>, at: nat, address: nat) returns (len: nat)
    requires at + 2 + |Hex(address)| < buf.Length
    modifies buf
    ensures len == 2 + |Hex(address)| && buf[at..at + len] == "0x" + Hex(address) && buf[..at] == old(buf[..at])
  {
    hide Hex;
    buf[at], buf[at + 1] := '0', 'x';
    ghost var head := buf[..at + 2];
    len := ConvertHex(buf, at + 2, address);
    len := len + 2;
    assert buf[..at + 2] == head;
    assert buf[at..at + len] == head[at..] + buf[at + 2..at + len];
  }

  // ---------------------------------------------------------------------------
  // The stream
  // ---------------------------------------------------------------------------

  datatype Op = Integer(v: int) | Pointer(address: nat) | Text(s: string)

  /** The operation's argument is one its C++ type can hold. */
  predicate Typed(op: Op) {
    match op
    case Integer(v) => Machine(v)
    case Pointer(a) => Address(a)
    case Text(_) => true
  }

  function Rendered(op: Op): string {
    match op
    case Integer(v) => Decimal(v)
    case Pointer(a) => "0x" + Hex(a)
    case Text(s) => s
  }

  const TWO_31: int := 0x8000_0000
  const TWO_32: int := 0x1_0000_0000

  /** A length passed as a C int: modulo 2^32, as a signed number. */
  function Narrow(n: nat): (len: int)
    ensures -TWO_31 <= len < TWO_31 && len <= n
    ensures (n - len) % TWO_32 == 0 && (len == n <==> n < TWO_31)
  {
    var low := n % TWO_32;
    if low < TWO_31 then low else low - TWO_32
  }

  /** Numbers need the whole reserve free; text needs to leave one byte, by the length `append` was passed. */
  predicate HasRoom(avail: int, op: Op) {
    if op.Text? then avail > Narrow(|op.s|) else avail >= K_MAX_NUMERIC_SIZE
  }

  /** The length `append` is passed is not negative; memcpy would take a negative one for a huge size. */
  predicate InBounds(op: Op) {
    op.Text? ==> Narrow(|op.s|) >= 0
  }

  /** What an admitted operation copies into the buffer. */
  function Copied(op: Op): string
    requires InBounds(op)
  {
    if op.Text? then op.s[..Narrow(|op.s|)] else Rendered(op)
  }

  /** The text after one operation, or None when it writes out of bounds. */
  function Put(size: nat, text: string, op: Op): Option<string> {
    if !HasRoom(size - |text|, op) then Some(text)
    else if InBounds(op) then Some(text + Copied(op))
    else None
  }

  function PutAll(size: nat, ops: seq<Op>): Option<string> {
    if ops == [] then Some("")
    else
      var before := PutAll(size, ops[..|ops| - 1]);
      if before.Some? then Put(size, before.value, ops[|ops| - 1]) else None
  }

  /** The reserve is enough: a numeral, its prefix and its NUL end before the buffer does. */
  lemma ReserveSuffices(size: nat, text: string, op: Op)
    requires Typed(op) && InBounds(op) && HasRoom(size - |text|, op)
    ensures |text + Copied(op)| < size
    ensures !op.Text? ==> |Copied(op)| + 1 <= 21
  {
    match op
    case Integer(v) => DecimalLength(v);
    case Pointer(a) => HexLength(a);
    case Text(s) =>
  }

  /**
   Operations stay in bounds exactly when no text's length narrows to a negative
   one; and as long as they do, at least one byte is free.
   */
  lemma {:induction false} OneByteFree(size: nat, ops: seq<Op>)
    requires size > 0 && forall op :: op in ops ==> Typed(op)
    ensures PutAll(size, ops).Some? <==> forall op :: op in ops ==> InBounds(op)
    ensures PutAll(size, ops).Some? ==> |PutAll(size, ops).value| < size
  {
    if ops != [] {
      var init, op := ops[..|ops| - 1], ops[|ops| - 1];
      assert ops == init + [op];
      OneByteFree(size, init);
      var before := PutAll(size, init);
      if before.Some? && InBounds(op) && HasRoom(size - |before.value|, op) {
        ReserveSuffices(size, before.value, op);
      }
    }
  }

  /** Operations that found room, in order. */
  function Admitted(size: nat, ops: seq<Op>): seq<Op> {
    if ops == [] then []
    else
      var init, op := ops[..|ops| - 1], ops[|ops| - 1];
      var before := PutAll(size, init);
      Admitted(size, init) + if before.Some? && HasRoom(size - |before.value|, op) then [op] else []
  }

  function Joined(ops: seq<Op>): string {
    if ops == [] then "" else Joined(ops[..|ops| - 1]) + Rendered(ops[|ops| - 1])
  }

  /** The length is one a C int can hold. */
  predicate Short(op: Op) {
    op.Text? ==> |op.s| < TWO_31
  }

  /** With texts below 2^31 bytes the stream is the whole texts of the operations that found room, and nothing else. */
  lemma {:induction false} AllOrNothing(size: nat, ops: seq<Op>)
    requires forall op :: op in ops ==> Short(op)
    ensures PutAll(size, ops) == Some(Joined(Admitted(size, ops)))
  {
    if ops != [] {
      var init, op := ops[..|ops| - 1], ops[|ops| - 1];
      AllOrNothing(size, init);
      assert Short(op);
      if HasRoom(size - |PutAll(size, init).value|, op) {
        assert Admitted(size, ops)[..|Admitted(size, init)|] == Admitted(size, init);
        assert Copied(op) == Rendered(op);
      } else {
        assert Admitted(size, ops) == Admitted(size, init);
      }
    }
  }

  /** The text one operation adds to what the buffer holds. */
  ghost predicate Adds(size: nat, text: string, op: Op, more: string) {
    Put(size, text, op) == Some(text + more)
  }

  /**
   What finds room, by the source's numbers: an integer or an address while 32 bytes
   are left, whatever its length; a text below 2^31 bytes while it leaves a byte free.
   It is then added whole, and nothing is added otherwise.
   */
  lemma Admission(size: nat, text: string, v: int, address: nat, s: string)
    requires |s| < 0x8000_0000
    ensures Adds(size, text, Integer(v), if |text| + 32 <= size then Decimal(v) else "")
    ensures Adds(size, text, Pointer(address), if |text| + 32 <= size then "0x" + Hex(address) else "")
    ensures Adds(size, text, Text(s), if |text| + |s| < size then s else "")
  {
    hide Decimal, Hex;
    assert text + "" == text && s[..|s|] == s;
  }

  /** Numbers written one after the other all appear, each in full, as long as 32 bytes are left before each. */
  lemma {:induction false} NumbersInFull(size: nat, ops: seq<Op>)
    requires forall op :: op in ops ==> !op.Text?
    requires forall k :: 0 <= k < |ops| ==> |Joined(ops[..k])| + 32 <= size
    ensures PutAll(size, ops) == Some(Joined(ops))
  {
    hide Rendered;
    if ops != [] {
      var init, op := ops[..|ops| - 1], ops[|ops| - 1];
      assert ops == init + [op];
      forall k | 0 <= k < |init| ensures |Joined(init[..k])| + 32 <= size { assert init[..k] == ops[..k]; }
      NumbersInFull(size, init);
      assert ops[..|init|] == init;
    }
  }

  /**
   One append is all or nothing, whatever the buffer holds, exactly for texts
   below 2^31 bytes and for those whose narrowed length never finds room or is 0.
   */
  lemma WholeExact(size: nat, s: string)
    requires 0 < size <= TWO_31
    ensures (forall text: string :: |text| < size ==> Put(size, text, Text(s)) in {Some(text), Some(text + s)})
       <==> |s| < TWO_31 || Narrow(|s|) == 0 || Narrow(|s|) >= size
  {
    var n := Narrow(|s|);
    if |s| < TWO_31 || n == 0 || n >= size {
      forall text: string | |text| < size
        ensures Put(size, text, Text(s)) in {Some(text), Some(text + s)}
      {
        if n >= 0 {
          assert text + s[..0] == text && s[..|s|] == s;
          assert Put(size, text, Text(s)) == if size - |text| > n then Some(text + s[..n]) else Some(text);
        }
      }
    } else if n > 0 {
      assert Put(size, "", Text(s)) == Some("" + s[..n]);
      assert |"" + s[..n]| == n;
      assert |"" + s| == |s| != n;
    } else {
      assert Put(size, "", Text(s)) == None;
    }
  }

  /** A text of 2^31 bytes is written out of bounds; of one of 2^32 + 3 bytes the first three are appended. */
  lemma LongTexts(huge: string, wrapped: string)
    requires |huge| == TWO_31 && |wrapped| == TWO_32 + 3
    ensures PutAll(K_SMALL_BUFFER, [Text(huge)]) == None
    ensures PutAll(K_SMALL_BUFFER, [Text(wrapped)]) == Some(wrapped[..3])
  {
    assert [Text(huge)][..0] == [] && [Text(wrapped)][..0] == [];
    assert PutAll(K_SMALL_BUFFER, []) == Some("");
    assert "" + wrapped[..3] == wrapped[..3];
  }

  class FixedBuffer {
    const data: array<char>
    var cur: nat

    /** At least one byte is always free, and `avail` fits in an int. */
    ghost predicate Valid()
      reads this
    {
      cur < data.Length < TWO_31
    }

    ghost function Contents(): string
      reads this, data
      requires Valid()
    {
      data[..cur]
    }

    constructor (size: nat)
      requires 0 < size < TWO_31
      ensures Valid() && fresh(data) && data.Length == size && Contents() == ""
    {
      data := new char[size];
      cur := 0;
    }

    function Avail(): int
      reads this
    {
      data.Length - cur
    }

    /** append(buf, len) with the length the caller passes, narrowed to int. */
    method Append(buf: string)
      requires Valid() && InBounds(Text(buf))
      modifies this, data
      ensures Valid() && Some(Contents()) == Put(data.Length, old(Contents()), Text(buf))
    {
      var len := Narrow(|buf|);
      if Avail() > len {
        for i := 0 to len
          invariant cur == old(cur) && data[..cur] == old(data[..cur])
          invariant data[cur..cur + i] == buf[..i]
        {
          data[cur + i] := buf[i];
        }
        ghost var start := cur;
        cur := cur + len;
        assert data[..cur] == data[..start] + data[start..cur];
      }
    }

    method Reset()
      requires 0 < data.Length < TWO_31
      modifies this
      ensures Valid() && Contents() == ""
    {
      cur := 0;
    }

    /** Ends the text with a NUL, which is always in bounds and not part of the contents. */
    method DebugString()
      requires Valid()
      modifies data
      ensures data[cur] == '\0' && Contents() == old(Contents())
    {
      data[cur] := '\0';
    }
  }

  class LogStream {
    const buffer: FixedBuffer

    ghost predicate Valid()
      reads this, buffer
    {
      buffer.Valid() && buffer.data.Length == K_SMALL_BUFFER
    }

    ghost function Text(): string
      reads this, buffer, buffer.data
      requires Valid()
    {
      buffer.Contents()
    }

    constructor ()
      ensures Valid() && fresh(buffer) && fresh(buffer.data) && Text() == "" && buffer.data.Length == 4000
    {
      buffer := new FixedBuffer(K_SMALL_BUFFER);
    }

    method FormatInteger(v: int)
      requires Valid() && Machine(v)
      modifies buffer, buffer.data
      ensures Valid() && Some(Text()) == Put(K_SMALL_BUFFER, old(Text()), Integer(v))
      ensures Text() == old(Text()) + if |old(Text())| + 32 <= 4000 then Decimal(v) else ""
    {
      hide Decimal;
      if buffer.Avail() >= K_MAX_NUMERIC_SIZE {
        ReserveSuffices(K_SMALL_BUFFER, Text(), Integer(v));
        ghost var start := buffer.cur;
        var len := Convert(buffer.data, buffer.cur, v);
        buffer.cur := buffer.cur + len;
        assert Text() == buffer.data[..start] + buffer.data[start..buffer.cur];
      }
    }

    method FormatPointer(address: nat)
      requires Valid() && Address(address)
      modifies buffer, buffer.data
      ensures Valid() && Some(Text()) == Put(K_SMALL_BUFFER, old(Text()), Pointer(address))
      ensures Text() == old(Text()) + if |old(Text())| + 32 <= 4000 then "0x" + Hex(address) else ""
    {
      hide Hex;
      if buffer.Avail() >= K_MAX_NUMERIC_SIZE {
        ReserveSuffices(K_SMALL_BUFFER, Text(), Pointer(address));
        ghost var start := buffer.cur;
        var len := ConvertPointer(buffer.data, buffer.cur, address);
        buffer.cur := buffer.cur + len;
        assert Text() == buffer.data[..start] + buffer.data[start..buffer.cur];
      }
    }

    method Append(s: string)
      requires Valid() && InBounds(Op.Text(s))
      modifies buffer, buffer.data
      ensures Valid() && Some(Text()) == Put(K_SMALL_BUFFER, old(Text()), Op.Text(s))
      ensures |s| < TWO_31 ==> Text() == old(Text()) + if |old(Text())| + |s| < 4000 then s else ""
    {
      buffer.Append(s);
    }

    /** operator<< for bool. */
    method PutBool(v: bool)
      requires Valid()
      modifies buffer, buffer.data
      ensures Valid() && Some(Text()) == Put(K_SMALL_BUFFER, old(Text()), Op.Text(if v then "1" else "0"))
    {
      buffer.Append(if v then "1" else "0");
    }

    method ResetBuffer()
      requires Valid()
      modifies buffer
      ensures Valid() && Text() == ""
    {
      buffer.Reset();
    }
  }
}
