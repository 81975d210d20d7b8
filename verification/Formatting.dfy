/**
 Integers as text: what LogStream's two conversions are meant to produce, and that
 it can be read back.
 */
module Formatting {

  /** The two digit tables. The decimal one is read around its middle, with indices from -9 to 9. */
  const DIGITS: string := "9876543210123456789"
  const DIGITS_HEX: string := "0123456789abcdef"

  predicate Base(b: int) {
    b == 10 || b == 16
  }

  function Digit(d: nat): char
    requires d < 16
  {
    DIGITS_HEX[d]
  }

  /** zero[lsd] in the source, where zero points at the middle of the table. */
  function ZeroAt(lsd: int): char
    requires -9 <= lsd <= 9
  {
    DIGITS[9 + lsd]
  }

  /** The decimal table is symmetric: a remainder and its negation give the same digit. */
  lemma ZeroTable(lsd: int)
    requires -9 <= lsd <= 9
    ensures ZeroAt(lsd) == Digit(if lsd < 0 then -lsd else lsd)
  {
  }

  // ---------------------------------------------------------------------------
  // C's division
  // ---------------------------------------------------------------------------

  function Abs(i: int): nat {
    if i < 0 then -i else i
  }

  /** i / b truncated towards zero. */
  function TruncDiv(i: int, b: int): int
    requires b > 0
  {
    if i < 0 then -((-i) / b) else i / b
  }

  /** i % b, with the sign of i. */
  function TruncMod(i: int, b: int): int
    requires b > 0
  {
    i - b * TruncDiv(i, b)
  }

  lemma TruncMagnitude(i: int, b: int)
    requires b > 0
    ensures Abs(TruncDiv(i, b)) == Abs(i) / b && Abs(TruncMod(i, b)) == Abs(i) % b
    ensures TruncMod(i, b) != 0 ==> (TruncMod(i, b) < 0 <==> i < 0)
  {
    var m := Abs(i);
    assert m == b * (m / b) + m % b;
  }

  // ---------------------------------------------------------------------------
  // Numerals
  // ---------------------------------------------------------------------------

  /** The digits of n, least significant first, as the loops emit them. */
  function LowFirst(n: nat, b: int): (s: string)
    requires Base(b)
    ensures s != []
    decreases n
  {
    [Digit(n % b)] + if n < b then [] else LowFirst(n / b, b)
  }

  function Reversed(s: string): (r: string)
    ensures |r| == |s|
  {
    if s == [] then [] else Reversed(s[1..]) + [s[0]]
  }

  /** The usual numeral of n. */
  function Numeral(n: nat, b: int): string
    requires Base(b)
  {
    Reversed(LowFirst(n, b))
  }

  function Decimal(v: int): string {
    if v < 0 then "-" + Numeral(-v, 10) else Numeral(v, 10)
  }

  function Hex(v: nat): string {
    Numeral(v, 16)
  }

  lemma {:induction false} ReversedAt(s: string, k: nat)
    requires k < |s|
    ensures Reversed(s)[k] == s[|s| - 1 - k]
  {
    if k < |s| - 1 { ReversedAt(s[1..], k); }
  }

  lemma IsReversed(was: string, now: string)
    requires |now| == |was|
    requires forall k :: 0 <= k < |now| ==> now[k] == was[|was| - 1 - k]
    ensures now == Reversed(was)
  {
    forall k | 0 <= k < |was| ensures now[k] == Reversed(was)[k] { ReversedAt(was, k); }
  }

  /** One turn of convert's loop, for either sign: a digit from the table, and C's quotient. */
  lemma EmitStep(i: int)
    ensures -9 <= TruncMod(i, 10) <= 9
    ensures Abs(TruncDiv(i, 10)) < Abs(i) || i == TruncDiv(i, 10) == 0
    ensures LowFirst(Abs(i), 10)
         == [ZeroAt(TruncMod(i, 10))] + if TruncDiv(i, 10) != 0 then LowFirst(Abs(TruncDiv(i, 10)), 10) else []
  {
    TruncMagnitude(i, 10);
    ZeroTable(TruncMod(i, 10));
  }

  /** One turn of convertHex's loop. */
  lemma EmitHexStep(i: nat)
    ensures 0 <= TruncMod(i, 16) < 16 && 0 <= TruncDiv(i, 16)
    ensures TruncDiv(i, 16) < i || i == TruncDiv(i, 16) == 0
    ensures LowFirst(i, 16) == [Digit(TruncMod(i, 16))] + if TruncDiv(i, 16) != 0 then LowFirst(TruncDiv(i, 16), 16) else []
  {
  }

  lemma {:induction false} ReversedSnoc(s: string, c: char)
    ensures Reversed(s + [c]) == [c] + Reversed(s)
  {
    if s == [] {
      assert [c][1..] == [];
    } else {
      ReversedSnoc(s[1..], c);
      assert (s + [c])[1..] == s[1..] + [c];
    }
  }

  // ---------------------------------------------------------------------------
  // Reading back
  // ---------------------------------------------------------------------------

  predicate IsDigit(c: char, b: int) {
    '0' <= c <= '9' || (b == 16 && 'a' <= c <= 'f')
  }

  function DigitValue(c: char): int {
    if c <= '9' then c as int - '0' as int else c as int - 'a' as int + 10
  }

  /** The number a string of digits stands for, most significant first. */
  function Value(s: string, b: int): int {
    if s == [] then 0 else Value(s[..|s| - 1], b) * b + DigitValue(s[|s| - 1])
  }

  function Parse(s: string): int {
    if s != [] && s[0] == '-' then -Value(s[1..], 10) else Value(s, 10)
  }

  lemma NumeralSplit(n: nat, b: int)
    requires Base(b)
    ensures Numeral(n, b) == (if n < b then [] else Numeral(n / b, b)) + [Digit(n % b)]
  {
    var rest := if n < b then [] else LowFirst(n / b, b);
    assert LowFirst(n, b)[1..] == rest;
  }

  lemma DigitReads(d: nat, b: int)
    requires Base(b) && d < b
    ensures DigitValue(Digit(d)) == d && IsDigit(Digit(d), b) && (Digit(d) == '0' <==> d == 0)
  {
  }

  lemma {:induction false} NumeralReads(n: nat, b: int)
    requires Base(b)
    ensures Value(Numeral(n, b), b) == n
    decreases n
  {
    hide Numeral, Digit;
    NumeralSplit(n, b);
    DigitReads(n % b, b);
    var s := Numeral(n, b);
    assert s[|s| - 1] == Digit(n % b);
    if n < b {
      assert s[..|s| - 1] == [];
    } else {
      NumeralReads(n / b, b);
      assert s[..|s| - 1] == Numeral(n / b, b);
    }
  }

  /** Only digits, and no leading zero except for zero itself. */
  lemma {:induction false} NumeralShape(n: nat, b: int)
    requires Base(b)
    ensures var s := Numeral(n, b);
            s != [] && (forall i :: 0 <= i < |s| ==> IsDigit(s[i], b)) && (s[0] == '0' ==> n == 0 && s == "0")
    decreases n
  {
    NumeralSplit(n, b);
    DigitReads(n % b, b);
    if n >= b {
      NumeralShape(n / b, b);
      assert Numeral(n, b)[0] == Numeral(n / b, b)[0];
    } else {
      assert Numeral(n, b) == [Digit(n)];
    }
  }

  /** Reading a converted integer gives it back: any value, the most negative one included. */
  lemma DecimalRoundTrip(v: int)
    ensures Parse(Decimal(v)) == v
  {
    var m := Abs(v);
    NumeralReads(m, 10);
    NumeralShape(m, 10);
    if v < 0 {
      assert Decimal(v)[1..] == Numeral(m, 10);
    } else {
      assert Decimal(v)[0] != '-';
    }
  }

  lemma HexRoundTrip(v: nat)
    ensures Value(Hex(v), 16) == v
  {
    NumeralReads(v, 16);
  }

  // ---------------------------------------------------------------------------
  // Lengths
  // ---------------------------------------------------------------------------

  function Power(b: nat, k: nat): nat {
    if k == 0 then 1 else b * Power(b, k - 1)
  }

  lemma {:induction false} LowFirstLength(n: nat, b: int, k: nat)
    requires Base(b) && k > 0 && n < Power(b, k)
    ensures |LowFirst(n, b)| <= k
  {
    if n >= b {
      assert n / b < Power(b, k - 1) by { assert b == 10 || b == 16; }
      LowFirstLength(n / b, b, k - 1);
    }
  }

  /** Every value of every integer type the stream takes. */
  predicate Machine(v: int) {
    -0x8000_0000_0000_0000 <= v <= 0xffff_ffff_ffff_ffff
  }

  predicate Address(v: int) {
    0 <= v <= 0xffff_ffff_ffff_ffff
  }

  lemma Power10()
    ensures Power(10, 19) == 10_000_000_000_000_000_000 && Power(10, 20) == 100_000_000_000_000_000_000
  {
    assert Power(10, 5) == 100_000;
    assert Power(10, 10) == 10_000_000_000;
    assert Power(10, 15) == 1_000_000_000_000_000;
  }

  lemma Power16()
    ensures Power(16, 16) == 0x1_0000_0000_0000_0000
  {
    assert Power(16, 4) == 0x1_0000;
    assert Power(16, 8) == 0x1_0000_0000;
    assert Power(16, 12) == 0x1_0000_0000_0000;
  }

  /** At most 20 characters for an integer, the sign included; 16 for an address. */
  lemma DecimalLength(v: int)
    requires Machine(v)
    ensures 1 <= |Decimal(v)| <= 20
  {
    Power10();
    LowFirstLength(Abs(v), 10, if v < 0 then 19 else 20);
  }

  lemma HexLength(v: nat)
    requires Address(v)
    ensures 1 <= |Hex(v)| <= 16
  {
    Power16();
    LowFirstLength(v, 16, 16);
  }

  /** What convert has written before it reverses: the digits, and the sign behind them. */
  lemma DecimalText(v: int)
    ensures Decimal(v) == Reversed(LowFirst(Abs(v), 10) + if v < 0 then ['-'] else [])
  {
    hide LowFirst, Reversed;
    ReversedSnoc(LowFirst(Abs(v), 10), '-');
    assert LowFirst(Abs(v), 10) + [] == LowFirst(Abs(v), 10);
  }
}
