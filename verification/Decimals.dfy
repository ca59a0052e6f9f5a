/** Decimal numerals, and the integer printer that fills a fixed buffer from its end. */
module Decimals {
  import opened Options

  const MIN64 := -0x8000_0000_0000_0000
  const MAX64 := 0x7fff_ffff_ffff_ffff

  predicate IsInt64(n: int) {
    MIN64 <= n <= MAX64
  }

  /** Negation in two's complement: the smallest value is its own negation. */
  function Negate64(n: int): int
    requires IsInt64(n)
  {
    if n == MIN64 then MIN64 else -n
  }

  function Digit(d: nat): char
    requires d < 10
  {
    '0' + d as char
  }

  predicate IsDigit(c: char) {
    '0' <= c <= '9'
  }

  function DigitValue(c: char): nat
    requires IsDigit(c)
  {
    (c as int) - ('0' as int)
  }

  predicate AllDigits(s: string) {
    forall c :: c in s ==> IsDigit(c)
  }

  function Decimal(n: nat): (s: string)
    ensures s != "" && AllDigits(s)
  {
    if n < 10 then [Digit(n)] else Decimal(n / 10) + [Digit(n % 10)]
  }

  /** The %d verb. */
  function Signed(n: int): string {
    if n < 0 then "-" + Decimal(-n) else Decimal(n)
  }

  // ----- reading -----

  function ReadNat(s: string): Option<nat> {
    if s == "" || !IsDigit(s[|s| - 1]) then None
    else if |s| == 1 then Some(DigitValue(s[0]))
    else
      var before := ReadNat(s[..|s| - 1]);
      if before.None? then None else Some(10 * before.value + DigitValue(s[|s| - 1]))
  }

  /** strconv.Atoi on an optional minus sign and digits. */
  function ReadInt(s: string): Option<int> {
    if s != "" && s[0] == '-' then
      var n := ReadNat(s[1..]);
      if n.None? then None else Some(0 - n.value as int)
    else
      var n := ReadNat(s);
      if n.None? then None else Some(n.value as int)
  }

  lemma {:induction false} ReadDecimal(n: nat)
    ensures ReadNat(Decimal(n)) == Some(n)
  {
    if n >= 10 {
      ReadDecimal(n / 10);
      assert Decimal(n)[..|Decimal(n)| - 1] == Decimal(n / 10);
    }
  }

  lemma StartsWithDigit(n: nat)
    ensures Decimal(n)[0] != '-'
  {
    assert Decimal(n)[0] in Decimal(n);
  }

  lemma ReadAfterSign(s: string)
    ensures ReadInt("-" + s) == var n := ReadNat(s); if n.None? then None else Some(0 - n.value as int)
  {
    assert ("-" + s)[1..] == s;
  }

  /** Printing an integer and reading it back is the identity. */
  lemma ReadSigned(n: int)
    ensures ReadInt(Signed(n)) == Some(n)
  {
    var size: nat := if n < 0 then -n else n;
    ReadDecimal(size);
    if n < 0 {
      ReadAfterSign(Decimal(size));
    } else {
      StartsWithDigit(size);
    }
  }

  // ----- the buffer printer -----

  function Pow10(k: nat): nat {
    if k == 0 then 1 else 10 * Pow10(k - 1)
  }

  const SIZE := 20

  lemma FitsInBuffer()
    ensures MAX64 < Pow10(SIZE - 1)
  {
    assert Pow10(5) == 100000;
    assert Pow10(10) == 10000000000;
    assert Pow10(15) == 1000000000000000;
    assert Pow10(19) == 10000000000000000000;
  }

  /** The digits of the part of the number that is still to be written. */
  function Pending(i: nat): string {
    if i == 0 then "" else Decimal(i)
  }

  lemma NextDigit(whole: string, n: nat, tail: string, more: string)
    requires n > 0 && whole == Pending(n) + tail && more == [Digit(n % 10)] + tail
    ensures whole == Pending(n / 10) + more
  {
    var a, d := Pending(n / 10), [Digit(n % 10)];
    assert Pending(n) == a + d;
    assert (a + d) + tail == a + (d + tail);
  }

  lemma RoomLeft(n: nat, k: nat)
    requires 0 < n < Pow10(k)
    ensures k > 0 && n / 10 < Pow10(k - 1)
  {
    assert Pow10(0) == 1;
  }

  /** The digits of a positive number, from a slot on that leaves room for a sign. */
  method FillDigits(i: nat, buf: array<char>) returns (pos: nat)
    requires 0 < i <= MAX64 && buf.Length == SIZE
    modifies buf
    ensures 1 <= pos <= SIZE && buf[pos..] == Decimal(i)
  {
    pos := SIZE;
    var n: nat := i;
    FitsInBuffer();
    while n > 0
      invariant 1 <= pos <= SIZE && n < Pow10(pos - 1)
      invariant Decimal(i) == Pending(n) + buf[pos..]
    {
      RoomLeft(n, pos - 1);
      pos := pos - 1;
      ghost var tail := buf[pos + 1..];
      buf[pos] := Digit(n % 10);
      assert buf[pos..] == [Digit(n % 10)] + tail;
      NextDigit(Decimal(i), n, tail, buf[pos..]);
      n := n / 10;
    }
    assert "" + buf[pos..] == buf[pos..];
  }

  /** _itoa: right for every value above the smallest, which comes out as a lone sign; the index stays in the buffer. */
  method Itoa(i: int) returns (s: string)
    requires IsInt64(i)
    ensures s == if i == MIN64 then "-" else Signed(i)
  {
    if i == 0 {
      return "0";
    }
    var neg := i < 0;
    var n := if neg then Negate64(i) else i;
    var buf := new char[SIZE](_ => '0');
    var pos: nat := SIZE;
    if n > 0 {
      pos := FillDigits(n, buf);
    }
    if neg {
      ghost var digits := buf[pos..];
      pos := pos - 1;
      buf[pos] := '-';
      assert buf[pos..] == "-" + digits;
    }
    s := buf[pos..];
  }

  /** Reading what the buffer printer wrote gives the number back exactly for the values above the smallest. */
  lemma ItoaRoundTripIff(i: int, s: string)
    requires IsInt64(i) && s == if i == MIN64 then "-" else Signed(i)
    ensures ReadInt(s) == Some(i) <==> i != MIN64
  {
    ReadSigned(i);
  }
}
