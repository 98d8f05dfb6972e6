/** Bytes, powers of two, and decimal numbers as Go prints and reads them. */
module Numbers {
  type Byte = b: int | 0 <= b < 256

  function Pow2(k: nat): (p: nat)
    ensures p >= 1
  {
    if k == 0 then 1 else 2 * Pow2(k - 1)
  }

  lemma {:induction false} Pow2Adds(a: nat, b: nat)
    ensures Pow2(a + b) == Pow2(a) * Pow2(b)
  {
    if a > 0 {
      Pow2Adds(a - 1, b);
      assert Pow2(a + b) == 2 * Pow2(a - 1 + b);
    }
  }

  // ------------------------------------------------------------------ decimals

  const MAX_INT64: int := 0x7FFF_FFFF_FFFF_FFFF
  const MAX_UINT64: int := 0xFFFF_FFFF_FFFF_FFFF

  predicate IsDigit(c: char) {
    '0' <= c <= '9'
  }

  function DigitOf(n: nat): (c: char)
    requires n < 10
    ensures IsDigit(c)
  {
    '0' + n as char
  }

  function Decimal(n: nat): string {
    if n < 10 then [DigitOf(n)] else Decimal(n / 10) + [DigitOf(n % 10)]
  }

  /** `acc` followed by the digits of `s`, stopping at the largest number; zero if something else comes first. */
  function Unsigned(s: string, acc: nat): nat {
    if s == "" then acc
    else if !IsDigit(s[0]) then 0
    else
      var next := 10 * acc + (s[0] - '0') as int;
      if next > MAX_UINT64 then MAX_UINT64 else Unsigned(s[1..], next)
  }

  /** The value of `strconv.ParseInt(s, 10, 64)`, whatever its error. */
  function ParseInt(s: string): int {
    if "-" <= s then
      var n: int := Unsigned(s[1..], 0);
      if n > MAX_INT64 + 1 then -MAX_INT64 - 1 else -n
    else
      var n: int := Unsigned(if "+" <= s then s[1..] else s, 0);
      if n > MAX_INT64 then MAX_INT64 else n
  }

  lemma {:induction false} DecimalDigits(n: nat)
    ensures Decimal(n) != "" && forall i :: 0 <= i < |Decimal(n)| ==> IsDigit(Decimal(n)[i])
  {
    if n >= 10 {
      DecimalDigits(n / 10);
    }
  }

  lemma {:induction false} UnsignedReads(n: nat, rest: string)
    requires n <= MAX_UINT64
    ensures Unsigned(Decimal(n) + rest, 0) == Unsigned(rest, n)
  {
    if n < 10 {
      assert (Decimal(n) + rest)[1..] == rest;
    } else {
      var d := [DigitOf(n % 10)];
      UnsignedReads(n / 10, d + rest);
      assert Decimal(n) + rest == Decimal(n / 10) + (d + rest);
      assert (d + rest)[1..] == rest;
    }
  }

  lemma ParseUnsigned(s: string)
    requires s != "" && IsDigit(s[0])
    ensures ParseInt(s) == if Unsigned(s, 0) > MAX_INT64 then MAX_INT64 else Unsigned(s, 0)
  {
    hide Unsigned;
  }

  /** A printed counter is read back, as long as it fits; one that does not is read as the largest number. */
  lemma ParsedIsPrinted(n: nat)
    requires n <= MAX_UINT64
    ensures ParseInt(Decimal(n)) == if n <= MAX_INT64 then n else MAX_INT64
  {
    hide Decimal, ParseInt;
    DecimalDigits(n);
    assert Decimal(n) + "" == Decimal(n);
    UnsignedReads(n, "");
    assert Unsigned("", n) == n;
    hide Unsigned;
    ParseUnsigned(Decimal(n));
  }

  lemma ParseSigned(digits: string)
    ensures ParseInt("-" + digits) == if Unsigned(digits, 0) > MAX_INT64 + 1 then -MAX_INT64 - 1 else 0 - Unsigned(digits, 0)
    ensures ParseInt("+" + digits) == if Unsigned(digits, 0) > MAX_INT64 then MAX_INT64 else Unsigned(digits, 0)
  {
    hide Unsigned;
    assert ("-" + digits)[1..] == digits && ("+" + digits)[1..] == digits;
    assert ("+" + digits)[0] == '+';
  }

  /** A sign is read, and a negative number stops at the least one. */
  lemma ParsedWithSign(n: nat)
    requires n <= MAX_UINT64
    ensures ParseInt("-" + Decimal(n)) == if n <= MAX_INT64 + 1 then 0 - n else -MAX_INT64 - 1
    ensures ParseInt("+" + Decimal(n)) == if n <= MAX_INT64 then n else MAX_INT64
  {
    hide Decimal, ParseInt;
    assert Decimal(n) + "" == Decimal(n);
    UnsignedReads(n, "");
    assert Unsigned("", n) == n;
    hide Unsigned;
    ParseSigned(Decimal(n));
  }

  /** Anything but digits behind a number that fits makes it zero. */
  lemma GarbageIsZero(n: nat, c: char, rest: string)
    requires n <= MAX_UINT64 && !IsDigit(c)
    ensures ParseInt(Decimal(n) + [c] + rest) == 0
  {
    var s := Decimal(n) + [c] + rest;
    assert s == Decimal(n) + ([c] + rest);
    UnsignedReads(n, [c] + rest);
    DecimalDigits(n);
    assert s[0] == Decimal(n)[0];
    assert Unsigned([c] + rest, n) == 0;
    hide Unsigned, Decimal;
    ParseUnsigned(s);
  }
}
