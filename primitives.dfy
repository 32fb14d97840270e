/** Shared vocabulary: optional values and results, Go's int64 with its
    two's-complement wrap-around, Go's `%d` decimal formatting and Go's
    `len` on a string (a UTF-8 byte count). */
module Primitives {

  datatype Option<+T> = None | Some(value: T)

  datatype Result<+T, +E> = Ok(value: T) | Err(error: E)

  const TWO_POW_63: int := 0x8000_0000_0000_0000
  const TWO_POW_64: int := 0x1_0000_0000_0000_0000

  /** Go's `int64` (and `int` on a 64-bit platform). */
  type Int64 = x: int | -0x8000_0000_0000_0000 <= x < 0x8000_0000_0000_0000

  /** The int64 value of an exact result: arithmetic on int64 wraps modulo 2^64. */
  function Wrap64(x: int): (r: Int64)
    ensures (x - r) % TWO_POW_64 == 0
    ensures -TWO_POW_63 <= x < TWO_POW_63 ==> r == x
  {
    (x + TWO_POW_63) % TWO_POW_64 - TWO_POW_63
  }

  function DigitChar(d: nat): (c: char)
    requires d < 10
    ensures '0' <= c <= '9' && c as int - '0' as int == d
  {
    ['0', '1', '2', '3', '4', '5', '6', '7', '8', '9'][d]
  }

  /** The number a string of decimal digits stands for, most significant first. */
  function DigitsValue(s: string): int {
    if s == [] then 0
    else DigitsValue(s[..|s| - 1]) * 10 + (s[|s| - 1] as int - '0' as int)
  }

  /** The number Go's `%d` text stands for: an optional '-' and its digits. */
  function ParseInt(s: string): int {
    if |s| > 0 && s[0] == '-' then -DigitsValue(s[1..]) else DigitsValue(s)
  }

  /** Decimal digits of a natural number, most significant first. */
  function Digits(n: nat): (r: string)
    ensures |r| > 0
    ensures forall i :: 0 <= i < |r| ==> '0' <= r[i] <= '9'
    ensures DigitsValue(r) == n
  {
    if n < 10 then [DigitChar(n)]
    else
      var high := Digits(n / 10);
      assert (high + [DigitChar(n % 10)])[..|high|] == high;
      high + [DigitChar(n % 10)]
  }

  /** Go's `fmt.Sprintf("%d", n)`. */
  function FormatInt(n: int): (r: string)
    ensures |r| > 0
    ensures r[0] == '-' <==> n < 0
    ensures forall i :: 0 <= i < |r| && !(i == 0 && n < 0) ==> '0' <= r[i] <= '9'
  {
    if n < 0 then "-" + Digits(-n) else Digits(n)
  }

  /** Reading Go's `%d` text back gives the number. */
  lemma FormatIntRoundTrip(n: int)
    ensures ParseInt(FormatInt(n)) == n
  {
    if n < 0 {
      assert FormatInt(n)[1..] == Digits(-n);
    }
  }

  /** Distinct numbers format to distinct text. */
  lemma FormatIntInjective(m: int, n: int)
    requires FormatInt(m) == FormatInt(n)
    ensures m == n
  {
    FormatIntRoundTrip(m);
    FormatIntRoundTrip(n);
  }

  /** A `%d` text followed by a non-digit cannot be a proper prefix of
      another `%d` text followed by a non-digit. */
  lemma FormatIntPrefixLength(m: int, n: int, x: string, y: string)
    requires |x| > 0 && !('0' <= x[0] <= '9')
    requires FormatInt(m) + x == FormatInt(n) + y
    ensures |FormatInt(n)| <= |FormatInt(m)|
  {
    var rm, rn := FormatInt(m), FormatInt(n);
    var z := rm + x;
    assert z[|rm|] == x[0];
    assert forall i | 0 < i < |rn| :: z[i] == rn[i] by {
      forall i | 0 < i < |rn| ensures z[i] == rn[i] {
        assert z[i] == (rn + y)[i];
      }
    }
  }

  /** Two `%d` texts followed by a non-digit agree only when the numbers do:
      the number ends where the first non-digit begins. */
  lemma FormatIntPrefix(m: int, n: int, x: string, y: string)
    requires |x| > 0 && |y| > 0 && !('0' <= x[0] <= '9') && !('0' <= y[0] <= '9')
    requires FormatInt(m) + x == FormatInt(n) + y
    ensures m == n && x == y
  {
    var rm, rn := FormatInt(m), FormatInt(n);
    FormatIntPrefixLength(m, n, x, y);
    FormatIntPrefixLength(n, m, y, x);
    assert (rm + x)[..|rm|] == rm && (rn + y)[..|rn|] == rn;
    assert (rm + x)[|rm|..] == x && (rn + y)[|rn|..] == y;
    FormatIntInjective(m, n);
  }

  /** Number of bytes of one character in UTF-8. */
  function Utf8Width(c: char): (w: nat)
    ensures 1 <= w <= 4
  {
    if c as int < 0x80 then 1
    else if c as int < 0x800 then 2
    else if c as int < 0x1_0000 then 3
    else 4
  }

  /** Go's `len(s)`: the length of a string in UTF-8 bytes. */
  function Utf8Len(s: string): (n: nat)
    ensures |s| <= n <= 4 * |s|
    ensures n == 0 <==> s == []
  {
    if s == [] then 0 else Utf8Width(s[0]) + Utf8Len(s[1..])
  }

  predicate IsAscii(s: string) {
    forall i :: 0 <= i < |s| ==> s[i] as int < 0x80
  }

  /** Go's byte length equals the character count exactly on ASCII text; any
      other character takes more than one byte. */
  lemma {:induction false} AsciiUtf8Len(s: string)
    ensures Utf8Len(s) == |s| <==> IsAscii(s)
  {
    if s != [] {
      AsciiUtf8Len(s[1..]);
      assert IsAscii(s) <==> s[0] as int < 0x80 && IsAscii(s[1..]) by {
        if IsAscii(s) {
          forall i | 0 <= i < |s[1..]| ensures s[1..][i] as int < 0x80 {
            assert s[1..][i] == s[i + 1];
          }
        }
        if s[0] as int < 0x80 && IsAscii(s[1..]) {
          forall i | 0 <= i < |s| ensures s[i] as int < 0x80 {
            if i > 0 {
              assert s[i] == s[1..][i - 1];
            }
          }
        }
      }
    }
  }
}
