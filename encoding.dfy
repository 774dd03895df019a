/** The three text encodings the signed-request pipeline relies on:
    Go's `%x` verb applied to a byte slice, Go's `%d` verb applied to an
    integer, and `strconv.ParseInt(s, 10, 64)`. */
module Encoding {
  import opened Results

  /** A Go `byte`. */
  type Byte = b: int | 0 <= b < 256

  const MinInt64: int := -0x8000_0000_0000_0000
  const MaxInt64: int := 0x7fff_ffff_ffff_ffff
  const MaxUint64: int := 0xffff_ffff_ffff_ffff

  predicate IsInt64(n: int) {
    MinInt64 <= n <= MaxInt64
  }

  /** A Go `int64`. */
  type Int64 = n: int | IsInt64(n)

  /** Go's `string(b)`: a Go string is its bytes, one character per byte. */
  function BytesToString(b: seq<Byte>): (s: string)
    ensures |s| == |b|
    ensures forall i :: 0 <= i < |b| ==> s[i] as int == b[i]
  {
    seq(|b|, i requires 0 <= i < |b| => b[i] as char)
  }

  // ---------------------------------------------------------------------
  // `%x` on a byte slice: two lowercase hex digits per byte, high nibble first

  predicate IsLowerHex(c: char) {
    '0' <= c <= '9' || 'a' <= c <= 'f'
  }

  predicate AllLowerHex(s: string) {
    forall i :: 0 <= i < |s| ==> IsLowerHex(s[i])
  }

  /** The value of one lowercase hex digit. */
  function HexValue(c: char): (n: int)
    requires IsLowerHex(c)
    ensures 0 <= n < 16
  {
    if c <= '9' then c as int - '0' as int else c as int - 'a' as int + 10
  }

  /** The lowercase hex digit of a nibble. */
  function HexDigit(n: int): (c: char)
    requires 0 <= n < 16
    ensures IsLowerHex(c) && HexValue(c) == n
  {
    if n < 10 then ('0' as int + n) as char else ('a' as int + n - 10) as char
  }

  /** `fmt.Sprintf("%x", b)`. */
  function Hex(b: seq<Byte>): (r: string)
    ensures |r| == 2 * |b|
    ensures AllLowerHex(r)
  {
    if b == [] then ""
    else [HexDigit(b[0] / 16), HexDigit(b[0] % 16)] + Hex(b[1..])
  }

  /** The inverse of `Hex`: `None` for an odd length or a character that
      `%x` never writes. */
  function Unhex(s: string): (r: Option<seq<Byte>>)
    ensures r.Some? <==> |s| % 2 == 0 && AllLowerHex(s)
    ensures r.Some? ==> 2 * |r.value| == |s|
  {
    if s == [] then Some([])
    else if |s| == 1 || !IsLowerHex(s[0]) || !IsLowerHex(s[1]) then None
    else
      match Unhex(s[2..])
      case None => None
      case Some(rest) =>
        var byte: Byte := 16 * HexValue(s[0]) + HexValue(s[1]);
        Some([byte] + rest)
  }

  lemma {:induction false} UnhexHex(b: seq<Byte>)
    ensures Unhex(Hex(b)) == Some(b)
  {
    if b != [] {
      var h := Hex(b);
      assert h[2..] == Hex(b[1..]);
      UnhexHex(b[1..]);
      assert 16 * HexValue(h[0]) + HexValue(h[1]) == b[0];
      assert [b[0]] + b[1..] == b;
    }
  }

  lemma {:induction false} HexUnhex(s: string, b: seq<Byte>)
    requires Unhex(s) == Some(b)
    ensures Hex(b) == s
  {
    if s != [] {
      var byte := 16 * HexValue(s[0]) + HexValue(s[1]);
      assert Unhex(s[2..]) == Some(b[1..]) && b[0] == byte;
      HexUnhex(s[2..], b[1..]);
      assert HexDigit(b[0] / 16) == s[0];
      assert HexDigit(b[0] % 16) == s[1];
      assert s == [s[0], s[1]] + s[2..];
    }
  }

  lemma HexInjective(a: seq<Byte>, b: seq<Byte>)
    requires Hex(a) == Hex(b)
    ensures a == b
  {
    UnhexHex(a);
    UnhexHex(b);
  }

  // ---------------------------------------------------------------------
  // `%d` on an integer: a minus sign for negative values, then the decimal
  // digits of the magnitude without leading zeros

  predicate IsDigit(c: char) {
    '0' <= c <= '9'
  }

  predicate AllDigits(s: string) {
    forall i :: 0 <= i < |s| ==> IsDigit(s[i])
  }

  function DigitChar(d: int): (c: char)
    requires 0 <= d < 10
    ensures IsDigit(c) && c as int - '0' as int == d
  {
    ('0' as int + d) as char
  }

  /** The decimal digits of `n`, most significant first: they denote `n`,
      and only 0 is written with a leading zero, as the single digit `0`. */
  function Digits(n: nat): (r: string)
    ensures |r| >= 1 && AllDigits(r)
    ensures r[0] == '0' <==> n == 0
    ensures n == 0 ==> r == "0"
    ensures DecimalValue(r) == n
  {
    if n < 10 then [DigitChar(n)]
    else
      var r := Digits(n / 10) + [DigitChar(n % 10)];
      assert r[..|r| - 1] == Digits(n / 10);
      r
  }

  /** `fmt.Sprintf("%d", n)`. */
  function FormatInt(n: int): (r: string)
    ensures |r| >= 1
    ensures (r[0] == '-') == (n < 0)
    ensures forall i :: 0 <= i < |r| ==> IsDigit(r[i]) || (i == 0 && r[i] == '-')
    ensures var m := if n < 0 then r[1..] else r;
      && m != [] && AllDigits(m) && (m[0] == '0' ==> m == "0")
      && DecimalValue(m) == (if n < 0 then -n else n)
  {
    if n < 0 then "-" + Digits(-n) else Digits(n)
  }

  /** The number a string of decimal digits denotes. */
  function DecimalValue(s: string): nat
    requires AllDigits(s)
  {
    if s == [] then 0
    else DecimalValue(s[..|s| - 1]) * 10 + (s[|s| - 1] as int - '0' as int)
  }

  // ---------------------------------------------------------------------
  // `strconv.ParseInt(s, 10, 64)`

  datatype NumError = ErrSyntax | ErrRange

  /** The length of the run of decimal digits that starts `s`. */
  function DigitRun(s: string): (k: nat)
    ensures k <= |s| && AllDigits(s[..k])
    ensures k < |s| ==> !IsDigit(s[k])
  {
    if s == [] || !IsDigit(s[0]) then 0
    else
      var k := 1 + DigitRun(s[1..]);
      assert s[..k] == [s[0]] + s[1..][..k - 1];
      k
  }

  /** `strconv.ParseUint(s, 10, 64)`. The digits are scanned left to
      right; the scan stops with a range error as soon as the digits read
      so far exceed 2^64 - 1, and with a syntax error at the first
      character that is not a digit, or on an empty string. */
  function ParseUint(s: string): (r: Result<nat, NumError>)
    ensures r.Ok? <==> s != [] && AllDigits(s) && DecimalValue(s) <= MaxUint64
    ensures r.Ok? ==> r.value == DecimalValue(s)
  {
    var k := DigitRun(s);
    if DecimalValue(s[..k]) > MaxUint64 then
      assert AllDigits(s) ==> s[..k] == s;
      Err(ErrRange)
    else if s == [] || k < |s| then Err(ErrSyntax)
    else
      assert s[..k] == s;
      Ok(DecimalValue(s))
  }

  /** A longer run of digits never denotes a smaller number. */
  lemma {:induction false} DecimalValuePrefix(t: string, k: nat)
    requires AllDigits(t) && k <= |t|
    ensures DecimalValue(t[..k]) <= DecimalValue(t)
  {
    if k < |t| {
      var init := t[..|t| - 1];
      DecimalValuePrefix(init, k);
      assert init[..k] == t[..k];
    } else {
      assert t[..k] == t;
    }
  }

  /** `ParseUint` reports a range error exactly when some leading run of
      digits already exceeds 2^64 - 1, whatever follows it. */
  lemma ParseUintRangeError(s: string)
    ensures ParseUint(s) == Err(ErrRange) <==>
      exists k :: 0 < k <= |s| && AllDigits(s[..k]) && DecimalValue(s[..k]) > MaxUint64
  {
    var run := DigitRun(s);
    if ParseUint(s) == Err(ErrRange) {
      assert 0 < run && AllDigits(s[..run]) && DecimalValue(s[..run]) > MaxUint64;
    } else {
      forall k | 0 < k <= |s| && AllDigits(s[..k])
        ensures DecimalValue(s[..k]) <= MaxUint64
      {
        DecimalValuePrefix(s[..run], k);
        assert s[..run][..k] == s[..k];
      }
    }
  }

  /** Whether `s` starts with a minus sign. */
  predicate HasMinus(s: string) {
    s != [] && s[0] == '-'
  }

  /** `s` without its leading `+` or `-`, if it has one. */
  function Magnitude(s: string): (m: string)
    ensures |m| <= |s|
  {
    if s != [] && (s[0] == '+' || s[0] == '-') then s[1..] else s
  }

  /** `strconv.ParseInt(s, 10, 64)`: an optional `+` or `-`, then what
      `ParseUint` accepts; the magnitude must fit a signed 64-bit integer,
      which allows one more negative value than positive ones. */
  function ParseInt(s: string): (r: Result<int, NumError>)
    ensures r.Ok? <==>
      && Magnitude(s) != [] && AllDigits(Magnitude(s))
      && DecimalValue(Magnitude(s)) <= (if HasMinus(s) then -MinInt64 else MaxInt64)
    ensures r.Ok? ==>
      r.value == (if HasMinus(s) then -(DecimalValue(Magnitude(s)) as int) else DecimalValue(Magnitude(s)))
    ensures r.Ok? ==> IsInt64(r.value)
    ensures r == Err(ErrSyntax) <==> ParseUint(Magnitude(s)) == Err(ErrSyntax)
  {
    if s == [] then Err(ErrSyntax)
    else
      match ParseUint(Magnitude(s))
      case Err(e) => Err(e)
      case Ok(u) =>
        if !HasMinus(s) && u > MaxInt64 then Err(ErrRange)
        else if HasMinus(s) && u > -MinInt64 then Err(ErrRange)
        else
          Ok(if HasMinus(s) then -(u as int) else u as int)
  }

  /** What `%d` writes, `ParseInt` reads back. */
  lemma FormatThenParse(n: int)
    requires IsInt64(n)
    ensures ParseInt(FormatInt(n)) == Ok(n)
  {
    var magnitude := if n < 0 then -n else n;
    var digits := Digits(magnitude);
    assert DigitRun(digits) == |digits|;
    assert digits[..|digits|] == digits;
    if n < 0 {
      assert FormatInt(n)[1..] == digits;
    }
  }
}
