/** How many bytes encoding/json spends on a value. Strings count exactly, by the escaping
    of section 7 of RFC 8259 plus Go's HTML-safe escapes; integers by their digits; the
    width of a float is any function within the bounds FloatWidths states. */
module JsonSize {
  const MIN_INT64 := -0x8000_0000_0000_0000
  const MAX_INT64 := 0x7fff_ffff_ffff_ffff
  const MAX_UINT64 := 0xffff_ffff_ffff_ffff

  predicate Int64(n: int) {
    MIN_INT64 <= n <= MAX_INT64
  }

  function Utf8Bytes(c: char): (n: nat)
    ensures 1 <= n <= 4
  {
    var u := c as int;
    if u < 0x80 then 1 else if u < 0x800 then 2 else if u < 0x10000 then 3 else 4
  }

  function CharLen(c: char): (n: nat)
    ensures 1 <= n <= 6
  {
    var u := c as int;
    if c == '\"' || c == '\\' || c == '\n' || c == '\r' || c == '\t' || u == 8 || u == 12 then 2
    else if u < 0x20 || c == '<' || c == '>' || c == '&' || u == 0x2028 || u == 0x2029 then 6
    else Utf8Bytes(c)
  }

  function ByteLen(s: string): (n: nat)
    ensures |s| <= n <= 4 * |s|
  {
    if s == "" then 0 else ByteLen(s[..|s| - 1]) + Utf8Bytes(s[|s| - 1])
  }

  function CharsLen(s: string): (n: nat)
    ensures |s| <= n <= 6 * |s|
  {
    if s == "" then 0 else CharsLen(s[..|s| - 1]) + CharLen(s[|s| - 1])
  }

  function StringLen(s: string): (n: nat)
    ensures |s| + 2 <= n <= 6 * |s| + 2
  {
    CharsLen(s) + 2
  }

  /** Plain ASCII without anything to escape. */
  predicate PlainChar(c: char) {
    'a' <= c <= 'z' || 'A' <= c <= 'Z' || '0' <= c <= '9'
  }

  lemma {:induction false} PlainLen(s: string)
    requires forall i :: 0 <= i < |s| ==> PlainChar(s[i])
    ensures CharsLen(s) == |s| == ByteLen(s)
  {
    if s != "" {
      PlainLen(s[..|s| - 1]);
    }
  }

  function Digits(n: nat): (d: nat)
    ensures d >= 1
  {
    if n < 10 then 1 else Digits(n / 10) + 1
  }

  function IntLen(n: int): (d: nat)
    ensures d >= 1
  {
    if n < 0 then 1 + Digits(-n) else Digits(n)
  }

  function Pow10(k: nat): (p: nat)
    ensures p >= 1
  {
    if k == 0 then 1 else 10 * Pow10(k - 1)
  }

  lemma {:induction false} DigitsBound(n: nat, k: nat)
    requires k > 0 && n < Pow10(k)
    ensures Digits(n) <= k
  {
    if n >= 10 {
      DigitsBound(n / 10, k - 1);
    }
  }

  lemma IntBound(n: int)
    requires MIN_INT64 <= n <= MAX_UINT64
    ensures IntLen(n) <= 20
  {
    assert Pow10(7) == 10_000_000;
    assert Pow10(13) == 10_000_000_000_000;
    assert Pow10(19) == 10_000_000_000_000_000_000;
    assert Pow10(20) == 100_000_000_000_000_000_000;
    if n < 0 {
      DigitsBound(-n, 19);
    } else {
      DigitsBound(n, 20);
    }
  }

  type Widths = real -> nat

  const MAX_FLOAT_WIDTH := 25

  ghost predicate FloatWidths(fw: Widths) {
    forall r: real :: 1 <= fw(r) <= MAX_FLOAT_WIDTH
  }
}
