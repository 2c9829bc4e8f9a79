/** itoa: a number written into a fixed buffer from the right. */
module Decimal {
  import opened Base

  type Int64 = x: int | -0x8000_0000_0000_0000 <= x < 0x8000_0000_0000_0000

  const MIN_INT64: Int64 := -0x8000_0000_0000_0000

  function Digit(d: nat): char
    requires d < 10
  {
    '0' + d as char
  }

  /** The decimal digits of `n`, most significant first. */
  function Digits(n: nat): string {
    if n < 10 then [Digit(n)] else Digits(n / 10) + [Digit(n % 10)]
  }

  function Render(n: int): string {
    if n < 0 then "-" + Digits(-n) else Digits(n)
  }

  // ---- reading back ----

  function ReadDigits(s: string): Option<nat> {
    if s == [] then None
    else
      var last := s[|s| - 1];
      if !('0' <= last <= '9') then None
      else if |s| == 1 then Some((last - '0') as nat)
      else
        match ReadDigits(s[..|s| - 1])
        case None => None
        case Some(n) => Some(10 * n + (last - '0') as nat)
  }

  function ReadDecimal(s: string): Option<int> {
    if s != [] && s[0] == '-'
    then match ReadDigits(s[1..]) case None => None case Some(n) => var m: int := n; Some(-m)
    else match ReadDigits(s) case None => None case Some(n) => Some(n)
  }

  lemma {:induction false} ReadBack(n: nat)
    ensures ReadDigits(Digits(n)) == Some(n) && Digits(n)[0] != '-'
  {
    if n >= 10 {
      ReadBack(n / 10);
      assert Digits(n)[..|Digits(n)| - 1] == Digits(n / 10);
    }
  }

  lemma ReadSigned(d: string, n: nat)
    requires d != [] && d[0] != '-' && ReadDigits(d) == Some(n)
    ensures ReadDecimal(d) == Some(n) && (var m: int := n; ReadDecimal("-" + d) == Some(-m))
  {
    assert ("-" + d)[1..] == d;
  }

  /** Different numbers have different texts: each text reads back to its number. */
  lemma DecimalRoundTrip(n: int)
    ensures ReadDecimal(Render(n)) == Some(n)
  {
    var m: nat := if n < 0 then -n else n;
    ReadBack(m);
    ReadSigned(Digits(m), m);
  }

  // ---- the buffer is long enough ----

  function Pow10(k: nat): nat {
    if k == 0 then 1 else 10 * Pow10(k - 1)
  }

  lemma {:induction false} DigitsLength(n: nat, k: nat)
    requires k > 0 && n < Pow10(k)
    ensures 0 < |Digits(n)| <= k
  {
    if n >= 10 {
      DigitsLength(n / 10, k - 1);
    }
  }

  lemma LastDigit(n: nat)
    requires n > 0
    ensures Digits(n) == (if n / 10 > 0 then Digits(n / 10) else "") + [Digit(n % 10)]
  {
  }

  lemma NineteenDigits(n: nat)
    requires n < 0x8000_0000_0000_0000
    ensures 0 < |Digits(n)| <= 19
  {
    assert Pow10(5) == 100_000;
    assert Pow10(10) == 10_000_000_000;
    assert Pow10(15) == 1_000_000_000_000_000;
    assert Pow10(19) == 10_000_000_000_000_000_000;
    DigitsLength(n, 19);
  }

  /** `-i` in 64 bits. */
  function Negate(i: Int64): Int64 {
    if i == MIN_INT64 then i else -i
  }

  method WriteBefore(buf: array<char>, pos: nat, c: char) returns (next: nat)
    requires 0 < pos <= buf.Length
    modifies buf
    ensures next == pos - 1 && buf[next..] == [c] + old(buf[pos..])
  {
    next := pos - 1;
    buf[next] := c;
    assert buf[next..] == [buf[next]] + buf[pos..];
  }

  /** The digits still to be written. */
  function Ahead(i: int): string {
    if i > 0 then Digits(i) else ""
  }

  lemma AheadStep(i: int, behind: string)
    requires i > 0
    ensures Ahead(i) + behind == Ahead(i / 10) + ([Digit(i % 10)] + behind)
    ensures |Ahead(i)| > 0
  {
    LastDigit(i);
    assert Ahead(i / 10) + [Digit(i % 10)] + behind == Ahead(i / 10) + ([Digit(i % 10)] + behind);
  }

  /** itoa as it runs. The one number whose negation does not fit comes out as a
      bare sign. */
  method Itoa(n: Int64) returns (s: string)
    ensures n != MIN_INT64 ==> s == Render(n)
    ensures n == MIN_INT64 ==> s == "-"
  {
    if n == 0 {
      return "0";
    }
    var neg := n < 0;
    var i: Int64 := if neg then Negate(n) else n;
    var buf := new char[20];
    var pos: nat := buf.Length;
    ghost var all := Ahead(i);
    if i > 0 {
      NineteenDigits(i);
    }
    assert all + buf[pos..] == all;
    while i > 0
      invariant pos <= 20
      invariant |all| <= 19 && all == Ahead(i) + buf[pos..]
      decreases i
    {
      AheadStep(i, buf[pos..]);
      pos := WriteBefore(buf, pos, Digit(i % 10));
      i := i / 10;
    }
    assert all == buf[pos..];
    if neg {
      pos := WriteBefore(buf, pos, '-');
    }
    s := buf[pos..];
  }
}
