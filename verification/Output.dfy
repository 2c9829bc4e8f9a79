/** boundOutput: cutting tool output on a UTF-8 boundary. */
module Output {
  import opened Decimal

  newtype Byte = b: int | 0 <= b < 256

  predicate Tail(b: Byte) {
    0x80 <= b <= 0xBF
  }

  /** Any byte that does not continue a character. */
  predicate RuneStart(b: Byte) {
    !Tail(b)
  }

  /** The length of the character `s` starts with, by the syntax of section 4 of
      RFC 3629; 0 when there is none. */
  function CharLen(s: seq<Byte>): (n: nat)
    ensures n <= 4 && n <= |s|
    ensures n > 0 ==> RuneStart(s[0]) && forall i :: 0 < i < n ==> Tail(s[i])
  {
    if s == [] then 0
    else if s[0] <= 0x7F then 1
    else if |s| >= 2 && 0xC2 <= s[0] <= 0xDF && Tail(s[1]) then 2
    else if |s| >= 3 && Second3(s[0], s[1]) && Tail(s[2]) then 3
    else if |s| >= 4 && Second4(s[0], s[1]) && Tail(s[2]) && Tail(s[3]) then 4
    else 0
  }

  /** First two bytes of three: neither overlong nor a surrogate. */
  predicate Second3(a: Byte, b: Byte) {
    || (a == 0xE0 && 0xA0 <= b <= 0xBF)
    || ((0xE1 <= a <= 0xEC || 0xEE <= a <= 0xEF) && Tail(b))
    || (a == 0xED && 0x80 <= b <= 0x9F)
  }

  /** First two bytes of four: neither overlong nor above U+10FFFF. */
  predicate Second4(a: Byte, b: Byte) {
    || (a == 0xF0 && 0x90 <= b <= 0xBF)
    || (0xF1 <= a <= 0xF3 && Tail(b))
    || (a == 0xF4 && 0x80 <= b <= 0x8F)
  }

  predicate Utf8(s: seq<Byte>) {
    s == [] || (CharLen(s) > 0 && Utf8(s[CharLen(s)..]))
  }

  // ---- where valid text can be cut ----

  /** The first character is decided by its own bytes alone. */
  lemma CharLenPrefix(s: seq<Byte>, k: nat)
    requires k <= |s| && CharLen(s) > 0
    ensures CharLen(s[..k]) == if k < CharLen(s) then 0 else CharLen(s)
  {
  }

  /** In valid UTF-8 the valid prefixes are exactly those that end before a byte
      that starts a character, and the whole. */
  lemma {:induction false} PrefixValidIff(s: seq<Byte>, k: nat)
    requires Utf8(s) && k <= |s|
    ensures Utf8(s[..k]) <==> k == |s| || RuneStart(s[k])
    decreases |s|
  {
    if s != [] && k > 0 {
      var n := CharLen(s);
      CharLenPrefix(s, k);
      if k >= n {
        PrefixValidIff(s[n..], k - n);
        assert s[..k][n..] == s[n..][..k - n];
      }
    }
  }

  lemma CharLenExtend(a: seq<Byte>, b: seq<Byte>)
    requires CharLen(a) > 0
    ensures CharLen(a + b) == CharLen(a)
  {
    var all := a + b;
    assert forall i :: 0 <= i < |a| ==> all[i] == a[i];
  }

  lemma Utf8Cons(s: seq<Byte>, n: nat)
    requires CharLen(s) == n > 0 && Utf8(s[n..])
    ensures Utf8(s)
  {
  }

  lemma Utf8Uncons(s: seq<Byte>)
    requires Utf8(s) && s != []
    ensures CharLen(s) > 0 && Utf8(s[CharLen(s)..])
  {
  }

  /** Valid text made longer at the end by `b`. */
  lemma ConcatStep(a: seq<Byte>, b: seq<Byte>, n: nat)
    requires CharLen(a) == n > 0 && Utf8(a[n..] + b)
    ensures Utf8(a + b)
  {
    CharLenExtend(a, b);
    assert (a + b)[n..] == a[n..] + b;
    Utf8Cons(a + b, n);
  }

  lemma {:induction false} Utf8Concat(a: seq<Byte>, b: seq<Byte>)
    requires Utf8(a) && Utf8(b)
    ensures Utf8(a + b)
    decreases |a|
  {
    if a == [] {
      assert a + b == b;
    } else {
      Utf8Uncons(a);
      Utf8Concat(a[CharLen(a)..], b);
      ConcatStep(a, b, CharLen(a));
    }
  }

  // ---- the cut ----

  /** The last place at or before `k` where a character can start. */
  function CutAt(s: seq<Byte>, k: nat): (cut: nat)
    requires k < |s|
    ensures cut <= k
    ensures cut == 0 || RuneStart(s[cut])
    ensures forall i :: cut < i <= k ==> !RuneStart(s[i])
  {
    if k == 0 || RuneStart(s[k]) then k else CutAt(s, k - 1)
  }

  lemma {:induction false} CutNear(s: seq<Byte>, k: nat)
    requires Utf8(s) && k < |s|
    ensures exists i :: 0 <= i <= k < i + 4 && RuneStart(s[i])
    decreases |s|
  {
    var n := CharLen(s);
    if k < n {
      assert RuneStart(s[0]);
    } else {
      CutNear(s[n..], k - n);
      var i :| 0 <= i <= k - n < i + 4 && RuneStart(s[n..][i]);
      assert RuneStart(s[n + i]);
    }
  }

  /** Cutting valid text at `limit` keeps the longest valid prefix no longer than
      the limit, and drops at most three bytes more than it must. */
  lemma CutIsLongest(s: seq<Byte>, limit: nat)
    requires Utf8(s) && limit < |s|
    ensures Utf8(s[..CutAt(s, limit)])
    ensures forall k :: CutAt(s, limit) < k <= limit ==> !Utf8(s[..k])
    ensures limit - 3 <= CutAt(s, limit) <= limit
  {
    var cut := CutAt(s, limit);
    PrefixValidIff(s, cut);
    PrefixValidIff(s, 0);
    forall k | cut < k <= limit
      ensures !Utf8(s[..k])
    {
      PrefixValidIff(s, k);
    }
    CutNear(s, limit);
  }

  // ---- the marker ----

  predicate IsAscii(s: string) {
    forall i :: 0 <= i < |s| ==> s[i] <= '\U{7F}'
  }

  function Bytes(s: string): seq<Byte>
    requires IsAscii(s)
  {
    seq(|s|, i requires 0 <= i < |s| => s[i] as int as Byte)
  }

  lemma {:induction false} AsciiIsUtf8(s: seq<Byte>)
    requires forall i :: 0 <= i < |s| ==> s[i] <= 0x7F
    ensures Utf8(s)
    decreases |s|
  {
    if s != [] {
      AsciiIsUtf8(s[1..]);
    }
  }

  lemma {:induction false} DigitsAscii(n: nat)
    ensures IsAscii(Digits(n))
  {
    if n >= 10 {
      DigitsAscii(n / 10);
    }
  }

  function Marker(shown: nat, total: nat): (m: string)
    ensures IsAscii(m)
  {
    DigitsAscii(shown);
    DigitsAscii(total);
    "\n[output truncated: " + Render(shown) + " of " + Render(total) + " bytes shown]"
  }

  const DEFAULT_MAX := 65536

  function Limit(maxBytes: int): nat {
    if maxBytes <= 0 then DEFAULT_MAX else maxBytes
  }

  function Bounded(maxBytes: int, s: seq<Byte>): seq<Byte> {
    if |s| <= Limit(maxBytes) then s
    else s[..CutAt(s, Limit(maxBytes))] + Bytes(Marker(CutAt(s, Limit(maxBytes)), |s|))
  }

  /** What the model is shown of valid output: valid text, whole when it fits,
      otherwise its longest valid prefix and a marker that counts both. */
  lemma BoundedIsValid(maxBytes: int, s: seq<Byte>)
    requires Utf8(s)
    ensures Utf8(Bounded(maxBytes, s))
    ensures |s| > Limit(maxBytes) ==>
      exists cut: nat :: cut <= Limit(maxBytes) <= cut + 3
        && Bounded(maxBytes, s) == s[..cut] + Bytes(Marker(cut, |s|))
        && Utf8(s[..cut]) && forall k :: cut < k <= Limit(maxBytes) ==> !Utf8(s[..k])
  {
    var limit := Limit(maxBytes);
    if |s| > limit {
      var cut := CutAt(s, limit);
      CutIsLongest(s, limit);
      AsciiIsUtf8(Bytes(Marker(cut, |s|)));
      Utf8Concat(s[..cut], Bytes(Marker(cut, |s|)));
    }
  }

  /** On any bytes, UTF-8 or not: the cut lies within three bytes of the limit
      exactly when one of the four bytes there can start a character. */
  lemma CutNearIff(s: seq<Byte>, limit: nat)
    requires limit < |s|
    ensures limit - 3 <= CutAt(s, limit) <==> limit <= 3 || exists i :: limit - 3 <= i <= limit && RuneStart(s[i])
  {
    var cut := CutAt(s, limit);
    if limit > 3 && limit - 3 <= cut {
      assert RuneStart(s[cut]);
    }
  }

  /** On any bytes: everything is cut away exactly when no byte after the first,
      up to the limit, can start a character. */
  lemma CutVanishesIff(s: seq<Byte>, limit: nat)
    requires limit < |s|
    ensures CutAt(s, limit) == 0 <==> forall i :: 0 < i <= limit ==> Tail(s[i])
  {
  }

  /** Six stray bytes at a limit of five: nothing is kept. */
  lemma StrayBytesVanish()
    ensures CutAt([0x80, 0x80, 0x80, 0x80, 0x80, 0x80], 5) == 0
  {
    CutVanishesIff([0x80, 0x80, 0x80, 0x80, 0x80, 0x80], 5);
  }

  /** boundOutput as it runs. */
  method BoundOutput(maxBytes: int, s: seq<Byte>) returns (r: seq<Byte>)
    ensures r == Bounded(maxBytes, s)
  {
    var limit := maxBytes;
    if limit <= 0 {
      limit := DEFAULT_MAX;
    }
    if |s| <= limit {
      return s;
    }
    var cut := limit;
    while cut > 0 && !RuneStart(s[cut])
      invariant 0 <= cut <= limit
      invariant CutAt(s, cut) == CutAt(s, limit)
    {
      cut := cut - 1;
    }
    return s[..cut] + Bytes(Marker(cut, |s|));
  }
}
