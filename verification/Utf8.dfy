/** UTF-8 as in section 3 of RFC 3629, with a decoder that skips what is malformed. */
module Utf8 {
  import opened Wrappers

  type Byte = b: int | 0 <= b < 256

  /** One to four bytes, by the size of the code point. */
  function EncodeChar(c: char): (r: seq<Byte>)
    ensures 1 <= |r| <= 4
  {
    var n := c as int;
    if n < 0x80 then [n]
    else if n < 0x800 then [0xC0 + n / 64, 0x80 + n % 64]
    else if n < 0x10000 then [0xE0 + n / 4096, 0x80 + n / 64 % 64, 0x80 + n % 64]
    else
      assert n <= 0x10FFFF;
      [0xF0 + n / 262144, 0x80 + n / 4096 % 64, 0x80 + n / 64 % 64, 0x80 + n % 64]
  }

  function Encode(s: string): seq<Byte> {
    if s == "" then [] else EncodeChar(s[0]) + Encode(s[1..])
  }

  predicate Continuation(b: Byte) {
    0x80 <= b < 0xC0
  }

  /** How many bytes the lead byte announces; none if it cannot lead. */
  function Announced(b: Byte): nat {
    if b < 0x80 then 1
    else if 0xC2 <= b < 0xE0 then 2
    else if 0xE0 <= b < 0xF0 then 3
    else if 0xF0 <= b < 0xF5 then 4
    else 0
  }

  predicate AllContinue(b: seq<Byte>) {
    forall i :: 0 <= i < |b| ==> Continuation(b[i])
  }

  function Low(b: Byte): int {
    b as int - 0x80
  }

  /** The code point from the lead byte's bits and up to three continuation bytes. */
  function Bits(n: int, rest: seq<Byte>): int {
    if |rest| == 0 then n
    else if |rest| == 1 then n * 64 + Low(rest[0])
    else if |rest| == 2 then n * 4096 + Low(rest[0]) * 64 + Low(rest[1])
    else n * 262144 + Low(rest[0]) * 4096 + Low(rest[1]) * 64 + Low(rest[2])
  }

  function LeadBits(b: Byte): int {
    var n: int := b;
    if n < 0x80 then n else if n < 0xE0 then n - 0xC0 else if n < 0xF0 then n - 0xE0 else n - 0xF0
  }

  /** Shortest form only, no surrogates, nothing past the last code point. */
  predicate InRange(n: int, length: nat) {
    match length
    case 1 => 0 <= n < 0x80
    case 2 => 0x80 <= n < 0x800
    case 3 => 0x800 <= n < 0xD800 || 0xE000 <= n < 0x10000
    case 4 => 0x10000 <= n < 0x110000
    case _ => false
  }

  /** The character at the front and its length in bytes, if the bytes there are well-formed. */
  function DecodeChar(b: seq<Byte>): (r: Option<(char, nat)>)
    ensures r.Some? ==> 1 <= r.value.1 <= |b|
  {
    if b == [] then None
    else
      var length := Announced(b[0]);
      if length == 0 || length > |b| || !AllContinue(b[1..length]) then None
      else
        var n := Bits(LeadBits(b[0]), b[1..length]);
        if InRange(n, length) then Some((n as char, length)) else None
  }

  /** Decoding that ignores errors. */
  function DecodeIgnore(b: seq<Byte>): string
    decreases |b|
  {
    if b == [] then ""
    else
      match DecodeChar(b)
      case Some(r) => [r.0] + DecodeIgnore(b[r.1..])
      case None => DecodeIgnore(b[1..])
  }

  // ---------- One character ----------

  lemma EncodeCharShape(c: char)
    ensures var b := EncodeChar(c);
            && Announced(b[0]) == |b| && AllContinue(b[1..])
            && Bits(LeadBits(b[0]), b[1..]) == c as int && InRange(c as int, |b|)
  {
    var n := c as int;
    if 0x800 <= n < 0x10000 {
      assert n == n / 4096 * 4096 + n / 64 % 64 * 64 + n % 64;
    } else if 0x10000 <= n {
      assert n == n / 262144 * 262144 + n / 4096 % 64 * 4096 + n / 64 % 64 * 64 + n % 64;
    }
  }

  lemma DecodeEncoded(c: char, rest: seq<Byte>)
    ensures DecodeChar(EncodeChar(c) + rest) == Some((c, |EncodeChar(c)|))
  {
    EncodeCharShape(c);
    var b := EncodeChar(c);
    assert (b + rest)[0] == b[0] && (b + rest)[1..|b|] == b[1..];
    hide Bits, EncodeChar, Announced, LeadBits, InRange;
  }

  /** Continuation bytes alone decode to nothing. */
  lemma {:induction false} ContinuationsVanish(b: seq<Byte>)
    requires AllContinue(b)
    ensures DecodeIgnore(b) == ""
  {
    if b != [] {
      assert Announced(b[0]) == 0;
      ContinuationsVanish(b[1..]);
    }
  }

  /** A character cut short decodes to nothing. */
  lemma CutCharVanishes(c: char, k: nat)
    requires k < |EncodeChar(c)|
    ensures DecodeIgnore(EncodeChar(c)[..k]) == ""
  {
    EncodeCharShape(c);
    var b := EncodeChar(c);
    if k > 0 {
      assert b[..k][0] == b[0];
      assert forall i :: 0 <= i < k - 1 ==> b[..k][1..][i] == b[1..][i];
      ContinuationsVanish(b[..k][1..]);
    }
  }

  // ---------- Round trip and cutting ----------

  lemma {:induction false} DecodeInverts(s: string)
    ensures DecodeIgnore(Encode(s)) == s
  {
    if s != "" {
      DecodeEncoded(s[0], Encode(s[1..]));
      var b := EncodeChar(s[0]);
      assert (b + Encode(s[1..]))[|b|..] == Encode(s[1..]);
      DecodeInverts(s[1..]);
    }
  }

  /** Different strings have different encodings. */
  lemma EncodeInjective(a: string, b: string)
    requires Encode(a) == Encode(b)
    ensures a == b
  {
    DecodeInverts(a);
    DecodeInverts(b);
  }

  function Size(s: string): nat {
    |Encode(s)|
  }

  lemma EncodeCons(c: char, s: string)
    ensures Encode([c] + s) == EncodeChar(c) + Encode(s)
  {
    hide EncodeChar;
    assert ([c] + s)[1..] == s;
  }

  lemma Associates<T>(a: seq<T>, b: seq<T>, c: seq<T>)
    ensures (a + b) + c == a + (b + c)
  {
  }

  lemma {:induction false} EncodeAppend(a: string, b: string)
    ensures Encode(a + b) == Encode(a) + Encode(b)
  {
    if a == "" {
      assert a + b == b;
    } else {
      hide *;
      var c, rest := a[0], a[1..];
      EncodeAppend(rest, b);
      assert a == [c] + rest;
      Associates([c], rest, b);
      EncodeCons(c, rest);
      EncodeCons(c, rest + b);
      Associates(EncodeChar(c), Encode(rest), Encode(b));
    }
  }

  /** The longest prefix whose encoding fits in `n` bytes. */
  function Fitting(s: string, n: nat): string {
    if s == "" || |EncodeChar(s[0])| > n then "" else [s[0]] + Fitting(s[1..], n - |EncodeChar(s[0])|)
  }

  lemma {:induction false} FittingIsLongest(s: string, n: nat)
    ensures var p := Fitting(s, n);
            && p <= s && Size(p) <= n
            && (p == s || Size(s[..|p| + 1]) > n)
            && (Size(s) <= n ==> p == s)
  {
    if s != "" && |EncodeChar(s[0])| <= n {
      var m := n - |EncodeChar(s[0])|;
      FittingIsLongest(s[1..], m);
      var p := Fitting(s[1..], m);
      assert ([s[0]] + p)[1..] == p;
      assert s == [s[0]] + s[1..];
      if p != s[1..] {
        assert s[..|p| + 2] == [s[0]] + s[1..][..|p| + 1];
        assert ([s[0]] + s[1..][..|p| + 1])[1..] == s[1..][..|p| + 1];
      }
    } else if s != "" {
      assert s[..1] == [s[0]] && s[..1][1..] == "";
    }
  }

  /** Cutting the encoding and ignoring errors keeps exactly the characters that fit. */
  lemma {:induction false} CutIsFitting(s: string, n: nat)
    requires n <= Size(s)
    ensures DecodeIgnore(Encode(s)[..n]) == Fitting(s, n)
  {
    if s != "" {
      var b, rest := EncodeChar(s[0]), Encode(s[1..]);
      if |b| > n {
        assert Encode(s)[..n] == b[..n];
        CutCharVanishes(s[0], n);
      } else {
        assert Encode(s)[..n] == b + rest[..n - |b|];
        DecodeEncoded(s[0], rest[..n - |b|]);
        assert (b + rest[..n - |b|])[|b|..] == rest[..n - |b|];
        CutIsFitting(s[1..], n - |b|);
      }
    }
  }
}
