/**
 UTF-8 as section 3 of RFC 3629 defines it, the decoder that drops what it
 cannot decode, and the bounded prefix that the evidence collector keeps.
 A `char` is a Unicode scalar value, so every string here can be encoded.
 */
module Utf8 {
  import opened Wrappers

  newtype Byte = b: int | 0 <= b < 256

  /** The encoding of one scalar value, one to four bytes long. */
  function EncodeChar(c: char): (bytes: seq<Byte>)
    ensures 1 <= |bytes| <= 4
  {
    var n := c as int;
    if n < 0x80 then
      [n as Byte]
    else if n < 0x800 then
      [(0xC0 + n / 0x40) as Byte, (0x80 + n % 0x40) as Byte]
    else if n < 0x1_0000 then
      [(0xE0 + n / 0x1000) as Byte, (0x80 + n / 0x40 % 0x40) as Byte, (0x80 + n % 0x40) as Byte]
    else
      [(0xF0 + n / 0x4_0000) as Byte, (0x80 + n / 0x1000 % 0x40) as Byte,
       (0x80 + n / 0x40 % 0x40) as Byte, (0x80 + n % 0x40) as Byte]
  }

  function Encode(s: string): seq<Byte> {
    if s == [] then [] else EncodeChar(s[0]) + Encode(s[1..])
  }

  /** The length of an encoding, counted without building it. */
  function Length(s: string): (n: nat)
    ensures n == |Encode(s)|
  {
    if s == [] then 0 else |EncodeChar(s[0])| + Length(s[1..])
  }

  // ----- decoding -----

  predicate Continues(b: Byte) {
    0x80 <= b < 0xC0
  }

  /** The scalar value with this number, unless it is too small for its encoding or no scalar value. */
  function Scalar(n: int, least: int, width: nat): Option<(char, nat)> {
    if least <= n && (0 <= n < 0xD800 || 0xE000 <= n < 0x11_0000) then Some((n as char, width)) else None
  }

  /** The well-formed sequence at the start of `b` (section 4 of RFC 3629), with its width. */
  function First(b: seq<Byte>): (r: Option<(char, nat)>)
    ensures r.Some? ==> 1 <= r.value.1 <= |b|
  {
    if b == [] then
      None
    else if b[0] < 0x80 then
      Scalar(b[0] as int, 0, 1)
    else if 0xC0 <= b[0] < 0xE0 && |b| >= 2 && Continues(b[1]) then
      Scalar((b[0] as int - 0xC0) * 0x40 + (b[1] as int - 0x80), 0x80, 2)
    else if 0xE0 <= b[0] < 0xF0 && |b| >= 3 && Continues(b[1]) && Continues(b[2]) then
      Scalar((b[0] as int - 0xE0) * 0x1000 + (b[1] as int - 0x80) * 0x40 + (b[2] as int - 0x80), 0x800, 3)
    else if 0xF0 <= b[0] < 0xF8 && |b| >= 4 && Continues(b[1]) && Continues(b[2]) && Continues(b[3]) then
      Scalar((b[0] as int - 0xF0) * 0x4_0000 + (b[1] as int - 0x80) * 0x1000 + (b[2] as int - 0x80) * 0x40
             + (b[3] as int - 0x80), 0x1_0000, 4)
    else
      None
  }

  /**
   `decode("utf-8", errors="ignore")`. A byte that starts nothing well-formed is dropped by
   itself: what follows it in an ill-formed sequence are continuation bytes, which start nothing.
   */
  function Decode(b: seq<Byte>): string {
    if b == [] then ""
    else if First(b).Some? then [First(b).value.0] + Decode(b[First(b).value.1..])
    else Decode(b[1..])
  }

  /** A number is its sextets. */
  lemma Sextets(q: int, r: int)
    requires 0 <= r < 0x40
    ensures (q * 0x40 + r) / 0x40 == q && (q * 0x40 + r) % 0x40 == r
  {
  }

  /** What the decoder accepts is exactly what the encoder produces. */
  lemma FirstIsEncoded(b: seq<Byte>)
    requires First(b).Some?
    ensures b[..First(b).value.1] == EncodeChar(First(b).value.0)
  {
    if b[0] >= 0xF0 {
      FirstIsEncodedFour(b);
    } else if b[0] >= 0xE0 {
      FirstIsEncodedThree(b);
    } else if b[0] >= 0xC0 {
      Sextets(b[0] as int - 0xC0, b[1] as int - 0x80);
    }
  }

  lemma FirstIsEncodedThree(b: seq<Byte>)
    requires First(b).Some? && 0xE0 <= b[0] < 0xF0
    ensures b[..First(b).value.1] == EncodeChar(First(b).value.0)
  {
    var x, y, z := b[0] as int - 0xE0, b[1] as int - 0x80, b[2] as int - 0x80;
    Sextets(x * 0x40 + y, z);
    Sextets(x, y);
    Quotients((x * 0x40 + y) * 0x40 + z);
  }

  lemma FirstIsEncodedFour(b: seq<Byte>)
    requires First(b).Some? && 0xF0 <= b[0]
    ensures b[..First(b).value.1] == EncodeChar(First(b).value.0)
  {
    var x, y, z, w := b[0] as int - 0xF0, b[1] as int - 0x80, b[2] as int - 0x80, b[3] as int - 0x80;
    Sextets((x * 0x40 + y) * 0x40 + z, w);
    Sextets(x * 0x40 + y, z);
    Sextets(x, y);
    Quotients(((x * 0x40 + y) * 0x40 + z) * 0x40 + w);
  }

  lemma Quotients(n: int)
    ensures n / 0x1000 == n / 0x40 / 0x40
    ensures n / 0x4_0000 == n / 0x40 / 0x40 / 0x40
  {
  }

  lemma EncodedIsFirst(c: char, rest: seq<Byte>)
    ensures First(EncodeChar(c) + rest) == Some((c, |EncodeChar(c)|))
  {
    Quotients(c as int);
  }

  lemma DecodeOne(c: char, rest: seq<Byte>)
    ensures Decode(EncodeChar(c) + rest) == [c] + Decode(rest)
  {
    hide EncodeChar, First;
    EncodedIsFirst(c, rest);
    assert (EncodeChar(c) + rest)[|EncodeChar(c)|..] == rest;
  }

  lemma {:induction false} DecodeEncoded(s: string, rest: seq<Byte>)
    ensures Decode(Encode(s) + rest) == s + Decode(rest)
  {
    hide EncodeChar, First, Decode;
    if s == "" {
      assert Encode(s) + rest == rest;
    } else {
      var head, tail := EncodeChar(s[0]), Encode(s[1..]) + rest;
      assert Encode(s) + rest == head + tail;
      DecodeOne(s[0], tail);
      DecodeEncoded(s[1..], rest);
      assert s == [s[0]] + s[1..];
    }
  }

  /** Encoding loses nothing. */
  lemma DecodeInvertsEncode(s: string)
    ensures Decode(Encode(s)) == s
  {
    DecodeEncoded(s, []);
    assert Encode(s) + [] == Encode(s);
  }

  lemma {:induction false} EncodeAppend(s: string, t: string)
    ensures Encode(s + t) == Encode(s) + Encode(t)
  {
    if s == "" {
      assert s + t == t;
    } else {
      assert (s + t)[1..] == s[1..] + t;
      EncodeAppend(s[1..], t);
    }
  }

  // ----- the bounded prefix -----

  /** `_utf8_prefix`: encode, cut, and decode what the cut left. */
  function Utf8Prefix(value: string, maxBytes: int): string {
    if maxBytes <= 0 then ""
    else
      var encoded := Encode(value);
      Decode(if maxBytes < |encoded| then encoded[..maxBytes] else encoded)
  }

  /** A cut inside one character leaves nothing of it. */
  lemma {:induction false} CutCharacterVanishes(c: char, k: nat)
    requires k < |EncodeChar(c)|
    ensures Decode(EncodeChar(c)[..k]) == ""
  {
    var b := EncodeChar(c)[..k];
    if k > 0 {
      assert First(b).None?;
      ContinuationsVanish(b[1..]);
    }
  }

  lemma {:induction false} ContinuationsVanish(b: seq<Byte>)
    requires forall i :: 0 <= i < |b| ==> Continues(b[i])
    ensures Decode(b) == ""
  {
    if b != [] { ContinuationsVanish(b[1..]); }
  }

  /** How many characters of `s` fit into `n` bytes. */
  function Fitting(s: string, n: nat): (k: nat)
    ensures k <= |s|
  {
    if s == "" || |EncodeChar(s[0])| > n then 0 else 1 + Fitting(s[1..], n - |EncodeChar(s[0])|)
  }

  lemma {:induction false} FittingIsLongest(s: string, n: nat, k: nat)
    requires k <= |s|
    ensures |Encode(s[..k])| <= n <==> k <= Fitting(s, n)
  {
    if k > 0 {
      assert s[..k][1..] == s[1..][..k - 1];
      if |EncodeChar(s[0])| <= n { FittingIsLongest(s[1..], n - |EncodeChar(s[0])|, k - 1); }
    }
  }

  lemma {:induction false} CutDecodes(s: string, n: nat)
    requires n <= |Encode(s)|
    ensures Decode(Encode(s)[..n]) == s[..Fitting(s, n)]
  {
    hide EncodeChar, First;
    if s != "" {
      var head, tail := EncodeChar(s[0]), Encode(s[1..]);
      if |head| <= n {
        assert Encode(s)[..n] == head + tail[..n - |head|];
        DecodeOne(s[0], tail[..n - |head|]);
        CutDecodes(s[1..], n - |head|);
        assert s[..Fitting(s, n)] == [s[0]] + s[1..][..Fitting(s[1..], n - |head|)];
      } else {
        assert Encode(s)[..n] == head[..n];
        CutCharacterVanishes(s[0], n);
      }
    }
  }

  lemma PrefixIsFitting(value: string, maxBytes: nat)
    ensures Utf8Prefix(value, maxBytes) == value[..Fitting(value, maxBytes)]
  {
    var n := |Encode(value)|;
    FittingIsLongest(value, maxBytes, |value|);
    assert value[..|value|] == value;
    if maxBytes == 0 {
    } else if maxBytes < n {
      CutDecodes(value, maxBytes);
    } else {
      DecodeInvertsEncode(value);
    }
  }

  /** The bounded prefix is a prefix that fits, and every prefix that fits is a prefix of it. */
  lemma LongestFittingPrefix(value: string, maxBytes: int, candidate: string)
    ensures Utf8Prefix(value, maxBytes) <= value
    ensures Length(Utf8Prefix(value, maxBytes)) <= if maxBytes < 0 then 0 else maxBytes
    ensures candidate <= value && Length(candidate) <= maxBytes ==> candidate <= Utf8Prefix(value, maxBytes)
  {
    if maxBytes > 0 {
      PrefixIsFitting(value, maxBytes);
      FittingIsLongest(value, maxBytes, Fitting(value, maxBytes));
      if candidate <= value {
        assert value[..|candidate|] == candidate;
        FittingIsLongest(value, maxBytes, |candidate|);
      }
    } else if candidate <= value && candidate != "" {
      assert |EncodeChar(candidate[0])| >= 1;
    }
  }

  lemma LengthAppend(s: string, t: string)
    ensures Length(s + t) == Length(s) + Length(t)
  {
    EncodeAppend(s, t);
  }

  lemma {:induction false} FittingAppend(s: string, t: string, n: nat)
    ensures Length(s) <= n ==> Fitting(s + t, n) == |s| + Fitting(t, n - Length(s))
    ensures Length(s) > n ==> Fitting(s + t, n) == Fitting(s, n)
  {
    if s == "" {
      assert s + t == t;
    } else {
      assert (s + t)[1..] == s[1..] + t;
      if |EncodeChar(s[0])| <= n { FittingAppend(s[1..], t, n - |EncodeChar(s[0])|); }
    }
  }

  /** The bounded prefix of a concatenation: all of the first text and then of the second, or of the first alone. */
  lemma PrefixAppend(s: string, t: string, maxBytes: int)
    ensures Length(s) <= maxBytes ==> Utf8Prefix(s + t, maxBytes) == s + Utf8Prefix(t, maxBytes - Length(s))
    ensures Length(s) > maxBytes ==> Utf8Prefix(s + t, maxBytes) == Utf8Prefix(s, maxBytes)
  {
    hide Decode, Encode, Length, Fitting;
    if maxBytes >= 0 {
      FittingAppend(s, t, maxBytes);
      PrefixIsFitting(s + t, maxBytes);
      PrefixIsFitting(s, maxBytes);
      if Length(s) <= maxBytes { PrefixIsFitting(t, maxBytes - Length(s)); }
    }
  }
}
