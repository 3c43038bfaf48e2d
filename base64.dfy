/**
 * The base64 encoding of section 4 of RFC 4648 (alphabet A-Z a-z 0-9 + /,
 * padding with '='), applied as `btoa` does to a string whose characters are
 * all Latin-1 (code points below 256), each character being one byte.
 */
module Base64 {

  predicate IsLatin1(s: string)
  {
    forall i :: 0 <= i < |s| ==> s[i] as int < 256
  }

  /** Table 1 of RFC 4648: the character for a 6-bit value. */
  function Symbol(k: nat): (c: char)
    requires k < 64
    ensures c != '='
  {
    if k < 26 then ('A' as int + k) as char
    else if k < 52 then ('a' as int + k - 26) as char
    else if k < 62 then ('0' as int + k - 52) as char
    else if k == 62 then '+'
    else '/'
  }

  /** The 6-bit value of an alphabet character: its position in Table 1 (0 for anything else). */
  function SymbolValue(c: char): (k: nat)
    ensures k < 64
  {
    PositionFrom(c, 0)
  }

  /** The first position at or after j whose symbol is c, or 0 when there is none. */
  function PositionFrom(c: char, j: nat): (k: nat)
    requires j <= 64
    ensures k < 64
    decreases 64 - j
  {
    if j == 64 then 0 else if Symbol(j) == c then j else PositionFrom(c, j + 1)
  }

  lemma SymbolInjective(j: nat, k: nat)
    requires j < k < 64
    ensures Symbol(j) != Symbol(k)
  {
  }

  lemma {:induction false} PositionFromSymbol(k: nat, j: nat)
    requires j <= k < 64
    ensures PositionFrom(Symbol(k), j) == k
    decreases k - j
  {
    if j < k {
      SymbolInjective(j, k);
      PositionFromSymbol(k, j + 1);
    }
  }

  lemma SymbolValueOfSymbol(k: nat)
    requires k < 64
    ensures SymbolValue(Symbol(k)) == k
  {
    PositionFromSymbol(k, 0);
  }

  /** Three bytes become four characters. */
  function Quad3(b0: nat, b1: nat, b2: nat): string
    requires b0 < 256 && b1 < 256 && b2 < 256
  {
    [Symbol(b0 / 4), Symbol((b0 % 4) * 16 + b1 / 16), Symbol((b1 % 16) * 4 + b2 / 64), Symbol(b2 % 64)]
  }

  /** A final group of two bytes: three characters and one pad. */
  function Quad2(b0: nat, b1: nat): string
    requires b0 < 256 && b1 < 256
  {
    [Symbol(b0 / 4), Symbol((b0 % 4) * 16 + b1 / 16), Symbol((b1 % 16) * 4), '=']
  }

  /** A final group of one byte: two characters and two pads. */
  function Quad1(b0: nat): string
    requires b0 < 256
  {
    [Symbol(b0 / 4), Symbol((b0 % 4) * 16), '=', '=']
  }

  /** The byte a character stands for; every character of a Latin-1 string is its own byte. */
  function Byte(c: char): (b: nat)
    ensures b < 256
    ensures c as int < 256 ==> b == c as int
  {
    c as int % 256
  }

  /**
   * `btoa(s)`. `btoa` rejects a string that is not Latin-1 before encoding
   * anything, so only the value on Latin-1 strings is ever used.
   */
  function Encode(s: string): (r: string)
    decreases |s|
  {
    if |s| == 0 then ""
    else if |s| == 1 then Quad1(Byte(s[0]))
    else if |s| == 2 then Quad2(Byte(s[0]), Byte(s[1]))
    else Quad3(Byte(s[0]), Byte(s[1]), Byte(s[2])) + Encode(s[3..])
  }

  /** Four characters for every started group of three bytes. */
  lemma {:induction false} EncodeLength(s: string)
    ensures |Encode(s)| == 4 * ((|s| + 2) / 3)
    decreases |s|
  {
    if |s| >= 3 {
      EncodeLength(s[3..]);
      assert (|s| + 2) / 3 == (|s[3..]| + 2) / 3 + 1;
    }
  }

  /** Four characters back to one, two or three bytes, depending on the padding. */
  function DecodeQuad(q: string): string
    requires |q| == 4
  {
    var c0, c1, c2, c3 := SymbolValue(q[0]), SymbolValue(q[1]), SymbolValue(q[2]), SymbolValue(q[3]);
    var b0 := (c0 * 4 + c1 / 16) as char;
    if q[2] == '=' then [b0]
    else
      var b1 := ((c1 % 16) * 16 + c2 / 4) as char;
      if q[3] == '=' then [b0, b1]
      else [b0, b1, ((c2 % 4) * 64 + c3) as char]
  }

  /** The decoder of section 4 of RFC 4648, group by group; a trailing partial group is dropped. */
  function Decode(t: string): string
    decreases |t|
  {
    if |t| < 4 then [] else DecodeQuad(t[..4]) + Decode(t[4..])
  }

  /** The bit-field arithmetic of a group: a byte split into two fields comes back whole. */
  lemma Fields(b0: nat, b1: nat, b2: nat)
    requires b0 < 256 && b1 < 256 && b2 < 256
    ensures ((b0 % 4) * 16 + b1 / 16) / 16 == b0 % 4 && ((b0 % 4) * 16 + b1 / 16) % 16 == b1 / 16
    ensures ((b1 % 16) * 4 + b2 / 64) / 4 == b1 % 16 && ((b1 % 16) * 4 + b2 / 64) % 4 == b2 / 64
    ensures (b0 / 4) * 4 + b0 % 4 == b0 && (b1 / 16) * 16 + b1 % 16 == b1 && (b2 / 64) * 64 + b2 % 64 == b2
  {
  }

  lemma DecodeQuad3(b0: nat, b1: nat, b2: nat)
    requires b0 < 256 && b1 < 256 && b2 < 256
    ensures DecodeQuad(Quad3(b0, b1, b2)) == [b0 as char, b1 as char, b2 as char]
  {
    var k0, k1, k2, k3 := b0 / 4, (b0 % 4) * 16 + b1 / 16, (b1 % 16) * 4 + b2 / 64, b2 % 64;
    SymbolValueOfSymbol(k0);
    SymbolValueOfSymbol(k1);
    SymbolValueOfSymbol(k2);
    SymbolValueOfSymbol(k3);
    Fields(b0, b1, b2);
    var q := Quad3(b0, b1, b2);
    assert q[0] == Symbol(k0) && q[1] == Symbol(k1) && q[2] == Symbol(k2) && q[3] == Symbol(k3);
    assert k0 * 4 + k1 / 16 == b0;
    assert (k1 % 16) * 16 + k2 / 4 == b1;
    assert (k2 % 4) * 64 + k3 == b2;
  }

  lemma DecodeQuad2(b0: nat, b1: nat)
    requires b0 < 256 && b1 < 256
    ensures DecodeQuad(Quad2(b0, b1)) == [b0 as char, b1 as char]
  {
    var k0, k1, k2 := b0 / 4, (b0 % 4) * 16 + b1 / 16, (b1 % 16) * 4;
    SymbolValueOfSymbol(k0);
    SymbolValueOfSymbol(k1);
    SymbolValueOfSymbol(k2);
    Fields(b0, b1, 0);
    var q := Quad2(b0, b1);
    assert q[0] == Symbol(k0) && q[1] == Symbol(k1) && q[2] == Symbol(k2) && q[3] == '=';
    assert k0 * 4 + k1 / 16 == b0;
    assert (k1 % 16) * 16 + k2 / 4 == b1;
  }

  lemma DecodeQuad1(b0: nat)
    requires b0 < 256
    ensures DecodeQuad(Quad1(b0)) == [b0 as char]
  {
    SymbolValueOfSymbol(b0 / 4);
    SymbolValueOfSymbol((b0 % 4) * 16);
    Fields(b0, 0, 0);
  }

  lemma DecodeAppendQuad(q: string, rest: string)
    requires |q| == 4
    ensures Decode(q + rest) == DecodeQuad(q) + Decode(rest)
  {
    var t := q + rest;
    assert t[..4] == q && t[4..] == rest;
  }

  lemma DecodeLast1(b0: nat)
    requires b0 < 256
    ensures Decode(Quad1(b0)) == [b0 as char]
  {
    DecodeAppendQuad(Quad1(b0), "");
    DecodeQuad1(b0);
    assert Quad1(b0) + "" == Quad1(b0);
  }

  lemma DecodeLast2(b0: nat, b1: nat)
    requires b0 < 256 && b1 < 256
    ensures Decode(Quad2(b0, b1)) == [b0 as char, b1 as char]
  {
    DecodeAppendQuad(Quad2(b0, b1), "");
    DecodeQuad2(b0, b1);
    assert Quad2(b0, b1) + "" == Quad2(b0, b1);
  }

  /** The last group of one or two characters decodes back. */
  lemma DecodeEncodeShort(s: string)
    requires IsLatin1(s) && 1 <= |s| <= 2
    ensures Decode(Encode(s)) == s
  {
    var b0 := Byte(s[0]);
    assert b0 as char == s[0];
    if |s| == 1 {
      DecodeLast1(b0);
    } else {
      var b1 := Byte(s[1]);
      assert b1 as char == s[1];
      DecodeLast2(b0, b1);
    }
  }

  lemma DecodeGroup(b0: nat, b1: nat, b2: nat, rest: string)
    requires b0 < 256 && b1 < 256 && b2 < 256
    ensures Decode(Quad3(b0, b1, b2) + rest) == [b0 as char, b1 as char, b2 as char] + Decode(rest)
  {
    DecodeAppendQuad(Quad3(b0, b1, b2), rest);
    DecodeQuad3(b0, b1, b2);
  }

  /** A full group of three characters decodes back. */
  lemma DecodeEncodeGroup(w: string)
    requires IsLatin1(w) && |w| == 3
    ensures |Encode(w)| == 4
    ensures Decode(Encode(w)) == w
  {
    var b0, b1, b2 := Byte(w[0]), Byte(w[1]), Byte(w[2]);
    assert b0 as char == w[0] && b1 as char == w[1] && b2 as char == w[2];
    assert Encode(w) == Quad3(b0, b1, b2) + "";
    DecodeGroup(b0, b1, b2, "");
    assert w == [b0 as char, b1 as char, b2 as char];
  }

  /** Decoding undoes the encoding: the id scheme loses nothing but what it truncates. */
  lemma {:induction false} DecodeEncode(s: string)
    requires IsLatin1(s)
    ensures Decode(Encode(s)) == s
    decreases |s|
  {
    if 1 <= |s| <= 2 {
      DecodeEncodeShort(s);
    } else if |s| >= 3 {
      var w, s' := s[..3], s[3..];
      assert s == w + s';
      Latin1Split(s, 3);
      EncodeAppend(w, s');
      DecodeEncodeGroup(w);
      DecodeAppendQuad(Encode(w), Encode(s'));
      DecodeEncode(s');
    }
  }

  lemma Latin1Concat(s: string, t: string)
    requires IsLatin1(s) && IsLatin1(t)
    ensures IsLatin1(s + t)
  {
    forall i | 0 <= i < |s + t| ensures (s + t)[i] as int < 256 {
      if i < |s| { assert (s + t)[i] == s[i]; } else { assert (s + t)[i] == t[i - |s|]; }
    }
  }

  lemma Latin1Split(s: string, n: nat)
    requires IsLatin1(s) && n <= |s|
    ensures IsLatin1(s[..n]) && IsLatin1(s[n..])
  {
    assert forall i :: 0 <= i < n ==> s[..n][i] == s[i];
    assert forall i :: 0 <= i < |s| - n ==> s[n..][i] == s[i + n];
  }

  lemma {:induction false} EncodeAppendBlocks(s: string, t: string, k: nat)
    requires |s| == 3 * k
    ensures Encode(s + t) == Encode(s) + Encode(t)
    decreases k
  {
    if k == 0 {
      assert s + t == t;
    } else {
      var u := s + t;
      assert u[..3] == s[..3];
      assert u[3..] == s[3..] + t;
      EncodeAppendBlocks(s[3..], t, k - 1);
    }
  }

  /** Encoding works block by block: a prefix whose length is a multiple of three encodes on its own. */
  lemma EncodeAppend(s: string, t: string)
    requires |s| % 3 == 0
    ensures Encode(s + t) == Encode(s) + Encode(t)
  {
    EncodeAppendBlocks(s, t, |s| / 3);
  }

  /** Three characters per group, four symbols per group. */
  lemma {:induction false} EncodeBlocksLength(s: string, k: nat)
    requires |s| == 3 * k
    ensures |Encode(s)| == 4 * k
    decreases k
  {
    if k > 0 {
      EncodeBlocksLength(s[3..], k - 1);
    }
  }

  /** The first 4k symbols of an encoding are the encoding of the first 3k characters. */
  lemma EncodePrefixBlocks(s: string, k: nat)
    requires 3 * k <= |s|
    ensures |Encode(s)| >= 4 * k
    ensures Encode(s)[..4 * k] == Encode(s[..3 * k])
  {
    var a, rest := s[..3 * k], s[3 * k..];
    assert s == a + rest;
    EncodeAppendBlocks(a, rest, k);
    EncodeBlocksLength(a, k);
    assert (Encode(a) + Encode(rest))[..4 * k] == Encode(a);
  }
}
