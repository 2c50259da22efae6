/** The browser's `btoa` and `atob` over "binary strings" (every character a
    code unit below 256). `btoa` is the base 64 encoding of section 4 of
    RFC 4648 with `=` padding; `atob` is the HTML standard's forgiving
    base 64 decode: it drops ASCII whitespace, drops one or two trailing `=`
    when the length is a multiple of four, rejects a length of 1 modulo 4
    and any character outside the alphabet, and discards leftover bits. */
module Base64 {
  import opened Wrappers

  type Byte = b: int | 0 <= b < 256
  type Sextet = x: int | 0 <= x < 64

  const PadChar: char := '='

  /** The character that encodes sextet `x`. */
  function Letter(x: Sextet): (c: char)
    ensures c != PadChar
  {
    if x < 26 then ('A' as int + x) as char
    else if x < 52 then ('a' as int + (x - 26)) as char
    else if x < 62 then ('0' as int + (x - 52)) as char
    else if x == 62 then '+'
    else '/'
  }

  /** The sextet a character stands for, or `None` outside the alphabet. */
  function SextetOf(c: char): (r: Option<Sextet>)
    ensures r.Some? ==> Letter(r.value) == c
  {
    if 'A' <= c <= 'Z' then Some(c as int - 'A' as int)
    else if 'a' <= c <= 'z' then Some(c as int - 'a' as int + 26)
    else if '0' <= c <= '9' then Some(c as int - '0' as int + 52)
    else if c == '+' then Some(62)
    else if c == '/' then Some(63)
    else None
  }

  /** The table of section 4 of RFC 4648: `A`-`Z` for 0-25, `a`-`z` for
      26-51, `0`-`9` for 52-61, then `+` and `/`. */
  lemma LetterTable()
    ensures Letter(0) == 'A' && Letter(25) == 'Z'
    ensures Letter(26) == 'a' && Letter(51) == 'z'
    ensures Letter(52) == '0' && Letter(61) == '9'
    ensures Letter(62) == '+' && Letter(63) == '/'
  {
  }

  /** `SextetOf` inverts `Letter`, so distinct sextets have distinct letters. */
  lemma SextetOfLetter(x: Sextet)
    ensures SextetOf(Letter(x)) == Some(x)
  {
  }

  predicate IsAsciiWhitespace(c: char) {
    c == '\t' || c == '\n' || c == '\U{C}' || c == '\r' || c == ' '
  }

  /** Split bytes into sextets: three bytes give four sextets, a trailing
      pair gives three and a trailing single byte gives two, the low bits
      of the last sextet padded with zeros. */
  function Sextets(bs: seq<Byte>): (vs: seq<Sextet>)
    ensures |vs| == (4 * |bs| + 2) / 3
    ensures |vs| % 4 != 1
  {
    if |bs| == 0 then []
    else if |bs| == 1 then [bs[0] / 4, (bs[0] % 4) * 16]
    else if |bs| == 2 then [bs[0] / 4, (bs[0] % 4) * 16 + bs[1] / 16, (bs[1] % 16) * 4]
    else
      [bs[0] / 4, (bs[0] % 4) * 16 + bs[1] / 16, (bs[1] % 16) * 4 + bs[2] / 64, bs[2] % 64]
      + Sextets(bs[3..])
  }

  /** Join sextets back into bytes, discarding the bits of an incomplete
      last byte. */
  function Bytes(vs: seq<Sextet>): (bs: seq<Byte>)
    requires |vs| % 4 != 1
    ensures |bs| == 3 * |vs| / 4
  {
    if |vs| == 0 then []
    else if |vs| == 2 then [High(vs[0], vs[1])]
    else if |vs| == 3 then [High(vs[0], vs[1]), Middle(vs[1], vs[2])]
    else [High(vs[0], vs[1]), Middle(vs[1], vs[2]), Low(vs[2], vs[3])] + Bytes(vs[4..])
  }

  /** The first byte of a group: six bits of `a`, two of `b`. */
  function High(a: Sextet, b: Sextet): Byte { a * 4 + b / 16 }
  /** The second byte of a group: four bits of `b`, four of `c`. */
  function Middle(b: Sextet, c: Sextet): Byte { (b % 16) * 16 + c / 4 }
  /** The third byte of a group: two bits of `c`, six of `d`. */
  function Low(c: Sextet, d: Sextet): Byte { (c % 4) * 64 + d }

  /** Each of the three bytes of a group is recovered from its sextets. */
  lemma GroupRoundTrip(b0: Byte, b1: Byte, b2: Byte)
    ensures High(b0 / 4, (b0 % 4) * 16 + b1 / 16) == b0
    ensures Middle((b0 % 4) * 16 + b1 / 16, (b1 % 16) * 4 + b2 / 64) == b1
    ensures Low((b1 % 16) * 4 + b2 / 64, b2 % 64) == b2
  {
    var q, r := b1 / 16, b1 % 16;
    assert b1 == 16 * q + r && 0 <= q < 16 && 0 <= r < 16;
    assert ((b0 % 4) * 16 + q) / 16 == b0 % 4;
    assert ((b0 % 4) * 16 + q) % 16 == q;
    var t := b2 / 64;
    assert b2 == 64 * t + b2 % 64 && 0 <= t < 4;
    assert (r * 4 + t) / 4 == r;
    assert (r * 4 + t) % 4 == t;
  }

  /** Joining the sextets of a byte sequence gives the bytes back. */
  lemma {:induction false} SextetsRoundTrip(bs: seq<Byte>)
    ensures Bytes(Sextets(bs)) == bs
    decreases |bs|
  {
    if |bs| == 0 {
    } else if |bs| == 1 {
      GroupRoundTrip(bs[0], 0, 0);
    } else if |bs| == 2 {
      GroupRoundTrip(bs[0], bs[1], 0);
    } else {
      GroupRoundTrip(bs[0], bs[1], bs[2]);
      var vs := Sextets(bs);
      var rest := Sextets(bs[3..]);
      assert vs[4..] == rest;
      SextetsRoundTrip(bs[3..]);
      assert bs == bs[..3] + bs[3..];
    }
  }

  function Letters(vs: seq<Sextet>): (s: string)
    ensures |s| == |vs|
    ensures forall i :: 0 <= i < |vs| ==> s[i] == Letter(vs[i])
  {
    seq(|vs|, i requires 0 <= i < |vs| => Letter(vs[i]))
  }

  /** The `=` characters that complete the last group of four. */
  function Padding(rest: nat): (p: string)
    requires rest < 3
    ensures forall i :: 0 <= i < |p| ==> p[i] == PadChar
  {
    if rest == 0 then "" else if rest == 1 then "==" else "="
  }

  /** `btoa` on the bytes of a binary string: the letters of the sextets,
      then padding to a multiple of four characters. */
  function Encode(bs: seq<Byte>): (s: string)
    ensures |s| == 4 * ((|bs| + 2) / 3) && |s| % 4 == 0
    ensures forall i :: 0 <= i < |s| ==> s[i] == PadChar || SextetOf(s[i]).Some?
  {
    var k := |bs| / 3;
    assert |bs| == 3 * k + |bs| % 3;
    var vs := Sextets(bs);
    forall i | 0 <= i < |vs|
      ensures SextetOf(Letter(vs[i])).Some?
    {
      SextetOfLetter(vs[i]);
    }
    Letters(vs) + Padding(|bs| % 3)
  }

  function RemoveWhitespace(s: string): (r: string)
    ensures forall i :: 0 <= i < |r| ==> !IsAsciiWhitespace(r[i])
    ensures forall i :: 0 <= i < |s| && !IsAsciiWhitespace(s[i]) ==> s[i] in r
    ensures (forall i :: 0 <= i < |s| ==> !IsAsciiWhitespace(s[i])) ==> r == s
  {
    if s == [] then []
    else (if IsAsciiWhitespace(s[0]) then [] else [s[0]]) + RemoveWhitespace(s[1..])
  }

  /** Drop two trailing `=`, or else one. */
  function StripPadding(t: string): (u: string)
    ensures |t| - 2 <= |u| <= |t|
    ensures u == t[..|u|]
    ensures forall i :: |u| <= i < |t| ==> t[i] == PadChar
  {
    if |t| >= 2 && t[|t| - 2] == PadChar && t[|t| - 1] == PadChar then t[..|t| - 2]
    else if |t| >= 1 && t[|t| - 1] == PadChar then t[..|t| - 1]
    else t
  }

  /** The sextets of a string of alphabet characters; `None` at the first
      character outside the alphabet. */
  function DecodeLetters(u: string): (r: Option<seq<Sextet>>)
    ensures r.Some? <==> forall i :: 0 <= i < |u| ==> SextetOf(u[i]).Some?
    ensures r.Some? ==> |r.value| == |u|
    ensures r.Some? ==> forall i :: 0 <= i < |u| ==> Letter(r.value[i]) == u[i]
  {
    if u == [] then Some([])
    else match (SextetOf(u[0]), DecodeLetters(u[1..]))
      case (Some(v), Some(vs)) => Some([v] + vs)
      case _ => None
  }

  /** `atob` on base 64 text, as bytes; `None` where `atob` throws. */
  function Decode(s: string): (r: Option<seq<Byte>>)
    ensures (exists i :: 0 <= i < |s| && !IsAsciiWhitespace(s[i]) && s[i] != PadChar
              && SextetOf(s[i]).None?) ==> r.None?
  {
    var t := RemoveWhitespace(s);
    var u := if |t| % 4 == 0 then StripPadding(t) else t;
    if |u| % 4 == 1 then None
    else match DecodeLetters(u)
      case None => None
      case Some(vs) => Some(Bytes(vs))
  }

  lemma EncodeWithoutWhitespace(bs: seq<Byte>)
    ensures RemoveWhitespace(Encode(bs)) == Encode(bs)
  {
    var e := Encode(bs);
    forall i | 0 <= i < |e|
      ensures !IsAsciiWhitespace(e[i])
    {
    }
  }

  /** Stripping the padding of an encoding leaves exactly its letters. */
  lemma StripEncodePadding(bs: seq<Byte>)
    ensures StripPadding(Encode(bs)) == Letters(Sextets(bs))
  {
    var vs := Sextets(bs);
    var letters := Letters(vs);
    var e := Encode(bs);
    assert e == letters + Padding(|bs| % 3);
    if |bs| % 3 == 1 {
      assert e[..|e| - 2] == letters;
    } else if |bs| % 3 == 2 {
      assert e[|e| - 2] == Letter(vs[|vs| - 1]);
      assert e[..|e| - 1] == letters;
    } else {
      assert e == letters;
      if |e| >= 1 {
        assert e[|e| - 1] == Letter(vs[|vs| - 1]);
      }
    }
  }

  lemma {:induction false} DecodeLettersOfLetters(vs: seq<Sextet>)
    ensures DecodeLetters(Letters(vs)) == Some(vs)
    decreases |vs|
  {
    if vs != [] {
      SextetOfLetter(vs[0]);
      assert Letters(vs)[1..] == Letters(vs[1..]);
      DecodeLettersOfLetters(vs[1..]);
      assert [vs[0]] + vs[1..] == vs;
    }
  }

  /** Text without whitespace, of a length that is a multiple of four,
      whose unpadded part is all letters, decodes to the bytes of those
      letters. */
  lemma DecodeUnpadded(e: string, vs: seq<Sextet>)
    requires RemoveWhitespace(e) == e && |e| % 4 == 0
    requires StripPadding(e) == Letters(vs) && |vs| % 4 != 1
    ensures Decode(e) == Some(Bytes(vs))
  {
    DecodeLettersOfLetters(vs);
  }

  /** Decoding undoes encoding for every byte sequence. */
  lemma DecodeEncode(bs: seq<Byte>)
    ensures Decode(Encode(bs)) == Some(bs)
  {
    var vs := Sextets(bs);
    var e := Encode(bs);
    EncodeWithoutWhitespace(bs);
    StripEncodePadding(bs);
    DecodeUnpadded(e, vs);
    SextetsRoundTrip(bs);
  }

  /** A binary string: every character a code unit below 256. */
  predicate IsBinary(s: string) {
    forall i :: 0 <= i < |s| ==> s[i] as int < 256
  }

  function Codes(s: string): (bs: seq<Byte>)
    requires IsBinary(s)
    ensures |bs| == |s|
    ensures forall i :: 0 <= i < |s| ==> bs[i] == s[i] as int
  {
    seq(|s|, i requires 0 <= i < |s| => s[i] as int)
  }

  /** `String.fromCharCode` applied to each byte. */
  function BinaryString(bs: seq<Byte>): (s: string)
    ensures IsBinary(s)
    ensures Codes(s) == bs
  {
    seq(|bs|, i requires 0 <= i < |bs| => bs[i] as char)
  }

  /** `btoa(s)`; `None` where it throws because a character is above 255. */
  function Btoa(s: string): (r: Option<string>)
    ensures r.Some? <==> IsBinary(s)
    ensures r.Some? ==> |r.value| % 4 == 0
  {
    if IsBinary(s) then Some(Encode(Codes(s))) else None
  }

  /** `atob(s)`; `None` where it throws. */
  function Atob(s: string): (r: Option<string>)
    ensures r.Some? <==> Decode(s).Some?
    ensures r.Some? ==> IsBinary(r.value) && Codes(r.value) == Decode(s).value
  {
    match Decode(s)
    case None => None
    case Some(bs) => Some(BinaryString(bs))
  }

  /** `atob(btoa(s)) == s` for every binary string. */
  lemma AtobBtoa(s: string)
    requires IsBinary(s)
    ensures Btoa(s).Some? && Atob(Btoa(s).value) == Some(s)
  {
    DecodeEncode(Codes(s));
    var back := BinaryString(Codes(s));
    assert |back| == |s|;
    forall i | 0 <= i < |s|
      ensures back[i] == s[i]
    {
      assert Codes(back)[i] == Codes(s)[i];
    }
    assert back == s;
  }
}
