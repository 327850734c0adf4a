/** Byte encodings: hex as Node's Buffer reads and writes it, and unpadded base64url (section 5 of RFC 4648). */
module Bytes {
  import opened Text

  type byte = b: int | 0 <= b < 256

  /** Six bits: what one character of base64 stands for. */
  type sextet = v: int | 0 <= v < 64

  // ---------------------------------------------------------------- hex

  function HexChar(n: nat): (c: char)
    requires n < 16
    ensures c != ':' && HexValue(c) == Some(n)
  {
    if n < 10 then ('0' as int + n) as char else ('a' as int + n - 10) as char
  }

  function HexValue(c: char): Option<nat> {
    if '0' <= c <= '9' then Some(c as int - '0' as int)
    else if 'a' <= c <= 'f' then Some(c as int - 'a' as int + 10)
    else if 'A' <= c <= 'F' then Some(c as int - 'A' as int + 10)
    else None
  }

  /** `toString('hex')`: two lower-case digits a byte. */
  function HexEncode(b: seq<byte>): (s: string)
    ensures |s| == 2 * |b|
    ensures ':' !in s
  {
    if b == [] then "" else [HexChar(b[0] / 16), HexChar(b[0] % 16)] + HexEncode(b[1..])
  }

  /** `Buffer.from(s, 'hex')`: whole pairs of digits, up to the first pair that is not one. */
  function HexDecode(s: string): seq<byte> {
    if |s| < 2 then []
    else match (HexValue(s[0]), HexValue(s[1]))
         case (Some(h), Some(l)) => if h < 16 && l < 16 then [(16 * h + l) as byte] + HexDecode(s[2..]) else []
         case _ => []
  }

  lemma {:induction false} HexRoundTrip(b: seq<byte>)
    ensures HexDecode(HexEncode(b)) == b
  {
    if b != [] {
      var s := HexEncode(b);
      assert s[0] == HexChar(b[0] / 16) && s[1] == HexChar(b[0] % 16);
      assert s[2..] == HexEncode(b[1..]);
      HexRoundTrip(b[1..]);
    }
  }

  /** Hex of one chunk followed by hex of the next is hex of the whole. */
  lemma {:induction false} HexConcat(a: seq<byte>, b: seq<byte>)
    ensures HexEncode(a + b) == HexEncode(a) + HexEncode(b)
  {
    if a == [] {
      assert a + b == b;
    } else {
      assert (a + b)[1..] == a[1..] + b;
      HexConcat(a[1..], b);
    }
  }

  // ---------------------------------------------------------------- base64 and base64url

  function Base64Char(n: sextet): char {
    if n < 26 then ('A' as int + n) as char
    else if n < 52 then ('a' as int + n - 26) as char
    else if n < 62 then ('0' as int + n - 52) as char
    else if n == 62 then '+' else '/'
  }

  predicate Binary(s: string) {
    forall i :: 0 <= i < |s| ==> s[i] as int < 256
  }

  // The four six-bit values of a group of three bytes.

  function Sextet0(b0: byte): sextet {
    b0 / 4
  }

  function Sextet1(b0: byte, b1: byte): sextet {
    b0 % 4 * 16 + b1 / 16
  }

  function Sextet2(b1: byte, b2: byte): sextet {
    b1 % 16 * 4 + b2 / 64
  }

  function Sextet3(b2: byte): sextet {
    b2 % 64
  }

  function Base64Of(vs: seq<sextet>): (s: string)
    ensures |s| == |vs| && forall i :: 0 <= i < |vs| ==> s[i] == Base64Char(vs[i])
  {
    if vs == [] then "" else [Base64Char(vs[0])] + Base64Of(vs[1..])
  }

  /** `btoa`: standard base64 with padding, of a string whose characters stand for bytes. */
  function Btoa(s: string): string
    requires Binary(s)
  {
    if |s| == 0 then ""
    else if |s| == 1 then Base64Of([Sextet0(s[0] as byte), Sextet1(s[0] as byte, 0)]) + "=="
    else if |s| == 2 then
      Base64Of([Sextet0(s[0] as byte), Sextet1(s[0] as byte, s[1] as byte), Sextet2(s[1] as byte, 0)]) + "="
    else
      Base64Of([Sextet0(s[0] as byte), Sextet1(s[0] as byte, s[1] as byte), Sextet2(s[1] as byte, s[2] as byte),
                Sextet3(s[2] as byte)])
      + Btoa(s[3..])
  }

  function Replace(s: string, from: char, to: char): (r: string)
    ensures |r| == |s|
    ensures forall i :: 0 <= i < |s| ==> r[i] == if s[i] == from then to else s[i]
  {
    if s == [] then [] else [if s[0] == from then to else s[0]] + Replace(s[1..], from, to)
  }

  /** `.replace(/=+$/, '')` */
  function StripPadding(s: string): string {
    if s != [] && s[|s| - 1] == '=' then StripPadding(s[..|s| - 1]) else s
  }

  function BinaryString(b: seq<byte>): (s: string)
    ensures Binary(s) && |s| == |b|
    ensures forall i :: 0 <= i < |b| ==> s[i] as int == b[i]
  {
    if b == [] then "" else BinaryString(b[..|b| - 1]) + [b[|b| - 1] as char]
  }

  function UrlText(base64: string): string {
    StripPadding(Replace(Replace(base64, '+', '-'), '/', '_'))
  }

  /** `bufferToBase64Url`. */
  method BufferToBase64Url(bytes: seq<byte>) returns (r: string)
    ensures r == Base64Url(bytes)
  {
    var binary := "";
    for i := 0 to |bytes|
      invariant binary == BinaryString(bytes[..i])
    {
      assert bytes[..i + 1][..i] == bytes[..i];
      binary := binary + [bytes[i] as char];
    }
    assert bytes[..|bytes|] == bytes;
    var base64 := Btoa(binary);
    r := StripPadding(Replace(Replace(base64, '+', '-'), '/', '_'));
  }

  function Base64Url(b: seq<byte>): string {
    UrlText(Btoa(BinaryString(b)))
  }

  // ---------------------------------------------------------------- decoding

  /** The value of a character of the URL-safe alphabet. */
  function UrlValue(c: char): Option<sextet> {
    if 'A' <= c <= 'Z' then Some(c as int - 'A' as int)
    else if 'a' <= c <= 'z' then Some(c as int - 'a' as int + 26)
    else if '0' <= c <= '9' then Some(c as int - '0' as int + 52)
    else if c == '-' then Some(62) else if c == '_' then Some(63) else None
  }

  function Byte0(v0: sextet, v1: sextet): byte {
    v0 * 4 + v1 / 16
  }

  function Byte1(v1: sextet, v2: sextet): byte {
    v1 % 16 * 16 + v2 / 4
  }

  function Byte2(v2: sextet, v3: sextet): byte {
    v2 % 4 * 64 + v3
  }

  /** Unpadded base64url, read group by group; None for a foreign character or an impossible length. */
  function Decode(s: string): Option<seq<byte>> {
    if |s| == 0 then Some([])
    else if |s| == 1 || UrlValue(s[0]).None? || UrlValue(s[1]).None? then None
    else
      var v0, v1 := UrlValue(s[0]).value, UrlValue(s[1]).value;
      if |s| == 2 then Some([Byte0(v0, v1)])
      else if UrlValue(s[2]).None? then None
      else
        var v2 := UrlValue(s[2]).value;
        if |s| == 3 then Some([Byte0(v0, v1), Byte1(v1, v2)])
        else if UrlValue(s[3]).None? then None
        else
          match Decode(s[4..])
          case None => None
          case Some(rest) => Some([Byte0(v0, v1), Byte1(v1, v2), Byte2(v2, UrlValue(s[3]).value)] + rest)
  }

  predicate UrlSafe(s: string) {
    forall c :: c in s ==> UrlValue(c).Some?
  }

  /** The URL-safe character of a value. */
  function UrlChar(n: sextet): (c: char)
    ensures UrlValue(c) == Some(n) && c != '='
    ensures c == (if Base64Char(n) == '+' then '-' else if Base64Char(n) == '/' then '_' else Base64Char(n))
  {
    if n == 62 then '-' else if n == 63 then '_' else Base64Char(n)
  }

  function UrlOf(vs: seq<sextet>): (s: string)
    ensures |s| == |vs| && forall i :: 0 <= i < |vs| ==> s[i] == UrlChar(vs[i])
  {
    if vs == [] then "" else [UrlChar(vs[0])] + UrlOf(vs[1..])
  }

  lemma {:induction false} ReplaceConcat(x: string, y: string, from: char, to: char)
    ensures Replace(x + y, from, to) == Replace(x, from, to) + Replace(y, from, to)
  {
  }

  lemma StripPrefix(x: string, y: string)
    requires x != [] && x[|x| - 1] != '='
    ensures StripPadding(x + y) == x + StripPadding(y)
  {
    if y == [] {
      assert x + y == x;
    } else if y[|y| - 1] == '=' {
      assert (x + y)[..|x + y| - 1] == x + y[..|y| - 1];
      StripPrefix(x, y[..|y| - 1]);
    }
  }

  /** Encoded values at the front become URL-safe by themselves. */
  lemma UrlTextPrefix(vs: seq<sextet>, y: string)
    requires vs != []
    ensures UrlText(Base64Of(vs) + y) == UrlOf(vs) + UrlText(y)
  {
    var x := Base64Of(vs);
    ReplaceConcat(x, y, '+', '-');
    ReplaceConcat(Replace(x, '+', '-'), Replace(y, '+', '-'), '/', '_');
    assert Replace(Replace(x, '+', '-'), '/', '_') == UrlOf(vs);
    StripPrefix(UrlOf(vs), Replace(Replace(y, '+', '-'), '/', '_'));
  }

  lemma PaddingGoes()
    ensures UrlText("") == "" && UrlText("=") == "" && UrlText("==") == ""
  {
    assert Replace(Replace("=", '+', '-'), '/', '_') == "=";
    assert Replace(Replace("==", '+', '-'), '/', '_') == "==";
    assert "=="[..1] == "=" && "="[..0] == "";
  }

  lemma SextetsCarryBytes(b0: byte, b1: byte, b2: byte)
    ensures Byte0(Sextet0(b0), Sextet1(b0, b1)) == b0
    ensures Byte1(Sextet1(b0, b1), Sextet2(b1, b2)) == b1
    ensures Byte2(Sextet2(b1, b2), Sextet3(b2)) == b2
  {
  }

  lemma DecodeTwo(v0: sextet, v1: sextet)
    ensures Decode(UrlOf([v0, v1])) == Some([Byte0(v0, v1)])
  {
    var s := UrlOf([v0, v1]);
    assert s[0] == UrlChar(v0) && s[1] == UrlChar(v1);
  }

  lemma SafePrefix(vs: seq<sextet>, y: string)
    requires UrlSafe(y)
    ensures UrlSafe(UrlOf(vs) + y)
  {
    forall c | c in UrlOf(vs) + y ensures UrlValue(c).Some? {
      if c !in y {
        var i :| 0 <= i < |vs| && UrlOf(vs)[i] == c;
        assert c == UrlChar(vs[i]);
      }
    }
  }

  predicate Stands(s: string, b: seq<byte>) {
    |s| == |b| && forall i :: 0 <= i < |b| ==> s[i] as int == b[i]
  }

  /** Padding leaves no trace. */
  lemma PaddedTail(vs: seq<sextet>, pad: string)
    requires vs != [] && (pad == "=" || pad == "==")
    ensures UrlText(Base64Of(vs) + pad) == UrlOf(vs) && UrlSafe(UrlOf(vs))
  {
    UrlTextPrefix(vs, pad);
    PaddingGoes();
    SafePrefix(vs, "");
    assert UrlOf(vs) + "" == UrlOf(vs);
  }

  lemma OneByteText(s: string)
    requires Binary(s) && |s| == 1
    ensures UrlText(Btoa(s)) == UrlOf([Sextet0(s[0] as byte), Sextet1(s[0] as byte, 0)])
    ensures UrlSafe(UrlText(Btoa(s)))
  {
    PaddedTail([Sextet0(s[0] as byte), Sextet1(s[0] as byte, 0)], "==");
  }

  lemma OneByte(s: string, b: seq<byte>)
    requires Binary(s) && Stands(s, b) && |b| == 1
    ensures Decode(UrlText(Btoa(s))) == Some(b) && UrlSafe(UrlText(Btoa(s)))
  {
    OneByteText(s);
    assert s[0] as byte == b[0] && b == [b[0]];
  }

  lemma TwoBytes(s: string, b: seq<byte>)
    requires Binary(s) && Stands(s, b) && |b| == 2
    ensures Decode(UrlText(Btoa(s))) == Some(b) && UrlSafe(UrlText(Btoa(s)))
  {
    var v0, v1, v2 := Sextet0(b[0]), Sextet1(b[0], b[1]), Sextet2(b[1], 0);
    assert s[0] as byte == b[0] && s[1] as byte == b[1];
    PaddedTail([v0, v1, v2], "=");
    SextetsCarryBytes(b[0], b[1], 0);
    assert b == [b[0], b[1]];
  }

  /** A full group at the front decodes to its three bytes, whatever follows it. */
  lemma ThreeBytes(s: string, b: seq<byte>, tail: string)
    requires Binary(s) && Stands(s, b) && |b| >= 3 && tail == UrlText(Btoa(s[3..]))
    requires Decode(tail) == Some(b[3..]) && UrlSafe(tail)
    ensures Decode(UrlText(Btoa(s))) == Some(b) && UrlSafe(UrlText(Btoa(s)))
  {
    var vs: seq<sextet> := [Sextet0(b[0]), Sextet1(b[0], b[1]), Sextet2(b[1], b[2]), Sextet3(b[2])];
    assert Btoa(s) == Base64Of(vs) + Btoa(s[3..]);
    UrlTextPrefix(vs, Btoa(s[3..]));
    SafePrefix(vs, tail);
    SextetsCarryBytes(b[0], b[1], b[2]);
    assert b == [b[0], b[1], b[2]] + b[3..];
  }

  lemma {:induction false} TextRoundTrip(s: string, b: seq<byte>)
    requires Binary(s) && Stands(s, b)
    ensures Decode(UrlText(Btoa(s))) == Some(b) && UrlSafe(UrlText(Btoa(s)))
    decreases |s|
  {
    if |s| == 0 {
      PaddingGoes();
    } else if |s| == 1 {
      OneByte(s, b);
    } else if |s| == 2 {
      TwoBytes(s, b);
    } else {
      TextRoundTrip(s[3..], b[3..]);
      ThreeBytes(s, b, UrlText(Btoa(s[3..])));
    }
  }

  /**
   * Decoding undoes encoding for every byte sequence, and the text is made of URL-safe characters only: it never
   * contains '.', '=' or ':'.
   */
  lemma Base64UrlRoundTrip(b: seq<byte>)
    ensures Decode(Base64Url(b)) == Some(b)
    ensures UrlSafe(Base64Url(b))
    ensures '.' !in Base64Url(b) && '=' !in Base64Url(b) && ':' !in Base64Url(b)
  {
    TextRoundTrip(BinaryString(b), b);
    assert UrlValue('.').None? && UrlValue('=').None? && UrlValue(':').None?;
  }

  /** The character of a value, by its ASCII code: A-Z, a-z, 0-9, minus and underscore (section 5 of RFC 4648). */
  lemma UrlAlphabet(n: sextet)
    ensures UrlChar(n) as int == if n < 26 then 65 + n else if n < 52 then 71 + n else if n < 62 then n - 4
                                 else if n == 62 then 45 else 95
  {
  }

  /** Three bytes become four characters, six bits each, from the most significant bit down. */
  lemma GroupText(b: seq<byte>)
    requires |b| == 3
    ensures Base64Url(b) == UrlOf([b[0] / 4, b[0] % 4 * 16 + b[1] / 16, b[1] % 16 * 4 + b[2] / 64, b[2] % 64])
  {
    var s := BinaryString(b);
    var v: seq<sextet> := [b[0] / 4, b[0] % 4 * 16 + b[1] / 16, b[1] % 16 * 4 + b[2] / 64, b[2] % 64];
    assert s[0] as int == b[0] && s[1] as int == b[1] && s[2] as int == b[2] && s[3..] == "";
    assert Btoa(s) == Base64Of(v) + "";
    UrlTextPrefix(v, "");
    PaddingGoes();
    assert UrlOf(v) + "" == UrlOf(v);
  }

  /** Two lower-case hex digits a byte, the high one first, by their ASCII codes. */
  lemma {:induction false} HexDigits(b: seq<byte>, i: nat)
    requires i < |b|
    ensures HexEncode(b)[2 * i] as int == if b[i] / 16 < 10 then 48 + b[i] / 16 else 87 + b[i] / 16
    ensures HexEncode(b)[2 * i + 1] as int == if b[i] % 16 < 10 then 48 + b[i] % 16 else 87 + b[i] % 16
  {
    if i > 0 {
      HexDigits(b[1..], i - 1);
      assert HexEncode(b)[2..] == HexEncode(b[1..]);
    }
  }
}
