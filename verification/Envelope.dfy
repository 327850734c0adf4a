/** The `iv:ciphertext:tag` text in which private keys are stored. */
module Envelope {
  import opened Text
  import opened Bytes

  type Cut = (seq<byte>, seq<byte>)

  /**
   * AES-256-GCM in Node's streaming form. `seal` gives the output of `update` and of `final`; `tag` the
   * authentication tag; `unseal` the two chunks of text that decryption yields, or None when it throws.
   */
  datatype Gcm = Gcm(
    seal: (seq<byte>, seq<byte>, string) -> Cut,
    tag: (seq<byte>, seq<byte>, string) -> seq<byte>,
    unseal: (seq<byte>, seq<byte>, seq<byte>, seq<byte>) -> Option<(string, string)>)

  /** Decryption inverts encryption, however the stream is cut into chunks on either side. */
  ghost predicate Inverts(g: Gcm) {
    forall key, iv, text ::
      var c := g.seal(key, iv, text);
      var o := g.unseal(key, iv, c.0 + c.1, g.tag(key, iv, text));
      o.Some? && o.value.0 + o.value.1 == text
  }

  datatype Opened = KeyText(text: string) | BadFormat | BadCiphertext

  function Sealed(g: Gcm, key: seq<byte>, iv: seq<byte>, text: string): string {
    var c := g.seal(key, iv, text);
    HexEncode(iv) + ":" + (HexEncode(c.0) + HexEncode(c.1)) + ":" + HexEncode(g.tag(key, iv, text))
  }

  function Unsealed(g: Gcm, key: seq<byte>, envelope: string): Opened {
    var parts := Split(envelope, ':');
    if |parts| != 3 then BadFormat
    else
      match g.unseal(key, HexDecode(parts[0]), HexDecode(parts[1]), HexDecode(parts[2]))
      case None => BadCiphertext
      case Some((a, b)) => KeyText(a + b)
  }

  /** The text has exactly three parts, which decode to these bytes. */
  predicate Encloses(envelope: string, iv: seq<byte>, ciphertext: seq<byte>, tag: seq<byte>) {
    var parts := Split(envelope, ':');
    |parts| == 3 && HexDecode(parts[0]) == iv && HexDecode(parts[1]) == ciphertext && HexDecode(parts[2]) == tag
  }

  function Colons(s: string): nat {
    if s == [] then 0 else (if s[0] == ':' then 1 else 0) + Colons(s[1..])
  }

  lemma {:induction false} PartsCountColons(s: string)
    ensures |Split(s, ':')| == Colons(s) + 1
  {
    if s != [] {
      PartsCountColons(s[1..]);
    }
  }

  /** The envelope splits into exactly three parts, which decode to iv, whole ciphertext and tag. */
  lemma EnvelopeReadsBack(iv: seq<byte>, c: Cut, tag: seq<byte>)
    ensures Encloses(HexEncode(iv) + ":" + (HexEncode(c.0) + HexEncode(c.1)) + ":" + HexEncode(tag), iv, c.0 + c.1, tag)
  {
    HexConcat(c.0, c.1);
    HexRoundTrip(iv);
    HexRoundTrip(c.0 + c.1);
    HexRoundTrip(tag);
    SplitThree(HexEncode(iv), HexEncode(c.0 + c.1), HexEncode(tag), ':');
  }

  /**
   * `encryptPrivateKey`, with the random iv passed in: the envelope encloses iv, the whole ciphertext however it was
   * cut, and tag, and decrypting it gives the key text back.
   */
  method EncryptPrivateKey(g: Gcm, key: seq<byte>, iv: seq<byte>, privateKeyPem: string) returns (r: string)
    ensures r == Sealed(g, key, iv, privateKeyPem)
    ensures var c := g.seal(key, iv, privateKeyPem);
            Encloses(r, iv, c.0 + c.1, g.tag(key, iv, privateKeyPem))
    ensures Inverts(g) ==> Unsealed(g, key, r) == KeyText(privateKeyPem)
  {
    var chunks := g.seal(key, iv, privateKeyPem);
    var encrypted := HexEncode(chunks.0);
    encrypted := encrypted + HexEncode(chunks.1);
    var authTag := HexEncode(g.tag(key, iv, privateKeyPem));
    EnvelopeReadsBack(iv, chunks, g.tag(key, iv, privateKeyPem));
    r := HexEncode(iv) + ":" + encrypted + ":" + authTag;
  }

  /**
   * `decryptPrivateKey`: the format is wrong exactly when the text does not have two colons; what the three parts
   * enclose is decrypted; and every envelope `encryptPrivateKey` can make under this key gives its text back.
   */
  method DecryptPrivateKey(g: Gcm, key: seq<byte>, encrypted: string) returns (r: Opened)
    ensures r == Unsealed(g, key, encrypted)
    ensures r.BadFormat? <==> Colons(encrypted) != 2
    ensures forall iv, ciphertext, tag :: Encloses(encrypted, iv, ciphertext, tag) ==>
              (r.BadCiphertext? <==> g.unseal(key, iv, ciphertext, tag).None?)
    ensures forall iv, text :: Inverts(g) && encrypted == Sealed(g, key, iv, text) ==> r == KeyText(text)
  {
    PartsCountColons(encrypted);
    forall iv, text | Inverts(g) && encrypted == Sealed(g, key, iv, text)
      ensures Unsealed(g, key, encrypted) == KeyText(text)
    {
      EnvelopeRoundTrip(g, key, iv, text);
    }
    var parts := Split(encrypted, ':');
    if |parts| != 3 {
      return BadFormat;
    }
    var iv, ciphertext, authTag := HexDecode(parts[0]), HexDecode(parts[1]), HexDecode(parts[2]);
    var out := g.unseal(key, iv, ciphertext, authTag);
    if out.None? {
      return BadCiphertext;
    }
    var decrypted := out.value.0;
    decrypted := decrypted + out.value.1;
    r := KeyText(decrypted);
  }

  /** For every key text, the empty one included, and every iv: decrypting the envelope gives the text back. */
  lemma EnvelopeRoundTrip(g: Gcm, key: seq<byte>, iv: seq<byte>, text: string)
    requires Inverts(g)
    ensures Unsealed(g, key, Sealed(g, key, iv, text)) == KeyText(text)
  {
    EnvelopeReadsBack(iv, g.seal(key, iv, text), g.tag(key, iv, text));
  }
}
