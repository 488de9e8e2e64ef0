// The credential framing of lib/crypto.ts. A secret is stored as hex(iv) ":" hex(ciphertext).
// AES-256-CBC is kept abstract: the cipher and decipher are function parameters, and the
// round trip assumes only that the decipher inverts the cipher under the same key and IV.

module Crypto {
  import opened Wrappers

  type byte = x: int | 0 <= x < 256

  /** `ivLength`: the AES block size. */
  const IvLength := 16
  /** AES-256 takes a 32-byte key. */
  const KeyLength := 32

  /** Encryption under (key, iv) of a text; the UTF-8 encoding and padding are inside it. */
  type Cipher = (seq<byte>, seq<byte>, string) -> seq<byte>
  /** Decryption under (key, iv) of bytes; None when the final block does not unpad ("bad decrypt"). */
  type Decipher = (seq<byte>, seq<byte>, seq<byte>) -> Option<string>

  /** The decipher undoes the cipher whenever the key and IV have the lengths AES-256-CBC takes. */
  ghost predicate Inverts(cipher: Cipher, decipher: Decipher) {
    forall key: seq<byte>, iv: seq<byte>, text: string {:trigger cipher(key, iv, text)} ::
      |key| == KeyLength && |iv| == IvLength ==> decipher(key, iv, cipher(key, iv, text)) == Some(text)
  }

  /** The errors the library raises on these paths. */
  datatype CryptoError =
    | InvalidKeyLength    // the key is not 32 bytes
    | InvalidIv           // the decoded IV is not 16 bytes
    | MissingCiphertext   // `Buffer.from(undefined, 'hex')`: no second piece
    | BadDecrypt          // the decipher's final block is rejected

  /** The message of the Error each failure throws, in the runtime's wording. */
  function CryptoMessage(e: CryptoError): string {
    match e
    case InvalidKeyLength => "Invalid key length"
    case InvalidIv => "Invalid initialization vector"
    case MissingCiphertext =>
      "The first argument must be of type string or an instance of Buffer, ArrayBuffer, or Array or an Array-like Object. Received undefined"
    case BadDecrypt => "bad decrypt"
  }

  // ---------------------------------------------------------------------------------------------
  // Hex encoding, as `toString('hex')` and `Buffer.from(_, 'hex')` do it

  const HexAlphabet := "0123456789abcdef"

  predicate IsLowerHex(c: char) {
    ('0' <= c <= '9') || ('a' <= c <= 'f')
  }

  /** The value of a hex digit in either case, or None. */
  function HexValue(c: char): (v: Option<nat>)
    ensures v.Some? ==> v.value < 16
    ensures IsLowerHex(c) ==> v.Some?
  {
    if '0' <= c <= '9' then Some(c as int - '0' as int)
    else if 'a' <= c <= 'f' then Some(c as int - 'a' as int + 10)
    else if 'A' <= c <= 'F' then Some(c as int - 'A' as int + 10)
    else None
  }

  /** One byte as two lower-case hex digits. */
  function HexByte(b: byte): (s: string)
    ensures |s| == 2 && IsLowerHex(s[0]) && IsLowerHex(s[1])
  {
    [HexAlphabet[b / 16], HexAlphabet[b % 16]]
  }

  /** `toString('hex')`: two lower-case digits per byte. */
  function HexEncode(bytes: seq<byte>): (s: string)
    ensures |s| == 2 * |bytes|
    ensures forall i :: 0 <= i < |s| ==> IsLowerHex(s[i])
  {
    if bytes == [] then [] else HexByte(bytes[0]) + HexEncode(bytes[1..])
  }

  /** `Buffer.from(s, 'hex')`: pairs of hex digits of either case are decoded until the first pair
      that is not one; a trailing odd digit is dropped. */
  function HexDecode(s: string): (bytes: seq<byte>)
    ensures 2 * |bytes| <= |s|
  {
    if |s| < 2 then []
    else match (HexValue(s[0]), HexValue(s[1]))
      case (Some(hi), Some(lo)) => [hi * 16 + lo] + HexDecode(s[2..])
      case _ => []
  }

  /** The digits at j and j + 1 form a hex pair. */
  predicate IsHexPair(s: string, j: nat)
    requires j + 1 < |s|
  {
    HexValue(s[j]).Some? && HexValue(s[j + 1]).Some?
  }

  /** What `Buffer.from(s, 'hex')` decodes: byte i is the value of the pair at 2 * i, and decoding
      stops at a pair that is not a hex pair or at a lone trailing digit. */
  lemma HexDecodePairs(s: string)
    ensures forall i :: 0 <= i < |HexDecode(s)| ==>
      IsHexPair(s, 2 * i) && HexDecode(s)[i] == HexValue(s[2 * i]).value * 16 + HexValue(s[2 * i + 1]).value
    ensures 2 * |HexDecode(s)| + 1 < |s| ==> !IsHexPair(s, 2 * |HexDecode(s)|)
  {
    forall i | 0 <= i < |HexDecode(s)|
      ensures IsHexPair(s, 2 * i) && HexDecode(s)[i] == HexValue(s[2 * i]).value * 16 + HexValue(s[2 * i + 1]).value
    {
      HexDecodeByte(s, i);
    }
    HexDecodeStops(s);
  }

  /** Byte i of the decoding is the value of the pair at 2 * i. */
  lemma {:induction false} HexDecodeByte(s: string, i: nat)
    requires i < |HexDecode(s)|
    ensures IsHexPair(s, 2 * i) && HexDecode(s)[i] == HexValue(s[2 * i]).value * 16 + HexValue(s[2 * i + 1]).value
  {
    if i > 0 {
      var rest := s[2..];
      assert HexDecode(s)[i] == HexDecode(rest)[i - 1];
      HexDecodeByte(rest, i - 1);
      assert s[2 * i] == rest[2 * (i - 1)] && s[2 * i + 1] == rest[2 * (i - 1) + 1];
    }
  }

  /** Decoding stops where there is no hex pair, or one digit or none is left. */
  lemma {:induction false} HexDecodeStops(s: string)
    ensures 2 * |HexDecode(s)| + 1 < |s| ==> !IsHexPair(s, 2 * |HexDecode(s)|)
  {
    if |s| >= 2 && IsHexPair(s, 0) {
      var rest := s[2..];
      HexDecodeStops(rest);
      assert |HexDecode(s)| == 1 + |HexDecode(rest)|;
      var n := |HexDecode(rest)|;
      if 2 * n + 3 < |s| {
        assert s[2 * n + 2] == rest[2 * n] && s[2 * n + 3] == rest[2 * n + 1];
      }
    }
  }

  lemma HexByteDecodes(b: byte)
    ensures HexValue(HexByte(b)[0]) == Some(b / 16)
    ensures HexValue(HexByte(b)[1]) == Some(b % 16)
  {
  }

  /** Decoding the encoding gives the bytes back. */
  lemma {:induction false} HexRoundTrip(bytes: seq<byte>)
    ensures HexDecode(HexEncode(bytes)) == bytes
  {
    if bytes != [] {
      var s := HexEncode(bytes);
      HexByteDecodes(bytes[0]);
      assert s[2..] == HexEncode(bytes[1..]);
      HexRoundTrip(bytes[1..]);
    }
  }

  // ---------------------------------------------------------------------------------------------
  // Splitting on ':'

  /** `s.split(sep)`: every piece between separators, always at least one. */
  function Split(s: string, sep: char): (pieces: seq<string>)
    ensures |pieces| >= 1
  {
    if s == [] then [[]]
    else
      var rest := Split(s[1..], sep);
      if s[0] == sep then [[]] + rest else [[s[0]] + rest[0]] + rest[1..]
  }

  lemma {:induction false} SplitWithoutSeparator(s: string, sep: char)
    requires sep !in s
    ensures Split(s, sep) == [s]
  {
    if s != [] {
      assert sep !in s[1..];
      SplitWithoutSeparator(s[1..], sep);
      assert [s[0]] + s[1..] == s;
    }
  }

  /** A separator between two strings splits into the pieces of each. */
  lemma {:induction false} SplitAround(x: string, sep: char, y: string)
    ensures Split(x + [sep] + y, sep) == Split(x, sep) + Split(y, sep)
  {
    var s := x + [sep] + y;
    if x == [] {
      assert s == [sep] + y && s[1..] == y;
    } else {
      assert s[0] == x[0] && s[1..] == x[1..] + [sep] + y;
      SplitAround(x[1..], sep, y);
    }
  }

  // ---------------------------------------------------------------------------------------------
  // encrypt / decrypt

  /** `encrypt`: the IV is the caller's 16 random bytes; a key that is not 32 bytes throws. */
  function Encrypt(key: seq<byte>, iv: seq<byte>, text: string, cipher: Cipher): (r: Result<string, CryptoError>)
    requires |iv| == IvLength
    ensures r.Failure? <==> |key| != KeyLength
    ensures r.Failure? ==> r.error == InvalidKeyLength
  {
    if |key| != KeyLength then Failure(InvalidKeyLength)
    else Success(HexEncode(iv) + ":" + HexEncode(cipher(key, iv, text)))
  }

  /** `decrypt`: the first two pieces of the split are the hex IV and the hex ciphertext; any
      further pieces are ignored. The IV length is checked before the key length. */
  function Decrypt(key: seq<byte>, s: string, decipher: Decipher): (r: Result<string, CryptoError>)
    ensures |Split(s, ':')| < 2 ==> r == Failure(MissingCiphertext)
    ensures |Split(s, ':')| >= 2 && |HexDecode(Split(s, ':')[0])| != IvLength ==> r == Failure(InvalidIv)
  {
    var pieces := Split(s, ':');
    if |pieces| < 2 then Failure(MissingCiphertext)
    else
      var iv := HexDecode(pieces[0]);
      var encrypted := HexDecode(pieces[1]);
      if |iv| != IvLength then Failure(InvalidIv)
      else if |key| != KeyLength then Failure(InvalidKeyLength)
      else match decipher(key, iv, encrypted)
        case None => Failure(BadDecrypt)
        case Some(text) => Success(text)
  }

  /** The encrypted form starts with 32 lower-case hex digits and a ':', and holds no other ':'. */
  lemma EncryptedShape(key: seq<byte>, iv: seq<byte>, text: string, cipher: Cipher)
    requires |iv| == IvLength && |key| == KeyLength
    ensures var s := Encrypt(key, iv, text, cipher).value;
      && |s| > 2 * IvLength
      && (forall i :: 0 <= i < 2 * IvLength ==> IsLowerHex(s[i]))
      && s[2 * IvLength] == ':'
      && (forall i :: 0 <= i < |s| && i != 2 * IvLength ==> s[i] != ':')
  {
    var a := HexEncode(iv);
    var b := HexEncode(cipher(key, iv, text));
    var s := a + ":" + b;
    assert forall i :: 2 * IvLength < i < |s| ==> s[i] == b[i - 2 * IvLength - 1];
  }

  /** The two pieces decode to exactly the IV and ciphertext bytes `encrypt` framed. */
  lemma FramingRoundTrip(ivBytes: seq<byte>, ct: seq<byte>)
    ensures var pieces := Split(HexEncode(ivBytes) + ":" + HexEncode(ct), ':');
      && |pieces| == 2
      && HexDecode(pieces[0]) == ivBytes
      && HexDecode(pieces[1]) == ct
  {
    var a := HexEncode(ivBytes);
    var b := HexEncode(ct);
    assert ':' !in a by { assert forall i :: 0 <= i < |a| ==> IsLowerHex(a[i]); }
    assert ':' !in b by { assert forall i :: 0 <= i < |b| ==> IsLowerHex(b[i]); }
    assert a + ":" + b == a + [':'] + b;
    SplitAround(a, ':', b);
    SplitWithoutSeparator(a, ':');
    SplitWithoutSeparator(b, ':');
    HexRoundTrip(ivBytes);
    HexRoundTrip(ct);
  }

  /** With a decipher that inverts the cipher, decrypting what `encrypt` produced gives the text back. */
  lemma DecryptEncrypt(key: seq<byte>, iv: seq<byte>, text: string, cipher: Cipher, decipher: Decipher)
    requires |iv| == IvLength && |key| == KeyLength
    requires Inverts(cipher, decipher)
    ensures Decrypt(key, Encrypt(key, iv, text, cipher).value, decipher) == Success(text)
  {
    var ct := cipher(key, iv, text);
    FramingRoundTrip(iv, ct);
    assert decipher(key, iv, ct) == Some(text);
  }

  /** Only the first two pieces matter: anything after a second ':' is ignored. */
  lemma ExtraPiecesIgnored(key: seq<byte>, s: string, extra: string, decipher: Decipher)
    requires ':' in s
    ensures Decrypt(key, s + ":" + extra, decipher) == Decrypt(key, s, decipher)
  {
    SplitAround(s, ':', extra);
    assert s + ":" + extra == s + [':'] + extra;
    var i :| 0 <= i < |s| && s[i] == ':';
    SplitAround(s[..i], ':', s[i + 1..]);
    assert s == s[..i] + [':'] + s[i + 1..];
  }

  /** Without a ':' there is no ciphertext piece, and `decrypt` throws. */
  lemma NoSeparatorFails(key: seq<byte>, s: string, decipher: Decipher)
    requires ':' !in s
    ensures Decrypt(key, s, decipher) == Failure(MissingCiphertext)
  {
    SplitWithoutSeparator(s, ':');
  }

  /** A key of the wrong length fails both directions: `encrypt` always, and `decrypt` on every
      well-framed input. */
  lemma WrongKeyLengthFails(key: seq<byte>, iv: seq<byte>, ct: seq<byte>, text: string,
                            cipher: Cipher, decipher: Decipher)
    requires |key| != KeyLength && |iv| == IvLength
    ensures Encrypt(key, iv, text, cipher) == Failure(InvalidKeyLength)
    ensures Decrypt(key, HexEncode(iv) + ":" + HexEncode(ct), decipher) == Failure(InvalidKeyLength)
  {
    FramingRoundTrip(iv, ct);
  }
}
