/**
 * `sha256Hex`: the SHA-256 digest (section 6.2 of FIPS 180-4) of the UTF-8
 * encoding (RFC 3629) of a string, written as lowercase base16 (section 8 of
 * RFC 4648 with the lowercase alphabet). The digest and the encoder come from
 * the platform and are parameters of the model.
 */
module Hash {
  import opened Wrappers
  import opened JsText
  import opened ZkTypes

  /** A SHA-256 digest. */
  type Digest = d: seq<byte> | |d| == 32 witness seq(32, i => 0)

  /**
   * What the runtime offers: whether a `window` global exists, whether
   * `window.crypto.subtle` is present, and the two platform primitives.
   */
  datatype Runtime = Runtime(
    hasWindow: bool,
    hasSubtle: bool,
    encodeUtf8: string -> seq<byte>,
    sha256: seq<byte> -> Digest)

  predicate IsLowerHex(c: char) { '0' <= c <= '9' || 'a' <= c <= 'f' }

  /** A number in base 16: lowercase hexadecimal digits without leading zeros. */
  function ToRadix16(n: nat): (s: string)
    ensures 1 <= |s|
    ensures forall i :: 0 <= i < |s| ==> IsLowerHex(s[i])
    decreases n
  {
    if n < 16 then [HexAlphabet[n]] else ToRadix16(n / 16) + [HexAlphabet[n % 16]]
  }

  /** Fills `s` on the left with `fill` up to `width` characters; longer strings stay as they are. */
  function PadStart(s: string, width: nat, fill: char): string
  {
    if |s| >= width then s else seq(width - |s|, _ => fill) + s
  }

  /** One byte as exactly two hex digits, zero-padded on the left: the high nibble, then the low nibble. */
  function ByteToHex(b: byte): (s: string)
    ensures s == [HexAlphabet[b / 16], HexAlphabet[b % 16]]
  {
    var digits := ToRadix16(b);
    if b < 16 then
      assert digits == [HexAlphabet[b]];
      assert seq(1, _ => '0') == [HexAlphabet[0]];
      PadStart(digits, 2, '0')
    else
      assert ToRadix16(b / 16) == [HexAlphabet[b / 16]];
      PadStart(digits, 2, '0')
  }

  /** The digits of every byte, in order, joined with "". */
  function HexEncode(bytes: seq<byte>): (s: string)
    ensures |s| == 2 * |bytes|
    ensures forall i :: 0 <= i < |s| ==> IsLowerHex(s[i])
  {
    if |bytes| == 0 then "" else ByteToHex(bytes[0]) + HexEncode(bytes[1..])
  }

  /** The value of a lowercase hexadecimal digit. */
  function HexValue(c: char): nat
    requires IsLowerHex(c)
    ensures HexValue(c) < 16 && HexAlphabet[HexValue(c)] == c
  {
    if c <= '9' then (c as int) - ('0' as int) else (c as int) - ('a' as int) + 10
  }

  /** Reads back two lowercase hex digits per byte; None for any other text. */
  function HexDecode(s: string): Option<seq<byte>>
  {
    if |s| == 0 then Some([])
    else if |s| == 1 || !IsLowerHex(s[0]) || !IsLowerHex(s[1]) then None
    else match HexDecode(s[2..])
      case None => None
      case Some(rest) => Some([HexValue(s[0]) * 16 + HexValue(s[1]) as byte] + rest)
  }

  lemma HexValueOfAlphabet(d: nat)
    requires d < 16
    ensures IsLowerHex(HexAlphabet[d]) && HexValue(HexAlphabet[d]) == d
  {
  }

  /** The encoding loses nothing: decoding the hex text gives the bytes back. */
  lemma {:induction false} HexRoundTrip(bytes: seq<byte>)
    ensures HexDecode(HexEncode(bytes)) == Some(bytes)
  {
    if |bytes| > 0 {
      var b := bytes[0];
      var s := HexEncode(bytes);
      var hi, lo := HexAlphabet[b / 16], HexAlphabet[b % 16];
      assert s == [hi, lo] + HexEncode(bytes[1..]);
      assert s[0] == hi && s[1] == lo && s[2..] == HexEncode(bytes[1..]);
      HexRoundTrip(bytes[1..]);
      HexValueOfAlphabet(b / 16);
      HexValueOfAlphabet(b % 16);
      assert HexValue(hi) * 16 + HexValue(lo) == b;
      assert HexDecode(s) == Some([b] + bytes[1..]);
      assert [b] + bytes[1..] == bytes;
    }
  }

  /** Distinct digests give distinct hex strings. */
  lemma HexEncodeInjective(a: seq<byte>, b: seq<byte>)
    requires HexEncode(a) == HexEncode(b)
    ensures a == b
  {
    HexRoundTrip(a);
    HexRoundTrip(b);
  }

  const NoCryptoMessage := "Web Crypto API is only available in browser runtime"

  /**
   * `sha256Hex(value)`: rejects without a window or without `crypto.subtle`;
   * otherwise the 64 lowercase hex digits of the digest of the UTF-8 bytes.
   */
  function Sha256Hex(rt: Runtime, value: string): (r: Result<string, Failure>)
    ensures r.Success? <==> rt.hasWindow && rt.hasSubtle
    ensures r.Failure? ==> r.error == Thrown(NoCryptoMessage)
    ensures r.Success? ==> |r.value| == 64 && forall i :: 0 <= i < 64 ==> IsLowerHex(r.value[i])
    ensures r.Success? ==> HexDecode(r.value) == Some(rt.sha256(rt.encodeUtf8(value)))
  {
    if !rt.hasWindow || !rt.hasSubtle then Failure(Thrown(NoCryptoMessage))
    else
      var digest := rt.sha256(rt.encodeUtf8(value));
      HexRoundTrip(digest);
      Success(HexEncode(digest))
  }
}
