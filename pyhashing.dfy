/**
  `hashlib.sha256(text.encode()).hexdigest()` and `int(h, 16)`. The digest
  algorithm itself is a parameter of the model (`Sha256`); what is modelled is
  how its 32 bytes become a lower-case hexadecimal text and how a prefix of
  that text is read back as a number.
 */
module PyHashing {

  type byte = x: int | 0 <= x < 256

  /** The 32 bytes of a SHA-256 digest. */
  type Digest = s: seq<byte> | |s| == 32 witness seq(32, _ => 0)

  /** SHA-256 of the UTF-8 encoding of a text. */
  type Sha256 = string -> Digest

  function Pow(b: nat, e: nat): (r: nat)
    requires b >= 1
    ensures r >= 1
  {
    if e == 0 then 1 else b * Pow(b, e - 1)
  }

  /** The bytes read as one unsigned big-endian number. */
  function BigEndian(bs: seq<byte>): nat
  {
    if bs == [] then 0 else BigEndian(bs[..|bs| - 1]) * 256 + bs[|bs| - 1]
  }

  lemma {:induction false} BigEndianBound(bs: seq<byte>)
    ensures BigEndian(bs) < Pow(256, |bs|)
  {
    if bs != [] {
      BigEndianBound(bs[..|bs| - 1]);
      var p := Pow(256, |bs| - 1);
      assert BigEndian(bs[..|bs| - 1]) <= p - 1;
      assert BigEndian(bs[..|bs| - 1]) * 256 <= (p - 1) * 256;
    }
  }

  predicate IsHexDigit(ch: char)
  {
    '0' <= ch <= '9' || 'a' <= ch <= 'f' || 'A' <= ch <= 'F'
  }

  function HexChar(n: int): (ch: char)
    requires 0 <= n < 16
    ensures IsHexDigit(ch)
  {
    if n < 10 then ('0' as int + n) as char else ('a' as int + n - 10) as char
  }

  /** Value of one hexadecimal digit, either case. */
  function DigitValue(ch: char): (v: nat)
    requires IsHexDigit(ch)
    ensures v < 16
  {
    if '0' <= ch <= '9' then ch as int - '0' as int
    else if 'a' <= ch <= 'f' then ch as int - 'a' as int + 10
    else ch as int - 'A' as int + 10
  }

  /** `hexdigest()`: two lower-case hexadecimal digits per byte, high nibble first. */
  function HexDigest(bs: seq<byte>): (h: string)
    ensures |h| == 2 * |bs|
    ensures forall i :: 0 <= i < |h| ==> IsHexDigit(h[i])
  {
    if bs == [] then []
    else
      var last := bs[|bs| - 1];
      HexDigest(bs[..|bs| - 1]) + [HexChar(last / 16), HexChar(last % 16)]
  }

  /** `int(h, 16)` on a text made only of hexadecimal digits. */
  function ParseHex(h: string): (v: nat)
    requires forall i :: 0 <= i < |h| ==> IsHexDigit(h[i])
    ensures v < Pow(16, |h|)
  {
    if h == [] then 0
    else
      var init := ParseHex(h[..|h| - 1]);
      assert init * 16 + 15 <= (Pow(16, |h| - 1) - 1) * 16 + 15;
      init * 16 + DigitValue(h[|h| - 1])
  }

  /** A prefix of the hexadecimal text is the text of the same prefix of the bytes. */
  lemma {:induction false} HexDigestPrefix(bs: seq<byte>, n: nat)
    requires n <= |bs|
    ensures HexDigest(bs)[..2 * n] == HexDigest(bs[..n])
  {
    if n < |bs| {
      var init := bs[..|bs| - 1];
      HexDigestPrefix(init, n);
      assert init[..n] == bs[..n];
    } else {
      assert bs[..n] == bs;
    }
  }

  lemma HexCharValue(n: int)
    requires 0 <= n < 16
    ensures DigitValue(HexChar(n)) == n
  {
  }

  /** Reading the hexadecimal text back gives the big-endian value of the bytes. */
  lemma {:induction false} ParseHexDigest(bs: seq<byte>)
    ensures ParseHex(HexDigest(bs)) == BigEndian(bs)
  {
    if bs != [] {
      var init := bs[..|bs| - 1];
      var last := bs[|bs| - 1];
      var h := HexDigest(bs);
      var hi, lo := HexChar(last / 16), HexChar(last % 16);
      assert h == HexDigest(init) + [hi, lo];
      assert h[..|h| - 1] == HexDigest(init) + [hi];
      assert (HexDigest(init) + [hi])[..|h| - 2] == HexDigest(init);
      ParseHexDigest(init);
      HexCharValue(last / 16);
      HexCharValue(last % 16);
      assert ParseHex(h) == (BigEndian(init) * 16 + last / 16) * 16 + last % 16;
    }
  }
}
