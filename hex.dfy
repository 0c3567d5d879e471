/** Go's encoding/hex, as hex.EncodeToString and hex.DecodeString behave. */
module Hex {
  import opened Wrappers

  type Byte = x: int | 0 <= x < 256

  /** The digit EncodeToString writes for a nibble: 0-9, then lower-case a-f. */
  function HexDigit(d: nat): (c: char)
    requires d < 16
    ensures IsLowerHexDigit(c)
  {
    if d < 10 then ('0' as int + d) as char else ('a' as int + d - 10) as char
  }

  predicate IsLowerHexDigit(c: char) {
    '0' <= c <= '9' || 'a' <= c <= 'f'
  }

  /** hex.EncodeToString: two lower-case digits per byte, high nibble first. */
  function EncodeToString(b: seq<Byte>): (s: string)
    ensures |s| == 2 * |b|
    ensures forall i :: 0 <= i < |s| ==> IsLowerHexDigit(s[i])
  {
    if b == [] then "" else [HexDigit(b[0] / 16), HexDigit(b[0] % 16)] + EncodeToString(b[1..])
  }

  /** The value of one hex digit of either case, or None. */
  function FromHexChar(c: char): (r: Option<nat>)
    ensures r.Some? ==> r.value < 16
    ensures r.Some? <==> ('0' <= c <= '9' || 'a' <= c <= 'f' || 'A' <= c <= 'F')
  {
    if '0' <= c <= '9' then Some(c as int - '0' as int)
    else if 'a' <= c <= 'f' then Some(c as int - 'a' as int + 10)
    else if 'A' <= c <= 'F' then Some(c as int - 'A' as int + 10)
    else None
  }

  /**
   * The first byte of the UTF-8 encoding of `c`: the byte Go's decoder
   * meets first, since a Go string is a sequence of bytes.
   */
  function Utf8LeadByte(c: char): Byte {
    var n := c as int;
    if n < 0x80 then n
    else if n < 0x800 then 0xC0 + n / 0x40
    else if n < 0x1_0000 then 0xE0 + n / 0x1000
    else 0xF0 + n / 0x4_0000
  }

  /** The two errors hex.DecodeString reports: InvalidByteError and ErrLength. */
  datatype DecodeError = InvalidByte(b: Byte) | OddLength

  /**
   * What hex.DecodeString returns: the bytes decoded before the first
   * error, together with that error (or nil).
   */
  datatype Decoded = Decoded(bytes: seq<Byte>, err: Option<DecodeError>)

  /**
   * hex.DecodeString: pairs are decoded from the left; the first invalid
   * character stops decoding with InvalidByte (the first of a pair is checked
   * before the second), and a trailing single digit gives OddLength. The
   * bytes of the complete pairs before the error are still returned.
   */
  function DecodeString(s: string): (d: Decoded)
    ensures |d.bytes| <= |s| / 2
    decreases |s|
  {
    if |s| == 0 then Decoded([], None)
    else if FromHexChar(s[0]).None? then Decoded([], Some(InvalidByte(Utf8LeadByte(s[0]))))
    else if |s| == 1 then Decoded([], Some(OddLength))
    else if FromHexChar(s[1]).None? then Decoded([], Some(InvalidByte(Utf8LeadByte(s[1]))))
    else
      var rest := DecodeString(s[2..]);
      Decoded([FromHexChar(s[0]).value * 16 + FromHexChar(s[1]).value] + rest.bytes, rest.err)
  }

  /** True when every character of `s` is a hex digit. */
  predicate AllHex(s: string) {
    forall i :: 0 <= i < |s| ==> FromHexChar(s[i]).Some?
  }

  /** strconv.IsPrint for a code point below 256. */
  predicate IsPrintLatin1(b: Byte) {
    (0x20 <= b <= 0x7E) || (0xA1 <= b <= 0xFF && b != 0xAD)
  }

  /** The digit fmt's %X writes for a nibble: 0-9, then upper-case A-F. */
  function UpperHexDigit(d: nat): char
    requires d < 16
  {
    if d < 10 then ('0' as int + d) as char else ('A' as int + d - 10) as char
  }

  /** fmt's "%#U" of a code point below 256: U+00XX, then the quoted character when printable. */
  function FormatCodePoint(b: Byte): string {
    "U+00" + [UpperHexDigit(b / 16), UpperHexDigit(b % 16)]
    + (if IsPrintLatin1(b) then " '" + [b as char] + "'" else "")
  }

  /** The Error() text of each decoding error. */
  function ErrorText(e: DecodeError): string {
    match e
    case InvalidByte(b) => "encoding/hex: invalid byte: " + FormatCodePoint(b)
    case OddLength => "encoding/hex: odd length hex string"
  }

  /** Each digit EncodeToString writes reads back as its nibble. */
  lemma DigitValue(d: nat)
    requires d < 16
    ensures FromHexChar(HexDigit(d)) == Some(d)
  {
  }

  /** Encoding then decoding gives the bytes back, with no error. */
  lemma {:induction false} DecodeEncode(b: seq<Byte>)
    ensures DecodeString(EncodeToString(b)) == Decoded(b, None)
  {
    if b != [] {
      var s := EncodeToString(b);
      assert s[2..] == EncodeToString(b[1..]);
      DigitValue(b[0] / 16);
      DigitValue(b[0] % 16);
      DecodeEncode(b[1..]);
    }
  }

  /**
   * Decoding stops at the first bad pair but keeps what came before it:
   * a well-formed prefix contributes its bytes to the result whatever follows.
   */
  lemma {:induction false} DecodeKeepsPrefix(b: seq<Byte>, t: string)
    ensures DecodeString(EncodeToString(b) + t) == Decoded(b + DecodeString(t).bytes, DecodeString(t).err)
  {
    if b != [] {
      var e := EncodeToString(b[1..]);
      Regroup([HexDigit(b[0] / 16), HexDigit(b[0] % 16)], e, t);
      DecodePair(b[0], e + t);
      DecodeKeepsPrefix(b[1..], t);
      Regroup([b[0]], b[1..], DecodeString(t).bytes);
      assert [b[0]] + b[1..] == b;
    } else {
      assert EncodeToString(b) + t == t;
      assert b + DecodeString(t).bytes == DecodeString(t).bytes;
    }
  }

  /** Concatenation regroups freely. */
  lemma Regroup<T>(x: seq<T>, y: seq<T>, z: seq<T>)
    ensures (x + y) + z == x + (y + z)
  {
  }

  /** The two digits of one encoded byte decode to that byte, and decoding carries on with what follows. */
  lemma DecodePair(x: Byte, r: string)
    ensures DecodeString([HexDigit(x / 16), HexDigit(x % 16)] + r) == Decoded([x] + DecodeString(r).bytes, DecodeString(r).err)
  {
    var s := [HexDigit(x / 16), HexDigit(x % 16)] + r;
    assert s[2..] == r;
    DigitValue(x / 16);
    DigitValue(x % 16);
  }

  /** Decoding succeeds exactly on even-length strings of hex digits, and then halves the length. */
  lemma {:induction false} DecodeSucceeds(s: string)
    ensures DecodeString(s).err.None? <==> |s| % 2 == 0 && AllHex(s)
    ensures DecodeString(s).err.None? ==> |DecodeString(s).bytes| == |s| / 2
    decreases |s|
  {
    if |s| >= 2 && FromHexChar(s[0]).Some? && FromHexChar(s[1]).Some? {
      DecodeSucceeds(s[2..]);
      if AllHex(s) {
        assert AllHex(s[2..]) by {
          forall i | 0 <= i < |s[2..]| ensures FromHexChar(s[2..][i]).Some? {
            assert s[2..][i] == s[i + 2];
          }
        }
      }
      if AllHex(s[2..]) {
        forall i | 0 <= i < |s| ensures FromHexChar(s[i]).Some? {
          if i >= 2 { assert s[i] == s[2..][i - 2]; }
        }
      }
    }
  }
}
