/**
 * The parts of math/big the dispatcher relies on (Text, String, SetString
 * and Uint64 on a *big.Int), and Go's fixed-width unsigned integers.
 */
module BigInt {
  import opened Wrappers
  import Hex

  const TwoTo64: int := 0x1_0000_0000_0000_0000

  type Uint64 = x: int | 0 <= x < 0x1_0000_0000_0000_0000
  type Uint32 = x: int | 0 <= x < 0x1_0000_0000

  /** The digits of `n` in `base`, most significant first, in lower case, without leading zeros. */
  function NatText(n: nat, base: nat): (s: string)
    requires 2 <= base <= 16
    ensures |s| >= 1
    ensures forall i :: 0 <= i < |s| ==> Hex.IsLowerHexDigit(s[i])
    decreases n
  {
    if n < base then [Hex.HexDigit(n)] else NatText(n / base, base) + [Hex.HexDigit(n % base)]
  }

  /** (*big.Int).Text(16): lower-case hex, a "-" before a negative value, "0" for zero. */
  function Text16(n: int): string {
    if n < 0 then "-" + NatText(-n, 16) else NatText(n, 16)
  }

  /** (*big.Int).String(): the decimal form. */
  function Decimal(n: int): string {
    if n < 0 then "-" + NatText(-n, 10) else NatText(n, 10)
  }

  /** The value of a non-empty run of hex digits of either case, or None. */
  function DigitsValue(s: string): Option<nat>
    decreases |s|
  {
    if |s| == 0 then None
    else
      var d := Hex.FromHexChar(s[|s| - 1]);
      if d.None? then None
      else if |s| == 1 then d
      else
        match DigitsValue(s[..|s| - 1])
        case None => None
        case Some(v) => Some(v * 16 + d.value)
  }

  /**
   * (*big.Int).SetString(s, 16): an optional sign, then at least one hex
   * digit of either case, then nothing else. No "0x" prefix and no
   * underscores are accepted with an explicit base.
   */
  function SetString16(s: string): Option<int> {
    var negative := |s| > 0 && s[0] == '-';
    var digits := if |s| > 0 && (s[0] == '-' || s[0] == '+') then s[1..] else s;
    match DigitsValue(digits)
    case None => None
    case Some(v) => Some(if negative then -(v as int) else v as int)
  }

  /**
   * A *big.Int as the dispatcher hands it on: nil, a value, or a non-nil
   * pointer whose SetString failed, whose value Go leaves undefined.
   */
  datatype BigPtr = Nil | Val(n: int) | Undefined

  /** `n := new(big.Int); n.SetString(s, 16)`, keeping n whether or not the parse succeeded. */
  function NewFromHex(s: string): (p: BigPtr)
    ensures p != Nil
    ensures SetString16(s).Some? <==> p.Val?
    ensures p.Val? ==> SetString16(s) == Some(p.n)
  {
    match SetString16(s)
    case Some(v) => Val(v)
    case None => Undefined
  }

  /** (*big.Int).Uint64(): the low 64 bits of the magnitude. */
  function Low64(n: int): Uint64 {
    (if n < 0 then -n else n) % TwoTo64
  }

  /** int64(u) for a uint64 u: the two's complement reading of the same 64 bits. */
  function Int64Of(u: Uint64): int {
    if u < TwoTo64 / 2 then u else u - TwoTo64
  }

  /** Reading back the digits NatText writes in base 16 gives the number. */
  lemma {:induction false} DigitsValueOfText(n: nat)
    ensures DigitsValue(NatText(n, 16)) == Some(n)
    decreases n
  {
    var s := NatText(n, 16);
    if n >= 16 {
      DigitsValueOfText(n / 16);
      assert s[..|s| - 1] == NatText(n / 16, 16);
      assert s[|s| - 1] == Hex.HexDigit(n % 16);
    }
  }

  /** SetString(Text(16)) is the identity on every integer, negative ones included. */
  lemma Text16RoundTrip(n: int)
    ensures SetString16(Text16(n)) == Some(n)
  {
    if n < 0 {
      var t := NatText(-n, 16);
      var s := "-" + t;
      assert s[0] == '-' && s[1..] == t;
      DigitsValueOfText(-n);
    } else {
      var t := NatText(n, 16);
      assert Hex.IsLowerHexDigit(t[0]);
      DigitsValueOfText(n);
    }
  }

  /** Text(16) of a natural number has no leading zero unless the number is zero, and zero is "0". */
  lemma {:induction false} NatTextCanonical(n: nat)
    ensures NatText(n, 16)[0] == '0' <==> n == 0
    ensures n == 0 ==> NatText(n, 16) == "0"
    decreases n
  {
    if n >= 16 {
      NatTextCanonical(n / 16);
    }
  }
}
