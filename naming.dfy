/**
 * Output names: the string-table name of a sound when the bank has one,
 * otherwise "sound_" followed by the index printed with "%03u" (decimal,
 * zero-padded to at least three digits).
 */
module Naming {
  import opened Wrappers
  import opened Bytes
  import opened Pulsar

  const FALLBACK_PREFIX: string := "sound_"

  function DigitChar(d: nat): (c: char)
    requires d < 10
    ensures '0' <= c <= '9' && c as int - '0' as int == d
  {
    (d + '0' as int) as char
  }

  /** The decimal digits of n, most significant first, without leading zeros ("0" for zero). */
  function Digits(n: nat): (s: string)
    ensures 1 <= |s|
    ensures forall k :: 0 <= k < |s| ==> '0' <= s[k] <= '9'
    ensures n < 10 <==> |s| == 1
    ensures n < 100 <==> |s| <= 2
  {
    if n < 10 then [DigitChar(n)] else Digits(n / 10) + [DigitChar(n % 10)]
  }

  /** "%0<width>u": the digits of n, preceded by as many '0' as make it width long. */
  function ZeroPadded(n: nat, width: nat): (s: string)
    ensures |s| == if |Digits(n)| < width then width else |Digits(n)|
    ensures forall k :: 0 <= k < |s| ==> '0' <= s[k] <= '9'
  {
    var d := Digits(n);
    if |d| < width then seq(width - |d|, _ => '0') + d else d
  }

  /** snprintf(name, ..., "sound_%03u", i) */
  function FallbackName(i: u32): string {
    FALLBACK_PREFIX + ZeroPadded(i, 3)
  }

  /** The value of a string of decimal digits, leading zeros allowed. */
  function DecimalValue(s: string): nat
    requires forall k :: 0 <= k < |s| ==> '0' <= s[k] <= '9'
  {
    if s == [] then 0 else DecimalValue(s[..|s| - 1]) * 10 + (s[|s| - 1] as int - '0' as int)
  }

  lemma {:induction false} DecimalValueDigits(n: nat)
    ensures DecimalValue(Digits(n)) == n
  {
    if n >= 10 {
      var s := Digits(n);
      assert s[..|s| - 1] == Digits(n / 10);
      DecimalValueDigits(n / 10);
    }
  }

  lemma {:induction false} DecimalValueLeadingZeros(z: nat, s: string)
    requires forall k :: 0 <= k < |s| ==> '0' <= s[k] <= '9'
    ensures var t := seq(z, _ => '0') + s;
      (forall k :: 0 <= k < |t| ==> '0' <= t[k] <= '9') && DecimalValue(t) == DecimalValue(s)
  {
    var t := seq(z, _ => '0') + s;
    if s == [] {
      assert t == seq(z, _ => '0');
      if z > 0 {
        assert t[..|t| - 1] == seq(z - 1, _ => '0') + [];
        DecimalValueLeadingZeros(z - 1, []);
      }
    } else {
      assert t[..|t| - 1] == seq(z, _ => '0') + s[..|s| - 1];
      DecimalValueLeadingZeros(z, s[..|s| - 1]);
    }
  }

  /** The index a fallback name encodes: the value of the digits after the prefix. */
  function FallbackIndex(name: string): Option<nat> {
    if |name| > |FALLBACK_PREFIX| && name[..|FALLBACK_PREFIX|] == FALLBACK_PREFIX
       && forall k :: |FALLBACK_PREFIX| <= k < |name| ==> '0' <= name[k] <= '9'
    then Some(DecimalValue(name[|FALLBACK_PREFIX|..]))
    else None
  }

  /**
   * A fallback name is "sound_" and then at least three digits, exactly three
   * below 1000, and the digits give the index back: distinct sounds never get
   * the same fallback name.
   */
  lemma FallbackNameRoundTrip(i: u32)
    ensures |FallbackName(i)| >= |FALLBACK_PREFIX| + 3
    ensures i < 1000 ==> |FallbackName(i)| == |FALLBACK_PREFIX| + 3
    ensures FallbackName(i)[..|FALLBACK_PREFIX|] == FALLBACK_PREFIX
    ensures FallbackIndex(FallbackName(i)) == Some(i)
  {
    var name := FallbackName(i);
    var d := Digits(i);
    assert name[|FALLBACK_PREFIX|..] == ZeroPadded(i, 3);
    DecimalValueDigits(i);
    if |d| < 3 {
      DecimalValueLeadingZeros(3 - |d|, d);
    }
  }

  lemma FallbackNameInjective(i: u32, j: u32)
    requires FallbackName(i) == FallbackName(j)
    ensures i == j
  {
    FallbackNameRoundTrip(i);
    FallbackNameRoundTrip(j);
  }

  /** Sound 7 with no usable string-table name is written as "sound_007". */
  lemma FallbackNameSeven()
    ensures FallbackName(7) == "sound_007"
  {
  }

  /** The name the batch loops give sound i: its string-table name if it has one and the look-up works. */
  function ResolveName(bank: Bank, i: u32, sound: SoundInfo): (name: string)
    ensures sound.hasStringIndex && sound.stringIndex in bank.strings ==> name == bank.strings[sound.stringIndex]
    ensures !(sound.hasStringIndex && sound.stringIndex in bank.strings) ==> name == FallbackName(i)
  {
    if sound.hasStringIndex then
      match StringGet(bank, sound.stringIndex)
      case Some(s) => s
      case None => FallbackName(i)
    else
      FallbackName(i)
  }
}
