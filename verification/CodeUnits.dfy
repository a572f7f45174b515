/** JavaScript strings: sequences of UTF-16 code units. */
module CodeUnits {
  /** A code unit; those of a JavaScript string lie below 0x10000. */
  type Unit = int

  type Str = seq<Unit>

  /** A string literal of characters in the Basic Multilingual Plane, as code units. */
  function Of(s: string): (units: Str)
    requires forall c :: c in s ==> c as int < 0x10000
    ensures |units| == |s| && forall i :: 0 <= i < |s| ==> units[i] == s[i] as int
  {
    seq(|s|, i requires 0 <= i < |s| => assert s[i] in s; s[i] as int)
  }

  const QUOTE: Unit := 34
  const BACKSLASH: Unit := 92

  /** The digits of a four-digit `\u` escape. */
  predicate IsHex(u: Unit) {
    48 <= u <= 57 || 65 <= u <= 70 || 97 <= u <= 102
  }

  function HexValue(u: Unit): (v: nat)
    requires IsHex(u)
    ensures v < 16
  {
    if u <= 57 then u - 48 else if u <= 70 then u - 55 else u - 87
  }

  function FourHex(s: Str): Unit
    requires |s| == 4 && IsHex(s[0]) && IsHex(s[1]) && IsHex(s[2]) && IsHex(s[3])
  {
    HexValue(s[0]) * 0x1000 + HexValue(s[1]) * 0x100 + HexValue(s[2]) * 0x10 + HexValue(s[3])
  }
}
