/** Small helpers shared by every module: optional values, the JavaScript
    truthiness rules the source relies on, and the string operations its
    template literals and `includes` calls perform. */
module Common {

  datatype Option<+T> = None | Some(value: T) {
    function GetOr(default: T): T {
      match this
      case Some(v) => v
      case None => default
    }
  }

  /** A possibly-undefined string used in a JavaScript condition: only a
      present, non-empty string is truthy. */
  predicate Truthy(s: Option<string>) {
    s.Some? && s.value != ""
  }

  /** `s || fallback` on a possibly-undefined string. */
  function Or(s: Option<string>, fallback: string): (r: string)
    ensures Truthy(s) ==> r == s.value
    ensures !Truthy(s) ==> r == fallback
  {
    if Truthy(s) then s.value else fallback
  }

  /** `${s}` in a template literal: an undefined value prints as "undefined". */
  function Interpolate(s: Option<string>): string {
    s.GetOr("undefined")
  }

  predicate IsDigit(c: char) {
    '0' <= c <= '9'
  }

  function DigitChar(d: nat): (c: char)
    requires d < 10
    ensures IsDigit(c)
  {
    "0123456789"[d]
  }

  /** Decimal rendering of a non-negative number, as a template literal prints it. */
  function NatToString(n: nat): (r: string)
    ensures |r| >= 1
  {
    if n < 10 then [DigitChar(n)] else NatToString(n / 10) + [DigitChar(n % 10)]
  }

  /** The rendering consists of decimal digits only, a single one exactly
      for numbers below ten. */
  lemma {:induction false} NatToStringIsDecimal(n: nat)
    ensures forall i :: 0 <= i < |NatToString(n)| ==> IsDigit(NatToString(n)[i])
    ensures n < 10 <==> |NatToString(n)| == 1
  {
    if n >= 10 {
      NatToStringIsDecimal(n / 10);
      var r := NatToString(n);
      assert r == NatToString(n / 10) + [DigitChar(n % 10)];
    }
  }

  /** Decimal rendering of an integer, with a leading minus sign when negative. */
  function IntToString(i: int): (r: string)
    ensures |r| >= 1
    ensures i < 0 <==> r[0] == '-'
  {
    NatToStringIsDecimal(if i < 0 then -i else i);
    if i < 0 then "-" + NatToString(-i) else NatToString(i)
  }

  /** `sub` occurs in `s` starting at index `i`. */
  predicate OccursAt(s: string, sub: string, i: nat) {
    i + |sub| <= |s| && s[i..i + |sub|] == sub
  }

  /** `s.includes(sub)`. */
  predicate Contains(s: string, sub: string) {
    exists i: nat :: i <= |s| && OccursAt(s, sub, i)
  }

  /** The message of the TypeError a JavaScript engine (V8) raises when a
      property is read from `undefined`. */
  function ReadUndefinedMessage(property: string): string {
    "Cannot read properties of undefined (reading '" + property + "')"
  }

  /** The message of the TypeError raised when a property is assigned on `undefined`. */
  function SetUndefinedMessage(property: string): string {
    "Cannot set properties of undefined (setting '" + property + "')"
  }
}
