/** Small value types shared by the stock ledger, the controllers and the reports. */
module Common {

  /** A nullable column or an optional request field. */
  datatype Option<+T> = None | Some(value: T)

  /** PHP truthiness of an optional string, as `?:` and `empty()` read it:
      null, the empty string and the string "0" are all falsy. */
  predicate Falsy(s: Option<string>) {
    s.None? || s.value == "" || s.value == "0"
  }

  /** The characters PHP's `trim` strips by default: space, tab, newline,
      carriage return, NUL and vertical tab. */
  predicate TrimmedChar(c: char) {
    c == ' ' || c == '\t' || c == '\n' || c == '\r' || c == '\0' || c as int == 0x0B
  }

  /** A string that is empty once trimmed. Laravel's `required` rule refuses
      such a string, the empty string included. */
  predicate Blank(s: string) {
    forall i :: 0 <= i < |s| ==> TrimmedChar(s[i])
  }

  /** `$x ?: null` (and `!empty($x) ? $x : null`) on an optional string. */
  function NullIfFalsy(s: Option<string>): (r: Option<string>)
    ensures r.None? <==> Falsy(s)
    ensures r.Some? ==> r == s && r.value != ""
  {
    if Falsy(s) then None else s
  }

  /** The decimal digit for 0..9. */
  function Digit(d: nat): (c: char)
    requires d < 10
    ensures '0' <= c <= '9'
    ensures c as int - '0' as int == d
  {
    "0123456789"[d]
  }

  /** The number a string of decimal digits denotes, read most significant
      digit first; a character that is not a digit reads as 0. */
  function DigitsValue(s: string): nat {
    if s == [] then 0
    else
      var c := s[|s| - 1];
      DigitsValue(s[..|s| - 1]) * 10 + (if '0' <= c <= '9' then c as int - '0' as int else 0)
  }

  /** PHP's string conversion of a non-negative integer, as in `'PUR-' . $id`:
      the digits of `n`, with no leading zero. */
  function DecimalString(n: nat): (s: string)
    ensures 1 <= |s|
    ensures forall i :: 0 <= i < |s| ==> '0' <= s[i] <= '9'
    ensures n >= 10 ==> s[0] != '0'
    ensures DigitsValue(s) == n
  {
    if n < 10 then
      assert [Digit(n)][..0] == [];
      [Digit(n)]
    else
      var p := DecimalString(n / 10);
      assert (p + [Digit(n % 10)])[..|p|] == p;
      p + [Digit(n % 10)]
  }

  /** Different ids give different strings. */
  lemma DecimalStringInjective(a: nat, b: nat)
    requires DecimalString(a) == DecimalString(b)
    ensures a == b
  {
  }
}
