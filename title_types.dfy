/** What a title lookup returns: `undefined`, `null` or an object literal. */
module TitleTypes {

  /** A title object. `Pending` is the object with only a `fullTitle`,
      shown to players who have not played enough to be ranked. */
  datatype Title =
    | Title(title: string, fullTitle: string, color: string)
    | Pending(fullTitle: string)

  datatype TitleResult = Undefined | Null | Found(entry: Title)

  /** The number a string of decimal digits spells, read left to right. */
  function DigitsValue(s: string): int
  {
    if s == [] then 0 else 10 * DigitsValue(s[..|s| - 1]) + (s[|s| - 1] as int - 48)
  }

  /** The decimal digits of `n`, as a template literal prints it: digits
      that spell `n`, with no leading zero. */
  function Decimal(n: nat): (s: string)
    ensures |s| >= 1
    ensures forall k :: 0 <= k < |s| ==> '0' <= s[k] <= '9'
    ensures DigitsValue(s) == n
    ensures n > 0 ==> s[0] != '0'
  {
    if n < 10 then [(48 + n) as char] else Decimal(n / 10) + [(48 + n % 10) as char]
  }
}
