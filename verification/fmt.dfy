/**
 * The two renderings of Go's fmt package that reach the program's output:
 * `%d` of a non-negative integer and `%s` of a `[]string`.
 */
module Fmt {

  /** The decimal digit for `d`. */
  function Digit(d: nat): (c: char)
    requires d < 10
    ensures '0' <= c <= '9'
    ensures c as int - '0' as int == d
  {
    ('0' as int + d) as char
  }

  predicate AllDigits(s: string) {
    forall i :: 0 <= i < |s| ==> '0' <= s[i] <= '9'
  }

  /** `%d` of `n`: its decimal digits, most significant first, with no leading zero. */
  function Decimal(n: nat): (s: string)
    ensures |s| > 0 && AllDigits(s)
    ensures n > 0 ==> s[0] != '0'
    ensures n == 0 ==> s == "0"
  {
    if n < 10 then [Digit(n)] else Decimal(n / 10) + [Digit(n % 10)]
  }

  /** The number a string of decimal digits denotes. */
  function Value(s: string): nat
    requires AllDigits(s)
  {
    if s == [] then 0 else Value(s[..|s| - 1]) * 10 + (s[|s| - 1] as int - '0' as int)
  }

  /** Reading back what `Decimal` writes gives the number again. */
  lemma {:induction false} DecimalRoundTrip(n: nat)
    ensures Value(Decimal(n)) == n
  {
    if n >= 10 {
      var s := Decimal(n);
      assert s[..|s| - 1] == Decimal(n / 10);
      DecimalRoundTrip(n / 10);
    }
  }

  /** The elements of `parts` separated by single spaces. */
  function Join(parts: seq<string>): string {
    if |parts| == 0 then ""
    else if |parts| == 1 then parts[0]
    else parts[0] + " " + Join(parts[1..])
  }

  /** Where the `i`-th element starts in `Join(parts)`: after the earlier elements and one space each. */
  function Offset(parts: seq<string>, i: nat): nat
    requires i <= |parts|
  {
    if i == 0 then 0 else |parts[0]| + 1 + Offset(parts[1..], i - 1)
  }

  /**
   * Each element appears whole at its offset, and a single space follows
   * every element but the last.
   */
  lemma {:induction false} JoinAt(parts: seq<string>, i: nat)
    requires i < |parts|
    ensures Offset(parts, i) + |parts[i]| <= |Join(parts)|
    ensures Join(parts)[Offset(parts, i)..Offset(parts, i) + |parts[i]|] == parts[i]
    ensures i + 1 < |parts| ==>
      Offset(parts, i) + |parts[i]| < |Join(parts)| && Join(parts)[Offset(parts, i) + |parts[i]|] == ' '
  {
    if |parts| > 1 {
      var rest := Join(parts[1..]);
      assert Join(parts) == parts[0] + " " + rest;
      if i > 0 {
        JoinAt(parts[1..], i - 1);
        var k := Offset(parts[1..], i - 1);
        assert Offset(parts, i) == |parts[0]| + 1 + k;
        assert Join(parts)[Offset(parts, i)..Offset(parts, i) + |parts[i]|] == rest[k..k + |parts[i]|];
      }
    }
  }

  /** Nothing follows the last element: the text ends where the last element does. */
  lemma {:induction false} JoinLength(parts: seq<string>)
    requires |parts| > 0
    ensures |Join(parts)| == Offset(parts, |parts| - 1) + |parts[|parts| - 1]|
  {
    if |parts| > 1 {
      var rest := parts[1..];
      JoinLength(rest);
      assert Join(parts) == parts[0] + " " + Join(rest);
      assert Offset(parts, |parts| - 1) == |parts[0]| + 1 + Offset(rest, |rest| - 1);
      assert parts[|parts| - 1] == rest[|rest| - 1];
    }
  }

  /** `%s` of a `[]string`: the elements separated by spaces, in square brackets. */
  function ListText(parts: seq<string>): string {
    "[" + Join(parts) + "]"
  }
}
