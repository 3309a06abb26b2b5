/**
 * Node identifiers. The overlay writes node IDs as strings of hexadecimal
 * digits and compares them as unsigned integers read in base 16.
 */
module NodeIds {

  predicate IsHexDigit(c: char) {
    '0' <= c <= '9' || 'a' <= c <= 'f' || 'A' <= c <= 'F'
  }

  predicate IsHex(s: string) {
    forall i :: 0 <= i < |s| ==> IsHexDigit(s[i])
  }

  /** A node ID: a string of hexadecimal digits (the empty string included). */
  type NodeId = s: string | IsHex(s) witness ""

  function DigitValue(c: char): (d: nat)
    requires IsHexDigit(c)
    ensures d < 16
  {
    if '0' <= c <= '9' then c as int - '0' as int
    else if 'a' <= c <= 'f' then c as int - 'a' as int + 10
    else c as int - 'A' as int + 10
  }

  /** The unsigned integer an ID denotes, most significant digit first. */
  function Value(id: NodeId): nat
    decreases |id|
  {
    if |id| == 0 then 0
    else Value(id[..|id| - 1]) * 16 + DigitValue(id[|id| - 1])
  }

  /** `n` zero digits: distinct IDs of every length, all of value 0. */
  function Zeros(n: nat): (id: NodeId)
    ensures |id| == n
    ensures Value(id) == 0
  {
    if n == 0 then ""
    else
      var id := Zeros(n - 1) + "0";
      assert id[..|id| - 1] == Zeros(n - 1);
      id
  }
}
