/** The System.String operations the table code is built from, on strings as
    sequences of characters. */
module Strings {

  function Max(a: int, b: int): int {
    if a < b then b else a
  }

  /** `new string(c, n)`: n copies of c. */
  function Repeat(c: char, n: nat): (r: string)
    ensures |r| == n
    ensures forall i :: 0 <= i < n ==> r[i] == c
  {
    if n == 0 then "" else Repeat(c, n - 1) + [c]
  }

  /** `s.PadRight(totalWidth, c)` for a width the call accepts (a negative one throws). */
  function PadRight(s: string, totalWidth: nat, c: char): (r: string)
    ensures |r| == Max(totalWidth, |s|)
    ensures r[..|s|] == s
    ensures forall i :: |s| <= i < |r| ==> r[i] == c
  {
    if totalWidth <= |s| then s else s + Repeat(c, totalWidth - |s|)
  }

  /** `s.PadLeft(totalWidth, c)` for a width the call accepts (a negative one throws). */
  function PadLeft(s: string, totalWidth: nat, c: char): (r: string)
    ensures |r| == Max(totalWidth, |s|)
    ensures r[|r| - |s|..] == s
    ensures forall i :: 0 <= i < |r| - |s| ==> r[i] == c
  {
    if totalWidth <= |s| then s else Repeat(c, totalWidth - |s|) + s
  }

  /** `string.Join(separator, parts)`: the parts with the separator between neighbours. */
  function Join(separator: string, parts: seq<string>): string
  {
    if |parts| == 0 then ""
    else if |parts| == 1 then parts[0]
    else Join(separator, parts[..|parts| - 1]) + separator + parts[|parts| - 1]
  }

  /** Total length of a list of strings. */
  function SumLengths(parts: seq<string>): nat
  {
    if |parts| == 0 then 0 else SumLengths(parts[..|parts| - 1]) + |parts[|parts| - 1]|
  }

  /** Joining one more part appends the separator and that part. */
  lemma JoinSnoc(separator: string, parts: seq<string>, last: string)
    requires |parts| > 0
    ensures Join(separator, parts + [last]) == Join(separator, parts) + separator + last
  {
    assert (parts + [last])[..|parts|] == parts;
  }
}
