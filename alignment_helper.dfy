/** AlignmentHelper: padding one value to a target width, to the left, to the
    right, in the centre, or automatically (right for numbers, left otherwise).
    The generator's private copies of these functions behave identically and use
    these definitions. */
module AlignmentHelper {
  import opened Wrappers
  import opened Strings

  /** `(value ?? "").ToString()`, the value given by its string form (None for null). */
  function Coalesce(value: Option<string>): string {
    if value.Some? then value.value else ""
  }

  /** `padChar ?? ' '`. */
  function PadCharOf(padChar: Option<char>): char {
    if padChar.Some? then padChar.value else ' '
  }

  /** r holds s starting at position `before`, and every other character of r is c. */
  ghost predicate PaddedAround(r: string, s: string, before: nat, c: char) {
    && before + |s| <= |r|
    && r[before..before + |s|] == s
    && (forall i :: 0 <= i < before ==> r[i] == c)
    && (forall i :: before + |s| <= i < |r| ==> r[i] == c)
  }

  /** A padded string is pad characters, the value, and pad characters. */
  lemma PaddedForm(r: string, s: string, before: nat, c: char)
    requires PaddedAround(r, s, before, c)
    ensures r == Repeat(c, before) + s + Repeat(c, |r| - before - |s|)
  {
    var back := |r| - before - |s|;
    assert r == r[..before] + r[before..before + |s|] + r[before + |s|..];
    assert r[..before] == Repeat(c, before);
    assert r[before + |s|..] == Repeat(c, back);
  }

  /** `Convert.ToInt32(n / 2.0)`: half of n rounded to the nearest integer, ties to
      the even neighbour. */
  function RoundedHalf(n: nat): (h: nat)
    ensures h * 2 <= n + 1 && n <= h * 2 + 1
    ensures n % 2 == 1 ==> h % 2 == 0
  {
    if n % 2 == 0 then n / 2
    else if (n / 2) % 2 == 0 then n / 2
    else n / 2 + 1
  }

  /** The padding AlignCenter puts in front of a value, given the free space. */
  function CenterLead(slack: int): nat {
    if slack > 0 then RoundedHalf(slack) else 0
  }

  /** AlignLeft: the value followed by pad characters up to `length`; a negative
      length makes PadRight throw. */
  function AlignLeft(value: Option<string>, length: int, padChar: Option<char>): (r: Result<string>)
    ensures r.Ok? <==> length >= 0
    ensures r.Ok? ==> |r.value| == Max(length, |Coalesce(value)|)
    ensures r.Ok? ==> PaddedAround(r.value, Coalesce(value), 0, PadCharOf(padChar))
  {
    if length < 0 then Err(ArgumentOutOfRange)
    else Ok(PadRight(Coalesce(value), length, PadCharOf(padChar)))
  }

  /** AlignRight: pad characters up to `length`, then the value; a negative length
      makes PadLeft throw. */
  function AlignRight(value: Option<string>, length: int, padChar: Option<char>): (r: Result<string>)
    ensures r.Ok? <==> length >= 0
    ensures r.Ok? ==> |r.value| == Max(length, |Coalesce(value)|)
    ensures r.Ok? ==> PaddedAround(r.value, Coalesce(value), |r.value| - |Coalesce(value)|, PadCharOf(padChar))
  {
    if length < 0 then Err(ArgumentOutOfRange)
    else Ok(PadLeft(Coalesce(value), length, PadCharOf(padChar)))
  }

  /** AlignCenter: the free space split in two, the front half rounded half to even;
      no free space leaves the value as it is. */
  function AlignCenter(value: Option<string>, length: int, padChar: Option<char>): (r: string)
    ensures |r| == Max(length, |Coalesce(value)|)
    ensures PaddedAround(r, Coalesce(value), CenterLead(length - |Coalesce(value)|), PadCharOf(padChar))
  {
    var coalescedValue := Coalesce(value);
    var allSpace := length - |coalescedValue|;
    if allSpace > 0 then
      var leftSpace := RoundedHalf(allSpace);
      Repeat(PadCharOf(padChar), leftSpace) + coalescedValue + Repeat(PadCharOf(padChar), allSpace - leftSpace)
    else
      coalescedValue
  }

  /** AlignAuto: when the value is shorter than `length`, right-aligned if its type is
      numeric and left-aligned otherwise; when it is not, the value unchanged. */
  function AlignAuto(isNumeric: bool, value: Option<string>, length: int, padChar: Option<char>): (r: string)
    ensures |r| == Max(length, |Coalesce(value)|)
    ensures |Coalesce(value)| >= length ==> r == Coalesce(value)
    ensures isNumeric ==> PaddedAround(r, Coalesce(value), |r| - |Coalesce(value)|, PadCharOf(padChar))
    ensures !isNumeric ==> PaddedAround(r, Coalesce(value), 0, PadCharOf(padChar))
  {
    var asString := Coalesce(value);
    if |asString| < length then
      if isNumeric then AlignRight(value, length, padChar).value else AlignLeft(value, length, padChar).value
    else
      asString
  }

  /** With room to spare, the two sides of a centred value differ by at most one
      character, and the front gets the extra one when half the space is odd. */
  lemma CenterSplit(value: Option<string>, length: int, padChar: Option<char>)
    requires length > |Coalesce(value)|
    ensures var slack := length - |Coalesce(value)|;
            var lead := CenterLead(slack);
            && -1 <= lead - (slack - lead) <= 1
            && (slack % 2 == 0 ==> lead == slack - lead)
            && (slack % 4 == 3 ==> lead == slack - lead + 1)
            && (slack % 4 == 1 ==> lead + 1 == slack - lead)
  {
  }

  /** "Skillet" centred in a 14-wide column: free space 7 puts 4 blanks in front
      and 3 behind. */
  lemma CenterSkillet()
    ensures AlignCenter(Some("Skillet"), 14, None) == "    Skillet   "
  {
  }

  /** " Ghost12 " centred in a 44-wide title bar: free space 35 puts 18 blanks in
      front and 17 behind. */
  lemma CenterGhost12()
    ensures AlignCenter(Some(" Ghost12 "), 44, Some(' ')) == Repeat(' ', 18) + " Ghost12 " + Repeat(' ', 17)
  {
  }

  /** The caption "Field2" centred in a 21-wide column: free space 15 puts 8 blanks
      in front and 7 behind. */
  lemma CenterField2()
    ensures AlignCenter(Some("Field2"), 21, None) == "        Field2       "
  {
  }

  /** A negative length makes AlignLeft and AlignRight throw, while AlignCenter and
      AlignAuto return the value unchanged. */
  lemma NegativeLength(isNumeric: bool, value: Option<string>, length: int, padChar: Option<char>)
    requires length < 0
    ensures AlignLeft(value, length, padChar).Err?
    ensures AlignRight(value, length, padChar).Err?
    ensures AlignCenter(value, length, padChar) == Coalesce(value)
    ensures AlignAuto(isNumeric, value, length, padChar) == Coalesce(value)
  {
  }
}
