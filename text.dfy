/**
 * Character classes of the C locale (std::isspace, std::isdigit, std::isalpha)
 * and std::stold as the parser applies it: to a run of digits and decimal points.
 */
module Text {
  import opened Outcomes

  predicate IsSpace(c: char) {
    c == ' ' || c == '\t' || c == '\n' || c == '\r' || c == '\U{B}' || c == '\U{C}'
  }

  predicate IsDigit(c: char) {
    '0' <= c <= '9'
  }

  predicate IsAlpha(c: char) {
    'a' <= c <= 'z' || 'A' <= c <= 'Z'
  }

  /** The characters a numeric literal is scanned from. */
  predicate IsNumeralChar(c: char) {
    IsDigit(c) || c == '.'
  }

  /** Length of the longest prefix of s made of digits. */
  function DigitRun(s: string): (k: nat)
    ensures k <= |s|
    ensures forall j :: 0 <= j < k ==> IsDigit(s[j])
    ensures k < |s| ==> !IsDigit(s[k])
  {
    if s != [] && IsDigit(s[0]) then 1 + DigitRun(s[1..]) else 0
  }

  /** The index just past the run of digits and decimal points that starts at index i of s. */
  function NumeralEnd(s: string, i: nat): (k: nat)
    requires i <= |s|
    ensures i <= k <= |s|
    ensures forall j :: i <= j < k ==> IsNumeralChar(s[j])
    ensures k < |s| ==> !IsNumeralChar(s[k])
    decreases |s| - i
  {
    if i < |s| && IsNumeralChar(s[i]) then NumeralEnd(s, i + 1) else i
  }

  /** The index just past the run of letters that starts at index i of s. */
  function LetterEnd(s: string, i: nat): (k: nat)
    requires i <= |s|
    ensures i <= k <= |s|
    ensures forall j :: i <= j < k ==> IsAlpha(s[j])
    ensures k < |s| ==> !IsAlpha(s[k])
    decreases |s| - i
  {
    if i < |s| && IsAlpha(s[i]) then LetterEnd(s, i + 1) else i
  }

  function DigitValue(c: char): nat
    requires IsDigit(c)
  {
    (c - '0') as nat
  }

  /** The value of a string of decimal digits, most significant first. */
  function DigitsValue(s: string): nat
    requires forall j :: 0 <= j < |s| ==> IsDigit(s[j])
  {
    if s == [] then 0 else 10 * DigitsValue(s[..|s| - 1]) + DigitValue(s[|s| - 1])
  }

  function Pow10(n: nat): (p: nat)
    ensures p >= 1
  {
    if n == 0 then 1 else 10 * Pow10(n - 1)
  }

  /**
   * std::stold applied to a token of digits and points: it reads the longest
   * prefix of the form digits [ '.' digits ] that holds at least one digit and
   * ignores the rest; with no digit there it throws std::invalid_argument (None).
   * The value is the exact decimal value: long double rounding is not modelled.
   */
  function ReadDecimal(token: string): (r: Option<real>)
    ensures r.None? <==> DigitRun(token) == 0 && (token == [] || token[0] != '.' || DigitRun(token[1..]) == 0)
    ensures r.Some? ==> r.value >= 0.0
  {
    var k := DigitRun(token);
    var whole := DigitsValue(token[..k]) as real;
    if k < |token| && token[k] == '.' then
      var m := DigitRun(token[k + 1..]);
      if k == 0 && m == 0 then None
      else Some(whole + DigitsValue(token[k + 1..][..m]) as real / Pow10(m) as real)
    else if k == 0 then None
    else Some(whole)
  }

  /** The first index at or after `from` holding c, or |s| when there is none (npos). */
  function FindFrom(s: string, c: char, from: nat): (k: nat)
    requires from <= |s|
    ensures from <= k <= |s|
    ensures k < |s| ==> s[k] == c
    ensures forall j :: from <= j < k ==> s[j] != c
    decreases |s| - from
  {
    if from == |s| then |s|
    else if s[from] == c then from
    else FindFrom(s, c, from + 1)
  }

  /** The last index below `bound` whose character is in cs, or None (npos). */
  function FindLastOf(s: string, cs: set<char>, bound: nat): (k: Option<nat>)
    requires bound <= |s|
    ensures k.Some? ==> k.value < bound && s[k.value] in cs
    ensures k.Some? ==> forall j :: k.value < j < bound ==> s[j] !in cs
    ensures k.None? ==> forall j :: 0 <= j < bound ==> s[j] !in cs
  {
    if bound == 0 then None
    else if s[bound - 1] in cs then Some(bound - 1)
    else FindLastOf(s, cs, bound - 1)
  }
}
