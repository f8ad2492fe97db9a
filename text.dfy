/** The string operations the activation tool uses: `str.lower`,
    `str.endswith`, `str.split(sep)[0]` and the decimal rendering of an
    integer inside an f-string. */
module Text {

  /** `str.lower` on one character. Only the ASCII capitals are folded: no
      other character lower-cases to '.', 'v', 'b' or 's', so for the script
      extension test this agrees with Python's full Unicode folding. */
  function LowerChar(c: char): char
  {
    if 'A' <= c <= 'Z' then (c as int - 'A' as int + 'a' as int) as char else c
  }

  /** `str.lower`, character by character. */
  function Lower(s: string): string
  {
    seq(|s|, i requires 0 <= i < |s| => LowerChar(s[i]))
  }

  /** `str.endswith`. */
  predicate EndsWith(s: string, suffix: string)
  {
    |suffix| <= |s| && s[|s| - |suffix|..] == suffix
  }

  /** Ending with a string that itself ends with `u` means ending with `u`. */
  lemma EndsWithTransitive(s: string, t: string, u: string)
    requires EndsWith(s, t) && EndsWith(t, u)
    ensures EndsWith(s, u)
  {
    assert s[|s| - |u|..] == t[|t| - |u|..];
  }

  /** Lower-casing keeps a suffix a suffix. */
  lemma LowerKeepsSuffix(s: string, suffix: string)
    requires EndsWith(s, suffix)
    ensures EndsWith(Lower(s), Lower(suffix))
  {
    var d := |s| - |suffix|;
    forall i | 0 <= i < |suffix|
      ensures Lower(s)[d..][i] == Lower(suffix)[i]
    {
      assert s[d + i] == suffix[i];
    }
  }

  /** `lower(s).endswith(".vbs")` spelled out without lower-casing: the
      last four characters are a dot and the letters v, b, s in either case. */
  lemma LowerEndsWithVbs(s: string)
    ensures EndsWith(Lower(s), ".vbs") <==>
      (|s| >= 4 && s[|s| - 4] == '.' && s[|s| - 3] in "vV" && s[|s| - 2] in "bB" && s[|s| - 1] in "sS")
  {
    if |s| >= 4 {
      var n := |s|;
      assert Lower(s)[n - 4..] == [LowerChar(s[n - 4]), LowerChar(s[n - 3]), LowerChar(s[n - 2]), LowerChar(s[n - 1])];
    }
  }

  /** `m` occurs in `s` starting at index `i`. */
  predicate OccursAt(s: string, m: string, i: nat)
  {
    i + |m| <= |s| && s[i..i + |m|] == m
  }

  /** `m` occurs somewhere in `s`. */
  predicate Contains(s: string, m: string)
  {
    exists i: nat | i <= |s| :: OccursAt(s, m, i)
  }

  /** `s.split(sep)[0]`: everything before the first occurrence of `sep`, or
      all of `s` when `sep` does not occur. Python refuses an empty separator. */
  function SplitHead(s: string, sep: string): (head: string)
    requires sep != []
    ensures |head| <= |s| && head == s[..|head|]
    ensures forall i: nat :: i < |head| ==> !OccursAt(s, sep, i)
    ensures head == s || OccursAt(s, sep, |head|)
    ensures head == s ==> !Contains(s, sep)
    decreases |s|
  {
    if |s| < |sep| then
      assert forall i: nat :: !OccursAt(s, sep, i);
      s
    else if s[..|sep|] == sep then
      assert OccursAt(s, sep, 0);
      []
    else
      var rest := SplitHead(s[1..], sep);
      ShiftOccurrence(s, sep);
      assert !OccursAt(s, sep, 0);
      [s[0]] + rest
  }

  /** An occurrence at `i` in `s`, past its first character, is an
      occurrence at `i - 1` in its tail. */
  lemma ShiftOccurrence(s: string, sep: string)
    requires s != []
    ensures forall i: nat :: 1 <= i ==> (OccursAt(s, sep, i) <==> OccursAt(s[1..], sep, i - 1))
  {
    forall i: nat | 1 <= i
      ensures OccursAt(s, sep, i) <==> OccursAt(s[1..], sep, i - 1)
    {
      if i + |sep| <= |s| {
        assert s[i..i + |sep|] == s[1..][i - 1..i - 1 + |sep|];
      }
    }
  }

  /** Equal strings with the same prefix and suffix agree in between. */
  lemma StripAffixes(p: string, x: string, y: string, q: string)
    requires p + x + q == p + y + q
    ensures x == y
  {
    var s := p + x + q;
    assert |x| == |y|;
    assert x == s[|p|..|p| + |x|];
    assert y == (p + y + q)[|p|..|p| + |y|];
  }

  /** The character of a decimal digit. */
  function DigitChar(d: nat): (c: char)
    requires d < 10
    ensures '0' <= c <= '9' && c as int - '0' as int == d
  {
    (d + '0' as int) as char
  }

  predicate AllDigits(s: string)
  {
    forall i :: 0 <= i < |s| ==> '0' <= s[i] <= '9'
  }

  /** The decimal digits of a natural number, most significant first. */
  function Digits(n: nat): (s: string)
    ensures |s| > 0 && AllDigits(s)
    decreases n
  {
    if n < 10 then [DigitChar(n)] else Digits(n / 10) + [DigitChar(n % 10)]
  }

  /** `f"{n}"` for a Python int: a minus sign for negative numbers, then the
      digits of the magnitude. */
  function DecimalString(n: int): (s: string)
    ensures |s| > 0
    ensures s[0] == '-' <==> n < 0
  {
    if n < 0 then "-" + Digits(-n) else Digits(n)
  }

  /** The value of a string of decimal digits (the reading direction of
      `int(s)` for such strings), used to show that no information about the
      number is lost in its rendering. */
  function DigitsValue(s: string): nat
    requires AllDigits(s)
  {
    if s == [] then 0 else DigitsValue(s[..|s| - 1]) * 10 + (s[|s| - 1] as int - '0' as int)
  }

  function DecimalValue(s: string): int
    requires s != [] && (if s[0] == '-' then AllDigits(s[1..]) else AllDigits(s))
  {
    if s[0] == '-' then -(DigitsValue(s[1..]) as int) else DigitsValue(s)
  }

  lemma {:induction false} DigitsRoundTrip(n: nat)
    ensures DigitsValue(Digits(n)) == n
    decreases n
  {
    if n >= 10 {
      var s := Digits(n);
      DigitsRoundTrip(n / 10);
      assert s[..|s| - 1] == Digits(n / 10);
    }
  }

  /** Reading back the rendering of any integer gives the integer. */
  lemma DecimalRoundTrip(n: int)
    ensures var s := DecimalString(n);
      s[0] == '-' <==> n < 0
    ensures var s := DecimalString(n);
      (if s[0] == '-' then AllDigits(s[1..]) else AllDigits(s)) && DecimalValue(s) == n
  {
    var s := DecimalString(n);
    if n < 0 {
      DigitsRoundTrip(-n);
      assert s[1..] == Digits(-n);
    } else {
      DigitsRoundTrip(n);
    }
  }

  /** Two integers with the same rendering are the same integer. */
  lemma DecimalInjective(a: int, b: int)
    requires DecimalString(a) == DecimalString(b)
    ensures a == b
  {
    DecimalRoundTrip(a);
    DecimalRoundTrip(b);
  }
}
