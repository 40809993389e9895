/** The string operations the services use: case folding, prefix and substring tests, and decimal printing. */
module Text {

  function LowerChar(c: char): char {
    if 'A' <= c <= 'Z' then ((c as int) + 32) as char else c
  }

  function ToLower(s: string): (r: string)
    ensures |r| == |s|
    ensures forall i :: 0 <= i < |s| ==> r[i] == LowerChar(s[i])
  {
    seq(|s|, i requires 0 <= i < |s| => LowerChar(s[i]))
  }

  /** Each of the 26 letters folds to its own small letter, and every other character stays. */
  lemma LettersFold(c: char)
    ensures forall j :: 0 <= j < 26 ==> LowerChar("ABCDEFGHIJKLMNOPQRSTUVWXYZ"[j]) == "abcdefghijklmnopqrstuvwxyz"[j]
    ensures c !in "ABCDEFGHIJKLMNOPQRSTUVWXYZ" ==> LowerChar(c) == c
  {
    var upper, lower := "ABCDEFGHIJKLMNOPQRSTUVWXYZ", "abcdefghijklmnopqrstuvwxyz";
    forall j | 0 <= j < 26 ensures upper[j] == (('A' as int) + j) as char && lower[j] == (('a' as int) + j) as char {
    }
    if 'A' <= c <= 'Z' {
      assert upper[(c as int) - ('A' as int)] == c;
    }
  }

  /** `s` is `lower` with any of its letters written as capitals. */
  ghost predicate InAnyCase(s: string, lower: string) {
    && |s| == |lower|
    && forall i :: 0 <= i < |s| ==> SameLetter(s[i], lower[i])
  }

  ghost predicate SameLetter(c: char, lower: char) {
    if c in "ABCDEFGHIJKLMNOPQRSTUVWXYZ" then
      exists j :: 0 <= j < 26 && "ABCDEFGHIJKLMNOPQRSTUVWXYZ"[j] == c && "abcdefghijklmnopqrstuvwxyz"[j] == lower
    else c == lower
  }

  lemma FoldsToItsLetter(c: char, lower: char)
    ensures LowerChar(c) == lower <==> SameLetter(c, lower)
  {
    LettersFold(c);
  }

  /** Folding forgets the case of letters and nothing else. */
  lemma FoldingForgetsCase(s: string, lower: string)
    ensures ToLower(s) == lower <==> InAnyCase(s, lower)
  {
    forall i | 0 <= i < |s| && |s| == |lower| ensures LowerChar(s[i]) == lower[i] <==> SameLetter(s[i], lower[i]) {
      FoldsToItsLetter(s[i], lower[i]);
    }
    if InAnyCase(s, lower) {
      assert ToLower(s) == lower;
    }
  }

  /** `s.includes(part)` */
  predicate Includes(s: string, part: string) {
    exists i :: 0 <= i <= |s| && part <= s[i..]
  }

  /** `s.startsWith(prefix)` */
  predicate StartsWith(s: string, prefix: string) {
    prefix <= s
  }

  /** At position `i` of `s` stands `lower`, its letters in any case. */
  ghost predicate StandsInAnyCase(s: string, lower: string, i: nat) {
    && i + |lower| <= |s|
    && forall j :: 0 <= j < |lower| ==> SameLetter(s[i + j], lower[j])
  }

  ghost predicate IncludesInAnyCase(s: string, lower: string) {
    exists i: nat :: StandsInAnyCase(s, lower, i)
  }

  lemma FoldedStands(s: string, lower: string, i: nat)
    requires i <= |s|
    ensures lower <= ToLower(s)[i..] <==> StandsInAnyCase(s, lower, i)
  {
    var rest := ToLower(s)[i..];
    forall j | 0 <= j < |lower| && i + |lower| <= |s| ensures rest[j] == lower[j] <==> SameLetter(s[i + j], lower[j]) {
      FoldsToItsLetter(s[i + j], lower[j]);
    }
    if StandsInAnyCase(s, lower, i) {
      assert rest[..|lower|] == lower;
    }
  }

  lemma FoldedIncludes(s: string, lower: string)
    ensures Includes(ToLower(s), lower) <==> IncludesInAnyCase(s, lower)
  {
    forall i: nat | i <= |s| ensures lower <= ToLower(s)[i..] <==> StandsInAnyCase(s, lower, i) {
      FoldedStands(s, lower, i);
    }
  }

  lemma PrefixIsIncluded(prefix: string, rest: string)
    ensures Includes(prefix + rest, prefix)
  {
    assert (prefix + rest)[0..] == prefix + rest;
  }

  /** The first position of `c`, or the length of `s`. */
  function IndexOf(s: string, c: char): (i: nat)
    ensures i <= |s|
    ensures c !in s[..i]
    ensures i < |s| ==> s[i] == c
  {
    if s == [] then 0
    else if s[0] == c then 0
    else
      var i := IndexOf(s[1..], c) + 1;
      assert s[..i] == [s[0]] + s[1..][..i - 1];
      i
  }

  /* ---------- decimal notation ---------- */

  function Digit(d: nat): char
    requires d < 10
  {
    (('0' as int) + d) as char
  }

  function DigitsOf(n: nat): string {
    if n < 10 then [Digit(n)] else DigitsOf(n / 10) + [Digit(n % 10)]
  }

  /** `n.toString()` of an exact integer */
  function ToText(n: int): string {
    if n < 0 then "-" + DigitsOf(-n) else DigitsOf(n)
  }

  function ParseDigits(s: string): int {
    if s == [] then 0
    else ParseDigits(s[..|s| - 1]) * 10 + ((s[|s| - 1] as int) - ('0' as int))
  }

  function ParseInt(s: string): int {
    if s != [] && s[0] == '-' then -ParseDigits(s[1..]) else ParseDigits(s)
  }

  lemma {:induction false} DigitsAreDigits(n: nat)
    ensures |DigitsOf(n)| > 0
    ensures forall i :: 0 <= i < |DigitsOf(n)| ==> '0' <= DigitsOf(n)[i] <= '9'
  {
    if n >= 10 {
      DigitsAreDigits(n / 10);
    }
  }

  lemma {:induction false} DigitsRoundTrip(n: nat)
    ensures ParseDigits(DigitsOf(n)) == n
  {
    if n >= 10 {
      DigitsRoundTrip(n / 10);
      assert DigitsOf(n)[..|DigitsOf(n)| - 1] == DigitsOf(n / 10);
    }
  }

  /** Printed integers are canonical: the sign only in front of negative ones, then digits without a leading zero. */
  lemma {:induction false} DigitsAreCanonical(n: nat)
    ensures DigitsOf(n)[0] == '0' <==> n == 0
    ensures n == 0 ==> DigitsOf(n) == "0"
  {
    if n >= 10 {
      DigitsAreCanonical(n / 10);
    }
  }

  lemma TextIsCanonical(n: int)
    ensures n == 0 ==> ToText(n) == "0"
    ensures n > 0 ==> '1' <= ToText(n)[0] <= '9'
    ensures n < 0 ==> |ToText(n)| > 1 && ToText(n)[0] == '-' && '1' <= ToText(n)[1] <= '9'
    ensures forall i :: (if n < 0 then 1 else 0) <= i < |ToText(n)| ==> '0' <= ToText(n)[i] <= '9'
  {
    var m := if n < 0 then -n else n;
    DigitsAreDigits(m);
    DigitsAreCanonical(m);
    assert DigitsOf(m)[0] != '0' ==> '1' <= DigitsOf(m)[0];
  }

  /** Printing is injective, and a printed integer never contains a plus sign. */
  lemma TextRoundTrip(n: int)
    ensures ParseInt(ToText(n)) == n
    ensures '+' !in ToText(n)
  {
    if n < 0 {
      DigitsRoundTrip(-n);
      DigitsAreDigits(-n);
      assert ToText(n)[1..] == DigitsOf(-n);
    } else {
      DigitsRoundTrip(n);
      DigitsAreDigits(n);
    }
  }
}
