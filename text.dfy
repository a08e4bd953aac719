/** Text helpers shared by the scanner page, the report and the upload
    validators: ASCII case folding, decimal rendering of counts and a
    substring predicate used to state what a generated text contains. */
module Text {

  /** Lower-cases one ASCII letter; every other character is kept. */
  function LowerChar(c: char): (r: char)
    ensures 'A' <= c <= 'Z' ==> r as int == c as int + 32
    ensures !('A' <= c <= 'Z') ==> r == c
  {
    if 'A' <= c <= 'Z' then (c as int + 32) as char else c
  }

  /** `toLowerCase()` / `lower()` restricted to ASCII letters. */
  function Lower(s: string): (r: string)
    ensures |r| == |s|
    ensures forall i :: 0 <= i < |s| ==> r[i] == LowerChar(s[i])
  {
    if s == [] then [] else [LowerChar(s[0])] + Lower(s[1..])
  }

  /** Lower-casing twice is lower-casing once. */
  lemma {:induction false} LowerIdempotent(s: string)
    ensures Lower(Lower(s)) == Lower(s)
  {
    if s != [] {
      LowerIdempotent(s[1..]);
    }
  }

  function DigitChar(d: nat): (c: char)
    requires d < 10
    ensures '0' <= c <= '9'
  {
    ('0' as int + d) as char
  }

  function DigitValue(c: char): (d: nat)
    requires '0' <= c <= '9'
    ensures d < 10
  {
    c as int - '0' as int
  }

  predicate IsDigits(s: string)
  {
    forall i :: 0 <= i < |s| ==> '0' <= s[i] <= '9'
  }

  /** How JavaScript renders a non-negative integer inside a template
      literal: its decimal digits, most significant first. */
  function Decimal(n: nat): (s: string)
    ensures |s| > 0 && IsDigits(s)
    ensures |s| > 1 ==> s[0] != '0'
  {
    if n < 10 then [DigitChar(n)] else Decimal(n / 10) + [DigitChar(n % 10)]
  }

  /** Reads a string of decimal digits back as a number. */
  function ParseDecimal(s: string): (n: nat)
    requires IsDigits(s)
  {
    if s == [] then 0
    else 10 * ParseDecimal(s[..|s| - 1]) + DigitValue(s[|s| - 1])
  }

  /** Rendering a count loses nothing: it parses back to the same count. */
  lemma {:induction false} DecimalRoundTrip(n: nat)
    ensures ParseDecimal(Decimal(n)) == n
  {
    var s := Decimal(n);
    if n >= 10 {
      DecimalRoundTrip(n / 10);
      assert s[..|s| - 1] == Decimal(n / 10);
    }
  }

  /** `needle` occurs in `hay` starting at position `i`. */
  predicate OccursAt(hay: string, needle: string, i: int)
  {
    0 <= i && i + |needle| <= |hay| && hay[i..i + |needle|] == needle
  }

  /** `needle` occurs in `hay` as a contiguous piece. */
  ghost predicate Contains(hay: string, needle: string)
  {
    exists i :: OccursAt(hay, needle, i)
  }

  /** The middle of a three-part concatenation occurs in the whole. */
  lemma ContainsMiddle(a: string, b: string, c: string)
    ensures Contains(a + b + c, b)
  {
    var h := a + b + c;
    assert h[|a|..|a| + |b|] == b;
    assert OccursAt(h, b, |a|);
  }

  /** A concatenation of six parts begins with the first and ends with the last. */
  lemma FramedBy(a: string, b: string, c: string, d: string, e: string, f: string)
    ensures var s := a + b + c + d + e + f;
      |s| >= |a| + |f| && s[..|a|] == a && s[|s| - |f|..] == f
  {
    var s := a + b + c + d + e + f;
    assert s == a + (b + c + d + e) + f;
  }

  /** Occurrence survives adding text in front. */
  lemma ContainsAfterPrefix(a: string, hay: string, needle: string)
    requires Contains(hay, needle)
    ensures Contains(a + hay, needle)
  {
    var i :| OccursAt(hay, needle, i);
    var h := a + hay;
    assert h[|a| + i..|a| + i + |needle|] == hay[i..i + |needle|];
    assert OccursAt(h, needle, |a| + i);
  }

  /** Occurrence survives adding text behind. */
  lemma ContainsBeforeSuffix(hay: string, c: string, needle: string)
    requires Contains(hay, needle)
    ensures Contains(hay + c, needle)
  {
    var i :| OccursAt(hay, needle, i);
    var h := hay + c;
    assert h[i..i + |needle|] == hay[i..i + |needle|];
    assert OccursAt(h, needle, i);
  }
}
