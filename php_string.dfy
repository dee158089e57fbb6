/**
 * The handful of PHP string functions the bundle relies on, over `seq<char>`
 * (PHP strings are byte strings; the model treats each byte as one char).
 */
module PhpString {

  /** The characters PCRE's `\s` matches when no `/u` modifier is given:
      space, tab, line feed, vertical tab, form feed and carriage return. */
  predicate IsWhitespace(c: char) {
    c == ' ' || c == '\t' || c == '\n' || c == '\U{B}' || c == '\U{C}' || c == '\r'
  }

  /** `strtolower` on one byte (ASCII letters only). */
  function LowerChar(c: char): char {
    if 'A' <= c <= 'Z' then (c as int + 32) as char else c
  }

  /** `strtoupper` on one byte (ASCII letters only). */
  function UpperChar(c: char): char {
    if 'a' <= c <= 'z' then (c as int - 32) as char else c
  }

  /** `strtolower` */
  function Lower(s: string): (r: string)
    ensures |r| == |s| && forall i :: 0 <= i < |s| ==> r[i] == LowerChar(s[i])
  {
    seq(|s|, i requires 0 <= i < |s| => LowerChar(s[i]))
  }

  lemma LowerConcat(a: string, b: string)
    ensures Lower(a + b) == Lower(a) + Lower(b)
  {
    forall i | 0 <= i < |a + b| ensures Lower(a + b)[i] == (Lower(a) + Lower(b))[i] {
      if i < |a| {
        assert (a + b)[i] == a[i];
      } else {
        assert (a + b)[i] == b[i - |a|];
      }
    }
  }

  /** `strtoupper` */
  function Upper(s: string): (r: string)
    ensures |r| == |s| && forall i :: 0 <= i < |s| ==> r[i] == UpperChar(s[i])
  {
    seq(|s|, i requires 0 <= i < |s| => UpperChar(s[i]))
  }

  /** `str_starts_with($s, $prefix)`, also `0 === strpos($s, $prefix)`. */
  predicate StartsWith(s: string, prefix: string) {
    |prefix| <= |s| && s[..|prefix|] == prefix
  }

  /** `substr($s, 0, $n)` for a non-negative length. */
  function Prefix(s: string, n: nat): (r: string)
    ensures |r| == if n <= |s| then n else |s|
    ensures StartsWith(s, r)
  {
    if n <= |s| then s[..n] else s
  }

  /** `substr($s, $n)` for a non-negative offset (PHP 8 returns "" past the end). */
  function Suffix(s: string, n: nat): (r: string)
    ensures n <= |s| ==> s == s[..n] + r
    ensures n > |s| ==> r == ""
  {
    if n <= |s| then s[n..] else ""
  }

  /** `str_replace($needle, $replacement, $s)`: every non-overlapping occurrence,
      scanning from the left, is replaced; an empty needle changes nothing. */
  function ReplaceAll(s: string, needle: string, replacement: string): string
    decreases |s|
  {
    if |needle| == 0 || |s| < |needle| then s
    else if s[..|needle|] == needle then replacement + ReplaceAll(s[|needle|..], needle, replacement)
    else [s[0]] + ReplaceAll(s[1..], needle, replacement)
  }

  /** With a one-character needle, `str_replace` distributes over concatenation. */
  lemma {:induction false} ReplaceCharConcat(a: string, b: string, c: char, replacement: string)
    ensures ReplaceAll(a + b, [c], replacement)
         == ReplaceAll(a, [c], replacement) + ReplaceAll(b, [c], replacement)
    decreases |a|
  {
    if |a| > 0 {
      assert (a + b)[1..] == a[1..] + b;
      assert (a + b)[..1] == a[..1];
      ReplaceCharConcat(a[1..], b, c, replacement);
    } else {
      assert a + b == b;
    }
  }

  /** Replacing one character by another keeps the length and acts pointwise. */
  lemma {:induction false} ReplaceCharPointwise(s: string, c: char, d: char)
    ensures |ReplaceAll(s, [c], [d])| == |s|
    ensures forall i :: 0 <= i < |s| ==> ReplaceAll(s, [c], [d])[i] == if s[i] == c then d else s[i]
    decreases |s|
  {
    if |s| > 0 {
      assert s[..1] == [c] <==> s[0] == c;
      ReplaceCharPointwise(s[1..], c, d);
    }
  }

  /** The decimal notation PHP uses when an integer is cast to a string. */
  function IntToDecimal(i: int): (r: string)
    ensures |r| > 0
    decreases if i < 0 then 1 - i else i
  {
    if i < 0 then "-" + IntToDecimal(-i)
    else if i < 10 then [DigitChar(i)]
    else IntToDecimal(i / 10) + [DigitChar(i % 10)]
  }

  lemma {:induction false} IntToDecimalHasDigit(i: int)
    ensures exists k :: 0 <= k < |IntToDecimal(i)| && '0' <= IntToDecimal(i)[k] <= '9'
    decreases if i < 0 then 1 - i else i
  {
    var r := IntToDecimal(i);
    if i < 0 {
      IntToDecimalHasDigit(-i);
      var k :| 0 <= k < |IntToDecimal(-i)| && '0' <= IntToDecimal(-i)[k] <= '9';
      assert r[k + 1] == IntToDecimal(-i)[k];
    } else if i < 10 {
      assert r[0] == DigitChar(i);
    } else {
      assert r[|r| - 1] == DigitChar(i % 10);
    }
  }

  function DigitChar(d: int): char
    requires 0 <= d < 10
  {
    ('0' as int + d) as char
  }
}
