/** String primitives of the JavaScript runtime that the pages rely on:
    `toLowerCase`, `includes`, `replace(/\D/g, '')` and number interpolation. */
module Text {
  import opened Seqs

  /** Upper-case letters that `toLowerCase` maps: ASCII A-Z and the Latin-1
      capitals U+00C0..U+00DE except the multiplication sign U+00D7. */
  predicate IsUpper(c: char) {
    ('A' <= c <= 'Z') || ('\U{00C0}' <= c <= '\U{00DE}' && c != '\U{00D7}')
  }

  function Lower(c: char): (r: char)
    ensures !IsUpper(r)
    ensures !IsUpper(c) ==> r == c
  {
    if IsUpper(c) then (c as int + 32) as char else c
  }

  /** `s.toLowerCase()` restricted to the letters `Lower` handles. */
  function LowerStr(s: string): (r: string)
    ensures |r| == |s|
    ensures forall i :: 0 <= i < |s| ==> r[i] == Lower(s[i])
  {
    if s == [] then [] else [Lower(s[0])] + LowerStr(s[1..])
  }

  /** Lowercasing twice is lowercasing once. */
  lemma LowerStrIdempotent(s: string)
    ensures LowerStr(LowerStr(s)) == LowerStr(s)
  {
    var once := LowerStr(s);
    var twice := LowerStr(once);
    assert forall i :: 0 <= i < |s| ==> twice[i] == once[i];
  }

  predicate StartsWith(s: string, prefix: string) {
    |prefix| <= |s| && s[..|prefix|] == prefix
  }

  /** `hay.includes(needle)`. */
  predicate Contains(hay: string, needle: string)
    decreases |hay|
  {
    StartsWith(hay, needle) || (hay != [] && Contains(hay[1..], needle))
  }

  /** `needle` occurs in `hay` starting at index `i`. */
  predicate OccursAt(hay: string, needle: string, i: int) {
    0 <= i <= |hay| - |needle| && hay[i..i + |needle|] == needle
  }

  /** An occurrence at any index makes `includes` hold. */
  lemma {:induction false} OccursAtContains(hay: string, needle: string, i: int)
    requires OccursAt(hay, needle, i)
    ensures Contains(hay, needle)
    decreases i
  {
    if i == 0 {
      assert hay[..|needle|] == hay[0..0 + |needle|];
    } else {
      assert hay[i..i + |needle|] == hay[1..][i - 1..i - 1 + |needle|];
      OccursAtContains(hay[1..], needle, i - 1);
    }
  }

  /** `includes` holds exactly when `needle` occurs at some position of `hay`. */
  lemma {:induction false} ContainsAt(hay: string, needle: string)
    ensures Contains(hay, needle) <==> exists i :: OccursAt(hay, needle, i)
  {
    forall i | OccursAt(hay, needle, i)
      ensures Contains(hay, needle)
    {
      OccursAtContains(hay, needle, i);
    }
    if StartsWith(hay, needle) {
      assert OccursAt(hay, needle, 0);
    } else if hay != [] && Contains(hay[1..], needle) {
      ContainsAt(hay[1..], needle);
      var i :| OccursAt(hay[1..], needle, i);
      assert hay[i + 1..i + 1 + |needle|] == hay[1..][i..i + |needle|];
      assert OccursAt(hay, needle, i + 1);
    }
  }

  /** Lowercasing works letter by letter. */
  lemma LowerStrAppend(a: string, b: string)
    ensures LowerStr(a + b) == LowerStr(a) + LowerStr(b)
  {
    var l := LowerStr(a + b);
    assert forall i :: 0 <= i < |b| ==> (a + b)[|a| + i] == b[i];
    assert l == LowerStr(a) + LowerStr(b);
  }

  /** Whatever contains a string contains each of its prefixes. */
  lemma ContainsPrefix(hay: string, needle: string, more: string)
    requires Contains(hay, needle + more)
    ensures Contains(hay, needle)
  {
    ContainsAt(hay, needle + more);
    var i :| OccursAt(hay, needle + more, i);
    assert hay[i..i + |needle|] == (needle + more)[..|needle|];
    OccursAtContains(hay, needle, i);
  }

  /** Case-insensitive `includes`, as the pages write it:
      `text.toLowerCase().includes(query.toLowerCase())`. */
  predicate IncludesIgnoringCase(text: string, query: string) {
    Contains(LowerStr(text), LowerStr(query))
  }

  predicate IsDigit(c: char) {
    '0' <= c <= '9'
  }

  /** `s.replace(/\D/g, '')`: the decimal digits of `s`, in order. */
  function DigitsOnly(s: string): (r: string)
    ensures forall i :: 0 <= i < |r| ==> IsDigit(r[i])
    ensures forall c :: c in r <==> c in s && IsDigit(c)
  {
    Filter(s, IsDigit)
  }

  /** Stripping non-digits keeps the digits of each part in place. */
  lemma DigitsOnlyAppend(a: string, b: string)
    ensures DigitsOnly(a + b) == DigitsOnly(a) + DigitsOnly(b)
  {
    FilterAppend(a, b, IsDigit);
  }

  /** A string of digits only is left unchanged, so stripping is idempotent. */
  lemma DigitsOnlyOfDigits(s: string)
    requires forall i :: 0 <= i < |s| ==> IsDigit(s[i])
    ensures DigitsOnly(s) == s
  {
    FilterKeepsAll(s, IsDigit);
  }

  function DigitChar(d: int): (c: char)
    requires 0 <= d < 10
    ensures IsDigit(c)
  {
    ('0' as int + d) as char
  }

  /** Decimal rendering of a natural number, as a template literal prints it. */
  function NatToString(n: nat): (r: string)
    ensures |r| >= 1
    ensures forall i :: 0 <= i < |r| ==> IsDigit(r[i])
  {
    if n < 10 then [DigitChar(n)] else NatToString(n / 10) + [DigitChar(n % 10)]
  }

  /** Decimal rendering of an integer, with a leading '-' when negative. */
  function IntToString(n: int): (r: string)
    ensures |r| >= 1
    ensures (r[0] == '-') <==> n < 0
  {
    if n < 0 then "-" + NatToString(-n) else NatToString(n)
  }

  function DigitValue(c: char): (d: nat)
    requires IsDigit(c)
    ensures d < 10 && DigitChar(d) == c
  {
    c as int - '0' as int
  }

  /** Reads a string of decimal digits back as a number. */
  function ParseNat(s: string): nat
    requires forall i :: 0 <= i < |s| ==> IsDigit(s[i])
  {
    if s == [] then 0 else ParseNat(s[..|s| - 1]) * 10 + DigitValue(s[|s| - 1])
  }

  /** The rendering is faithful: parsing it gives the number back. */
  lemma {:induction false} NatToStringRoundTrip(n: nat)
    ensures ParseNat(NatToString(n)) == n
  {
    if n >= 10 {
      var s := NatToString(n);
      assert s[..|s| - 1] == NatToString(n / 10);
      NatToStringRoundTrip(n / 10);
    }
  }
}
