/** Small decoding steps over a string, each returning what is left to read.
    The renderers' decoders are chains of these steps; the lemmas here say
    that each step reads back exactly what was appended. */
module Scan {
  import opened Results
  import opened Decimal

  /** Strips the literal `lit` from the front of `s`. */
  function Lit(s: string, lit: string): (r: Option<string>)
    ensures r.Some? <==> lit <= s
    ensures r.Some? ==> lit + r.value == s
  {
    if |lit| <= |s| && s[..|lit|] == lit then Some(s[|lit|..]) else None
  }

  /** Splits off the first `n` characters of `s`. */
  function Take(s: string, n: nat): (r: Option<(string, string)>)
    ensures r.Some? <==> n <= |s|
    ensures r.Some? ==> |r.value.0| == n && r.value.0 + r.value.1 == s
  {
    if n <= |s| then Some((s[..n], s[n..])) else None
  }

  /** The longest prefix of `s` made of characters that can occur in a
      rendered integer, and the rest of `s`. */
  function SpanNumeral(s: string): (r: (string, string))
    decreases |s|
    ensures r.0 + r.1 == s
    ensures AllNumeralChars(r.0)
    ensures |r.1| > 0 ==> !IsNumeralChar(r.1[0])
  {
    if |s| == 0 || !IsNumeralChar(s[0]) then ("", s)
    else
      var tail := SpanNumeral(s[1..]);
      ([s[0]] + tail.0, tail.1)
  }

  lemma LitOfConcat(lit: string, rest: string)
    ensures Lit(lit + rest, lit) == Some(rest)
  {
    assert (lit + rest)[..|lit|] == lit;
  }

  lemma TakeOfConcat(a: string, rest: string)
    ensures Take(a + rest, |a|) == Some((a, rest))
  {
    assert (a + rest)[..|a|] == a;
  }

  /** `SpanNumeral` stops exactly at the end of a numeral that is followed
      by a character that cannot belong to it. */
  lemma {:induction false} SpanNumeralOfConcat(num: string, rest: string)
    requires AllNumeralChars(num)
    requires |rest| > 0 ==> !IsNumeralChar(rest[0])
    ensures SpanNumeral(num + rest) == (num, rest)
    decreases |num|
  {
    if |num| > 0 {
      assert (num + rest)[1..] == num[1..] + rest;
      SpanNumeralOfConcat(num[1..], rest);
      assert [num[0]] + num[1..] == num;
    } else {
      assert num + rest == rest;
    }
  }

  /** `s.endswith(t)`. */
  predicate EndsWith(s: string, t: string) {
    |t| <= |s| && s[|s| - |t|..] == t
  }

  lemma ConcatAssoc(a: string, b: string, c: string)
    ensures (a + b) + c == a + (b + c)
  {
  }

  /** The last piece of a right-grouped concatenation of seven pieces is
      its suffix. */
  lemma LastOfSevenPieces(a: string, b: string, c: string, d: string, e: string, f: string, t: string)
    ensures EndsWith(a + (b + (c + (d + (e + (f + t))))), t)
  {
    var r := a + (b + (c + (d + (e + (f + t)))));
    assert r == (a + b + c + d + e + f) + t;
  }

  /** Dropping the five leading pieces of a right-grouped concatenation
      leaves the rest. */
  lemma DropFivePieces(a: string, b: string, c: string, d: string, e: string, rest: string)
    ensures (a + (b + (c + (d + (e + rest)))))[|a| + |b| + |c| + |d| + |e|..] == rest
  {
    assert a + (b + (c + (d + (e + rest)))) == (a + b + c + d + e) + rest;
  }

  /** The first two pieces of a right-grouped concatenation are a prefix of it. */
  lemma PrefixOfTwoPieces(a: string, b: string, rest: string)
    ensures a + b <= a + (b + rest)
  {
    assert a + (b + rest) == (a + b) + rest;
  }

  /** The first three pieces of a right-grouped concatenation are a prefix of it. */
  lemma PrefixOfThreePieces(a: string, b: string, c: string, rest: string)
    ensures a + (b + c) <= a + (b + (c + rest))
  {
    assert a + (b + (c + rest)) == (a + (b + c)) + rest;
  }

  /** The last piece of a right-grouped concatenation of nine pieces is
      its suffix. */
  lemma LastOfNinePieces(a: string, b: string, c: string, d: string, e: string,
                         f: string, g: string, h: string, t: string)
    ensures EndsWith(a + (b + (c + (d + (e + (f + (g + (h + t))))))), t)
  {
    var r := a + (b + (c + (d + (e + (f + (g + (h + t)))))));
    assert r == (a + b + c + d + e + f + g + h) + t;
  }
}
