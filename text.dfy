/**
 * The string operations the site relies on: JavaScript's `toLowerCase`
 * (ASCII letters only), `String.prototype.includes`, and the decimal
 * rendering of integers done by `Number.prototype.toString`, with a parser
 * that reads such a rendering back.
 */
module Text {
  import opened Wrappers

  /** `toLowerCase` on one character: ASCII upper-case letters map to lower case. */
  function LowerChar(c: char): char {
    if 'A' <= c <= 'Z' then (c as int + 32) as char else c
  }

  /** `s.toLowerCase()`, for ASCII letters. */
  function Lower(s: string): (r: string)
    ensures |r| == |s|
    ensures forall i :: 0 <= i < |s| ==> r[i] == LowerChar(s[i])
  {
    seq(|s|, i requires 0 <= i < |s| => LowerChar(s[i]))
  }

  /** `needle` occurs in `haystack` starting at index `i`. */
  predicate OccursAt(haystack: string, needle: string, i: int) {
    0 <= i <= |haystack| - |needle| && haystack[i..i + |needle|] == needle
  }

  /** `haystack.includes(needle)`: scan the start positions from left to right. */
  function Includes(haystack: string, needle: string): bool
    decreases |haystack|
  {
    needle <= haystack || (|haystack| > 0 && Includes(haystack[1..], needle))
  }

  /** The scan finds the needle exactly when it occurs at some position. */
  lemma {:induction false} IncludesIff(haystack: string, needle: string)
    ensures Includes(haystack, needle) <==> exists i :: OccursAt(haystack, needle, i)
    decreases |haystack|
  {
    if needle <= haystack {
      assert OccursAt(haystack, needle, 0);
    } else if |haystack| > 0 {
      IncludesIff(haystack[1..], needle);
      if Includes(haystack[1..], needle) {
        var i :| OccursAt(haystack[1..], needle, i);
        assert OccursAt(haystack, needle, i + 1);
      }
      if exists i :: OccursAt(haystack, needle, i) {
        var i :| OccursAt(haystack, needle, i);
        assert i != 0;
        assert OccursAt(haystack[1..], needle, i - 1);
      }
    }
  }

  /** The empty query occurs in every string. */
  lemma IncludesEmpty(haystack: string)
    ensures Includes(haystack, "")
  {
    assert "" <= haystack;
  }

  /** `a` and `b` agree letter by letter once both are lower-cased. */
  predicate EqualIgnoringCase(a: string, b: string) {
    |a| == |b| && forall i :: 0 <= i < |a| ==> LowerChar(a[i]) == LowerChar(b[i])
  }

  /** The window of `field` at `i` equals `query` up to letter case. */
  predicate MatchesAt(field: string, query: string, i: int) {
    0 <= i <= |field| - |query| && EqualIgnoringCase(field[i..i + |query|], query)
  }

  lemma MatchesAtLower(field: string, query: string, i: int)
    ensures MatchesAt(field, query, i) <==> OccursAt(Lower(field), Lower(query), i)
  {
    var lf, lq := Lower(field), Lower(query);
    if 0 <= i <= |field| - |query| {
      if MatchesAt(field, query, i) {
        forall k | 0 <= k < |query|
          ensures lf[i..i + |lq|][k] == lq[k]
        {
          assert LowerChar(field[i..i + |query|][k]) == LowerChar(query[k]);
        }
      }
      if OccursAt(lf, lq, i) {
        forall k | 0 <= k < |query|
          ensures LowerChar(field[i..i + |query|][k]) == LowerChar(query[k])
        {
          assert lf[i..i + |lq|][k] == lq[k];
        }
      }
    }
  }

  /**
   * `Lower(field).includes(Lower(query))` is the case-insensitive substring
   * test: some window of `field` equals `query` up to letter case.
   */
  lemma CaseInsensitiveIncludes(field: string, query: string)
    ensures Includes(Lower(field), Lower(query)) <==> exists i :: MatchesAt(field, query, i)
  {
    IncludesIff(Lower(field), Lower(query));
    if exists i :: OccursAt(Lower(field), Lower(query), i) {
      var i :| OccursAt(Lower(field), Lower(query), i);
      MatchesAtLower(field, query, i);
    }
    if exists i :: MatchesAt(field, query, i) {
      var i :| MatchesAt(field, query, i);
      MatchesAtLower(field, query, i);
    }
  }

  predicate IsDigit(c: char) {
    '0' <= c <= '9'
  }

  predicate AllDigits(s: string) {
    forall i :: 0 <= i < |s| ==> IsDigit(s[i])
  }

  function DigitChar(d: int): (c: char)
    requires 0 <= d < 10
    ensures IsDigit(c)
  {
    ('0' as int + d) as char
  }

  function DigitValue(c: char): int
    requires IsDigit(c)
  {
    c as int - '0' as int
  }

  /** The decimal digits of `n`, most significant first, as `n.toString()` writes them. */
  function Digits(n: nat): (r: string)
    ensures |r| > 0 && AllDigits(r)
    ensures r[0] == '0' <==> n == 0
    ensures r[0] == '0' ==> r == "0"
  {
    if n < 10 then [DigitChar(n)] else Digits(n / 10) + [DigitChar(n % 10)]
  }

  /** `n.toString()` for any integer: a minus sign before the digits of `|n|`. */
  function DecimalString(n: int): (r: string)
    ensures n >= 0 ==> |r| > 0 && AllDigits(r) && (r[0] == '0' ==> r == "0")
    ensures n < 0 ==> |r| > 1 && r[0] == '-' && AllDigits(r[1..]) && r[1] != '0'
  {
    if n < 0 then "-" + Digits(-n) else Digits(n)
  }

  /** The number a string of decimal digits denotes. */
  function DigitsValue(s: string): nat
    requires AllDigits(s)
  {
    if s == [] then 0 else DigitsValue(s[..|s| - 1]) * 10 + DigitValue(s[|s| - 1])
  }

  /** Reads an optionally negative decimal integer; `None` for anything else. */
  function ParseInt(s: string): Option<int> {
    if |s| > 1 && s[0] == '-' && AllDigits(s[1..]) then Some(-(DigitsValue(s[1..]) as int))
    else if |s| > 0 && AllDigits(s) then Some(DigitsValue(s))
    else None
  }

  /** Reading the digits of `n` gives back `n`. */
  lemma {:induction false} DigitsRoundTrip(n: nat)
    ensures DigitsValue(Digits(n)) == n
  {
    if n >= 10 {
      DigitsRoundTrip(n / 10);
      var d := Digits(n / 10) + [DigitChar(n % 10)];
      assert d[..|d| - 1] == Digits(n / 10);
    }
  }

  /** `DecimalString` and `ParseInt` are inverse: the rendering names the number. */
  lemma DecimalRoundTrip(n: int)
    ensures ParseInt(DecimalString(n)) == Some(n)
  {
    if n < 0 {
      DigitsRoundTrip(-n);
      assert DecimalString(n)[1..] == Digits(-n);
    } else {
      DigitsRoundTrip(n);
    }
  }
}
