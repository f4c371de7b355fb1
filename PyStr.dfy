/**
 * The few Python `str` operations the core relies on, written out:
 * `split` and `join` on one separator character, `strip()`, `startswith`,
 * the substring test `in`, ASCII `lower()`/`upper()`, and the decimal
 * rendering of a count in an f-string.
 */
module PyStr {

  const NL: char := '\n'

  // ---------------------------------------------------------------------
  // split / join
  // ---------------------------------------------------------------------

  /** `s.split(sep)`: every occurrence of `sep` ends a part, so there is always one part more than separators. */
  function Split(s: string, sep: char): (parts: seq<string>)
    ensures |parts| >= 1
  {
    if |s| == 0 then [""]
    else if s[0] == sep then [""] + Split(s[1..], sep)
    else
      var rest := Split(s[1..], sep);
      [[s[0]] + rest[0]] + rest[1..]
  }

  /** No part of a split holds the separator. */
  lemma {:induction false} SplitPartsLackSeparator(s: string, sep: char)
    ensures forall k :: 0 <= k < |Split(s, sep)| ==> sep !in Split(s, sep)[k]
  {
    if |s| > 0 {
      SplitPartsLackSeparator(s[1..], sep);
      var rest := Split(s[1..], sep);
      if s[0] != sep {
        var parts := Split(s, sep);
        assert parts[0] == [s[0]] + rest[0];
        assert forall k :: 1 <= k < |parts| ==> parts[k] == rest[k];
      }
    }
  }

  /** `sep.join(parts)`. */
  function Join(sep: char, parts: seq<string>): string
  {
    if |parts| == 0 then ""
    else if |parts| == 1 then parts[0]
    else parts[0] + [sep] + Join(sep, parts[1..])
  }

  /** Joining the parts of a split gives the original text back. */
  lemma {:induction false} JoinSplit(s: string, sep: char)
    ensures Join(sep, Split(s, sep)) == s
  {
    if |s| == 0 {
    } else if s[0] == sep {
      var rest := Split(s[1..], sep);
      JoinSplit(s[1..], sep);
      assert ([""] + rest)[1..] == rest;
    } else {
      var rest := Split(s[1..], sep);
      JoinSplit(s[1..], sep);
      var parts := [[s[0]] + rest[0]] + rest[1..];
      if |rest| == 1 {
        assert s == [s[0]] + s[1..];
      } else {
        assert parts[1..] == rest[1..];
        assert s == [s[0]] + s[1..];
      }
    }
  }

  /** Text without the separator splits into itself alone. */
  lemma {:induction false} SplitWithoutSeparator(a: string, sep: char)
    requires sep !in a
    ensures Split(a, sep) == [a]
  {
    if |a| > 0 {
      SplitWithoutSeparator(a[1..], sep);
      assert [a[0]] + a[1..] == a;
    }
  }

  /** Splitting stops at the first separator. */
  lemma {:induction false} SplitAtFirstSeparator(a: string, sep: char, b: string)
    requires sep !in a
    ensures Split(a + [sep] + b, sep) == [a] + Split(b, sep)
  {
    var s := a + [sep] + b;
    if |a| == 0 {
      assert s[1..] == b;
    } else {
      assert s[1..] == a[1..] + [sep] + b;
      SplitAtFirstSeparator(a[1..], sep, b);
      assert [a[0]] + a[1..] == a;
    }
  }

  /** Splitting a join gives the parts back, provided no part holds the separator. */
  lemma {:induction false} SplitJoin(sep: char, parts: seq<string>)
    requires |parts| >= 1
    requires forall k :: 0 <= k < |parts| ==> sep !in parts[k]
    ensures Split(Join(sep, parts), sep) == parts
  {
    if |parts| == 1 {
      SplitWithoutSeparator(parts[0], sep);
    } else {
      SplitJoin(sep, parts[1..]);
      SplitAtFirstSeparator(parts[0], sep, Join(sep, parts[1..]));
      assert [parts[0]] + parts[1..] == parts;
    }
  }

  // ---------------------------------------------------------------------
  // substrings: startswith and `in`
  // ---------------------------------------------------------------------

  /** `s.startswith(prefix)`, compared character by character. */
  predicate StartsWith(s: string, prefix: string)
  {
    |prefix| <= |s| && (|prefix| == 0 || (prefix[0] == s[0] && StartsWith(s[1..], prefix[1..])))
  }

  /** Python's substring test `sub in s`: `sub` starts at some position of `s`. */
  predicate Contains(s: string, sub: string)
  {
    StartsWith(s, sub) || (|s| > 0 && Contains(s[1..], sub))
  }

  /** `sub` occurs in `s` starting at index `i`. */
  predicate OccursAt(s: string, sub: string, i: int)
  {
    0 <= i && i + |sub| <= |s| && s[i..i + |sub|] == sub
  }

  /** The character-by-character prefix test agrees with comparing the first characters as a slice. */
  lemma {:induction false} StartsWithIsSlice(s: string, prefix: string)
    ensures StartsWith(s, prefix) <==> OccursAt(s, prefix, 0)
  {
    if |prefix| > 0 && |prefix| <= |s| {
      StartsWithIsSlice(s[1..], prefix[1..]);
      if prefix[0] == s[0] && s[1..][..|prefix| - 1] == prefix[1..] {
        assert s[..|prefix|] == [s[0]] + s[1..][..|prefix| - 1];
      }
      if s[..|prefix|] == prefix {
        assert s[1..][..|prefix| - 1] == s[..|prefix|][1..];
      }
    }
  }

  /** Every text starts with each of its own prefixes. */
  lemma StartsWithOwnPrefix(s: string, n: nat)
    requires n <= |s|
    ensures StartsWith(s, s[..n])
  {
    StartsWithIsSlice(s, s[..n]);
  }

  /** A concatenation starts with its first part. */
  lemma StartsWithConcat(a: string, b: string)
    ensures StartsWith(a + b, a)
  {
    assert (a + b)[..|a|] == a;
    StartsWithOwnPrefix(a + b, |a|);
  }

  /** `sub in s` holds exactly when `sub` occurs in `s` at some index. */
  lemma {:induction false} ContainsIsOccurrence(s: string, sub: string)
    ensures Contains(s, sub) <==> exists i | 0 <= i <= |s| :: OccursAt(s, sub, i)
  {
    StartsWithIsSlice(s, sub);
    if |s| > 0 {
      ContainsIsOccurrence(s[1..], sub);
      if Contains(s[1..], sub) {
        var i :| 0 <= i <= |s[1..]| && OccursAt(s[1..], sub, i);
        assert OccursAt(s, sub, i + 1) by {
          assert s[i + 1..i + 1 + |sub|] == s[1..][i..i + |sub|];
        }
      }
      if i :| 0 < i <= |s| && OccursAt(s, sub, i) {
        assert OccursAt(s[1..], sub, i - 1) by {
          assert s[1..][i - 1..i - 1 + |sub|] == s[i..i + |sub|];
        }
      }
    }
  }

  /** A substring of a substring is a substring. */
  lemma ContainsTransitive(s: string, mid: string, sub: string)
    requires Contains(s, mid) && Contains(mid, sub)
    ensures Contains(s, sub)
  {
    ContainsIsOccurrence(s, mid);
    ContainsIsOccurrence(mid, sub);
    ContainsIsOccurrence(s, sub);
    var i :| 0 <= i <= |s| && OccursAt(s, mid, i);
    var j :| 0 <= j <= |mid| && OccursAt(mid, sub, j);
    forall k | 0 <= k < |sub|
      ensures s[i + j + k] == sub[k]
    {
      assert sub[k] == mid[j + k] == s[i + j + k];
    }
    assert OccursAt(s, sub, i + j);
  }

  /** Every part of a join occurs in the joined text. */
  lemma {:induction false} JoinContainsPart(sep: char, parts: seq<string>, k: nat)
    requires k < |parts|
    ensures Contains(Join(sep, parts), parts[k])
  {
    var joined := Join(sep, parts);
    ContainsIsOccurrence(joined, parts[k]);
    if |parts| == 1 {
      assert OccursAt(joined, parts[0], 0);
    } else if k == 0 {
      assert joined[..|parts[0]|] == parts[0];
      assert OccursAt(joined, parts[0], 0);
    } else {
      var head := parts[0] + [sep];
      var tail := Join(sep, parts[1..]);
      assert joined == head + tail;
      JoinContainsPart(sep, parts[1..], k - 1);
      ContainsIsOccurrence(tail, parts[k]);
      var i :| 0 <= i <= |tail| && OccursAt(tail, parts[k], i);
      assert joined[|head| + i..|head| + i + |parts[k]|] == tail[i..i + |parts[k]|];
      assert OccursAt(joined, parts[k], |head| + i);
    }
  }

  /** Every line of a split occurs in the split text. */
  lemma SplitPartInText(s: string, sep: char, k: nat)
    requires k < |Split(s, sep)|
    ensures Contains(s, Split(s, sep)[k])
  {
    JoinContainsPart(sep, Split(s, sep), k);
    JoinSplit(s, sep);
  }

  // ---------------------------------------------------------------------
  // strip()
  // ---------------------------------------------------------------------

  /** Python's `str.isspace()` characters: the ones `strip()` with no argument removes. */
  predicate IsSpace(c: char)
  {
    || c == ' '
    || ('\t' <= c <= '\r')                  // \t \n \v \f \r
    || ('\U{1C}' <= c <= '\U{1F}')          // file, group, record and unit separators
    || c == '\U{85}' || c == '\U{A0}' || c == '\U{1680}'
    || ('\U{2000}' <= c <= '\U{200A}')
    || c == '\U{2028}' || c == '\U{2029}' || c == '\U{202F}' || c == '\U{205F}' || c == '\U{3000}'
  }

  /** How many whitespace characters `s` starts with. */
  function LeadingSpace(s: string): (n: nat)
    ensures n <= |s|
  {
    if |s| > 0 && IsSpace(s[0]) then 1 + LeadingSpace(s[1..]) else 0
  }

  /** How many whitespace characters `s` ends with. */
  function TrailingSpace(s: string): (n: nat)
    ensures n <= |s|
  {
    if |s| > 0 && IsSpace(s[|s| - 1]) then 1 + TrailingSpace(s[..|s| - 1]) else 0
  }

  /** `s.strip()`: the text between the leading and the trailing whitespace. */
  function Strip(s: string): string
  {
    var rest := s[LeadingSpace(s)..];
    rest[..|rest| - TrailingSpace(rest)]
  }

  /** The leading whitespace is all whitespace and stops at the first other character. */
  lemma {:induction false} LeadingSpaceIsMaximal(s: string)
    ensures forall i :: 0 <= i < LeadingSpace(s) ==> IsSpace(s[i])
    ensures LeadingSpace(s) == |s| || !IsSpace(s[LeadingSpace(s)])
  {
    if |s| > 0 && IsSpace(s[0]) {
      LeadingSpaceIsMaximal(s[1..]);
      forall i | 0 < i < LeadingSpace(s)
        ensures IsSpace(s[i])
      {
        assert s[i] == s[1..][i - 1];
      }
    }
  }

  /** The trailing whitespace is all whitespace and stops at the last other character. */
  lemma {:induction false} TrailingSpaceIsMaximal(s: string)
    ensures forall i :: |s| - TrailingSpace(s) <= i < |s| ==> IsSpace(s[i])
    ensures TrailingSpace(s) == |s| || !IsSpace(s[|s| - 1 - TrailingSpace(s)])
  {
    if |s| > 0 && IsSpace(s[|s| - 1]) {
      var init := s[..|s| - 1];
      TrailingSpaceIsMaximal(init);
      forall i | |s| - TrailingSpace(s) <= i < |s| - 1
        ensures IsSpace(s[i])
      {
        assert s[i] == init[i];
      }
      if TrailingSpace(s) < |s| {
        assert s[|s| - 1 - TrailingSpace(s)] == init[|init| - 1 - TrailingSpace(init)];
      }
    }
  }

  /**
   * `s.strip()` is the infix of `s` that starts after the leading whitespace
   * and has only whitespace after it.
   */
  lemma StripIsInfix(s: string)
    ensures OccursAt(s, Strip(s), LeadingSpace(s))
    ensures forall j :: LeadingSpace(s) + |Strip(s)| <= j < |s| ==> IsSpace(s[j])
  {
    var i := LeadingSpace(s);
    var rest := s[i..];
    var r := Strip(s);
    assert |r| == |rest| - TrailingSpace(rest);
    assert OccursAt(s, r, i) by {
      assert r == rest[..|r|];
      assert s[i..i + |r|] == rest[..|r|];
    }
    TrailingSpaceIsMaximal(rest);
    forall j | i + |r| <= j < |s|
      ensures IsSpace(s[j])
    {
      assert |rest| - TrailingSpace(rest) <= j - i < |rest|;
      assert s[j] == rest[j - i];
    }
  }

  /** `s.strip()` neither starts nor ends with whitespace. */
  lemma StripHasNoOuterSpace(s: string)
    ensures var r := Strip(s); r == [] || (!IsSpace(r[0]) && !IsSpace(r[|r| - 1]))
  {
    var rest := s[LeadingSpace(s)..];
    var r := Strip(s);
    if r != [] {
      assert !IsSpace(r[0]) by {
        LeadingSpaceIsMaximal(s);
        assert r[0] == s[LeadingSpace(s)];
      }
      assert !IsSpace(r[|r| - 1]) by {
        TrailingSpaceIsMaximal(rest);
        assert r[|r| - 1] == rest[|rest| - 1 - TrailingSpace(rest)];
      }
    }
  }

  // ---------------------------------------------------------------------
  // lower() / upper()
  // ---------------------------------------------------------------------

  function LowerChar(c: char): char
  {
    if 'A' <= c <= 'Z' then (c as int + 32) as char else c
  }

  function UpperChar(c: char): char
  {
    if 'a' <= c <= 'z' then (c as int - 32) as char else c
  }

  /** `s.lower()` on ASCII letters; every other character is kept. */
  function Lower(s: string): (r: string)
    ensures |r| == |s|
    ensures forall i :: 0 <= i < |s| ==> r[i] == LowerChar(s[i])
  {
    if |s| == 0 then [] else [LowerChar(s[0])] + Lower(s[1..])
  }

  /** `s.upper()` on ASCII letters; every other character is kept. */
  function Upper(s: string): (r: string)
    ensures |r| == |s|
    ensures forall i :: 0 <= i < |s| ==> r[i] == UpperChar(s[i])
  {
    if |s| == 0 then [] else [UpperChar(s[0])] + Upper(s[1..])
  }

  // ---------------------------------------------------------------------
  // decimal rendering of a count
  // ---------------------------------------------------------------------

  function DigitChar(d: nat): char
    requires d < 10
  {
    ('0' as int + d) as char
  }

  predicate IsDigit(c: char)
  {
    '0' <= c <= '9'
  }

  function DigitValue(c: char): nat
    requires IsDigit(c)
  {
    c as int - '0' as int
  }

  /** The number a string of decimal digits denotes. */
  function DecimalValue(s: string): nat
    requires forall i :: 0 <= i < |s| ==> IsDigit(s[i])
  {
    if |s| == 0 then 0
    else DecimalValue(s[..|s| - 1]) * 10 + DigitValue(s[|s| - 1])
  }

  /** `f"{n}"` for a natural number: decimal digits without leading zeros. */
  function DecimalString(n: nat): (s: string)
    ensures |s| >= 1
    ensures forall i :: 0 <= i < |s| ==> IsDigit(s[i])
    ensures |s| > 1 ==> s[0] != '0'
  {
    if n < 10 then [DigitChar(n)] else DecimalString(n / 10) + [DigitChar(n % 10)]
  }

  /** Reading the rendered digits back gives the number. */
  lemma {:induction false} DecimalRoundTrip(n: nat)
    ensures DecimalValue(DecimalString(n)) == n
  {
    var s := DecimalString(n);
    if n >= 10 {
      DecimalRoundTrip(n / 10);
      assert s[..|s| - 1] == DecimalString(n / 10);
    }
  }
}
