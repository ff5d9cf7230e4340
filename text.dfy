/**
 * The few Python `str` operations the SendGrid backend relies on:
 * `lower()` (as used by a case-insensitive dict), `sep.join(parts)`,
 * `s.split(c)`, the `in` substring test and `str(n)` for an `int`.
 */
module Text {

  /** ASCII case folding of one character. */
  function LowerChar(c: char): char
  {
    if 'A' <= c <= 'Z' then (c as int + 32) as char else c
  }

  /** `s.lower()`, restricted to ASCII letters. */
  function Lower(s: string): (r: string)
    ensures |r| == |s|
    ensures forall i :: 0 <= i < |s| ==> r[i] == LowerChar(s[i])
  {
    seq(|s|, i requires 0 <= i < |s| => LowerChar(s[i]))
  }

  /** `sep.join(parts)`. */
  function Join(parts: seq<string>, sep: string): string
    decreases |parts|
  {
    if |parts| == 0 then ""
    else if |parts| == 1 then parts[0]
    else parts[0] + sep + Join(parts[1..], sep)
  }

  /** Python's `t in s` for strings: `t` occurs somewhere in `s`. */
  predicate Contains(s: string, t: string)
  {
    exists k :: 0 <= k <= |s| && t <= s[k..]
  }

  /** Every joined part occurs in the joined text. */
  lemma {:induction false} JoinContainsPart(parts: seq<string>, sep: string, i: int)
    requires 0 <= i < |parts|
    ensures Contains(Join(parts, sep), parts[i])
    decreases |parts|
  {
    var r := Join(parts, sep);
    if i == 0 {
      assert parts[0] <= r[0..];
    } else {
      var tail := Join(parts[1..], sep);
      JoinContainsPart(parts[1..], sep, i - 1);
      var k :| 0 <= k <= |tail| && parts[i] <= tail[k..];
      var off := |parts[0]| + |sep|;
      assert r == parts[0] + sep + tail;
      assert r[off + k..] == tail[k..];
      assert parts[i] <= r[off + k..];
    }
  }

  /** Number of occurrences of `c` in `s`. */
  function CountOf(s: string, c: char): nat
  {
    if s == [] then 0 else (if s[0] == c then 1 else 0) + CountOf(s[1..], c)
  }

  /** `s.split(c)` for a one-character separator: always at least one part. */
  function Split(s: string, c: char): (parts: seq<string>)
    ensures |parts| >= 1
    decreases |s|
  {
    if s == [] then [[]]
    else
      var rest := Split(s[1..], c);
      if s[0] == c then [[]] + rest
      else [[s[0]] + rest[0]] + rest[1..]
  }

  /** Splitting yields one more part than there are separators. */
  lemma {:induction false} SplitCount(s: string, c: char)
    ensures |Split(s, c)| == CountOf(s, c) + 1
    decreases |s|
  {
    if s != [] {
      SplitCount(s[1..], c);
    }
  }

  /** No part of a split contains the separator. */
  lemma {:induction false} SplitPartsFree(s: string, c: char)
    ensures forall i :: 0 <= i < |Split(s, c)| ==> c !in Split(s, c)[i]
    decreases |s|
  {
    if s != [] {
      SplitPartsFree(s[1..], c);
      var rest := Split(s[1..], c);
      if s[0] != c {
        assert c !in rest[0];
        assert Split(s, c)[0] == [s[0]] + rest[0];
        forall i | 1 <= i < |Split(s, c)|
          ensures c !in Split(s, c)[i]
        {
          assert Split(s, c)[i] == rest[i];
        }
      }
    }
  }

  /** Joining the parts of a split with the separator gives back the text. */
  lemma {:induction false} JoinSplit(s: string, c: char)
    ensures Join(Split(s, c), [c]) == s
    decreases |s|
  {
    if s != [] {
      var rest := Split(s[1..], c);
      JoinSplit(s[1..], c);
      if s[0] == c {
        assert Split(s, c) == [[]] + rest;
        assert ([[]] + rest)[1..] == rest;
      } else if |rest| == 1 {
        assert Split(s, c) == [[s[0]] + rest[0]];
      } else {
        JoinPrepend(s[0], rest, [c]);
        assert [s[0]] + s[1..] == s;
      }
    }
  }

  /** Prepending a character to the first part prepends it to the joined text. */
  lemma JoinPrepend(x: char, parts: seq<string>, sep: string)
    requires |parts| >= 2
    ensures Join([[x] + parts[0]] + parts[1..], sep) == [x] + Join(parts, sep)
  {
    var extended := [[x] + parts[0]] + parts[1..];
    assert extended[1..] == parts[1..];
    calc {
      Join(extended, sep);
      ([x] + parts[0]) + sep + Join(parts[1..], sep);
      [x] + (parts[0] + sep + Join(parts[1..], sep));
    }
  }

  /** A text with exactly one `c` splits into the text before it and the text after it. */
  lemma SplitOnce(s: string, c: char)
    requires CountOf(s, c) == 1
    ensures |Split(s, c)| == 2
    ensures s == Split(s, c)[0] + [c] + Split(s, c)[1]
    ensures c !in Split(s, c)[0] && c !in Split(s, c)[1]
  {
    SplitCount(s, c);
    JoinSplit(s, c);
    SplitPartsFree(s, c);
    var parts := Split(s, c);
    assert Join(parts[1..], [c]) == parts[1];
  }

  /** A text free of `c` splits into itself alone. */
  lemma {:induction false} SplitFree(s: string, c: char)
    requires c !in s
    ensures Split(s, c) == [s]
    decreases |s|
  {
    if s != [] {
      SplitFree(s[1..], c);
      assert [s[0]] + s[1..] == s;
    }
  }

  /** `(a + c + b).split(c)` is `[a, b]` when neither `a` nor `b` holds `c`. */
  lemma {:induction false} SplitAround(a: string, c: char, b: string)
    requires c !in a && c !in b
    ensures Split(a + [c] + b, c) == [a, b]
    decreases |a|
  {
    var s := a + [c] + b;
    if a == [] {
      assert s[1..] == b;
      SplitFree(b, c);
    } else {
      assert s[1..] == a[1..] + [c] + b;
      SplitAround(a[1..], c, b);
      assert [a[0]] + a[1..] == a;
    }
  }

  /** The character for the decimal digit `d`. */
  function DigitChar(d: int): char
    requires 0 <= d < 10
  {
    ('0' as int + d) as char
  }

  /** Decimal digits of `n`, most significant first, with no leading zero. */
  function NatDigits(n: nat): (s: string)
    ensures |s| >= 1
    ensures forall i :: 0 <= i < |s| ==> '0' <= s[i] <= '9'
    ensures n > 0 ==> s[0] != '0'
    decreases n
  {
    if n < 10 then [DigitChar(n)] else NatDigits(n / 10) + [DigitChar(n % 10)]
  }

  /** `str(n)` for a Python `int`. */
  function StrOfInt(n: int): string
  {
    if n < 0 then "-" + NatDigits(-n) else NatDigits(n)
  }

  /** The number a string of decimal digits denotes. */
  function DigitsValue(s: string): int
  {
    if s == [] then 0
    else DigitsValue(s[..|s| - 1]) * 10 + (s[|s| - 1] as int - '0' as int)
  }

  /** `int(s)` for the strings `str` produces. */
  function IntOfStr(s: string): int
  {
    if |s| > 0 && s[0] == '-' then -DigitsValue(s[1..]) else DigitsValue(s)
  }

  lemma {:induction false} DigitsValueOfNatDigits(n: nat)
    ensures DigitsValue(NatDigits(n)) == n
    decreases n
  {
    if n >= 10 {
      var s := NatDigits(n);
      DigitsValueOfNatDigits(n / 10);
      assert s[..|s| - 1] == NatDigits(n / 10);
    }
  }

  /** `int(str(n)) == n`: the rendering of an `int` loses nothing. */
  lemma StrOfIntRoundTrip(n: int)
    ensures IntOfStr(StrOfInt(n)) == n
  {
    if n < 0 {
      DigitsValueOfNatDigits(-n);
      assert StrOfInt(n)[1..] == NatDigits(-n);
    } else {
      DigitsValueOfNatDigits(n);
    }
  }
}
