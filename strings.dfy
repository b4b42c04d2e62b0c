/**
 * The string operations the formatters rely on: Python's `str()` of an integer and
 * of a date, and `str.split` on a single-character separator.
 */
module Strings {

  predicate IsDigit(c: char) {
    '0' <= c <= '9'
  }

  predicate AllDigits(s: string) {
    forall i :: 0 <= i < |s| ==> IsDigit(s[i])
  }

  function DigitChar(d: nat): (c: char)
    requires d < 10
    ensures IsDigit(c) && c as int - '0' as int == d
  {
    (d + '0' as int) as char
  }

  /** The number a string of decimal digits denotes. */
  function DigitsValue(s: string): (n: nat)
    requires AllDigits(s)
  {
    if s == [] then 0 else DigitsValue(s[..|s| - 1]) * 10 + (s[|s| - 1] as int - '0' as int)
  }

  /** Python `str(n)` for a non-negative integer. */
  function NatToString(n: nat): (s: string)
  {
    if n < 10 then [DigitChar(n)] else NatToString(n / 10) + [DigitChar(n % 10)]
  }

  /** `str(n)` is a non-empty string of digits without a leading zero, and denotes `n`. */
  lemma {:induction false} NatToStringDenotes(n: nat)
    ensures var s := NatToString(n);
      && s != [] && AllDigits(s) && (s[0] == '0' ==> n == 0)
      && DigitsValue(s) == n
  {
    var s := NatToString(n);
    if n >= 10 {
      NatToStringDenotes(n / 10);
      var front := NatToString(n / 10);
      assert s[..|s| - 1] == front;
      assert s[0] == front[0];
    }
  }

  /** Python `str(i)`: a minus sign for a negative number, then its digits. */
  function IntToString(i: int): (s: string)
  {
    if i < 0 then "-" + NatToString(-i) else NatToString(i)
  }

  /** Reading `str(i)` back gives `i`: the sign is the leading '-', the rest its digits. */
  lemma IntToStringDenotes(i: int)
    ensures var s := IntToString(i);
      && s != []
      && (i < 0 <==> s[0] == '-')
      && (i < 0 ==> AllDigits(s[1..]) && DigitsValue(s[1..]) == -i)
      && (i >= 0 ==> AllDigits(s) && DigitsValue(s) == i)
  {
    if i < 0 {
      NatToStringDenotes(-i);
      assert IntToString(i)[1..] == NatToString(-i);
    } else {
      NatToStringDenotes(i);
    }
  }

  /** `str` is injective on integers, so the text drawn identifies the number. */
  lemma IntToStringInjective(i: int, j: int)
    requires IntToString(i) == IntToString(j)
    ensures i == j
  {
    IntToStringDenotes(i);
    IntToStringDenotes(j);
  }

  function Zeros(n: nat): (s: string)
    ensures |s| == n && forall k :: 0 <= k < n ==> s[k] == '0'
  {
    if n == 0 then "" else "0" + Zeros(n - 1)
  }

  /** A run of digits left-padded with zeros to `width` characters. */
  function PadDigits(digits: string, width: nat): (s: string)
  {
    if |digits| < width then Zeros(width - |digits|) + digits else digits
  }

  /** `%0<width>d`: the decimal form zero-padded to `width` characters, sign included. */
  function ZeroPadded(i: int, width: nat): (s: string)
  {
    if i < 0 then "-" + PadDigits(NatToString(-i), if width > 0 then width - 1 else 0)
    else PadDigits(NatToString(i), width)
  }

  /** Python `str(date)`, the ISO form `YYYY-MM-DD`. */
  function DateToString(year: int, month: int, day: int): (s: string)
  {
    ZeroPadded(year, 4) + "-" + ZeroPadded(month, 2) + "-" + ZeroPadded(day, 2)
  }

  function Pow10(k: nat): (p: nat)
  {
    if k == 0 then 1 else 10 * Pow10(k - 1)
  }

  /** A number below `10^k` has at most `k` digits. */
  lemma {:induction false} NatToStringLength(n: nat, k: nat)
    requires 1 <= k && n < Pow10(k)
    ensures |NatToString(n)| <= k
  {
    if n >= 10 {
      assert k >= 2;
      assert n / 10 < Pow10(k - 1);
      NatToStringLength(n / 10, k - 1);
    }
  }

  lemma {:induction false} ZerosDenoteZero(m: nat)
    ensures AllDigits(Zeros(m)) && DigitsValue(Zeros(m)) == 0
  {
    if m > 0 {
      ZerosDenoteZero(m - 1);
      assert Zeros(m)[..m - 1] == Zeros(m - 1);
    }
  }

  /** Leading zeros do not change the number a run of digits denotes. */
  lemma {:induction false} LeadingZerosDenote(m: nat, d: string)
    requires AllDigits(d)
    ensures AllDigits(Zeros(m) + d) && DigitsValue(Zeros(m) + d) == DigitsValue(d)
  {
    ZerosDenoteZero(m);
    if d == [] {
      assert Zeros(m) + d == Zeros(m);
    } else {
      var s := Zeros(m) + d;
      assert s[..|s| - 1] == Zeros(m) + d[..|d| - 1];
      LeadingZerosDenote(m, d[..|d| - 1]);
    }
  }

  /** Padding a run of at most `width` digits gives exactly `width` digits denoting the same number. */
  lemma PadDigitsDenotes(digits: string, width: nat)
    requires AllDigits(digits) && |digits| <= width
    ensures var s := PadDigits(digits, width);
      |s| == width && AllDigits(s) && DigitsValue(s) == DigitsValue(digits)
  {
    if |digits| < width {
      LeadingZerosDenote(width - |digits|, digits);
    }
  }

  /** `%0<width>d` of a number with at most `width` digits has exactly `width` digits and denotes it. */
  lemma PaddedDenotes(n: nat, width: nat)
    requires |NatToString(n)| <= width
    ensures var s := ZeroPadded(n, width);
      |s| == width && AllDigits(s) && DigitsValue(s) == n
  {
    NatToStringDenotes(n);
    assert ZeroPadded(n, width) == PadDigits(NatToString(n), width);
    PadDigitsDenotes(NatToString(n), width);
  }

  /**
   * For a year up to 9999 and a month and day up to 99, `str(date)` has the form
   * `YYYY-MM-DD`: three zero-padded digit groups, split by '-' at positions 4 and 7,
   * that denote the year, the month and the day.
   */
  lemma DateToStringDenotes(year: int, month: int, day: int)
    requires 0 <= year <= 9999 && 0 <= month <= 99 && 0 <= day <= 99
    ensures var s := DateToString(year, month, day);
      && |s| == 10 && s[4] == '-' && s[7] == '-'
      && AllDigits(s[..4]) && DigitsValue(s[..4]) == year
      && AllDigits(s[5..7]) && DigitsValue(s[5..7]) == month
      && AllDigits(s[8..]) && DigitsValue(s[8..]) == day
  {
    NatToStringLength(year, 4);
    NatToStringLength(month, 2);
    NatToStringLength(day, 2);
    PaddedDenotes(year, 4);
    PaddedDenotes(month, 2);
    PaddedDenotes(day, 2);
    var y, m, d := ZeroPadded(year, 4), ZeroPadded(month, 2), ZeroPadded(day, 2);
    var s := DateToString(year, month, day);
    assert s == y + "-" + m + "-" + d;
    assert s[..4] == y && s[5..7] == m && s[8..] == d;
  }

  /** Python `s.split(sep)` for a one-character separator. */
  function Split(s: string, sep: char): (parts: seq<string>)
    ensures |parts| >= 1
  {
    if s == [] then [""]
    else
      var rest := Split(s[1..], sep);
      if s[0] == sep then [""] + rest
      else [[s[0]] + rest[0]] + rest[1..]
  }

  /** Python `sep.join(parts)`. */
  function Join(parts: seq<string>, sep: char): (s: string)
    requires |parts| >= 1
  {
    if |parts| == 1 then parts[0] else parts[0] + [sep] + Join(parts[1..], sep)
  }

  /** Joining the parts of a split with the separator gives back the string. */
  lemma {:induction false} JoinSplit(s: string, sep: char)
    ensures Join(Split(s, sep), sep) == s
  {
    if s != [] {
      JoinSplit(s[1..], sep);
      var rest := Split(s[1..], sep);
      if s[0] == sep {
        assert ([""] + rest)[1..] == rest;
      } else {
        var parts := [[s[0]] + rest[0]] + rest[1..];
        if |rest| == 1 {
          assert parts == [[s[0]] + rest[0]];
        } else {
          assert parts[1..] == rest[1..];
          assert Join(rest, sep) == rest[0] + [sep] + Join(rest[1..], sep);
          assert s == [s[0]] + s[1..];
        }
      }
    }
  }

  /** No part of a split contains the separator. */
  lemma {:induction false} SplitPartsLackSeparator(s: string, sep: char)
    ensures forall k :: 0 <= k < |Split(s, sep)| ==> sep !in Split(s, sep)[k]
  {
    if s != [] {
      SplitPartsLackSeparator(s[1..], sep);
    }
  }

  /** Splitting a join of separator-free parts gives back exactly those parts, in order. */
  lemma {:induction false} SplitJoin(parts: seq<string>, sep: char)
    requires |parts| >= 1
    requires forall k :: 0 <= k < |parts| ==> sep !in parts[k]
    ensures Split(Join(parts, sep), sep) == parts
  {
    if |parts| == 1 {
      SplitOfSeparatorFree(parts[0], sep);
    } else {
      SplitJoin(parts[1..], sep);
      SplitPrefix(parts[0], Join(parts[1..], sep), sep);
      assert [parts[0]] + parts[1..] == parts;
    }
  }

  lemma {:induction false} SplitOfSeparatorFree(s: string, sep: char)
    requires sep !in s
    ensures Split(s, sep) == [s]
  {
    if s != [] {
      SplitOfSeparatorFree(s[1..], sep);
      assert [s[0]] + s[1..] == s;
    }
  }

  /** Splitting `a + sep + b`, with no separator in `a`, gives `a` followed by the split of `b`. */
  lemma {:induction false} SplitPrefix(a: string, b: string, sep: char)
    requires sep !in a
    ensures Split(a + [sep] + b, sep) == [a] + Split(b, sep)
  {
    var s := a + [sep] + b;
    if a == [] {
      assert s[0] == sep && s[1..] == b;
    } else {
      assert s[0] == a[0] && s[1..] == a[1..] + [sep] + b;
      SplitPrefix(a[1..], b, sep);
      assert [a[0]] + a[1..] == a;
    }
  }

  /** A non-empty run of digits (`\d+`). */
  predicate DigitRun(t: string) {
    t != [] && AllDigits(t)
  }

  /**
   * The last group `\d+$` of the phone pattern: a run of digits, which Python's `$`
   * also accepts when one final '\n' follows it.
   */
  predicate PhoneTail(t: string) {
    DigitRun(t) || (|t| >= 2 && t[|t| - 1] == '\n' && DigitRun(t[..|t| - 1]))
  }

  /**
   * The schema's phone-number pattern `^\d+-\d+-\d+$` as Python's `re.match` applies it:
   * three non-empty runs of digits separated by single hyphens, optionally followed by
   * one final '\n'.
   */
  predicate PhonePattern(s: string) {
    exists i, j :: 0 < i && i + 1 < j && j + 1 < |s| && s[i] == '-' && s[j] == '-' &&
      AllDigits(s[..i]) && AllDigits(s[i + 1..j]) && PhoneTail(s[j + 1..])
  }

  /** Three separator-free parts joined by the separator split back into those three parts. */
  lemma SplitOfThree(a: string, b: string, c: string, sep: char)
    requires sep !in a && sep !in b && sep !in c
    ensures Split(a + [sep] + b + [sep] + c, sep) == [a, b, c]
  {
    SplitOfSeparatorFree(c, sep);
    SplitPrefix(b, c, sep);
    assert a + [sep] + b + [sep] + c == a + [sep] + (b + [sep] + c);
    SplitPrefix(a, b + [sep] + c, sep);
  }

  lemma CutTwice(s: string, i: nat, j: nat)
    requires i < j < |s|
    ensures s == s[..i] + [s[i]] + s[i + 1..j] + [s[j]] + s[j + 1..]
  {
    assert s[i..] == [s[i]] + s[i + 1..j] + [s[j]] + s[j + 1..];
    assert s == s[..i] + s[i..];
  }

  lemma DigitsLackHyphen(t: string)
    requires AllDigits(t)
    ensures '-' !in t
  {
  }

  lemma TailLacksHyphen(t: string)
    requires PhoneTail(t)
    ensures '-' !in t
  {
    if !DigitRun(t) {
      var front := t[..|t| - 1];
      DigitsLackHyphen(front);
      assert t == front + [t[|t| - 1]];
    }
  }

  /** The two hyphens at `i` and `j` cut `s` into the three groups of the pattern, which are its split. */
  lemma SplitAtHyphens(s: string, i: nat, j: nat)
    requires 0 < i && i + 1 < j && j + 1 < |s| && s[i] == '-' && s[j] == '-'
    requires AllDigits(s[..i]) && AllDigits(s[i + 1..j]) && PhoneTail(s[j + 1..])
    ensures Split(s, '-') == [s[..i], s[i + 1..j], s[j + 1..]]
  {
    var a, b, c := s[..i], s[i + 1..j], s[j + 1..];
    DigitsLackHyphen(a);
    DigitsLackHyphen(b);
    TailLacksHyphen(c);
    CutTwice(s, i, j);
    SplitOfThree(a, b, c, '-');
  }

  /**
   * A string matching the phone pattern splits on '-' into exactly three parts: two runs
   * of digits, then a run of digits with at most one final '\n'.
   */
  lemma PhonePatternSplits(s: string)
    requires PhonePattern(s)
    ensures var parts := Split(s, '-');
      && |parts| == 3
      && DigitRun(parts[0]) && DigitRun(parts[1]) && PhoneTail(parts[2])
  {
    var i, j :| 0 < i && i + 1 < j && j + 1 < |s| && s[i] == '-' && s[j] == '-' &&
      AllDigits(s[..i]) && AllDigits(s[i + 1..j]) && PhoneTail(s[j + 1..]);
    SplitAtHyphens(s, i, j);
  }

  /** A schema-valid phone number may end in one '\n', which stays in its third part. */
  lemma PhonePatternAdmitsFinalNewline()
    ensures PhonePattern("03-1234-5678\n")
    ensures Split("03-1234-5678\n", '-') == ["03", "1234", "5678\n"]
  {
    var s := "03-1234-5678\n";
    assert s == "03" + "-" + "1234" + "-" + "5678\n";
    assert s[..2] == "03" && s[3..7] == "1234" && s[8..] == "5678\n";
    assert s[2] == '-' && s[7] == '-';
    assert s[8..][..|s[8..]| - 1] == "5678";
    assert DigitRun(s[8..][..|s[8..]| - 1]);
    SplitAtHyphens(s, 2, 7);
  }
}
