/**
 * TravelPlannerApp/src/utils/formatters.ts: the string formatters that do
 * not depend on `Intl` or floating point — `phone`, `duration`,
 * `capitalize` and `truncate`.
 */
module Formatters {
  import opened Seqs
  import opened Text

  /** `s.replace(/\D/g, '')`: the digits of `s`, in order. */
  function Digits(s: string): string
  {
    Filter(s, IsDigit)
  }

  /**
   * `phone`: a number with exactly ten digits is shown as "(ddd) ddd-dddd";
   * anything else is returned as given.
   */
  function Phone(phoneNumber: string): (r: string)
    ensures |Digits(phoneNumber)| != 10 ==> r == phoneNumber
    ensures |Digits(phoneNumber)| == 10 ==>
      var d := Digits(phoneNumber);
      && |r| == 14
      && r[0] == '(' && r[4] == ')' && r[5] == ' ' && r[9] == '-'
      && r[1..4] == d[..3] && r[6..9] == d[3..6] && r[10..] == d[6..]
  {
    var d := Digits(phoneNumber);
    if |d| == 10 then "(" + d[..3] + ") " + d[3..6] + "-" + d[6..] else phoneNumber
  }

  /** A string made only of digits is its own digit string. */
  lemma DigitsOfDigits(x: string)
    requires forall k :: 0 <= k < |x| ==> IsDigit(x[k])
    ensures Digits(x) == x
  {
    FilterExtremes(x, IsDigit);
  }

  /** Appending `piece` to `s` appends the digits of `piece` to the digits of `s`. */
  lemma DigitsAppend(s: string, piece: string)
    ensures Digits(s + piece) == Digits(s) + Digits(piece)
  {
    FilterConcat(s, piece, IsDigit);
  }

  /** Appending characters that are not digits adds no digits. */
  lemma DigitsAfterLayout(s: string, lit: string)
    requires forall k :: 0 <= k < |lit| ==> !IsDigit(lit[k])
    ensures Digits(s + lit) == Digits(s)
  {
    DigitsAppend(s, lit);
    FilterExtremes(lit, IsDigit);
  }

  /** Appending digits appends them to the digit string. */
  lemma DigitsAfterDigits(s: string, x: string)
    requires forall k :: 0 <= k < |x| ==> IsDigit(x[k])
    ensures Digits(s + x) == Digits(s) + x
  {
    DigitsAppend(s, x);
    DigitsOfDigits(x);
  }

  /** The layout characters of "(ddd) ddd-dddd" add no digits. */
  lemma LayoutDigits(a: string, b: string, c: string)
    requires forall k :: 0 <= k < |a| ==> IsDigit(a[k])
    requires forall k :: 0 <= k < |b| ==> IsDigit(b[k])
    requires forall k :: 0 <= k < |c| ==> IsDigit(c[k])
    ensures Digits("(" + a + ") " + b + "-" + c) == a + b + c
  {
    var s1 := "(" + a;
    assert Digits(s1) == a by {
      DigitsAfterLayout([], "(");
      assert [] + "(" == "(";
      DigitsAfterDigits("(", a);
    }
    var s2 := s1 + ") ";
    assert Digits(s2) == a by {
      DigitsAfterLayout(s1, ") ");
    }
    var s3 := s2 + b;
    assert Digits(s3) == a + b by {
      DigitsAfterDigits(s2, b);
    }
    var s4 := s3 + "-";
    assert Digits(s4) == a + b by {
      DigitsAfterLayout(s3, "-");
    }
    assert Digits(s4 + c) == a + b + c by {
      DigitsAfterDigits(s4, c);
    }
  }

  /** Formatting a phone number keeps exactly its digits. */
  lemma PhoneKeepsDigits(phoneNumber: string)
    ensures Digits(Phone(phoneNumber)) == Digits(phoneNumber)
  {
    var d := Digits(phoneNumber);
    if |d| == 10 {
      LayoutDigits(d[..3], d[3..6], d[6..]);
      assert d == d[..3] + d[3..6] + d[6..];
    }
  }

  /** Formatting an already formatted phone number changes nothing. */
  lemma PhoneIdempotent(phoneNumber: string)
    ensures Phone(Phone(phoneNumber)) == Phone(phoneNumber)
  {
    PhoneKeepsDigits(phoneNumber);
  }

  /**
   * `duration`: whole hours and leftover minutes, "{m}min" under an hour,
   * "{h}h" on the hour, and "{h}h {m}min" otherwise.
   */
  function Duration(minutes: nat): (r: string)
    ensures minutes / 60 == 0 ==> r == NatToString(minutes % 60) + "min"
    ensures minutes / 60 != 0 && minutes % 60 == 0 ==> r == NatToString(minutes / 60) + "h"
    ensures minutes / 60 != 0 && minutes % 60 != 0 ==>
      r == NatToString(minutes / 60) + "h " + NatToString(minutes % 60) + "min"
  {
    var hours := minutes / 60;
    var mins := minutes % 60;
    if hours == 0 then NatToString(mins) + "min"
    else if mins == 0 then NatToString(hours) + "h"
    else NatToString(hours) + "h " + NatToString(mins) + "min"
  }

  /** The number of leading decimal digits of `s`. */
  function LeadingDigits(s: string): (n: nat)
    ensures n <= |s|
    decreases |s|
  {
    if s != [] && IsDigit(s[0]) then 1 + LeadingDigits(s[1..]) else 0
  }

  lemma {:induction false} LeadingDigitsOf(x: string, u: string)
    requires forall k :: 0 <= k < |x| ==> IsDigit(x[k])
    requires u != [] && !IsDigit(u[0])
    ensures LeadingDigits(x + u) == |x|
    decreases |x|
  {
    if x == [] {
      assert x + u == u;
    } else {
      assert (x + u)[1..] == x[1..] + u;
      LeadingDigitsOf(x[1..], u);
    }
  }

  /** A run of digits followed by a non-digit is determined by the concatenation. */
  lemma DigitRunSplit(x: string, u: string, y: string, v: string)
    requires forall k :: 0 <= k < |x| ==> IsDigit(x[k])
    requires forall k :: 0 <= k < |y| ==> IsDigit(y[k])
    requires u != [] && !IsDigit(u[0]) && v != [] && !IsDigit(v[0])
    requires x + u == y + v
    ensures x == y && u == v
  {
    LeadingDigitsOf(x, u);
    LeadingDigitsOf(y, v);
    assert x == (x + u)[..|x|] && y == (y + v)[..|y|];
    assert u == (x + u)[|x|..] && v == (y + v)[|y|..];
  }

  /** The leading run of digits of a duration: the hours, or the minutes under an hour. */
  function DurationHead(minutes: nat): string
  {
    if minutes / 60 == 0 then NatToString(minutes % 60) else NatToString(minutes / 60)
  }

  /** What follows the leading digits of a duration. */
  function DurationTail(minutes: nat): string
  {
    if minutes / 60 == 0 then "min"
    else if minutes % 60 == 0 then "h"
    else "h " + NatToString(minutes % 60) + "min"
  }

  lemma DurationSplits(minutes: nat)
    ensures Duration(minutes) == DurationHead(minutes) + DurationTail(minutes)
    ensures DurationTail(minutes) != [] && !IsDigit(DurationTail(minutes)[0])
  {
  }

  /** Different durations never print the same: the text determines the number of minutes. */
  lemma {:induction false} DurationInjective(a: nat, b: nat)
    requires Duration(a) == Duration(b)
    ensures a == b
  {
    DurationSplits(a);
    DurationSplits(b);
    DigitRunSplit(DurationHead(a), DurationTail(a), DurationHead(b), DurationTail(b));
    var ua, ub := DurationTail(a), DurationTail(b);
    if a / 60 == 0 && b / 60 == 0 {
      NatToStringInjective(a % 60, b % 60);
    } else if a / 60 != 0 && b / 60 != 0 {
      NatToStringInjective(a / 60, b / 60);
      if a % 60 != 0 && b % 60 != 0 {
        assert NatToString(a % 60) == ua[2..|ua| - 3];
        assert NatToString(b % 60) == ub[2..|ub| - 3];
        NatToStringInjective(a % 60, b % 60);
      }
    }
  }

  /** `capitalize`: the first character upper-cased, the rest lower-cased (ASCII letters). */
  function Capitalize(s: string): (r: string)
    ensures |r| == |s|
    ensures |s| > 0 ==> r[0] == ToUpperChar(s[0])
    ensures forall k :: 1 <= k < |s| ==> r[k] == ToLowerChar(s[k])
  {
    if s == [] then [] else ToUpper(s[..1]) + ToLower(s[1..])
  }

  /** Under ASCII case mapping, capitalizing twice is capitalizing once. */
  lemma CapitalizeIdempotent(s: string)
    ensures Capitalize(Capitalize(s)) == Capitalize(s)
  {
    var c := Capitalize(s);
    if s != [] {
      CaseMappingsSettle(s[0]);
      forall k | 1 <= k < |s| ensures ToLowerChar(c[k]) == c[k] {
        CaseMappingsSettle(s[k]);
      }
    }
  }

  /**
   * `truncate`: a string whose `length`, counted in UTF-16 code units, is at
   * most `maxLength` is kept; a longer one is cut to its first `maxLength`
   * code units (none when `maxLength` is negative, as `substring` clamps)
   * and "..." is appended. The result is a JavaScript string and is given
   * as code units, since the cut may fall inside a surrogate pair.
   */
  function Truncate(s: string, maxLength: int): (r: seq<CodeUnit>)
    ensures |Utf16(s)| <= maxLength ==> r == Utf16(s)
    ensures |Utf16(s)| > maxLength ==>
      var n := if maxLength < 0 then 0 else maxLength;
      |r| == n + 3 && r[..n] == Utf16(s)[..n] && r[n..] == Utf16("...")
  {
    var units := Utf16(s);
    if |units| <= maxLength then units
    else
      var n := if maxLength < 0 then 0 else maxLength;
      units[..n] + Utf16("...")
  }

  /** On text of BMP characters a code unit is a character: the first `maxLength` characters are kept. */
  lemma TruncateBmp(s: string, maxLength: int)
    requires AllBmp(s)
    ensures |s| <= maxLength ==> Truncate(s, maxLength) == Utf16(s)
    ensures |s| > maxLength ==>
      var n := if maxLength < 0 then 0 else maxLength;
      Truncate(s, maxLength) == Utf16(s[..n] + "...")
  {
    if |s| > maxLength {
      var n := if maxLength < 0 then 0 else maxLength;
      Utf16PrefixBmp(s, n);
      Utf16Append(s[..n], "...");
    }
  }

  /** `truncate("\u{1F600}\u{1F600}", 2)` keeps one emoji, whose two code units fill the length. */
  lemma TruncateCountsCodeUnits()
    ensures Truncate(['\U{1F600}', '\U{1F600}'], 2) == Utf16(['\U{1F600}'] + "...")
  {
    var e := '\U{1F600}';
    assert [e, e][1..] == [e];
    assert Utf16([e, e]) == CharUnits(e) + Utf16([e]);
    assert Utf16([e]) == CharUnits(e) + Utf16([]);
    Utf16Append([e], "...");
  }
}
