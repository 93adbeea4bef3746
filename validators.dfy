/**
 * TravelPlannerApp/src/utils/validators.ts: the e-mail pattern, `required`,
 * the length bounds and the date-range check. Dates are day numbers; a
 * JavaScript `Date` whose time value is NaN is `InvalidDate`.
 */
module Validators {
  import opened Text

  /** A character class `[^\s@]`: neither whitespace nor '@'. */
  predicate PlainChar(c: char)
  {
    !IsWhitespace(c) && c != '@'
  }

  /** A run `[^\s@]+`: non-empty, made of plain characters. */
  predicate PlainRun(s: string)
  {
    s != [] && forall k :: 0 <= k < |s| ==> PlainChar(s[k])
  }

  /** The strings `/^[^\s@]+@[^\s@]+\.[^\s@]+$/` matches: local part, '@', name, '.', suffix. */
  ghost predicate MatchesEmailPattern(s: string)
  {
    exists at, dot :: 0 <= at < dot < |s| && s[at] == '@' && s[dot] == '.'
      && PlainRun(s[..at]) && PlainRun(s[at + 1..dot]) && PlainRun(s[dot + 1..])
  }

  /** The domain after the '@': plain characters with a '.' that has a character on each side. */
  predicate ValidDomain(d: string)
  {
    && (forall k :: 0 <= k < |d| ==> PlainChar(d[k]))
    && |d| >= 3 && '.' in d[1..|d| - 1]
  }

  /** `email`: the address is matched against the pattern, here by locating its first '@'. */
  function Email(email: string): (r: bool)
    ensures r <==> MatchesEmailPattern(email)
  {
    var at := IndexOf(email, "@");
    EmailByFirstAt(email, at);
    0 < at && PlainRun(email[..at]) && ValidDomain(email[at + 1..])
  }

  lemma EmailByFirstAt(s: string, at: int)
    requires at == IndexOf(s, "@")
    ensures (0 < at && PlainRun(s[..at]) && ValidDomain(s[at + 1..])) <==> MatchesEmailPattern(s)
  {
    if 0 < at && PlainRun(s[..at]) && ValidDomain(s[at + 1..]) {
      FirstAtMatches(s, at);
    }
    if MatchesEmailPattern(s) {
      MatchFindsFirstAt(s, at);
    }
  }

  lemma FirstAtMatches(s: string, at: int)
    requires 0 < at && OccursAt(s, "@", at)
    requires PlainRun(s[..at]) && ValidDomain(s[at + 1..])
    ensures MatchesEmailPattern(s)
  {
    var d := s[at + 1..];
    var j :| 1 <= j < |d| - 1 && d[j] == '.';
    assert d[j] == d[1..|d| - 1][j - 1];
    var dot := at + 1 + j;
    assert s[at] == s[at..at + 1][0];
    assert s[at + 1..dot] == d[..j];
    assert PlainRun(d[..j]) by {
      forall k | 0 <= k < j ensures PlainChar(d[..j][k]) {
        assert d[..j][k] == d[k];
      }
    }
    assert s[dot + 1..] == d[j + 1..];
    assert PlainRun(d[j + 1..]) by {
      var e := d[j + 1..];
      forall k | 0 <= k < |e| ensures PlainChar(e[k]) {
        assert e[k] == d[j + 1 + k];
      }
    }
    assert s[dot] == d[j];
  }

  lemma MatchFindsFirstAt(s: string, at: int)
    requires at == IndexOf(s, "@")
    requires MatchesEmailPattern(s)
    ensures 0 < at && PlainRun(s[..at]) && ValidDomain(s[at + 1..])
  {
    var a, dot :| 0 <= a < dot < |s| && s[a] == '@' && s[dot] == '.'
      && PlainRun(s[..a]) && PlainRun(s[a + 1..dot]) && PlainRun(s[dot + 1..]);
    FirstAtIndex(s, a);
    DomainAfterAt(s, a, dot);
  }

  /** In a match of the pattern, what follows the '@' is a valid domain. */
  lemma DomainAfterAt(s: string, a: int, dot: int)
    requires 0 <= a < dot < |s| && s[dot] == '.'
    requires PlainRun(s[a + 1..dot]) && PlainRun(s[dot + 1..])
    ensures ValidDomain(s[a + 1..])
  {
    var d, j := s[a + 1..], dot - a - 1;
    assert d[j] == s[dot];
    assert d[..j] == s[a + 1..dot];
    assert d[j + 1..] == s[dot + 1..];
    DomainOfMatch(d, j);
  }

  /** An '@' with no '@' before it is the one `indexOf` finds. */
  lemma FirstAtIndex(s: string, a: int)
    requires 0 <= a < |s| && s[a] == '@'
    requires PlainRun(s[..a])
    ensures IndexOf(s, "@") == a
  {
    assert s[a..a + 1] == "@";
    assert OccursAt(s, "@", a);
    forall i | 0 <= i < a ensures !OccursAt(s, "@", i) {
      assert s[i] == s[..a][i];
      assert s[i..i + 1][0] == s[i];
    }
  }

  /** A name, a '.', and a suffix, all plain, make a valid domain. */
  lemma DomainOfMatch(d: string, j: int)
    requires 0 <= j < |d| && d[j] == '.'
    requires PlainRun(d[..j]) && PlainRun(d[j + 1..])
    ensures ValidDomain(d)
  {
    forall k | 0 <= k < |d| ensures PlainChar(d[k]) {
      if k < j {
        assert d[k] == d[..j][k];
      } else if k > j {
        assert d[k] == d[j + 1..][k - j - 1];
      }
    }
    assert d[j] == d[1..|d| - 1][j - 1];
  }

  /** What an accepted address looks like: one '@', no whitespace, a local part, and a dotted domain. */
  lemma EmailAcceptedShape(s: string)
    requires Email(s)
    ensures forall k :: 0 <= k < |s| ==> !IsWhitespace(s[k])
    ensures exists at ::
      && 0 < at < |s| && s[at] == '@'
      && (forall k :: 0 <= k < |s| && k != at ==> s[k] != '@')
      && (exists dot :: at + 1 < dot < |s| - 1 && s[dot] == '.')
  {
    var at, dot :| 0 <= at < dot < |s| && s[at] == '@' && s[dot] == '.'
      && PlainRun(s[..at]) && PlainRun(s[at + 1..dot]) && PlainRun(s[dot + 1..]);
    MatchShape(s, at, dot);
    assert at + 1 < dot < |s| - 1 && s[dot] == '.';
  }

  /** The positions of one match of the pattern: where the '@' and the '.' sit, and what is plain. */
  lemma MatchShape(s: string, at: int, dot: int)
    requires 0 <= at < dot < |s| && s[at] == '@' && s[dot] == '.'
    requires PlainRun(s[..at]) && PlainRun(s[at + 1..dot]) && PlainRun(s[dot + 1..])
    ensures 0 < at && at + 1 < dot < |s| - 1
    ensures forall k :: 0 <= k < |s| ==> !IsWhitespace(s[k])
    ensures forall k :: 0 <= k < |s| && k != at ==> s[k] != '@'
  {
    RunPlain(s, 0, at);
    RunPlain(s, at + 1, dot);
    RunPlain(s, dot + 1, |s|);
  }

  /** Every character of a plain run inside `s` is plain. */
  lemma RunPlain(s: string, i: int, j: int)
    requires 0 <= i <= j <= |s| && PlainRun(s[i..j])
    ensures forall k :: i <= k < j ==> PlainChar(s[k])
  {
    forall k | i <= k < j ensures PlainChar(s[k]) {
      assert s[k] == s[i..j][k - i];
    }
  }

  /** The value handed to `required`: a string, `null`, `undefined`, or anything else. */
  datatype JsValue = Str(s: string) | Null | Undefined | Other

  /**
   * `required`: a string must hold something besides whitespace; any other
   * value only has to be neither `null` nor `undefined`.
   */
  function Required(value: JsValue): (r: bool)
    ensures value.Str? ==> (r <==> exists k :: 0 <= k < |value.s| && !IsWhitespace(value.s[k]))
    ensures value.Null? || value.Undefined? ==> !r
    ensures value.Other? ==> r
  {
    match value
    case Str(s) => TrimEmptyIff(s); |Trim(s)| > 0
    case Null => false
    case Undefined => false
    case Other => true
  }

  /** `minLength`: `value.length`, the number of UTF-16 code units, is at least `min`. */
  function MinLength(value: string, min: int): (r: bool)
    ensures |value| >= min ==> r
    ensures 2 * |value| < min ==> !r
    ensures AllBmp(value) ==> (r <==> |value| >= min)
  {
    |Utf16(value)| >= min
  }

  /** `maxLength`: `value.length`, the number of UTF-16 code units, is at most `max`. */
  function MaxLength(value: string, max: int): (r: bool)
    ensures 2 * |value| <= max ==> r
    ensures |value| > max ==> !r
    ensures AllBmp(value) ==> (r <==> |value| <= max)
  {
    |Utf16(value)| <= max
  }

  /**
   * The two bounds together accept exactly the code-unit lengths between
   * them, so a character outside the Basic Multilingual Plane counts twice.
   */
  lemma LengthBounds(value: string, min: int, max: int)
    ensures MinLength(value, min) && MaxLength(value, max) <==> min <= |Utf16(value)| <= max
    ensures !AllBmp(value) ==> |Utf16(value)| > |value|
  {
  }

  /** An emoji is one character but two code units: `minLength("\u{1F600}", 2)` holds. */
  lemma MinLengthCountsCodeUnits()
    ensures MinLength(['\U{1F600}'], 2)
    ensures !MaxLength(['\U{1F600}'], 1)
  {
    assert !InBmp(['\U{1F600}'][0]);
  }

  /** A JavaScript `Date`: a day number, or an invalid date (time value NaN). */
  datatype JsDate = ValidDate(day: int) | InvalidDate

  /** `isValidDate`: a `Date` whose time value is a number. */
  function IsValidDate(d: JsDate): (r: bool)
    ensures r <==> d != InvalidDate
  {
    d.ValidDate?
  }

  /** `isDateInFuture`, with the current day number as a parameter; NaN compares false. */
  function IsDateInFuture(d: JsDate, now: int): (r: bool)
    ensures r ==> IsValidDate(d)
    ensures IsValidDate(d) ==> (r <==> d.day > now)
  {
    match d
    case ValidDate(day) => day > now
    case InvalidDate => false
  }

  /** `isValidDateRange`: both dates valid and the end not before the start. */
  function IsValidDateRange(startDate: JsDate, endDate: JsDate): (r: bool)
    ensures r ==> IsValidDate(startDate) && IsValidDate(endDate) && startDate.day <= endDate.day
    ensures IsValidDate(startDate) && IsValidDate(endDate) && endDate.day < startDate.day ==> !r
    ensures IsValidDate(startDate) && IsValidDate(endDate) && startDate.day <= endDate.day ==> r
  {
    IsValidDate(startDate) && IsValidDate(endDate) && endDate.day >= startDate.day
  }
}
