/**
 * `timeToSeconds` (controllers/transcoder.js): turns the encoder's progress
 * timemark `HH:MM:SS.cc` into elapsed seconds. The JavaScript result is a
 * double `hours * 3600 + minutes * 60 + seconds + cc / 100`; here it is the
 * exact number of hundredths of a second.
 */
module Timemark {
  import opened Wrappers
  import opened Strings

  /**
   * What `timeToSeconds` produces: a number (in hundredths of a second), `NaN`
   * when a field has no digits, or a thrown `TypeError` when the timemark has
   * fewer than two colons (so `parts[2]` is undefined).
   */
  datatype Seconds = Hundredths(hundredths: int) | NaN | TypeError

  function TimeToSeconds(timemark: string): (r: Seconds)
    ensures r.TypeError? <==> |Split(timemark, ':')| < 3
    ensures r.Hundredths? ==> |Split(Split(timemark, ':')[2], '.')| >= 2
  {
    var parts := Split(timemark, ':');
    if |parts| < 3 then TypeError
    else
      var secondsParts := Split(parts[2], '.');
      var hours := ParseInt(parts[0]);
      var minutes := ParseInt(parts[1]);
      var seconds := ParseInt(secondsParts[0]);
      // parseInt(undefined) is NaN
      var fraction := if |secondsParts| > 1 then ParseInt(secondsParts[1]) else None;
      Sum(hours, minutes, seconds, fraction)
  }

  /** `hours * 3600 + minutes * 60 + seconds + fraction / 100`, where any NaN makes it NaN. */
  function Sum(hours: Option<int>, minutes: Option<int>, seconds: Option<int>, fraction: Option<int>): Seconds
  {
    if hours.None? || minutes.None? || seconds.None? || fraction.None? then NaN
    else Hundredths(hours.value * 360000 + minutes.value * 6000 + seconds.value * 100 + fraction.value)
  }

  /** The fields of a timemark as the encoder reports them. */
  datatype Clock = Clock(hours: nat, minutes: nat, seconds: nat, centis: nat)

  predicate WellFormed(c: Clock)
  {
    c.minutes < 60 && c.seconds < 60 && c.centis < 100
  }

  /** The elapsed time a clock reading denotes, in hundredths of a second. */
  function Value(c: Clock): nat
  {
    ((c.hours * 60 + c.minutes) * 60 + c.seconds) * 100 + c.centis
  }

  /** Lexicographic order on clock readings: earlier fields decide. */
  predicate Before(a: Clock, b: Clock)
  {
    a.hours < b.hours
    || (a.hours == b.hours && a.minutes < b.minutes)
    || (a.hours == b.hours && a.minutes == b.minutes && a.seconds < b.seconds)
    || (a.hours == b.hours && a.minutes == b.minutes && a.seconds == b.seconds && a.centis < b.centis)
  }

  /** A field rendered with at least two digits, as the encoder prints it. */
  function Pad2(n: nat): (s: string)
    ensures 2 <= |s| && AllDigits(s)
  {
    if n < 10 then "0" + Decimal(n) else Decimal(n)
  }

  /** The text `h:m:s.f` of four fields. */
  function Timestamp(h: string, m: string, s: string, f: string): string
  {
    h + [':'] + m + [':'] + (s + ['.'] + f)
  }

  /** The timemark text `HH:MM:SS.cc` of a clock reading. */
  function Render(c: Clock): string
  {
    Timestamp(Pad2(c.hours), Pad2(c.minutes), Pad2(c.seconds), Pad2(c.centis))
  }

  lemma {:induction false} LeadingZero(s: string)
    requires AllDigits(s)
    ensures AllDigits("0" + s) && DigitsValue("0" + s) == DigitsValue(s)
  {
    if s != [] {
      var z := "0" + s;
      assert z[..|z| - 1] == "0" + s[..|s| - 1];
      LeadingZero(s[..|s| - 1]);
    }
  }

  lemma Pad2Value(n: nat)
    ensures DigitsValue(Pad2(n)) == n
  {
    DecimalValue(n);
    if n < 10 {
      LeadingZero(Decimal(n));
    }
  }

  lemma NoSeparatorInDigits(s: string, sep: char)
    requires AllDigits(s) && !IsDigit(sep)
    ensures sep !in s
  {
  }

  /** Three separator-free pieces joined by the separator split back into themselves. */
  lemma SplitThree(a: string, b: string, c: string, sep: char)
    requires sep !in a && sep !in b && sep !in c
    ensures Split(a + [sep] + b + [sep] + c, sep) == [a, b, c]
  {
    assert a + [sep] + b + [sep] + c == a + [sep] + (b + [sep] + c);
    SplitAtSeparator(a, sep, b + [sep] + c);
    SplitAtSeparator(b, sep, c);
    SplitNoSeparator(c, sep);
  }

  /** Two separator-free pieces joined by the separator split back into themselves. */
  lemma SplitTwo(a: string, b: string, sep: char)
    requires sep !in a && sep !in b
    ensures Split(a + [sep] + b, sep) == [a, b]
  {
    SplitAtSeparator(a, sep, b);
    SplitNoSeparator(b, sep);
  }

  /** How `timeToSeconds` reads a timemark whose pieces are known. */
  lemma ReadPieces(t: string, h: string, m: string, last: string, s: string, f: string)
    requires Split(t, ':') == [h, m, last] && Split(last, '.') == [s, f]
    ensures TimeToSeconds(t) == Sum(ParseInt(h), ParseInt(m), ParseInt(s), ParseInt(f))
  {
  }

  /**
   * Any timemark `HH:MM:SS.f` whose fields parse to a, b, c and d reads as
   * a*3600 + b*60 + c seconds plus d HUNDREDTHS: the fraction is read as a whole
   * number, so `f = "5"` adds 0.05 s and `f = "500"` adds 5 s.
   */
  lemma FieldsParse(h: string, m: string, s: string, f: string, a: int, b: int, c: int, d: int)
    requires ':' !in h && ':' !in m && ':' !in s && ':' !in f && '.' !in s && '.' !in f
    requires ParseInt(h) == Some(a) && ParseInt(m) == Some(b) && ParseInt(s) == Some(c) && ParseInt(f) == Some(d)
    ensures TimeToSeconds(Timestamp(h, m, s, f)) == Hundredths(a * 360000 + b * 6000 + c * 100 + d)
  {
    SplitThree(h, m, s + ['.'] + f, ':');
    SplitTwo(s, f, '.');
    ReadPieces(Timestamp(h, m, s, f), h, m, s + ['.'] + f, s, f);
    SumOfNumbers(ParseInt(h), ParseInt(m), ParseInt(s), ParseInt(f), a, b, c, d);
  }

  lemma SumOfNumbers(hours: Option<int>, minutes: Option<int>, seconds: Option<int>, fraction: Option<int>,
                     a: int, b: int, c: int, d: int)
    requires hours == Some(a) && minutes == Some(b) && seconds == Some(c) && fraction == Some(d)
    ensures Sum(hours, minutes, seconds, fraction) == Hundredths(a * 360000 + b * 6000 + c * 100 + d)
  {
  }

  /** A two-digit field parses to its value and holds no separator. */
  lemma Pad2Field(n: nat)
    ensures ParseInt(Pad2(n)) == Some(n)
    ensures ':' !in Pad2(n) && '.' !in Pad2(n)
  {
    ParseIntDigits(Pad2(n));
    Pad2Value(n);
    NoSeparatorInDigits(Pad2(n), ':');
    NoSeparatorInDigits(Pad2(n), '.');
  }

  /** `timeToSeconds` of a rendered clock is exactly the time it denotes. */
  lemma RenderParses(c: Clock)
    ensures TimeToSeconds(Render(c)) == Hundredths(Value(c))
  {
    Pad2Field(c.hours);
    Pad2Field(c.minutes);
    Pad2Field(c.seconds);
    Pad2Field(c.centis);
    ClockFields(c, Pad2(c.hours), Pad2(c.minutes), Pad2(c.seconds), Pad2(c.centis));
  }

  /** Fields that parse to a reading's own fields make a timemark that reads back as its value. */
  lemma ClockFields(c: Clock, h: string, m: string, s: string, f: string)
    requires ':' !in h && ':' !in m && ':' !in s && ':' !in f && '.' !in s && '.' !in f
    requires ParseInt(h) == Some(c.hours) && ParseInt(m) == Some(c.minutes)
    requires ParseInt(s) == Some(c.seconds) && ParseInt(f) == Some(c.centis)
    ensures TimeToSeconds(Timestamp(h, m, s, f)) == Hundredths(Value(c))
  {
    FieldsParse(h, m, s, f, c.hours, c.minutes, c.seconds, c.centis);
    ValueExpanded(c);
  }

  lemma ValueExpanded(c: Clock)
    ensures Value(c) == c.hours * 360000 + c.minutes * 6000 + c.seconds * 100 + c.centis
  {
  }

  lemma MixedRadix(x1: nat, y1: nat, x2: nat, y2: nat, base: nat)
    requires y1 < base && y2 < base
    ensures x1 * base + y1 < x2 * base + y2 <==> x1 < x2 || (x1 == x2 && y1 < y2)
  {
    if x1 < x2 {
      assert x1 * base + y1 < (x1 + 1) * base <= x2 * base;
    } else if x1 > x2 {
      assert x2 * base + y2 < (x2 + 1) * base <= x1 * base;
    }
  }

  /** On well-formed readings, the lexicographic order and the order of values agree. */
  lemma BeforeIffSmaller(a: Clock, b: Clock)
    requires WellFormed(a) && WellFormed(b)
    ensures Before(a, b) <==> Value(a) < Value(b)
  {
    MixedRadix(a.hours, a.minutes, b.hours, b.minutes, 60);
    MixedRadix(a.hours * 60 + a.minutes, a.seconds, b.hours * 60 + b.minutes, b.seconds, 60);
    MixedRadix((a.hours * 60 + a.minutes) * 60 + a.seconds, a.centis,
               (b.hours * 60 + b.minutes) * 60 + b.seconds, b.centis, 100);
  }

  /** `timeToSeconds` is strictly increasing in the timemark, for well-formed timemarks. */
  lemma TimeToSecondsIncreasing(a: Clock, b: Clock)
    requires WellFormed(a) && WellFormed(b) && Before(a, b)
    ensures TimeToSeconds(Render(a)).Hundredths? && TimeToSeconds(Render(b)).Hundredths?
    ensures TimeToSeconds(Render(a)).hundredths < TimeToSeconds(Render(b)).hundredths
  {
    RenderParses(a);
    RenderParses(b);
    BeforeIffSmaller(a, b);
  }

  /** A leading minus sign applies to the hours field only. */
  lemma NegativeHoursOnly()
    ensures TimeToSeconds("-01:00:00.50") == Hundredths(-360000 + 50)
  {
    assert "-01:00:00.50" == Timestamp("-01", "00", "00", "50");
    assert Unsigned("-01") == "01";
    DigitPrefixOfDigits("01", []);
    assert "01" + [] == "01";
    ParseIntDigits("00");
    ParseIntDigits("50");
    FieldsParse("-01", "00", "00", "50", -1, 0, 0, 50);
  }

  /** Without a fractional part the result is NaN, not a whole number of seconds. */
  lemma NoFractionIsNaN()
    ensures TimeToSeconds("00:00:01") == NaN
  {
    assert "00:00:01" == "00" + [':'] + "00" + [':'] + "01";
    SplitThree("00", "00", "01", ':');
    SplitNoSeparator("01", '.');
  }

  /** The fraction is read as hundredths whatever its length: ".5" adds five hundredths, not a half. */
  lemma OneDigitFraction()
    ensures TimeToSeconds("00:00:01.5") == Hundredths(105)
  {
    assert "00:00:01.5" == Timestamp("00", "00", "01", "5");
    ParseIntDigits("00");
    ParseIntDigits("01");
    ParseIntDigits("5");
    FieldsParse("00", "00", "01", "5", 0, 0, 1, 5);
  }
}
