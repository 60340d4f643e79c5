/** The two text formatters of the widget: the illumination label (`getIllumiString`)
    and the clock time of the last motion event (`getHourString`). */
module Format {

  import opened Optional
  import opened Decimal

  // ---------------------------------------------------------------------------
  // JavaScript string and number primitives used by the formatters

  /** `s.slice(-k)` for a positive `k`: the last `k` characters, or all of `s` when it is
      shorter. (`slice(-0)` would keep the whole string; the widget only uses `k` = 2.) */
  function SliceLast(s: string, k: nat): (r: string)
    requires k > 0
    ensures |r| == if |s| < k then |s| else k
    ensures r == s[|s| - |r|..]
  {
    if |s| <= k then s else s[|s| - k..]
  }

  /** JavaScript's `a % b` for a positive divisor: the remainder takes the sign of `a`. */
  function JsRem(a: int, b: int): (r: int)
    requires b > 0
    ensures -b < r < b
    ensures a >= 0 ==> r >= 0
    ensures a < 0 ==> r <= 0
  {
    if a >= 0 then a % b else -((-a) % b)
  }

  /** `JsRem` is the remainder of division with the quotient truncated toward zero:
      `a == b * q + r` with `r` smaller than `b` in magnitude and of the sign of `a`. */
  lemma JsRemIsTruncated(a: int, b: int) returns (q: int)
    requires b > 0
    ensures a == b * q + JsRem(a, b)
    ensures -b < JsRem(a, b) < b
    ensures a >= 0 ==> 0 <= JsRem(a, b)
    ensures a < 0 ==> JsRem(a, b) <= 0
  {
    if a >= 0 {
      q := a / b;
      assert JsRem(a, b) == a % b;
    } else {
      var d, m := (-a) / b, (-a) % b;
      assert JsRem(a, b) == -m;
      assert -a == b * d + m && 0 <= m < b;
      assert d >= 0;
      q := -d;
      assert b * q == -(b * d);
    }
  }


  /** `("0" + x).slice(-2)`: the zero padding the widget applies to hours and minutes. */
  function Pad2(x: int): (r: string)
    ensures |r| == 2
  {
    SliceLast("0" + IntToString(x), 2)
  }

  lemma Pad2OneDigit(x: int)
    requires 0 <= x < 10
    ensures Pad2(x) == [Digit((x / 10) % 10), Digit(x % 10)]
  {
    assert x / 10 == 0 && x % 10 == x;
    assert IntToString(x) == [Digit(x)];
    assert "0" + IntToString(x) == [Digit(0), Digit(x)];
  }

  lemma Pad2SeveralDigits(x: int)
    requires x >= 10
    ensures Pad2(x) == [Digit((x / 10) % 10), Digit(x % 10)]
  {
    var hi := NatToString(x / 10);
    var units := Digit(x % 10);
    assert IntToString(x) == hi + [units];
    LastDigit(x / 10);
    var s := "0" + hi + [units];
    assert s[|s| - 2..] == [hi[|hi| - 1], units];
  }

  /** For a non-negative value the padding shows its last two decimal digits. */
  lemma Pad2Digits(x: int)
    requires x >= 0
    ensures Pad2(x) == [Digit((x / 10) % 10), Digit(x % 10)]
  {
    if x < 10 {
      Pad2OneDigit(x);
    } else {
      Pad2SeveralDigits(x);
    }
  }

  /** Reads two decimal digits back into their value. */
  function TwoDigitValue(s: string): (r: Option<int>)
    ensures r.Some? ==> 0 <= r.value <= 99
  {
    if |s| == 2 && IsDigit(s[0]) && IsDigit(s[1]) then Some(10 * DigitValue(s[0]) + DigitValue(s[1]))
    else None
  }

  lemma Pad2ReadsBack(x: int)
    requires 0 <= x <= 99
    ensures TwoDigitValue(Pad2(x)) == Some(x)
  {
    var tens, units := x / 10, x % 10;
    Pad2Digits(x);
    TensBelowHundred(x);
    assert Pad2(x) == [Digit(tens), Digit(units)];
    DigitValueOfDigit(tens);
    DigitValueOfDigit(units);
    assert 10 * tens + units == x;
  }

  // ---------------------------------------------------------------------------
  // Illumination

  /** The four named brightness ranges of the illumination sensor. */
  datatype Brightness = Dark | Dim | Medium | Light

  function Name(b: Brightness): string {
    match b
    case Dark => "Dark"
    case Dim => "Dim"
    case Medium => "Medium"
    case Light => "Light"
  }

  /** The range of each name: up to 50 is dark, up to 127 dim, up to 205 medium, above is light. */
  predicate InRange(b: Brightness, value: int) {
    match b
    case Dark => value <= 50
    case Dim => 50 < value <= 127
    case Medium => 127 < value <= 205
    case Light => 205 < value
  }

  /** The ranges cover every value and do not overlap. */
  lemma RangesPartition(value: int, b1: Brightness, b2: Brightness)
    ensures InRange(Dark, value) || InRange(Dim, value) || InRange(Medium, value) || InRange(Light, value)
    ensures InRange(b1, value) && InRange(b2, value) ==> b1 == b2
  {
  }

  /** `getIllumiString(value)`: the range name, a space, and the value in parentheses. */
  function IllumiString(value: int): (r: string)
    ensures exists b :: InRange(b, value) && r == Name(b) + " (" + IntToString(value) + ")"
  {
    if value <= 50 then
      assert InRange(Dark, value);
      "Dark (" + IntToString(value) + ")"
    else if value > 50 && value <= 127 then
      assert InRange(Dim, value);
      "Dim (" + IntToString(value) + ")"
    else if value > 127 && value <= 205 then
      assert InRange(Medium, value);
      "Medium (" + IntToString(value) + ")"
    else
      assert InRange(Light, value);
      "Light (" + IntToString(value) + ")"
  }

  /** The label is the name of the range holding the value, followed by the value itself. */
  lemma IllumiStringLabel(value: int, b: Brightness)
    requires InRange(b, value)
    ensures IllumiString(value) == Name(b) + " (" + IntToString(value) + ")"
  {
  }

  datatype Reading = Reading(brightness: Brightness, value: int)

  /** Reads `<name> (<value>)` for the given name. */
  function ReadAs(s: string, b: Brightness): (r: Option<int>)
  {
    var prefix := Name(b) + " (";
    if |s| > |prefix| && s[..|prefix|] == prefix && s[|s| - 1] == ')'
    then ParseInt(s[|prefix|..|s| - 1])
    else None
  }

  /** Reads an illumination label back into its range name and value. */
  function ParseReading(s: string): (r: Option<Reading>)
  {
    if ReadAs(s, Dark).Some? then Some(Reading(Dark, ReadAs(s, Dark).value))
    else if ReadAs(s, Dim).Some? then Some(Reading(Dim, ReadAs(s, Dim).value))
    else if ReadAs(s, Medium).Some? then Some(Reading(Medium, ReadAs(s, Medium).value))
    else if ReadAs(s, Light).Some? then Some(Reading(Light, ReadAs(s, Light).value))
    else None
  }

  lemma ReadAsLabel(value: int, b: Brightness)
    ensures ReadAs(Name(b) + " (" + IntToString(value) + ")", b) == Some(value)
  {
    var prefix := Name(b) + " (";
    var s := prefix + IntToString(value) + ")";
    assert s[..|prefix|] == prefix;
    assert s[|prefix|..|s| - 1] == IntToString(value);
    IntRoundTrip(value);
  }

  /** A string that differs from a name at some position does not read as that name. */
  lemma NotReadAs(s: string, b: Brightness, i: nat)
    requires i < |Name(b)| && i < |s| && s[i] != Name(b)[i]
    ensures ReadAs(s, b) == None
  {
  }

  /** An illumination label names exactly the range of the value and shows the value unchanged. */
  lemma IllumiStringReadsBack(value: int, b: Brightness)
    requires InRange(b, value)
    ensures ParseReading(IllumiString(value)) == Some(Reading(b, value))
  {
    var digits := IntToString(value);
    var s := Name(b) + " (" + digits + ")";
    IllumiStringLabel(value, b);
    ReadAsLabel(value, b);
    assert s[0] == Name(b)[0] && s[1] == Name(b)[1];
    if b != Dark {
      NotReadAs(s, Dark, 1);
    }
    if b == Medium || b == Light {
      NotReadAs(s, Dim, 0);
    }
    if b == Light {
      NotReadAs(s, Medium, 0);
    }
  }

  function Rank(b: Brightness): nat {
    match b
    case Dark => 0
    case Dim => 1
    case Medium => 2
    case Light => 3
  }

  /** Brighter values never get a darker name. */
  lemma RangesAreOrdered(v1: int, b1: Brightness, v2: int, b2: Brightness)
    requires InRange(b1, v1) && InRange(b2, v2) && v1 <= v2
    ensures Rank(b1) <= Rank(b2)
  {
  }

  // ---------------------------------------------------------------------------
  // Clock time of the motion event

  const TwelveHour: string := "12h"

  /** The hour `getHourString` shows in the twelve-hour format: `hour % 12`, with 0 shown as 12. */
  function ShownHour(hour: int): (h: int)
    ensures h != 0 && -12 < h <= 12
    ensures hour >= 0 ==> 1 <= h <= 12
  {
    var h := JsRem(hour, 12);
    if h != 0 then h else 12
  }

  /** `getHourString(hour, minute)` under the configured `motionDateHourFormat`. */
  function HourString(format: string, hour: int, minute: int): (r: string)
    ensures |r| == if format == TwelveHour then 10 else 5
  {
    var m := Pad2(minute);
    if format == TwelveHour then
      var ampm := if hour < 12 then "a.m." else "p.m.";
      Pad2(ShownHour(hour)) + ":" + m + " " + ampm
    else
      Pad2(hour) + ":" + m
  }

  /** For any integers the hour and the minute sit in two padded fields around a colon, and
      the twelve-hour form adds a space and a four-character suffix. */
  lemma HourStringShape(format: string, hour: int, minute: int)
    ensures var r := HourString(format, hour, minute);
            r[2] == ':' && r[3..5] == Pad2(minute) &&
            (format == TwelveHour ==> r[..2] == Pad2(ShownHour(hour)) && r[5] == ' ') &&
            (format != TwelveHour ==> r[..2] == Pad2(hour))
  {
    if format == TwelveHour {
      var ampm := if hour < 12 then "a.m." else "p.m.";
      FieldsAt(Pad2(ShownHour(hour)), Pad2(minute), " " + ampm);
    } else {
      FieldsAt(Pad2(hour), Pad2(minute), "");
    }
  }

  lemma FieldsAt(h: string, m: string, rest: string)
    requires |h| == 2 && |m| == 2
    ensures var r := h + ":" + m + rest;
            r[..2] == h && r[2] == ':' && r[3..5] == m && (rest != [] ==> r[5] == rest[0])
  {
  }

  /** For a non-negative hour the twelve-hour format shows 1 to 12, the same hour of the
      half day, with midnight and noon shown as 12. */
  lemma TwelveHourShown(hour: int)
    requires 0 <= hour
    ensures ShownHour(hour) == if hour % 12 == 0 then 12 else hour % 12
    ensures 1 <= ShownHour(hour) <= 12 && ShownHour(hour) % 12 == hour % 12
  {
    var q := JsRemIsTruncated(hour, 12);
    assert JsRem(hour, 12) == hour % 12;
  }

  lemma TwelveHourText(hour: int, minute: int)
    ensures HourString(TwelveHour, hour, minute) ==
            Pad2(ShownHour(hour)) + ":" + Pad2(minute) + " " + (if hour < 12 then "a.m." else "p.m.")
  {
  }

  /** Character by character, the twelve-hour text of a non-negative hour and minute is the
      two digits of the shown hour (1 to 12, so a leading zero below 10), a colon, the last two
      digits of the minute, a space and the suffix. */
  lemma TwelveHourParts(hour: int, minute: int)
    requires 0 <= hour && 0 <= minute
    ensures var shown := ShownHour(hour);
            1 <= shown <= 12 && shown % 12 == hour % 12 &&
            HourString(TwelveHour, hour, minute) ==
              [Digit(shown / 10), Digit(shown % 10), ':', Digit(minute / 10 % 10), Digit(minute % 10), ' '] +
              (if hour < 12 then "a.m." else "p.m.")
  {
    var shown := ShownHour(hour);
    var suffix := if hour < 12 then "a.m." else "p.m.";
    TwelveHourShown(hour);
    TwelveHourText(hour, minute);
    ShownHourDigits(shown);
    Pad2Digits(minute);
    FieldsSpelledOut(Pad2(shown), Pad2(minute), suffix);
  }

  lemma ShownHourDigits(shown: int)
    requires 1 <= shown <= 12
    ensures Pad2(shown) == [Digit(shown / 10), Digit(shown % 10)]
  {
    Pad2Digits(shown);
    TensBelowHundred(shown);
  }

  lemma TensBelowHundred(x: int)
    requires 0 <= x < 100
    ensures x / 10 % 10 == x / 10
  {
    assert 0 <= x / 10 < 10;
  }

  lemma FieldsSpelledOut(h: string, m: string, suffix: string)
    requires |h| == 2 && |m| == 2
    ensures h + ":" + m + " " + suffix == [h[0], h[1], ':', m[0], m[1], ' '] + suffix
  {
  }

  /** The twelve-hour suffix is "a.m." exactly before noon and "p.m." from noon on. */
  lemma TwelveHourSuffix(hour: int, minute: int)
    ensures var r := HourString(TwelveHour, hour, minute);
            (r[6..] == "a.m." <==> hour < 12) && (r[6..] == "p.m." <==> hour >= 12)
  {
    var r := HourString(TwelveHour, hour, minute);
    TwelveHourText(hour, minute);
    assert r[6..] == if hour < 12 then "a.m." else "p.m.";
    assert "a.m."[0] != "p.m."[0];
  }

  /** Reads a time shown by the widget back into a 24-hour hour and a minute. */
  function ParseClock(format: string, s: string): (r: Option<(int, int)>)
  {
    if format == TwelveHour then
      if |s| == 10 && s[2] == ':' && s[5] == ' ' && (s[6..] == "a.m." || s[6..] == "p.m.") &&
         TwoDigitValue(s[..2]).Some? && TwoDigitValue(s[3..5]).Some?
      then
        var shown := TwoDigitValue(s[..2]).value;
        Some((shown % 12 + (if s[6..] == "p.m." then 12 else 0), TwoDigitValue(s[3..5]).value))
      else None
    else if |s| == 5 && s[2] == ':' && TwoDigitValue(s[..2]).Some? && TwoDigitValue(s[3..5]).Some?
    then Some((TwoDigitValue(s[..2]).value, TwoDigitValue(s[3..5]).value))
    else None
  }

  lemma ParseTwentyFourHour(format: string, hh: string, mm: string)
    requires format != TwelveHour
    requires TwoDigitValue(hh).Some? && TwoDigitValue(mm).Some?
    ensures ParseClock(format, hh + ":" + mm) == Some((TwoDigitValue(hh).value, TwoDigitValue(mm).value))
  {
    var s := hh + ":" + mm;
    assert s[..2] == hh && s[3..5] == mm;
  }

  lemma TwentyFourHourReadsBack(format: string, hour: int, minute: int)
    requires format != TwelveHour
    requires 0 <= hour <= 23 && 0 <= minute <= 59
    ensures ParseClock(format, HourString(format, hour, minute)) == Some((hour, minute))
  {
    assert HourString(format, hour, minute) == Pad2(hour) + ":" + Pad2(minute);
    Pad2ReadsBack(hour);
    Pad2ReadsBack(minute);
    ParseTwentyFourHour(format, Pad2(hour), Pad2(minute));
  }

  lemma ParseTwelveHour(hh: string, mm: string, suffix: string)
    requires TwoDigitValue(hh).Some? && TwoDigitValue(mm).Some?
    requires suffix == "a.m." || suffix == "p.m."
    ensures ParseClock(TwelveHour, hh + ":" + mm + " " + suffix) ==
            Some((TwoDigitValue(hh).value % 12 + (if suffix == "p.m." then 12 else 0), TwoDigitValue(mm).value))
  {
    var s := hh + ":" + mm + " " + suffix;
    assert s[..2] == hh && s[3..5] == mm && s[6..] == suffix;
  }

  lemma TwelveHourReadsBack(hour: int, minute: int)
    requires 0 <= hour <= 23 && 0 <= minute <= 59
    ensures ParseClock(TwelveHour, HourString(TwelveHour, hour, minute)) == Some((hour, minute))
  {
    var shown := ShownHour(hour);
    var suffix := if hour < 12 then "a.m." else "p.m.";
    TwelveHourText(hour, minute);
    TwelveHourShown(hour);
    Pad2ReadsBack(shown);
    Pad2ReadsBack(minute);
    ParseTwelveHour(Pad2(shown), Pad2(minute), suffix);
    ShownHourBack(hour);
  }

  lemma ShownHourBack(hour: int)
    requires 0 <= hour <= 23
    ensures var shown := if hour % 12 == 0 then 12 else hour % 12;
            var suffix := if hour < 12 then "a.m." else "p.m.";
            shown % 12 + (if suffix == "p.m." then 12 else 0) == hour
  {
    if hour < 12 {
      assert "a.m." != "p.m." by { assert "a.m."[0] != "p.m."[0]; }
    }
  }

  /** For a time of day, both formats show the hour and the minute without loss. */
  lemma HourStringReadsBack(format: string, hour: int, minute: int)
    requires 0 <= hour <= 23 && 0 <= minute <= 59
    ensures ParseClock(format, HourString(format, hour, minute)) == Some((hour, minute))
  {
    if format == TwelveHour {
      TwelveHourReadsBack(hour, minute);
    } else {
      TwentyFourHourReadsBack(format, hour, minute);
    }
  }
}
