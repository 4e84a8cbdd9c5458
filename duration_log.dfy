/**
  The duration text used when logging composite schedules: a number of seconds written as
  days, hours, minutes and seconds, largest first, leaving out the parts that are zero, each
  part followed by one space. A day count of exactly 1 says "Day"; hours and minutes are always
  written in the plural.
 */
module DurationLog {
  import opened SmartChargingTypes
  import opened Sequences

  /** The character of one decimal digit. */
  function DigitChar(d: nat): (c: char)
    requires d < 10
    ensures '0' <= c <= '9'
    ensures c as int - '0' as int == d
  {
    (('0' as int) + d) as char
  }

  predicate IsDigits(s: string)
  {
    forall i :: 0 <= i < |s| ==> '0' <= s[i] <= '9'
  }

  /** std::to_string of a non-negative number: its decimal digits, most significant first. */
  function DecimalString(n: nat): (s: string)
    ensures |s| >= 1 && IsDigits(s)
    ensures |s| > 1 ==> s[0] != '0'
  {
    if n < 10 then [DigitChar(n)] else DecimalString(n / 10) + [DigitChar(n % 10)]
  }

  /** The number a string of decimal digits denotes. */
  function DecimalValue(s: string): nat
    requires IsDigits(s)
  {
    if s == [] then 0 else DecimalValue(s[..|s| - 1]) * 10 + (s[|s| - 1] as int - '0' as int)
  }

  /** Reading the digits back gives the number: the text is an exact record of the count. */
  lemma {:induction false} DecimalStringRoundTrip(n: nat)
    ensures DecimalValue(DecimalString(n)) == n
  {
    if n >= 10 {
      DecimalStringRoundTrip(n / 10);
      var s := DecimalString(n);
      assert s[..|s| - 1] == DecimalString(n / 10);
    }
  }

  /** The days, hours, minutes and seconds in a duration, as the formatter takes them apart. */
  datatype Parts = Parts(days: int, hours: int, minutes: int, seconds: int)

  /** Whole days first, then whole hours of what is left, then whole minutes of what is left after that. */
  function SplitDuration(duration: int): (p: Parts)
    requires duration >= 0
    ensures p.days * 86400 + p.hours * 3600 + p.minutes * 60 + p.seconds == duration
    ensures 0 <= p.days && 0 <= p.hours < 24 && 0 <= p.minutes < 60 && 0 <= p.seconds < 60
  {
    var afterDays := duration % 86400;
    var afterHours := afterDays % 3600;
    Parts(duration / 86400, afterDays / 3600, afterHours / 60, afterHours % 60)
  }

  /** One part of the text: the count followed by its label, or nothing when the count is zero. */
  function Part(count: int, suffix: string): (s: string)
    requires count >= 0
  {
    if count > 0 then DecimalString(count) + suffix else ""
  }

  /** The label after the day count: singular for exactly one day. */
  function DayLabel(days: int): string
  {
    if days > 1 then " Days " else " Day "
  }

  /** The hours, minutes and seconds of the text, after the days. */
  function BelowADay(p: Parts): string
    requires 0 <= p.hours && 0 <= p.minutes && 0 <= p.seconds
  {
    Part(p.hours, " Hours ") + Part(p.minutes, " Minutes ") + Part(p.seconds, " Seconds ")
  }

  /** The text of the parts: the days, then the hours, minutes and seconds, each left out when zero. */
  function PartsText(p: Parts): string
    requires 0 <= p.days && 0 <= p.hours && 0 <= p.minutes && 0 <= p.seconds
  {
    Part(p.days, DayLabel(p.days)) + BelowADay(p)
  }

  /** The whole text for a duration; anything below one second reads "0 Seconds ". */
  function DurationText(duration: int): string
  {
    if duration < 1 then "0 Seconds " else PartsText(SplitDuration(duration))
  }

  /**
    Taking off whole days, then whole hours, then whole minutes, each only when at least one is
    there, leaves the same counts as SplitDuration: a remainder below the unit is left as it is.
   */
  lemma StepwiseRemainders(duration: int)
    requires duration >= 1
    ensures var p := SplitDuration(duration);
      var r1 := if duration >= 86400 then duration % 86400 else duration;
      var r2 := if r1 >= 3600 then r1 % 3600 else r1;
      var r3 := if r2 >= 60 then r2 % 60 else r2;
      && (duration >= 86400 <==> p.days > 0) && p.days == duration / 86400
      && (r1 >= 3600 <==> p.hours > 0) && p.hours == r1 / 3600
      && (r2 >= 60 <==> p.minutes > 0) && p.minutes == r2 / 60
      && (r3 > 0 <==> p.seconds > 0) && p.seconds == r3
  {
    var r1 := if duration >= 86400 then duration % 86400 else duration;
    assert r1 == duration % 86400;
    var r2 := if r1 >= 3600 then r1 % 3600 else r1;
    assert r2 == r1 % 3600;
    var r3 := if r2 >= 60 then r2 % 60 else r2;
    assert r3 == r2 % 60;
  }

  /**
    get_log_duration_string: takes whole days, hours and minutes off the remaining seconds in
    turn, appending each non-zero count with its label.
   */
  method LogDurationString(duration: int32) returns (logStr: string)
    ensures logStr == DurationText(duration)
  {
    if duration < 1 {
      return "0 Seconds ";
    }
    ghost var p := SplitDuration(duration);
    ghost var d, h, m, s := Part(p.days, DayLabel(p.days)), Part(p.hours, " Hours "),
      Part(p.minutes, " Minutes "), Part(p.seconds, " Seconds ");
    StepwiseRemainders(duration);
    var remaining := duration;
    logStr := "";
    if remaining >= 86400 {
      var days := remaining / 86400;
      remaining := remaining % 86400;
      if days > 1 {
        logStr := logStr + (DecimalString(days) + " Days ");
      } else {
        logStr := logStr + (DecimalString(days) + " Day ");
      }
    }
    assert logStr == d;
    if remaining >= 3600 {
      var hours := remaining / 3600;
      remaining := remaining % 3600;
      logStr := logStr + (DecimalString(hours) + " Hours ");
    }
    assert logStr == d + h;
    if remaining >= 60 {
      var minutes := remaining / 60;
      remaining := remaining % 60;
      logStr := logStr + (DecimalString(minutes) + " Minutes ");
    }
    assert logStr == (d + h) + m;
    if remaining > 0 {
      logStr := logStr + (DecimalString(remaining) + " Seconds ");
    }
    assert logStr == ((d + h) + m) + s;
    ConcatAssociates(d + h, m, s);
    ConcatAssociates(d, h, m + s);
    ConcatAssociates(h, m, s);
  }

  predicate EndsInSpace(s: string)
  {
    |s| > 0 && s[|s| - 1] == ' '
  }

  /** Appending a text that ends in a space, or nothing to one that does, gives a text that ends in a space. */
  lemma AppendEndsInSpace(a: string, b: string)
    requires EndsInSpace(b) || (b == [] && EndsInSpace(a))
    ensures EndsInSpace(a + b)
  {
    if b == [] {
      assert a + b == a;
    } else {
      assert (a + b)[|a + b| - 1] == b[|b| - 1];
    }
  }

  /** A part with a positive count ends in the space its label ends with. */
  lemma PartEndsInSpace(count: int, suffix: string)
    requires count > 0 && EndsInSpace(suffix)
    ensures EndsInSpace(Part(count, suffix))
  {
    AppendEndsInSpace(DecimalString(count), suffix);
  }

  /** Parts not all zero give a text that ends in a space. */
  lemma PartsTextEndsInSpace(p: Parts)
    requires 0 <= p.days && 0 <= p.hours && 0 <= p.minutes && 0 <= p.seconds
    requires p.days > 0 || p.hours > 0 || p.minutes > 0 || p.seconds > 0
    ensures EndsInSpace(PartsText(p))
  {
    var d, h, m, s := Part(p.days, DayLabel(p.days)), Part(p.hours, " Hours "),
      Part(p.minutes, " Minutes "), Part(p.seconds, " Seconds ");
    if p.days > 0 {
      PartEndsInSpace(p.days, DayLabel(p.days));
    }
    if p.hours > 0 {
      PartEndsInSpace(p.hours, " Hours ");
      AppendEndsInSpace(d, h);
    } else {
      if p.days > 0 {
        AppendEndsInSpace(d, h);
      }
    }
    if p.minutes > 0 {
      PartEndsInSpace(p.minutes, " Minutes ");
      AppendEndsInSpace(d + h, m);
    } else if p.days > 0 || p.hours > 0 {
      AppendEndsInSpace(d + h, m);
    }
    if p.seconds > 0 {
      PartEndsInSpace(p.seconds, " Seconds ");
    }
    AppendEndsInSpace((d + h) + m, s);
    ConcatAssociates(d + h, m, s);
    ConcatAssociates(d, h, m + s);
    ConcatAssociates(h, m, s);
  }

  /** The text is never empty and always ends in a space. */
  lemma DurationTextEndsInSpace(duration: int)
    ensures |DurationText(duration)| > 0
    ensures DurationText(duration)[|DurationText(duration)| - 1] == ' '
  {
    if duration >= 1 {
      PartsTextEndsInSpace(SplitDuration(duration));
    }
  }

  /** A duration of a day or more starts with its day count and the day label. */
  lemma DaysComeFirst(duration: int)
    requires duration >= 86400
    ensures DecimalString(duration / 86400) + DayLabel(duration / 86400) <= DurationText(duration)
  {
    var p := SplitDuration(duration);
    assert p.days == duration / 86400 > 0;
    assert PartsText(p) == (DecimalString(p.days) + DayLabel(p.days)) + BelowADay(p);
  }

  /** A duration of one to two days starts with the singular "1 Day "; from two days on, the day count is followed by " Days ". */
  lemma DayLabelFollowsCount(duration: int)
    requires duration >= 86400
    ensures duration < 2 * 86400 ==> "1 Day " <= DurationText(duration)
    ensures duration >= 2 * 86400 ==> DecimalString(duration / 86400) + " Days " <= DurationText(duration)
  {
    DaysComeFirst(duration);
    if duration < 2 * 86400 {
      assert duration / 86400 == 1;
      assert DecimalString(1) == "1";
    } else {
      assert duration / 86400 >= 2;
    }
  }

  /**
    Unlike the day count, a count of one hour or one minute keeps the plural label: right after
    the days, one hour reads "1 Hours ", and right after the hours, one minute reads "1 Minutes ".
   */
  lemma HoursAndMinutesStayPlural(duration: int)
    requires duration >= 1
    ensures var p := SplitDuration(duration);
      p.hours == 1 ==> Part(p.days, DayLabel(p.days)) + "1 Hours " <= DurationText(duration)
    ensures var p := SplitDuration(duration);
      p.minutes == 1 ==>
        Part(p.days, DayLabel(p.days)) + Part(p.hours, " Hours ") + "1 Minutes " <= DurationText(duration)
  {
    var p := SplitDuration(duration);
    var d, h, m, s := Part(p.days, DayLabel(p.days)), Part(p.hours, " Hours "),
      Part(p.minutes, " Minutes "), Part(p.seconds, " Seconds ");
    assert DecimalString(1) == "1";
    assert DurationText(duration) == d + ((h + m) + s);
    ConcatAssociates(h, m, s);
    ConcatAssociates(d, h, m + s);
    ConcatAssociates(d + h, m, s);
    if p.hours == 1 {
      assert h == "1 Hours ";
    }
    if p.minutes == 1 {
      assert m == "1 Minutes ";
    }
  }
}
