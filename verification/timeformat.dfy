/**
 * `format_time`, which the history section, the history tab and the stats
 * tab each define identically: a millisecond count shown as `H:MM:SS` from
 * one hour on and as `M:SS` below, with Python's floor division.
 */
module TimeFormat {
  import opened Wrappers
  import opened Text

  /** The hours, minutes and seconds of a millisecond count. */
  datatype Clock = Clock(hours: int, minutes: nat, seconds: nat)

  /**
   * The split of the whole seconds in `ms`: minutes and seconds lie in
   * 0..59, the three recombine to the whole seconds, and there are hours
   * exactly from 3600 whole seconds on.
   */
  function Parts(ms: int): (c: Clock)
    ensures c.minutes < 60 && c.seconds < 60
    ensures c.hours * 3600 + c.minutes * 60 + c.seconds == ms / 1000
    ensures c.hours > 0 <==> ms / 1000 >= 3600
    ensures ms >= 0 ==> c.hours >= 0
  {
    var total := ms / 1000;
    Clock(total / 3600, (total % 3600) / 60, total % 60)
  }

  /** `format_time` */
  function FormatTime(ms: int): string
  {
    FormatClock(Parts(ms))
  }

  /** `H:MM:SS` when there are hours, else `M:SS`. */
  function FormatClock(c: Clock): string
  {
    if c.hours > 0 then NatToString(c.hours) + ":" + Pad2(c.minutes) + ":" + Pad2(c.seconds)
    else NatToString(c.minutes) + ":" + Pad2(c.seconds)
  }

  /** Reads an `H:MM:SS` or `M:SS` text back as whole seconds. */
  function ParseTime(s: string): Option<int>
  {
    ParseFields(Split(s, ':'))
  }

  /** Three fields as hours, minutes and seconds; two as minutes and seconds. */
  function ParseFields(parts: seq<string>): Option<int>
  {
    if |parts| == 3 then ParseClock(parts[0], parts[1], parts[2])
    else if |parts| == 2 then ParseMinutes(parts[0], parts[1])
    else None
  }

  /** Hours, minutes and seconds as whole seconds, when all three are digit strings. */
  function ParseClock(h: string, m: string, s: string): Option<int>
  {
    if AllDigits(h) && AllDigits(m) && AllDigits(s) then
      Some(DigitsValue(h) * 3600 + DigitsValue(m) * 60 + DigitsValue(s))
    else None
  }

  /** Minutes and seconds as whole seconds, when both are digit strings. */
  function ParseMinutes(m: string, s: string): Option<int>
  {
    if AllDigits(m) && AllDigits(s) then Some(DigitsValue(m) * 60 + DigitsValue(s)) else None
  }

  /** Digit strings hold no colon. */
  lemma NoColon(s: string)
    requires AllDigits(s)
    ensures ':' !in s
  {
  }

  /** Three digit fields joined by colons split back into the fields. */
  lemma ThreeFields(h: string, m: string, s: string)
    requires AllDigits(h) && AllDigits(m) && AllDigits(s)
    ensures Split(h + ":" + m + ":" + s, ':') == [h, m, s]
  {
    NoColon(h);
    NoColon(m);
    NoColon(s);
    var rest := m + [':'] + s;
    assert h + ":" + m + ":" + s == h + [':'] + rest;
    SplitCons(h, ':', rest);
    SplitTwo(m, ':', s);
    assert [h] + [m, s] == [h, m, s];
  }

  /** Two digit fields joined by a colon split back into the fields. */
  lemma TwoFields(m: string, s: string)
    requires AllDigits(m) && AllDigits(s)
    ensures Split(m + ":" + s, ':') == [m, s]
  {
    NoColon(m);
    NoColon(s);
    SplitTwo(m, ':', s);
  }

  /**
   * The fields of the text: from one hour on, three colon-separated fields
   * (hours unpadded, minutes and seconds two digits each); below, two fields
   * (minutes unpadded, seconds two digits). Each field reads back as its part.
   */
  lemma FormatTimeFields(ms: int)
    ensures var parts := Split(FormatTime(ms), ':');
      var c := Parts(ms);
      if ms / 1000 >= 3600 then
        |parts| == 3 && AllDigits(parts[0]) && AllDigits(parts[1]) && AllDigits(parts[2]) &&
        |parts[1]| == 2 && |parts[2]| == 2 &&
        DigitsValue(parts[0]) == c.hours && DigitsValue(parts[1]) == c.minutes && DigitsValue(parts[2]) == c.seconds
      else
        |parts| == 2 && AllDigits(parts[0]) && AllDigits(parts[1]) && |parts[1]| == 2 &&
        DigitsValue(parts[0]) == c.minutes && DigitsValue(parts[1]) == c.seconds
  {
    var c := Parts(ms);
    var m, s := Pad2(c.minutes), Pad2(c.seconds);
    Pad2RoundTrip(c.minutes);
    Pad2RoundTrip(c.seconds);
    if c.hours > 0 {
      var h := NatToString(c.hours);
      NatToStringRoundTrip(c.hours);
      ThreeFields(h, m, s);
    } else {
      var n := NatToString(c.minutes);
      NatToStringRoundTrip(c.minutes);
      TwoFields(n, s);
    }
  }

  /** Three digit fields read as hours, minutes and seconds. */
  lemma ParseClockValue(h: string, m: string, s: string)
    requires AllDigits(h) && AllDigits(m) && AllDigits(s)
    ensures ParseClock(h, m, s) == Some(DigitsValue(h) * 3600 + DigitsValue(m) * 60 + DigitsValue(s))
  {
  }

  /** Two digit fields read as minutes and seconds. */
  lemma ParseMinutesValue(m: string, s: string)
    requires AllDigits(m) && AllDigits(s)
    ensures ParseMinutes(m, s) == Some(DigitsValue(m) * 60 + DigitsValue(s))
  {
  }

  /** Three digit fields joined by colons read back as hours, minutes and seconds. */
  lemma ParseThreeFields(h: string, m: string, s: string)
    requires AllDigits(h) && AllDigits(m) && AllDigits(s)
    ensures ParseTime(h + ":" + m + ":" + s) == Some(DigitsValue(h) * 3600 + DigitsValue(m) * 60 + DigitsValue(s))
  {
    ParseClockValue(h, m, s);
    var t := h + ":" + m + ":" + s;
    assert ParseTime(t) == ParseFields(Split(t, ':'));
    assert ParseFields([h, m, s]) == ParseClock(h, m, s);
    ThreeFields(h, m, s);
  }

  /** Two digit fields joined by a colon read back as minutes and seconds. */
  lemma ParseTwoFields(m: string, s: string)
    requires AllDigits(m) && AllDigits(s)
    ensures ParseTime(m + ":" + s) == Some(DigitsValue(m) * 60 + DigitsValue(s))
  {
    ParseMinutesValue(m, s);
    var t := m + ":" + s;
    assert ParseTime(t) == ParseFields(Split(t, ':'));
    assert ParseFields([m, s]) == ParseMinutes(m, s);
    TwoFields(m, s);
  }

  /** Fields that read as the given numbers make a text that reads as their whole seconds. */
  lemma ClockText(h: string, m: string, s: string, hours: nat, minutes: nat, seconds: nat)
    requires AllDigits(h) && AllDigits(m) && AllDigits(s)
    requires DigitsValue(h) == hours && DigitsValue(m) == minutes && DigitsValue(s) == seconds
    ensures ParseTime(h + ":" + m + ":" + s) == Some(hours * 3600 + minutes * 60 + seconds)
  {
    ParseThreeFields(h, m, s);
  }

  /** The two-field form of `ClockText`. */
  lemma MinutesText(m: string, s: string, minutes: nat, seconds: nat)
    requires AllDigits(m) && AllDigits(s)
    requires DigitsValue(m) == minutes && DigitsValue(s) == seconds
    ensures ParseTime(m + ":" + s) == Some(minutes * 60 + seconds)
  {
    ParseTwoFields(m, s);
  }

  /** An `H:MM:SS` text reads back as its whole seconds. */
  lemma ClockRoundTrip(hours: nat, minutes: nat, seconds: nat)
    ensures ParseTime(NatToString(hours) + ":" + Pad2(minutes) + ":" + Pad2(seconds)) ==
            Some(hours * 3600 + minutes * 60 + seconds)
  {
    NatToStringRoundTrip(hours);
    Pad2RoundTrip(minutes);
    Pad2RoundTrip(seconds);
    ClockText(NatToString(hours), Pad2(minutes), Pad2(seconds), hours, minutes, seconds);
  }

  /** An `M:SS` text reads back as its whole seconds. */
  lemma MinutesRoundTrip(minutes: nat, seconds: nat)
    ensures ParseTime(NatToString(minutes) + ":" + Pad2(seconds)) == Some(minutes * 60 + seconds)
  {
    NatToStringRoundTrip(minutes);
    Pad2RoundTrip(seconds);
    MinutesText(NatToString(minutes), Pad2(seconds), minutes, seconds);
  }

  /** For a non-negative count the text reads back as its whole seconds. */
  lemma FormatTimeRoundTrip(ms: int)
    requires ms >= 0
    ensures ParseTime(FormatTime(ms)) == Some(ms / 1000)
  {
    var c := Parts(ms);
    if c.hours > 0 {
      ClockRoundTrip(c.hours, c.minutes, c.seconds);
    } else {
      MinutesRoundTrip(c.minutes, c.seconds);
    }
  }

  /** 1 hour, 2 minutes and 3 seconds, and 1 minute and 5 seconds. */
  lemma FormatTimeExamples()
    ensures FormatTime(3723000) == "1:02:03"
    ensures FormatTime(65000) == "1:05"
  {
    assert Parts(3723000) == Clock(1, 2, 3);
    assert Parts(65000) == Clock(0, 1, 5);
  }
}
