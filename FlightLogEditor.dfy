/**
 * The flight-log editor (client/src/components/flight-log-manager.tsx):
 * the 12-hour / 24-hour time conversions behind the time inputs, the
 * flight-hours calculation, the free-form time completion, and the
 * handlers that edit the leg list and the crew roster.
 */
module FlightLogEditor {
  import opened Common

  // ---------------------------------------------------------------------
  // convertTo24Hour (flight-log-manager.tsx:159-176).

  /** What /(\d{1,2}):(\d{2})\s*(AM|PM)/i captures: the hour digits, the
      minute digits, and whether the period is PM. */
  datatype ClockMatch = ClockMatch(hours: string, minutes: string, pm: bool)

  predicate AllDigits(s: string)
  {
    forall i :: 0 <= i < |s| ==> IsDigit(s[i])
  }

  /** The end of the run of whitespace (`\s*`) that starts at `j`. */
  function SkipSpaces(s: string, j: nat): (k: nat)
    requires j <= |s|
    ensures j <= k <= |s|
    ensures forall t :: j <= t < k ==> IsJsWhitespace(s[t])
    ensures k == |s| || !IsJsWhitespace(s[k])
    decreases |s| - j
  {
    if j < |s| && IsJsWhitespace(s[j]) then SkipSpaces(s, j + 1) else j
  }

  predicate IsPeriodAt(s: string, k: nat)
  {
    k + 2 <= |s| && s[k] in "AaPp" && s[k + 1] in "Mm"
  }

  /** The regular expression tried at position `i`. `\d{1,2}` takes two
      digits when there are two: backing off to one would need a colon
      where the second digit is. */
  function MatchAt(s: string, i: nat): (r: Option<ClockMatch>)
    requires i <= |s|
    ensures r.Some? ==> 1 <= |r.value.hours| <= 2 && AllDigits(r.value.hours)
                        && |r.value.minutes| == 2 && AllDigits(r.value.minutes)
  {
    if i < |s| && IsDigit(s[i]) then
      var c := if i + 1 < |s| && IsDigit(s[i + 1]) then i + 2 else i + 1;
      if c + 3 <= |s| && s[c] == ':' && IsDigit(s[c + 1]) && IsDigit(s[c + 2]) then
        var k := SkipSpaces(s, c + 3);
        if IsPeriodAt(s, k) then Some(ClockMatch(s[i..c], s[c + 1..c + 3], s[k] in "Pp"))
        else None
      else None
    else None
  }

  /** String.prototype.match: the leftmost position where the expression
      matches. */
  function FirstMatch(s: string, i: nat): (r: Option<ClockMatch>)
    requires i <= |s|
    ensures r.Some? ==> 1 <= |r.value.hours| <= 2 && AllDigits(r.value.hours)
                        && |r.value.minutes| == 2 && AllDigits(r.value.minutes)
    ensures r.None? ==> forall j :: i <= j <= |s| ==> MatchAt(s, j).None?
    decreases |s| - i
  {
    if MatchAt(s, i).Some? then MatchAt(s, i)
    else if i == |s| then None
    else FirstMatch(s, i + 1)
  }

  /** The 12-hour clock read on a 24-hour clock: 12 AM is hour 0, a PM hour
      other than 12 gains 12, any other hour stays. */
  function Hour24(hours: nat, pm: bool): nat
  {
    if !pm && hours == 12 then 0 else if pm && hours != 12 then hours + 12 else hours
  }

  function ConvertTo24Hour(time12: string): (r: string)
    ensures time12 == "" ==> r == ""
    ensures time12 != "" && FirstMatch(time12, 0).None? ==> r == time12
    ensures time12 != "" ==> r != ""
  {
    if time12 == "" then ""
    else
      match FirstMatch(time12, 0)
      case None => time12
      case Some(m) => Pad2(NatToString(Hour24(DigitsValue(m.hours), m.pm))) + ":" + m.minutes
  }

  // ---------------------------------------------------------------------
  // The 24-hour to 12-hour conversion of the time inputs
  // (flight-log-manager.tsx:943-955).

  /** The hour on a 12-hour clock face. */
  function Hour12(hour24: nat): nat
  {
    if hour24 == 0 then 12 else if hour24 > 12 then hour24 - 12 else hour24
  }

  /** `${hour12}:${minutes} ${period}` */
  function Format12(hour12: nat, minutes: string, pm: bool): string
  {
    NatToString(hour12) + ":" + minutes + " " + (if pm then "PM" else "AM")
  }

  /** The value an <input type="time"> delivers: "HH:MM" on a 24-hour
      clock. */
  predicate IsTime24(t: string)
  {
    |t| == 5 && AllDigits(t[..2]) && t[2] == ':' && AllDigits(t[3..])
    && DigitsValue(t[..2]) < 24 && DigitsValue(t[3..]) < 60
  }

  /** The onChange handler of the departure and arrival time inputs: the
      split at ':' gives the hour and the minutes. */
  function TimeInputChange(time24: string): (r: string)
    requires time24 == "" || IsTime24(time24)
    ensures time24 == "" <==> r == ""
  {
    if time24 == "" then ""
    else
      var hour24 := DigitsValue(time24[..2]);
      Format12(Hour12(hour24), time24[3..], hour24 >= 12)
  }

  /** Reading a 12-hour face back on the 24-hour clock gives the hour. */
  lemma Hour12RoundTrip(hour24: nat)
    requires hour24 < 24
    ensures 1 <= Hour12(hour24) <= 12
    ensures Hour24(Hour12(hour24), hour24 >= 12) == hour24
  {
  }

  /** A two-digit hour is rendered back exactly by padStart(2, '0'). */
  lemma Pad2OfTwoDigits(hh: string)
    requires |hh| == 2 && AllDigits(hh)
    ensures Pad2(NatToString(DigitsValue(hh))) == hh
  {
    var v := DigitsValue(hh);
    assert hh[..1] == [hh[0]];
    assert DigitsValue(hh[..1]) == DigitValue(hh[0]);
    assert v == DigitValue(hh[0]) * 10 + DigitValue(hh[1]);
    if v >= 10 {
      assert NatToString(v) == NatToString(v / 10) + [DigitChar(v % 10)];
    }
  }

  /** The formatted time is found by the expression at its first
      character, with the hour, minutes and period it was built from. */
  lemma {:induction false} MatchFormat12(hour12: nat, minutes: string, pm: bool)
    requires 1 <= hour12 <= 99 && |minutes| == 2 && AllDigits(minutes)
    ensures FirstMatch(Format12(hour12, minutes, pm), 0) == Some(ClockMatch(NatToString(hour12), minutes, pm))
  {
    var s := Format12(hour12, minutes, pm);
    var c := |NatToString(hour12)|;
    Format12Layout(hour12, minutes, pm);
    assert SkipSpaces(s, c + 4) == c + 4;
    assert SkipSpaces(s, c + 3) == c + 4;
    assert MatchAt(s, 0) == Some(ClockMatch(s[0..c], s[c + 1..c + 3], s[c + 4] in "Pp"));
  }

  /** Where each part of the formatted time sits. */
  lemma Format12Layout(hour12: nat, minutes: string, pm: bool)
    requires 1 <= hour12 <= 99 && |minutes| == 2 && AllDigits(minutes)
    ensures var s := Format12(hour12, minutes, pm);
            var h := NatToString(hour12);
            && (|h| == 1 || |h| == 2) && |s| == |h| + 6
            && s[..|h|] == h && IsDigit(s[0]) && (|h| == 2 ==> IsDigit(s[1]))
            && s[|h|] == ':' && s[|h| + 1..|h| + 3] == minutes
            && IsDigit(s[|h| + 1]) && IsDigit(s[|h| + 2])
            && s[|h| + 3] == ' ' && !IsJsWhitespace(s[|h| + 4])
            && IsPeriodAt(s, |h| + 4) && (s[|h| + 4] in "Pp" <==> pm)
  {
    var s := Format12(hour12, minutes, pm);
    var h := NatToString(hour12);
    assert |h| == 1 || |h| == 2 by {
      if hour12 >= 10 { assert NatToString(hour12) == NatToString(hour12 / 10) + [DigitChar(hour12 % 10)]; }
    }
    var c := |h|;
    assert s[..c] == h;
    assert s[c] == ':' && s[c + 1..c + 3] == minutes;
    assert s[c + 1] == minutes[0] && s[c + 2] == minutes[1];
    assert s[c + 3] == ' ';
  }

  lemma ConvertFormat12(hour12: nat, minutes: string, pm: bool)
    requires 1 <= hour12 <= 99 && |minutes| == 2 && AllDigits(minutes)
    ensures ConvertTo24Hour(Format12(hour12, minutes, pm)) == Pad2(NatToString(Hour24(hour12, pm))) + ":" + minutes
  {
    MatchFormat12(hour12, minutes, pm);
    DigitsOfNatToString(hour12);
  }

  /** Round trip: a 24-hour time shown on the 12-hour face and read back
      by convertTo24Hour is the time the input delivered. */
  lemma TimeInputRoundTrip(time24: string)
    requires IsTime24(time24)
    ensures ConvertTo24Hour(TimeInputChange(time24)) == time24
  {
    var hour24 := DigitsValue(time24[..2]);
    Hour12RoundTrip(hour24);
    ConvertFormat12(Hour12(hour24), time24[3..], hour24 >= 12);
    Pad2OfTwoDigits(time24[..2]);
    assert time24 == time24[..2] + ":" + time24[3..];
  }

  // ---------------------------------------------------------------------
  // calculateFlightHours (flight-log-manager.tsx:178-197).

  const MinutesPerDay: int := 24 * 60

  /** The minutes since midnight of `new Date("2000-01-01T" + t + ":00")`,
      or None where the date is invalid: only "HH:mm" is a date-time form,
      with hours 00 to 24 and minutes 00 to 59, and 24 only as "24:00"
      (the end of the day). */
  function ClockMinutes(t: string): (r: Option<int>)
    ensures r.Some? ==> 0 <= r.value <= MinutesPerDay
  {
    if |t| == 5 && AllDigits(t[..2]) && t[2] == ':' && AllDigits(t[3..]) then
      var h := DigitsValue(t[..2]);
      var m := DigitsValue(t[3..]);
      if m < 60 && (h < 24 || (h == 24 && m == 0)) then Some(h * 60 + m) else None
    else None
  }

  /** A minute difference taken forward around the 24-hour clock, in hours. */
  function ForwardHours(diff: int): real
  {
    (diff % MinutesPerDay) as real / 60.0
  }

  /** `r` hours is a span from minute `d` to minute `a` on the 24-hour
      clock: between 0 and 24, and the forward difference, below 24,
      whenever the arrival is before 24:00. */
  predicate ForwardSpan(r: real, d: int, a: int)
  {
    0.0 <= r <= 24.0 && (a < MinutesPerDay ==> r < 24.0 && r == ForwardHours(a - d))
  }

  /** The hours from `d` to `a` (minutes since midnight), adding a day
      when the arrival is earlier. */
  function Elapsed(d: int, a: int): real
  {
    var diff := a - d;
    (if diff < 0 then diff + MinutesPerDay else diff) as real / 60.0
  }

  /** The forward distance around a 24-hour clock: in [0, 24), 0 for equal
      times; only an arrival at 24:00 reaches 24. */
  lemma ElapsedSpec(d: int, a: int)
    requires 0 <= d <= MinutesPerDay && 0 <= a <= MinutesPerDay
    ensures ForwardSpan(Elapsed(d, a), d, a)
    ensures d == a ==> Elapsed(d, a) == 0.0
  {
    var diff := a - d;
    if a < MinutesPerDay {
      if diff < 0 {
        assert (a - d) % MinutesPerDay == diff + MinutesPerDay;
      } else {
        assert (a - d) % MinutesPerDay == diff;
      }
    }
  }

  /** The leg's hours, with None for NaN (a time that is not a valid date
      after conversion). */
  function CalculateFlightHours(depTime: string, arrTime: string): Option<real>
  {
    if depTime == "" || arrTime == "" then Some(0.0)
    else
      var dep24 := ConvertTo24Hour(depTime);
      var arr24 := ConvertTo24Hour(arrTime);
      if dep24 == "" || arr24 == "" then Some(0.0)
      else
        var d := ClockMinutes(dep24);
        var a := ClockMinutes(arr24);
        if d.None? || a.None? then None else Some(Elapsed(d.value, a.value))
  }

  /** Empty times give 0; otherwise the result is NaN exactly when a
      converted time is not a clock time, and is the forward distance from
      departure to arrival around a 24-hour clock: in [0, 24), with equal
      times giving 0. Only an arrival written "24:00" reaches 24. */
  lemma CalculateFlightHoursSpec(depTime: string, arrTime: string)
    ensures depTime == "" || arrTime == "" ==> CalculateFlightHours(depTime, arrTime) == Some(0.0)
    ensures depTime != "" && arrTime != "" ==>
              (CalculateFlightHours(depTime, arrTime).None? <==>
                 ClockMinutes(ConvertTo24Hour(depTime)).None? || ClockMinutes(ConvertTo24Hour(arrTime)).None?)
    ensures depTime != "" && arrTime != "" && CalculateFlightHours(depTime, arrTime).Some? ==>
              var d := ClockMinutes(ConvertTo24Hour(depTime)).value;
              var a := ClockMinutes(ConvertTo24Hour(arrTime)).value;
              var r := CalculateFlightHours(depTime, arrTime).value;
              ForwardSpan(r, d, a) && (depTime == arrTime ==> r == 0.0)
  {
    if depTime != "" && arrTime != "" {
      CalculateFlightHoursUnfold(depTime, arrTime);
      var d := ClockMinutes(ConvertTo24Hour(depTime));
      var a := ClockMinutes(ConvertTo24Hour(arrTime));
      if d.Some? && a.Some? {
        ElapsedAt(depTime, arrTime, d.value, a.value);
      }
    }
  }

  lemma CalculateFlightHoursUnfold(depTime: string, arrTime: string)
    requires depTime != "" && arrTime != ""
    ensures var d := ClockMinutes(ConvertTo24Hour(depTime));
            var a := ClockMinutes(ConvertTo24Hour(arrTime));
            CalculateFlightHours(depTime, arrTime)
              == if d.None? || a.None? then None else Some(Elapsed(d.value, a.value))
  {
  }

  lemma ElapsedAt(depTime: string, arrTime: string, d: int, a: int)
    requires depTime != "" && arrTime != ""
    requires ClockMinutes(ConvertTo24Hour(depTime)) == Some(d)
    requires ClockMinutes(ConvertTo24Hour(arrTime)) == Some(a)
    ensures CalculateFlightHours(depTime, arrTime).Some?
    ensures var r := CalculateFlightHours(depTime, arrTime).value;
            ForwardSpan(r, d, a) && (depTime == arrTime ==> r == 0.0)
  {
    CalculateFlightHoursUnfold(depTime, arrTime);
    ElapsedSpec(d, a);
  }

  lemma TenPmFace()
    ensures Format12(10, "00", true) == "10:00 PM"
  {
    assert NatToString(10) == "10" by {
      assert NatToString(10) == NatToString(1) + [DigitChar(0)];
    }
  }

  lemma TwentyTwo()
    ensures Pad2(NatToString(Hour24(10, true))) + ":" + "00" == "22:00"
  {
    assert NatToString(22) == "22" by {
      assert NatToString(22) == NatToString(2) + [DigitChar(2)];
    }
  }

  lemma TenPm()
    ensures ConvertTo24Hour("10:00 PM") == "22:00"
  {
    TenPmFace();
    TwentyTwo();
    ConvertFormat12(10, "00", true);
  }

  lemma TwoAmFace()
    ensures Format12(2, "00", false) == "2:00 AM"
  {
    assert NatToString(2) == "2";
  }

  lemma ZeroTwo()
    ensures Pad2(NatToString(Hour24(2, false))) + ":" + "00" == "02:00"
  {
    assert NatToString(2) == "2";
  }

  lemma TwoAm()
    ensures ConvertTo24Hour("2:00 AM") == "02:00"
  {
    TwoAmFace();
    ZeroTwo();
    ConvertFormat12(2, "00", false);
  }

  /** Digits without a colon and a period are not a 12-hour time: they are
      passed on unchanged. */
  lemma MilitaryUnconverted()
    ensures ConvertTo24Hour("1720") == "1720"
  {
    var s := "1720";
    assert MatchAt(s, 0).None? && MatchAt(s, 1).None? && MatchAt(s, 2).None?;
    assert MatchAt(s, 3).None? && MatchAt(s, 4).None?;
  }

  lemma ClockExamples()
    ensures ClockMinutes("22:00") == Some(1320)
    ensures ClockMinutes("02:00") == Some(120)
    ensures ClockMinutes("1720").None?
  {
    assert "22:00"[..2] == "22" && "22:00"[3..] == "00";
    assert "02:00"[..2] == "02" && "02:00"[3..] == "00";
    assert DigitsValue("22") == 22 && DigitsValue("02") == 2 && DigitsValue("00") == 0 by {
      assert "22"[..1] == "2" && "02"[..1] == "0" && "00"[..1] == "0";
    }
  }

  /** A flight from 10:00 PM to 2:00 AM crosses midnight and lasts 4 hours;
      a time written without a colon and period is NaN. */
  lemma CrossMidnightExample()
    ensures CalculateFlightHours("10:00 PM", "2:00 AM") == Some(4.0)
    ensures CalculateFlightHours("1720", "10:00 PM").None?
  {
    TenPm();
    TwoAm();
    MilitaryUnconverted();
    ClockExamples();
    CalculateFlightHoursUnfold("10:00 PM", "2:00 AM");
    CalculateFlightHoursUnfold("1720", "10:00 PM");
    assert Elapsed(1320, 120) == 4.0;
  }

  // ---------------------------------------------------------------------
  // parseTimeInput (flight-log-manager.tsx:456-484).

  /** input.replace(/\s/g, '').toUpperCase() */
  function Normalized(input: string): string
  {
    Upper(Filter(input, (c: char) => !IsJsWhitespace(c)))
  }

  /** What /^(\d{1,2}):?(\d{2})?$/ captures: the hour digits and the
      minutes, "00" when absent. A run of three digits is one hour digit and
      two minute digits (backing off from two hour digits). */
  function SplitMilitary(t: string): (r: Option<(string, string)>)
    ensures r.Some? ==> 1 <= |r.value.0| <= 2 && AllDigits(r.value.0)
                        && |r.value.1| == 2 && AllDigits(r.value.1)
  {
    if 1 <= |t| <= 2 && AllDigits(t) then Some((t, "00"))
    else if |t| == 3 && AllDigits(t) then Some((t[..1], t[1..]))
    else if |t| == 4 && AllDigits(t) then Some((t[..2], t[2..]))
    else if 2 <= |t| <= 3 && t[|t| - 1] == ':' && AllDigits(t[..|t| - 1]) then Some((t[..|t| - 1], "00"))
    else if 4 <= |t| <= 5 && t[|t| - 3] == ':' && AllDigits(t[..|t| - 3]) && AllDigits(t[|t| - 2..]) then
      Some((t[..|t| - 3], t[|t| - 2..]))
    else None
  }

  /** Completes a typed time with its period, reading it as military time.
      Hours above 23 are not rejected. */
  function ParseTimeInput(input: string): string
  {
    if input == "" then ""
    else
      var time := Normalized(input);
      if Contains(time, "AM") || Contains(time, "PM") then time
      else
        match SplitMilitary(time)
        case None => input
        case Some((h, minutes)) =>
          var hours := DigitsValue(h);
          if hours == 0 then Format12(12, minutes, false)
          else if hours < 12 then Format12(hours, minutes, false)
          else if hours == 12 then Format12(12, minutes, true)
          else Format12(hours - 12, minutes, true)
  }

  lemma NoPeriodInDigits(t: string)
    requires forall i :: 0 <= i < |t| ==> IsDigit(t[i]) || t[i] == ':'
    ensures !Contains(t, "AM") && !Contains(t, "PM")
  {
    forall i | 0 <= i <= |t| - 2
      ensures !ContainsAt(t, "AM", i) && !ContainsAt(t, "PM", i)
    {
      assert t[i..i + 2][0] == t[i];
    }
  }

  lemma SplitMilitaryChars(t: string)
    requires SplitMilitary(t).Some?
    ensures forall i :: 0 <= i < |t| ==> IsDigit(t[i]) || t[i] == ':'
  {
    if 4 <= |t| <= 5 && !AllDigits(t) && t[|t| - 3] == ':' {
      forall i | 0 <= i < |t|
        ensures IsDigit(t[i]) || t[i] == ':'
      {
        if i < |t| - 3 { assert t[i] == t[..|t| - 3][i]; }
        else if i > |t| - 3 { assert t[i] == t[|t| - 2..][i - (|t| - 2)]; }
      }
    } else if 2 <= |t| <= 3 && !AllDigits(t) {
      forall i | 0 <= i < |t|
        ensures IsDigit(t[i]) || t[i] == ':'
      {
        if i < |t| - 1 { assert t[i] == t[..|t| - 1][i]; }
      }
    }
  }

  /** The completed time of a military input with hours 00 to 23 is read
      back by convertTo24Hour as those hours (two digits) and minutes. */
  lemma {:induction false} MilitaryRoundTrip(input: string)
    requires input != ""
    requires SplitMilitary(Normalized(input)).Some?
    requires DigitsValue(SplitMilitary(Normalized(input)).value.0) < 24
    ensures var (h, minutes) := SplitMilitary(Normalized(input)).value;
            ConvertTo24Hour(ParseTimeInput(input)) == Pad2(NatToString(DigitsValue(h))) + ":" + minutes
  {
    var time := Normalized(input);
    SplitMilitaryChars(time);
    NoPeriodInDigits(time);
    var (h, minutes) := SplitMilitary(time).value;
    var hours := DigitsValue(h);
    Hour12RoundTrip(hours);
    ConvertFormat12(Hour12(hours), minutes, hours >= 12);
  }

  lemma NormalizedTwentyFive()
    ensures Normalized("25") == "25"
  {
    assert Filter("25", (c: char) => !IsJsWhitespace(c)) == "25";
  }

  lemma SplitTwentyFive()
    ensures SplitMilitary("25") == Some(("25", "00"))
    ensures DigitsValue("25") == 25
  {
    assert DigitsValue("25") == 25 by { assert "25"[..1] == "2"; }
  }

  lemma ThirteenPmFace()
    ensures Format12(13, "00", true) == "13:00 PM"
  {
    assert NatToString(13) == "13" by {
      assert NatToString(13) == NatToString(1) + [DigitChar(3)];
    }
  }

  lemma ParseTwentyFive()
    ensures ParseTimeInput("25") == "13:00 PM"
  {
    NormalizedTwentyFive();
    NoPeriodInDigits("25");
    SplitTwentyFive();
    ThirteenPmFace();
  }

  lemma TwentyFive()
    ensures Pad2(NatToString(Hour24(13, true))) + ":" + "00" == "25:00"
  {
    assert NatToString(25) == "25" by {
      assert NatToString(25) == NatToString(2) + [DigitChar(5)];
    }
  }

  lemma ConvertThirteenPm()
    ensures ConvertTo24Hour("13:00 PM") == "25:00"
  {
    ThirteenPmFace();
    TwentyFive();
    ConvertFormat12(13, "00", true);
  }

  /** Hours above 23 are completed all the same, into a time that
      convertTo24Hour turns into an hour past 23. */
  lemma LateHourNotRejected()
    ensures ConvertTo24Hour(ParseTimeInput("25")) == "25:00"
  {
    ParseTwentyFive();
    ConvertThirteenPm();
  }

  lemma TwentyFiveUnconverted()
    ensures ConvertTo24Hour("25") == "25"
  {
    assert MatchAt("25", 0).None? && MatchAt("25", 1).None? && MatchAt("25", 2).None?;
  }

  /** Typed without completion, such an hour is no clock time for
      calculateFlightHours. */
  lemma LateHourIsNaN()
    ensures CalculateFlightHours("25", "10:00 PM").None?
  {
    TwentyFiveUnconverted();
    TenPm();
  }

  // ---------------------------------------------------------------------
  // The leg list (flight-log-manager.tsx:23-36, 224-342).

  /** A leg as the list shows it; `flightHours` is copied from the saved
      row, so it is None when the server stored a null hour count. */
  datatype Leg = Leg(
    id: string, legNumber: int, departure: string, arrival: string,
    departureTime: string, arrivalTime: string, flightHours: Option<real>, distanceNm: real,
    tailNumber: string, remarks: string, pax: int, cargo: real)

  /** The form state of the leg being added. */
  datatype NewLeg = NewLeg(
    departure: string, arrival: string, departureTime: string, arrivalTime: string,
    flightHours: real, distanceNm: real, tailNumber: string, remarks: string, pax: int, cargo: real)

  const EmptyNewLeg := NewLeg("", "", "", "", 0.0, 0.0, "", "", 0, 0.0)

  /** The body POSTed to /api/missions/:id/legs; a NaN hour count travels
      as null (None). */
  datatype LegRequest = LegRequest(
    departureIcao: string, arrivalIcao: string, departureTime: string, arrivalTime: string,
    flightHours: Option<real>, distanceNm: real, tailNumber: string, specialHandling: string,
    pax: int, cargoWeight: real)

  /** The leg row the server answers with; the hour column is nullable, so
      a NaN sent as null comes back as None. */
  datatype SavedLeg = SavedLeg(
    id: int, departureIcao: string, arrivalIcao: string, departureTime: string, arrivalTime: string,
    flightHours: Option<real>, distanceNm: Option<real>, tailNumber: Option<string>,
    specialHandling: Option<string>, pax: Option<int>, cargoWeight: Option<real>)

  predicate HasRequiredFields(n: NewLeg)
  {
    n.departure != "" && n.arrival != "" && n.departureTime != "" && n.arrivalTime != ""
  }

  function RequestFor(n: NewLeg): LegRequest
  {
    LegRequest(n.departure, n.arrival, n.departureTime, n.arrivalTime,
      CalculateFlightHours(n.departureTime, n.arrivalTime), n.distanceNm, n.tailNumber,
      n.remarks, n.pax, n.cargo)
  }

  /** The saved row in the client's shape, numbered after the legs already
      shown. */
  function ClientLeg(saved: SavedLeg, legNumber: int): Leg
  {
    Leg(IntToString(saved.id), legNumber, saved.departureIcao, saved.arrivalIcao,
      saved.departureTime, saved.arrivalTime, saved.flightHours, OrZero(saved.distanceNm),
      OrText(saved.tailNumber, ""), OrText(saved.specialHandling, ""),
      OrZeroInt(saved.pax), OrZero(saved.cargoWeight))
  }

  /** Legs numbered 1, 2, ... in list order. */
  predicate Numbered(legs: seq<Leg>)
  {
    forall i :: 0 <= i < |legs| ==> legs[i].legNumber == i + 1
  }

  /** .map((leg, index) => ({ ...leg, legNumber: index + 1 })) */
  function Renumbered(legs: seq<Leg>): (r: seq<Leg>)
    ensures |r| == |legs| && Numbered(r)
    ensures forall i :: 0 <= i < |legs| ==> r[i] == legs[i].(legNumber := i + 1)
  {
    seq(|legs|, i requires 0 <= i < |legs| => legs[i].(legNumber := i + 1))
  }

  function WithoutLeg(legs: seq<Leg>, legId: string): seq<Leg>
  {
    Filter(legs, (l: Leg) => l.id != legId)
  }

  /** The list after a successful delete of `legId`. */
  function RemovedLeg(legs: seq<Leg>, legId: string): seq<Leg>
  {
    Renumbered(WithoutLeg(legs, legId))
  }

  /** Renumbering a list that is already numbered changes nothing. */
  lemma RenumberedNumbered(legs: seq<Leg>)
    requires Numbered(legs)
    ensures Renumbered(legs) == legs
  {
    assert forall i :: 0 <= i < |legs| ==> legs[i].(legNumber := i + 1) == legs[i];
  }

  /** Removal keeps the other legs in order, drops every leg with that id,
      and leaves the list numbered 1..n. */
  lemma RemovedLegSpec(legs: seq<Leg>, legId: string)
    ensures Numbered(RemovedLeg(legs, legId))
    ensures |RemovedLeg(legs, legId)| == Count(legs, (l: Leg) => l.id != legId)
    ensures forall i :: 0 <= i < |RemovedLeg(legs, legId)| ==> RemovedLeg(legs, legId)[i].id != legId
    ensures IsSubsequence(WithoutLeg(legs, legId), legs)
  {
    FilterCount(legs, (l: Leg) => l.id != legId);
    FilterIsSubsequence(legs, (l: Leg) => l.id != legId);
    var kept := WithoutLeg(legs, legId);
    assert forall i :: 0 <= i < |kept| ==> RemovedLeg(legs, legId)[i].id == kept[i].id;
  }

  /** Removing the leg just added, whose id is new, gives back a numbered
      list. */
  lemma {:induction false} AddThenRemove(legs: seq<Leg>, leg: Leg)
    requires Numbered(legs)
    requires forall i :: 0 <= i < |legs| ==> legs[i].id != leg.id
    ensures RemovedLeg(legs + [leg], leg.id) == legs
  {
    var p := (l: Leg) => l.id != leg.id;
    FilterAll(legs, p);
    FilterAppendOne(legs, leg, p);
    RenumberedNumbered(legs);
  }

  lemma {:induction false} FilterAppendOne<T>(s: seq<T>, x: T, p: T -> bool)
    ensures Filter(s + [x], p) == Filter(s, p) + (if p(x) then [x] else [])
  {
    if s == [] {
      assert s + [x] == [x];
    } else {
      assert (s + [x])[1..] == s[1..] + [x];
      FilterAppendOne(s[1..], x, p);
    }
  }

  // ---------------------------------------------------------------------
  // The crew roster (flight-log-manager.tsx:38-72, 109-117, 344-438).

  /** The keys of FCCMember and MaintenancePersonnel; the last field of each
      is its own (distinguishedVisitors, fccMonitor). */
  datatype CrewField = Id | Name | RankField | EmployeeNumber | Sdap | Megp
                     | DepartureDate | ReturnDate | DistinguishedVisitors | FccMonitor

  datatype FieldValue = Text(text: string) | Flag(flag: bool)

  /** A crew record: the value of each field it holds. */
  type CrewMember = map<CrewField, FieldValue>

  datatype CommanderField = CommanderName | CommanderRank | FlyingSquadron

  datatype CrewInfo = CrewInfo(
    fccMembers: seq<CrewMember>, maintenancePersonnel: seq<CrewMember>,
    aircraftCommander: map<CommanderField, string>)

  const DefaultCrewInfo := CrewInfo([], [], map[CommanderName := "", CommanderRank := "", FlyingSquadron := ""])

  function BlankMember(id: string, own: CrewField): CrewMember
  {
    map[Id := Text(id), Name := Text(""), RankField := Text(""), EmployeeNumber := Text(""),
        Sdap := Flag(false), Megp := Flag(false), DepartureDate := Text(""), ReturnDate := Text(""),
        own := Text("")]
  }

  /** The copy with `[field]: value` spread into the record at `index`. */
  function UpdatedAt(members: seq<CrewMember>, index: nat, field: CrewField, value: FieldValue): (r: seq<CrewMember>)
    requires index < |members|
    ensures |r| == |members|
    ensures field in r[index] && r[index][field] == value
    ensures forall f :: f in members[index] && f != field ==> f in r[index] && r[index][f] == members[index][f]
    ensures forall f :: f in r[index] ==> f in members[index] || f == field
    ensures forall i :: 0 <= i < |members| && i != index ==> r[i] == members[i]
  {
    members[index := members[index][field := value]]
  }

  /** .filter((_, i) => i !== index) */
  function RemovedAt(members: seq<CrewMember>, index: int): (r: seq<CrewMember>)
    ensures 0 <= index < |members| ==> |r| == |members| - 1
    ensures 0 <= index < |members| ==>
              (forall i :: 0 <= i < index ==> r[i] == members[i])
              && (forall i :: index <= i < |r| ==> r[i] == members[i + 1])
    ensures !(0 <= index < |members|) ==> r == members
    decreases |members|
  {
    if members == [] then []
    else if index == 0 then members[1..]
    else [members[0]] + RemovedAt(members[1..], index - 1)
  }

  /** Removing the record just appended gives the roster back. */
  lemma AddThenRemoveMember(members: seq<CrewMember>, m: CrewMember)
    ensures RemovedAt(members + [m], |members|) == members
  {
  }

  // ---------------------------------------------------------------------
  // The component: its leg list and crew info are the props the parent
  // passes back after each onFlightLegsUpdate / onCrewInfoUpdate call.

  class FlightLogManager {
    var flightLegs: seq<Leg>
    var newLeg: NewLeg
    var isAddingLeg: bool
    var crewInfo: Option<CrewInfo>
    /** Whether the parent passed onCrewInfoUpdate. */
    var canUpdateCrew: bool

    constructor(legs: seq<Leg>, crew: Option<CrewInfo>, canUpdateCrew: bool)
      ensures flightLegs == legs && crewInfo == crew && this.canUpdateCrew == canUpdateCrew
      ensures newLeg == EmptyNewLeg && !isAddingLeg
    {
      flightLegs := legs;
      newLeg := EmptyNewLeg;
      isAddingLeg := false;
      crewInfo := crew;
      this.canUpdateCrew := canUpdateCrew;
    }

    /** crewInfo || defaultCrewInfo */
    function CurrentCrew(): CrewInfo
      reads this
    {
      if crewInfo.Some? then crewInfo.value else DefaultCrewInfo
    }

    /** handleAddLeg: with a required field missing nothing is sent and
        nothing changes; otherwise the request is sent, and when the server
        answers (`reply`) the saved leg is appended with the next number and
        the form is reset. */
    method HandleAddLeg(reply: Option<SavedLeg>) returns (request: Option<LegRequest>)
      modifies this
      ensures request.Some? <==> HasRequiredFields(old(newLeg))
      ensures request.Some? ==> request.value == RequestFor(old(newLeg))
      ensures request.Some? && reply.Some? ==>
                flightLegs == old(flightLegs) + [ClientLeg(reply.value, |old(flightLegs)| + 1)]
                && newLeg == EmptyNewLeg && !isAddingLeg
      ensures request.None? || reply.None? ==>
                flightLegs == old(flightLegs) && newLeg == old(newLeg) && isAddingLeg == old(isAddingLeg)
      ensures crewInfo == old(crewInfo) && canUpdateCrew == old(canUpdateCrew)
    {
      if !HasRequiredFields(newLeg) {
        return None;
      }
      request := Some(RequestFor(newLeg));
      if reply.None? {
        return;
      }
      var leg := ClientLeg(reply.value, |flightLegs| + 1);
      flightLegs := flightLegs + [leg];
      newLeg := EmptyNewLeg;
      isAddingLeg := false;
    }

    /** handleRemoveLeg: after a successful DELETE (`deleted`) the other
        legs are kept in order and renumbered. */
    method HandleRemoveLeg(legId: string, deleted: bool)
      modifies this
      ensures flightLegs == if deleted then RemovedLeg(old(flightLegs), legId) else old(flightLegs)
      ensures newLeg == old(newLeg) && isAddingLeg == old(isAddingLeg)
      ensures crewInfo == old(crewInfo) && canUpdateCrew == old(canUpdateCrew)
    {
      if deleted {
        flightLegs := RemovedLeg(flightLegs, legId);
      }
    }

    method AddFccMember(id: string)
      modifies this
      ensures canUpdateCrew ==>
                crewInfo == Some(old(CurrentCrew()).(fccMembers := old(CurrentCrew()).fccMembers + [BlankMember(id, DistinguishedVisitors)]))
      ensures !canUpdateCrew ==> crewInfo == old(crewInfo)
      ensures flightLegs == old(flightLegs) && newLeg == old(newLeg) && canUpdateCrew == old(canUpdateCrew)
    {
      if canUpdateCrew {
        var current := CurrentCrew();
        crewInfo := Some(current.(fccMembers := current.fccMembers + [BlankMember(id, DistinguishedVisitors)]));
      }
    }

    method UpdateFccMember(index: nat, field: CrewField, value: FieldValue)
      requires index < |CurrentCrew().fccMembers|
      modifies this
      ensures canUpdateCrew ==>
                crewInfo == Some(old(CurrentCrew()).(fccMembers := UpdatedAt(old(CurrentCrew()).fccMembers, index, field, value)))
      ensures !canUpdateCrew ==> crewInfo == old(crewInfo)
      ensures flightLegs == old(flightLegs) && newLeg == old(newLeg) && canUpdateCrew == old(canUpdateCrew)
    {
      if canUpdateCrew {
        var current := CurrentCrew();
        var updatedMembers := current.fccMembers;
        updatedMembers := updatedMembers[index := updatedMembers[index][field := value]];
        crewInfo := Some(current.(fccMembers := updatedMembers));
      }
    }

    method RemoveFccMember(index: int)
      modifies this
      ensures canUpdateCrew ==>
                crewInfo == Some(old(CurrentCrew()).(fccMembers := RemovedAt(old(CurrentCrew()).fccMembers, index)))
      ensures !canUpdateCrew ==> crewInfo == old(crewInfo)
      ensures flightLegs == old(flightLegs) && newLeg == old(newLeg) && canUpdateCrew == old(canUpdateCrew)
    {
      if canUpdateCrew {
        var current := CurrentCrew();
        crewInfo := Some(current.(fccMembers := RemovedAt(current.fccMembers, index)));
      }
    }

    method AddMaintenancePersonnel(id: string)
      modifies this
      ensures canUpdateCrew ==>
                crewInfo == Some(old(CurrentCrew()).(maintenancePersonnel := old(CurrentCrew()).maintenancePersonnel + [BlankMember(id, FccMonitor)]))
      ensures !canUpdateCrew ==> crewInfo == old(crewInfo)
      ensures flightLegs == old(flightLegs) && newLeg == old(newLeg) && canUpdateCrew == old(canUpdateCrew)
    {
      if canUpdateCrew {
        var current := CurrentCrew();
        crewInfo := Some(current.(maintenancePersonnel := current.maintenancePersonnel + [BlankMember(id, FccMonitor)]));
      }
    }

    method UpdateMaintenancePersonnel(index: nat, field: CrewField, value: FieldValue)
      requires index < |CurrentCrew().maintenancePersonnel|
      modifies this
      ensures canUpdateCrew ==>
                crewInfo == Some(old(CurrentCrew()).(maintenancePersonnel := UpdatedAt(old(CurrentCrew()).maintenancePersonnel, index, field, value)))
      ensures !canUpdateCrew ==> crewInfo == old(crewInfo)
      ensures flightLegs == old(flightLegs) && newLeg == old(newLeg) && canUpdateCrew == old(canUpdateCrew)
    {
      if canUpdateCrew {
        var current := CurrentCrew();
        var updatedPersonnel := current.maintenancePersonnel;
        updatedPersonnel := updatedPersonnel[index := updatedPersonnel[index][field := value]];
        crewInfo := Some(current.(maintenancePersonnel := updatedPersonnel));
      }
    }

    method RemoveMaintenancePersonnel(index: int)
      modifies this
      ensures canUpdateCrew ==>
                crewInfo == Some(old(CurrentCrew()).(maintenancePersonnel := RemovedAt(old(CurrentCrew()).maintenancePersonnel, index)))
      ensures !canUpdateCrew ==> crewInfo == old(crewInfo)
      ensures flightLegs == old(flightLegs) && newLeg == old(newLeg) && canUpdateCrew == old(canUpdateCrew)
    {
      if canUpdateCrew {
        var current := CurrentCrew();
        crewInfo := Some(current.(maintenancePersonnel := RemovedAt(current.maintenancePersonnel, index)));
      }
    }

    method UpdateAircraftCommander(field: CommanderField, value: string)
      modifies this
      ensures canUpdateCrew ==>
                crewInfo == Some(old(CurrentCrew()).(aircraftCommander := old(CurrentCrew()).aircraftCommander[field := value]))
      ensures !canUpdateCrew ==> crewInfo == old(crewInfo)
      ensures flightLegs == old(flightLegs) && newLeg == old(newLeg) && canUpdateCrew == old(canUpdateCrew)
    {
      if canUpdateCrew {
        var current := CurrentCrew();
        crewInfo := Some(current.(aircraftCommander := current.aircraftCommander[field := value]));
      }
    }
  }

  /** Adding a leg to a numbered list keeps it numbered. */
  lemma AddKeepsNumbered(legs: seq<Leg>, saved: SavedLeg)
    requires Numbered(legs)
    ensures Numbered(legs + [ClientLeg(saved, |legs| + 1)])
  {
  }
}
