/** The .NET timespan text `[d.]hh:mm:ss[.fffffff]` that the server reports
    as a process's CPU time, and its conversion to seconds
    (`timespanRegex`, `matchNamedGroups`, `timeSpanToSeconds`). */
module TimeSpans {
  import opened Wrappers

  predicate IsDigit(c: char) { '0' <= c <= '9' }

  predicate AllDigits(s: string) { forall i | 0 <= i < |s| :: IsDigit(s[i]) }

  function DigitValue(c: char): nat
    requires IsDigit(c)
  {
    c as int - '0' as int
  }

  /** The decimal value of a digit string; the empty string is 0. */
  function DigitsValue(s: string): nat
    requires AllDigits(s)
    decreases |s|
  {
    if s == [] then 0 else DigitsValue(s[..|s| - 1]) * 10 + DigitValue(s[|s| - 1])
  }

  function Pow10(n: nat): (r: nat)
    ensures r >= 1
  {
    if n == 0 then 1 else 10 * Pow10(n - 1)
  }

  /** A digit string of length n stands for less than 10^n. */
  lemma {:induction false} DigitsValueBound(s: string)
    requires AllDigits(s)
    ensures DigitsValue(s) < Pow10(|s|)
    decreases |s|
  {
    if s != [] {
      DigitsValueBound(s[..|s| - 1]);
    }
  }

  /** `strconv.Atoi`: an optional sign followed by at least one decimal
      digit; any other text is a syntax error (Go then yields 0). */
  function Atoi(s: string): (r: Option<int>)
    ensures s == [] ==> r.None?
    ensures AllDigits(s) && s != [] ==> r == Some(DigitsValue(s))
    ensures r.Some? && s[0] == '-' ==> r.value <= 0
  {
    if s != [] && (s[0] == '+' || s[0] == '-') then
      var digits := s[1..];
      if digits != [] && AllDigits(digits) then
        var v: int := if s[0] == '-' then -(DigitsValue(digits) as int) else DigitsValue(digits);
        Some(v)
      else None
    else if s != [] && AllDigits(s) then Some(DigitsValue(s))
    else None
  }

  /** With the error discarded, Atoi of a (possibly empty) digit string is its value. */
  lemma AtoiOrZero(s: string)
    requires AllDigits(s)
    ensures Atoi(s).GetOr(0) == DigitsValue(s)
  {
  }

  /** The five named groups of the pattern. An absent optional group is the
      empty string, as Go reports an unmatched group. */
  datatype TimeSpan = TimeSpan(days: string, hours: string, minutes: string, seconds: string, fraction: string)

  predicate WellFormed(t: TimeSpan) {
    && AllDigits(t.days)
    && |t.hours| == 2 && AllDigits(t.hours)
    && |t.minutes| == 2 && AllDigits(t.minutes)
    && |t.seconds| == 2 && AllDigits(t.seconds)
    && (t.fraction == [] || |t.fraction| == 7) && AllDigits(t.fraction)
  }

  /** The text of a timespan: `days.` only when there are days, `.fraction`
      only when there is a fraction. */
  function Format(t: TimeSpan): string {
    DayPart(t.days) + Clock(t) + FractionPart(t.fraction)
  }

  function DayPart(days: string): string {
    if days == [] then [] else days + "."
  }

  function Clock(t: TimeSpan): string {
    t.hours + ":" + t.minutes + ":" + t.seconds
  }

  function FractionPart(fraction: string): string {
    if fraction == [] then [] else "." + fraction
  }

  predicate IsClock(c: string)
    requires |c| == 8
  {
    IsDigit(c[0]) && IsDigit(c[1]) && c[2] == ':' && IsDigit(c[3]) && IsDigit(c[4])
    && c[5] == ':' && IsDigit(c[6]) && IsDigit(c[7])
  }

  /** Splits off a trailing `.fffffff` (exactly seven digits). */
  function SplitFraction(text: string): (string, string) {
    if |text| >= 8 && text[|text| - 8] == '.' && AllDigits(text[|text| - 7..])
    then (text[..|text| - 8], text[|text| - 7..])
    else (text, [])
  }

  /** The days in front of the clock: none, or digits followed by a dot. */
  function DaysOf(prefix: string): Option<string> {
    if prefix == [] then Some([])
    else if |prefix| >= 2 && prefix[|prefix| - 1] == '.' && AllDigits(prefix[..|prefix| - 1])
    then Some(prefix[..|prefix| - 1])
    else None
  }

  /** The matcher for texts that are, as a whole, in the grammar
      `((?P<days>\d+)\.)?(?P<hours>\d{2}):(?P<minutes>\d{2}):(?P<seconds>\d{2})(\.(?P<secondfraction>\d{7}))?`.
      On such a text the leftmost-first match is the whole text. */
  function Parse(text: string): (r: Option<TimeSpan>)
    ensures r.Some? ==> WellFormed(r.value)
  {
    var (rest, fraction) := SplitFraction(text);
    if |rest| < 8 then None
    else
      var clock := rest[|rest| - 8..];
      match DaysOf(rest[..|rest| - 8])
      case None => None
      case Some(days) =>
        if !IsClock(clock) then None
        else
          ClockFields(clock);
          Some(TimeSpan(days, clock[..2], clock[3..5], clock[6..], fraction))
  }

  lemma ClockFields(clock: string)
    requires |clock| == 8 && IsClock(clock)
    ensures |clock[..2]| == 2 && AllDigits(clock[..2])
    ensures |clock[3..5]| == 2 && AllDigits(clock[3..5])
    ensures |clock[6..]| == 2 && AllDigits(clock[6..])
    ensures clock == clock[..2] + ":" + clock[3..5] + ":" + clock[6..]
  {
    assert clock[..2] == [clock[0], clock[1]];
    assert clock[3..5] == [clock[3], clock[4]];
    assert clock[6..] == [clock[6], clock[7]];
  }

  /** The clock of a well-formed timespan is in the clock grammar and
      splits back into its fields. */
  lemma ClockOfWellFormed(t: TimeSpan)
    requires WellFormed(t)
    ensures |Clock(t)| == 8 && IsClock(Clock(t))
    ensures Clock(t)[..2] == t.hours && Clock(t)[3..5] == t.minutes && Clock(t)[6..] == t.seconds
  {
    var c := Clock(t);
    assert c == [t.hours[0], t.hours[1], ':', t.minutes[0], t.minutes[1], ':', t.seconds[0], t.seconds[1]];
  }

  /** The text is what is left in front of the fraction, then the fraction. */
  lemma SplitFractionParts(text: string)
    ensures text == SplitFraction(text).0 + FractionPart(SplitFraction(text).1)
  {
    if SplitFraction(text).1 != [] {
      assert text == text[..|text| - 8] + [text[|text| - 8]] + text[|text| - 7..];
    }
  }

  /** A text ending in a clock, followed by an optional fraction, splits
      back into the two. */
  lemma SplitFractionFormat(rest: string, fraction: string)
    requires |rest| >= 8 && rest[|rest| - 8] != '.'
    requires fraction == [] || (|fraction| == 7 && AllDigits(fraction))
    ensures SplitFraction(rest + FractionPart(fraction)) == (rest, fraction)
  {
    var text := rest + FractionPart(fraction);
    if fraction == [] {
      assert text == rest;
    } else {
      assert text == rest + ("." + fraction);
      assert text[|text| - 8] == '.';
      assert text[|text| - 7..] == fraction;
      assert text[..|text| - 8] == rest;
    }
  }

  /** Days found in front of the clock are digits, and put back they give
      the same text. */
  lemma DaysOfSound(prefix: string)
    requires DaysOf(prefix).Some?
    ensures AllDigits(DaysOf(prefix).value) && DayPart(DaysOf(prefix).value) == prefix
  {
    if prefix != [] {
      assert prefix == prefix[..|prefix| - 1] + [prefix[|prefix| - 1]];
    }
  }

  /** The day part of a digit string is read back as that string. */
  lemma DaysOfDayPart(days: string)
    requires AllDigits(days)
    ensures DaysOf(DayPart(days)) == Some(days)
  {
    if days != [] {
      assert DayPart(days)[..|DayPart(days)| - 1] == days;
    }
  }

  /** Whatever the matcher accepts is a well-formed timespan whose text is
      exactly the input. */
  lemma ParseSound(text: string)
    requires Parse(text).Some?
    ensures WellFormed(Parse(text).value) && Format(Parse(text).value) == text
  {
    var (rest, fraction) := SplitFraction(text);
    SplitFractionParts(text);
    var clock := rest[|rest| - 8..];
    var prefix := rest[..|rest| - 8];
    DaysOfSound(prefix);
    ClockFields(clock);
    var t := TimeSpan(DaysOf(prefix).value, clock[..2], clock[3..5], clock[6..], fraction);
    assert Parse(text) == Some(t);
    assert rest == prefix + clock;
    assert Clock(t) == clock;
    assert Format(t) == rest + FractionPart(fraction);
  }

  /** Every well-formed timespan's text parses back to it. */
  lemma ParseFormat(t: TimeSpan)
    requires WellFormed(t)
    ensures Parse(Format(t)) == Some(t)
  {
    var clock := Clock(t);
    ClockOfWellFormed(t);
    var rest := DayPart(t.days) + clock;
    assert rest[|rest| - 8] == t.hours[0];
    SplitFractionFormat(rest, t.fraction);
    assert rest[|rest| - 8..] == clock;
    assert rest[..|rest| - 8] == DayPart(t.days);
    DaysOfDayPart(t.days);
  }

  /** The value the pattern describes: days, hours, minutes and seconds,
      plus the fraction in units of 10^-7 s; absent groups count 0. */
  function Seconds(t: TimeSpan): real
    requires WellFormed(t)
  {
    (DigitsValue(t.days) * 86400 + DigitsValue(t.hours) * 3600
     + DigitsValue(t.minutes) * 60 + DigitsValue(t.seconds)) as real
    + DigitsValue(t.fraction) as real / 10000000.0
  }

  /** The fraction adds strictly less than one second. */
  lemma {:induction false} FractionBelowOneSecond(t: TimeSpan)
    requires WellFormed(t)
    ensures var whole := (DigitsValue(t.days) * 86400 + DigitsValue(t.hours) * 3600
                          + DigitsValue(t.minutes) * 60 + DigitsValue(t.seconds)) as real;
            whole <= Seconds(t) < whole + 1.0
  {
    DigitsValueBound(t.fraction);
    assert Pow10(7) == 10000000;
    assert Pow10(0) == 1;
  }

  lemma TwoDigitValues()
    ensures DigitsValue("00") == 0 && DigitsValue("02") == 2
    ensures DigitsValue("03") == 3 && DigitsValue("04") == 4
  {
    assert "00"[..1] == "0" && "02"[..1] == "0" && "03"[..1] == "0" && "04"[..1] == "0";
    assert "0"[..0] == "";
  }

  lemma FractionValue()
    ensures DigitsValue("5000000") == 5000000
  {
    assert "5000000"[..6] == "500000";
    assert "500000"[..5] == "50000";
    assert "50000"[..4] == "5000";
    assert "5000"[..3] == "500";
    assert "500"[..2] == "50";
    assert "50"[..1] == "5";
    assert "5"[..0] == "";
  }

  /** "1.02:03:04.5000000" is 1 day, 2 h, 3 min, 4.5 s. */
  lemma ExampleWithDaysAndFraction()
    ensures Parse("1.02:03:04.5000000").Some?
    ensures Seconds(Parse("1.02:03:04.5000000").value) == 93784.5
  {
    var t := TimeSpan("1", "02", "03", "04", "5000000");
    assert WellFormed(t);
    assert Format(t) == "1.02:03:04.5000000";
    ParseFormat(t);
    TwoDigitValues();
    FractionValue();
    assert DigitsValue("1") == 1 by { assert "1"[..0] == ""; }
  }

  /** "00:00:00" is zero seconds. */
  lemma ExampleZero()
    ensures Parse("00:00:00").Some?
    ensures Seconds(Parse("00:00:00").value) == 0.0
  {
    var t := TimeSpan("", "00", "00", "00", "");
    assert Format(t) == "00:00:00";
    ParseFormat(t);
    TwoDigitValues();
  }

  /** Without its CPU entry the collector hands the empty text to the
      parser, and the empty text is not in the grammar. */
  lemma EmptyTextNotInGrammar()
    ensures Parse("") == None
  {
    assert SplitFraction("") == ("", []);
  }

  /** A fraction is only recognised with exactly seven digits. */
  lemma ShortFractionNotInGrammar()
    ensures Parse("00:00:00.5") == None
  {
    var text := "00:00:00.5";
    assert SplitFraction(text) == (text, []) by {
      assert text[|text| - 8] == ':';
    }
    assert text[..2] == "00";
    assert !IsClock(text[2..]) by { assert text[2..][0] == ':'; }
  }

  /** The group names of the pattern, by group number (group 0 being the
      whole match): `regex.SubexpNames()`. */
  const SubexpNames: seq<string> := ["", "", "days", "hours", "minutes", "seconds", "", "secondfraction"]

  /** Each named group of the pattern carries its name alone. */
  lemma SubexpNamesUnique()
    ensures forall i | 0 <= i < |SubexpNames| && SubexpNames[i] != "" ::
      forall m | i < m < |SubexpNames| :: SubexpNames[m] != SubexpNames[i]
    ensures SubexpNames[2] == "days" && SubexpNames[3] == "hours" && SubexpNames[4] == "minutes"
      && SubexpNames[5] == "seconds" && SubexpNames[7] == "secondfraction"
  {
  }

  /** The text of a timespan, group by group. */
  lemma FormatLayout(t: TimeSpan)
    ensures Format(t) == DayPart(t.days) + t.hours + ":" + t.minutes + ":" + t.seconds + FractionPart(t.fraction)
  {
  }

  /** An accepted text is its parse's groups laid end to end. */
  lemma GroupLayout(text: string)
    requires Parse(text).Some?
    ensures var t := Parse(text).value;
      && WellFormed(t)
      && text == DayPart(t.days) + t.hours + ":" + t.minutes + ":" + t.seconds + FractionPart(t.fraction)
  {
    ParseSound(text);
    FormatLayout(Parse(text).value);
  }

  /** The groups of a well-formed timespan, in pattern order, tile its text
      and each has the shape its group in the pattern requires. */
  lemma GroupsTile(text: string, t: TimeSpan, r: seq<string>)
    requires WellFormed(t)
    requires text == DayPart(t.days) + t.hours + ":" + t.minutes + ":" + t.seconds + FractionPart(t.fraction)
    requires r == [text, DayPart(t.days), t.days, t.hours, t.minutes, t.seconds, FractionPart(t.fraction), t.fraction]
    ensures r[0] == r[1] + r[3] + ":" + r[4] + ":" + r[5] + r[6]
    ensures r[1] == DayPart(r[2]) && r[6] == FractionPart(r[7])
    ensures AllDigits(r[2]) && AllDigits(r[7]) && (r[7] == [] || |r[7]| == 7)
    ensures |r[3]| == 2 && AllDigits(r[3]) && |r[4]| == 2 && AllDigits(r[4]) && |r[5]| == 2 && AllDigits(r[5])
  {
  }

  /** `FindStringSubmatch` on a text in the grammar: the whole match, then
      each group's text, the empty string for an unmatched group. */
  function FindStringSubmatch(text: string): (r: seq<string>)
    requires Parse(text).Some?
    ensures |r| == |SubexpNames|
    ensures r[0] == text
    ensures var t := Parse(text).value;
      && r[1] == DayPart(t.days) && r[2] == t.days
      && r[3] == t.hours && r[4] == t.minutes && r[5] == t.seconds
      && r[6] == FractionPart(t.fraction) && r[7] == t.fraction
    // The groups tile the text as the pattern lays them out.
    ensures r[0] == r[1] + r[3] + ":" + r[4] + ":" + r[5] + r[6]
    ensures r[1] == DayPart(r[2]) && r[6] == FractionPart(r[7])
    ensures AllDigits(r[2]) && AllDigits(r[7]) && (r[7] == [] || |r[7]| == 7)
    ensures |r[3]| == 2 && AllDigits(r[3]) && |r[4]| == 2 && AllDigits(r[4]) && |r[5]| == 2 && AllDigits(r[5])
  {
    var t := Parse(text).value;
    GroupLayout(text);
    var groups := [text, DayPart(t.days), t.days, t.hours, t.minutes, t.seconds, FractionPart(t.fraction), t.fraction];
    GroupsTile(text, t, groups);
    groups
  }

  /** `matchNamedGroups`: the map from each non-empty group name to the text
      of its group; when two groups share a name, the later one wins. */
  method MatchNamedGroups(names: seq<string>, matches: seq<string>) returns (results: map<string, string>)
    requires |matches| == |names|
    ensures forall name :: name in results <==> name != "" && name in names
    ensures forall i | 0 <= i < |names| ::
      names[i] != "" && (forall m | i < m < |names| :: names[m] != names[i]) ==>
        names[i] in results && results[names[i]] == matches[i]
  {
    results := map[];
    for i := 0 to |names|
      invariant forall name :: name in results <==> name != "" && name in names[..i]
      invariant forall k | 0 <= k < i ::
        names[k] != "" && (forall m | k < m < i :: names[m] != names[k]) ==>
          names[k] in results && results[names[k]] == matches[k]
    {
      if names[i] != "" {
        results := results[names[i] := matches[i]];
      }
      assert names[..i + 1] == names[..i] + [names[i]];
      forall k | 0 <= k < i + 1 && names[k] != "" && (forall m | k < m < i + 1 :: names[m] != names[k])
        ensures names[k] in results && results[names[k]] == matches[k]
      {
        if k < i {
          assert names[i] != names[k];
        }
      }
    }
    assert names[..|names|] == names;
  }

  /** `timeSpanToSeconds` on a text in the grammar. */
  method TimeSpanToSeconds(text: string) returns (result: real)
    requires Parse(text).Some?
    ensures result == Seconds(Parse(text).value)
  {
    ghost var t := Parse(text).value;
    result := 0.0;
    var groups := FindStringSubmatch(text);
    assert groups[2] == t.days && groups[3] == t.hours && groups[4] == t.minutes
      && groups[5] == t.seconds && groups[7] == t.fraction;
    var matches := MatchNamedGroups(SubexpNames, groups);
    SubexpNamesUnique();
    assert matches["days"] == t.days && matches["hours"] == t.hours
      && matches["minutes"] == t.minutes && matches["seconds"] == t.seconds
      && matches["secondfraction"] == t.fraction;
    AtoiOrZero(t.days);
    AtoiOrZero(t.hours);
    AtoiOrZero(t.minutes);
    AtoiOrZero(t.seconds);
    AtoiOrZero(t.fraction);
    if "days" in matches {
      var days := Atoi(matches["days"]).GetOr(0);
      result := result + (days as real) * 24.0 * 60.0 * 60.0;
    }
    if "hours" in matches {
      var hours := Atoi(matches["hours"]).GetOr(0);
      result := result + (hours as real) * 60.0 * 60.0;
    }
    if "minutes" in matches {
      var minutes := Atoi(matches["minutes"]).GetOr(0);
      result := result + (minutes as real) * 60.0;
    }
    if "seconds" in matches {
      var seconds := Atoi(matches["seconds"]).GetOr(0);
      result := result + seconds as real;
    }
    if "secondfraction" in matches {
      var secondFraction := Atoi(matches["secondfraction"]).GetOr(0);
      result := result + (secondFraction as real) / 10000000.0;
    }
  }
}
