/** The schedule phrase parser and the registration-number validator of the "new automation" form. */
module ScheduleInput {
  import opened Wrappers
  import opened Text

  /** The cron-job schedule record sent to the scheduling service; -1 means "every". */
  datatype Schedule = Schedule(
    timezone: string,
    expiresAt: int,
    hours: seq<int>,
    minutes: seq<int>,
    wdays: seq<int>,
    mdays: seq<int>,
    months: seq<int>)

  const Timezone: string := "Asia/Kolkata"

  /** The weekday names in the order of the lookup table, Sunday = 0. */
  const DayNames: seq<string> := ["sunday", "monday", "tuesday", "wednesday", "thursday", "friday", "saturday"]

  ghost predicate NoDigit(s: string) {
    forall i :: 0 <= i < |s| ==> !IsDigit(s[i])
  }

  ghost predicate AllDigits(s: string) {
    forall i :: 0 <= i < |s| ==> IsDigit(s[i])
  }

  /** `parseInt(digits, 10)` on a non-empty run of ASCII digits. */
  function DecimalValue(digits: string): (v: nat)
    requires AllDigits(digits)
  {
    if digits == [] then 0 else DecimalValue(digits[..|digits| - 1]) * 10 + DigitValue(digits[|digits| - 1])
  }

  /** The input is lower-cased, then trimmed, before anything is matched. */
  function Normalize(input: string): (r: string)
    ensures |r| <= |input|
    ensures r != [] ==> !IsSpace(r[0]) && !IsSpace(r[|r| - 1])
  {
    Trim(ToLower(input))
  }

  /** The position of the leftmost digit at or after `from`. */
  function FindDigit(s: string, from: nat): (r: Option<nat>)
    requires from <= |s|
    ensures r.Some? ==> from <= r.value < |s| && IsDigit(s[r.value])
    ensures r.Some? ==> forall j :: from <= j < r.value ==> !IsDigit(s[j])
    ensures r.None? ==> forall j :: from <= j < |s| ==> !IsDigit(s[j])
    decreases |s| - from
  {
    if from == |s| then None else if IsDigit(s[from]) then Some(from) else FindDigit(s, from + 1)
  }

  /** The end of the run of `\s` characters starting at `from`. */
  function SkipSpaces(s: string, from: nat): (r: nat)
    requires from <= |s|
    ensures from <= r <= |s| && (r == |s| || !IsSpace(s[r]))
    ensures forall j :: from <= j < r ==> IsSpace(s[j])
    decreases |s| - from
  {
    if from < |s| && IsSpace(s[from]) then SkipSpaces(s, from + 1) else from
  }

  datatype Meridian = Am | Pm

  /** The captures of `/(\d{1,2})(?::(\d{2}))?\s*(am|pm)?/`. */
  datatype TimeMatch = TimeMatch(hourDigits: string, minuteDigits: Option<string>, meridian: Option<Meridian>)

  /** The regular expression matched at position `p`, which holds a digit: every quantifier is greedy and,
      since everything after the hour digits is optional, the first way to match is never backtracked. */
  function MatchAt(s: string, p: nat): (m: TimeMatch)
    requires p < |s| && IsDigit(s[p])
    ensures 1 <= |m.hourDigits| <= 2 && m.hourDigits <= s[p..] && AllDigits(m.hourDigits)
    ensures |m.hourDigits| == 2 <==> p + 1 < |s| && IsDigit(s[p + 1])
    ensures var q := p + |m.hourDigits|;
      m.minuteDigits.Some? <==> q + 3 <= |s| && s[q] == ':' && IsDigit(s[q + 1]) && IsDigit(s[q + 2])
    ensures m.minuteDigits.Some? ==>
      |m.minuteDigits.value| == 2 && AllDigits(m.minuteDigits.value) && [':'] + m.minuteDigits.value <= s[p + |m.hourDigits|..]
    ensures var t := SkipSpaces(s, p + |m.hourDigits| + (if m.minuteDigits.Some? then 3 else 0));
      m.meridian == (if "am" <= s[t..] then Some(Am) else if "pm" <= s[t..] then Some(Pm) else None)
  {
    var q := HourEnd(s, p);
    var hour := s[p..q];
    var minute := MinuteAt(s, q);
    SlicePrefix(s, p, q);
    TimeMatch(hour, minute, MeridianAt(s, SkipSpaces(s, p + |hour| + (if minute.Some? then 3 else 0))))
  }

  /** The end of `\d{1,2}` at `p`: the second digit is taken when there is one. */
  function HourEnd(s: string, p: nat): (q: nat)
    requires p < |s| && IsDigit(s[p])
    ensures p < q <= p + 2 && q <= |s| && AllDigits(s[p..q])
    ensures q == p + 2 <==> p + 1 < |s| && IsDigit(s[p + 1])
  {
    var q := if p + 1 < |s| && IsDigit(s[p + 1]) then p + 2 else p + 1;
    HourSlice(s, p, q);
    q
  }

  /** `(?::(\d{2}))?` at `q`: the two minute digits after a colon, when they are there. */
  function MinuteAt(s: string, q: nat): (r: Option<string>)
    requires q <= |s|
    ensures r.Some? <==> q + 3 <= |s| && s[q] == ':' && IsDigit(s[q + 1]) && IsDigit(s[q + 2])
    ensures r.Some? ==> |r.value| == 2 && AllDigits(r.value) && [':'] + r.value <= s[q..]
  {
    MinutePrefix(s, q);
    if q + 3 <= |s| && s[q] == ':' && IsDigit(s[q + 1]) && IsDigit(s[q + 2]) then Some(s[q + 1..q + 3]) else None
  }

  /** `(am|pm)?` at `t`. */
  function MeridianAt(s: string, t: nat): Option<Meridian>
    requires t <= |s|
  {
    if "am" <= s[t..] then Some(Am) else if "pm" <= s[t..] then Some(Pm) else None
  }

  lemma SlicePrefix(s: string, i: nat, j: nat)
    requires i <= j <= |s|
    ensures s[i..j] <= s[i..]
  {
  }

  lemma HourSlice(s: string, p: nat, q: nat)
    requires p < q <= p + 2 && q <= |s| && IsDigit(s[p]) && (q == p + 2 ==> IsDigit(s[p + 1]))
    ensures AllDigits(s[p..q])
  {
    var h := s[p..q];
    assert h[0] == s[p];
    assert q == p + 2 ==> h[1] == s[p + 1];
  }

  /** A colon and two minute digits at `q` start the rest of the text from `q`. */
  lemma MinutePrefix(s: string, q: nat)
    ensures q + 3 <= |s| ==> [s[q]] + s[q + 1..q + 3] <= s[q..]
    ensures q + 3 <= |s| && IsDigit(s[q + 1]) && IsDigit(s[q + 2]) ==> AllDigits(s[q + 1..q + 3])
  {
    if q + 3 <= |s| && IsDigit(s[q + 1]) && IsDigit(s[q + 2]) {
      var m := s[q + 1..q + 3];
      assert m[0] == s[q + 1] && m[1] == s[q + 2];
    }
  }

  /** `input.match(timeRegex)`: the first match, which starts at the leftmost digit. */
  function MatchTime(s: string): (m: Option<TimeMatch>)
    ensures m.None? <==> NoDigit(s)
  {
    match FindDigit(s, 0)
    case None => None
    case Some(p) => Some(MatchAt(s, p))
  }

  /** The 24-hour value the parser stores: "pm" below 12 adds 12, "12 am" is 0, nothing else changes,
      and there is no range check. */
  function ScheduledHour(m: TimeMatch): (h: int)
    requires AllDigits(m.hourDigits)
    ensures var v := DecimalValue(m.hourDigits);
      && (m.meridian.None? || v > 12 ==> h == v)
      && (1 <= v <= 12 && m.meridian == Some(Am) ==> 0 <= h < 12 && h % 12 == v % 12)
      && (1 <= v <= 12 && m.meridian == Some(Pm) ==> 12 <= h < 24 && h % 12 == v % 12)
      && (v == 0 && m.meridian.Some? ==> h == if m.meridian == Some(Pm) then 12 else 0)
  {
    var hour := DecimalValue(m.hourDigits);
    if m.meridian == Some(Pm) && hour < 12 then hour + 12
    else if m.meridian == Some(Am) && hour == 12 then 0
    else hour
  }

  function ScheduledMinute(m: TimeMatch): int
    requires m.minuteDigits.Some? ==> AllDigits(m.minuteDigits.value)
  {
    if m.minuteDigits.Some? then DecimalValue(m.minuteDigits.value) else 0
  }

  /** The weekday indices whose names occur in `s`, scanning the table from index `k` on. */
  function MatchedDays(s: string, k: nat): (r: seq<int>)
    requires k <= 7
    ensures forall i :: 0 <= i < |r| ==> k <= r[i] < 7
    ensures forall i, j :: 0 <= i < j < |r| ==> r[i] < r[j]
    ensures forall d :: k <= d < 7 ==> (d in r <==> Contains(s, DayNames[d]))
    decreases 7 - k
  {
    if k == 7 then [] else (if Contains(s, DayNames[k]) then [k] else []) + MatchedDays(s, k + 1)
  }

  /** The weekday list for a normalised input: keywords first, in order of precedence, then the names. */
  function WeekdaysOf(s: string): (r: seq<int>)
    ensures r == [-1] || (r != [] && forall i :: 0 <= i < |r| ==> 0 <= r[i] < 7)
    ensures forall i, j :: 0 <= i < j < |r| ==> r[i] < r[j]
  {
    if Contains(s, "weekdays") then [1, 2, 3, 4, 5]
    else if Contains(s, "weekends") then [0, 6]
    else if Contains(s, "every day") then [-1]
    else if MatchedDays(s, 0) != [] then MatchedDays(s, 0)
    else [-1]
  }

  /** The hour list for a normalised input: empty without a time, else the one scheduled hour. */
  function HoursOf(s: string): seq<int> {
    match MatchTime(s)
    case None => []
    case Some(m) => [ScheduledHour(m)]
  }

  /** The minute list for a normalised input: empty without a time, else the one minute (0 by default). */
  function MinutesOf(s: string): seq<int> {
    match MatchTime(s)
    case None => []
    case Some(m) => [ScheduledMinute(m)]
  }

  /** The schedule `parseScheduleInput` returns for `input`. */
  function ParseSchedule(input: string): (r: Schedule)
    ensures r.timezone == Timezone && r.expiresAt == 0 && r.mdays == [-1] && r.months == [-1]
  {
    var n := Normalize(input);
    Schedule(Timezone, 0, HoursOf(n), MinutesOf(n), WeekdaysOf(n), [-1], [-1])
  }

  /** `parseScheduleInput`: a default record whose fields are overwritten as the input is scanned. */
  method ParseScheduleInput(input: string) returns (schedule: Schedule)
    ensures schedule == ParseSchedule(input)
  {
    schedule := Schedule(Timezone, 0, [], [], [-1], [-1], [-1]);
    var normalized := Normalize(input);
    schedule := ApplyTime(schedule, normalized);
    schedule := ApplyWeekdays(schedule, normalized);
    if MatchTime(normalized).None? {
      assert HoursOf(normalized) == [] && MinutesOf(normalized) == [];
    }
  }

  /** The time block: when the time expression matches, the hour (moved by the meridiem) and the
      minute replace the empty lists; otherwise the record is left as it was. */
  method ApplyTime(schedule: Schedule, normalized: string) returns (r: Schedule)
    ensures MatchTime(normalized).Some? ==> r == schedule.(hours := HoursOf(normalized), minutes := MinutesOf(normalized))
    ensures MatchTime(normalized).None? ==> r == schedule
  {
    r := schedule;
    var timeMatch := MatchTime(normalized);
    if timeMatch.Some? {
      var hour := DecimalValue(timeMatch.value.hourDigits);
      var minute := if timeMatch.value.minuteDigits.Some? then DecimalValue(timeMatch.value.minuteDigits.value) else 0;
      var meridian := timeMatch.value.meridian;
      if meridian == Some(Pm) && hour < 12 {
        hour := hour + 12;
      }
      if meridian == Some(Am) && hour == 12 {
        hour := 0;
      }
      assert hour == ScheduledHour(timeMatch.value) && minute == ScheduledMinute(timeMatch.value);
      r := r.(hours := [hour], minutes := [minute]);
      TimeFieldsOf(normalized, timeMatch.value);
    }
  }

  /** The keyword block: the first keyword present chooses the weekday list; without one, the day
      names found replace the default [-1], which stays when none is found. */
  method ApplyWeekdays(schedule: Schedule, normalized: string) returns (r: Schedule)
    requires schedule.wdays == [-1]
    ensures r == schedule.(wdays := WeekdaysOf(normalized))
  {
    r := schedule;
    if Contains(normalized, "weekdays") {
      r := r.(wdays := [1, 2, 3, 4, 5]);
    } else if Contains(normalized, "weekends") {
      r := r.(wdays := [0, 6]);
    } else if Contains(normalized, "every day") {
      r := r.(wdays := [-1]);
    } else {
      var matchedDays := MatchedDays(normalized, 0);
      if |matchedDays| > 0 {
        r := r.(wdays := matchedDays);
      }
    }
    WeekdaysCases(normalized);
  }

  lemma WeekdaysCases(n: string)
    ensures Contains(n, "weekdays") ==> WeekdaysOf(n) == [1, 2, 3, 4, 5]
    ensures !Contains(n, "weekdays") && Contains(n, "weekends") ==> WeekdaysOf(n) == [0, 6]
    ensures !Contains(n, "weekdays") && !Contains(n, "weekends") && Contains(n, "every day") ==> WeekdaysOf(n) == [-1]
    ensures !Contains(n, "weekdays") && !Contains(n, "weekends") && !Contains(n, "every day") ==>
      WeekdaysOf(n) == if |MatchedDays(n, 0)| > 0 then MatchedDays(n, 0) else [-1]
  {
  }

  /** The hour stored for an input with a time comes from its first match: "pm" below 12 adds 12, "12 am"
      is 0, and any other hour, "25" among them, is kept as written. MatchAt says which text after the
      digits gives which meridiem. */
  lemma ParsedHour(input: string, m: TimeMatch)
    requires MatchTime(Normalize(input)) == Some(m)
    ensures var v := DecimalValue(m.hourDigits);
      ParseSchedule(input).hours ==
        [if m.meridian == Some(Pm) && v < 12 then v + 12 else if m.meridian == Some(Am) && v == 12 then 0 else v]
  {
    HoursByMeridian(Normalize(input), m);
  }

  lemma HoursByMeridian(n: string, m: TimeMatch)
    requires MatchTime(n) == Some(m)
    ensures var v := DecimalValue(m.hourDigits);
      HoursOf(n) == [if m.meridian == Some(Pm) && v < 12 then v + 12 else if m.meridian == Some(Am) && v == 12 then 0 else v]
  {
    TimeFieldsOf(n, m);
    var v := DecimalValue(m.hourDigits);
    var h := if m.meridian == Some(Pm) && v < 12 then v + 12 else if m.meridian == Some(Am) && v == 12 then 0 else v;
    assert ScheduledHour(m) == h;
  }

  /** The meridian rule for the match at `p`, stated on the text that follows it. */
  lemma MeridianRule(s: string, p: nat)
    requires p < |s| && IsDigit(s[p])
    ensures var m := MatchAt(s, p);
      var v := DecimalValue(m.hourDigits);
      var t := SkipSpaces(s, p + |m.hourDigits| + (if m.minuteDigits.Some? then 3 else 0));
      ScheduledHour(m) == if "pm" <= s[t..] && v < 12 then v + 12 else if "am" <= s[t..] && v == 12 then 0 else v
  {
    var m := MatchAt(s, p);
    var t := SkipSpaces(s, p + |m.hourDigits| + (if m.minuteDigits.Some? then 3 else 0));
    AmNotPm(s[t..]);
  }

  lemma AmNotPm(x: string)
    ensures "am" <= x ==> !("pm" <= x)
  {
    if "am" <= x {
      assert x[0] == 'a';
    }
  }

  lemma TimeFieldsOf(n: string, m: TimeMatch)
    requires MatchTime(n) == Some(m)
    ensures HoursOf(n) == [ScheduledHour(m)] && MinutesOf(n) == [ScheduledMinute(m)]
  {
  }

  // ---------------------------------------------------------------------------------------------
  // Properties of the parser

  /** Lower-casing and trimming add and remove no digit. */
  lemma NormalizeKeepsDigits(input: string)
    ensures NoDigit(Normalize(input)) <==> NoDigit(input)
  {
    var lower := ToLower(input);
    var start := TrimStart(lower);
    TrimStartShape(lower);
    TrimEndShape(start);
    var a := |lower| - |start|;
    if NoDigit(input) {
      NoDigitKept(input, lower, start, a);
    } else {
      DigitKept(input, lower, start, a);
    }
  }

  lemma NoDigitKept(input: string, lower: string, start: string, a: nat)
    requires lower == ToLower(input) && start == TrimStart(lower) && a == |lower| - |start|
    requires TrimEnd(start) == start[..|TrimEnd(start)|] && start == lower[a..]
    requires NoDigit(input)
    ensures NoDigit(Normalize(input))
  {
    var n := TrimEnd(start);
    forall i | 0 <= i < |n| ensures !IsDigit(n[i]) {
      assert n[i] == lower[a + i] == LowerChar(input[a + i]);
    }
  }

  lemma DigitKept(input: string, lower: string, start: string, a: nat)
    requires lower == ToLower(input) && start == TrimStart(lower) && a == |lower| - |start|
    requires TrimEnd(start) == start[..|TrimEnd(start)|] && start == lower[a..]
    requires forall i :: 0 <= i < a ==> IsSpace(lower[i])
    requires forall i :: a + |TrimEnd(start)| <= i < |lower| ==> IsSpace(lower[i])
    requires !NoDigit(input)
    ensures !NoDigit(Normalize(input))
  {
    var n := TrimEnd(start);
    var i :| 0 <= i < |input| && IsDigit(input[i]);
    assert lower[i] == LowerChar(input[i]) == input[i];
    assert !IsSpace(lower[i]);
    assert a <= i < a + |n|;
    assert n[i - a] == lower[i];
  }

  /** Hours and minutes stay empty exactly when the input holds no digit; otherwise each is a singleton. */
  lemma NoDigitNoTime(input: string)
    ensures ParseSchedule(input).hours == [] <==> NoDigit(input)
    ensures ParseSchedule(input).minutes == [] <==> NoDigit(input)
    ensures !NoDigit(input) ==> |ParseSchedule(input).hours| == 1 && |ParseSchedule(input).minutes| == 1
  {
    NormalizeKeepsDigits(input);
  }

  /** The weekday list is one of the keyword lists, or "every" (-1), or the ascending, duplicate-free list of
      the indices of the day names the input contains. */
  lemma WeekdaysShape(input: string)
    ensures var w := ParseSchedule(input).wdays; var n := Normalize(input);
      && (Contains(n, "weekdays") ==> w == [1, 2, 3, 4, 5])
      && (!Contains(n, "weekdays") && Contains(n, "weekends") ==> w == [0, 6])
      && (!Contains(n, "weekdays") && !Contains(n, "weekends") && Contains(n, "every day") ==> w == [-1])
      && (!Contains(n, "weekdays") && !Contains(n, "weekends") && !Contains(n, "every day") ==>
            if forall d :: 0 <= d < 7 ==> !Contains(n, DayNames[d]) then w == [-1]
            else
              && (forall i, j :: 0 <= i < j < |w| ==> w[i] < w[j])
              && (forall d :: 0 <= d < 7 ==> (d in w <==> Contains(n, DayNames[d])))
              && (forall i :: 0 <= i < |w| ==> 0 <= w[i] < 7))
  {
    var n := Normalize(input);
    var days := MatchedDays(n, 0);
    if days == [] {
      forall d | 0 <= d < 7 ensures !Contains(n, DayNames[d]) {
        assert d !in days;
      }
    } else {
      assert days[0] in days;
    }
  }

  /** The weekday list is either the default [-1] alone, or a list of indices in 0..6. */
  lemma WeekdaysInRange(input: string)
    ensures var w := ParseSchedule(input).wdays;
      w == [-1] || forall i :: 0 <= i < |w| ==> 0 <= w[i] < 7
  {
    var n := Normalize(input);
    assert ParseSchedule(input).wdays == WeekdaysOf(n);
  }

  lemma {:induction false} LowerUpper(s: string)
    ensures ToLower(ToUpper(s)) == ToLower(s)
  {
    assert forall i :: 0 <= i < |s| ==> LowerChar(UpperChar(s[i])) == LowerChar(s[i]);
  }

  /** Matching is case-insensitive: upper-casing the input changes nothing. */
  lemma CaseInsensitive(input: string)
    ensures ParseSchedule(ToUpper(input)) == ParseSchedule(input)
  {
    LowerUpper(input);
  }

  ghost predicate AllSpaces(s: string) {
    forall i :: 0 <= i < |s| ==> IsSpace(s[i])
  }

  lemma {:induction false} LowerSpaces(w: string)
    requires AllSpaces(w)
    ensures ToLower(w) == w
  {
  }

  lemma {:induction false} LowerAppend(a: string, b: string)
    ensures ToLower(a + b) == ToLower(a) + ToLower(b)
  {
  }

  lemma {:induction false} TrimStartSpacesPrefix(w: string, x: string)
    requires AllSpaces(w)
    ensures TrimStart(w + x) == TrimStart(x)
    decreases |w|
  {
    if w != [] {
      assert (w + x)[0] == w[0];
      assert (w + x)[1..] == w[1..] + x;
      TrimStartSpacesPrefix(w[1..], x);
    } else {
      assert w + x == x;
    }
  }

  lemma {:induction false} TrimEndSpacesSuffix(x: string, w: string)
    requires AllSpaces(w)
    ensures TrimEnd(x + w) == TrimEnd(x)
    decreases |w|
  {
    if w != [] {
      assert (x + w)[|x + w| - 1] == w[|w| - 1];
      assert (x + w)[..|x + w| - 1] == x + w[..|w| - 1];
      TrimEndSpacesSuffix(x, w[..|w| - 1]);
    } else {
      assert x + w == x;
    }
  }

  lemma {:induction false} TrimStartSpacesSuffix(x: string, w: string)
    requires AllSpaces(w)
    ensures TrimStart(x + w) == if TrimStart(x) == [] then [] else TrimStart(x) + w
    decreases |x|
  {
    if x == [] {
      assert x + w == w;
      TrimStartSpacesPrefix(w, []);
      assert w + [] == w;
    } else if IsSpace(x[0]) {
      assert (x + w)[1..] == x[1..] + w;
      TrimStartSpacesSuffix(x[1..], w);
    }
  }

  /** Whitespace around the phrase is ignored. */
  lemma SurroundingSpaceIgnored(before: string, input: string, after: string)
    requires AllSpaces(before) && AllSpaces(after)
    ensures ParseSchedule(before + input + after) == ParseSchedule(input)
  {
    var l := ToLower(input);
    LowerAppend(before + input, after);
    LowerAppend(before, input);
    LowerSpaces(before);
    LowerSpaces(after);
    assert ToLower(before + input + after) == before + (l + after);
    TrimStartSpacesPrefix(before, l + after);
    TrimStartSpacesSuffix(l, after);
    if TrimStart(l) != [] {
      TrimEndSpacesSuffix(TrimStart(l), after);
    }
    assert Normalize(before + input + after) == Normalize(input);
  }

  // ---------------------------------------------------------------------------------------------
  // The registration-number validator

  datatype Validation = Accepted | Rejected(message: string)

  const LengthMessage: string := "Registration Number must be 8 digits"
  const NumberMessage: string := "Registration Number must be a number"

  /** The `validate` callback of the registration-number field; `isNumber` stands for `!isNaN(Number(value))`.
      The length check comes first. */
  function ValidateRegNo(value: string, isNumber: bool): (r: Validation)
    ensures |value| != 8 ==> r == Rejected(LengthMessage)
    ensures |value| == 8 && !isNumber ==> r == Rejected(NumberMessage)
    ensures r == Accepted <==> |value| == 8 && isNumber
  {
    if |value| != 8 then Rejected(LengthMessage)
    else if !isNumber then Rejected(NumberMessage)
    else Accepted
  }
}
