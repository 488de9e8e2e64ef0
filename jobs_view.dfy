/** The display helpers and the newest-first ordering of the job list page. */
module JobsView {
  import opened Wrappers
  import opened Text
  import ScheduleInput

  // ---------------------------------------------------------------------------------------------
  // Weekday letters

  /** The `dayMap` lookup: a letter for 0..6, `undefined` for anything else (such as the default -1). */
  function DayLetter(day: int): (r: Option<string>)
    ensures r.Some? <==> 0 <= day < 7
  {
    if day == 0 then Some("S")
    else if day == 1 then Some("M")
    else if day == 2 then Some("T")
    else if day == 3 then Some("W")
    else if day == 4 then Some("T")
    else if day == 5 then Some("F")
    else if day == 6 then Some("S")
    else None
  }

  /** `getDayNames`: the letter of every entry, in order. */
  function GetDayNames(days: seq<int>): (r: seq<Option<string>>)
    ensures |r| == |days|
    ensures forall i :: 0 <= i < |days| ==> r[i] == DayLetter(days[i])
  {
    seq(|days|, i requires 0 <= i < |days| => DayLetter(days[i]))
  }

  /** The letter of each weekday is the capitalised initial of the name the schedule parser looks for. */
  lemma DayLetterIsInitial(day: int)
    requires 0 <= day < 7
    ensures DayLetter(day) == Some([UpperChar(ScheduleInput.DayNames[day][0])])
  {
  }

  /** The display of a parsed weekday list: the default "every day" list shows no letter, and every other
      list shows a letter for each of its entries. */
  lemma ParsedDaysDisplay(input: string)
    ensures var w := ScheduleInput.ParseSchedule(input).wdays;
      && (w == [-1] ==> GetDayNames(w) == [None])
      && (w != [-1] ==> forall i :: 0 <= i < |w| ==> GetDayNames(w)[i].Some?)
  {
    ScheduleInput.WeekdaysInRange(input);
  }

  // ---------------------------------------------------------------------------------------------
  // 12-hour time

  /** JavaScript's `%`: the remainder takes the sign of the dividend. */
  function JsRem(a: int, b: int): (r: int)
    requires b > 0
    ensures -b < r < b
    ensures a >= 0 ==> r == a % b
  {
    if a >= 0 then a % b else -((-a) % b)
  }

  /** `hours % 12 || 12`. */
  function DisplayHour(hours: int): int {
    var r := JsRem(hours, 12);
    if r == 0 then 12 else r
  }

  function Meridiem(hours: int): string {
    if hours < 12 then "AM" else "PM"
  }

  /** `minutes.toString().padStart(2, '0')`. */
  function MinuteText(minutes: int): string {
    PadStart(IntToString(minutes), 2, '0')
  }

  /** `getTime`: "h:mm AM" or "h:mm PM". The text ends in a space and "AM" exactly when the hour is
      before noon, and in a space and "PM" otherwise. */
  function GetTime(hours: int, minutes: int): (t: string)
    ensures |t| >= 7 && t[|t| - 3] == ' '
    ensures t[|t| - 2..] == "AM" <==> hours < 12
    ensures t[|t| - 2..] == "PM" <==> hours >= 12
  {
    var front := IntToString(DisplayHour(hours)) + ":" + MinuteText(minutes);
    var t := front + " " + Meridiem(hours);
    assert t[|t| - 3] == ' ' && t[|t| - 2..] == Meridiem(hours);
    assert "AM" != "PM" by { assert "AM"[0] != "PM"[0]; }
    t
  }

  /** The time cell of a job, `getTime(item.schedule.hours, item.schedule.minutes)`: the lists the parser
      stores are coerced by JavaScript, a one-element list like its element and the empty list to 0 in
      arithmetic and to "" as text. So a job without a time shows "12:00 AM". */
  function GetTimeOfLists(hours: seq<int>, minutes: seq<int>): (t: string)
    requires |hours| <= 1 && |minutes| <= 1
    ensures hours == [] && minutes == [] ==> t == "12:00 AM"
    ensures |hours| == 1 && |minutes| == 1 ==> t == GetTime(hours[0], minutes[0])
  {
    var h := ListNumber(hours);
    var m := PadStart(ListText(minutes), 2, '0');
    assert hours == [] ==> IntToString(DisplayHour(h)) == "12";
    assert minutes == [] ==> m == "00";
    IntToString(DisplayHour(h)) + ":" + m + " " + Meridiem(h)
  }

  /** A list of at most one number as an operand of `<` or `%`: `Number([])` is 0, `Number([x])` is x. */
  function ListNumber(xs: seq<int>): int
    requires |xs| <= 1
  {
    if xs == [] then 0 else xs[0]
  }

  /** A list of at most one number as text: `String([])` is "", `String([x])` is `String(x)`. */
  function ListText(xs: seq<int>): string
    requires |xs| <= 1
  {
    if xs == [] then "" else IntToString(xs[0])
  }

  /** What the job list shows for a parsed schedule: "12:00 AM" for a phrase without a digit, and
      otherwise the 12-hour text of the one hour and minute stored. */
  lemma ShownTime(input: string)
    ensures var s := ScheduleInput.ParseSchedule(input);
      |s.hours| <= 1 && |s.minutes| <= 1
      && (ScheduleInput.NoDigit(input) ==> GetTimeOfLists(s.hours, s.minutes) == "12:00 AM")
      && (!ScheduleInput.NoDigit(input) ==>
            |s.hours| == 1 && |s.minutes| == 1 && GetTimeOfLists(s.hours, s.minutes) == GetTime(s.hours[0], s.minutes[0]))
  {
    ScheduleInput.NoDigitNoTime(input);
  }

  /** The displayed hour is the hour modulo 12 with 0 shown as 12, so it lies in 1..12 for a non-negative hour. */
  lemma DisplayHourRange(hours: int)
    requires hours >= 0
    ensures 1 <= DisplayHour(hours) <= 12
    ensures DisplayHour(hours) % 12 == hours % 12
  {
  }

  /** The minutes are left-padded with '0' to at least two characters. */
  lemma MinutesPadded(minutes: int)
    ensures |MinuteText(minutes)| >= 2
    ensures 0 <= minutes < 10 ==> MinuteText(minutes) == ['0', DigitChar(minutes)]
    ensures minutes >= 10 ==> MinuteText(minutes) == NatToString(minutes)
  {
    if minutes >= 10 {
      assert NatToString(minutes) == NatToString(minutes / 10) + [DigitChar(minutes % 10)];
    }
  }

  // ---------------------------------------------------------------------------------------------
  // Round trip: what the job list shows, when typed back into the schedule field, gives back the time.

  lemma {:induction false} DecimalOfNatToString(n: nat)
    ensures ScheduleInput.AllDigits(NatToString(n))
    ensures ScheduleInput.DecimalValue(NatToString(n)) == n
    decreases n
  {
    if n >= 10 {
      var s := NatToString(n);
      DecimalOfNatToString(n / 10);
      assert s[..|s| - 1] == NatToString(n / 10);
    }
  }

  lemma {:induction false} TrimUnchanged(s: string)
    requires s != [] && !IsSpace(s[0]) && !IsSpace(s[|s| - 1])
    ensures Trim(s) == s
  {
  }

  lemma HourPiece(hours: int)
    requires 0 <= hours <= 23
    ensures var h := NatToString(DisplayHour(hours));
      && 1 <= |h| <= 2 && ScheduleInput.AllDigits(h)
      && ScheduleInput.DecimalValue(h) == DisplayHour(hours)
  {
    var d := DisplayHour(hours);
    DecimalOfNatToString(d);
    if d >= 10 {
      assert NatToString(d) == NatToString(d / 10) + [DigitChar(d % 10)];
    }
  }

  lemma MinutePiece(minutes: int)
    requires 0 <= minutes <= 59
    ensures var m := MinuteText(minutes);
      && |m| == 2 && ScheduleInput.AllDigits(m) && ScheduleInput.DecimalValue(m) == minutes
  {
    MinutesPadded(minutes);
    var m := MinuteText(minutes);
    if minutes < 10 {
      assert m[..1] == "0";
      assert ScheduleInput.DecimalValue(m) == ScheduleInput.DecimalValue(m[..1]) * 10 + minutes;
    } else {
      DecimalOfNatToString(minutes);
      assert NatToString(minutes) == NatToString(minutes / 10) + [DigitChar(minutes % 10)];
    }
  }

  /** The time display, split into the pieces the parser sees. */
  lemma GetTimePieces(hours: int, minutes: int)
    requires 0 <= hours <= 23 && 0 <= minutes <= 59
    ensures var h := NatToString(DisplayHour(hours)); var m := MinuteText(minutes);
      && 1 <= |h| <= 2 && |m| == 2
      && ScheduleInput.AllDigits(h) && ScheduleInput.AllDigits(m)
      && ScheduleInput.DecimalValue(h) == DisplayHour(hours)
      && ScheduleInput.DecimalValue(m) == minutes
      && GetTime(hours, minutes) == h + ":" + m + " " + Meridiem(hours)
  {
    HourPiece(hours);
    MinutePiece(minutes);
    assert DisplayHour(hours) >= 1;
  }

  lemma {:induction false} LowerDigits(s: string)
    requires ScheduleInput.AllDigits(s)
    ensures ToLower(s) == s
  {
  }

  /** The lower-cased display as the parser matches it. */
  lemma NormalizedTime(h: string, m: string, suffix: string)
    requires h != [] && ScheduleInput.AllDigits(h) && ScheduleInput.AllDigits(m)
    requires suffix == "AM" || suffix == "PM"
    ensures ScheduleInput.Normalize(h + ":" + m + " " + suffix) == h + ":" + m + " " + ToLower(suffix)
  {
    var rest := ":" + m + " ";
    assert h + ":" + m + " " + suffix == h + rest + suffix;
    ScheduleInput.LowerAppend(h + rest, suffix);
    ScheduleInput.LowerAppend(h, rest);
    LowerDigits(h);
    ScheduleInput.LowerAppend(":", m + " ");
    ScheduleInput.LowerAppend(m, " ");
    LowerDigits(m);
    assert m + " " == m + [' '];
    assert ToLower(rest) == rest;
    var l := h + rest + ToLower(suffix);
    assert l[0] == h[0];
    assert l[|l| - 1] == 'm';
    TrimUnchanged(l);
  }

  /** The hour and minute captures at the start of a text laid out as digits, ':', two digits and a space. */
  lemma MatchAtDigits(s: string, q: nat)
    requires 1 <= q <= 2 && |s| == q + 6
    requires IsDigit(s[0]) && (q == 2 ==> IsDigit(s[1]))
    requires s[q] == ':' && IsDigit(s[q + 1]) && IsDigit(s[q + 2]) && s[q + 3] == ' '
    ensures ScheduleInput.MatchAt(s, 0).hourDigits == s[0..q]
    ensures ScheduleInput.MatchAt(s, 0).minuteDigits == Some(s[q + 1..q + 3])
  {
    var m := ScheduleInput.MatchAt(s, 0);
    assert |m.hourDigits| == q;
    assert m.hourDigits == s[0..q];
    assert m.minuteDigits.Some?;
    assert m.minuteDigits.value == s[q + 1..q + 3] by {
      var w := [':'] + m.minuteDigits.value;
      assert w <= s[q..];
      assert w[1..] == m.minuteDigits.value;
    }
  }

  /** The meridiem capture of the same layout, followed by "am" or "pm". */
  lemma MatchAtMeridian(s: string, q: nat, mer: ScheduleInput.Meridian)
    requires 1 <= q <= 2 && |s| == q + 6
    requires IsDigit(s[0]) && (q == 2 ==> IsDigit(s[1]))
    requires s[q] == ':' && IsDigit(s[q + 1]) && IsDigit(s[q + 2]) && s[q + 3] == ' '
    requires s[q + 4..] == if mer == ScheduleInput.Am then "am" else "pm"
    ensures ScheduleInput.MatchAt(s, 0).meridian == Some(mer)
  {
    MatchAtDigits(s, q);
    assert ScheduleInput.SkipSpaces(s, q + 4) == q + 4;
    assert ScheduleInput.SkipSpaces(s, q + 3) == q + 4;
    assert "am" <= s[q + 4..] <==> mer == ScheduleInput.Am by { assert "am"[0] != "pm"[0]; }
  }

  /** The regular expression at the start of a text laid out as digits, ':', two digits, ' ' and a meridiem. */
  lemma MatchAtTimeLayout(s: string, q: nat, mer: ScheduleInput.Meridian)
    requires 1 <= q <= 2 && |s| == q + 6
    requires IsDigit(s[0]) && (q == 2 ==> IsDigit(s[1]))
    requires s[q] == ':' && IsDigit(s[q + 1]) && IsDigit(s[q + 2]) && s[q + 3] == ' '
    requires s[q + 4..] == if mer == ScheduleInput.Am then "am" else "pm"
    ensures ScheduleInput.MatchAt(s, 0) == ScheduleInput.TimeMatch(s[0..q], Some(s[q + 1..q + 3]), Some(mer))
  {
    MatchAtDigits(s, q);
    MatchAtMeridian(s, q, mer);
  }

  /** What the time regular expression captures in "h:mm am" or "h:mm pm". */
  lemma MatchTimeText(h: string, m: string, ap: string)
    requires 1 <= |h| <= 2 && |m| == 2 && ScheduleInput.AllDigits(h) && ScheduleInput.AllDigits(m)
    requires ap == "am" || ap == "pm"
    ensures ScheduleInput.MatchTime(h + ":" + m + " " + ap)
      == Some(ScheduleInput.TimeMatch(h, Some(m), Some(if ap == "am" then ScheduleInput.Am else ScheduleInput.Pm)))
  {
    var n := h + ":" + m + " " + ap;
    var q := |h|;
    var mer := if ap == "am" then ScheduleInput.Am else ScheduleInput.Pm;
    assert n[0..q] == h && n[q] == ':' && n[q + 1..q + 3] == m && n[q + 3] == ' ' && n[q + 4..] == ap;
    assert n[0] == h[0] && (q == 2 ==> n[1] == h[1]);
    assert IsDigit(n[q + 1]) && IsDigit(n[q + 2]) by { assert n[q + 1] == m[0] && n[q + 2] == m[1]; }
    assert ScheduleInput.FindDigit(n, 0) == Some(0);
    MatchAtTimeLayout(n, q, mer);
  }

  lemma NoDayName(n: string)
    requires 'y' !in n
    ensures forall d :: 0 <= d < 7 ==> !Contains(n, ScheduleInput.DayNames[d])
  {
    forall d | 0 <= d < 7 ensures !Contains(n, ScheduleInput.DayNames[d]) {
      assert 'y' in ScheduleInput.DayNames[d];
      MissingCharNotContained(n, ScheduleInput.DayNames[d], 'y');
    }
  }

  lemma {:induction false} NoMatchedDays(n: string, k: nat)
    requires k <= 7
    requires forall d :: k <= d < 7 ==> !Contains(n, ScheduleInput.DayNames[d])
    ensures ScheduleInput.MatchedDays(n, k) == []
    decreases 7 - k
  {
    if k < 7 {
      NoMatchedDays(n, k + 1);
    }
  }

  /** A text with neither 'y' nor 'w' names no weekday and no keyword, so the weekday list stays [-1]. */
  lemma NoWeekdayText(n: string)
    requires 'y' !in n && 'w' !in n
    ensures ScheduleInput.WeekdaysOf(n) == [-1]
  {
    MissingCharNotContained(n, "weekdays", 'y');
    MissingCharNotContained(n, "weekends", 'w');
    MissingCharNotContained(n, "every day", 'y');
    NoDayName(n);
    NoMatchedDays(n, 0);
  }

  lemma LowerMeridiem(hours: int)
    ensures ToLower(Meridiem(hours)) == if hours < 12 then "am" else "pm"
  {
    var l := ToLower(Meridiem(hours));
    assert l[0] == if hours < 12 then 'a' else 'p';
    assert l[1] == 'm';
  }

  lemma DigitsLackLetters(s: string)
    requires ScheduleInput.AllDigits(s)
    ensures 'y' !in s && 'w' !in s
  {
  }

  /** The 12-hour display hour with its meridiem converts back to the 24-hour value. */
  lemma DisplayHourConvertsBack(hours: int, h: string, m: string)
    requires 0 <= hours <= 23 && ScheduleInput.AllDigits(h) && ScheduleInput.DecimalValue(h) == DisplayHour(hours)
    ensures ScheduleInput.ScheduledHour(ScheduleInput.TimeMatch(h, Some(m),
      Some(if hours < 12 then ScheduleInput.Am else ScheduleInput.Pm))) == hours
  {
  }

  /** The hour and minute a normalized "h:mm am" / "h:mm pm" text yields. */
  lemma TimeTextValues(h: string, m: string, ap: string, hours: int, minutes: int)
    requires 1 <= |h| <= 2 && |m| == 2 && ScheduleInput.AllDigits(h) && ScheduleInput.AllDigits(m)
    requires ap == (if hours < 12 then "am" else "pm")
    requires 0 <= hours <= 23 && ScheduleInput.DecimalValue(h) == DisplayHour(hours)
    requires ScheduleInput.DecimalValue(m) == minutes
    ensures ScheduleInput.HoursOf(h + ":" + m + " " + ap) == [hours]
    ensures ScheduleInput.MinutesOf(h + ":" + m + " " + ap) == [minutes]
  {
    MatchTimeText(h, m, ap);
    DisplayHourConvertsBack(hours, h, m);
  }

  /** Such a text names no weekday. */
  lemma TimeTextNoWeekday(h: string, m: string, ap: string)
    requires ScheduleInput.AllDigits(h) && ScheduleInput.AllDigits(m)
    requires ap == "am" || ap == "pm"
    ensures ScheduleInput.WeekdaysOf(h + ":" + m + " " + ap) == [-1]
  {
    DigitsLackLetters(h);
    DigitsLackLetters(m);
    var n := h + ":" + m + " " + ap;
    assert forall c :: c in n ==> c in h || c in m || c in ap || c == ':' || c == ' ';
    NoWeekdayText(n);
  }

  /** The normalized display text yields the hour and minute back, and no weekday. */
  lemma DisplayTextParses(hours: int, minutes: int)
    requires 0 <= hours <= 23 && 0 <= minutes <= 59
    ensures var n := NatToString(DisplayHour(hours)) + ":" + MinuteText(minutes) + " " + ToLower(Meridiem(hours));
      && ScheduleInput.HoursOf(n) == [hours]
      && ScheduleInput.MinutesOf(n) == [minutes]
      && ScheduleInput.WeekdaysOf(n) == [-1]
  {
    GetTimePieces(hours, minutes);
    LowerMeridiem(hours);
    var h := NatToString(DisplayHour(hours));
    var m := MinuteText(minutes);
    var ap := ToLower(Meridiem(hours));
    TimeTextValues(h, m, ap, hours, minutes);
    TimeTextNoWeekday(h, m, ap);
  }

  /** For a valid time of day, the job list's "h:mm AM/PM" text parses back to the same hour and minute,
      and names no weekday. */
  lemma GetTimeParsesBack(hours: int, minutes: int)
    requires 0 <= hours <= 23 && 0 <= minutes <= 59
    ensures ScheduleInput.ParseSchedule(GetTime(hours, minutes)).hours == [hours]
    ensures ScheduleInput.ParseSchedule(GetTime(hours, minutes)).minutes == [minutes]
    ensures ScheduleInput.ParseSchedule(GetTime(hours, minutes)).wdays == [-1]
  {
    GetTimePieces(hours, minutes);
    var h := NatToString(DisplayHour(hours));
    var m := MinuteText(minutes);
    NormalizedTime(h, m, Meridiem(hours));
    var n := h + ":" + m + " " + ToLower(Meridiem(hours));
    assert ScheduleInput.Normalize(GetTime(hours, minutes)) == n;
    DisplayTextParses(hours, minutes);
  }

  // ---------------------------------------------------------------------------------------------
  // Newest-first ordering

  /** A job as the list page receives it; `createdAt` is the creation time as a timestamp. */
  datatype Job = Job(id: string, title: string, createdAt: int)

  ghost predicate NewestFirst(s: seq<Job>) {
    forall i, j :: 0 <= i < j < |s| ==> s[i].createdAt >= s[j].createdAt
  }

  /** `sortedJobs`: `jobs.sort` with the comparator `b.createdAt - a.createdAt`, which reorders the fetched
      array in place so that newer jobs come first. */
  method SortNewestFirst(jobs: array<Job>)
    modifies jobs
    ensures NewestFirst(jobs[..])
    ensures multiset(jobs[..]) == multiset(old(jobs[..]))
  {
    var i := 0;
    while i < jobs.Length
      invariant 0 <= i <= jobs.Length
      invariant NewestFirst(jobs[..i])
      invariant multiset(jobs[..]) == multiset(old(jobs[..]))
    {
      InsertNewest(jobs, i);
      i := i + 1;
    }
    assert jobs[..] == jobs[..jobs.Length];
  }

  /** While job `j` is being inserted into the first `i + 1` positions: every other pair there is in order,
      and job `j` is newer than every job after it. */
  ghost predicate Inserting(s: seq<Job>, j: nat, i: nat)
    requires j <= i < |s|
  {
    && (forall k, l :: 0 <= k < l <= i && k != j && l != j ==> s[k].createdAt >= s[l].createdAt)
    && (forall l :: j < l <= i ==> s[j].createdAt > s[l].createdAt)
  }

  function SwapDown(s: seq<Job>, j: nat): (r: seq<Job>)
    requires 0 < j < |s|
    ensures |r| == |s| && multiset(r) == multiset(s)
  {
    var r := s[j - 1 := s[j]][j := s[j - 1]];
    assert r == s[..j - 1] + [s[j], s[j - 1]] + s[j + 1..];
    assert s == s[..j - 1] + [s[j - 1], s[j]] + s[j + 1..];
    r
  }

  lemma SwapDownInserting(s: seq<Job>, j: nat, i: nat)
    requires 0 < j <= i < |s| && Inserting(s, j, i)
    requires s[j - 1].createdAt < s[j].createdAt
    ensures Inserting(SwapDown(s, j), j - 1, i)
  {
  }

  lemma SwapDownKeepsSuffix(s: seq<Job>, j: nat, i: nat)
    requires 0 < j <= i < |s|
    ensures SwapDown(s, j)[i + 1..] == s[i + 1..]
  {
  }

  lemma InsertingStart(s: seq<Job>, i: nat)
    requires i < |s| && NewestFirst(s[..i])
    ensures Inserting(s, i, i)
  {
    forall k, l | 0 <= k < l <= i && k != i && l != i ensures s[k].createdAt >= s[l].createdAt {
      assert s[..i][k] == s[k] && s[..i][l] == s[l];
    }
  }

  /** Once job `j` is no newer than the job before it, the first `i + 1` jobs are newest-first. */
  lemma InsertingDone(s: seq<Job>, j: nat, i: nat)
    requires j <= i < |s| && Inserting(s, j, i)
    requires j == 0 || s[j - 1].createdAt >= s[j].createdAt
    ensures NewestFirst(s[..i + 1])
  {
    var t := s[..i + 1];
    forall k, l | 0 <= k < l < |t| ensures t[k].createdAt >= t[l].createdAt {
      if l == j && k < j - 1 {
        assert s[k].createdAt >= s[j - 1].createdAt;
      }
    }
  }

  /** One insertion step: the job at `i` moves left past every older job, so the first `i + 1` jobs end up
      newest-first, and the array still holds the same jobs. */
  method InsertNewest(jobs: array<Job>, i: nat)
    requires i < jobs.Length && NewestFirst(jobs[..i])
    modifies jobs
    ensures NewestFirst(jobs[..i + 1])
    ensures multiset(jobs[..]) == multiset(old(jobs[..]))
    ensures jobs[i + 1..] == old(jobs[i + 1..])
  {
    var j := i;
    InsertingStart(jobs[..], i);
    while j > 0 && jobs[j - 1].createdAt < jobs[j].createdAt
      invariant 0 <= j <= i
      invariant Inserting(jobs[..], j, i)
      invariant multiset(jobs[..]) == multiset(old(jobs[..]))
      invariant jobs[i + 1..] == old(jobs[i + 1..])
    {
      ghost var before := jobs[..];
      SwapDownInserting(before, j, i);
      SwapDownKeepsSuffix(before, j, i);
      jobs[j - 1], jobs[j] := jobs[j], jobs[j - 1];
      assert jobs[..] == SwapDown(before, j);
      j := j - 1;
    }
    InsertingDone(jobs[..], j, i);
  }
}
