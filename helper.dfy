// The compact timestamp helper of lib/helper.ts: a "YYYYMMDDHHMMSS" string is checked and
// spliced into the "YYYY-MM-DDTHH:MM:SS" string handed to the date constructor.

module Helper {
  import opened Wrappers
  import opened Text

  const InvalidFormat := "Invalid format"

  /** The test `^\d{14}$`: exactly fourteen characters, each an ASCII digit. */
  predicate IsCompactTimestamp(s: string) {
    |s| == 14 && forall i :: 0 <= i < |s| ==> IsDigit(s[i])
  }

  /** The six fields of a compact timestamp, as the text slices they are cut into. */
  datatype DateParts = DateParts(year: string, month: string, day: string,
                                 hour: string, minute: string, second: string)

  /** The fixed `slice` calls: [0,4), [4,6), [6,8), [8,10), [10,12), [12,14). */
  function Slices(s: string): (p: DateParts)
    requires |s| == 14
    ensures |p.year| == 4 && |p.month| == 2 && |p.day| == 2
    ensures |p.hour| == 2 && |p.minute| == 2 && |p.second| == 2
  {
    DateParts(s[0..4], s[4..6], s[6..8], s[8..10], s[10..12], s[12..14])
  }

  /** The parts written back one after another. */
  function Joined(p: DateParts): string {
    p.year + p.month + p.day + p.hour + p.minute + p.second
  }

  /** The template string `${year}-${month}-${day}T${hour}:${minute}:${second}`. */
  function IsoString(p: DateParts): string {
    p.year + "-" + p.month + "-" + p.day + "T" + p.hour + ":" + p.minute + ":" + p.second
  }

  /** `formatReadableDate` up to the string given to `new Date`: a malformed input fails with
      "Invalid format", a well-formed one gives its ISO-like spelling. */
  function FormatReadableDate(s: string): (r: Result<string, string>)
    ensures r.Failure? <==> !IsCompactTimestamp(s)
    ensures r.Failure? ==> r.error == InvalidFormat
    ensures r.Success? ==> |r.value| == 19
  {
    if !IsCompactTimestamp(s) then Failure(InvalidFormat) else Success(IsoString(Slices(s)))
  }

  /** The six slices are consecutive and together give back the input. */
  lemma SlicesJoinBack(s: string)
    requires IsCompactTimestamp(s)
    ensures Joined(Slices(s)) == s
  {
    var p := Slices(s);
    assert s == s[0..4] + s[4..6] + s[6..8] + s[8..10] + s[10..12] + s[12..14];
  }

  /** The built string places its separators at fixed positions; every other position holds
      the input's digit. */
  lemma IsoLayout(s: string)
    requires IsCompactTimestamp(s)
    ensures FormatReadableDate(s).Success?
    ensures var iso := FormatReadableDate(s).value;
      && |iso| == 19
      && iso[4] == '-' && iso[7] == '-' && iso[10] == 'T' && iso[13] == ':' && iso[16] == ':'
      && iso[0..4] == s[0..4] && iso[5..7] == s[4..6] && iso[8..10] == s[6..8]
      && iso[11..13] == s[8..10] && iso[14..16] == s[10..12] && iso[17..19] == s[12..14]
  {
    var iso := IsoString(Slices(s));
    assert iso == s[0..4] + "-" + s[4..6] + "-" + s[6..8] + "T" + s[8..10] + ":" + s[10..12] + ":" + s[12..14];
  }

  predicate IsSeparator(c: char) {
    c == '-' || c == 'T' || c == ':'
  }

  /** The string with every separator character deleted. */
  function RemoveSeparators(s: string): (r: string)
    ensures |r| <= |s|
  {
    if s == [] then []
    else (if IsSeparator(s[0]) then [] else [s[0]]) + RemoveSeparators(s[1..])
  }

  lemma {:induction false} RemoveSeparatorsAppend(a: string, b: string)
    ensures RemoveSeparators(a + b) == RemoveSeparators(a) + RemoveSeparators(b)
  {
    if a == [] {
      assert a + b == b;
    } else {
      assert (a + b)[1..] == a[1..] + b;
      RemoveSeparatorsAppend(a[1..], b);
    }
  }

  lemma {:induction false} RemoveSeparatorsDigits(s: string)
    requires Digits(s)
    ensures RemoveSeparators(s) == s
  {
    if s != [] {
      RemoveSeparatorsDigits(s[1..]);
    }
  }

  /** A digit field followed by one separator loses only the separator. */
  lemma StripField(d: string, c: char, rest: string)
    requires Digits(d)
    requires IsSeparator(c)
    ensures RemoveSeparators(d + [c] + rest) == d + RemoveSeparators(rest)
  {
    var tail := [c] + rest;
    assert tail[0] == c && tail[1..] == rest;
    assert RemoveSeparators(tail) == RemoveSeparators(rest);
    RemoveSeparatorsDigits(d);
    assert d + [c] + rest == d + tail;
    RemoveSeparatorsAppend(d, tail);
  }

  ghost predicate Digits(d: string) {
    forall i :: 0 <= i < |d| ==> IsDigit(d[i])
  }

  /** Every slice of a compact timestamp is digits only. */
  lemma SlicesAreDigits(s: string)
    requires IsCompactTimestamp(s)
    ensures var p := Slices(s);
      && Digits(p.year) && Digits(p.month) && Digits(p.day)
      && Digits(p.hour) && Digits(p.minute) && Digits(p.second)
  {
    forall a, b | 0 <= a <= b <= 14 ensures Digits(s[a..b]) {
      assert forall i :: 0 <= i < b - a ==> s[a..b][i] == s[a + i];
    }
  }

  /** Deleting the separators from the built string gives back the original input. */
  lemma SeparatorsRemovedGiveInput(s: string)
    requires IsCompactTimestamp(s)
    ensures RemoveSeparators(FormatReadableDate(s).value) == s
  {
    var p := Slices(s);
    SlicesAreDigits(s);
    var r5 := p.minute + [':'] + p.second;
    var r4 := p.hour + [':'] + r5;
    var r3 := p.day + ['T'] + r4;
    var r2 := p.month + ['-'] + r3;
    var r1 := p.year + ['-'] + r2;
    assert FormatReadableDate(s).value == IsoString(p) == r1;
    RemoveSeparatorsDigits(p.second);
    StripField(p.minute, ':', p.second);
    StripField(p.hour, ':', r5);
    StripField(p.day, 'T', r4);
    StripField(p.month, '-', r3);
    StripField(p.year, '-', r2);
    var nested := p.year + (p.month + (p.day + (p.hour + (p.minute + p.second))));
    assert RemoveSeparators(r1) == nested;
    assert Joined(p) == nested;
    SlicesJoinBack(s);
  }

  lemma SampleIsCompact()
    ensures IsCompactTimestamp("20241340256199")
  {
    var s := "20241340256199";
    assert forall i :: 0 <= i < |s| ==> IsDigit(s[i]);
  }

  lemma SampleSlices()
    ensures |"20241340256199"| == 14
    ensures Slices("20241340256199") == DateParts("2024", "13", "40", "25", "61", "99")
  {
  }

  lemma SampleIso()
    ensures IsoString(DateParts("2024", "13", "40", "25", "61", "99")) == "2024-13-40T25:61:99"
  {
  }

  /** There is no calendar check: month 13, day 40, hour 25 and minute 61 pass through. */
  lemma NoCalendarCheck()
    ensures FormatReadableDate("20241340256199") == Success("2024-13-40T25:61:99")
  {
    SampleIsCompact();
    SampleSlices();
    SampleIso();
  }

  /** One character short, or a non-digit, is rejected. */
  lemma MalformedRejected()
    ensures FormatReadableDate("2024134025619") == Failure(InvalidFormat)
    ensures FormatReadableDate("2024-340256199") == Failure(InvalidFormat)
  {
    assert !IsDigit("2024-340256199"[4]);
  }
}
