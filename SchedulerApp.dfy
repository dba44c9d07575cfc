/**
 * The Kivy prototype: `calculate_shift`, which refuses dates before the
 * team's anchor with an error string, and the message `display_shift`
 * puts in the result label.
 */
module SchedulerApp {
  import opened Wrappers
  import opened Calendar
  import opened Rotation
  import WorkSchedule

  /** A parsed `datetime`: its calendar date and the time of day in microseconds since midnight. */
  datatype DateTime = DateTime(date: Date, time: nat)

  /** Returned for dates before the anchor; those dates lie in the past of the anchor, not the future. */
  const BeforeAnchorError := "Error: The date is in the future."
  const NotFoundMessage := "Error: Could not find shift."
  const InvalidInputMessage := "Error: Invalid input. Please check your entries."

  /**
   * `calculate_shift`: `None` for an unknown team, the error string for a
   * date before the anchor, otherwise the shift letter. Only the calendar
   * day of `verifiedDate` is used.
   */
  function CalculateShift(team: int, verifiedDate: DateTime): (r: Option<string>)
    requires ValidDate(verifiedDate.date)
    ensures r == None <==> team !in Anchors
    ensures r == Some(BeforeAnchorError) <==>
              team in Anchors && Ordinal(verifiedDate.date) < Ordinal(Anchors[team])
    ensures team in Anchors && DayOffset(team, verifiedDate.date) >= 0 ==>
              r == Some(Cycle()[DayOffset(team, verifiedDate.date) % CycleLength]) && r.value in Letters
  {
    if team !in Anchors then
      None
    else
      var n := DayOffset(team, verifiedDate.date);
      if n < 0 then
        Some(BeforeAnchorError)
      else
        LookupIsCycleEntry(n);
        Some(Lookup(n))
  }

  /** The time of day never changes the answer. */
  lemma TimeOfDayIgnored(team: int, a: DateTime, b: DateTime)
    requires ValidDate(a.date) && a.date == b.date
    ensures CalculateShift(team, a) == CalculateShift(team, b)
  {
  }

  /** From the anchor on, both prototypes agree; before it, this one reports an error where the other wraps. */
  lemma AgreesWithConsole(team: int, verifiedDate: DateTime)
    requires team in Anchors && ValidDate(verifiedDate.date)
    ensures DayOffset(team, verifiedDate.date) >= 0 ==>
              CalculateShift(team, verifiedDate) == WorkSchedule.CalculateShift(team, verifiedDate.date)
    ensures DayOffset(team, verifiedDate.date) < 0 ==>
              CalculateShift(team, verifiedDate) != WorkSchedule.CalculateShift(team, verifiedDate.date)
  {
    assert BeforeAnchorError !in Letters;
  }

  /** From the anchor on, dates 70 days apart get the same shift. */
  lemma PeriodicOnward(team: int, a: DateTime, b: DateTime)
    requires team in Anchors && ValidDate(a.date) && ValidDate(b.date)
    requires DayOffset(team, a.date) >= 0
    requires Ordinal(b.date) == Ordinal(a.date) + CycleLength
    ensures CalculateShift(team, b) == CalculateShift(team, a) && CalculateShift(team, a).value in Letters
  {
    var n := DayOffset(team, a.date);
    assert DayOffset(team, b.date) == n + CycleLength;
    ModShift(n);
  }

  /** On its anchor date every team gets "S". */
  lemma AnchorIsStraight(team: int, verifiedDate: DateTime)
    requires team in Anchors && verifiedDate.date == Anchors[team]
    ensures ValidDate(verifiedDate.date) && CalculateShift(team, verifiedDate) == Some("S")
  {
    AnchorsValid();
    assert DayOffset(team, verifiedDate.date) == 0;
    LookupIsCycleEntry(0);
  }

  // Decimal rendering, as `str(date)` writes a date: `%04d-%02d-%02d`.

  function Pow10(k: nat): (p: nat)
    ensures p >= 1
  {
    if k == 0 then 1 else 10 * Pow10(k - 1)
  }

  predicate IsDigits(s: string)
  {
    forall i :: 0 <= i < |s| ==> '0' <= s[i] <= '9'
  }

  /** The last `width` decimal digits of `n`, zero-padded on the left. */
  function Digits(n: nat, width: nat): (s: string)
    ensures |s| == width && IsDigits(s)
  {
    if width == 0 then "" else Digits(n / 10, width - 1) + [DigitChar(n % 10)]
  }

  function DigitChar(k: int): (c: char)
    requires 0 <= k < 10
    ensures '0' <= c <= '9' && c as int - '0' as int == k
  {
    ('0' as int + k) as char
  }

  /** The number a string of decimal digits denotes. */
  function DigitsValue(s: string): int
  {
    if s == [] then 0 else 10 * DigitsValue(s[..|s| - 1]) + (s[|s| - 1] as int - '0' as int)
  }

  /** Reading back the padded digits of a number that fits gives the number. */
  lemma {:induction false} DigitsRoundTrip(n: nat, width: nat)
    requires n < Pow10(width)
    ensures DigitsValue(Digits(n, width)) == n
  {
    if width > 0 {
      var q, r := n / 10, n % 10;
      var rest := Digits(q, width - 1);
      var s := rest + [DigitChar(r)];
      assert Digits(n, width) == s;
      assert s[..|s| - 1] == rest;
      assert q < Pow10(width - 1);
      DigitsRoundTrip(q, width - 1);
      assert DigitsValue(s) == 10 * q + r;
    }
  }

  /** `str(date)`: the ISO form YYYY-MM-DD of a date Python can represent. */
  function IsoFormat(d: Date): string
    requires ValidDate(d) && 1 <= d.year <= 9999
  {
    Digits(d.year, 4) + "-" + Digits(d.month, 2) + "-" + Digits(d.day, 2)
  }

  /** The ISO form has ten characters and reads back as the same year, month and day. */
  lemma IsoRoundTrip(d: Date)
    requires ValidDate(d) && 1 <= d.year <= 9999
    ensures var s := IsoFormat(d);
            |s| == 10 && s[4] == '-' && s[7] == '-' &&
            IsDigits(s[..4]) && IsDigits(s[5..7]) && IsDigits(s[8..]) &&
            DigitsValue(s[..4]) == d.year && DigitsValue(s[5..7]) == d.month && DigitsValue(s[8..]) == d.day
  {
    var s := IsoFormat(d);
    assert s[..4] == Digits(d.year, 4);
    assert s[5..7] == Digits(d.month, 2);
    assert s[8..] == Digits(d.day, 2);
    DigitsRoundTrip(d.year, 4);
    DigitsRoundTrip(d.month, 2);
    DigitsRoundTrip(d.day, 2);
  }

  /** What the two text fields held: unparsable (`int` or `strptime` raised ValueError), or a team and a date. */
  datatype Entries = Unparsable | Entries(team: int, when: DateTime)

  /** The sentence `display_shift` writes for a returned value: `f"{shift_type} is the shift for {date}."`. */
  function ShiftMessage(shown: string, d: Date): (text: string)
    requires ValidDate(d) && 1 <= d.year <= 9999
    ensures |text| == |shown| + 29 && text[..|shown|] == shown
    ensures text[|shown|..|shown| + 18] == " is the shift for "
    ensures text[|shown| + 18..|shown| + 28] == IsoFormat(d) && text[|shown| + 28] == '.'
  {
    var iso := IsoFormat(d);
    IsoRoundTrip(d);
    var text := shown + " is the shift for " + iso + ".";
    assert text[..|shown|] == shown;
    assert text[|shown|..|shown| + 18] == " is the shift for ";
    assert text[|shown| + 18..|shown| + 28] == iso;
    text
  }

  /** The text `display_shift` puts in the result label. */
  function DisplayShift(input: Entries): (text: string)
    requires input.Entries? ==> ValidDate(input.when.date) && 1 <= input.when.date.year <= 9999
    ensures input.Unparsable? ==> text == InvalidInputMessage
    ensures input.Entries? && input.team !in Anchors ==> text == NotFoundMessage
    ensures input.Entries? && input.team in Anchors ==>
              var shown := CalculateShift(input.team, input.when).value;
              |text| == |shown| + 29 && text[..|shown|] == shown &&
              text[|shown|..|shown| + 18] == " is the shift for " &&
              text[|shown| + 18..|shown| + 28] == IsoFormat(input.when.date) && text[|shown| + 28] == '.'
  {
    match input
    case Unparsable => InvalidInputMessage
    case Entries(team, when) =>
      match CalculateShift(team, when)
      case None => NotFoundMessage
      case Some(shown) => ShiftMessage(shown, when.date)
  }

  /**
   * A date before the anchor is reported as if its error string were a
   * shift: "Error: The date is in the future. is the shift for YYYY-MM-DD."
   */
  lemma BeforeAnchorShownAsShift(team: int, when: DateTime)
    requires team in Anchors && ValidDate(when.date) && 1 <= when.date.year <= 9999
    requires Ordinal(when.date) < Ordinal(Anchors[team])
    ensures DisplayShift(Entries(team, when)) == BeforeAnchorError + " is the shift for " + IsoFormat(when.date) + "."
  {
  }
}
