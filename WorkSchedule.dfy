/**
 * `calculate_shift` of the console prototype: team number and calendar
 * date to shift letter, wrapping dates before the team's anchor into the
 * previous cycle.
 */
module WorkSchedule {
  import opened Wrappers
  import opened Calendar
  import opened Rotation

  /** How a Python call ends: it returns a value or raises an exception. */
  datatype Outcome<T> = Returned(value: T) | Raised(exception: string)

  const NotCallable := "TypeError: 'datetime.datetime' object is not callable"

  /**
   * `calculate_shift` as written: the parameter `date` hides the imported
   * `date` class, so the first entry of the anchor table, `date(2025, 2, 2)`,
   * calls the argument itself. A `datetime` is not callable, and the table is
   * built before the team is looked up, so every call raises.
   */
  function CalculateShiftAsWritten(team: int, date: Date): Outcome<Option<string>>
  {
    Raised(NotCallable)
  }

  /**
   * `calculate_shift` as intended: `None` for a team without an anchor,
   * otherwise the table entry for the whole-day offset from the anchor.
   */
  function CalculateShift(team: int, date: Date): (r: Option<string>)
    requires ValidDate(date)
    ensures r == None <==> team !in Anchors
    ensures r.Some? ==> r.value in Letters
    ensures team in Anchors ==> r == Some(Cycle()[DayOffset(team, date) % CycleLength])
  {
    if team in Anchors then
      var n := DayOffset(team, date);
      LookupIsCycleEntry(n);
      Some(Lookup(n))
    else
      None
  }

  /** On its anchor date every team starts the cycle with a Straight week. */
  lemma AnchorIsStraight(team: int)
    requires team in Anchors
    ensures ValidDate(Anchors[team]) && CalculateShift(team, Anchors[team]) == Some(Table[0][0])
    ensures Table[0][0] == "S"
  {
    AnchorsValid();
    assert DayOffset(team, Anchors[team]) == 0;
    LookupIsCycleEntry(0);
  }

  /** Dates 70 days apart get the same shift, on either side of the anchor. */
  lemma PeriodicInDates(team: int, d1: Date, d2: Date)
    requires ValidDate(d1) && ValidDate(d2)
    requires Ordinal(d2) == Ordinal(d1) + CycleLength
    ensures CalculateShift(team, d2) == CalculateShift(team, d1)
  {
    if team in Anchors {
      var n := DayOffset(team, d1);
      assert DayOffset(team, d2) == n + CycleLength;
      ModShift(n);
    }
  }

  /** Before the anchor the shift is the one reached by walking the cycle backwards from it, day by day. */
  lemma BeforeAnchorWalksBack(team: int, date: Date)
    requires team in Anchors && ValidDate(date)
    requires DayOffset(team, date) < 0
    ensures CalculateShift(team, date) == Some(Cycle()[Walk(DayOffset(team, date))])
  {
    LookupIsWalk(DayOffset(team, date));
  }

  /** The next calendar day advances one position in the cycle, wrapping after day 70. */
  lemma NextDayAdvances(team: int, date: Date)
    requires team in Anchors && ValidDate(date)
    ensures CalculateShift(team, NextDate(date)) == Some(Cycle()[Advance(Walk(DayOffset(team, date)))])
  {
    OrdinalNext(date);
    var n := DayOffset(team, date);
    assert DayOffset(team, NextDate(date)) == n + 1;
    WalkIsMod(n + 1);
    WalkStep(n);
  }

  /** Worked dates of the 2025 rotation. */
  lemma Scenarios()
    ensures CalculateShift(1, Date(2025, 2, 2)) == Some("S")
    ensures CalculateShift(1, Date(2025, 2, 9)) == Some("M")
    ensures CalculateShift(4, Date(2025, 1, 5)) == Some("S")
    ensures CalculateShift(4, Date(2025, 1, 4)) == Some("S")
    ensures CalculateShift(2, Date(2025, 4, 27)) == Some("S")
    ensures CalculateShift(99, Date(2025, 2, 2)) == None
  {
    assert DayOffset(1, Date(2025, 2, 9)) == 7;
    assert DayOffset(4, Date(2025, 1, 4)) == -1;
    assert DayOffset(2, Date(2025, 4, 27)) == 70;
  }

  /** The code as written never returns, even for a known team on its own anchor date, where the intended result is "S". */
  lemma AsWrittenNeverReturns(team: int, date: Date)
    requires ValidDate(date)
    ensures CalculateShiftAsWritten(team, date).Raised?
    ensures CalculateShift(1, Date(2025, 2, 2)) == Some("S")
    ensures CalculateShiftAsWritten(1, Date(2025, 2, 2)) != Returned(CalculateShift(1, Date(2025, 2, 2)))
  {
    AnchorIsStraight(1);
  }
}
