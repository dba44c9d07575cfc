/**
 * The home screen of the React Native prototype: the team buttons, the
 * shifts it shows for the selected team, and the gradient each shift
 * circle is drawn with.
 */
module HomeScreen {
  import opened Wrappers
  import Rotation

  /** The team buttons, in order. */
  const Teams: seq<int> := [1, 2, 3, 4]

  const DayColors: seq<string> := ["#FBBF24", "#F59E0B"]
  const MidColors: seq<string> := ["#6366F1", "#4F46E5"]
  const BreakColors: seq<string> := ["#34D399", "#10B981"]
  const DefaultColors: seq<string> := ["#6B7280", "#4B5563"]

  /** `getShiftColor`: the two gradient stops for a shift label; grey for any other label and for `null`. */
  function ShiftColor(shift: Option<string>): (colors: seq<string>)
    ensures |colors| == 2
    ensures shift == Some("Day") <==> colors == DayColors
    ensures shift == Some("Mid") <==> colors == MidColors
    ensures shift == Some("Break") <==> colors == BreakColors
    ensures colors == DefaultColors <==> shift !in {Some("Day"), Some("Mid"), Some("Break")}
  {
    match shift
    case Some("Day") => DayColors
    case Some("Mid") => MidColors
    case Some("Break") => BreakColors
    case _ => DefaultColors
  }

  /** The previous, current and next shift circles. */
  datatype Shown = Shown(previous: Option<string>, current: Option<string>, next: Option<string>)

  /** JavaScript truthiness of `selectedTeam: number | null`. */
  predicate Truthy(team: Option<int>)
  {
    team.Some? && team.value != 0
  }

  /**
   * `shift`, `prevShift` and `nextShift`: fixed placeholders while a team
   * is selected, `null` otherwise. The selected date plays no part.
   */
  function ShiftsShown(selectedTeam: Option<int>, selectedDate: int): (s: Shown)
    ensures !Truthy(selectedTeam) <==> s == Shown(None, None, None)
    ensures Truthy(selectedTeam) ==> s.current == Some("Day") && s.previous == Some("Break") && s.next == Some("Mid")
  {
    if Truthy(selectedTeam) then Shown(Some("Break"), Some("Day"), Some("Mid"))
    else Shown(None, None, None)
  }

  /** The circles never depend on the date, and every selectable team gets its own colours on each circle. */
  lemma ShownIgnoresDate(team: int, d1: int, d2: int)
    requires team in Teams
    ensures ShiftsShown(Some(team), d1) == ShiftsShown(Some(team), d2)
    ensures var s := ShiftsShown(Some(team), d1);
            ShiftColor(s.previous) == BreakColors && ShiftColor(s.current) == DayColors && ShiftColor(s.next) == MidColors
  {
  }

  /** The team buttons are exactly the teams that have a rotation anchor. */
  lemma TeamsHaveAnchors()
    ensures forall t :: t in Teams <==> t in Rotation.Anchors
  {
  }
}
