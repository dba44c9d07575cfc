/**
 * The rotation calendar shared by both Python prototypes: ten weeks of
 * seven shift letters ("S" Straight, "M" Mid, "D" Day, "B" Break), and the
 * date on which each of the four teams starts week 1, day 1.
 */
module Rotation {
  import opened Calendar

  /** The ten-week rotation, one row per week, one letter per day. */
  const Table: seq<seq<string>> := [
    ["S", "S", "S", "S", "S", "S", "S"],
    ["M", "M", "M", "M", "B", "B", "B"],
    ["M", "M", "M", "B", "B", "B", "B"],
    ["D", "D", "D", "B", "B", "B", "B"],
    ["D", "D", "D", "D", "B", "B", "B"],
    ["B", "B", "B", "D", "D", "D", "D"],
    ["B", "B", "B", "B", "D", "D", "D"],
    ["B", "B", "B", "B", "M", "M", "M"],
    ["B", "B", "B", "M", "M", "M", "M"],
    ["S", "S", "S", "S", "S", "S", "S"]
  ]

  const Letters: set<string> := {"S", "M", "D", "B"}

  /** Length in days of one full rotation. */
  const CycleLength := 70

  /** The first day of each team's rotation. */
  const Anchors: map<int, Date> := map[
    1 := Date(2025, 2, 2),
    2 := Date(2025, 2, 16),
    3 := Date(2025, 3, 2),
    4 := Date(2025, 1, 5)
  ]

  /** Every anchor is a real calendar date. */
  lemma AnchorsValid()
    ensures forall t :: t in Anchors ==> ValidDate(Anchors[t])
  {
  }

  /** `(date - team_start_date).days`: the signed number of days from the team's anchor to `date`. */
  function DayOffset(team: int, date: Date): int
    requires team in Anchors && ValidDate(date)
  {
    AnchorsValid();
    Ordinal(date) - Ordinal(Anchors[team])
  }

  /** The table is ten weeks of seven days, each entry one of the four letters. */
  lemma TableShape()
    ensures |Table| == 10
    ensures forall w :: 0 <= w < |Table| ==> |Table[w]| == 7
    ensures forall w, d :: 0 <= w < |Table| && 0 <= d < |Table[w]| ==> Table[w][d] in Letters
  {
  }

  /** Week and weekday of an offset, by Python's floor `//` and `%` (Dafny's `/` and `%` agree for a positive divisor). */
  function WeekAndDay(n: int): (wd: (int, int))
    ensures 0 <= wd.0 < 10 && 0 <= wd.1 < 7
    ensures n == 70 * (n / 70) + 7 * wd.0 + wd.1
  {
    ((n / 7) % |Table|, n % 7)
  }

  /** The table lookup `rotation[(n // 7) % len(rotation)][n % 7]`, in bounds for every offset. */
  function Lookup(n: int): (s: string)
    ensures s in Letters
  {
    TableShape();
    var wd := WeekAndDay(n);
    Table[wd.0][wd.1]
  }

  /** The rows laid end to end. */
  function Flatten(rows: seq<seq<string>>): seq<string>
  {
    if rows == [] then [] else rows[0] + Flatten(rows[1..])
  }

  /** Flattening rows of seven puts entry `d` of row `w` at position `7 * w + d`. */
  lemma {:induction false} FlattenAt(rows: seq<seq<string>>, w: int, d: int)
    requires forall i :: 0 <= i < |rows| ==> |rows[i]| == 7
    requires 0 <= w < |rows| && 0 <= d < 7
    ensures |Flatten(rows)| == 7 * |rows|
    ensures Flatten(rows)[7 * w + d] == rows[w][d]
  {
    if w == 0 {
      FlattenLength(rows[1..]);
    } else {
      FlattenAt(rows[1..], w - 1, d);
    }
  }

  lemma {:induction false} FlattenLength(rows: seq<seq<string>>)
    requires forall i :: 0 <= i < |rows| ==> |rows[i]| == 7
    ensures |Flatten(rows)| == 7 * |rows|
  {
    if rows != [] {
      FlattenLength(rows[1..]);
    }
  }

  /** The rotation as one 70-day cycle. */
  function Cycle(): (c: seq<string>)
    ensures |c| == CycleLength
  {
    TableShape();
    FlattenLength(Table);
    Flatten(Table)
  }

  /** The two-level lookup is entry `n mod 70` of the flat cycle, for every offset, negative ones included. */
  lemma LookupIsCycleEntry(n: int)
    ensures Lookup(n) == Cycle()[n % CycleLength]
  {
    TableShape();
    var wd := WeekAndDay(n);
    FlattenAt(Table, wd.0, wd.1);
    var q := n / 70;
    assert 0 <= 7 * wd.0 + wd.1 < 70;
    assert n == 70 * q + (7 * wd.0 + wd.1);
    assert n % 70 == 7 * wd.0 + wd.1;
  }

  /** Offsets 70 days apart give the same shift. */
  lemma Periodic(n: int)
    ensures Lookup(n + CycleLength) == Lookup(n)
    ensures Lookup(n - CycleLength) == Lookup(n)
  {
    LookupIsCycleEntry(n);
    LookupIsCycleEntry(n + CycleLength);
    LookupIsCycleEntry(n - CycleLength);
    ModShift(n);
  }

  lemma ModShift(n: int)
    ensures (n + 70) % 70 == n % 70 && (n - 70) % 70 == n % 70
  {
  }

  /** Position in the cycle after one more day. */
  function Advance(i: nat): (j: nat)
    requires i < CycleLength
    ensures j < CycleLength
  {
    if i == CycleLength - 1 then 0 else i + 1
  }

  /** Position in the cycle one day earlier, wrapping from day 0 to day 69. */
  function Retreat(i: nat): (j: nat)
    requires i < CycleLength
    ensures j < CycleLength
  {
    if i == 0 then CycleLength - 1 else i - 1
  }

  /** Reference position: start at 0 on the anchor and walk day by day, forwards or backwards. */
  function Walk(n: int): (i: nat)
    ensures i < CycleLength
    decreases if n < 0 then -n else n
  {
    if n == 0 then 0
    else if n > 0 then Advance(Walk(n - 1))
    else Retreat(Walk(n + 1))
  }

  /** One more day moves the position within the cycle by one, wrapping after 69. */
  lemma ModStep(n: int)
    ensures (n + 1) % CycleLength == if n % CycleLength == CycleLength - 1 then 0 else n % CycleLength + 1
  {
    var q, r := n / CycleLength, n % CycleLength;
    assert n + 1 == CycleLength * q + (r + 1);
    if r == CycleLength - 1 {
      assert n + 1 == CycleLength * (q + 1);
    }
  }

  /** Walking `n` days from the anchor lands on position `n mod 70`, before the anchor too. */
  lemma {:induction false} WalkIsMod(n: int)
    ensures Walk(n) == n % CycleLength
    decreases if n < 0 then -n else n
  {
    if n > 0 {
      WalkIsMod(n - 1);
      ModStep(n - 1);
    } else if n < 0 {
      WalkIsMod(n + 1);
      ModStep(n);
    }
  }

  /** One more day of walking is one step forward, before the anchor too. */
  lemma WalkStep(n: int)
    ensures Walk(n + 1) == Advance(Walk(n))
  {
    if n < 0 {
      assert Walk(n) == Retreat(Walk(n + 1));
    }
  }

  /** The lookup is the shift reached by walking the cycle from the anchor. */
  lemma LookupIsWalk(n: int)
    ensures Lookup(n) == Cycle()[Walk(n)]
  {
    WalkIsMod(n);
    LookupIsCycleEntry(n);
  }

  /** Fixed points of the table named by the rotation's design. */
  lemma KnownEntries()
    ensures Lookup(0) == "S" && Lookup(0) == Table[0][0]
    ensures Lookup(7) == "M" && Lookup(7) == Table[1][0]
    ensures Lookup(-1) == "S" && Lookup(-1) == Table[9][6]
  {
  }
}
