/**
 * The custom date wheel: a generic wheel of values scrolled one step at a
 * time, and the month / day / year picker built from three wheels, which
 * clamps the day to the chosen month before reporting a date. JavaScript's
 * `Date` is modelled by the Gregorian calendar, with its two conventions
 * that matter here: a year 0..99 given to `new Date(y, m, d)` means
 * 1900 + y, and a month index outside 0..11 carries into the year.
 */
module DateWheelPicker {
  import opened Calendar

  datatype Direction = Up | Down

  /**
   * `handleScroll`'s new index: one step towards the start for Up, one
   * step towards the end for Down, never past either end.
   */
  function ScrollTarget(direction: Direction, index: int, count: int): (r: int)
    ensures count > 0 && -1 <= index < count ==> 0 <= r < count
    ensures count > 0 && index == -1 ==> r == 0
    ensures 0 <= index < count ==>
              (direction == Up ==> index - 1 <= r <= index) && (direction == Down ==> index <= r <= index + 1)
    ensures 0 <= index < count ==>
              (r == index <==> (direction == Up && index == 0) || (direction == Down && index == count - 1))
  {
    match direction
    case Up => if index - 1 > 0 then index - 1 else 0
    case Down => if count - 1 < index + 1 then count - 1 else index + 1
  }

  /** One wheel: its values, the index it shows, and the indices it has reported through `onChange`. */
  class WheelPicker<T> {
    var values: seq<T>
    var selectedIndex: int
    var scrollIndex: int
    var changes: seq<int>

    constructor (values: seq<T>, selectedIndex: int)
      ensures this.values == values && this.selectedIndex == selectedIndex
      ensures scrollIndex == selectedIndex && changes == []
    {
      this.values := values;
      this.selectedIndex := selectedIndex;
      scrollIndex := selectedIndex;
      changes := [];
    }

    /** The up arrow is disabled on the first value. */
    function UpDisabled(): bool
      reads this
    {
      scrollIndex == 0
    }

    /** The down arrow is disabled on the last value. */
    function DownDisabled(): bool
      reads this
    {
      scrollIndex == |values| - 1
    }

    /** A re-render with new props; the effect re-centres the wheel only when `selectedIndex` changed. */
    method Render(values: seq<T>, selectedIndex: int)
      modifies this
      ensures this.values == values && this.selectedIndex == selectedIndex
      ensures scrollIndex == if selectedIndex != old(this.selectedIndex) then selectedIndex else old(scrollIndex)
      ensures changes == old(changes)
    {
      if selectedIndex != this.selectedIndex {
        scrollIndex := selectedIndex;
      }
      this.values := values;
      this.selectedIndex := selectedIndex;
    }

    /** `handleScroll`: the new index is stored and reported. */
    method HandleScroll(direction: Direction)
      modifies this`scrollIndex, this`changes
      ensures scrollIndex == ScrollTarget(direction, old(scrollIndex), |values|)
      ensures changes == old(changes) + [scrollIndex]
      ensures |values| > 0 && -1 <= old(scrollIndex) < |values| ==> 0 <= scrollIndex < |values|
      ensures (direction == Up && old(UpDisabled())) || (direction == Down && old(DownDisabled())) ==>
                scrollIndex == old(scrollIndex)
    {
      var newIndex := ScrollTarget(direction, scrollIndex, |values|);
      scrollIndex := newIndex;
      changes := changes + [newIndex];
    }

    /**
     * A press on an arrow button. The up arrow is disabled on the first value
     * and the down arrow on the last; a disabled button does not call
     * `handleScroll`, so nothing is stored or reported.
     */
    method Press(direction: Direction)
      modifies this`scrollIndex, this`changes
      ensures (direction == Up && old(UpDisabled())) || (direction == Down && old(DownDisabled())) ==>
                scrollIndex == old(scrollIndex) && changes == old(changes)
      ensures !((direction == Up && old(UpDisabled())) || (direction == Down && old(DownDisabled()))) ==>
                scrollIndex == ScrollTarget(direction, old(scrollIndex), |values|) &&
                scrollIndex != old(scrollIndex) && changes == old(changes) + [scrollIndex]
    {
      var disabled := if direction == Up then UpDisabled() else DownDisabled();
      if !disabled {
        HandleScroll(direction);
      }
    }

    /** A click on the value at `index` (only rendered values can be clicked). */
    method Choose(index: int)
      requires 0 <= index < |values|
      modifies this`scrollIndex, this`changes
      ensures scrollIndex == index && changes == old(changes) + [index]
    {
      scrollIndex := index;
      changes := changes + [index];
    }
  }

  const MonthNames: seq<string> := ["Jan", "Feb", "Mar", "Apr", "May", "Jun", "Jul", "Aug", "Sep", "Oct", "Nov", "Dec"]

  /** `Array.from({ length: count }, (_, i) => first + i)`. */
  function Range(first: int, count: nat): (r: seq<int>)
    ensures |r| == count
    ensures forall i :: 0 <= i < count ==> r[i] == first + i
  {
    seq(count, i => first + i)
  }

  /** The 21 selectable years, ten either side of the current one. */
  function Years(currentYear: int): (r: seq<int>)
    ensures |r| == 21 && r[0] == currentYear - 10 && r[20] == currentYear + 10
    ensures forall i :: 0 < i < |r| ==> r[i] == r[i - 1] + 1
  {
    Range(currentYear - 10, 21)
  }

  /** `Array.prototype.indexOf`: the first position of `x`, or -1. */
  function IndexOf<T(==)>(s: seq<T>, x: T): (i: int)
    ensures -1 <= i < |s|
    ensures i == -1 <==> x !in s
    ensures i >= 0 ==> s[i] == x && x !in s[..i]
  {
    if s == [] then -1
    else if s[0] == x then 0
    else
      var k := IndexOf(s[1..], x);
      if k == -1 then -1 else k + 1
  }

  /** In a run of consecutive integers, `indexOf` is the distance from the first one, or -1 outside the run. */
  lemma IndexOfRange(first: int, count: nat, x: int)
    ensures IndexOf(Range(first, count), x) == if first <= x < first + count then x - first else -1
  {
    if first <= x < first + count {
      assert Range(first, count)[x - first] == x;
    }
  }

  /** `years[yearIndex] || currentYear`: a missing entry, or the falsy year 0, falls back to the current year. */
  function SelectedYear(currentYear: int, yearIndex: int): (y: int)
    ensures 0 <= yearIndex < 21 && currentYear - 10 + yearIndex != 0 ==> y == currentYear - 10 + yearIndex
    ensures !(0 <= yearIndex < 21) || currentYear - 10 + yearIndex == 0 ==> y == currentYear
  {
    var years := Years(currentYear);
    if 0 <= yearIndex < |years| && years[yearIndex] != 0 then years[yearIndex] else currentYear
  }

  /** Selecting a year through `indexOf` gives it back inside the window, and the current year outside it. */
  lemma SelectedYearOfIndex(currentYear: int, year: int)
    ensures currentYear - 10 <= year <= currentYear + 10 && year != 0 ==>
              SelectedYear(currentYear, IndexOf(Years(currentYear), year)) == year
    ensures !(currentYear - 10 <= year <= currentYear + 10) ==>
              SelectedYear(currentYear, IndexOf(Years(currentYear), year)) == currentYear
  {
    IndexOfRange(currentYear - 10, 21, year);
  }

  /** The full year `new Date(year, ...)` uses. */
  function JsYear(year: int): int
  {
    if 0 <= year <= 99 then 1900 + year else year
  }

  /** `new Date(year, monthIndex, 1)`, the month index carried into the year. */
  function MonthStart(year: int, monthIndex: int): (d: Date)
    ensures ValidDate(d)
  {
    Date(JsYear(year) + monthIndex / 12, monthIndex % 12 + 1, 1)
  }

  /**
   * `getDaysInMonth`: `new Date(year, month + 1, 0).getDate()`. Day 0 of the
   * following month is the day before its first, and `n` is that day's day
   * of the month.
   */
  function GetDaysInMonth(month: int, year: int): (n: int)
    ensures 28 <= n <= 31
    ensures var last := Date(JsYear(year) + month / 12, month % 12 + 1, n);
            ValidDate(last) && Ordinal(last) + 1 == Ordinal(MonthStart(year, month + 1))
    ensures 0 <= month < 12 ==> n == DaysInMonth(JsYear(year), month + 1)
  {
    var y, m := JsYear(year) + month / 12, month % 12 + 1;
    LastDayBeforeFirst(y, m);
    MonthCarry(month);
    DaysInMonth(y, m)
  }

  /** Month index `month + 1` is the month after `month`, a year later after December. */
  lemma MonthCarry(month: int)
    ensures month % 12 < 11 ==> (month + 1) / 12 == month / 12 && (month + 1) % 12 == month % 12 + 1
    ensures month % 12 == 11 ==> (month + 1) / 12 == month / 12 + 1 && (month + 1) % 12 == 0
    ensures 0 <= month < 12 ==> month / 12 == 0 && month % 12 == month
  {
  }

  /** For a month index 0..11 and a year outside 0..99, the month's Gregorian length. */
  lemma GetDaysInMonthPlain(month: int, year: int)
    requires 0 <= month < 12 && !(0 <= year <= 99)
    ensures GetDaysInMonth(month, year) == DaysInMonth(year, month + 1)
    ensures GetDaysInMonth(month, year) == 29 <==> month == 1 && IsLeapYear(year)
  {
  }

  /**
   * The date the effect reports: `new Date(year, monthIndex, validDay)` with
   * `validDay = min(day, maxDay)`. Its day always exists in its month, and
   * equals the chosen day unless that day is past the month's end, in which
   * case it is the month's last day.
   */
  function EmittedDate(year: int, monthIndex: int, day: int): (d: Date)
    requires 0 <= monthIndex < 12 && day >= 1
    ensures ValidDate(d)
    ensures d.year == JsYear(year) && d.month == monthIndex + 1
    ensures d.day <= day && (d.day == day || d.day == DaysInMonth(d.year, d.month))
    ensures day <= DaysInMonth(d.year, d.month) ==> d.day == day
  {
    var maxDay := GetDaysInMonth(monthIndex, year);
    var validDay := if day < maxDay then day else maxDay;
    Date(JsYear(year), monthIndex + 1, validDay)
  }

  /** The month / day / year picker's state, and every date it has reported through `onDateChange`. */
  class DatePicker {
    const currentYear: int
    var monthIndex: int
    var day: int
    var yearIndex: int
    var emitted: seq<Date>

    /** What the month wheel and the day wheel can produce. */
    ghost predicate Valid()
      reads this
    {
      0 <= monthIndex < 12 && day >= 1
    }

    /** `years[yearIndex] || currentYear`. */
    function Year(): int
      reads this
    {
      SelectedYear(currentYear, yearIndex)
    }

    /** `days`: one entry per day of the selected month. */
    function Days(): (r: seq<int>)
      reads this
      ensures |r| == GetDaysInMonth(monthIndex, Year())
      ensures forall i :: 0 <= i < |r| ==> r[i] == i + 1
    {
      Range(1, GetDaysInMonth(monthIndex, Year()))
    }

    /** The date the effect reports for the current state. */
    function Current(): Date
      reads this
      requires Valid()
    {
      EmittedDate(Year(), monthIndex, day)
    }

    /** Mount: the state starts from `selectedDate`, and the effect reports once. */
    constructor (selected: Date, currentYear: int)
      requires ValidDate(selected)
      ensures Valid() && this.currentYear == currentYear
      ensures monthIndex == selected.month - 1 && day == selected.day
      ensures yearIndex == IndexOf(Years(currentYear), selected.year)
      ensures emitted == [Current()]
    {
      this.currentYear := currentYear;
      monthIndex := selected.month - 1;
      day := selected.day;
      yearIndex := IndexOf(Years(currentYear), selected.year);
      new;
      emitted := [EmittedDate(SelectedYear(currentYear, yearIndex), monthIndex, day)];
    }

    /** The month wheel reports `index`; the effect re-runs if the month changed. */
    method SelectMonth(index: int)
      requires Valid() && 0 <= index < |MonthNames|
      modifies this`monthIndex, this`emitted
      ensures Valid() && monthIndex == index
      ensures emitted == if index != old(monthIndex) then old(emitted) + [Current()] else old(emitted)
    {
      if index != monthIndex {
        monthIndex := index;
        emitted := emitted + [Current()];
      }
    }

    /** The day wheel reports `index`, and `days[index]` becomes the day; the effect re-runs if it changed. */
    method SelectDay(index: int)
      requires Valid() && 0 <= index < |Days()|
      modifies this`day, this`emitted
      ensures Valid() && day == index + 1
      ensures emitted == if index + 1 != old(day) then old(emitted) + [Current()] else old(emitted)
    {
      var chosen := Days()[index];
      if chosen != day {
        day := chosen;
        emitted := emitted + [Current()];
      }
    }

    /** The year wheel reports `index`; the effect re-runs if the index changed. */
    method SelectYear(index: int)
      requires Valid() && 0 <= index < 21
      modifies this`yearIndex, this`emitted
      ensures Valid() && yearIndex == index
      ensures emitted == if index != old(yearIndex) then old(emitted) + [Current()] else old(emitted)
    {
      if index != yearIndex {
        yearIndex := index;
        emitted := emitted + [Current()];
      }
    }
  }
}
