# Shift Happens: rotation resolver and date picker, in Dafny

"Shift Happens" tells a worker which shift their team works on a given date.
A fixed ten-week rotation gives one letter per day: S Straight, M Mid, D Day or B Break.
Each of teams 1 to 4 starts that rotation on its own anchor date.
This project models the parts of the repository that hold logic:

- `Calendar`: Python `date` arithmetic. A date maps to its proleptic Gregorian day number, as `date.toordinal()` does. Subtracting two dates gives the difference of their day numbers. The module proves the closed-form year count equal to a year-by-year sum. It also proves that consecutive calendar days get consecutive numbers, across month and year ends.
- `Rotation`: the rotation table and team anchors. The two Python prototypes share them word for word, so they are defined once. The module proves that the two-level lookup `rotation[(n // 7) % 10][n % 7]` is entry `n mod 70` of the flat 70-day cycle. It also proves that the lookup is periodic. Finally it proves that the lookup matches a reference that walks the cycle day by day from the anchor, forwards or backwards.
- `WorkSchedule` (`work_schedule_2.py`): `calculate_shift` as intended. Dates before the anchor wrap into the previous cycle. The function as written is modelled too; see Findings.
- `SchedulerApp` (`scheduler_app.py`): `calculate_shift` rejects dates before the anchor with the string "Error: The date is in the future.". Those dates are in fact in the past of the anchor. `display_shift`'s choice of message is modelled too, including the ISO rendering of the date.
- `DateWheelPicker` (`components/DateWheelPicker.tsx`): the wheel's clamped scrolling, as a class whose methods update `scrollIndex` and record each `onChange`. The date picker's 21-year window, `indexOf` year lookup, `getDaysInMonth` and the day clamp are modelled too. The picker is a class whose methods record each date it reports.
- `HomeScreen` (`App.tsx`): `getShiftColor`, the placeholder `shift`/`prevShift`/`nextShift`, and the team buttons.

Three behaviours of the code are kept as written, although a stricter rotation design would differ:
- An unknown team yields `None` (Python) rather than a distinct error kind.
- `App.tsx` shows the fixed placeholders 'Break', 'Day' and 'Mid' for any selected team, rather than the resolver's answer.
- `scheduler_app.py` does not wrap dates before the anchor.

Python's `//` and `%` round toward negative infinity. Dafny's `/` and `%` agree with them whenever the divisor is positive, and every divisor here (7, 10, 70, 4, 100, 400, 12) is positive.

## Model

| member | source | states |
|---|---|---|
| `Calendar.DaysInMonth` | components/DateWheelPicker.tsx:118-120 | Month lengths are 28..31; February has 29 days exactly in Gregorian leap years; April, June, September and November have 30 days and the rest 31 |
| `Calendar.MonthsFillYear` | work_schedule_2.py:62-63 | The twelve month lengths add up to the year's length, 365 or 366 |
| `Calendar.DaysBeforeYearIsSum` | work_schedule_2.py:62-63 | The floor-division count of days before a year equals the sum of the lengths of years 1 .. year-1 |
| `Calendar.YearStep` | work_schedule_2.py:62-63 | Consecutive years' day counts differ by exactly that year's length |
| `Calendar.NextDate` | work_schedule_2.py:62-63 | The day after a valid date is a valid date |
| `Calendar.OrdinalNext` | work_schedule_2.py:62-63 | The next calendar day has the next day number, so a date difference counts calendar days |
| `Calendar.LastDayBeforeFirst` | components/DateWheelPicker.tsx:118-120 | A month's last day is valid; the next day is the first of the following month, one day number later |
| `Rotation.AnchorsValid` | work_schedule_2.py:46-52 | Every team anchor is a real calendar date |
| `Rotation.TableShape` | work_schedule_2.py:33-44 | The table is 10 weeks of 7 days, and every entry is one of S, M, D, B |
| `Rotation.WeekAndDay` | work_schedule_2.py:65-70 | For every offset, negative ones too, the week index is in [0,10) and the day in [0,7), and together they locate the offset within its 70-day cycle |
| `Rotation.Lookup` | work_schedule_2.py:65-73 | The two-level lookup is in bounds for every offset and yields one of S, M, D, B |
| `Rotation.Cycle` | work_schedule_2.py:33-44 | The flattened rotation is 70 days long |
| `Rotation.LookupIsCycleEntry` | work_schedule_2.py:65-73 | `rotation[(n // 7) % 10][n % 7]` equals flat cycle entry `n mod 70` for every integer n |
| `Rotation.Periodic` | work_schedule_2.py:65-73 | Offsets n, n + 70 and n - 70 give the same shift |
| `Rotation.Advance` | work_schedule_2.py:65-73 | Stepping one day forward stays inside the 70-day cycle |
| `Rotation.Retreat` | work_schedule_2.py:65-73 | Stepping one day back stays inside the 70-day cycle, wrapping from day 0 to day 69 |
| `Rotation.Walk` | work_schedule_2.py:65-73 | Walking day by day from the anchor, forwards or backwards, always lands inside the cycle |
| `Rotation.WalkStep` | work_schedule_2.py:65-73 | One more day of walking is one step forward in the cycle, also before the anchor |
| `Rotation.WalkIsMod` | work_schedule_2.py:65-70 | Walking n days from the anchor lands on position n mod 70, before the anchor too |
| `Rotation.LookupIsWalk` | work_schedule_2.py:65-73 | The table lookup is the shift reached by walking the cycle from the anchor |
| `Rotation.KnownEntries` | work_schedule_2.py:33-44 | Offset 0 gives S = rotation[0][0]; offset 7 gives M = rotation[1][0]; offset -1 wraps to S = rotation[9][6] |
| `WorkSchedule.CalculateShift` | work_schedule_2.py:32-75 | `None` exactly for a team without an anchor; otherwise one of S, M, D, B, namely flat cycle entry (date - anchor) mod 70 |
| `WorkSchedule.AnchorIsStraight` | work_schedule_2.py:33-52 | On each team's anchor date the result is rotation[0][0] = "S" |
| `WorkSchedule.PeriodicInDates` | work_schedule_2.py:62-73 | Two dates 70 days apart get the same result, on either side of the anchor |
| `WorkSchedule.BeforeAnchorWalksBack` | work_schedule_2.py:62-73 | Before the anchor the result is the entry reached by walking the cycle backwards day by day from the anchor |
| `WorkSchedule.NextDayAdvances` | work_schedule_2.py:62-73 | The next calendar day's shift is the next cycle entry, wrapping after the 70th |
| `WorkSchedule.Scenarios` | work_schedule_2.py:32-75 | Team 1 gets S on 2025-02-02 and M on 2025-02-09; team 4 gets S on 2025-01-05 and on 2025-01-04; team 2 gets S on 2025-04-27; team 99 gets `None` |
| `WorkSchedule.AsWrittenNeverReturns` | work_schedule_2.py:32-52 | As written, every call raises; on team 1's anchor date the intended result is "S" |
| `SchedulerApp.CalculateShift` | scheduler_app.py:40-76 | `None` exactly for a team without an anchor; the "in the future" error string exactly for dates strictly before the anchor; otherwise flat cycle entry (date - anchor) mod 70, one of S, M, D, B |
| `SchedulerApp.TimeOfDayIgnored` | scheduler_app.py:66-67 | Two datetimes on the same calendar day get the same result |
| `SchedulerApp.AgreesWithConsole` | scheduler_app.py:66-76 | From the anchor on, the two prototypes give the same result; before the anchor they differ, because this one returns the error string |
| `SchedulerApp.PeriodicOnward` | scheduler_app.py:72-76 | From the anchor on, two dates 70 days apart get the same shift letter |
| `SchedulerApp.AnchorIsStraight` | scheduler_app.py:40-76 | On each team's anchor date the result is "S" |
| `SchedulerApp.Digits` | scheduler_app.py:33 | A zero-padded field has exactly the requested width and holds only decimal digits |
| `SchedulerApp.DigitsRoundTrip` | scheduler_app.py:33 | Reading back the zero-padded digits of a number that fits the width gives the number |
| `SchedulerApp.IsoRoundTrip` | scheduler_app.py:33 | `str(date)` has 10 characters with dashes at positions 4 and 7, and its fields read back as year, month and day |
| `SchedulerApp.ShiftMessage` | scheduler_app.py:33 | The sentence is the returned value, then " is the shift for ", then the ten-character ISO date, then a full stop |
| `SchedulerApp.DisplayShift` | scheduler_app.py:25-38 | Unparsable entries give the invalid-input message; an unknown team gives "Error: Could not find shift."; otherwise the text is the returned value, " is the shift for ", the ISO date and a full stop |
| `SchedulerApp.BeforeAnchorShownAsShift` | scheduler_app.py:32-33 | For a date before the anchor the label reads "Error: The date is in the future. is the shift for YYYY-MM-DD." |
| `DateWheelPicker.ScrollTarget` | components/DateWheelPicker.tsx:19-22 | From an index in [-1, len), the new index lies in [0, len); from -1, the index `indexOf` gives for a missing value, both arrows go to 0; Up moves back at most one and Down forward at most one; the index stays put exactly at the first value for Up and at the last for Down |
| `DateWheelPicker.WheelPicker.constructor` | components/DateWheelPicker.tsx:11-12 | The wheel starts at the given selected index and has reported nothing |
| `DateWheelPicker.WheelPicker.Render` | components/DateWheelPicker.tsx:15-17 | A new `selectedIndex` re-centres the wheel; an unchanged one keeps the scrolled index; nothing is reported |
| `DateWheelPicker.WheelPicker.HandleScroll` | components/DateWheelPicker.tsx:19-25 | The new index is the scroll target, is stored and is reported once through `onChange`; it stays in range; at the first value Up, and at the last value Down, leave the index where it is |
| `DateWheelPicker.WheelPicker.Press` | components/DateWheelPicker.tsx:33-37 | A press on a disabled arrow (Up on the first value, Down on the last) changes nothing and reports nothing; a press on an enabled arrow moves the index one step to the scroll target and reports it once |
| `DateWheelPicker.WheelPicker.Choose` | components/DateWheelPicker.tsx:69-72 | A clicked value's index is stored and reported |
| `DateWheelPicker.Range` | components/DateWheelPicker.tsx:123 | `Array.from` with `i => first + i` gives `count` consecutive integers starting at `first` |
| `DateWheelPicker.Years` | components/DateWheelPicker.tsx:112 | 21 years, increasing by one, from currentYear - 10 to currentYear + 10 |
| `DateWheelPicker.IndexOf` | components/DateWheelPicker.tsx:116 | -1 exactly when the value is absent; otherwise the position of its first occurrence |
| `DateWheelPicker.IndexOfRange` | components/DateWheelPicker.tsx:116 | In consecutive integers, `indexOf` gives the distance from the first one, or -1 outside the run |
| `DateWheelPicker.SelectedYear` | components/DateWheelPicker.tsx:122 | A valid year index selects its year; an invalid index, or the falsy year 0, falls back to the current year |
| `DateWheelPicker.SelectedYearOfIndex` | components/DateWheelPicker.tsx:116-122 | A selected date's year inside the window is recovered through `indexOf`; outside the window the current year is used |
| `DateWheelPicker.MonthStart` | components/DateWheelPicker.tsx:119 | `new Date(year, monthIndex, 1)` with the month index carried into the year is a valid date |
| `DateWheelPicker.GetDaysInMonth` | components/DateWheelPicker.tsx:118-120 | The result is the day of the month of the day before the first of the following month; for a month index 0..11 it is that month's Gregorian length |
| `DateWheelPicker.GetDaysInMonthPlain` | components/DateWheelPicker.tsx:118-120 | For a month index 0..11 and a year outside 0..99, the result is the month's length, and 29 exactly for February of a leap year |
| `DateWheelPicker.EmittedDate` | components/DateWheelPicker.tsx:125-131 | The reported date is valid, in the chosen year and month; its day is the chosen day, or the month's last day when the chosen day is past it |
| `DateWheelPicker.DatePicker.Days` | components/DateWheelPicker.tsx:122-123 | `days` is exactly 1 .. daysInMonth of the selected month and year |
| `DateWheelPicker.DatePicker.constructor` | components/DateWheelPicker.tsx:109-132 | Month, day and year index start from the selected date, the year index by `indexOf`; the effect reports one date on mount |
| `DateWheelPicker.DatePicker.SelectMonth` | components/DateWheelPicker.tsx:125-139 | The month wheel's index becomes the month, and a change of month reports the clamped date once |
| `DateWheelPicker.DatePicker.SelectDay` | components/DateWheelPicker.tsx:125-147 | `days[index]` becomes the day, and a change of day reports the clamped date once |
| `DateWheelPicker.DatePicker.SelectYear` | components/DateWheelPicker.tsx:125-154 | The year wheel's index becomes the year index, and a change reports the clamped date once |
| `HomeScreen.ShiftColor` | App.tsx:86-97 | Always two colours; 'Day', 'Mid' and 'Break' each get their own pair and are the only labels that do; every other label and `null` get the grey pair |
| `HomeScreen.ShiftsShown` | App.tsx:82-84 | With no team (or the falsy team 0) all three circles are `null`; with a team they are 'Break', 'Day' and 'Mid' |
| `HomeScreen.ShownIgnoresDate` | App.tsx:82-97 | For every team button the circles do not depend on the date and are drawn green, amber and indigo |
| `HomeScreen.TeamsHaveAnchors` | App.tsx:137 | The team buttons 1, 2, 3, 4 are exactly the teams with a rotation anchor |

## Left out

- The console input loops `acquire_team` and `acquire_date`, `main`, and every `print`: interactive I/O. This includes the "invalid team number" line both `calculate_shift` versions print before returning `None`.
- Kivy widget construction in `ShiftSchedulerApp.build`: UI only.
- Text parsing in `display_shift` (`int()` and `datetime.strptime`): library parsing. A parse failure is the abstract `Unparsable` input, and a parsed date is assumed valid with a year in 1..9999, as `strptime` guarantees.
- React and React Native rendering: navigation, layout, theming, `Switch`, `ActivityIndicator`. Also left out: the loading timer (`setTimeout`/`clearTimeout`), the wheel's opacity and scale styling (floating point), and components/ShiftCircle.tsx, Settings.tsx and styles.ts, which hold no logic.
- JavaScript `Date` local-time behaviour and the clock: `currentYear` is a parameter, and month lengths follow the Gregorian rule.
- DateWheelPicker.DatePicker: the three child wheels are not wired to the picker object. Each `onChange` callback is a method that takes the index the wheel reports. React's batching of state updates into one render is not modelled; the effect runs once per changed state value.
- DateWheelPicker.DatePicker.SelectDay: requires an index inside `days`. A wheel only reports such indices, so the `undefined` day that `days[index]` would give otherwise is not modelled.
- DateWheelPicker.EmittedDate: requires a month index 0..11 and a day of at least 1. Those are the only values `getMonth`, `getDate` and the wheels produce, so JavaScript's rolling of other values into neighbouring months is not modelled.

## Findings

| source | as written | input that shows it | evidently intended | confidence | as-written member | corrected member |
|---|---|---|---|---|---|---|
| work_schedule_2.py:32-52 | The parameter `date` hides the imported `date` class, so `date(2025, 2, 2)` in the anchor table calls the argument, a `datetime`, and raises TypeError on every call. The table is built before the team is checked, so unknown teams raise too (lemma `WorkSchedule.AsWrittenNeverReturns`) | team 1, date 2025-02-02 | Anchors built with the `date` class and whole calendar days subtracted, as in scheduler_app.py, giving "S" on the anchor date | high; not executed | `WorkSchedule.CalculateShiftAsWritten` | `WorkSchedule.CalculateShift` |
