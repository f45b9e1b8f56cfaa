# CupMate core logic in Dafny

CupMate (日日飲) is a small drink-tracking app. This project models the logic
under its screens and proves what that logic promises:

- **Drink categories** (`DrinkTypes`, drink_type.dfy): the closed `DrinkType`
  enum of four categories with raw value / `id`, symbol name and nominal
  capacity.
- **Intake store** (`Intake`, intake.dfy): the main screen's category → ml
  dictionary, its `totalIntake`, and the "加入" (add) button, the only
  operation that changes the dictionary. The screen is a class `ContentView`
  whose fields are the screen's state. The text parse `Double(inputAmount)`
  is an input `parsed: Option<real>`.
- **Progress ring** (`ProgressRing`, progress_ring.dfy): the arcs of the
  progress page, their start and end angles, the `trim` fractions and the
  percentage labels. A Swift dictionary is iterated in an unspecified order,
  so the page is modelled over a sequence of (category, amount) entries in
  any order. Lemma `TotalMatchesStore` connects it back to the store.
- **Cup level** (`Cup`, cup.dfy): `CupView.progress`, the clamped fill ratio,
  and the rule that the wave and label appear only for a positive intake.
- **Reminders** (`Schedule`, schedule.dfy, and `Reminders`, reminders.dfy):
  - the work-period list with its "at most one enabled" rule, and its
    toggle, add and delete handlers;
  - the weekday picker;
  - the interval pickers;
  - the enable button;
  - the scheduling pass `scheduleReminders`;
  - the notification sound chosen by name.

  `Schedule` holds the value-level definitions and their lemmas.
  `Reminders.ReminderView` is the screen as a class whose handlers are proved
  equal to those definitions.

Modelling conventions:

- Amounts are exact reals (no floating-point error).
- Instants are whole seconds on one absolute timeline. A period's start and end
  are absolute instants fixed when it was added, not times of day.
- The clock and the calendar are inputs: `now` and `weekday`.
- Swift's `Int(x)` is truncation toward zero (`ProgressRing.TruncToInt`).
- A `UUID` is a fresh natural `id` handed to `AddPeriod`. Periods compare
  structurally, as the synthesized `Equatable` used by `firstIndex(of:)` does.
- The notification center is the ghost field `pending`: the requests this
  screen has registered, each with its instant, title, body and sound.
- The weekday filter compares the calendar's weekday number with the selected
  set as written. In the Gregorian calendar 1 is Sunday, while the labels treat
  1 as Monday. With the default selection {1..5}, a Sunday passes the filter
  and Friday and Saturday do not. `Schedule.DefaultFilterReadsCalendarNumbers`
  states this. It is kept as written.
- Swift's `sort()` is modelled by `Schedule.SortAscending`, an insertion sort
  proved to return an ascending permutation.
- `scheduleReminders` with a zero interval loops forever in the source. The
  model refuses that interval with the outcome `InvalidInterval` (see
  Findings).

## Model

| member | source | states |
|---|---|---|
| DrinkTypes.AllCases | project/DrinkType.swift:6-10 | `allCases` has exactly four entries, pairwise distinct |
| DrinkTypes.AllCasesInOrder | project/DrinkType.swift:6-10 | every category occurs in `allCases`, which is drink, coffee, water, soup in that order |
| DrinkTypes.RawValue | project/DrinkType.swift:6-10 | defines each case's raw value: 飲料杯, 咖啡杯, 水杯, 湯碗 (distinctness is `IdInjective`) |
| DrinkTypes.Id | project/DrinkType.swift:14 | defines `id` as the raw value (distinctness is `IdInjective`) |
| DrinkTypes.IdInjective | project/DrinkType.swift:7-14 | `id` is the raw value, and different categories have different ids |
| DrinkTypes.MaxCapacity | project/DrinkType.swift:49-61 | every capacity is positive and at most 1500 ml |
| DrinkTypes.CapacityTable | project/DrinkType.swift:49-61 | the capacities are 1000, 500, 1500 and 800 ml for drink, coffee, water, soup |
| DrinkTypes.SystemImageName | project/DrinkType.swift:33-44 | defines the symbol drawn for each case (distinctness is `ImageNamesDistinct`) |
| DrinkTypes.ImageNamesDistinct | project/DrinkType.swift:33-44 | different categories are drawn with different symbols |
| Intake.Initial | project/ContentView.swift:32-37 | the launch dictionary has all four keys, every amount 0, and total 0 |
| Intake.Total | project/ContentView.swift:42-44 | defines `totalIntake` as the values summed left to right over the four keys (order independence is `SumOverPermutation`, the effect of an add is `TotalAfterAdd`) |
| Intake.Accepts | project/ContentView.swift:84 | defines when the add button applies an amount: the text parsed and the number is above 0 (used by `ContentView.Add`) |
| Intake.SumOver | project/ContentView.swift:43 | defines `reduce(0, +)` over the values of the keys `ks`, added left to right (order independence is `SumOverPermutation`, sign is `SumOverNonNegative`) |
| Intake.SumOverPermutation | project/ContentView.swift:42-44 | the sum of the values does not depend on the order the keys are visited in |
| Intake.TotalAfterAdd | project/ContentView.swift:42-44 | raising one category by `a` raises `totalIntake` by exactly `a` |
| Intake.SumOverNonNegative | project/ContentView.swift:42-44 | with no negative amount the total is not negative |
| Intake.ContentView.constructor | project/ContentView.swift:32-46 | the screen opens with the zero dictionary, drink selected, empty text and a 3000 ml goal |
| Intake.ContentView.Select | project/ContentView.swift:71-77 | the picker changes only the selected category |
| Intake.ContentView.EditInput | project/ContentView.swift:79-81 | editing the text changes only the input text |
| Intake.ContentView.Add | project/ContentView.swift:84-91 | a parsed amount > 0 raises the selected category by that amount, leaves every other category alone, clears the text and raises the total by that amount; any other input changes neither the dictionary nor the text; amounts stay non-negative |
| ProgressRing.TotalIntake | project/ProgressView.swift:8-10 | defines the page's `totalIntake` as the sum of the values in iteration order (tied to the store by `TotalMatchesStore`) |
| ProgressRing.StartAngle | project/ProgressView.swift:52-56 | defines `startAngle(for:)`: 360 times the share of max(total, goal) held by the first `index` values (properties: `FirstArcStartsAtZero`, `StartAnglesNonDecreasing`, `ArcsAreContiguous`) |
| ProgressRing.EndAngle | project/ProgressView.swift:25 | defines an arc's end: its start plus 360 times its value's share (properties: `ArcsAreContiguous`, `RingEnd`) |
| ProgressRing.TrimFrom | project/ProgressView.swift:28 | defines the `trim(from:)` fraction, the start angle over 360 (bounds: `TrimWithinCircle`) |
| ProgressRing.TrimTo | project/ProgressView.swift:28 | defines the `trim(to:)` fraction, the end angle over 360 (bounds: `TrimWithinCircle`) |
| ProgressRing.Percentage | project/ProgressView.swift:41 | defines a label's number, `Int` of 100 times the value's share (range: `PercentageInRange`) |
| ProgressRing.Denominator | project/ProgressView.swift:25 | `max(total, goal)` is at least the goal and the total, and is one of them |
| ProgressRing.TruncToInt | project/ProgressView.swift:41 | `Int(x)` is the integer part of `x`, truncated toward zero |
| ProgressRing.FirstArcStartsAtZero | project/ProgressView.swift:52-56 | `startAngle(for: 0)` is 0 |
| ProgressRing.ArcsAreContiguous | project/ProgressView.swift:24-25 | entry i sweeps 360·vᵢ/max(total, goal) degrees and ends where entry i+1 starts |
| ProgressRing.StartAnglesNonDecreasing | project/ProgressView.swift:52-56 | with non-negative amounts, start angles are non-negative and grow with the index |
| ProgressRing.Sum | project/ProgressView.swift:54-55 | defines `reduce(0, +)` over a list of amounts, added left to right (growth along prefixes is `PrefixSumMonotone`) |
| ProgressRing.Prefix | project/ProgressView.swift:55 | defines `prefix(n)`: the first n amounts, or the whole list when n exceeds its length (used by `StartAngle`; see `StartAnglesNonDecreasing` for indices past the end) |
| ProgressRing.PrefixSumMonotone | project/ProgressView.swift:55 | with non-negative amounts, a longer prefix never sums to less |
| ProgressRing.AmountAtMostTotal | project/ProgressView.swift:8-10 | each non-negative amount lies between 0 and the total |
| ProgressRing.RingEnd | project/ProgressView.swift:52-56 | the last arc ends at 360·total/max(total, goal), never past 360, and exactly at 360 once the goal is reached |
| ProgressRing.TrimWithinCircle | project/ProgressView.swift:28 | the `trim` fractions satisfy 0 ≤ from ≤ to ≤ 1 |
| ProgressRing.PercentageInRange | project/ProgressView.swift:41 | each label is floor(100·vᵢ/max(total, goal)) and lies in 0..100 |
| ProgressRing.EmptyRingWhenNothingDrunk | project/ProgressView.swift:23-25 | with nothing drunk every arc starts and ends at 0 |
| ProgressRing.TotalMatchesStore | project/ProgressView.swift:8-10 | entries that enumerate the dictionary, in any order, have the store's `totalIntake` as their total |
| ProgressRing.SumMatchesKeys | project/ProgressView.swift:53-54 | summing the values in iteration order equals summing the dictionary over its keys in that order |
| ProgressRing.WaterAndCoffeeExample | project/ProgressView.swift:23-43 | 300 ml coffee and 500 ml water against 3000 ml: sweeps 0, 36, 60, 0 degrees; labels 10 and 16 |
| Cup.Progress | project/CupView.swift:18-20 | the level is at most 1, is intake/2000 up to 2000 ml, exactly 1 from 2000 ml, and non-negative for a non-negative intake |
| Cup.ShowsLevel | project/CupView.swift:37-54 | defines when the wave and the "ml" label are drawn: an intake above 0 (tied to the level by `LevelShownIffPositive`) |
| Cup.ProgressMonotone | project/CupView.swift:19 | drinking more never lowers the level |
| Cup.LevelShownIffPositive | project/CupView.swift:37-54 | for a non-negative intake, the wave and label are shown exactly when the level is above 0 |
| Schedule.CountEnabled | project/ReminderView.swift:114 | defines `workPeriods.filter { $0.enabled }.count` (meaning: `CountEnabledZero`, `CountEnabledAtMostOne`) |
| Schedule.CountEnabledZero | project/ReminderView.swift:114 | the enabled count is 0 exactly when no period is enabled |
| Schedule.CountEnabledAtMostOne | project/ReminderView.swift:114 | the enabled count is at most 1 exactly when at most one period is enabled |
| Schedule.FirstIndexOf | project/ReminderView.swift:103 | `firstIndex(of:)` is none exactly when the period is absent, else the first position holding an equal period |
| Schedule.ToggledOn | project/ReminderView.swift:98-101 | defines the list after switching a period on: each flag becomes "its id is the chosen one" (properties: `ToggleOnIsExclusive`) |
| Schedule.ToggledOff | project/ReminderView.swift:102-106 | defines the list after switching a period off through `firstIndex(of:)` (properties: `ToggleOffChangesOnlyThatEntry`) |
| Schedule.Added | project/ReminderView.swift:222-225 | defines the list after the add callback (properties: `AddKeepsOneEnabled`) |
| Schedule.Deleted | project/ReminderView.swift:115-118 | defines the list after `remove(at: firstIndex(of:))` (properties: `DeleteKeepsOneEnabled`) |
| Schedule.ToggleOnIsExclusive | project/ReminderView.swift:98-101 | switching a period on enables exactly the entries with its id, keeps every id, start and end, keeps the list valid, and leaves exactly one period enabled |
| Schedule.ToggleOffChangesOnlyThatEntry | project/ReminderView.swift:102-106 | switching off a present period clears the flag of its first occurrence and changes nothing else; an absent period leaves the list as it was; the list stays valid |
| Schedule.AddKeepsOneEnabled | project/ReminderView.swift:221-228 | add appends only when start < end, the new period is enabled iff the list was empty, and a fresh id keeps the list valid |
| Schedule.DeleteKeepsOneEnabled | project/ReminderView.swift:115-119 | delete removes the first occurrence of a present period and keeps the others in their order; an absent period leaves the list as it was; the list stays valid |
| Schedule.ToggleLocked | project/ReminderView.swift:114 | defines the period switch's `.disabled` condition (consequence: `EnabledPeriodIsLocked`) |
| Schedule.EnabledPeriodIsLocked | project/ReminderView.swift:114 | with at most one enabled period, the enabled period's switch is disabled, so its switch-off branch is unreachable from the screen |
| Schedule.FlipDay | project/ReminderView.swift:282-286 | a weekday button flips that day's membership and no other day's |
| Schedule.FlipDayTwice | project/ReminderView.swift:282-286 | pressing a day twice restores the selection |
| Schedule.SkipsToday | project/ReminderView.swift:252 | defines the weekday filter's early return: the filter is on and today's number is not selected (behaviour: `DefaultFilterReadsCalendarNumbers`) |
| Schedule.DefaultFilterReadsCalendarNumbers | project/ReminderView.swift:251-252 | with the default selection, weekday number 1 passes, 6 and 7 are skipped, and nothing is skipped with the filter off |
| Schedule.ValidHour | project/ReminderView.swift:136 | defines the hours the interval picker offers, 0..3 (used by `StepOnPickerGrid` and `ReminderView.SetInterval`) |
| Schedule.ValidMinute | project/ReminderView.swift:143 | defines the minutes the interval picker offers, 0, 15, 30 and 45 (used by `StepOnPickerGrid` and `ReminderView.SetInterval`) |
| Schedule.Step | project/ReminderView.swift:267 | defines the loop's step in seconds, `intervalHour * 3600 + intervalMinute * 60` (range: `StepOnPickerGrid`) |
| Schedule.StepOnPickerGrid | project/ReminderView.swift:267 | for picker values the step is 0..13500 s, a multiple of 900, and 0 exactly for 0 h 0 min |
| Schedule.Upcoming | project/ReminderView.swift:257-268 | defines the instants one pass registers over a period, in generation order (properties: `UpcomingSound`, `UpcomingComplete`, `UpcomingIncreasing`; tied to the loop by `WalkPeriod`) |
| Schedule.UpcomingSound | project/ReminderView.swift:257-268 | every registered instant t has now < t ≤ end and is start + k·step for some k ≥ 0 |
| Schedule.UpcomingComplete | project/ReminderView.swift:257-268 | every start + k·step in (now, end] is registered |
| Schedule.UpcomingIncreasing | project/ReminderView.swift:257-268 | the instants are produced strictly increasing, so sorted and without duplicates |
| Schedule.NothingAfterPeriodEnd | project/ReminderView.swift:257-268 | a pass run at or after the period's end registers nothing |
| Schedule.NineToNoonExample | project/ReminderView.swift:257-268 | every 1 h 30 min over 09:00-12:00, run at 08:00, registers 09:00, 10:30 and 12:00 |
| Schedule.LoopAsWritten | project/ReminderView.swift:257-268 | defines the while loop as written, run for at most n iterations and for any step, zero included: register the instant when after `now`, advance by the step, stop past `end` (behaviour: `ZeroStepNeverEnds`, `LoopAsWrittenEnds`) |
| Schedule.ZeroStepNeverEnds | project/ReminderView.swift:258-268 | with a zero interval the loop's guard still holds after any number of iterations, each registering the start again |
| Schedule.LoopAsWrittenEnds | project/ReminderView.swift:257-268 | with a positive interval the loop as written stops and registers exactly the upcoming instants |
| Schedule.Insert | project/ReminderView.swift:269 | inserting into a sorted list gives a sorted list with one more copy of the element |
| Schedule.SortAscending | project/ReminderView.swift:269 | `sort()` returns an ascending permutation of its input |
| Schedule.SortedPermutationUnique | project/ReminderView.swift:269 | two ascending lists with the same elements are equal |
| Schedule.SortKeepsSorted | project/ReminderView.swift:269 | sorting a strictly increasing list leaves it unchanged |
| Schedule.FirstEnabled | project/ReminderView.swift:255 | `first(where: enabled)` is none exactly when no period is enabled, else the earliest enabled period |
| Schedule.Plan | project/ReminderView.swift:250-268 | a pass ends on a filtered-out weekday exactly when the filter is on and today is not selected, finds no period exactly when none is enabled, and refuses exactly a zero interval |
| Schedule.PlanScheduledCorrect | project/ReminderView.swift:255-269 | a scheduled pass uses a positive interval and the first enabled period, and lists in strictly increasing order exactly its grid points in (now, end] |
| Schedule.SoundFor | project/ReminderView.swift:340-349 | a named sound file is used exactly for 水滴聲, 鳥鳴聲 and 自訂音樂; any other name gets the default sound |
| Schedule.SoundChoicesDistinct | project/ReminderView.swift:340-349 | the four picker choices give four different sounds |
| Schedule.Requests | project/ReminderView.swift:259-265 | defines the requests a pass registers: one per instant, in order, with the title 喝水提醒, the message and the sound of `SoundFor` (used by `WalkPeriod` and `SchedulePass`) |
| Schedule.WalkPeriod | project/ReminderView.swift:257-268 | the loop produces exactly the upcoming instants of the period, with one request (title, message, sound) per instant |
| Schedule.SchedulePass | project/ReminderView.swift:244-270 | a pass yields the `Plan` outcome, leaves the list empty unless scheduled, and registers exactly one request per listed instant |
| Reminders.ReminderView.constructor | project/ReminderView.swift:5-32 | the screen opens switched off, with the default message and sound, weekdays 1..5, no periods, a 1 h 30 min interval and nothing scheduled |
| Reminders.ReminderView.SetNotificationEnabled | project/ReminderView.swift:61-63 | the master switch sets the flag |
| Reminders.ReminderView.SetWorkdayEnabled | project/ReminderView.swift:73 | the weekday-filter switch sets the flag |
| Reminders.ReminderView.ToggleWeekday | project/ReminderView.swift:282-286 | a weekday button does nothing when the picker is disabled, and otherwise flips that day only |
| Reminders.ReminderView.TogglePeriod | project/ReminderView.swift:96-107 | the period switch leaves the list equal to `ToggledOn` or `ToggledOff`, and valid |
| Reminders.ReminderView.AddPeriod | project/ReminderView.swift:221-228 | the add callback leaves the list equal to `Added`, and valid |
| Reminders.ReminderView.DeletePeriod | project/ReminderView.swift:115-119 | the delete button leaves the list equal to `Deleted`, and valid |
| Reminders.ReminderView.SetInterval | project/ReminderView.swift:135-146 | the pickers set the interval to one of the offered values |
| Reminders.ReminderView.SetMessage | project/ReminderView.swift:157 | the text field sets the message |
| Reminders.ReminderView.SelectSound | project/ReminderView.swift:160-162 | the sound picker selects one of the offered names |
| Reminders.ReminderView.ScheduleReminders | project/ReminderView.swift:244-270 | earlier requests are dropped; the outcome is `Plan` of the current settings; the list holds its instants (or nothing); exactly one request per listed instant is pending |
| Reminders.ReminderView.PressEnable | project/ReminderView.swift:171-178 | with the master switch on, the button runs a pass and marks the screen configured; otherwise it empties the list, leaves the pending requests and marks it unconfigured |

## Left out

- Views, layout, colours, symbols drawn, previews and animation values. These are presentation only.
- WaveView and WaterLevelView: sine-based drawing on floating-point geometry, and code that is commented out.
- The cup's shake and wave-phase animation and its timer: timing and animation only.
- The text labels: the `"\(Int(total)) / \(Int(goal)) ml"` and `"\(Int(amount))ml"` strings, `capitalized`, and `timeString`'s `DateFormatter`. These are string formatting by library calls. `Int(…)` itself is modelled by `ProgressRing.TruncToInt`.
- `Double(inputAmount)` parsing is a library call. `Intake.ContentView.Add` takes its result as the input `parsed`.
- The `print` in the add handler, which is console output only.
- `Date()`, `Calendar.current.component(.weekday, …)` and `Calendar.date(bySettingHour:…)` are clock and calendar calls. They become the inputs `now`, `weekday` and the start/end handed to `AddPeriod`.
- `UNUserNotificationCenter` is platform I/O: authorization, removing pending requests, adding requests, and the calendar trigger's date components. The ghost `pending` list stands for the center's requests.
- `UUID()` for periods and requests is left out. Period ids are given fresh naturals, and request identifiers are not modelled.
- `showAddWorkPeriod` and the add sheet's own state (its 09:00/18:00 defaults, "取消" passing start twice) are left out. `AddPeriod` receives whatever start and end the sheet reports.
- Floating-point rounding of `Double` is left out. Amounts, angles and ratios are exact reals.
- Swift dictionary iteration order is unspecified. `ProgressRing` holds for every order, but does not pick one.
- The `.disabled` modifiers other than the weekday picker's guard are left out. The handlers are modelled as callable. `Schedule.ToggleLocked` and `Schedule.EnabledPeriodIsLocked` capture the period switch's lock.
- `intakeDict[selectedDrink] ?? 0` and `intakeDict[drink]!` are not modelled separately. The store always has all four keys (`Intake.Complete`), so the default and the forced unwrap are never reached.
- Reminders.ReminderView.ScheduleReminders: the loop and the sort run in `Schedule.SchedulePass` on copies of the fields. The method's `ensures` gives the whole new `pending` list, not the cancel-then-append sequence of calls that produced it.
- Reminders.ReminderView.ScheduleReminders: a zero interval returns `InvalidInterval` where the source never stops (see Findings).

## Findings

| source | as written | input that shows it | evidently intended | confidence | as-written member | corrected member |
|---|---|---|---|---|---|---|
| project/ReminderView.swift:258-268 | `triggerTime` advances by `intervalHour * 3600 + intervalMinute * 60`, and the pickers allow 0 hours and 0 minutes, so the step can be 0 and the loop never leaves, registering the same instant again on every turn | intervalHour = 0, intervalMinute = 0, an enabled period whose start is after `now`, on a selected weekday | a zero interval schedules nothing and the pass ends | not executed | Schedule.ZeroStepNeverEnds | Schedule.Plan |
