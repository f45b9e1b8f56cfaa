/**
 * The value-level logic of the reminder screen: the list of work periods and
 * its "at most one enabled" rule, the weekday filter, the reminder interval,
 * the instants a scheduling pass produces, the sort applied to them and the
 * notification sound chosen by name.
 *
 * Instants are whole seconds on one absolute timeline; a period's start and
 * end are absolute instants fixed when the period was added.
 */
module Schedule {
  import opened Wrappers

  // ---------------------------------------------------------------------------
  // Work periods

  /** `WorkPeriod`; `id` stands for the UUID given at creation. */
  datatype WorkPeriod = WorkPeriod(id: nat, start: int, end: int, enabled: bool)

  ghost predicate AtMostOneEnabled(ps: seq<WorkPeriod>)
  {
    forall i, j :: 0 <= i < j < |ps| ==> !(ps[i].enabled && ps[j].enabled)
  }

  ghost predicate UniqueIds(ps: seq<WorkPeriod>)
  {
    forall i, j :: 0 <= i < j < |ps| ==> ps[i].id != ps[j].id
  }

  /** Only periods with start < end are ever added. */
  ghost predicate ProperSpans(ps: seq<WorkPeriod>)
  {
    forall i :: 0 <= i < |ps| ==> ps[i].start < ps[i].end
  }

  ghost predicate PeriodsValid(ps: seq<WorkPeriod>)
  {
    AtMostOneEnabled(ps) && UniqueIds(ps) && ProperSpans(ps)
  }

  /** `workPeriods.filter { $0.enabled }.count` */
  function CountEnabled(ps: seq<WorkPeriod>): nat
  {
    if |ps| == 0 then 0 else (if ps[0].enabled then 1 else 0) + CountEnabled(ps[1..])
  }

  /** No enabled period is the same as a count of zero. */
  lemma {:induction false} CountEnabledZero(ps: seq<WorkPeriod>)
    ensures CountEnabled(ps) == 0 <==> forall i :: 0 <= i < |ps| ==> !ps[i].enabled
  {
    if |ps| > 0 {
      CountEnabledZero(ps[1..]);
      assert forall i :: 1 <= i < |ps| ==> ps[i] == ps[1..][i - 1];
    }
  }

  /** "At most one enabled" is the same as a count of at most one. */
  lemma {:induction false} CountEnabledAtMostOne(ps: seq<WorkPeriod>)
    ensures CountEnabled(ps) <= 1 <==> AtMostOneEnabled(ps)
  {
    if |ps| > 0 {
      var rest := ps[1..];
      CountEnabledAtMostOne(rest);
      CountEnabledZero(rest);
      assert forall i :: 1 <= i < |ps| ==> ps[i] == rest[i - 1];
      if AtMostOneEnabled(ps) {
        assert AtMostOneEnabled(rest) by {
          forall i, j | 0 <= i < j < |rest| ensures !(rest[i].enabled && rest[j].enabled) {
            assert rest[i] == ps[i + 1] && rest[j] == ps[j + 1];
          }
        }
        if ps[0].enabled {
          forall i | 0 <= i < |rest| ensures !rest[i].enabled {
            assert rest[i] == ps[i + 1];
          }
        }
      }
    }
  }

  /** `firstIndex(of:)`, comparing whole periods as the synthesized `Equatable` does. */
  function FirstIndexOf(ps: seq<WorkPeriod>, p: WorkPeriod): (r: Option<nat>)
    ensures r.None? <==> p !in ps
    ensures r.Some? ==> r.value < |ps| && ps[r.value] == p
    ensures r.Some? ==> forall j :: 0 <= j < r.value ==> ps[j] != p
  {
    if |ps| == 0 then None
    else if ps[0] == p then Some(0)
    else match FirstIndexOf(ps[1..], p)
      case None => None
      case Some(k) => Some(k + 1)
  }

  /** The toggle switched on: every period's flag becomes "its id is the chosen one". */
  function ToggledOn(ps: seq<WorkPeriod>, id: nat): seq<WorkPeriod>
  {
    seq(|ps|, i requires 0 <= i < |ps| => ps[i].(enabled := ps[i].id == id))
  }

  /** The toggle switched off: the first period equal to `p` is disabled. */
  function ToggledOff(ps: seq<WorkPeriod>, p: WorkPeriod): seq<WorkPeriod>
  {
    match FirstIndexOf(ps, p)
    case None => ps
    case Some(i) => ps[i := ps[i].(enabled := false)]
  }

  /** The "完成" callback of the add sheet: append when start < end; only a first period starts enabled. */
  function Added(ps: seq<WorkPeriod>, id: nat, start: int, end: int): seq<WorkPeriod>
  {
    if start < end then ps + [WorkPeriod(id, start, end, |ps| == 0)] else ps
  }

  /** "刪除": remove the first period equal to `p`. */
  function Deleted(ps: seq<WorkPeriod>, p: WorkPeriod): seq<WorkPeriod>
  {
    match FirstIndexOf(ps, p)
    case None => ps
    case Some(i) => ps[..i] + ps[i + 1..]
  }

  /**
   * Switching a period on leaves exactly the periods with its id enabled, changes
   * no id, start or end, and with unique ids leaves exactly one period enabled.
   */
  lemma ToggleOnIsExclusive(ps: seq<WorkPeriod>, id: nat)
    ensures |ToggledOn(ps, id)| == |ps|
    ensures forall i :: 0 <= i < |ps| ==>
      && ToggledOn(ps, id)[i].id == ps[i].id
      && ToggledOn(ps, id)[i].start == ps[i].start
      && ToggledOn(ps, id)[i].end == ps[i].end
      && (ToggledOn(ps, id)[i].enabled <==> ps[i].id == id)
    ensures PeriodsValid(ps) ==> PeriodsValid(ToggledOn(ps, id))
    ensures PeriodsValid(ps) && (exists i :: 0 <= i < |ps| && ps[i].id == id) ==>
      CountEnabled(ToggledOn(ps, id)) == 1
  {
    var r := ToggledOn(ps, id);
    CountEnabledAtMostOne(r);
    CountEnabledZero(r);
  }

  /**
   * Switching a present period off clears the flag of its first occurrence and
   * changes nothing else; an absent period changes nothing. The list stays valid.
   */
  lemma ToggleOffChangesOnlyThatEntry(ps: seq<WorkPeriod>, p: WorkPeriod)
    ensures |ToggledOff(ps, p)| == |ps|
    ensures p !in ps ==> ToggledOff(ps, p) == ps
    ensures p in ps ==>
      exists i :: 0 <= i < |ps| && ps[i] == p && p !in ps[..i] && ToggledOff(ps, p) == ps[i := p.(enabled := false)]
    ensures forall i :: 0 <= i < |ps| ==>
      ToggledOff(ps, p)[i] == ps[i] || (ps[i] == p && ToggledOff(ps, p)[i] == p.(enabled := false))
    ensures PeriodsValid(ps) ==> PeriodsValid(ToggledOff(ps, p))
  {
    match FirstIndexOf(ps, p)
    case None =>
    case Some(i) =>
      assert p !in ps[..i];
  }

  /**
   * Adding appends only a proper span, enabled exactly when the list was empty,
   * and keeps the list valid when the new id is fresh.
   */
  lemma AddKeepsOneEnabled(ps: seq<WorkPeriod>, id: nat, start: int, end: int)
    ensures start >= end ==> Added(ps, id, start, end) == ps
    ensures start < end ==>
      && |Added(ps, id, start, end)| == |ps| + 1
      && Added(ps, id, start, end)[..|ps|] == ps
      && Added(ps, id, start, end)[|ps|] == WorkPeriod(id, start, end, |ps| == 0)
    ensures PeriodsValid(ps) && (forall i :: 0 <= i < |ps| ==> ps[i].id != id) ==>
      PeriodsValid(Added(ps, id, start, end))
  {
    var r := Added(ps, id, start, end);
    if start < end {
      assert r[..|ps|] == ps;
    }
  }

  /**
   * Deleting a present period removes its first occurrence and keeps the other
   * periods in their order; an absent period changes nothing. The list stays valid.
   */
  lemma DeleteKeepsOneEnabled(ps: seq<WorkPeriod>, p: WorkPeriod)
    ensures p !in ps ==> Deleted(ps, p) == ps
    ensures p in ps ==>
      exists i :: 0 <= i < |ps| && ps[i] == p && p !in ps[..i] && Deleted(ps, p) == ps[..i] + ps[i + 1..]
    ensures p in ps ==> |Deleted(ps, p)| == |ps| - 1 && multiset(Deleted(ps, p)) == multiset(ps) - multiset{p}
    ensures PeriodsValid(ps) ==> PeriodsValid(Deleted(ps, p))
  {
    match FirstIndexOf(ps, p)
    case None =>
    case Some(i) =>
      assert p !in ps[..i];
      assert ps == ps[..i] + [p] + ps[i + 1..];
      if PeriodsValid(ps) {
        RemoveAtKeepsValid(ps, i);
      }
  }

  lemma RemoveAtKeepsValid(ps: seq<WorkPeriod>, i: nat)
    requires i < |ps|
    requires PeriodsValid(ps)
    ensures PeriodsValid(ps[..i] + ps[i + 1..])
  {
    var r := ps[..i] + ps[i + 1..];
    assert forall a :: 0 <= a < |r| ==> r[a] == ps[if a < i then a else a + 1];
    forall a, b | 0 <= a < b < |r|
      ensures !(r[a].enabled && r[b].enabled) && r[a].id != r[b].id
    {
      var a', b' := if a < i then a else a + 1, if b < i then b else b + 1;
      assert r[a] == ps[a'] && r[b] == ps[b'] && a' < b';
    }
  }

  /** The switch of a period is locked (`.disabled`) when the screen is off or it is the only enabled one. */
  function ToggleLocked(notificationEnabled: bool, ps: seq<WorkPeriod>, p: WorkPeriod): bool
  {
    !notificationEnabled || (p.enabled && CountEnabled(ps) == 1)
  }

  /**
   * With at most one period enabled, the enabled period's switch is always locked:
   * the switch-off branch of the toggle cannot be reached from the screen.
   */
  lemma EnabledPeriodIsLocked(notificationEnabled: bool, ps: seq<WorkPeriod>, p: WorkPeriod)
    requires AtMostOneEnabled(ps)
    requires p in ps && p.enabled
    ensures ToggleLocked(notificationEnabled, ps, p)
  {
    CountEnabledAtMostOne(ps);
    CountEnabledZero(ps);
  }

  // ---------------------------------------------------------------------------
  // Weekdays

  /** `activeWeekdays` at launch. */
  const DefaultWeekdays: set<int> := {1, 2, 3, 4, 5}

  /** A weekday button: remove the day when selected, insert it otherwise. */
  function FlipDay(days: set<int>, i: int): (r: set<int>)
    ensures i in r <==> i !in days
    ensures forall d :: d != i ==> (d in r <==> d in days)
  {
    if i in days then days - {i} else days + {i}
  }

  /** Pressing the same weekday twice restores the selection. */
  lemma FlipDayTwice(days: set<int>, i: int)
    ensures FlipDay(FlipDay(days, i), i) == days
  {
  }

  /** The pass ends at once when the weekday filter is on and today is not selected. */
  predicate SkipsToday(workdayEnabled: bool, activeWeekdays: set<int>, weekday: int)
  {
    workdayEnabled && weekday !in activeWeekdays
  }

  /**
   * The filter compares the calendar's weekday number as it is. In the Gregorian
   * calendar 1 is Sunday, 6 Friday and 7 Saturday, while the labels read 1 as
   * Monday: with the default selection a Sunday passes and a Friday does not.
   */
  lemma DefaultFilterReadsCalendarNumbers()
    ensures !SkipsToday(true, DefaultWeekdays, 1)
    ensures SkipsToday(true, DefaultWeekdays, 6) && SkipsToday(true, DefaultWeekdays, 7)
    ensures forall d :: !SkipsToday(false, DefaultWeekdays, d)
  {
  }

  // ---------------------------------------------------------------------------
  // Interval and the instants of one pass

  /** The hour picker offers 0..3. */
  predicate ValidHour(h: int)
  {
    0 <= h < 4
  }

  /** The minute picker offers 0, 15, 30 and 45. */
  predicate ValidMinute(m: int)
  {
    m == 0 || m == 15 || m == 30 || m == 45
  }

  /** `intervalHour * 3600 + intervalMinute * 60`, in seconds. */
  function Step(h: int, m: int): int
  {
    h * 3600 + m * 60
  }

  /**
   * The pickers offer steps from 0 to 3 h 45 min on a quarter-hour grid; the
   * step is zero only for 0 h 0 min.
   */
  lemma StepOnPickerGrid(h: int, m: int)
    requires ValidHour(h) && ValidMinute(m)
    ensures 0 <= Step(h, m) <= 3 * 3600 + 45 * 60 && Step(h, m) % 900 == 0
    ensures Step(h, m) == 0 <==> h == 0 && m == 0
  {
  }

  /** The k-th point of the grid that starts at `start` and advances by `step`. */
  function Instant(start: int, step: int, k: nat): int
  {
    start + k * step
  }

  lemma InstantShift(start: int, step: int, k: nat)
    ensures Instant(start + step, step, k) == Instant(start, step, k + 1)
  {
    assert (k + 1) * step == k * step + step;
  }

  /**
   * The instants a pass registers from `t` on: every grid point up to `end`
   * (inclusive) that lies strictly after `now`, in generation order.
   */
  function Upcoming(t: int, end: int, step: int, now: int): seq<int>
    requires step > 0
    decreases end - t
  {
    if t > end then []
    else (if t > now then [t] else []) + Upcoming(t + step, end, step, now)
  }

  /** One iteration of the pass: the instant `t` is registered when after `now`, then the rest follows. */
  lemma UpcomingStep(done: seq<int>, t: int, end: int, step: int, now: int)
    requires step > 0
    requires t <= end
    ensures (if t > now then done + [t] else done) + Upcoming(t + step, end, step, now) == done + Upcoming(t, end, step, now)
  {
  }

  predicate StrictlyIncreasing(s: seq<int>)
  {
    forall i, j :: 0 <= i < j < |s| ==> s[i] < s[j]
  }

  /** Soundness: every registered instant is a grid point in (now, end], not before `t`. */
  lemma {:induction false} UpcomingSound(t: int, end: int, step: int, now: int)
    requires step > 0
    ensures forall i :: 0 <= i < |Upcoming(t, end, step, now)| ==>
      var x := Upcoming(t, end, step, now)[i];
      && now < x <= end && t <= x
      && exists k: nat :: x == Instant(t, step, k)
    decreases end - t
  {
    if t <= end {
      var r, rest := Upcoming(t, end, step, now), Upcoming(t + step, end, step, now);
      var h := if t > now then 1 else 0;
      UpcomingSound(t + step, end, step, now);
      forall i | 0 <= i < |r|
        ensures now < r[i] <= end && t <= r[i] && exists k: nat :: r[i] == Instant(t, step, k)
      {
        if i < h {
          assert r[i] == Instant(t, step, 0);
        } else {
          assert r[i] == rest[i - h];
          var k: nat :| rest[i - h] == Instant(t + step, step, k);
          InstantShift(t, step, k);
        }
      }
    }
  }

  /** Completeness: every grid point in (now, end] is registered. */
  lemma {:induction false} UpcomingComplete(t: int, end: int, step: int, now: int)
    requires step > 0
    ensures forall k: nat :: now < Instant(t, step, k) <= end ==> Instant(t, step, k) in Upcoming(t, end, step, now)
    decreases end - t
  {
    if t <= end {
      var rest := Upcoming(t + step, end, step, now);
      UpcomingComplete(t + step, end, step, now);
      forall k: nat | now < Instant(t, step, k) <= end
        ensures Instant(t, step, k) in Upcoming(t, end, step, now)
      {
        if k > 0 {
          InstantShift(t, step, k - 1);
          assert Instant(t, step, k) in rest;
        }
      }
    } else {
      forall k: nat ensures Instant(t, step, k) >= t {
        assert k * step >= 0;
      }
    }
  }

  /** The registered instants come out strictly increasing, hence sorted and without duplicates. */
  lemma {:induction false} UpcomingIncreasing(t: int, end: int, step: int, now: int)
    requires step > 0
    ensures StrictlyIncreasing(Upcoming(t, end, step, now))
    decreases end - t
  {
    if t <= end {
      var rest := Upcoming(t + step, end, step, now);
      UpcomingIncreasing(t + step, end, step, now);
      UpcomingSound(t + step, end, step, now);
    }
  }

  /** A pass run after the period has ended registers nothing. */
  lemma {:induction false} NothingAfterPeriodEnd(t: int, end: int, step: int, now: int)
    requires step > 0
    requires now >= end
    ensures Upcoming(t, end, step, now) == []
    decreases end - t
  {
    if t <= end {
      NothingAfterPeriodEnd(t + step, end, step, now);
    }
  }

  /** Every 1 h 30 min over 09:00-12:00, run at 08:00: reminders at 09:00, 10:30 and 12:00. */
  lemma NineToNoonExample()
    ensures Upcoming(9 * 3600, 12 * 3600, Step(1, 30), 8 * 3600) == [9 * 3600, 10 * 3600 + 1800, 12 * 3600]
  {
    var s := Step(1, 30);
    assert s == 5400;
    assert Upcoming(12 * 3600 + s, 12 * 3600, s, 8 * 3600) == [];
    assert Upcoming(12 * 3600, 12 * 3600, s, 8 * 3600) == [12 * 3600];
    assert Upcoming(10 * 3600 + 1800, 12 * 3600, s, 8 * 3600) == [10 * 3600 + 1800, 12 * 3600];
  }

  /**
   * The loop of a pass as written, run for at most `n` iterations: each
   * iteration registers the current instant when it is after `now`, then
   * advances by `step`; the loop stops once the instant passes `end`.
   */
  function LoopAsWritten(t: int, end: int, step: int, now: int, n: nat): seq<int>
    decreases n
  {
    if n == 0 || t > end then []
    else (if t > now then [t] else []) + LoopAsWritten(t + step, end, step, now, n - 1)
  }

  /**
   * With a zero interval the loop as written never leaves. The second clause
   * carries the claim: whatever the iteration bound `n`, the loop uses all `n`
   * iterations and registers the start instant on each of them. The first
   * clause only notes that the instant reached after `n` steps is still the
   * start, so the guard `triggerTime <= end` never fails.
   */
  lemma {:induction false} ZeroStepNeverEnds(start: int, end: int, now: int, n: nat)
    requires now < start <= end
    ensures Instant(start, 0, n) <= end
    ensures LoopAsWritten(start, end, 0, now, n) == seq(n, _ => start)
  {
    if n > 0 {
      ZeroStepNeverEnds(start, end, now, n - 1);
    }
  }

  /** With a positive interval the loop as written stops, and it registers exactly `Upcoming`. */
  lemma {:induction false} LoopAsWrittenEnds(t: int, end: int, step: int, now: int, n: nat)
    requires step > 0
    requires n > end - t
    ensures LoopAsWritten(t, end, step, now, n) == Upcoming(t, end, step, now)
    decreases n
  {
    if t <= end {
      LoopAsWrittenEnds(t + step, end, step, now, n - 1);
    }
  }

  // ---------------------------------------------------------------------------
  // Sorting

  predicate SortedAsc(s: seq<int>)
  {
    forall i, j :: 0 <= i < j < |s| ==> s[i] <= s[j]
  }

  /** Insert `x` into a sorted list; the head becomes the smaller of `x` and the old head. */
  function Insert(s: seq<int>, x: int): (r: seq<int>)
    requires SortedAsc(s)
    ensures SortedAsc(r) && multiset(r) == multiset(s) + multiset{x}
    ensures |r| == |s| + 1 && r[0] == (if |s| == 0 || x <= s[0] then x else s[0])
  {
    if |s| == 0 || x <= s[0] then [x] + s
    else
      assert s == [s[0]] + s[1..];
      [s[0]] + Insert(s[1..], x)
  }

  /** `sort()`: an ascending permutation of its input. */
  function SortAscending(s: seq<int>): (r: seq<int>)
    ensures SortedAsc(r) && multiset(r) == multiset(s)
  {
    if |s| == 0 then []
    else
      var n := |s| - 1;
      assert s == s[..n] + [s[n]];
      Insert(SortAscending(s[..n]), s[n])
  }

  /** Two sorted lists with the same elements are equal, so sorting a sorted list changes nothing. */
  lemma {:induction false} SortedPermutationUnique(a: seq<int>, b: seq<int>)
    requires SortedAsc(a) && SortedAsc(b)
    requires multiset(a) == multiset(b)
    ensures a == b
  {
    assert |a| == |multiset(a)| == |multiset(b)| == |b|;
    if |a| > 0 {
      SortedHeadsAgree(a, b);
      TailMultiset(a);
      TailMultiset(b);
      SortedTail(a);
      SortedTail(b);
      SortedPermutationUnique(a[1..], b[1..]);
    }
  }

  /** Two non-empty sorted lists with the same elements start with the same (least) element. */
  lemma SortedHeadsAgree(a: seq<int>, b: seq<int>)
    requires SortedAsc(a) && SortedAsc(b)
    requires multiset(a) == multiset(b) && |a| > 0 && |b| > 0
    ensures a[0] == b[0]
  {
    assert a[0] in multiset(b) && b[0] in multiset(a);
    var j :| 0 <= j < |b| && b[j] == a[0];
    var i :| 0 <= i < |a| && a[i] == b[0];
    assert j == 0 || b[0] <= b[j];
    assert i == 0 || a[0] <= a[i];
  }

  lemma TailMultiset(s: seq<int>)
    requires |s| > 0
    ensures multiset(s[1..]) == multiset(s) - multiset{s[0]}
  {
    assert s == [s[0]] + s[1..];
  }

  lemma SortedTail(s: seq<int>)
    requires SortedAsc(s) && |s| > 0
    ensures SortedAsc(s[1..])
  {
    forall i, j | 0 <= i < j < |s| - 1 ensures s[1..][i] <= s[1..][j] {
      assert s[1..][i] == s[i + 1] && s[1..][j] == s[j + 1];
    }
  }

  /** Sorting a list that is already strictly increasing leaves it as it is. */
  lemma SortKeepsSorted(s: seq<int>)
    requires StrictlyIncreasing(s)
    ensures SortAscending(s) == s
  {
    assert SortedAsc(s);
    SortedPermutationUnique(SortAscending(s), s);
  }

  // ---------------------------------------------------------------------------
  // Selecting the period and planning a pass

  /** `workPeriods.first(where: { $0.enabled })` */
  function FirstEnabled(ps: seq<WorkPeriod>): (r: Option<WorkPeriod>)
    ensures r.None? <==> forall i :: 0 <= i < |ps| ==> !ps[i].enabled
    ensures r.Some? ==>
      exists i :: 0 <= i < |ps| && ps[i] == r.value && r.value.enabled && (forall j :: 0 <= j < i ==> !ps[j].enabled)
  {
    if |ps| == 0 then None
    else if ps[0].enabled then Some(ps[0])
    else
      var r := FirstEnabled(ps[1..]);
      assert forall i :: 1 <= i < |ps| ==> ps[i] == ps[1..][i - 1];
      r
  }

  /** How a pass ends; the first three leave nothing scheduled. */
  datatype Outcome = NotAWorkday | NoActivePeriod | InvalidInterval | Scheduled(times: seq<int>)

  /**
   * One scheduling pass: the weekday filter first, then the first enabled period,
   * then a zero interval is refused instead of looping forever, and otherwise the
   * upcoming grid points of the period.
   */
  function Plan(workdayEnabled: bool, activeWeekdays: set<int>, periods: seq<WorkPeriod>,
                step: int, now: int, weekday: int): (r: Outcome)
    ensures r.NotAWorkday? <==> SkipsToday(workdayEnabled, activeWeekdays, weekday)
    ensures r.NoActivePeriod? <==>
      !SkipsToday(workdayEnabled, activeWeekdays, weekday) && forall i :: 0 <= i < |periods| ==> !periods[i].enabled
    ensures r.InvalidInterval? <==>
      !SkipsToday(workdayEnabled, activeWeekdays, weekday) && (exists i :: 0 <= i < |periods| && periods[i].enabled) &&
      step <= 0
  {
    if SkipsToday(workdayEnabled, activeWeekdays, weekday) then NotAWorkday
    else match FirstEnabled(periods)
      case None => NoActivePeriod
      case Some(p) => if step <= 0 then InvalidInterval else Scheduled(Upcoming(p.start, p.end, step, now))
  }

  /** On a workday with an enabled period, a zero interval is refused. */
  lemma PlanRefusesZeroStep(workdayEnabled: bool, activeWeekdays: set<int>, periods: seq<WorkPeriod>,
                            step: int, now: int, weekday: int)
    requires !SkipsToday(workdayEnabled, activeWeekdays, weekday)
    requires FirstEnabled(periods).Some? && step <= 0
    ensures Plan(workdayEnabled, activeWeekdays, periods, step, now, weekday) == InvalidInterval
  {
  }

  /** On a workday with an enabled period and a positive interval the pass walks that period. */
  lemma PlanWalksFirstEnabled(workdayEnabled: bool, activeWeekdays: set<int>, periods: seq<WorkPeriod>,
                              step: int, now: int, weekday: int)
    requires !SkipsToday(workdayEnabled, activeWeekdays, weekday)
    requires FirstEnabled(periods).Some? && step > 0
    ensures var p := FirstEnabled(periods).value;
      Plan(workdayEnabled, activeWeekdays, periods, step, now, weekday) == Scheduled(Upcoming(p.start, p.end, step, now))
  {
  }

  /**
   * A successful pass schedules, in strictly increasing order, exactly the grid
   * points of the first enabled period that lie in (now, end].
   */
  lemma PlanScheduledCorrect(workdayEnabled: bool, activeWeekdays: set<int>, periods: seq<WorkPeriod>,
                             step: int, now: int, weekday: int, ts: seq<int>)
    requires Plan(workdayEnabled, activeWeekdays, periods, step, now, weekday) == Scheduled(ts)
    ensures step > 0 && FirstEnabled(periods).Some?
    ensures StrictlyIncreasing(ts)
    ensures var p := FirstEnabled(periods).value;
      && (forall i :: 0 <= i < |ts| ==> now < ts[i] <= p.end && exists k: nat :: ts[i] == Instant(p.start, step, k))
      && (forall k: nat :: now < Instant(p.start, step, k) <= p.end ==> Instant(p.start, step, k) in ts)
  {
    var p := FirstEnabled(periods).value;
    UpcomingSound(p.start, p.end, step, now);
    UpcomingComplete(p.start, p.end, step, now);
    UpcomingIncreasing(p.start, p.end, step, now);
  }

  // ---------------------------------------------------------------------------
  // Notifications

  /** The sound choices offered by the picker; the first is the default. */
  const SystemSounds: seq<string> := ["預設", "水滴聲", "鳥鳴聲", "自訂音樂"]

  const ReminderTitle: string := "喝水提醒"

  datatype Sound = DefaultSound | NamedSound(file: string)

  /** The sound of a notification, chosen by the picker's name; unknown names get the default. */
  function SoundFor(name: string): (r: Sound)
    ensures r.NamedSound? <==> name in SystemSounds[1..]
  {
    if name == "水滴聲" then NamedSound("waterdrop.caf")
    else if name == "鳥鳴聲" then NamedSound("bird.caf")
    else if name == "自訂音樂" then NamedSound("custom.caf")
    else DefaultSound
  }

  /** The four choices give four different sounds. */
  lemma SoundChoicesDistinct(i: nat, j: nat)
    requires i < j < |SystemSounds|
    ensures SoundFor(SystemSounds[i]) != SoundFor(SystemSounds[j])
  {
  }

  /** One pending notification request: fire once at `at`. */
  datatype Request = Request(at: int, title: string, body: string, sound: Sound)

  /** The requests registered for `ts`, one per instant, in order. */
  function Requests(ts: seq<int>, message: string, soundName: string): seq<Request>
  {
    seq(|ts|, i requires 0 <= i < |ts| => Request(ts[i], ReminderTitle, message, SoundFor(soundName)))
  }

  lemma RequestsAppend(ts: seq<int>, t: int, message: string, soundName: string)
    ensures Requests(ts + [t], message, soundName) ==
      Requests(ts, message, soundName) + [Request(t, ReminderTitle, message, SoundFor(soundName))]
  {
  }

  /**
   * The loop of a scheduling pass over one period: from `start` in steps of
   * `step` while the instant is not past `end`, registering a request for every
   * instant after `now`. It produces exactly `Upcoming`, with one request each.
   */
  method WalkPeriod(start: int, end: int, step: int, now: int, message: string, soundName: string)
    returns (times: seq<int>, ghost requests: seq<Request>)
    requires step > 0
    ensures times == Upcoming(start, end, step, now)
    ensures requests == Requests(times, message, soundName)
  {
    times, requests := [], [];
    var triggerTime := start;
    while triggerTime <= end
      invariant times + Upcoming(triggerTime, end, step, now) == Upcoming(start, end, step, now)
      invariant requests == Requests(times, message, soundName)
      decreases end - triggerTime
    {
      UpcomingStep(times, triggerTime, end, step, now);
      RequestsAppend(times, triggerTime, message, soundName);
      if triggerTime > now {
        times := times + [triggerTime];
        requests := requests + [Request(triggerTime, ReminderTitle, message, SoundFor(soundName))];
      }
      triggerTime := triggerTime + step;
    }
  }

  /**
   * The body of `scheduleReminders` on plain values: stop on a filtered-out
   * weekday or when no period is enabled, refuse a zero interval, otherwise walk
   * the first enabled period and sort what it produced. `requests` are the
   * notification requests registered along the way.
   */
  method SchedulePass(workdayEnabled: bool, activeWeekdays: set<int>, periods: seq<WorkPeriod>,
                      step: int, now: int, weekday: int, message: string, soundName: string)
    returns (outcome: Outcome, times: seq<int>, ghost requests: seq<Request>)
    ensures outcome == Plan(workdayEnabled, activeWeekdays, periods, step, now, weekday)
    ensures times == (if outcome.Scheduled? then outcome.times else [])
    ensures requests == Requests(times, message, soundName)
  {
    times, requests := [], [];
    assert requests == Requests(times, message, soundName);
    if workdayEnabled && weekday !in activeWeekdays {
      return NotAWorkday, times, requests;
    }
    var found := FirstEnabled(periods);
    if found.None? {
      return NoActivePeriod, times, requests;
    }
    var period := found.value;
    if step <= 0 {
      PlanRefusesZeroStep(workdayEnabled, activeWeekdays, periods, step, now, weekday);
      return InvalidInterval, times, requests;
    }
    PlanWalksFirstEnabled(workdayEnabled, activeWeekdays, periods, step, now, weekday);
    times, requests := WalkPeriod(period.start, period.end, step, now, message, soundName);
    UpcomingIncreasing(period.start, period.end, step, now);
    SortKeepsSorted(times);
    times := SortAscending(times);
    outcome := Scheduled(times);
  }
}
