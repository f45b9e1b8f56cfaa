/**
 * The reminder screen's state and handlers: the master switch, the weekday
 * filter, the work-period list, the interval pickers, the message and sound,
 * the enable button and the scheduling pass it triggers.
 *
 * The clock and the calendar are inputs: `now` is the current instant in
 * seconds and `weekday` the calendar's weekday number for it. The notification
 * center is represented by `pending`, the requests it holds on this screen's
 * behalf.
 */
module Reminders {
  import opened Wrappers
  import opened Schedule

  class ReminderView {
    var notificationEnabled: bool
    var customMessage: string
    var selectedSound: string
    var workdayEnabled: bool
    var activeWeekdays: set<int>
    var workPeriods: seq<WorkPeriod>
    var intervalHour: int
    var intervalMinute: int
    var isConfigured: bool
    var scheduledTimes: seq<int>
    ghost var pending: seq<Request>

    /**
     * At most one period is enabled, ids are unique, every period has start < end,
     * the interval is one the pickers offer and the selected days are 1..7.
     */
    ghost predicate Valid()
      reads this`workPeriods, this`intervalHour, this`intervalMinute, this`activeWeekdays
    {
      && PeriodsValid(workPeriods)
      && ValidHour(intervalHour) && ValidMinute(intervalMinute)
      && (forall d :: d in activeWeekdays ==> 1 <= d <= 7)
    }

    /** The screen as it opens; no request is pending yet. */
    constructor ()
      ensures Valid()
      ensures !notificationEnabled && customMessage == "該喝水囉\U{1F4A7}" && selectedSound == SystemSounds[0]
      ensures workdayEnabled && activeWeekdays == DefaultWeekdays && workPeriods == []
      ensures intervalHour == 1 && intervalMinute == 30
      ensures !isConfigured && scheduledTimes == [] && pending == []
    {
      notificationEnabled := false;
      customMessage := "該喝水囉\U{1F4A7}";
      selectedSound := "預設";
      workdayEnabled := true;
      activeWeekdays := {1, 2, 3, 4, 5};
      workPeriods := [];
      intervalHour := 1;
      intervalMinute := 30;
      isConfigured := false;
      scheduledTimes := [];
      pending := [];
    }

    /** The master switch. */
    method SetNotificationEnabled(on: bool)
      requires Valid()
      modifies this`notificationEnabled
      ensures Valid() && notificationEnabled == on
    {
      notificationEnabled := on;
    }

    /** The weekday-filter switch. */
    method SetWorkdayEnabled(on: bool)
      requires Valid()
      modifies this`workdayEnabled
      ensures Valid() && workdayEnabled == on
    {
      workdayEnabled := on;
    }

    /**
     * A weekday button (1..7). The picker is disabled unless both switches are
     * on; otherwise the day's membership flips and no other day changes.
     */
    method ToggleWeekday(i: int)
      requires Valid()
      requires 1 <= i <= 7
      modifies this`activeWeekdays
      ensures Valid()
      ensures !notificationEnabled || !workdayEnabled ==> activeWeekdays == old(activeWeekdays)
      ensures notificationEnabled && workdayEnabled ==> activeWeekdays == FlipDay(old(activeWeekdays), i)
    {
      var disabled := !notificationEnabled || !workdayEnabled;
      if disabled {
        return;
      }
      if i in activeWeekdays {
        activeWeekdays := activeWeekdays - {i};
      } else {
        activeWeekdays := activeWeekdays + {i};
      }
    }

    /**
     * A period's switch. Switching on walks the whole list setting each flag to
     * "this is the chosen period"; switching off clears the flag of the first
     * period equal to `period`.
     */
    method TogglePeriod(period: WorkPeriod, newValue: bool)
      requires Valid()
      modifies this`workPeriods
      ensures Valid()
      ensures newValue ==> workPeriods == ToggledOn(old(workPeriods), period.id)
      ensures !newValue ==> workPeriods == ToggledOff(old(workPeriods), period)
    {
      ToggleOnIsExclusive(workPeriods, period.id);
      ToggleOffChangesOnlyThatEntry(workPeriods, period);
      if newValue {
        var idx := 0;
        while idx < |workPeriods|
          invariant 0 <= idx <= |workPeriods| == |old(workPeriods)|
          invariant forall j :: 0 <= j < idx ==> workPeriods[j] == ToggledOn(old(workPeriods), period.id)[j]
          invariant forall j :: idx <= j < |workPeriods| ==> workPeriods[j] == old(workPeriods)[j]
        {
          workPeriods := workPeriods[idx := workPeriods[idx].(enabled := workPeriods[idx].id == period.id)];
          idx := idx + 1;
        }
      } else {
        var found := FirstIndexOf(workPeriods, period);
        if found.Some? {
          var idx := found.value;
          workPeriods := workPeriods[idx := workPeriods[idx].(enabled := false)];
        }
      }
    }

    /**
     * The add sheet's callback with the chosen start and end and a fresh id:
     * appends the period when start < end, enabled only if it is the first one.
     */
    method AddPeriod(start: int, end: int, id: nat)
      requires Valid()
      requires forall i :: 0 <= i < |workPeriods| ==> workPeriods[i].id != id
      modifies this`workPeriods
      ensures Valid()
      ensures workPeriods == Added(old(workPeriods), id, start, end)
    {
      AddKeepsOneEnabled(workPeriods, id, start, end);
      if start < end {
        var enable := |workPeriods| == 0;
        workPeriods := workPeriods + [WorkPeriod(id, start, end, enable)];
      }
    }

    /** A period's delete button: removes the first period equal to `period`, if any. */
    method DeletePeriod(period: WorkPeriod)
      requires Valid()
      modifies this`workPeriods
      ensures Valid()
      ensures workPeriods == Deleted(old(workPeriods), period)
    {
      DeleteKeepsOneEnabled(workPeriods, period);
      var found := FirstIndexOf(workPeriods, period);
      if found.Some? {
        var idx := found.value;
        workPeriods := workPeriods[..idx] + workPeriods[idx + 1..];
      }
    }

    /** The interval pickers; they offer 0..3 hours and 0, 15, 30 or 45 minutes. */
    method SetInterval(h: int, m: int)
      requires Valid()
      requires ValidHour(h) && ValidMinute(m)
      modifies this`intervalHour, this`intervalMinute
      ensures Valid() && intervalHour == h && intervalMinute == m
    {
      intervalHour := h;
      intervalMinute := m;
    }

    /** The message text field. */
    method SetMessage(text: string)
      requires Valid()
      modifies this`customMessage
      ensures Valid() && customMessage == text
    {
      customMessage := text;
    }

    /** The sound picker; it offers the names of `SystemSounds`. */
    method SelectSound(name: string)
      requires Valid()
      requires name in SystemSounds
      modifies this`selectedSound
      ensures Valid() && selectedSound == name
    {
      selectedSound := name;
    }

    /**
     * `scheduleReminders`: cancel every pending request and clear the list, then
     * run `SchedulePass` on the screen's current settings; the requests it
     * registers become the pending ones and its sorted instants the list.
     */
    method ScheduleReminders(now: int, weekday: int) returns (outcome: Outcome)
      requires Valid()
      modifies this`scheduledTimes, this`pending
      ensures Valid()
      ensures outcome == Plan(workdayEnabled, activeWeekdays, workPeriods, Step(intervalHour, intervalMinute), now, weekday)
      ensures scheduledTimes == (if outcome.Scheduled? then outcome.times else [])
      ensures pending == Requests(scheduledTimes, customMessage, selectedSound)
    {
      var times;
      outcome, times, pending := SchedulePass(workdayEnabled, activeWeekdays, workPeriods,
        Step(intervalHour, intervalMinute), now, weekday, customMessage, selectedSound);
      scheduledTimes := times;
    }

    /**
     * The enable button: with the master switch on it runs a scheduling pass and
     * marks the screen configured; otherwise it clears the list (pending requests
     * stay) and marks it unconfigured.
     */
    method PressEnable(now: int, weekday: int)
      requires Valid()
      modifies this`scheduledTimes, this`pending, this`isConfigured
      ensures Valid()
      ensures isConfigured == notificationEnabled
      ensures notificationEnabled ==>
        var outcome := Plan(workdayEnabled, activeWeekdays, workPeriods, Step(intervalHour, intervalMinute), now, weekday);
        && scheduledTimes == (if outcome.Scheduled? then outcome.times else [])
        && pending == Requests(scheduledTimes, customMessage, selectedSound)
      ensures !notificationEnabled ==> scheduledTimes == [] && pending == old(pending)
    {
      if notificationEnabled {
        var _ := ScheduleReminders(now, weekday);
        isConfigured := true;
      } else {
        scheduledTimes := [];
        isConfigured := false;
      }
    }
  }
}
