/**
 When the Twitter sync is due, and the next run that the admin page announces.

 Times are nanoseconds since a midnight in UTC. The site's zone is a fixed offset; a zone
 whose offset changes is not modelled, so that a day is always twenty-four hours.
 */
module SyncSchedule {
  import opened Options

  const MINUTE := 60_000_000_000
  const TICK := 15 * MINUTE
  const HOUR := 60 * MINUTE
  const DAY := 24 * HOUR

  // A name the settings do not know runs like every_15_minutes.
  datatype Schedule = Every15Minutes | Hourly | Every6Hours | Daily | Weekly | Unknown

  function Interval(schedule: Schedule): int {
    match schedule
    case Hourly => HOUR
    case Every6Hours => 6 * HOUR
    case Weekly => 7 * DAY
    case _ => TICK
  }

  // The most recent 08:00, local time, at or before now.
  function LatestDailySlot(now: int, offset: int): int {
    var midnight := (now + offset) / DAY * DAY - offset;
    var slot := midnight + 8 * HOUR;
    if slot > now then slot - DAY else slot
  }

  // The next scheduler tick strictly after t.
  function TickAfter(t: int): int { t / TICK * TICK + TICK }

  predicate SyncDue(schedule: Schedule, lastSynced: Option<int>, now: int, offset: int) {
    match lastSynced
    case None => true
    case Some(last) =>
      if schedule.Daily? then last < LatestDailySlot(now, offset) else last < now - Interval(schedule)
  }

  function NextSyncRun(schedule: Schedule, lastSynced: Option<int>, now: int, offset: int): int {
    if SyncDue(schedule, lastSynced, now, offset) then TickAfter(now)
    else if schedule.Daily? then LatestDailySlot(now, offset) + DAY
    else TickAfter(lastSynced.value + Interval(schedule))
  }

  /// ### The announced run is the real one

  predicate IsTick(t: int) { t % TICK == 0 }

  // The scheduler's first firing after now at which it finds the sync due.
  ghost predicate IsNextRun(schedule: Schedule, lastSynced: Option<int>, now: int, offset: int, t: int) {
    && IsTick(t) && t > now && SyncDue(schedule, lastSynced, t, offset)
    && forall u :: now < u < t && IsTick(u) ==> !SyncDue(schedule, lastSynced, u, offset)
  }

  lemma TickAfterIsNext(t: int)
    ensures IsTick(TickAfter(t)) && t < TickAfter(t) <= t + TICK
    ensures forall u :: IsTick(u) && u > t ==> u >= TickAfter(t)
  {
  }

  // A slot is an 08:00 and no later one is at or before now.
  lemma SlotIsLatest(now: int, offset: int)
    ensures LatestDailySlot(now, offset) <= now < LatestDailySlot(now, offset) + DAY
    ensures (LatestDailySlot(now, offset) + offset) % DAY == 8 * HOUR
  {
    var days := (now + offset) / DAY;
    assert (8 * HOUR + days * DAY) % DAY == 8 * HOUR;
    assert (8 * HOUR + (days - 1) * DAY) % DAY == 8 * HOUR;
  }

  // The only 08:00 within the day up to u is the latest slot.
  lemma SlotUnique(u: int, offset: int, slot: int)
    requires (slot + offset) % DAY == 8 * HOUR && slot <= u < slot + DAY
    ensures LatestDailySlot(u, offset) == slot
  {
  }

  lemma SlotHolds(now: int, u: int, offset: int)
    requires LatestDailySlot(now, offset) <= u < LatestDailySlot(now, offset) + DAY
    ensures LatestDailySlot(u, offset) == LatestDailySlot(now, offset)
  {
    SlotIsLatest(now, offset);
    SlotUnique(u, offset, LatestDailySlot(now, offset));
  }

  lemma SlotMoves(now: int, offset: int)
    ensures LatestDailySlot(LatestDailySlot(now, offset) + DAY, offset) == LatestDailySlot(now, offset) + DAY
  {
    var slot := LatestDailySlot(now, offset);
    SlotIsLatest(now, offset);
    assert (slot + DAY + offset) % DAY == (slot + offset) % DAY;
    SlotUnique(slot + DAY, offset, slot + DAY);
  }

  // The schedules in seconds: due once more than the interval has passed, at once if it never
  // ran, and daily once a local 08:00 lies between the last run and now.
  lemma DueMeans(schedule: Schedule, last: int, now: int, offset: int)
    ensures SyncDue(schedule, None, now, offset)
    ensures
      var second := 1_000_000_000;
      SyncDue(schedule, Some(last), now, offset) <==>
        match schedule
        case Hourly => now - last > 3_600 * second
        case Every6Hours => now - last > 21_600 * second
        case Weekly => now - last > 604_800 * second
        case Daily => exists slot :: last < slot <= now && AtEight(slot, offset)
        case Every15Minutes => now - last > 900 * second
        case Unknown => now - last > 900 * second
  {
    SlotIsLatest(now, offset);
    assert AtEight(LatestDailySlot(now, offset), offset);
    if schedule.Daily? {
      forall slot | slot <= now && AtEight(slot, offset) ensures slot <= LatestDailySlot(now, offset) {
        LastSlot(now, offset, slot);
      }
    }
  }

  // 08:00 local time, in nanoseconds of a day.
  predicate AtEight(slot: int, offset: int) {
    (slot + offset) % 86_400_000_000_000 == 28_800_000_000_000
  }

  lemma LastSlot(now: int, offset: int, slot: int)
    requires slot <= now && AtEight(slot, offset)
    ensures slot <= LatestDailySlot(now, offset)
  {
    SlotIsLatest(now, offset);
    var a, b := (slot + offset) / DAY, (LatestDailySlot(now, offset) + offset) / DAY;
    assert slot + offset == a * DAY + 8 * HOUR && LatestDailySlot(now, offset) + offset == b * DAY + 8 * HOUR;
  }

  // Once due, the sync stays due until it runs.
  lemma DueStays(schedule: Schedule, lastSynced: Option<int>, now: int, later: int, offset: int)
    requires now <= later && SyncDue(schedule, lastSynced, now, offset)
    ensures SyncDue(schedule, lastSynced, later, offset)
  {
  }

  // 08:00 is a tick exactly in the zones whose offset is a whole number of ticks.
  lemma SlotIsTick(now: int, offset: int)
    ensures IsTick(LatestDailySlot(now, offset) + DAY) <==> offset % TICK == 0
  {
  }

  // The run announced is the scheduler's next real one, unless a daily sync that is not due
  // lives in a zone off the scheduler's grid, or was last run after the coming slot.
  lemma NextRunIsReal(schedule: Schedule, lastSynced: Option<int>, now: int, offset: int)
    ensures IsNextRun(schedule, lastSynced, now, offset, NextSyncRun(schedule, lastSynced, now, offset)) <==>
      (schedule.Daily? && !SyncDue(schedule, lastSynced, now, offset) ==>
        offset % TICK == 0 && lastSynced.value < LatestDailySlot(now, offset) + DAY)
  {
    if SyncDue(schedule, lastSynced, now, offset) {
      TickAfterIsNext(now);
      DueStays(schedule, lastSynced, now, TickAfter(now), offset);
    } else if schedule.Daily? {
      DailyNextRun(lastSynced.value, now, offset);
    } else {
      TickAfterIsNext(lastSynced.value + Interval(schedule));
    }
  }

  lemma DailyNextRun(last: int, now: int, offset: int)
    requires last >= LatestDailySlot(now, offset)
    ensures IsNextRun(Daily, Some(last), now, offset, LatestDailySlot(now, offset) + DAY) <==>
      offset % TICK == 0 && last < LatestDailySlot(now, offset) + DAY
  {
    SlotIsLatest(now, offset);
    SlotIsTick(now, offset);
    SlotMoves(now, offset);
    forall u | now < u < LatestDailySlot(now, offset) + DAY ensures !SyncDue(Daily, Some(last), u, offset) {
      SlotHolds(now, u, offset);
    }
  }

  // A daily sync that is not due is announced for the next local 08:00, on the grid or not.
  lemma DailyIsAnnouncedAtEight(lastSynced: Option<int>, now: int, offset: int)
    requires !SyncDue(Daily, lastSynced, now, offset)
    ensures
      var run := NextSyncRun(Daily, lastSynced, now, offset);
      AtEight(run, offset) && now < run && forall slot :: slot > now && AtEight(slot, offset) ==> run <= slot
  {
    var run := NextSyncRun(Daily, lastSynced, now, offset);
    SlotIsLatest(now, offset);
    forall slot | slot > now && AtEight(slot, offset) ensures run <= slot {
      var a, b := (slot + offset) / DAY, (run - DAY + offset) / DAY;
      assert slot + offset == a * DAY + 8 * HOUR && run - DAY + offset == b * DAY + 8 * HOUR;
    }
    assert (run + offset) % DAY == (run - DAY + offset) % DAY;
  }

  // In particular for every sync that ran in the past, in every zone on the grid.
  lemma NextRunAfterAPastSync(schedule: Schedule, lastSynced: Option<int>, now: int, offset: int)
    requires offset % TICK == 0 && (lastSynced.Some? ==> lastSynced.value <= now)
    ensures IsNextRun(schedule, lastSynced, now, offset, NextSyncRun(schedule, lastSynced, now, offset))
  {
    NextRunIsReal(schedule, lastSynced, now, offset);
    SlotIsLatest(now, offset);
  }
}
