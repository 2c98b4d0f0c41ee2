/**
 * The hourly schedule and the per-tick interpolation of the three light
 * channels between the current hour's set-point and the next hour's.
 */
module Schedule {

  import opened Wrappers
  import opened Arduino
  import opened Board

  const Hours: int := 24
  const Channels: int := 3
  const MaxDuty: int := 1000
  /** Progress through an hour is counted in sixtieths: a minute, or the whole hour. */
  const FullProgress: int := 60

  /** `pwmValuesPerHour`: one row per hour, one duty per channel (white, blue, purple). */
  type Table = seq<seq<int>>

  ghost predicate IsTable(t: Table) {
    |t| == Hours && forall h :: 0 <= h < Hours ==> |t[h]| == Channels
  }

  ghost predicate InDutyRange(t: Table)
    requires IsTable(t)
  {
    forall h, c :: 0 <= h < Hours && 0 <= c < Channels ==> 0 <= t[h][c] <= MaxDuty
  }

  /** The built-in schedule the firmware starts from. */
  function Defaults(): (t: Table)
    ensures IsTable(t) && InDutyRange(t)
    ensures forall h :: 0 <= h <= 8 || 21 <= h < Hours ==> t[h] == [0, 0, 0]
    ensures t[12] == [MaxDuty, MaxDuty, MaxDuty]
  {
    [ [0, 0, 0], [0, 0, 0], [0, 0, 0], [0, 0, 0], [0, 0, 0], [0, 0, 0],
      [0, 0, 0], [0, 0, 0], [0, 0, 0], [200, 200, 0], [500, 500, 200], [900, 900, 300],
      [1000, 1000, 1000], [1000, 1000, 800], [900, 900, 500], [800, 800, 300], [700, 800, 300], [600, 800, 300],
      [500, 800, 300], [400, 400, 250], [300, 300, 300], [0, 0, 0], [0, 0, 0], [0, 0, 0] ]
  }

  /** The hour interpolated toward: `(hour + 1) % 24` with C's remainder. */
  function NextHour(hour: int): (next: int)
    ensures 0 <= hour < Hours - 1 ==> next == hour + 1
    ensures hour == Hours - 1 ==> next == 0
  {
    TruncRem(hour + 1, Hours)
  }

  /** The guard under which the channels are computed and written. */
  predicate HourInSchedule(hour: int) {
    0 <= hour < Hours && 0 <= NextHour(hour) < Hours
  }

  /** The guard's test of the next hour is implied by its test of the current hour. */
  lemma HourInScheduleExactly(hour: int)
    ensures HourInSchedule(hour) <==> 0 <= hour < Hours
  {
  }

  /** The progress used for the ramp: the minute, or the whole hour when forced by preview. */
  function Progress(forced: bool, minute: int): (p: int)
    ensures forced ==> p == FullProgress
    ensures 0 <= minute < FullProgress ==> 0 <= p <= FullProgress
    ensures !forced && 0 <= minute < FullProgress ==> p < FullProgress
  {
    if forced then FullProgress else minute
  }

  /**
   * The ramp before clamping: `progress` sixtieths of the way from `start`
   * toward `end`, the step truncated toward zero, with a branch for a rising,
   * a falling and a flat hour.
   */
  function Ramp(start: int, end: int, progress: int): (r: int)
    ensures 0 <= progress <= FullProgress && start <= end ==> start <= r <= end
    ensures 0 <= progress <= FullProgress && end <= start ==> end <= r <= start
    ensures 0 <= progress <= FullProgress && start <= end ==>
              (r - start) * FullProgress <= progress * (end - start) < (r - start + 1) * FullProgress
    ensures 0 <= progress <= FullProgress && end <= start ==>
              (start - r) * FullProgress <= progress * (start - end) < (start - r + 1) * FullProgress
  {
    ScaledStep(0, if 0 <= progress <= FullProgress then progress else 0, if end > start then end - start else start - end);
    if end > start then TruncDiv(progress * (end - start), FullProgress) + start
    else if end < start then start - TruncDiv(progress * (start - end), FullProgress)
    else start
  }

  /** The duty written for one channel: the ramp, constrained to [0, 1000]. */
  function ChannelDuty(start: int, end: int, progress: int): (d: int)
    ensures 0 <= d <= MaxDuty
  {
    Constrain(Ramp(start, end, progress), 0, MaxDuty)
  }

  /** The channel writes of one tick, in channel order; none when the hour fails the guard. */
  function ScheduleWrites(t: Table, hour: int, progress: int): (w: seq<Write>)
    requires IsTable(t)
    ensures |w| == if 0 <= hour < Hours then Channels else 0
    ensures forall k :: 0 <= k < |w| ==> w[k].pin == GetPwmPin(k).value && 0 <= w[k].duty <= MaxDuty
  {
    if HourInSchedule(hour) then
      seq(Channels, c requires 0 <= c < Channels =>
        Write(GetPwmPin(c).value, ChannelDuty(t[hour][c], t[NextHour(hour)][c], progress)))
    else
      []
  }

  /** The truncated step `progress * d / 60` lies in [0, d] and grows with progress. */
  lemma ScaledStep(p: int, q: int, d: int)
    requires 0 <= p <= q <= FullProgress && 0 <= d
    ensures 0 <= TruncDiv(p * d, FullProgress) <= TruncDiv(q * d, FullProgress) <= d
  {
    assert 0 <= p * d <= q * d by {
      assert q * d - p * d == (q - p) * d;
    }
    assert q * d <= FullProgress * d by {
      assert FullProgress * d - q * d == (FullProgress - q) * d;
    }
  }

  /** For any progress within the hour the ramp stays between the two set-points. */
  lemma RampBetweenSetPoints(start: int, end: int, progress: int)
    requires 0 <= progress <= FullProgress
    ensures Min(start, end) <= Ramp(start, end, progress) <= Max(start, end)
  {
    ScaledStep(progress, progress, if end > start then end - start else start - end);
  }

  /** The ramp starts at the current hour's set-point and, at full progress, reaches the next hour's. */
  lemma RampEndpoints(start: int, end: int)
    ensures Ramp(start, end, 0) == start
    ensures Ramp(start, end, FullProgress) == end
  {
  }

  /** The ramp moves monotonically toward the next set-point as progress grows. */
  lemma RampMonotone(start: int, end: int, p: int, q: int)
    requires 0 <= p <= q <= FullProgress
    ensures start <= end ==> Ramp(start, end, p) <= Ramp(start, end, q)
    ensures end <= start ==> Ramp(start, end, q) <= Ramp(start, end, p)
  {
    ScaledStep(p, q, if end > start then end - start else start - end);
  }

  /**
   * The duty of a channel lies between the constrained set-points; at
   * progress 0 it is the current set-point and at full progress the next one.
   */
  lemma ChannelDutyFollowsSetPoints(start: int, end: int, progress: int)
    requires 0 <= progress <= FullProgress
    ensures Constrain(Min(start, end), 0, MaxDuty) <= ChannelDuty(start, end, progress)
                                                  <= Constrain(Max(start, end), 0, MaxDuty)
    ensures progress == 0 ==> ChannelDuty(start, end, progress) == Constrain(start, 0, MaxDuty)
    ensures progress == FullProgress ==> ChannelDuty(start, end, progress) == Constrain(end, 0, MaxDuty)
  {
    RampBetweenSetPoints(start, end, progress);
    RampEndpoints(start, end);
    ConstrainMonotone(Min(start, end), Ramp(start, end, progress), 0, MaxDuty);
    ConstrainMonotone(Ramp(start, end, progress), Max(start, end), 0, MaxDuty);
  }

  /**
   * One tick's channel writes for a schedule whose set-points are in range:
   * the three channel pins in order, each duty between the hour's set-point
   * and the next hour's (hour 23 ramps toward hour 0), equal to the hour's
   * set-point at minute 0 and to the next hour's when progress is forced.
   */
  lemma ScheduleWritesFollowTable(t: Table, hour: int, minute: int, forced: bool)
    requires IsTable(t) && InDutyRange(t)
    requires 0 <= hour < Hours && 0 <= minute < FullProgress
    ensures var w := ScheduleWrites(t, hour, Progress(forced, minute));
      && |w| == Channels
      && NextHour(hour) == (if hour == Hours - 1 then 0 else hour + 1)
      && forall c :: 0 <= c < Channels ==>
           && w[c].pin == GetPwmPin(c).value
           && Min(t[hour][c], t[NextHour(hour)][c]) <= w[c].duty <= Max(t[hour][c], t[NextHour(hour)][c])
           && (!forced && minute == 0 ==> w[c].duty == t[hour][c])
           && (forced ==> w[c].duty == t[NextHour(hour)][c])
  {
    var w := ScheduleWrites(t, hour, Progress(forced, minute));
    forall c | 0 <= c < Channels
      ensures Min(t[hour][c], t[NextHour(hour)][c]) <= w[c].duty <= Max(t[hour][c], t[NextHour(hour)][c])
      ensures !forced && minute == 0 ==> w[c].duty == t[hour][c]
      ensures forced ==> w[c].duty == t[NextHour(hour)][c]
    {
      ChannelDutyFollowsSetPoints(t[hour][c], t[NextHour(hour)][c], Progress(forced, minute));
    }
  }

  /**
   * Within an hour that preview does not force, each channel's duty is the
   * fraction minute/60 of the way from the hour's set-point to the next
   * hour's, the step truncated toward the hour's set-point.
   */
  lemma ScheduleWritesInterpolate(t: Table, hour: int, minute: int)
    requires IsTable(t) && InDutyRange(t)
    requires 0 <= hour < Hours && 0 <= minute < FullProgress
    ensures var w := ScheduleWrites(t, hour, Progress(false, minute));
      && |w| == Channels
      && forall c :: 0 <= c < Channels ==>
           var s, e, d := t[hour][c], t[NextHour(hour)][c], w[c].duty;
           && (s <= e ==> (d - s) * FullProgress <= minute * (e - s) < (d - s + 1) * FullProgress)
           && (e <= s ==> (s - d) * FullProgress <= minute * (s - e) < (s - d + 1) * FullProgress)
  {
    var w := ScheduleWrites(t, hour, Progress(false, minute));
    forall c | 0 <= c < Channels
      ensures w[c].duty == Ramp(t[hour][c], t[NextHour(hour)][c], minute)
    {
      RampBetweenSetPoints(t[hour][c], t[NextHour(hour)][c], minute);
    }
  }

  /** Channel duties are written exactly when the hour is in [0, 24), and always within [0, 1000]. */
  lemma ScheduleWritesOnlyInRange(t: Table, hour: int, progress: int)
    requires IsTable(t)
    ensures ScheduleWrites(t, hour, progress) != [] <==> 0 <= hour < Hours
    ensures forall k :: 0 <= k < |ScheduleWrites(t, hour, progress)| ==>
              0 <= ScheduleWrites(t, hour, progress)[k].duty <= MaxDuty
  {
    HourInScheduleExactly(hour);
    if HourInSchedule(hour) {
      assert |ScheduleWrites(t, hour, progress)| == Channels;
    }
  }
}
