/**
 * The firmware's global state and the operations that change it in place:
 * the periodic tick (`loop`), the `/update`, `/reset` and `/premodel`
 * handlers, and loading the stored overrides at start-up.
 */
module Controller {

  import opened Wrappers
  import opened Arduino
  import opened Board
  import opened Schedule
  import opened Thermal
  import Preview
  import opened Settings

  class Controller {
    /** `pwmValuesPerHour`, updated in place. */
    const table: array2<int>
    /** The abstract value of `table`. */
    ghost var Setpoints: Table

    var fanModel: FanMode
    var fanPwmValue: int
    var isPreModel: bool
    var currentPreCount: int
    var currentHour: int
    /** The flash-backed `pwmSettings` preferences namespace; it survives a restart. */
    var stored: Store

    /** `table` holds exactly the cells of `Setpoints`. */
    ghost predicate Mirrors()
      reads this, table
    {
      && table.Length0 == Hours && table.Length1 == Channels
      && IsTable(Setpoints)
      && forall h, c :: 0 <= h < Hours && 0 <= c < Channels ==> table[h, c] == Setpoints[h][c]
    }

    ghost predicate Valid()
      reads this, table
    {
      && Mirrors()
      && Preview.Valid(PreviewState())
      && Persisted(Defaults(), Config(Setpoints, stored))
    }

    function PreviewState(): Preview.State
      reads this
    {
      Preview.State(isPreModel, currentPreCount)
    }

    function Fan(): FanSetting
      reads this
    {
      FanSetting(fanModel, fanPwmValue)
    }

    /** Power-on: the globals take their initial values and `setup` loads the stored overrides. */
    constructor (flash: Store)
      ensures Valid() && fresh(table)
      ensures stored == flash && Setpoints == Merge(Defaults(), flash)
      ensures Fan() == PowerOnFan && PreviewState() == Preview.Idle && currentHour == 0
    {
      table := new int[Hours, Channels];
      stored := flash;
      new;
      Restart();
    }

    /**
     * A restart: every global returns to its power-on value, the table to the
     * built-in schedule, and the stored overrides are loaded over it.
     */
    method Restart()
      requires table.Length0 == Hours && table.Length1 == Channels
      modifies this, table
      ensures Valid()
      ensures stored == old(stored) && Setpoints == Merge(Defaults(), stored)
      ensures Fan() == PowerOnFan && PreviewState() == Preview.Idle && currentHour == 0
    {
      fanModel, fanPwmValue := Auto, 0;
      isPreModel, currentPreCount, currentHour := false, -1, 0;
      Fill(Defaults());
      LoadPwmFromPreferences();
    }

    /** Overwrite the whole table with `t`. */
    method Fill(t: Table)
      requires table.Length0 == Hours && table.Length1 == Channels && IsTable(t)
      modifies this`Setpoints, table
      ensures Mirrors() && Setpoints == t
    {
      var hour := 0;
      while hour < Hours
        invariant 0 <= hour <= Hours
        invariant forall h, c :: 0 <= h < hour && 0 <= c < Channels ==> table[h, c] == t[h][c]
      {
        table[hour, 0], table[hour, 1], table[hour, 2] := t[hour][0], t[hour][1], t[hour][2];
        hour := hour + 1;
      }
      Setpoints := t;
    }

    /** `loadPwmFromPreferences`: a stored value of zero or more replaces its cell. */
    method LoadPwmFromPreferences()
      requires Mirrors()
      modifies this`Setpoints, table
      ensures Mirrors()
      ensures Setpoints == Merge(old(Setpoints), stored)
    {
      ghost var original := Setpoints;
      ghost var merged := Merge(Setpoints, stored);
      var hour := 0;
      while hour < table.Length0
        invariant 0 <= hour <= Hours
        invariant forall h, c :: 0 <= h < hour && 0 <= c < Channels ==> table[h, c] == merged[h][c]
        invariant forall h, c :: hour <= h < Hours && 0 <= c < Channels ==> table[h, c] == original[h][c]
      {
        var white := GetInt(stored, Key(0, hour), Unset);
        var blue := GetInt(stored, Key(1, hour), Unset);
        var purple := GetInt(stored, Key(2, hour), Unset);
        if white >= 0 {
          table[hour, 0] := white;
        }
        if blue >= 0 {
          table[hour, 1] := blue;
        }
        if purple >= 0 {
          table[hour, 2] := purple;
        }
        hour := hour + 1;
      }
      Setpoints := merged;
    }

    /** `savePwmToPreferences`. */
    method SavePwmToPreferences(hour: int, white: int, blue: int, purple: int)
      modifies this`stored
      ensures stored == SaveRow(old(stored), hour, white, blue, purple)
    {
      stored := stored[Key(0, hour) := white][Key(1, hour) := blue][Key(2, hour) := purple];
    }

    /** `startPreModel`: (re)start the preview run from -1. */
    method StartPreModel()
      requires Valid()
      modifies this`isPreModel, this`currentPreCount
      ensures Valid()
      ensures PreviewState() == Preview.Trigger()
    {
      currentPreCount := -1;
      isPreModel := true;
    }

    /**
     * One pass of `loop`: drive the fan from the temperature or the manual
     * duty, advance the preview sequencer or read the clock's hour, and, when
     * the hour is in range, write each channel's interpolated duty. Returns the
     * `analogWrite` calls in order.
     */
    method Tick(temperature: real, clockHour: int, clockMinute: int) returns (writes: seq<Write>)
      requires Valid()
      requires 0 <= clockMinute < FullProgress
      modifies this`isPreModel, this`currentPreCount, this`currentHour
      ensures Valid()
      ensures var step := Preview.Advance(old(PreviewState()), clockHour);
        && PreviewState() == step.next
        && currentHour == step.hour
        && writes == [Write(FanPwmPin, FanDuty(Fan(), temperature))]
                     + ScheduleWrites(Setpoints, step.hour, Progress(Preview.Forced(step), clockMinute))
    {
      writes := [Write(FanPwmPin, FanDuty(Fan(), temperature))];

      if isPreModel {
        currentPreCount := currentPreCount + 1;
        currentHour := currentPreCount;
        if currentPreCount >= 23 {
          isPreModel := false;
          currentPreCount := -1;
        }
      } else {
        currentHour := clockHour;
      }

      var nextHour := NextHour(currentHour);
      if 0 <= currentHour < Hours && 0 <= nextHour < Hours {
        var progress := if isPreModel then FullProgress else clockMinute;
        var channels := ChannelWrites(currentHour, progress);
        writes := writes + channels;
      }
    }

    /** The `for (i < 3)` loop of `loop`: each channel's duty for the hour, written to its pin. */
    method ChannelWrites(hour: int, progress: int) returns (writes: seq<Write>)
      requires Mirrors() && 0 <= hour < Hours
      ensures writes == ScheduleWrites(Setpoints, hour, progress)
    {
      var nextHour := NextHour(hour);
      writes := [];
      var i := 0;
      while i < Channels
        invariant 0 <= i <= Channels
        invariant |writes| == i
        invariant forall k :: 0 <= k < i ==>
                    writes[k] == Write(GetPwmPin(k).value, ChannelDuty(Setpoints[hour][k], Setpoints[nextHour][k], progress))
      {
        var duty := ChannelDuty(table[hour, i], table[nextHour, i], progress);
        writes := writes + [Write(GetPwmPin(i).value, duty)];
        i := i + 1;
      }
    }

    /**
     * One channel branch of the `/update` handler: clamp the value; if the
     * hour is in 0..23, write the cell and persist the hour's three duties.
     */
    method UpdateChannel(hour: int, channel: int, value: int)
      requires Mirrors() && 0 <= channel < Channels
      modifies this`Setpoints, this`stored, table
      ensures Mirrors()
      ensures Config(Setpoints, stored) == WriteChannel(old(Config(Setpoints, stored)), hour, channel, value)
    {
      var duty := Constrain(value, 0, MaxDuty);
      if 0 <= hour <= 23 {
        table[hour, channel] := duty;
        Setpoints := Setpoints[hour := Setpoints[hour][channel := duty]];
        SavePwmToPreferences(hour, table[hour, 0], table[hour, 1], table[hour, 2]);
      }
    }

    /**
     * The `/update` handler: the white, blue and purple branches in turn,
     * then the fan argument.
     */
    method HandleUpdate(req: Request)
      requires Valid()
      modifies this`Setpoints, this`stored, this`fanModel, this`fanPwmValue, table
      ensures Valid()
      ensures Config(Setpoints, stored) == UpdateChannels(old(Config(Setpoints, stored)), req)
      ensures Fan() == UpdateFan(old(Fan()), req.fan)
    {
      ghost var s0 := Config(Setpoints, stored);
      if req.hour.Some? && req.white.Some? {
        UpdateChannel(req.hour.value, 0, req.white.value);
      }
      if req.hour.Some? && req.blue.Some? {
        UpdateChannel(req.hour.value, 1, req.blue.value);
      }
      if req.purple.Some? && req.white.Some? {
        UpdateChannel(req.hour.GetOr(0), 2, req.purple.value);
      }
      if req.fan.Some? {
        var fan := req.fan.value;
        if fan == 0 {
          fanModel := Auto;
        } else {
          fanModel := Manual;
          fanPwmValue := fan;
        }
      }
      UpdateChannelsPersists(Defaults(), s0, req);
    }

    /**
     * The `/reset` handler: store -1 for every channel of every hour, then
     * restart the device, which comes back with the built-in schedule.
     */
    method HandleReset()
      requires Valid()
      modifies this, table
      ensures Valid()
      ensures stored == ResetUpTo(old(stored), Hours)
      ensures Setpoints == Defaults()
      ensures Fan() == PowerOnFan && PreviewState() == Preview.Idle && currentHour == 0
    {
      var hour := 0;
      while hour <= 23
        invariant 0 <= hour <= Hours
        invariant stored == ResetUpTo(old(stored), hour)
      {
        SavePwmToPreferences(hour, Unset, Unset, Unset);
        hour := hour + 1;
      }
      Restart();
      LoadAfterResetKeepsTable(Defaults(), old(stored));
    }
  }
}
