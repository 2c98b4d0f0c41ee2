# Fish3LED controller core in Dafny

Fish3LED is the firmware of an ESP8266 aquarium light with three LED channels
(white, blue, purple) and a cooling fan. This project models its control core:

- the built-in 24-hour schedule `pwmValuesPerHour` (one duty per hour per channel, 0..1000);
- the per-tick interpolation of each channel from the current hour's set-point
  toward the next hour's, with hour 23 ramping toward hour 0, clamped with `constrain`;
- the preview sequencer (`isPreModel`, `currentPreCount`), which replaces the
  clock's hour with a counter for one pass through the day;
- fan control: an automatic temperature rule (off below 40, full above 60,
  Arduino `map` in between) and a manual duty;
- the `/update` handler (per-channel writes, hour check, fan mode), the
  `/reset` handler, and loading the persisted overrides at start-up.

Modules, one per component:

- `Arduino`: C truncating division and remainder, float-to-integer truncation, `constrain`, `map`.
- `Board`: the pins and `getPwmPin`. A `Write` value stands for one `analogWrite` call.
- `Schedule`: the default table and the interpolation, as pure functions with lemmas.
- `Thermal`: the fan rule and the effect of the `fan` argument.
- `Preview`: the sequencer as a pure state machine (`Advance`), with `Run` iterating it over many ticks.
- `Settings`: the preferences store as a map from (channel, hour) to an integer.
  It holds the load (`Merge`), the channel branches of `/update`, and what `/reset` stores.
- `Controller`: the class holding the globals.
  - `table` is a 24×3 `array2<int>`, updated in place.
  - Its methods are `loop` (`Tick`), the handlers, `startPreModel` and `loadPwmFromPreferences`.
  - Each method is proved against the pure functions above.
  - `Valid()` keeps three invariants: the preview counter is -1 when idle and in [-1, 22] otherwise;
    every cell is non-negative; and the stored preferences, loaded over the defaults, give back the table.
    The last one means a power cycle after any sequence of updates restores the schedule,
    provided the load can read the stored values (see "## Left out").

Inputs that come from hardware or the network are parameters:

- the temperature (a real number);
- the clock's hour and minute (the minute in 0..59, as the NTP client delivers it);
- the parsed request arguments (`Option<int>`, where an empty argument is `None`);
- the contents of flash at power-on (a `Store`).

Behaviour of the code that the model keeps as written:

- The last preview tick (hour 23) turns preview off before the progress override is checked,
  so it uses the real minute rather than full progress.
- A manual fan value is stored and written unclamped.
- The purple branch of `/update` is gated on `purple` and `white`, not on `hour`.
  A missing hour reads as 0.
- `/reset` does not itself restore the in-memory table.
  It stores -1 everywhere and restarts the chip; on restart the globals take their
  initial values and the load keeps the defaults (`HandleReset`).

## Model

| member | source | states |
|---|---|---|
| `Arduino.Constrain` | Fish3LED/src/main.cpp:225 | `constrain` returns a value in [lo, hi]: x itself inside the range, the nearer bound outside it |
| `Arduino.Map` | Fish3LED/src/main.cpp:168 | `map` sends the lower input bound to the lower output bound and, for a non-decreasing output span, the upper input bound to the upper output bound |
| `Arduino.Trunc` | Fish3LED/src/main.cpp:168 | converting the temperature to `long` truncates toward zero: the result is within 1 of x, on the side of 0 |
| `Arduino.TruncRem` | Fish3LED/src/main.cpp:190 | C `%` by a positive divisor: smaller than the divisor in magnitude, the dividend itself when already below it, 0 at the divisor |
| `Board.GetPwmPin` | Fish3LED/src/main.cpp:233-246 | a pin exists exactly for colours 0, 1, 2 (otherwise the -1 case), and it is never the fan pin |
| `Board.ChannelPinsDistinct` | Fish3LED/src/main.cpp:19-21 | the three channels drive three different pins |
| `Schedule.Defaults` | Fish3LED/src/main.cpp:34-59 | the built-in table has 24 rows of 3 duties, all in [0, 1000]; hours 0-8 and 21-23 are dark and hour 12 is full on |
| `Schedule.NextHour` | Fish3LED/src/main.cpp:190 | the next hour is hour + 1, and hour 23 wraps to 0 |
| `Schedule.Progress` | Fish3LED/src/main.cpp:205-209 | preview forces the whole hour; otherwise a minute in 0..59 gives a progress below the whole hour, and either way progress is in 0..60 sixtieths |
| `Schedule.Ramp` | Fish3LED/src/main.cpp:211-224 | for progress in 0..60 the unclamped ramp lies between the two set-points and is the fraction progress/60 of the way from the start to the end, the step truncated toward the start: `(r - start) * 60 <= progress * (end - start) < (r - start + 1) * 60` for a rising hour and the mirror for a falling one |
| `Schedule.ScheduleWrites` | Fish3LED/src/main.cpp:190-228 | a tick makes three channel writes when the hour is in [0, 24) and none otherwise; the k-th goes to channel k's pin with a duty in [0, 1000] |
| `Schedule.HourInScheduleExactly` | Fish3LED/src/main.cpp:192 | the guard holds exactly when the hour is in [0, 24); its test on the next hour adds nothing |
| `Schedule.ChannelDuty` | Fish3LED/src/main.cpp:211-225 | every channel duty written lies in [0, 1000] |
| `Schedule.RampBetweenSetPoints` | Fish3LED/src/main.cpp:211-224 | for progress 0..60 sixtieths, the rising, falling and flat branches all stay between min(start, end) and max(start, end) |
| `Schedule.RampEndpoints` | Fish3LED/src/main.cpp:205-224 | at progress 0 the ramp equals the current hour's set-point; at full progress, the next hour's |
| `Schedule.RampMonotone` | Fish3LED/src/main.cpp:211-224 | as progress grows the ramp moves only toward the next set-point: up when rising, down when falling |
| `Schedule.ChannelDutyFollowsSetPoints` | Fish3LED/src/main.cpp:211-225 | after `constrain` the duty lies between the constrained set-points; it is the constrained current set-point at progress 0 and the constrained next one at full progress |
| `Schedule.ScheduleWritesFollowTable` | Fish3LED/src/main.cpp:190-228 | for any hour 0..23 and minute 0..59 with set-points in range: 3 writes to the channel pins in order; each duty lies between this hour's and the next hour's set-points (23 ramps to 0); it equals this hour's at minute 0 and the next hour's when progress is forced |
| `Schedule.ScheduleWritesInterpolate` | Fish3LED/src/main.cpp:205-225 | outside preview, each channel's duty at minute m is m/60 of the way from the hour's set-point to the next hour's: `(d - s) * 60 <= m * (e - s) < (d - s + 1) * 60` when rising and the mirror when falling |
| `Schedule.ScheduleWritesOnlyInRange` | Fish3LED/src/main.cpp:192-228 | channel writes happen exactly when the hour is in [0, 24), and every written duty is in [0, 1000] |
| `Thermal.AutoFanDuty` | Fish3LED/src/main.cpp:162-172 | the automatic duty is in [0, 1000]; above 60 degrees it is 1000, below 40 it is 0; between 40 and 60 degrees it is 50 per whole degree above 40 (`map` of the truncated temperature) |
| `Thermal.FanDuty` | Fish3LED/src/main.cpp:162-175 | in automatic mode the fan gets the automatic duty, within [0, 1000]; in manual mode it gets `fanPwmValue` |
| `Thermal.UpdateFan` | Fish3LED/src/main.cpp:386-394 | a `fan` argument selects automatic mode exactly when it is 0; the stored duty becomes the argument when it is non-zero and is kept otherwise; without the argument the mode is kept |
| `Thermal.AutoFanMonotone` | Fish3LED/src/main.cpp:162-172 | a higher temperature never gives a lower automatic duty |
| `Thermal.AutoFanExamples` | Fish3LED/src/main.cpp:162-172 | 39 degrees gives 0, 50 gives 500, 61 gives 1000 |
| `Thermal.ManualIgnoresTemperature` | Fish3LED/src/main.cpp:173-175 | in manual mode the fan gets `fanPwmValue` whatever the temperature |
| `Thermal.UpdateFanSelectsMode` | Fish3LED/src/main.cpp:386-394 | `fan=0` selects auto mode, keeps `fanPwmValue`, and the fan then follows the automatic rule; a non-zero `fan` selects manual mode and the fan is then driven at exactly that value, unclamped; no `fan` changes nothing |
| `Preview.Trigger` | Fish3LED/src/main.cpp:116-120 | `startPreModel` gives an active sequencer with counter -1 |
| `Preview.Advance` | Fish3LED/src/main.cpp:179-189 | while previewing, a tick uses hour count + 1, which is in 0..23; the counter becomes that hour while it is below 23, and at 23 preview switches off with counter -1; while idle, the tick uses the clock's hour and the state stays idle; the counter invariant is kept |
| `Preview.Run` | Fish3LED/src/main.cpp:179-209 | running the sequencer over n ticks records n visits and keeps the counter invariant |
| `Preview.RunFromCount` | Fish3LED/src/main.cpp:179-209 | from counter c, the remaining 23 - c ticks visit hours c + 1 .. 23 in order, forced except hour 23, and end idle |
| `Preview.PreviewVisitsEveryHourInOrder` | Fish3LED/src/main.cpp:179-209 | after a trigger, whatever came before, 24 ticks visit hours 0..23 in order; progress is forced on 0..22; hour 23 uses the real minute; the sequencer ends idle with counter -1 |
| `Preview.IdleFollowsClock` | Fish3LED/src/main.cpp:187-188 | while idle, every tick uses the clock's hour with the real minute and the sequencer stays idle |
| `Settings.GetInt` | Fish3LED/src/main.cpp:87-89 | `getInt` gives the stored value of a present key and the default of a missing one |
| `Settings.Override` | Fish3LED/src/main.cpp:87-89 | a cell's override is the stored value of its key, or -1 when the key is missing |
| `Settings.SaveRow` | Fish3LED/src/main.cpp:77-83 | saving an hour sets its three keys to the given duties and leaves every other key as it was |
| `Settings.Merge` | Fish3LED/src/main.cpp:85-100 | loading replaces a cell exactly when its stored value is zero or more; a stored -1 or a missing key keeps the cell |
| `Settings.MergeIdempotent` | Fish3LED/src/main.cpp:85-100 | loading the same preferences twice gives the same table as loading once |
| `Settings.ResetUpTo` | Fish3LED/src/main.cpp:397-400 | after the reset loop has run for n hours, the three keys of each of those hours read -1 and no key has been removed |
| `Settings.ResetUpToClears` | Fish3LED/src/main.cpp:397-400 | after the reset loop has passed an hour, that hour's three keys read -1; later hours are untouched |
| `Settings.LoadAfterResetKeepsTable` | Fish3LED/src/main.cpp:397-400 | after reset has stored -1 for all 24 hours, a load leaves any table (the defaults in particular) unchanged |
| `Settings.HourArg` | Fish3LED/src/main.cpp:376-377 | the hour a branch writes is the `hour` argument, or 0 when it is absent |
| `Settings.Fires` | Fish3LED/src/main.cpp:356-376 | a channel branch runs only for channels 0..2 and only with its value argument; the white and blue branches also need `hour` |
| `Settings.WriteChannel` | Fish3LED/src/main.cpp:356-365 | one branch with an hour outside 0..23 changes nothing; otherwise exactly cell [hour][channel] becomes the value clamped to [0, 1000], and the hour's three stored values become its new row; every other stored override keeps its value |
| `Settings.UpdateChannels` | Fish3LED/src/main.cpp:355-385 | the three branches change no row except that of the request's hour and no stored override except that hour's three, and change nothing when no branch runs |
| `Settings.UpdateChannelsCells` | Fish3LED/src/main.cpp:356-385 | an update changes exactly the cells [hour][channel] whose branch runs, to the value clamped to [0, 1000], and only for an hour in 0..23; every other cell is unchanged |
| `Settings.UpdateOutOfRangeHourIgnored` | Fish3LED/src/main.cpp:356-385 | with an hour outside 0..23 neither the table nor the preferences change |
| `Settings.PurpleNeedsWhite` | Fish3LED/src/main.cpp:376-385 | without a `white` argument the purple column is never written, even when `hour` and `purple` are given |
| `Settings.HourlessPurpleWritesHourZero` | Fish3LED/src/main.cpp:376-385 | with `white` and `purple` but no `hour`, only purple at hour 0 is written (an absent hour parses to 0) |
| `Settings.WriteChannelPersists` | Fish3LED/src/main.cpp:356-365 | one channel write keeps the preferences reproducing the table |
| `Settings.UpdateChannelsPersists` | Fish3LED/src/main.cpp:356-385 | a whole update keeps the preferences reproducing the table, so a load after a restart restores what updates wrote |
| `Controller.Controller.constructor` | Fish3LED/src/main.cpp:60-68 | at power-on the fan is automatic with duty 0, preview is idle with counter -1, and the table is the defaults with the stored overrides loaded |
| `Controller.Controller.Restart` | Fish3LED/src/main.cpp:138 | a restart returns every global to its power-on value and loads the stored overrides over the defaults |
| `Controller.Controller.Fill` | Fish3LED/src/main.cpp:34-59 | re-initialising the table makes every cell equal the given schedule |
| `Controller.Controller.LoadPwmFromPreferences` | Fish3LED/src/main.cpp:85-100 | the loop over hours leaves the table equal to `Merge` of the old table and the preferences |
| `Controller.Controller.SavePwmToPreferences` | Fish3LED/src/main.cpp:77-83 | the preferences become `SaveRow` of the old ones |
| `Controller.Controller.StartPreModel` | Fish3LED/src/main.cpp:116-120 | preview becomes active with counter -1, mid-run too; nothing else changes |
| `Controller.Controller.Tick` | Fish3LED/src/main.cpp:157-231 | the sequencer takes its `Advance` step and `currentHour` is the hour used. The writes are the fan duty first, then the channel writes for that hour, with progress forced exactly when preview is still on after the advance. The table, preferences and fan setting are unchanged |
| `Controller.Controller.ChannelWrites` | Fish3LED/src/main.cpp:211-228 | the loop over the three channels writes each channel's interpolated duty to its pin, in channel order |
| `Controller.Controller.UpdateChannel` | Fish3LED/src/main.cpp:356-365 | one branch writes the clamped value into the cell and saves the hour's three duties, only for an hour in 0..23 |
| `Controller.Controller.HandleUpdate` | Fish3LED/src/main.cpp:355-395 | table and preferences become `UpdateChannels` of the old ones and the fan setting `UpdateFan`; the object invariant, including the preferences reproducing the table, is kept |
| `Controller.Controller.HandleReset` | Fish3LED/src/main.cpp:397-403 | all 72 keys read -1, and after the restart the table is the built-in schedule, the fan is automatic and preview is idle |

## Left out

- Controller.Controller.LoadPwmFromPreferences: the firmware calls `getInt` without first opening the namespace with `preferences.begin`; only `savePwmToPreferences` opens and closes it (lines 78 and 82). The Preferences library is not part of this model, which assumes the stored values can be read at load time. If the library returns the default from an unopened namespace, the load keeps the built-in table at every start, and on the device a restart does not restore updated set-points.
- The four `analogWrite(..., 0)` calls of `setup` that switch every output off at power-on (lines 133-136) are not among the modelled writes; `Tick` returns only the writes of `loop`.
- `readTemperature` (thermistor formula with `log`, including the zero reading that divides by zero) is not modelled: the temperature is an input. A NaN temperature is not modelled either.
- Schedule.Ramp: computes the step as `minute * (end - start) / 60` on exact integers; the firmware multiplies the float `minute / 60.0` by the float difference and truncates, which can come out one lower in rare cases.
- 32-bit `int`/`long` wrap-around is not modelled; all duties, stored values and request values are unbounded integers (overflow would need stored or requested values near 2^31).
- Wi-Fi provisioning, NTP synchronisation, OTA, the web server set-up and the HTML/Chart.js page of `handleRoot` are network and UI code outside the core.
- `Serial` logging, `delay`, `analogWriteRange`/`analogWriteFreq` and the HTTP responses have no effect on the modelled state; `analogWrite` is modelled as the returned list of writes.
- The `Preferences` library is modelled as a map that never fails; the `String::toInt` parsing is modelled by taking the arguments already parsed.
- Concurrency between the asynchronous web handlers and `loop` is not modelled: each handler and each tick runs atomically.
