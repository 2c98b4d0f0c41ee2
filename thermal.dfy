/**
 * Fan control: the automatic temperature-to-duty rule, the manual override,
 * and how an update request switches between them.
 */
module Thermal {

  import opened Wrappers
  import opened Arduino

  const TempHigh: int := 60
  const TempLow: int := 40
  const FanFull: int := 1000

  /** `fanModel`: 0 is automatic temperature control, 1 a manual duty. */
  datatype FanMode = Auto | Manual

  /** `fanModel` together with `fanPwmValue`, the stored manual duty. */
  datatype FanSetting = FanSetting(mode: FanMode, pwmValue: int)

  /** The fan setting at power-on. */
  const PowerOnFan: FanSetting := FanSetting(Auto, 0)

  /**
   * The automatic rule: off below 40 degrees, full above 60, and in between
   * `map` of the temperature truncated to an integer onto [0, 1000], that is
   * 50 per whole degree above 40.
   */
  function AutoFanDuty(temperature: real): (d: int)
    ensures 0 <= d <= FanFull
    ensures temperature > TempHigh as real ==> d == FanFull
    ensures temperature < TempLow as real ==> d == 0
    ensures TempLow as real <= temperature <= TempHigh as real ==>
              d == 50 * (Trunc(temperature) - TempLow)
  {
    if temperature > TempHigh as real then FanFull
    else if temperature < TempLow as real then 0
    else Map(Trunc(temperature), TempLow, TempHigh, 0, FanFull)
  }

  /** The duty written to the fan pin on a tick. */
  function FanDuty(f: FanSetting, temperature: real): (d: int)
    ensures f.mode == Auto ==> d == AutoFanDuty(temperature) && 0 <= d <= FanFull
    ensures f.mode == Manual ==> d == f.pwmValue
  {
    match f.mode
    case Auto => AutoFanDuty(temperature)
    case Manual => f.pwmValue
  }

  /** The effect of a request's `fan` argument: 0 selects automatic mode, any other value a manual duty. */
  function UpdateFan(f: FanSetting, fan: Option<int>): (g: FanSetting)
    ensures fan.Some? ==> (g.mode == Auto <==> fan.value == 0)
    ensures fan.None? ==> g.mode == f.mode
    ensures g.pwmValue == if fan.Some? && fan.value != 0 then fan.value else f.pwmValue
  {
    match fan
    case None => f
    case Some(v) => if v == 0 then FanSetting(Auto, f.pwmValue) else FanSetting(Manual, v)
  }

  /** A hotter reading never gives a lower automatic duty. */
  lemma AutoFanMonotone(t1: real, t2: real)
    requires t1 <= t2
    ensures AutoFanDuty(t1) <= AutoFanDuty(t2)
  {
    if TempLow as real <= t1 && t2 <= TempHigh as real {
      assert Trunc(t1) <= Trunc(t2);
    }
  }

  /** Automatic mode at 39, 50 and 61 degrees. */
  lemma AutoFanExamples()
    ensures AutoFanDuty(39.0) == 0
    ensures AutoFanDuty(50.0) == 500
    ensures AutoFanDuty(61.0) == FanFull
  {
  }

  /** In manual mode the stored duty is written whatever the temperature. */
  lemma ManualIgnoresTemperature(f: FanSetting, t1: real, t2: real)
    requires f.mode == Manual
    ensures FanDuty(f, t1) == FanDuty(f, t2) == f.pwmValue
  {
  }

  /**
   * A fan argument of 0 selects automatic mode and keeps the stored duty; a
   * non-zero argument selects manual mode and from then on the fan is driven
   * at exactly that value, unclamped, whatever the temperature; an absent
   * argument changes nothing.
   */
  lemma UpdateFanSelectsMode(f: FanSetting, fan: Option<int>, temperature: real)
    ensures fan.None? ==> UpdateFan(f, fan) == f
    ensures fan == Some(0) ==>
              && UpdateFan(f, fan).pwmValue == f.pwmValue
              && FanDuty(UpdateFan(f, fan), temperature) == AutoFanDuty(temperature)
              && 0 <= FanDuty(UpdateFan(f, fan), temperature) <= FanFull
    ensures fan.Some? && fan.value != 0 ==>
              && UpdateFan(f, fan).mode == Manual
              && FanDuty(UpdateFan(f, fan), temperature) == fan.value
  {
  }
}
