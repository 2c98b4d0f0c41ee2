/**
 * The controller board's outputs: the four PWM pins and the mapping from a
 * light channel (0 white, 1 blue, 2 purple) to its pin.
 */
module Board {

  import opened Wrappers

  /** The NodeMCU pins that carry PWM. */
  datatype Pin = D1 | D2 | D4 | D5

  const WhitePwmPin: Pin := D1
  const BluePwmPin: Pin := D2
  const PurplePwmPin: Pin := D4
  const FanPwmPin: Pin := D5

  /** One `analogWrite(pin, duty)` call. */
  datatype Write = Write(pin: Pin, duty: int)

  /** `getPwmPin`: the pin of a light channel; any other number has no pin (the source's -1). */
  function GetPwmPin(color: int): (p: Option<Pin>)
    ensures p.Some? <==> 0 <= color < 3
    ensures p.Some? ==> p.value != FanPwmPin
  {
    match color
    case 0 => Some(WhitePwmPin)
    case 1 => Some(BluePwmPin)
    case 2 => Some(PurplePwmPin)
    case _ => None
  }

  /** Distinct channels drive distinct pins. */
  lemma ChannelPinsDistinct(a: int, b: int)
    requires 0 <= a < 3 && 0 <= b < 3 && a != b
    ensures GetPwmPin(a) != GetPwmPin(b)
  {
  }
}
