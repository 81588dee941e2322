/** The responder's settings (the `[sender]` table of the configuration file). */
module Settings {

  const I64_MIN := -0x8000_0000_0000_0000
  const I64_MAX := 0x7fff_ffff_ffff_ffff

  /** `send`: whether replies are sent at all; `minWait`/`maxWait`: bounds of the pause before a reply, in
      seconds; `timeout`: the age in seconds from which a message is no longer answered. */
  datatype SenderConfig = SenderConfig(send: bool, minWait: real, maxWait: real, timeout: real)

  /** `timeout as i64`: the fractional part is dropped (rounding toward zero) and values beyond the range
      of a 64-bit integer saturate at its bounds. */
  function TimeoutSeconds(t: real): (r: int)
    ensures I64_MIN <= r <= I64_MAX
    ensures 0.0 <= t <= I64_MAX as real ==> r as real <= t < r as real + 1.0
    ensures I64_MIN as real <= t <= 0.0 ==> r as real - 1.0 < t <= r as real
    ensures t > I64_MAX as real ==> r == I64_MAX
    ensures t < I64_MIN as real ==> r == I64_MIN
  {
    if t >= 0.0 then
      (if t >= I64_MAX as real then I64_MAX else t.Floor)
    else
      (if t <= I64_MIN as real then I64_MIN else -((-t).Floor))
  }
}
