/** Millisecond time as the sketch sees it: `millis()` returns a 32-bit
    unsigned counter that wraps around to 0, and elapsed times are computed
    by unsigned subtraction, which is arithmetic modulo 2^32. */
module Clock {

  /** 2^32, the period of the millisecond counter. */
  const Wrap: int := 0x1_0000_0000

  /** An `unsigned long` on the 8-bit target: 32 bits wide. */
  newtype u32 = x: int | 0 <= x < 0x1_0000_0000

  /** `now - since` in 32-bit unsigned arithmetic: the time elapsed since
      `since`, measured forward from it, also when the counter wrapped in between. */
  function Elapsed(now: u32, since: u32): (e: u32)
    ensures since <= now ==> e as int == now as int - since as int
    ensures now < since ==> e as int == Wrap - since as int + now as int
    ensures (since as int + e as int) % Wrap == now as int
  {
    ((now as int - since as int) % Wrap) as u32
  }

  /** The `millis()` samples one pass of the loop takes, in program order:
      the test and the assignment inside the buzzer toggle, the elapsed time
      before the SMS step, the cooldown refresh, and the final cooldown test. */
  datatype Samples = Samples(toggleCheck: u32, toggleSet: u32, smsElapsed: u32,
                             smsRefresh: u32, cooldownCheck: u32)

  /** All five samples equal: the loop body taking no time. */
  predicate IsUniform(s: Samples) {
    s.toggleCheck == s.toggleSet == s.smsElapsed == s.smsRefresh == s.cooldownCheck
  }

  /** One sample `now` for the whole pass. */
  function Uniform(now: u32): (s: Samples)
    ensures IsUniform(s) && s.cooldownCheck == now
  {
    Samples(now, now, now, now, now)
  }
}
