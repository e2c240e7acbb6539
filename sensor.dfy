/** The value the loop works with when the temperature probe is read. */
module Sensor {

  /** The reading `raw` as the loop sees it: the probe library's disconnection
      value `disconnected` is replaced by 0; every other reading passes through.
      `disconnected` stands for the library's DEVICE_DISCONNECTED_C. */
  function Substitute(raw: real, disconnected: real): (t: real)
    ensures raw == disconnected ==> t == 0.0
    ensures (t == raw) <==> (raw != disconnected || raw == 0.0)
  {
    if raw != disconnected then raw else 0.0
  }
}
