# Temperature monitor: the alerting state machine

The device is an Arduino sketch that reads a DS18B20 probe about once a second.
It shows the temperature band on three lights (green, yellow, red). From 60 °C
it sounds a buzzer that flips at most once per 500 ms (at the loop's one-second pacing, on every hot pass) and sends an SMS to one fixed number.
Four globals gate the SMS and the buzzer:

- `messageSent`: set when an SMS goes out, cleared by the cooldown test;
- `lastSMS`: the start of the 300000 ms cooldown;
- `lastToggle`: the start of when the buzzer last flipped;
- `buzzerState`: the buzzer's level in the square wave.

This project models one pass of `loop()`, together with `onAlarm()`,
`offAlarm()` and the substitution of the disconnection value in
`getTemperature()`. It proves what a pass and a sequence of passes do.

- `Lights` holds the band test (`Indicator`).
- `Sensor` holds the sentinel substitution (`Substitute`).
- `Clock` holds the 32-bit `millis()` arithmetic. Time is `u32`, an integer
  below 2^32. Elapsed time is subtraction modulo 2^32, as `unsigned long`
  subtraction is on the 8-bit AVR target.
- `Policy` is the pure state machine. `Step` maps the four globals, the reading
  and the pass's clock samples to new globals and to the pass's outputs.
  `Run` iterates `Step` over a sequence of passes.
- `Device.Monitor` is a class whose fields are the four globals. Its methods
  `Tick`, `OnAlarm` and `OffAlarm` update those fields in place, statement by
  statement as the sketch does. `Tick` is proved equal to `Policy.Step`.
- `Message` holds the SMS text around the temperature's rendering.
- `Cooldown` holds concrete runs that show what the cooldown does not promise.

Time. The sketch reads `millis()` up to five times per pass: at lines 116, 117,
65, 74 and 82 of `src/main.cpp`. The model takes all five as inputs
(`Clock.Samples`). `Clock.Uniform(now)` is the simplification that uses one
sample for the whole pass. The no-resend properties (`NoResendWhileHot`,
`OneSmsPerHotSpell`) are proved for one-sample passes. `SeparateSamplesCanResendWhileHot`
shows that they fail once the time spent inside the SMS send is counted.
The blocking delays of `sendSMS` add up to 3750 ms, and they fall between the
samples at lines 65 and 82.

Outputs. Pin writes are returned as values, not performed.

- Every pass writes all three lights (`Output.lights`).
- The buzzer is either driven to a level or left alone (`PinWrite`).
  `onAlarm()` writes the pin only when it flips the wave.
  `offAlarm()` drives the pin low and leaves `buzzerState` and `lastToggle` as they are.
- "An SMS was sent to the configured number" is a boolean event (`Output.smsSent`).

Facts about the sketch worth keeping in mind:

- The SMS threshold is 60, inside the yellow band, not the red band's lower edge.
- `messageSent` is re-armed by elapsed time, when `millis() - lastSMS` reaches the cooldown, not by a change of band.
- There is one fixed recipient.
- The SMS text has a single form, "WARNING: High temperature detected (…)".

## Model

| member | source | states |
|---|---|---|
| Lights.Indicator | src/main.cpp:47-61 | green iff t < 50, yellow iff 50 ≤ t ≤ 70, red iff t > 70, and exactly one light is on for every temperature |
| Sensor.Substitute | src/main.cpp:96 | a reading equal to the disconnection value becomes 0; the reading passes through unchanged exactly when it is not that value, or when it is 0 |
| Clock.Elapsed | src/main.cpp:65 | `now - since` as unsigned 32-bit subtraction: the plain difference when `since <= now`, 2^32 minus `since` plus `now` after a wrap; adding it to `since` modulo 2^32 gives `now` back |
| Policy.SentAfterSendStep | src/main.cpp:67-71 | after the send step `messageSent` is set iff it was already set or the pass is hot |
| Policy.RefreshedLastSms | src/main.cpp:73-75 | `lastSMS` becomes the refresh sample exactly when the pass is hot and the elapsed time reached 300000; otherwise it is unchanged |
| Policy.Step | src/main.cpp:63-88 | SMS sent iff t ≥ 60 and `messageSent` was clear; `lastSMS` becomes the refresh sample iff t ≥ 60 and the elapsed time reached 300000, else unchanged; `messageSent` stays set iff it was set after the send step and the final elapsed time is below 300000; below 60 the buzzer is driven low and `buzzerState`/`lastToggle` are unchanged; at 60 or above they flip/restart iff at least 500 ms have passed, the pin being written only on a flip; lights as `Indicator` |
| Policy.Run | src/main.cpp:43-91 | a sequence of passes yields one output per pass, each with the lights of its own reading |
| Policy.HotPassLeavesPending | src/main.cpp:63-88 | with one time sample per pass, every hot pass ends with `messageSent` set, because the `lastSMS` refresh (line 74) precedes the cooldown test (line 82) |
| Policy.NoResendWhileHot | src/main.cpp:63-88 | with one sample per pass, once `messageSent` is set, a run of hot passes sends no SMS and ends with `messageSent` still set |
| Policy.OneSmsPerHotSpell | src/main.cpp:63-88 | with one sample per pass, a run of hot passes sends exactly one SMS, on its first pass, if it starts with `messageSent` clear, and none otherwise |
| Cooldown.SmsSpacingCanBeShort | src/main.cpp:63-88 | even with one sample per pass, two SMS can go out 2000 ms apart (hot at 299000, cool at 300000, hot at 301000 from power-up), since sending does not refresh `lastSMS` |
| Cooldown.SeparateSamplesCanResendWhileHot | src/main.cpp:65-88 | with the clock sampled where the code samples it, an SMS sent 298000 ms into the cooldown clears `messageSent` in the same pass (3750 ms of send delays before line 82), and the next hot pass sends again |
| Cooldown.CooldownSpansCounterWrap | src/main.cpp:82-88 | a pending SMS stays pending and `lastSMS` is kept on a pass 2000 ms after `lastSMS`, the counter having wrapped 1000 ms after `lastSMS` |
| Device.Monitor.constructor | src/main.cpp:28-30 | the globals start as `messageSent = false`, `lastSMS = 0`, `lastToggle = 0`, `buzzerState = false` (the last two declared at lines 113-114) |
| Device.Monitor.OnAlarm | src/main.cpp:115-121 | if at least 500 ms passed since `lastToggle`, `lastToggle` becomes the second sample, `buzzerState` flips and the pin is driven to it; otherwise nothing changes and the pin is not written |
| Device.Monitor.OffAlarm | src/main.cpp:123-125 | drives the buzzer pin low and changes no global |
| Device.Monitor.Tick | src/main.cpp:43-91 | one pass of `loop()` on the object's fields, starting from the raw probe reading: the new fields and the outputs are exactly `Policy.Step` of the old fields on the substituted reading (line 96) |
| Device.DisconnectedSensorIsQuiet | src/main.cpp:96 | a disconnected probe reads 0, so in every state the pass shows green, sends no SMS, drives the buzzer low and freezes the square wave |
| Device.TwoHotPasses | src/main.cpp:63-71 | a usage example: from power-up, two hot passes of the object send exactly one SMS (the general statement is `Policy.OneSmsPerHotSpell`) |
| Message.SmsBody | src/main.cpp:162-164 | the body is the fixed prefix, the temperature's text and the fixed suffix |
| Message.TempTextRoundTrip | src/main.cpp:162-164 | the temperature text is recovered from the body, so different texts give different messages |

## Left out

- The OneWire/DallasTemperature probe driver: the reading is an input. `DEVICE_DISCONNECTED_C` is the parameter `disconnected`, since its value comes from the library.
- NaN and other float corner cases: the temperature is a `real`. A NaN reading would skip all three light branches and the alarm, which the model cannot express.
- The GSM link (`initializeGSM`, `updateGSM`, the AT commands in `sendSMS`) is I/O with fixed delays. Sending is the event `smsSent`. The delays appear only as the clock samples they separate.
- The float-to-text conversion `String(temperature)`: the text is a parameter of `Message.SmsBody`. `PHONE_NUMBER` comes from `config.h`, which is not part of this model; the single recipient is implicit in `smsSent`.
- Serial logging, `pinMode`, `setup()` and the `delay(1000)` pacing are I/O and timing. The cooldown's remaining-seconds value (line 84) is only logged.
- `toggleLight`'s `default` branch (lines 104-109) is unreachable: the loop only passes 0, 1 and 2.
- The Arduino runtime's repeated calls to `loop()` are `Policy.Run` on a sequence of inputs, not a loop in the model.
- Policy.NoResendWhileHot: proved only for passes with one time sample. With separate samples it does not hold; see `Cooldown.SeparateSamplesCanResendWhileHot`.
- Policy.OneSmsPerHotSpell: proved only for passes with one time sample, for the same reason.
