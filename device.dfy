/** The sketch itself: its four globals as the fields of one object, and
    `loop()`, `onAlarm()` and `offAlarm()` as methods that update them in place. */
module Device {
  import opened Clock
  import opened Lights
  import opened Sensor
  import opened Policy

  class Monitor {
    var messageSent: bool
    var lastSMS: u32
    var lastToggle: u32
    var buzzerState: bool

    /** The globals as a value. */
    function Globals(): State
      reads this
    {
      State(messageSent, lastSMS, lastToggle, buzzerState)
    }

    /** Power-up: the globals' initialisers. */
    constructor ()
      ensures Globals() == Initial
    {
      messageSent, lastSMS, lastToggle, buzzerState := false, 0, 0, false;
    }

    /** `onAlarm()`: flip the buzzer and restart the half-period once at least
        500 ms have passed since the last flip, sampling the clock at `check`
        for the test and at `restart` for the new start. */
    method OnAlarm(check: u32, restart: u32) returns (write: PinWrite)
      modifies this`lastToggle, this`buzzerState
      ensures Elapsed(check, old(lastToggle)) >= ToggleInterval ==>
                lastToggle == restart && buzzerState == !old(buzzerState) && write == Drive(buzzerState)
      ensures Elapsed(check, old(lastToggle)) < ToggleInterval ==>
                lastToggle == old(lastToggle) && buzzerState == old(buzzerState) && write == Unchanged
    {
      write := Unchanged;
      if Elapsed(check, lastToggle) >= ToggleInterval {
        lastToggle := restart;
        buzzerState := !buzzerState;
        write := Drive(buzzerState);
      }
    }

    /** `offAlarm()`: drive the buzzer low; the square wave's state is left alone. */
    method OffAlarm() returns (write: PinWrite)
      ensures write == Drive(false)
    {
      write := Drive(false);
    }

    /** `loop()` on the probe reading `raw` with the pass's clock samples `clock`:
        substitute the disconnection value `disconnected`, set the lights, run
        the alarm and the SMS gate, then the cooldown test. */
    method Tick(raw: real, disconnected: real, clock: Samples) returns (out: Output)
      modifies this
      ensures Transition(Globals(), out) == Step(old(Globals()), Substitute(raw, disconnected), clock)
    {
      var temp := Substitute(raw, disconnected);
      var lights := Indicator(temp);
      var sent := false;
      var buzzer;
      if temp >= AlarmThreshold {
        buzzer := OnAlarm(clock.toggleCheck, clock.toggleSet);
        var elapsed := Elapsed(clock.smsElapsed, lastSMS);
        if !messageSent {
          sent := true;
          messageSent := true;
        }
        if elapsed >= SmsCooldown {
          lastSMS := clock.smsRefresh;
        }
      } else {
        buzzer := OffAlarm();
      }
      var elapsed := Elapsed(clock.cooldownCheck, lastSMS);
      if !(elapsed < SmsCooldown && messageSent) {
        messageSent := false;
      }
      out := Output(lights, sent, buzzer);
    }
  }

  /** A disconnected probe reads as 0: the green light, no alarm, no SMS, the
      buzzer driven low, and the square wave frozen, in every state. */
  lemma DisconnectedSensorIsQuiet(disconnected: real, st: State, clock: Samples)
    ensures var r := Step(st, Substitute(disconnected, disconnected), clock);
            r.out.lights == Lights(false, false, true) && !r.out.smsSent && r.out.buzzer == Drive(false)
            && r.next.buzzerState == st.buzzerState && r.next.lastToggle == st.lastToggle
  {
  }

  /** A usage example of the object, not a general property: two hot passes
      with one sample each, starting at power-up, send exactly one SMS between
      them. The general statement is `Policy.OneSmsPerHotSpell`, which applies
      to the object through the contract of `Tick`. */
  method TwoHotPasses() returns (sms: nat)
    ensures sms == 1
  {
    var m := new Monitor();
    var a := m.Tick(65.0, -127.0, Uniform(10000));
    var b := m.Tick(75.0, -127.0, Uniform(11000));
    sms := (if a.smsSent then 1 else 0) + (if b.smsSent then 1 else 0);
  }
}
