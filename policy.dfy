/** The alerting state machine of the monitor's loop, as pure functions: one
    pass of the loop maps the sketch's four globals, the temperature and the
    pass's clock samples to new globals and to what the pass writes out. */
module Policy {
  import opened Clock
  import opened Lights

  /** Minimum time between refreshes of `lastSMS`, in milliseconds (5 minutes). */
  const SmsCooldown: u32 := 300000
  /** Minimum time between two flips of the buzzer, in milliseconds: the buzzer
      flips at most once per 500 ms, and at the loop's one-second pacing on every hot pass. */
  const ToggleInterval: u32 := 500
  /** Temperature from which the buzzer sounds and an SMS may be sent. */
  const AlarmThreshold: real := 60.0

  /** The sketch's globals `messageSent`, `lastSMS`, `lastToggle` and `buzzerState`. */
  datatype State = State(messageSent: bool, lastSMS: u32, lastToggle: u32, buzzerState: bool)

  /** The globals' values at power-up. */
  const Initial: State := State(false, 0, 0, false)

  /** What a pass does to an output pin: leave it, or drive it to a level. */
  datatype PinWrite = Unchanged | Drive(level: bool)

  /** What one pass puts out: the three lights, whether it sent the SMS to the
      configured number, and what it did to the buzzer pin. */
  datatype Output = Output(lights: Lights, smsSent: bool, buzzer: PinWrite)

  datatype Transition = Transition(next: State, out: Output)

  predicate Hot(t: real) { t >= AlarmThreshold }

  /** `messageSent` after the send step of a pass: set if it was set or an SMS went out. */
  function SentAfterSendStep(st: State, t: real): (sent: bool)
    ensures sent <==> st.messageSent || Hot(t)
  {
    if Hot(t) && !st.messageSent then true else st.messageSent
  }

  /** `lastSMS` after the refresh step of a pass. */
  function RefreshedLastSms(st: State, t: real, s: Samples): (last: u32)
    ensures Hot(t) && Elapsed(s.smsElapsed, st.lastSMS) >= SmsCooldown ==> last == s.smsRefresh
    ensures !(Hot(t) && Elapsed(s.smsElapsed, st.lastSMS) >= SmsCooldown) ==> last == st.lastSMS
  {
    if Hot(t) && Elapsed(s.smsElapsed, st.lastSMS) >= SmsCooldown then s.smsRefresh else st.lastSMS
  }

  /** One pass of the loop on temperature `t` with clock samples `s`. */
  function Step(st: State, t: real, s: Samples): (r: Transition)
    // The lights follow the bands, whatever the state.
    ensures r.out.lights == Indicator(t)
    // An SMS goes out exactly when the alarm is raised and none is pending.
    ensures r.out.smsSent <==> Hot(t) && !st.messageSent
    // `lastSMS` moves only on a hot pass once the cooldown has run out, and then to the refresh sample.
    ensures r.next.lastSMS ==
              if Hot(t) && Elapsed(s.smsElapsed, st.lastSMS) >= SmsCooldown then s.smsRefresh else st.lastSMS
    // `messageSent` survives the pass exactly when it was set after the send step and the cooldown still runs.
    ensures r.next.messageSent <==>
              (st.messageSent || Hot(t)) && Elapsed(s.cooldownCheck, r.next.lastSMS) < SmsCooldown
    // Below the threshold the buzzer is driven low and its square wave is frozen.
    ensures !Hot(t) ==> r.out.buzzer == Drive(false)
                        && r.next.buzzerState == st.buzzerState && r.next.lastToggle == st.lastToggle
    // At or above it, the wave flips exactly when half a period has passed.
    ensures Hot(t) ==>
              var flip := Elapsed(s.toggleCheck, st.lastToggle) >= ToggleInterval;
              (r.next.buzzerState <==> (st.buzzerState != flip))
              && r.next.lastToggle == (if flip then s.toggleSet else st.lastToggle)
              && r.out.buzzer == (if flip then Drive(r.next.buzzerState) else Unchanged)
  {
    var flip := Hot(t) && Elapsed(s.toggleCheck, st.lastToggle) >= ToggleInterval;
    var buzzer := if !Hot(t) then Drive(false) else if flip then Drive(!st.buzzerState) else Unchanged;
    var lastSMS := RefreshedLastSms(st, t, s);
    var pending := SentAfterSendStep(st, t) && Elapsed(s.cooldownCheck, lastSMS) < SmsCooldown;
    Transition(
      State(pending, lastSMS, if flip then s.toggleSet else st.lastToggle, st.buzzerState != flip),
      Output(Indicator(t), Hot(t) && !st.messageSent, buzzer))
  }

  /** One reading of the probe together with the pass's clock samples. */
  datatype Input = Input(temp: real, clock: Samples)

  /** The final globals and the outputs of a sequence of passes. */
  datatype Trace = Trace(final: State, outs: seq<Output>)

  function Run(st: State, ins: seq<Input>): (r: Trace)
    ensures |r.outs| == |ins|
    ensures forall i :: 0 <= i < |ins| ==> r.outs[i].lights == Indicator(ins[i].temp)
    decreases |ins|
  {
    if ins == [] then Trace(st, [])
    else
      var tr := Step(st, ins[0].temp, ins[0].clock);
      var rest := Run(tr.next, ins[1..]);
      Trace(rest.final, [tr.out] + rest.outs)
  }

  /** The number of SMS messages among `outs`. */
  function SmsCount(outs: seq<Output>): (n: nat)
    ensures n <= |outs|
    ensures n == 0 <==> forall i :: 0 <= i < |outs| ==> !outs[i].smsSent
  {
    if outs == [] then 0 else (if outs[0].smsSent then 1 else 0) + SmsCount(outs[1..])
  }

  /** Every pass is hot and takes its clock from a single sample. */
  predicate HotSpell(ins: seq<Input>) {
    forall i :: 0 <= i < |ins| ==> Hot(ins[i].temp) && IsUniform(ins[i].clock)
  }

  /** With one time sample per pass, a hot pass leaves `messageSent` set. The
      refresh of `lastSMS` comes before the final cooldown test, so that test
      sees either a fresh `lastSMS` or the same not-yet-expired elapsed time
      that kept `lastSMS` from being refreshed. */
  lemma HotPassLeavesPending(st: State, t: real, s: Samples)
    requires Hot(t) && IsUniform(s)
    ensures Step(st, t, s).next.messageSent
  {
  }

  /** Once `messageSent` is set, a spell of hot passes with one time sample each
      sends no SMS at all and leaves `messageSent` set. */
  lemma {:induction false} NoResendWhileHot(st: State, ins: seq<Input>)
    requires st.messageSent && HotSpell(ins)
    ensures SmsCount(Run(st, ins).outs) == 0 && Run(st, ins).final.messageSent
    decreases |ins|
  {
    if ins != [] {
      var tr := Step(st, ins[0].temp, ins[0].clock);
      HotPassLeavesPending(st, ins[0].temp, ins[0].clock);
      NoResendWhileHot(tr.next, ins[1..]);
    }
  }

  /** A hot spell with one time sample per pass sends exactly one SMS, on its
      first pass, when it starts with no SMS pending, and none otherwise. */
  lemma {:induction false} OneSmsPerHotSpell(st: State, ins: seq<Input>)
    requires HotSpell(ins)
    ensures SmsCount(Run(st, ins).outs) == if ins != [] && !st.messageSent then 1 else 0
    ensures ins != [] && !st.messageSent ==> Run(st, ins).outs[0].smsSent
  {
    if ins != [] {
      var tr := Step(st, ins[0].temp, ins[0].clock);
      HotPassLeavesPending(st, ins[0].temp, ins[0].clock);
      NoResendWhileHot(tr.next, ins[1..]);
      assert Run(st, ins).outs == [tr.out] + Run(tr.next, ins[1..]).outs;
      assert Run(st, ins).outs[1..] == Run(tr.next, ins[1..]).outs;
    }
  }
}
