/** What the cooldown of the loop does not guarantee: two concrete runs. */
module Cooldown {
  import opened Clock
  import opened Policy

  /** Even with one time sample per pass, two SMS messages can go out 2000 ms
      apart: the first is sent at 299000 ms without refreshing `lastSMS`
      (only 299000 ms have passed since 0), a cool pass at 300000 ms finds the
      cooldown expired and clears `messageSent`, and the next hot pass sends again. */
  lemma SmsSpacingCanBeShort()
    ensures var outs := Run(Initial, [Input(65.0, Uniform(299000)),
                                      Input(40.0, Uniform(300000)),
                                      Input(65.0, Uniform(301000))]).outs;
            outs[0].smsSent && !outs[1].smsSent && outs[2].smsSent
  {
  }

  /** With the samples taken where the loop takes them, the single-sample
      guarantee of `NoResendWhileHot` fails: the delays inside the SMS send
      (3750 ms) lie between the elapsed-time sample and the final cooldown test,
      so an SMS sent 298000 ms after `lastSMS` clears `messageSent` in the same
      pass, and the next hot pass, one second later, sends a second one. */
  lemma SeparateSamplesCanResendWhileHot()
    ensures var outs := Run(Initial, [Input(65.0, Samples(297900, 297900, 298000, 298000, 301750)),
                                      Input(65.0, Samples(302750, 302750, 302750, 302750, 302750))]).outs;
            outs[0].smsSent && outs[1].smsSent
  {
  }

  /** The cooldown is measured across a wrap of the millisecond counter: an SMS
      pending since 1000 ms before the wrap is still pending 1000 ms after it,
      and `lastSMS` is not refreshed. */
  lemma CooldownSpansCounterWrap()
    ensures var st := State(true, 0xFFFF_FC18, 0xFFFF_FC18, false);
            var r := Step(st, 65.0, Uniform(1000));
            r.next.messageSent && r.next.lastSMS == st.lastSMS && !r.out.smsSent
  {
  }
}
