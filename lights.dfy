/** The three indicator lights of the monitor and the temperature bands that select them. */
module Lights {

  /** The levels written to the red, yellow and green pins on one pass of the loop. */
  datatype Lights = Lights(red: bool, yellow: bool, green: bool)

  /** Lower edge of the yellow band (inclusive). */
  const YellowFrom: real := 50.0
  /** Upper edge of the yellow band (inclusive); anything above is red. */
  const YellowTo: real := 70.0

  /** Exactly one of the three lights is on. */
  predicate ExactlyOne(l: Lights) {
    (if l.red then 1 else 0) + (if l.yellow then 1 else 0) + (if l.green then 1 else 0) == 1
  }

  /** The light pattern for temperature `t`: the if-chain of the loop. The third
      test (`t > 70`) always holds once the first two have failed, so for a real
      temperature every pass writes one of the three patterns. */
  function Indicator(t: real): (l: Lights)
    ensures l.green <==> t < YellowFrom
    ensures l.yellow <==> YellowFrom <= t <= YellowTo
    ensures l.red <==> t > YellowTo
    ensures ExactlyOne(l)
  {
    if t < YellowFrom then Lights(false, false, true)
    else if YellowFrom <= t <= YellowTo then Lights(false, true, false)
    else assert t > YellowTo; Lights(true, false, false)
  }
}
