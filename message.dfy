/** The text of the alert SMS. The temperature's decimal rendering is given as
    `tempText`; converting a float to text is not part of this model. */
module Message {

  const Prefix: string := "WARNING: High temperature detected ("
  const Suffix: string := " C) "

  /** The body sent to the configured number for a temperature rendered as `tempText`. */
  function SmsBody(tempText: string): (body: string)
    ensures |body| == |Prefix| + |tempText| + |Suffix|
    ensures body[..|Prefix|] == Prefix && body[|body| - |Suffix|..] == Suffix
  {
    Prefix + tempText + Suffix
  }

  /** The temperature's text stands between the fixed prefix and suffix. */
  function TempTextOf(body: string): (text: string)
    requires |body| >= |Prefix| + |Suffix|
    ensures |text| == |body| - |Prefix| - |Suffix|
  {
    body[|Prefix|..|body| - |Suffix|]
  }

  /** The temperature text can be read back from the body, so different
      temperature texts give different messages. */
  lemma TempTextRoundTrip(tempText: string)
    ensures TempTextOf(SmsBody(tempText)) == tempText
  {
  }
}
