/** The greeting of the home screen (`Home`): fixed before the mount effect, then chosen by the hour. */
module Home {
  import opened Wrappers

  const BEFORE_EFFECT := "Bem-vindo"
  const MORNING := "Bom dia"
  const AFTERNOON := "Boa tarde"
  const EVENING := "Boa noite"

  /** `hour` is `None` until the effect has read the clock, then `new Date().getHours()`. */
  function Greeting(hour: Option<int>): (r: string)
    ensures hour.None? <==> r == BEFORE_EFFECT
    ensures r == MORNING <==> hour.Some? && hour.value < 12
    ensures r == AFTERNOON <==> hour.Some? && 12 <= hour.value < 18
    ensures r == EVENING <==> hour.Some? && hour.value >= 18
  {
    if hour.None? then BEFORE_EFFECT
    else if hour.value < 12 then MORNING
    else if hour.value < 18 then AFTERNOON
    else EVENING
  }

  /** Every hour of the day gets one of the three greetings, and the value set before the effect never shows after it. */
  lemma EveryHourGreeted(h: int)
    requires 0 <= h < 24
    ensures Greeting(Some(h)) in {MORNING, AFTERNOON, EVENING}
    ensures Greeting(Some(h)) != BEFORE_EFFECT
  {
  }

  /** The greeting changes only at 12 and at 18. */
  lemma GreetingChangesAtNoonAndSix(h: int)
    requires 0 <= h < 23
    ensures Greeting(Some(h)) != Greeting(Some(h + 1)) <==> h == 11 || h == 17
  {
  }
}
