/**
 * Settings of the timer: the defaults, the ping cadence derived from the
 * ping value and unit (`_calc_ping_interval_seconds`), and the
 * normalisation `apply_settings` performs on what the user typed.
 */
module Settings {
  import opened Wrappers

  const DefaultSetMinutes: int := 30
  const DefaultPingValue: int := 5
  const DefaultPingUnit: string := "Minutes"
  const DefaultVolume: int := 50

  /** The ping units the settings form offers. */
  const Units: set<string> := {"Off", "Seconds", "Minutes"}

  function Max1(n: int): (r: int)
    ensures r >= 1 && r >= n
    ensures n >= 1 ==> r == n
    ensures n < 1 ==> r == 1
  {
    if n < 1 then 1 else n
  }

  /**
   * Seconds between awareness pings, or `None` when pings are off. A unit
   * other than "Seconds" or "Minutes" (including one read from a hand-edited
   * file) switches pings off; a value below 1 counts as 1.
   */
  function PingInterval(unit: string, value: int): (r: Option<int>)
    ensures r.Some? <==> unit == "Seconds" || unit == "Minutes"
    ensures r.Some? ==> r.value >= 1
    ensures unit == "Seconds" && value >= 1 ==> r == Some(value)
    ensures unit == "Minutes" && value >= 1 ==> r == Some(value * 60)
    ensures unit == "Seconds" && value < 1 ==> r == Some(1)
    ensures unit == "Minutes" && value < 1 ==> r == Some(60)
    ensures unit == "Minutes" ==> r.value % 60 == 0
  {
    if unit == "Off" then None
    else if unit == "Seconds" then Some(Max1(value))
    else if unit == "Minutes" then Some(Max1(value) * 60)
    else None
  }

  /** The same ping value in minutes pings sixty times less often than in seconds. */
  lemma MinutesAreSixtySeconds(value: int)
    ensures PingInterval("Minutes", value).value == 60 * PingInterval("Seconds", value).value
    ensures PingInterval("Off", value) == None
  {
  }

  /**
   * A number field of the settings form: `input` is the result of `int()`
   * on its text, `None` when that raises. A parsed number is raised to at
   * least 1; an unparsable one keeps the previous setting.
   */
  function ReadNumber(input: Option<int>, previous: int): (r: int)
    ensures input.None? ==> r == previous
    ensures input.Some? ==> r >= 1 && r >= input.value
    ensures input.Some? && input.value >= 1 ==> r == input.value
    ensures input.Some? && input.value < 1 ==> r == 1
  {
    match input
    case Some(n) => Max1(n)
    case None => previous
  }

  /** The ping unit chosen in the form; an empty or unknown choice becomes "Off". */
  function NormaliseUnit(choice: string): (r: string)
    ensures r in Units
    ensures choice in Units ==> r == choice
    ensures choice !in Units ==> r == "Off"
  {
    var chosen := if choice == "" then "Off" else choice;
    if chosen in Units then chosen else "Off"
  }
}
