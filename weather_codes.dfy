/** The Open-Meteo weather codes the server and the client translate into a
    short description. Both keep a copy of the same 28-entry table and read
    it with `weatherCodes[code] || 'Unknown'`. */
module WeatherCodes {
  import opened Common

  /** The codes the table lists. */
  const KnownCodes: set<int> :=
    {0, 1, 2, 3, 45, 48, 51, 53, 55, 56, 57, 61, 63, 65, 66, 67,
     71, 73, 75, 77, 80, 81, 82, 85, 86, 95, 96, 99}

  /** `weatherCodes[code]`: the entry of the object literal, if it has one. */
  function Entry(code: int): Option<string> {
    match code
    case 0 => Some("Clear")
    case 1 => Some("Mainly Clear")
    case 2 => Some("Partly Cloudy")
    case 3 => Some("Overcast")
    case 45 => Some("Foggy")
    case 48 => Some("Depositing Rime Fog")
    case 51 => Some("Light Drizzle")
    case 53 => Some("Moderate Drizzle")
    case 55 => Some("Dense Drizzle")
    case 56 => Some("Light Freezing Drizzle")
    case 57 => Some("Dense Freezing Drizzle")
    case 61 => Some("Slight Rain")
    case 63 => Some("Moderate Rain")
    case 65 => Some("Heavy Rain")
    case 66 => Some("Light Freezing Rain")
    case 67 => Some("Heavy Freezing Rain")
    case 71 => Some("Slight Snow")
    case 73 => Some("Moderate Snow")
    case 75 => Some("Heavy Snow")
    case 77 => Some("Snow Grains")
    case 80 => Some("Slight Rain Showers")
    case 81 => Some("Moderate Rain Showers")
    case 82 => Some("Violent Rain Showers")
    case 85 => Some("Slight Snow Showers")
    case 86 => Some("Heavy Snow Showers")
    case 95 => Some("Thunderstorm")
    case 96 => Some("Thunderstorm with Hail")
    case 99 => Some("Thunderstorm with Heavy Hail")
    case _ => None
  }

  /** `getWeatherCondition(code)`: the entry when there is a truthy one,
      otherwise "Unknown". A missing code (`null` or `undefined` in the
      upstream payload) is `None`. */
  function Condition(code: Option<int>): (r: string)
    ensures code.Some? && code.value in KnownCodes ==> Entry(code.value) == Some(r)
    ensures code.None? || code.value !in KnownCodes ==> r == "Unknown"
  {
    if code.Some? && Entry(code.value).Some? && Entry(code.value).value != "" then
      Entry(code.value).value
    else
      "Unknown"
  }

  /** A code reads as "Unknown" exactly when it is missing or the table does
      not list it: every listed description is truthy, so `|| 'Unknown'`
      never replaces one. */
  lemma ConditionUnknown(code: Option<int>)
    ensures Condition(code) == "Unknown" <==> code.None? || code.value !in KnownCodes
  {
  }
}
