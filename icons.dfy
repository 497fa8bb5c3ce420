/**
 * The icon table of the weather page (js/app.js, `getWeatherIconUrl`): nine
 * provider icon codes with their own picture, and a `default` entry every
 * other code falls back to.
 */
module Icons {

  const DefaultIconUrl: string := "https://cdn-icons-png.flaticon.com/512/1779/1779940.png"

  /** The icon codes the table names, `default` excluded. */
  const KnownIconCodes: set<string> := {
    "clear-day", "clear-night", "partly-cloudy-day", "partly-cloudy-night",
    "cloudy", "rain", "snow", "wind", "fog"
  }

  /** The table as the page writes it, `default` included. */
  const IconTable: map<string, string> := map[
    "clear-day" := "https://cdn-icons-png.flaticon.com/512/6974/6974833.png",
    "clear-night" := "https://cdn-icons-png.flaticon.com/512/3222/3222800.png",
    "partly-cloudy-day" := "https://cdn-icons-png.flaticon.com/512/1146/1146869.png",
    "partly-cloudy-night" := "https://cdn-icons-png.flaticon.com/512/3313/3313998.png",
    "cloudy" := "https://cdn-icons-png.flaticon.com/512/414/414927.png",
    "rain" := "https://cdn-icons-png.flaticon.com/512/3767/3767039.png",
    "snow" := "https://cdn-icons-png.flaticon.com/512/642/642000.png",
    "wind" := "https://cdn-icons-png.flaticon.com/512/2011/2011448.png",
    "fog" := "https://cdn-icons-png.flaticon.com/512/4005/4005901.png",
    "default" := DefaultIconUrl
  ]

  /**
   * The picture for a provider icon code. Every table entry is a non-empty
   * URL, so the page's `||` fallback is taken exactly when the code is not
   * a key of the table.
   */
  function WeatherIconUrl(iconCode: string): (url: string)
    ensures url in IconTable.Values
    ensures iconCode in KnownIconCodes ==> url == IconTable[iconCode]
    ensures iconCode !in KnownIconCodes ==> url == DefaultIconUrl
  {
    var found := if iconCode in IconTable then IconTable[iconCode] else "";
    if found != "" then found else IconTable["default"]
  }

  /** The table's keys are exactly the nine named codes and `default`. */
  lemma TableKeys()
    ensures IconTable.Keys == KnownIconCodes + {"default"}
  {
  }

  /** Each named code has its own picture, and none of them is the fallback picture. */
  lemma KnownIconsDistinct(a: string, b: string)
    requires a in KnownIconCodes && b in KnownIconCodes && a != b
    ensures WeatherIconUrl(a) != WeatherIconUrl(b)
    ensures WeatherIconUrl(a) != DefaultIconUrl
  {
  }

  /** The fallback picture is shown exactly for the codes the table does not name. */
  lemma DefaultExactlyForUnknown(iconCode: string)
    ensures WeatherIconUrl(iconCode) == DefaultIconUrl <==> iconCode !in KnownIconCodes
  {
    if iconCode in KnownIconCodes {
      KnownIconsDistinct(iconCode, if iconCode == "fog" then "rain" else "fog");
    }
  }
}
