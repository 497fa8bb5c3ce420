/**
 * The hourly strip of the weather page (js/app.js, `displayHourlyForecast`):
 * a window of at most 24 entries of the provider's hourly series, from 12
 * hours before the current hour, clamped at both ends of the series. The
 * current hour is a parameter (the page reads it from the clock).
 */
module Hourly {
  import opened Temperature
  import opened Icons

  /** One entry of the provider's hourly series, as far as the strip reads it. */
  datatype HourData = HourData(temp: real, icon: string, conditions: string)

  /** One rendered entry: picture, its alternative text, and the temperature with its label. */
  datatype HourlyItem = HourlyItem(iconUrl: string, alt: string, temperature: int, symbol: string)

  /** The index range `[start, end)` the loop walks; empty when `end <= start`. */
  datatype Window = Window(start: nat, end: nat)

  function Max(a: int, b: int): int { if a < b then b else a }

  function Min(a: int, b: int): int { if a < b then a else b }

  /**
   * The window for a series of `count` entries at `currentHour`. It never
   * leaves the series and never spans more than 24 entries. It starts 12
   * entries before the current hour, or at 0 before noon; it contains an
   * hour inside the series; and it runs 24 entries, or to the end of the
   * series when that comes first.
   */
  function HourlyWindow(currentHour: int, count: nat): (w: Window)
    ensures w.end <= count
    ensures w.end - w.start <= 24
    ensures currentHour < 12 ==> w.start == 0
    ensures 12 <= currentHour ==> w.start == currentHour - 12
    ensures count < w.start + 24 ==> w.end == count
    ensures 0 <= currentHour < count ==> w.start <= currentHour < w.end && currentHour - w.start <= 12
    ensures w.start + 24 <= count ==> w.end - w.start == 24
  {
    var start := Max(currentHour - 12, 0);
    Window(start, Min(start + 24, count))
  }

  /** How many entries the loop visits. */
  function Size(w: Window): nat
  {
    if w.start < w.end then w.end - w.start else 0
  }

  /** One entry as the strip renders it. */
  function HourlyItemOf(hour: HourData): HourlyItem
  {
    HourlyItem(WeatherIconUrl(hour.icon), hour.conditions, Round(hour.temp), CelsiusSymbol)
  }

  /**
   * An entry shows the table's picture for its icon code, its conditions
   * as alternative text, and its Celsius temperature rounded and labelled
   * in Celsius. Nothing here depends on the selected unit.
   */
  lemma HourlyItemShows(hour: HourData)
    ensures HourlyItemOf(hour).symbol == CelsiusSymbol
    ensures HourlyItemOf(hour).temperature as real - 0.5 <= hour.temp < HourlyItemOf(hour).temperature as real + 0.5
    ensures HourlyItemOf(hour).iconUrl == WeatherIconUrl(hour.icon) && HourlyItemOf(hour).alt == hour.conditions
  {
  }

  /**
   * The strip for `hours` at `currentHour`: at most 24 items, one for each
   * index of the window, and nothing when the window starts past the end
   * of the series.
   */
  function HourlyForecast(hours: seq<HourData>, currentHour: int): (items: seq<HourlyItem>)
    ensures |items| <= 24 && |items| <= |hours|
    ensures |items| == Size(HourlyWindow(currentHour, |hours|))
    ensures HourlyWindow(currentHour, |hours|).start >= |hours| ==> items == []
  {
    var w := HourlyWindow(currentHour, |hours|);
    seq(Size(w), k requires 0 <= k < Size(w) => HourlyItemOf(hours[w.start + k]))
  }

  /**
   * Item `k` of the strip is rendered from series entry `start + k`, which
   * lies inside the window and inside the series: the strip follows the
   * series in increasing index order.
   */
  lemma HourlyForecastAt(hours: seq<HourData>, currentHour: int, k: nat)
    requires k < |HourlyForecast(hours, currentHour)|
    ensures var w := HourlyWindow(currentHour, |hours|);
      w.start <= w.start + k < w.end <= |hours|
      && HourlyForecast(hours, currentHour)[k] == HourlyItemOf(hours[w.start + k])
  {
  }

  /**
   * The loop of the page: visits indices `start, start + 1, …, end - 1` in
   * order and appends one rendered item for each.
   */
  method DisplayHourlyForecast(hours: seq<HourData>, currentHour: int) returns (items: seq<HourlyItem>)
    ensures items == HourlyForecast(hours, currentHour)
  {
    var w := HourlyWindow(currentHour, |hours|);
    ghost var strip := HourlyForecast(hours, currentHour);
    items := [];
    var i := w.start;
    while i < w.end
      invariant w.start <= i <= Max(w.start, w.end)
      invariant |items| == i - w.start
      invariant items == strip[..i - w.start]
    {
      items := items + [HourlyItemOf(hours[i])];
      i := i + 1;
    }
    assert items == strip[..|strip|];
  }

  /**
   * A full window around an hour from noon on holds the 12 entries before
   * the current hour, the current hour itself, and the 11 entries after it.
   */
  lemma FullWindowAroundHour(currentHour: int, count: nat)
    requires 12 <= currentHour && currentHour + 12 <= count
    ensures var w := HourlyWindow(currentHour, count);
      currentHour - w.start == 12 && w.end - 1 - currentHour == 11
  {
  }

  /** At 23:00 with a 24-entry series the strip shows entries 11 to 23: thirteen items. */
  lemma LateEveningWindow(hours: seq<HourData>)
    requires |hours| == 24
    ensures HourlyWindow(23, 24) == Window(11, 24)
    ensures |HourlyForecast(hours, 23)| == 13
    ensures HourlyForecast(hours, 23)[0] == HourlyItemOf(hours[11])
  {
  }

  /** With a series of at most `currentHour - 12` entries the window starts past its end: the strip is empty. */
  lemma ShortSeriesLateHour(hours: seq<HourData>, currentHour: int)
    requires 12 + |hours| <= currentHour
    ensures HourlyForecast(hours, currentHour) == []
  {
  }
}
