/**
 * The page's session: the four variables its handlers share (js/app.js,
 * `currentTemperature`, `currentFeelsLike`, `currentUnit`,
 * `currentLocation`), and the handlers that change them: the unit buttons,
 * search, refresh, and the fetch that both of the latter start. The
 * network is an abstract outcome handed to the fetch; the clock's current
 * hour is a parameter.
 */
module Session {
  import opened Wrappers
  import opened Temperature
  import opened Icons
  import opened Text
  import opened Hourly

  /** The current-conditions part of the provider's response, in Celsius and km/h. */
  datatype CurrentConditions = CurrentConditions(
    temp: real, feelsLike: real, conditions: string, icon: string, windSpeed: real, precipProb: real)

  /** The decoded response body, as far as the page reads it. */
  datatype WeatherData = WeatherData(resolvedAddress: string, current: CurrentConditions, hours: seq<HourData>)

  /**
   * What one request comes back with: a response with its HTTP status and
   * decoded body, or a failure thrown by the transport with its message.
   */
  datatype FetchOutcome = Response(status: int, body: WeatherData) | TransportFailure(message: string)

  /** `response.ok`: a status in the 200 range. */
  predicate Succeeded(outcome: FetchOutcome)
  {
    outcome.Response? && 200 <= outcome.status <= 299
  }

  const NotAvailableMessage: string := "Weather data not available"

  /**
   * The text of the error panel for a failed request: the fixed message
   * for a response outside the 200 range, the thrown message otherwise.
   */
  function ErrorMessage(outcome: FetchOutcome): (msg: string)
    requires !Succeeded(outcome)
    ensures outcome.Response? ==> msg == NotAvailableMessage
    ensures outcome.TransportFailure? ==> msg == outcome.message
  {
    match outcome
    case Response(_, _) => NotAvailableMessage
    case TransportFailure(message) => message
  }

  /** Everything the weather region shows after a successful request, the date text aside. */
  datatype WeatherView = WeatherView(
    address: string, readout: TemperatureReadout, condition: string, iconUrl: string,
    windSpeed: real, precipProb: real, hourly: seq<HourlyItem>)

  /** What the weather region shows once a request has finished. */
  datatype Panel = ErrorPanel(message: string) | WeatherPanel(view: WeatherView)

  /**
   * The region after a request with `outcome` under `unit` at `currentHour`:
   * on success the provider's address, the read-out of the new values in
   * the selected unit, the current picture and the hourly strip; otherwise
   * the error message alone.
   */
  function PanelFor(outcome: FetchOutcome, unit: Unit, currentHour: int): (p: Panel)
    ensures p.ErrorPanel? <==> !Succeeded(outcome)
    ensures p.ErrorPanel? ==> p.message == ErrorMessage(outcome)
    ensures p.WeatherPanel? ==>
      var c := outcome.body.current;
      && p.view.address == outcome.body.resolvedAddress
      && p.view.readout == ReadoutFor(unit, c.temp, c.feelsLike)
      && p.view.condition == c.conditions
      && p.view.iconUrl == WeatherIconUrl(c.icon)
      && p.view.windSpeed == c.windSpeed
      && p.view.precipProb == c.precipProb
      && p.view.hourly == HourlyForecast(outcome.body.hours, currentHour)
  {
    if Succeeded(outcome) then
      var data := outcome.body;
      var c := data.current;
      WeatherPanel(WeatherView(
        data.resolvedAddress, ReadoutFor(unit, c.temp, c.feelsLike), c.conditions,
        WeatherIconUrl(c.icon), c.windSpeed, c.precipProb, HourlyForecast(data.hours, currentHour)))
    else
      ErrorPanel(ErrorMessage(outcome))
  }

  /** The hourly strip is the same whatever unit is selected. */
  lemma HourlyIgnoresUnit(outcome: FetchOutcome, u: Unit, v: Unit, currentHour: int)
    requires Succeeded(outcome)
    ensures PanelFor(outcome, u, currentHour).view.hourly == PanelFor(outcome, v, currentHour).view.hourly
  {
  }

  class WeatherSession {
    var currentTemperature: Option<real>
    var currentFeelsLike: Option<real>
    var currentUnit: Unit
    var currentLocation: string

    /** The two stored Celsius values are only ever set together. */
    ghost predicate Valid()
      reads this
    {
      currentTemperature.Some? <==> currentFeelsLike.Some?
    }

    /** The state when the page has loaded: nothing stored, Celsius selected, no location. */
    constructor ()
      ensures Valid()
      ensures currentTemperature == None && currentFeelsLike == None
      ensures currentUnit == Celsius && currentLocation == ""
    {
      currentTemperature := None;
      currentFeelsLike := None;
      currentUnit := Celsius;
      currentLocation := "";
    }

    /**
     * `updateTemperatureDisplay`: nothing while no temperature is stored;
     * otherwise the stored values converted to the selected unit, rounded,
     * with that unit's label.
     */
    function Shown(): (r: Option<TemperatureReadout>)
      reads this
      requires Valid()
      ensures r.None? <==> currentTemperature.None?
      ensures r.Some? ==> r.value.symbol == Symbol(currentUnit)
      ensures r.Some? ==> r.value == ReadoutFor(currentUnit, currentTemperature.value, currentFeelsLike.value)
    {
      if currentTemperature.None? then None
      else Some(ReadoutFor(currentUnit, currentTemperature.value, currentFeelsLike.value))
    }

    /**
     * A unit button: selects `unit` and shows the stored values in it. Only
     * the unit changes; the stored Celsius values are read, never written.
     */
    method SelectUnit(unit: Unit) returns (shown: Option<TemperatureReadout>)
      requires Valid()
      modifies this`currentUnit
      ensures Valid()
      ensures currentUnit == unit
      ensures shown == Shown()
    {
      currentUnit := unit;
      shown := Shown();
    }

    /**
     * `fetchWeatherData` and `displayWeatherData`. On a successful response
     * the location becomes the queried string (not the provider's address)
     * and both stored values are replaced; on any failure location and
     * stored values stay as they were. The unit is never changed.
     */
    method FetchWeatherData(location: string, outcome: FetchOutcome, currentHour: int) returns (panel: Panel)
      requires Valid()
      modifies this`currentLocation, this`currentTemperature, this`currentFeelsLike
      ensures Valid()
      ensures currentUnit == old(currentUnit)
      ensures panel == PanelFor(outcome, currentUnit, currentHour)
      ensures Succeeded(outcome) ==>
        && currentLocation == location
        && currentTemperature == Some(outcome.body.current.temp)
        && currentFeelsLike == Some(outcome.body.current.feelsLike)
        && Shown() == Some(panel.view.readout)
      ensures !Succeeded(outcome) ==>
        && currentLocation == old(currentLocation)
        && currentTemperature == old(currentTemperature)
        && currentFeelsLike == old(currentFeelsLike)
    {
      if !Succeeded(outcome) {
        panel := ErrorPanel(ErrorMessage(outcome));
        return;
      }
      var data := outcome.body;
      currentLocation := location;
      currentTemperature := Some(data.current.temp);
      currentFeelsLike := Some(data.current.feelsLike);
      var readout := Shown();
      var hourly := DisplayHourlyForecast(data.hours, currentHour);
      panel := WeatherPanel(WeatherView(
        data.resolvedAddress, readout.value, data.current.conditions,
        WeatherIconUrl(data.current.icon), data.current.windSpeed, data.current.precipProb, hourly));
    }

    /**
     * `handleSearch`: trims the typed text and fetches it only when
     * something is left; otherwise no request is made and nothing changes.
     */
    method Search(input: string, outcome: FetchOutcome, currentHour: int) returns (panel: Option<Panel>)
      requires Valid()
      modifies this`currentLocation, this`currentTemperature, this`currentFeelsLike
      ensures Valid()
      ensures panel.Some? <==> !AllWhitespace(input)
      ensures panel.None? ==> unchanged(this)
      ensures panel.Some? ==> panel.value == PanelFor(outcome, currentUnit, currentHour)
      ensures panel.Some? && Succeeded(outcome) ==>
        && currentLocation == Trim(input)
        && currentTemperature == Some(outcome.body.current.temp)
        && currentFeelsLike == Some(outcome.body.current.feelsLike)
      ensures !Succeeded(outcome) ==>
        && currentLocation == old(currentLocation)
        && currentTemperature == old(currentTemperature)
        && currentFeelsLike == old(currentFeelsLike)
    {
      var location := Trim(input);
      if location != "" {
        var p := FetchWeatherData(location, outcome, currentHour);
        panel := Some(p);
      } else {
        panel := None;
      }
    }

    /**
     * The refresh button: while no location has been fetched it does
     * nothing; otherwise it fetches the stored location string again, so
     * the location itself never changes.
     */
    method Refresh(outcome: FetchOutcome, currentHour: int) returns (panel: Option<Panel>)
      requires Valid()
      modifies this`currentLocation, this`currentTemperature, this`currentFeelsLike
      ensures Valid()
      ensures panel.Some? <==> old(currentLocation) != ""
      ensures panel.None? ==> unchanged(this)
      ensures currentLocation == old(currentLocation)
      ensures panel.Some? ==> panel.value == PanelFor(outcome, currentUnit, currentHour)
      ensures panel.Some? && Succeeded(outcome) ==>
        && currentTemperature == Some(outcome.body.current.temp)
        && currentFeelsLike == Some(outcome.body.current.feelsLike)
      ensures !Succeeded(outcome) ==>
        && currentTemperature == old(currentTemperature)
        && currentFeelsLike == old(currentFeelsLike)
    {
      if currentLocation != "" {
        var p := FetchWeatherData(currentLocation, outcome, currentHour);
        panel := Some(p);
      } else {
        panel := None;
      }
    }
  }

  /**
   * Clicking Fahrenheit, Kelvin and then Celsius shows the stored values
   * rounded, in Celsius: with Celsius selected before the first click, the
   * read-out is exactly the one shown then. The stored values are untouched
   * throughout.
   */
  method UnitCycle(s: WeatherSession) returns (shown: Option<TemperatureReadout>)
    requires s.Valid()
    modifies s`currentUnit
    ensures s.Valid() && s.currentUnit == Celsius
    ensures s.currentLocation == old(s.currentLocation)
    ensures s.currentTemperature == old(s.currentTemperature) && s.currentFeelsLike == old(s.currentFeelsLike)
    ensures s.currentTemperature.None? ==> shown == None
    ensures s.currentTemperature.Some? ==>
      shown == Some(TemperatureReadout(Round(s.currentTemperature.value), Round(s.currentFeelsLike.value), CelsiusSymbol))
    ensures old(s.currentUnit) == Celsius ==> shown == old(s.Shown())
  {
    shown := s.SelectUnit(Fahrenheit);
    shown := s.SelectUnit(Kelvin);
    shown := s.SelectUnit(Celsius);
  }
}
