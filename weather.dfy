/** The component itself: its state as fields, `search`, `toggleUnit` and the unit-change effect as methods. */
module WeatherComponent {
  import opened Wrappers
  import opened ViewModel
  import opened SearchSpec

  class Weather {
    var weatherData: Option<CurrentWeather>
    var forecastData: seq<ForecastDay>
    var unit: string
    var loading: bool
    var error: string

    /** The fields as one value. */
    function View(): ViewState
      reads this
    {
      ViewState(weatherData, forecastData, unit, loading, error)
    }

    /** The unit is always one of the two the toggle produces. */
    ghost predicate Valid()
      reads this
    {
      unit == Metric || unit == Imperial
    }

    constructor ()
      ensures Valid() && View() == Initial
    {
      weatherData := None;
      forecastData := [];
      unit := Metric;
      loading := false;
      error := "";
    }

    /** `search(city)` run to completion against the given fetch outcome. */
    method Search(city: string, outcome: FetchOutcome)
      modifies this
      ensures View() == SearchResult(old(View()), city, outcome)
      ensures unit == old(unit)
    {
      if city == "" {
        return;
      }
      loading := true;
      error := "";
      match outcome {
        case Thrown =>
          error := TransportError;
        case Responses(current, forecast) =>
          if !current.ok || !forecast.ok {
            error := ProviderMessage(current.body.message);
          } else if current.body.reading.None? {
            error := TransportError;
          } else {
            weatherData := Some(ToCurrentWeather(current.body.reading.value));
            var days := ForecastDays(forecast.body.list);
            if days.None? {
              error := TransportError;
            } else {
              forecastData := days.value;
            }
          }
      }
      loading := false;
    }

    /** `toggleUnit()`: only the unit changes. */
    method ToggleUnit()
      requires Valid()
      modifies this
      ensures Valid()
      ensures unit == Toggled(old(unit)) && unit != old(unit)
      ensures View() == old(View()).(unit := Toggled(old(unit)))
    {
      unit := Toggled(unit);
    }

    /** The effect run on mount and after every unit change: search the input's city, or the default city. */
    method RunUnitEffect(input: Option<string>, outcome: FetchOutcome)
      requires Valid()
      modifies this
      ensures Valid()
      ensures View() == Settle(Begin(old(View())), outcome)
    {
      Search(RefetchCity(input), outcome);
    }
  }
}
