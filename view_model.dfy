/**
 * The pure view-model mapping of the weather component: the icon-code table
 * with its fallback, the once-a-day forecast sampler, the date split and the
 * mapping of provider readings to the records the component displays.
 */
module ViewModel {
  import opened Wrappers

  /** The bundled icon assets that the icon-code table refers to. */
  datatype Icon = Clear | Cloud | Drizzle | Rain | Snow

  /** The fourteen provider icon codes the component knows. */
  const IconTable: map<string, Icon> := map[
    "01d" := Clear, "01n" := Clear,
    "02d" := Cloud, "02n" := Cloud, "03n" := Cloud, "03d" := Cloud,
    "04d" := Drizzle, "04n" := Drizzle,
    "09d" := Rain, "09n" := Rain, "10d" := Rain, "10n" := Rain,
    "13d" := Snow, "13n" := Snow
  ]

  /** The icon for a provider code; a code missing from the table gets the clear icon. */
  function IconFor(code: string): Icon
  {
    if code in IconTable then IconTable[code] else Clear
  }

  /** Each icon is chosen for exactly the codes listed here (Clear also for every unknown code). */
  lemma IconPreimages(code: string)
    ensures IconFor(code) == Cloud <==> code in {"02d", "02n", "03d", "03n"}
    ensures IconFor(code) == Drizzle <==> code in {"04d", "04n"}
    ensures IconFor(code) == Rain <==> code in {"09d", "09n", "10d", "10n"}
    ensures IconFor(code) == Snow <==> code in {"13d", "13n"}
    ensures IconFor(code) == Clear <==> code in {"01d", "01n"} || code !in IconTable
  {
  }

  /** Codes the table does not list, such as thunderstorm and mist, fall back to the clear icon. */
  lemma UnlistedCodesAreClear()
    ensures IconFor("11d") == Clear && IconFor("11n") == Clear
    ensures IconFor("50d") == Clear && IconFor("50n") == Clear
  {
  }

  /** The table treats the day and the night variant of every code alike. */
  lemma {:induction false} DayAndNightAgree(prefix: string)
    ensures IconFor(prefix + "d") == IconFor(prefix + "n")
  {
    var day, night := prefix + "d", prefix + "n";
    if |prefix| == 2 {
      assert day[..2] == prefix && night[..2] == prefix;
      assert day == [prefix[0], prefix[1], 'd'];
      assert night == [prefix[0], prefix[1], 'n'];
    } else {
      assert |day| != 3 && |night| != 3;
    }
  }

  /**
   * The elements of `s` whose index is divisible by 8, in their original
   * order: the forecast list's `filter((item, index) => index % 8 === 0)`.
   */
  function EveryEighth<T>(s: seq<T>): (r: seq<T>)
    ensures |r| == (|s| + 7) / 8
    ensures forall k :: 0 <= k < |r| ==> r[k] == s[8 * k]
  {
    if s == [] then []
    else
      var last := |s| - 1;
      EveryEighth(s[..last]) + (if last % 8 == 0 then [s[last]] else [])
  }

  /** An element is kept exactly when its index is divisible by 8. */
  lemma EveryEighthKeeps<T>(s: seq<T>, i: int)
    requires 0 <= i < |s|
    ensures i % 8 == 0 <==> exists k :: 0 <= k < |EveryEighth(s)| && 8 * k == i
    ensures i % 8 == 0 ==> EveryEighth(s)[i / 8] == s[i]
  {
    if i % 8 == 0 {
      assert 8 * (i / 8) == i;
    }
  }

  /** Forty three-hour slots, five days' worth, give one entry per day. */
  lemma FortySlotsGiveFiveDays<T>(s: seq<T>)
    requires |s| == 40
    ensures EveryEighth(s) == [s[0], s[8], s[16], s[24], s[32]]
  {
    var r := EveryEighth(s);
    assert r[0] == s[0] && r[1] == s[8] && r[2] == s[16] && r[3] == s[24] && r[4] == s[32];
  }

  /**
   * The part of a timestamp before its first space, or all of it when it has
   * none: `dt_txt.split(' ')[0]`.
   */
  function DatePart(timestamp: string): (date: string)
    ensures date <= timestamp
    ensures ' ' !in date
    ensures |date| < |timestamp| ==> timestamp[|date|] == ' '
  {
    if timestamp == [] || timestamp[0] == ' ' then []
    else [timestamp[0]] + DatePart(timestamp[1..])
  }

  /** A provider timestamp "YYYY-MM-DD hh:mm:ss" yields its calendar date. */
  lemma {:induction false} DatePartOfTimestamp(date: string, time: string)
    requires ' ' !in date
    ensures DatePart(date + " " + time) == date
  {
    var t := date + " " + time;
    var d := DatePart(t);
    assert t[|date|] == ' ' && t[..|date|] == date;
  }

  /** `n` is the floor of `x`, what `Math.floor` yields. */
  ghost predicate IsFloor(n: int, x: real) {
    n as real <= x < n as real + 1.0
  }

  /** The fields of the current-weather body the component reads. */
  datatype CurrentReading = CurrentReading(
    humidity: int, windSpeed: real, temp: real, tempMin: real, tempMax: real,
    name: string, iconCode: string, description: string)

  /** The current-weather record the component keeps in `weatherData`. */
  datatype CurrentWeather = CurrentWeather(
    humidity: int, windSpeed: real, temperature: int, location: string,
    icon: Icon, description: string, minTemp: int, maxTemp: int)

  /** The fields of one forecast list item the component reads. */
  datatype ForecastEntry = ForecastEntry(dtTxt: string, temp: real, description: string, iconCode: string)

  /** One displayed forecast day, an element of `forecastData`. */
  datatype ForecastDay = ForecastDay(date: string, avgTemp: int, description: string, icon: Icon)

  /** The current-weather record: temperatures floored, the rest passed through, the icon looked up. */
  function ToCurrentWeather(r: CurrentReading): (w: CurrentWeather)
    ensures IsFloor(w.temperature, r.temp) && IsFloor(w.minTemp, r.tempMin) && IsFloor(w.maxTemp, r.tempMax)
    ensures w.humidity == r.humidity && w.windSpeed == r.windSpeed
    ensures w.location == r.name && w.description == r.description
    ensures w.icon == IconFor(r.iconCode)
  {
    CurrentWeather(r.humidity, r.windSpeed, r.temp.Floor, r.name, IconFor(r.iconCode),
                   r.description, r.tempMin.Floor, r.tempMax.Floor)
  }

  /** A displayed forecast day: the date part of the timestamp, the floored temperature, the looked-up icon. */
  function ToForecastDay(e: ForecastEntry): (d: ForecastDay)
    ensures ' ' !in d.date && d.date <= e.dtTxt
    ensures |d.date| < |e.dtTxt| ==> e.dtTxt[|d.date|] == ' '
    ensures IsFloor(d.avgTemp, e.temp)
    ensures d.description == e.description && d.icon == IconFor(e.iconCode)
  {
    ForecastDay(DatePart(e.dtTxt), e.temp.Floor, e.description, IconFor(e.iconCode))
  }

  /**
   * The forecast list sampled once a day and mapped to display records. A
   * `None` item stands for one that is null or lacks `dt_txt`, `main` or
   * `weather[0]`: mapping a sampled one throws, so the whole result is
   * `None`; items that are not sampled are never read.
   */
  function SampleForecast(items: seq<Option<ForecastEntry>>): (r: Option<seq<ForecastDay>>)
    ensures r.Some? <==> forall i :: 0 <= i < |items| && i % 8 == 0 ==> items[i].Some?
    ensures r.Some? ==> |r.value| == (|items| + 7) / 8
    ensures r.Some? ==> forall k :: 0 <= k < |r.value| ==> items[8 * k].Some? && r.value[k] == ToForecastDay(items[8 * k].value)
  {
    var sampled := EveryEighth(items);
    if forall k :: 0 <= k < |sampled| ==> sampled[k].Some? then
      assert forall i :: 0 <= i < |items| && i % 8 == 0 ==> items[i].Some? by {
        forall i | 0 <= i < |items| && i % 8 == 0 ensures items[i].Some? {
          EveryEighthKeeps(items, i);
        }
      }
      Some(seq(|sampled|, k requires 0 <= k < |sampled| => ToForecastDay(sampled[k].value)))
    else
      None
  }

  /** The forecast body's `list`: `None` when it is missing, which makes `.filter` throw. */
  function ForecastDays(list: Option<seq<Option<ForecastEntry>>>): (r: Option<seq<ForecastDay>>)
    ensures list.None? ==> r.None?
    ensures list.Some? ==> r == SampleForecast(list.value)
  {
    match list
    case None => None
    case Some(items) => SampleForecast(items)
  }
}
