/** The forecast reduction of `WeatherService` (src/app/services/weather.py).
    The HTTP fetch and the geocoder are not modelled: their outcome, the
    3-hourly sample list or `None`, is an input of every operation here. */
module WeatherService {
  import opened Wrappers
  import opened PyStrings

  /** One entry of the upstream "list": `dt_txt`, `main.temp`, `wind.speed`,
      `pop` and `main.humidity`, with real numbers for the JSON floats. */
  datatype Sample = Sample(dtTxt: string, temp: real, wind: real, pop: real, humidity: real)

  /** The two fixed verdict strings of `_get_weather_verdict`. */
  datatype Verdict = GoodForWalk | PoorForWalk

  /** The dict built by `_make_1day_forecast`. */
  datatype DayForecast = DayForecast(
    temperature: real, windSpeed: real, pop: real, humidity: int, date: string, verdict: Verdict)

  /** The exceptions the reduction can raise: `ValueError` for a day count
      outside 1..5 and `IndexError` for a `dt_txt` without a token. */
  datatype Failure = DaysOutOfRange | MissingTimeToken

  type ServiceResult = Result<Option<seq<DayForecast>>, Failure>

  const Midnight: string := "00:00:00"

  // ---------------------------------------------------------------- grouping

  /** A group `_make_1day_forecast` can reduce: non-empty, every `dt_txt`
      with at least one token. */
  predicate WellFormedGroup(g: seq<Sample>) {
    g != [] && forall k :: 0 <= k < |g| ==> Split(g[k].dtTxt) != []
  }

  /** The loop of `_extract_daily_3hourly_forecast` from position `i` on, with
      `day` the per-day accumulator and `acc` the list built so far. Each
      epoch's `dt_txt.split()[-1]` is evaluated first (raising `IndexError`
      when there is no token); only then is `day` tested. As written the
      branch appends the epoch itself; it is modelled as a one-sample group. */
  function ExtractFrom(hs: seq<Sample>, i: nat, day: seq<Sample>, acc: seq<seq<Sample>>)
    : (r: Result<seq<seq<Sample>>, Failure>)
    requires forall k :: 0 <= k < |acc| ==> WellFormedGroup(acc[k])
    ensures r.Success? ==> forall k :: 0 <= k < |r.value| ==> WellFormedGroup(r.value[k])
    ensures r.Failure? ==> r.error == MissingTimeToken
    decreases |hs| - i
  {
    if i >= |hs| then Success(acc)
    else
      var tokens := Split(hs[i].dtTxt);
      if tokens == [] then Failure(MissingTimeToken)
      else if tokens[|tokens| - 1] == Midnight && day != [] then
        ExtractFrom(hs, i + 1, day, acc + [[hs[i]]])
      else
        ExtractFrom(hs, i + 1, day, acc)
  }

  /** `_extract_daily_3hourly_forecast` as written: the day accumulator is
      created empty and never appended to. */
  function ExtractedGroups(hs: seq<Sample>): (r: Result<seq<seq<Sample>>, Failure>)
    ensures r.Success? ==> forall k :: 0 <= k < |r.value| ==> WellFormedGroup(r.value[k])
    ensures r.Failure? ==> r.error == MissingTimeToken
  {
    ExtractFrom(hs, 0, [], [])
  }

  /** The loop itself. */
  method ExtractDaily(hs: seq<Sample>) returns (r: Result<seq<seq<Sample>>, Failure>)
    ensures r == ExtractedGroups(hs)
  {
    var daily: seq<seq<Sample>> := [];
    var day: seq<Sample> := [];
    var i := 0;
    while i < |hs|
      invariant 0 <= i <= |hs|
      invariant forall k :: 0 <= k < |daily| ==> WellFormedGroup(daily[k])
      invariant ExtractFrom(hs, i, day, daily) == ExtractFrom(hs, 0, [], [])
    {
      var epoch := hs[i];
      var tokens := Split(epoch.dtTxt);
      if tokens == [] {
        return Failure(MissingTimeToken);
      }
      if tokens[|tokens| - 1] == Midnight && day != [] {
        daily := daily + [[epoch]];
      }
      i := i + 1;
    }
    return Success(daily);
  }

  /** The grouping defect: since the accumulator stays empty, the loop never
      appends, so the result is `[]` unless some `dt_txt` has no token. */
  lemma {:induction false} ExtractFromNeverAppends(hs: seq<Sample>, i: nat, acc: seq<seq<Sample>>)
    requires forall k :: 0 <= k < |acc| ==> WellFormedGroup(acc[k])
    ensures ExtractFrom(hs, i, [], acc)
         == if forall k :: i <= k < |hs| ==> Split(hs[k].dtTxt) != []
            then Success(acc) else Failure(MissingTimeToken)
    decreases |hs| - i
  {
    if i < |hs| {
      ExtractFromNeverAppends(hs, i + 1, acc);
    }
  }

  lemma ExtractedGroupsIsEmpty(hs: seq<Sample>)
    ensures ExtractedGroups(hs)
         == if forall k :: 0 <= k < |hs| ==> Split(hs[k].dtTxt) != []
            then Success([]) else Failure(MissingTimeToken)
  {
    ExtractFromNeverAppends(hs, 0, []);
  }

  // ------------------------------------------------------------ one day

  function Sum(xs: seq<real>): real {
    if xs == [] then 0.0 else Sum(xs[..|xs| - 1]) + xs[|xs| - 1]
  }

  /** `statistics.mean`, exact. */
  function Mean(xs: seq<real>): real
    requires xs != []
  {
    Sum(xs) / (|xs| as real)
  }

  /** `max` over a non-empty list: one of its elements, at least every other. */
  function Max(xs: seq<real>): (m: real)
    requires xs != []
    ensures exists k :: 0 <= k < |xs| && m == xs[k]
    ensures forall k :: 0 <= k < |xs| ==> xs[k] <= m
  {
    if |xs| == 1 then xs[0]
    else
      var m := Max(xs[1..]);
      assert forall k :: 1 <= k < |xs| ==> xs[k] == xs[1..][k - 1];
      if xs[0] >= m then xs[0] else m
  }

  function Min(xs: seq<real>): (m: real)
    requires xs != []
    ensures exists k :: 0 <= k < |xs| && m == xs[k]
    ensures forall k :: 0 <= k < |xs| ==> m <= xs[k]
  {
    if |xs| == 1 then xs[0]
    else
      var m := Min(xs[1..]);
      assert forall k :: 1 <= k < |xs| ==> xs[k] == xs[1..][k - 1];
      if xs[0] <= m then xs[0] else m
  }

  lemma {:induction false} SumBounds(xs: seq<real>, lo: real, hi: real)
    requires forall k :: 0 <= k < |xs| ==> lo <= xs[k] <= hi
    ensures (|xs| as real) * lo <= Sum(xs) <= (|xs| as real) * hi
  {
    if xs != [] {
      SumBounds(xs[..|xs| - 1], lo, hi);
    }
  }

  /** The unrounded mean lies between the smallest and the largest input. */
  lemma MeanWithinRange(xs: seq<real>)
    requires xs != []
    ensures Min(xs) <= Mean(xs) <= Max(xs)
  {
    SumBounds(xs, Min(xs), Max(xs));
    QuotientBounds(Sum(xs), |xs| as real, Min(xs), Max(xs));
  }

  lemma QuotientBounds(s: real, n: real, lo: real, hi: real)
    requires n > 0.0 && n * lo <= s <= n * hi
    ensures lo <= s / n <= hi
  {
    assert s / n - lo == (s - n * lo) / n;
    assert hi - s / n == (n * hi - s) / n;
  }

  /** Python's `round(x)`: nearest integer, ties to the even neighbour. */
  function RoundHalfEven(x: real): (r: int)
    ensures -0.5 <= r as real - x <= 0.5
    ensures x - x.Floor as real != 0.5 ==> -0.5 < r as real - x < 0.5
    ensures x - x.Floor as real == 0.5 ==> r % 2 == 0
  {
    var f := x.Floor;
    var d := x - f as real;
    if d < 0.5 then f
    else if d > 0.5 then f + 1
    else if f % 2 == 0 then f else f + 1
  }

  /** Python's `round(x, 1)` on the exact value. */
  function Round1(x: real): (r: real)
    ensures -0.05 <= r - x <= 0.05
  {
    RoundHalfEven(x * 10.0) as real / 10.0
  }

  function Temps(hs: seq<Sample>): (xs: seq<real>)
    ensures |xs| == |hs| && forall k :: 0 <= k < |hs| ==> xs[k] == hs[k].temp
  {
    seq(|hs|, k requires 0 <= k < |hs| => hs[k].temp)
  }

  function Winds(hs: seq<Sample>): (xs: seq<real>)
    ensures |xs| == |hs| && forall k :: 0 <= k < |hs| ==> xs[k] == hs[k].wind
  {
    seq(|hs|, k requires 0 <= k < |hs| => hs[k].wind)
  }

  function Pops(hs: seq<Sample>): (xs: seq<real>)
    ensures |xs| == |hs| && forall k :: 0 <= k < |hs| ==> xs[k] == hs[k].pop
  {
    seq(|hs|, k requires 0 <= k < |hs| => hs[k].pop)
  }

  function Humidities(hs: seq<Sample>): (xs: seq<real>)
    ensures |xs| == |hs| && forall k :: 0 <= k < |hs| ==> xs[k] == hs[k].humidity
  {
    seq(|hs|, k requires 0 <= k < |hs| => hs[k].humidity)
  }

  /** `_is_weather_good`: all three bounds inclusive; the precipitation bound
      is the literal 70. */
  predicate IsWeatherGood(temperature: real, windSpeed: real, pop: real) {
    0.0 <= temperature <= 35.0 && windSpeed <= 50.0 && pop <= 70.0
  }

  /** `_get_weather_verdict`. */
  function WeatherVerdict(temperature: real, windSpeed: real, pop: real): (v: Verdict)
    ensures v == GoodForWalk <==> IsWeatherGood(temperature, windSpeed, pop)
  {
    if IsWeatherGood(temperature, windSpeed, pop) then GoodForWalk else PoorForWalk
  }

  /** `_make_1day_forecast`. Its caller only hands it groups that passed the
      token check of the extraction loop. */
  function MakeDay(hs: seq<Sample>): (d: DayForecast)
    requires WellFormedGroup(hs)
    ensures -0.05 <= d.temperature - Mean(Temps(hs)) <= 0.05
    ensures -0.05 <= d.windSpeed - Mean(Winds(hs)) <= 0.05
    ensures -0.5 <= d.humidity as real - Mean(Humidities(hs)) <= 0.5
    ensures forall k :: 0 <= k < |hs| ==> hs[k].pop <= d.pop
    ensures exists k :: 0 <= k < |hs| && d.pop == hs[k].pop
    ensures d.date == Split(hs[0].dtTxt)[0]
    ensures d.verdict == GoodForWalk <==> IsWeatherGood(d.temperature, d.windSpeed, d.pop)
  {
    var temperature := Round1(Mean(Temps(hs)));
    var windSpeed := Round1(Mean(Winds(hs)));
    var pop := Max(Pops(hs));
    var humidity := RoundHalfEven(Mean(Humidities(hs)));
    DayForecast(temperature, windSpeed, pop, humidity, Split(hs[0].dtTxt)[0],
                WeatherVerdict(temperature, windSpeed, pop))
  }

  /** The mean temperature and wind before rounding lie within the range of the
      samples, so the rounded values lie within 0.05 of that range. */
  lemma MakeDayWithinSampleRange(hs: seq<Sample>)
    requires WellFormedGroup(hs)
    ensures Min(Temps(hs)) - 0.05 <= MakeDay(hs).temperature <= Max(Temps(hs)) + 0.05
    ensures Min(Winds(hs)) - 0.05 <= MakeDay(hs).windSpeed <= Max(Winds(hs)) + 0.05
    ensures Min(Humidities(hs)) - 0.5 <= MakeDay(hs).humidity as real <= Max(Humidities(hs)) + 0.5
  {
    MeanWithinRange(Temps(hs));
    MeanWithinRange(Winds(hs));
    MeanWithinRange(Humidities(hs));
  }

  /** For a sample whose `dt_txt` is "<date> <time>", the day's date is that
      date. */
  lemma MakeDayDate(hs: seq<Sample>, date: string, time: string)
    requires WellFormedGroup(hs)
    requires IsWord(date) && IsWord(time) && hs[0].dtTxt == date + " " + time
    ensures MakeDay(hs).date == date
  {
    DateTimeSplit(date, time);
  }

  /** With upstream probabilities in [0, 1], the literal threshold 70 never
      decides the verdict: it depends on temperature and wind only. */
  lemma PopThresholdNeverBinds(temperature: real, windSpeed: real, pop: real)
    requires 0.0 <= pop <= 1.0
    ensures IsWeatherGood(temperature, windSpeed, pop)
        <==> 0.0 <= temperature <= 35.0 && windSpeed <= 50.0
  {
  }

  // -------------------------------------------------------- whole forecast

  /** The loop of `_get_daily_5days_forecast` (lines 26-28): one summary per
      group, in order. */
  method SummarizeGroups(groups: seq<seq<Sample>>) returns (daily: seq<DayForecast>)
    requires forall k :: 0 <= k < |groups| ==> WellFormedGroup(groups[k])
    ensures |daily| == |groups|
    ensures forall k :: 0 <= k < |groups| ==> daily[k] == MakeDay(groups[k])
  {
    daily := [];
    for i := 0 to |groups|
      invariant |daily| == i
      invariant forall k :: 0 <= k < i ==> daily[k] == MakeDay(groups[k])
    {
      var day := MakeDay(groups[i]);
      assert (daily + [day])[i] == day;
      daily := daily + [day];
    }
  }

  /** What `_get_daily_5days_forecast` returns, given what the fetch returned:
      `None` for a missing or empty list, otherwise one summary per group. */
  function DailyForecast(fetched: Option<seq<Sample>>): (r: ServiceResult)
    ensures r.Success? && r.value.None? <==> fetched == None || fetched == Some([])
    ensures r.Failure? ==> r.error == MissingTimeToken
  {
    if fetched == None || fetched == Some([]) then Success(None)
    else
      match ExtractedGroups(fetched.value)
      case Failure(e) => Failure(e)
      case Success(groups) =>
        Success(Some(seq(|groups|, k requires 0 <= k < |groups| => MakeDay(groups[k]))))
  }

  /** `_get_daily_5days_forecast` itself. */
  method GetDailyForecast(fetched: Option<seq<Sample>>) returns (r: ServiceResult)
    ensures r == DailyForecast(fetched)
  {
    if fetched == None || fetched == Some([]) {
      return Success(None);
    }
    var groups := ExtractDaily(fetched.value);
    if groups.Failure? {
      return Failure(groups.error);
    }
    var daily := SummarizeGroups(groups.value);
    assert daily == seq(|groups.value|, k requires 0 <= k < |groups.value| => MakeDay(groups.value[k]));
    return Success(Some(daily));
  }

  /** `get_forecast_for`: the range check comes first, then the prefix of at
      most `days` summaries. */
  function ForecastFor(days: int, fetched: Option<seq<Sample>>): (r: ServiceResult)
    ensures r == Failure(DaysOutOfRange) <==> !(1 <= days <= 5)
    ensures 1 <= days <= 5 ==> (r.Success? && r.value.None? <==> DailyForecast(fetched) == Success(None))
    ensures (1 <= days <= 5 && DailyForecast(fetched).Success? && DailyForecast(fetched).value.Some?)
            ==> r.Success? && r.value.Some?
    ensures 1 <= days <= 5 && DailyForecast(fetched).Failure? ==> r == DailyForecast(fetched)
    ensures r.Success? && r.value.Some? ==>
              var all := DailyForecast(fetched);
              all.Success? && all.value.Some? && r.value.value <= all.value.value
              && |r.value.value| == if days < |all.value.value| then days else |all.value.value|
  {
    if !(1 <= days <= 5) then Failure(DaysOutOfRange)
    else
      match DailyForecast(fetched)
      case Failure(e) => Failure(e)
      case Success(None) => Success(None)
      case Success(Some(daily)) =>
        Success(Some(if days < |daily| then daily[..days] else daily))
  }

  /** The consequence of the grouping defect: for a valid day count and a
      non-empty sample list, the service returns an empty list (never `None`)
      unless some `dt_txt` has no token, in which case it raises. */
  lemma ForecastForAsWritten(days: int, hs: seq<Sample>)
    requires 1 <= days <= 5 && hs != []
    ensures ForecastFor(days, Some(hs))
         == if forall k :: 0 <= k < |hs| ==> Split(hs[k].dtTxt) != []
            then Success(Some([])) else Failure(MissingTimeToken)
  {
    ExtractedGroupsIsEmpty(hs);
  }
}
