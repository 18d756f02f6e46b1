/** The `days` validation and the 400 / 404 / forecast decision of
    `get_weather` (src/app/routes/api_routes.py). The `WeatherService` call is
    a parameter: `lookup(n)` stands for `get_forecast_for(city, n)`. */
module ApiRoutes {
  import opened Wrappers
  import opened PyStrings
  import opened WeatherService

  /** `request.args.get("days", 5)`: either the query string or, when the
      argument is absent, the int default 5. */
  datatype DaysArg = Absent | Given(text: string)

  /** The Flask responses: 400 and 404 with a reason, 200 with the forecast
      list, and 500 for an exception that escapes the view. */
  datatype Response = BadRequest | NotFound | Forecast(days: seq<DayForecast>) | InternalError

  /** CPython's default bound on the number of digits `int` converts from a
      string (leading zeros included); a longer string raises `ValueError`. */
  const MaxStrDigits := 4300

  /** A digit string that passes `days.isdigit()` but on which `int(days)`
      raises. */
  predicate TooManyDigits(s: string) {
    IsDigitString(s) && |s| > MaxStrDigits
  }

  /** `not days or not days.isdigit() or not (1 <= int(days) <= 5)`, negated,
      for a string `int` accepts. */
  predicate ValidDays(s: string) {
    s != [] && IsDigitString(s) && |s| <= MaxStrDigits && 1 <= DecimalValue(s) <= 5
  }

  /** `if not forecast: 404`, else the forecast itself; an exception raised by
      the service becomes a 500. */
  function Respond(r: ServiceResult): (resp: Response)
    ensures resp == NotFound <==> r == Success(None) || r == Success(Some([]))
    ensures resp == InternalError <==> r.Failure?
    ensures resp.Forecast? ==> resp.days != [] && r == Success(Some(resp.days))
    ensures resp != BadRequest
  {
    match r
    case Failure(_) => InternalError
    case Success(None) => NotFound
    case Success(Some(f)) => if f == [] then NotFound else Forecast(f)
  }

  /** `get_weather`. On the absent argument the default is the int 5, whose
      missing `isdigit` raises before any lookup; so does `int` on a digit
      string longer than `MaxStrDigits`. */
  function GetWeather(days: DaysArg, lookup: int -> ServiceResult): (resp: Response)
    ensures resp == BadRequest <==> days.Given? && !ValidDays(days.text) && !TooManyDigits(days.text)
    ensures days.Absent? || TooManyDigits(days.text) ==> resp == InternalError
    ensures days.Given? && ValidDays(days.text) ==> resp == Respond(lookup(DecimalValue(days.text)))
  {
    match days
    case Absent => InternalError
    case Given(s) =>
      if s == [] || !IsDigitString(s) then BadRequest
      else if |s| > MaxStrDigits then InternalError
      else if !(1 <= DecimalValue(s) <= 5) then BadRequest
      else Respond(lookup(DecimalValue(s)))
  }

  /** 400 exactly for an empty string, a non-digit, or a value outside 1..5
      that `int` can convert; and the accepted strings are zeros followed by
      one digit '1'..'5', at most `MaxStrDigits` long. */
  lemma BadRequestIff(s: string, lookup: int -> ServiceResult)
    ensures GetWeather(Given(s), lookup) == BadRequest <==> !ValidDays(s) && !TooManyDigits(s)
    ensures ValidDays(s) <==> s != [] && IsDigitString(s) && |s| <= MaxStrDigits
                              && (forall k :: 0 <= k < |s| - 1 ==> s[k] == '0')
                              && '1' <= s[|s| - 1] <= '5'
  {
    if s != [] && IsDigitString(s) {
      SmallValueIff(s);
    }
  }

  /** Validation comes before the service is built or called: a rejected
      argument gives the same answer whatever the service would have done. */
  lemma ValidationBeforeLookup(days: DaysArg, lookup1: int -> ServiceResult, lookup2: int -> ServiceResult)
    requires !(days.Given? && ValidDays(days.text))
    ensures GetWeather(days, lookup1) == GetWeather(days, lookup2)
    ensures GetWeather(days, lookup1) == BadRequest || GetWeather(days, lookup1) == InternalError
  {
  }

  /** An accepted argument reaches the service with its value in 1..5, so the
      service's own range check never fires from this route. */
  lemma AcceptedDaysInRange(s: string, fetched: Option<seq<Sample>>)
    requires ValidDays(s)
    ensures 1 <= DecimalValue(s) <= 5
    ensures ForecastFor(DecimalValue(s), fetched) != Failure(DaysOutOfRange)
  {
  }

  /** Leading zeros count towards the digit limit: a digit string longer than
      `MaxStrDigits` is a 500 whatever its value, so zeros followed by "5"
      are accepted only up to that length. */
  lemma TooManyDigitsIsServerError(n: nat, d: char, lookup: int -> ServiceResult)
    requires '0' <= d <= '9'
    ensures n < MaxStrDigits ==> GetWeather(Given(seq(n, _ => '0') + [d]), lookup)
                                 == if '1' <= d <= '5' then Respond(lookup(d as int - '0' as int)) else BadRequest
    ensures n >= MaxStrDigits ==> GetWeather(Given(seq(n, _ => '0') + [d]), lookup) == InternalError
  {
    var s := seq(n, _ => '0') + [d];
    assert IsDigitString(s) by {
      assert forall k :: 0 <= k < |s| ==> '0' <= s[k] <= '9';
    }
    if n < MaxStrDigits {
      SmallValueIff(s);
      DecimalValueZeroIff(s[..n]);
      assert s[..n] == seq(n, _ => '0');
      assert DecimalValue(s) == d as int - '0' as int;
    }
  }

  /** Leading zeros are accepted: "05" asks for five days. */
  lemma LeadingZerosAccepted()
    ensures ValidDays("05") && DecimalValue("05") == 5
    ensures ValidDays("0001") && DecimalValue("0001") == 1
    ensures !ValidDays("6") && !ValidDays("0") && !ValidDays("") && !ValidDays("10")
  {
    BadRequestIff("05", _ => Success(None));
    BadRequestIff("0001", _ => Success(None));
    BadRequestIff("6", _ => Success(None));
    BadRequestIff("0", _ => Success(None));
    BadRequestIff("10", _ => Success(None));
  }

  /** Past validation: 404 exactly for `None` or an empty list, the forecast
      unchanged for a non-empty list, 500 for an exception. */
  lemma ResponseAfterValidation(s: string, lookup: int -> ServiceResult)
    requires ValidDays(s)
    ensures var r := lookup(DecimalValue(s));
            && (GetWeather(Given(s), lookup) == NotFound <==> r == Success(None) || r == Success(Some([])))
            && (GetWeather(Given(s), lookup) == InternalError <==> r.Failure?)
            && (GetWeather(Given(s), lookup).Forecast? ==> r == Success(Some(GetWeather(Given(s), lookup).days)))
            && (r.Success? && r.value.Some? && r.value.value != [] ==> GetWeather(Given(s), lookup) == Forecast(r.value.value))
  {
    var r := lookup(DecimalValue(s));
    assert GetWeather(Given(s), lookup) == Respond(r);
    match r
    case Failure(_) =>
    case Success(None) =>
    case Success(Some(f)) =>
      assert f == [] <==> r == Success(Some([]));
  }

  /** Wired to the service as written, the route never answers 200: the
      grouping defect leaves every forecast empty, so the answer is 400, 404
      or 500 whatever the upstream samples are. */
  lemma NeverServesForecast(days: DaysArg, fetched: Option<seq<Sample>>)
    ensures !GetWeather(days, n => ForecastFor(n, fetched)).Forecast?
  {
    if days.Given? && ValidDays(days.text) && fetched.Some? && fetched.value != [] {
      ForecastForAsWritten(DecimalValue(days.text), fetched.value);
    }
  }
}
