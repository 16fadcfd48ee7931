/** The `flights_finder` tool (backend/livekit-voice-agent/tools/flights_finder.py). */
module FlightsFinder {
  import opened Common
  import opened SerpApi

  /** `FlightsInput`. */
  datatype FlightsInput = FlightsInput(
    departureAirport: Option<string>,
    arrivalAirport: Option<string>,
    outboundDate: Option<string>,
    returnDate: Option<string>,
    adults: int,
    children: int,
    infantsInSeat: int,
    infantsOnLap: int)

  /** Building a `FlightsInput` from the fields a caller supplied; the rest take their defaults. */
  function NewFlightsInput(
    departureAirport: Option<string>, arrivalAirport: Option<string>,
    outboundDate: Option<string>, returnDate: Option<string>,
    adults: Option<int>, children: Option<int>,
    infantsInSeat: Option<int>, infantsOnLap: Option<int>): FlightsInput
  {
    FlightsInput(departureAirport, arrivalAirport, outboundDate, returnDate,
      adults.GetOr(1), children.GetOr(0), infantsInSeat.GetOr(0), infantsOnLap.GetOr(0))
  }

  const FLIGHT_PARAM_KEYS: set<string> := {
    "api_key", "engine", "hl", "gl", "departure_id", "arrival_id", "outbound_date",
    "return_date", "currency", "adults", "infants_in_seat", "stops", "infants_on_lap", "children"}

  /** `search_params`: fixed engine, language, country, currency and stop limit, the rest from the input. */
  function FlightSearchParams(params: FlightsInput, apiKey: string): (m: map<string, Param>)
    ensures m.Keys == FLIGHT_PARAM_KEYS
    ensures m["api_key"] == Str(apiKey)
  {
    map[
      "api_key" := Str(apiKey),
      "engine" := Str("google_flights"),
      "hl" := Str("en"),
      "gl" := Str("us"),
      "departure_id" := OptionalParam(params.departureAirport),
      "arrival_id" := OptionalParam(params.arrivalAirport),
      "outbound_date" := OptionalParam(params.outboundDate),
      "return_date" := OptionalParam(params.returnDate),
      "currency" := Str("USD"),
      "adults" := Int(params.adults),
      "infants_in_seat" := Int(params.infantsInSeat),
      "stops" := Str("1"),
      "infants_on_lap" := Int(params.infantsOnLap),
      "children" := Int(params.children)]
  }

  /** Every flight search asks Google Flights, in English, for the US, in dollars, with at most one stop. */
  lemma FlightSearchFixedValues(params: FlightsInput, apiKey: string)
    ensures var m := FlightSearchParams(params, apiKey);
      && m["engine"] == Str("google_flights") && m["hl"] == Str("en") && m["gl"] == Str("us")
      && m["currency"] == Str("USD") && m["stops"] == Str("1")
  {
  }

  /** Reads the search input back out of a request dictionary. */
  function ReadFlightSearch(m: map<string, Param>): Option<FlightsInput> {
    if !(FLIGHT_PARAM_KEYS <= m.Keys) then None
    else
      var dep := ReadOptional(m["departure_id"]);
      var arr := ReadOptional(m["arrival_id"]);
      var out := ReadOptional(m["outbound_date"]);
      var ret := ReadOptional(m["return_date"]);
      if dep.None? || arr.None? || out.None? || ret.None? then None
      else if !(m["adults"].Int? && m["children"].Int? && m["infants_in_seat"].Int? && m["infants_on_lap"].Int?) then None
      else Some(FlightsInput(dep.value, arr.value, out.value, ret.value,
        m["adults"].n, m["children"].n, m["infants_in_seat"].n, m["infants_on_lap"].n))
  }

  /** Airports, dates and passenger counts reach the request unchanged. */
  lemma FlightSearchCopiesInput(params: FlightsInput, apiKey: string)
    ensures ReadFlightSearch(FlightSearchParams(params, apiKey)) == Some(params)
  {
  }

  /** A request for which only airports and dates were given asks for one adult and nobody else. */
  lemma FlightDefaults(dep: Option<string>, arr: Option<string>, out: Option<string>, ret: Option<string>, apiKey: string)
    ensures var m := FlightSearchParams(NewFlightsInput(dep, arr, out, ret, None, None, None, None), apiKey);
      m["adults"] == Int(1) && m["children"] == Int(0)
      && m["infants_in_seat"] == Int(0) && m["infants_on_lap"] == Int(0)
  {
  }

  /**
   * `flights_finder`: the two guards, then one search; a successful search yields its
   * `best_flights` list (empty when absent), an exception yields its message.
   */
  function FindFlights(params: FlightsInput, env: ToolEnv, search: map<string, Param> -> SearchOutcome): (r: ToolResult)
    ensures Guard(env).Some? ==> r == Error(Guard(env).value)
    ensures r.Listing? ==> Guard(env).None? && search(FlightSearchParams(params, env.apiKey.value)).Data?
    ensures r.Listing? ==> r.key == "flights" && r.items == ListOr(search(FlightSearchParams(params, env.apiKey.value)).lists, "best_flights")
    ensures Guard(env).None? && search(FlightSearchParams(params, env.apiKey.value)).Data? ==>
      r == Listing("flights", ListOr(search(FlightSearchParams(params, env.apiKey.value)).lists, "best_flights"))
    ensures Guard(env).None? && search(FlightSearchParams(params, env.apiKey.value)).Raised? ==> r == Error(search(FlightSearchParams(params, env.apiKey.value)).message)
  {
    match Guard(env)
    case Some(e) => Error(e)
    case None =>
      match search(FlightSearchParams(params, env.apiKey.value))
      case Data(lists) => Listing("flights", ListOr(lists, "best_flights"))
      case Raised(msg) => Error(msg)
  }

  /** A failed guard answers without searching: the result does not depend on the search at all. */
  lemma FlightGuardsSkipSearch(params: FlightsInput, env: ToolEnv,
                               s1: map<string, Param> -> SearchOutcome, s2: map<string, Param> -> SearchOutcome)
    requires !env.serpapiAvailable || !HasApiKey(env)
    ensures FindFlights(params, env, s1) == FindFlights(params, env, s2)
  {
  }
}
