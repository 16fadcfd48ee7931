/** The `hotels_finder` tool (backend/livekit-voice-agent/tools/hotels_finder.py). */
module HotelsFinder {
  import opened Common
  import opened SerpApi

  /** `HotelsInput`. */
  datatype HotelsInput = HotelsInput(
    q: string,
    checkInDate: string,
    checkOutDate: string,
    sortBy: Option<string>,
    adults: int,
    children: int,
    rooms: int,
    hotelClass: Option<string>)

  /** Building a `HotelsInput`: location and dates are required, the rest take their defaults. */
  function NewHotelsInput(
    q: string, checkInDate: string, checkOutDate: string, sortBy: Option<string>,
    adults: Option<int>, children: Option<int>, rooms: Option<int>, hotelClass: Option<string>): HotelsInput
  {
    HotelsInput(q, checkInDate, checkOutDate, sortBy, adults.GetOr(1), children.GetOr(0), rooms.GetOr(1), hotelClass)
  }

  const HOTEL_PARAM_KEYS: set<string> := {
    "api_key", "engine", "hl", "gl", "q", "check_in_date", "check_out_date", "currency",
    "adults", "children", "rooms", "sort_by", "hotel_class"}

  /** The most hotels a search returns. */
  const MAX_HOTELS: nat := 5

  /** `search_params`: fixed engine, language, country and currency, the rest from the input. */
  function HotelSearchParams(params: HotelsInput, apiKey: string): (m: map<string, Param>)
    ensures m.Keys == HOTEL_PARAM_KEYS
    ensures m["api_key"] == Str(apiKey)
  {
    map[
      "api_key" := Str(apiKey),
      "engine" := Str("google_hotels"),
      "hl" := Str("en"),
      "gl" := Str("us"),
      "q" := Str(params.q),
      "check_in_date" := Str(params.checkInDate),
      "check_out_date" := Str(params.checkOutDate),
      "currency" := Str("USD"),
      "adults" := Int(params.adults),
      "children" := Int(params.children),
      "rooms" := Int(params.rooms),
      "sort_by" := OptionalParam(params.sortBy),
      "hotel_class" := OptionalParam(params.hotelClass)]
  }

  /** Every hotel search asks Google Hotels, in English, for the US, in dollars. */
  lemma HotelSearchFixedValues(params: HotelsInput, apiKey: string)
    ensures var m := HotelSearchParams(params, apiKey);
      && m["engine"] == Str("google_hotels") && m["hl"] == Str("en") && m["gl"] == Str("us")
      && m["currency"] == Str("USD")
  {
  }

  /** Reads the search input back out of a request dictionary. */
  function ReadHotelSearch(m: map<string, Param>): Option<HotelsInput> {
    if !(HOTEL_PARAM_KEYS <= m.Keys) then None
    else if !(m["q"].Str? && m["check_in_date"].Str? && m["check_out_date"].Str?) then None
    else if !(m["adults"].Int? && m["children"].Int? && m["rooms"].Int?) then None
    else
      var sortBy := ReadOptional(m["sort_by"]);
      var hotelClass := ReadOptional(m["hotel_class"]);
      if sortBy.None? || hotelClass.None? then None
      else Some(HotelsInput(m["q"].s, m["check_in_date"].s, m["check_out_date"].s, sortBy.value,
        m["adults"].n, m["children"].n, m["rooms"].n, hotelClass.value))
  }

  /** Location, dates, counts, sort order and hotel class reach the request unchanged. */
  lemma HotelSearchCopiesInput(params: HotelsInput, apiKey: string)
    ensures ReadHotelSearch(HotelSearchParams(params, apiKey)) == Some(params)
  {
  }

  /** A request that gives only location and dates asks for one adult, no children and one room. */
  lemma HotelDefaults(q: string, checkIn: string, checkOut: string, apiKey: string)
    ensures var m := HotelSearchParams(NewHotelsInput(q, checkIn, checkOut, None, None, None, None, None), apiKey);
      m["adults"] == Int(1) && m["children"] == Int(0) && m["rooms"] == Int(1)
      && m["sort_by"] == Null && m["hotel_class"] == Null
  {
  }

  /** `properties[:5]`: the first five records, or all of them when there are fewer. */
  function TopHotels(properties: seq<Record>): (r: seq<Record>)
    ensures |r| == if |properties| < MAX_HOTELS then |properties| else MAX_HOTELS
    ensures r == properties[..|r|]
  {
    if |properties| <= MAX_HOTELS then properties else properties[..MAX_HOTELS]
  }

  /**
   * `hotels_finder`: the two guards, then one search; a successful search yields at most
   * the first five of its `properties` (none when absent), an exception yields its message.
   */
  function FindHotels(params: HotelsInput, env: ToolEnv, search: map<string, Param> -> SearchOutcome): (r: ToolResult)
    ensures Guard(env).Some? ==> r == Error(Guard(env).value)
    ensures r.Listing? ==> Guard(env).None? && search(HotelSearchParams(params, env.apiKey.value)).Data?
    ensures r.Listing? ==> r.key == "hotels" && r.items == TopHotels(ListOr(search(HotelSearchParams(params, env.apiKey.value)).lists, "properties"))
    ensures Guard(env).None? && search(HotelSearchParams(params, env.apiKey.value)).Data? ==>
      r == Listing("hotels", TopHotels(ListOr(search(HotelSearchParams(params, env.apiKey.value)).lists, "properties")))
    ensures Guard(env).None? && search(HotelSearchParams(params, env.apiKey.value)).Raised? ==> r == Error(search(HotelSearchParams(params, env.apiKey.value)).message)
  {
    match Guard(env)
    case Some(e) => Error(e)
    case None =>
      match search(HotelSearchParams(params, env.apiKey.value))
      case Data(lists) => Listing("hotels", TopHotels(ListOr(lists, "properties")))
      case Raised(msg) => Error(msg)
  }

  /** Whatever the search returns, the listed hotels are a prefix of its properties, at most five long. */
  lemma HotelListingIsShortPrefix(params: HotelsInput, env: ToolEnv, search: map<string, Param> -> SearchOutcome)
    requires FindHotels(params, env, search).Listing?
    ensures var r := FindHotels(params, env, search);
      && Guard(env).None?
      && search(HotelSearchParams(params, env.apiKey.value)).Data?
      && var props := ListOr(search(HotelSearchParams(params, env.apiKey.value)).lists, "properties");
      && |r.items| <= MAX_HOTELS && r.items == props[..|r.items|]
      && ("properties" !in search(HotelSearchParams(params, env.apiKey.value)).lists ==> r.items == [])
  {
  }

  /** A failed guard answers without searching: the result does not depend on the search at all. */
  lemma HotelGuardsSkipSearch(params: HotelsInput, env: ToolEnv,
                              s1: map<string, Param> -> SearchOutcome, s2: map<string, Param> -> SearchOutcome)
    requires !env.serpapiAvailable || !HasApiKey(env)
    ensures FindHotels(params, env, s1) == FindHotels(params, env, s2)
  {
  }
}
