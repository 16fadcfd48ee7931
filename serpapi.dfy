/**
 * What the two search tools of the agent (backend/livekit-voice-agent/tools/) share:
 * the request parameter values, the search outcome, the environment they check and
 * the shape of their result dictionaries.
 */
module SerpApi {
  import opened Common

  /** A value of the request-parameter dictionary: a string, an integer or `None`. */
  datatype Param = Str(s: string) | Int(n: int) | Null

  function OptionalParam(o: Option<string>): Param {
    match o
    case Some(s) => Str(s)
    case None => Null
  }

  /** Reads back an optional string parameter; `None` when the value is an integer. */
  function ReadOptional(p: Param): Option<Option<string>> {
    match p
    case Str(s) => Some(Some(s))
    case Null => Some(None)
    case Int(_) => None
  }

  /** One result record (a flight option or a hotel property) as returned by the search. */
  type Record = map<string, string>

  /** The outcome of `serpapi.search(params)`: the response's list-valued fields, or an exception. */
  datatype SearchOutcome = Data(lists: map<string, seq<Record>>) | Raised(message: string)

  /** `data.get(key, [])`. */
  function ListOr(lists: map<string, seq<Record>>, key: string): seq<Record> {
    if key in lists then lists[key] else []
  }

  /** Whether the `serpapi` package imported, and the `SERPAPI_API_KEY` environment variable. */
  datatype ToolEnv = ToolEnv(serpapiAvailable: bool, apiKey: Option<string>)

  /** `os.environ.get('SERPAPI_API_KEY')` is truthy: set and not empty. */
  predicate HasApiKey(env: ToolEnv) {
    env.apiKey.Some? && env.apiKey.value != ""
  }

  const NOT_INSTALLED: string := "SerpAPI is not available. Please install serpapi package."
  const NO_API_KEY: string := "SERPAPI_API_KEY environment variable is not set."

  /** A tool's result dictionary: `{"error": ...}` or a single list-valued entry. */
  datatype ToolResult = Error(error: string) | Listing(key: string, items: seq<Record>)

  /** The two guards every tool runs, in order, before it builds a request. */
  function Guard(env: ToolEnv): (r: Option<string>)
    ensures r.None? <==> env.serpapiAvailable && HasApiKey(env)
    ensures !env.serpapiAvailable ==> r == Some(NOT_INSTALLED)
    ensures env.serpapiAvailable && !HasApiKey(env) ==> r == Some(NO_API_KEY)
  {
    if !env.serpapiAvailable then Some(NOT_INSTALLED)
    else if !HasApiKey(env) then Some(NO_API_KEY)
    else None
  }
}
