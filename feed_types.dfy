/** Value types shared by the feed repository and the feed view model:
    optional values, the three feed kinds, feed events, the JSON-like
    parameter values the HTTP layer is handed, and the request it is asked
    to send. */
module FeedTypes {

  datatype Option<+T> = None | Some(value: T) {
    function GetOr(default: T): T {
      match this
      case Some(v) => v
      case None => default
    }
  }

  /** The feed selector of the Feed screen's picker. */
  datatype FeedType = Events | Following | Similar

  /** One feed entry. `id` is optional because the server's id is read with a
      dynamic cast that may fail; the event's metadata payload is never read
      by the paginator and is not modelled. */
  datatype Event = Event(id: Option<int>, eventType: string, created: int)

  /** A value of a `[String: Any]` parameter dictionary: a JSON null
      (`NSNull()`), an integer, a string, an array or a nested object. */
  datatype Value =
    | Null
    | Int(i: int)
    | Str(s: string)
    | Array(items: seq<Value>)
    | Object(fields: map<string, Value>)

  datatype HttpMethod = Get | Post

  /** How the parameters are put on the wire: in the query string
      (`URLEncoding.default`) or as a JSON body (`JSONEncoding.default`). */
  datatype ParameterEncoding = UrlQuery | JsonBody

  /** Everything the repository hands to the HTTP library for one call. */
  datatype Request = Request(
    verb: HttpMethod,
    url: string,
    parameters: map<string, Value>,
    encoding: ParameterEncoding,
    headers: map<string, string>)

  /** Reads back an optional string written as "the string, or null". */
  function OptionalString(v: Value): Option<string> {
    match v
    case Str(s) => Some(s)
    case _ => None
  }

  /** Writes an optional string as "the string, or null". */
  function StringOrNull(o: Option<string>): (v: Value)
    ensures OptionalString(v) == o
    ensures v == Null <==> o.None?
  {
    match o
    case Some(s) => Str(s)
    case None => Null
  }
}
