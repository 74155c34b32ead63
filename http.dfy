/**
 * The request/response boundary shared by the five handlers: the proxy
 * event a handler receives, the response it returns, and the way the
 * handlers read parameters out of the event.
 */
module Http {
  import opened Python
  import opened Inventory

  /**
   * A parameter dictionary of the event. `Missing`: the event has no such
   * key; `Null`: the key is present with value None (what the gateway sends
   * when a request has no parameters of that kind).
   */
  datatype Parameters = Missing | Null | Given(values: map<string, string>)

  /**
   * The event: path parameters, query-string parameters and `body`. `None`:
   * the event has no `body` key; `Some(JString(text))`: a str still to be
   * decoded; `Some(JNull)`: the key is present with value None (what the
   * gateway sends for a request without a payload); any other `Some(v)`: the
   * value the caller put there.
   */
  datatype Event = Event(
    pathParameters: Parameters,
    queryStringParameters: Parameters,
    body: Option<Json>)

  /** An item as the create handler writes it into its response: price as a float. */
  datatype ItemView = ItemView(
    id: string,
    name: Json,
    description: Json,
    qty: int,
    price: Float,
    locationId: int)

  /** The fields of a response body besides `message`. */
  datatype Payload =
    | NoPayload
    | Error(error: PyError)                              // 'error': str(e)
    | MissingFieldList(missingFields: seq<string>)
    | Created(itemId: string, newItem: ItemView)        // 'item_id', 'item'
    | Found(item: Item)
    | AllItems(count: int, items: seq<Item>)
    | LocationItems(locationId: int, count: int, items: seq<Item>)

  datatype Response = Response(
    statusCode: int,
    headers: map<string, string>,
    message: string,
    payload: Payload)

  /** The two headers every response of every handler carries. */
  const StandardHeaders: map<string, string> :=
    map["Content-Type" := "application/json", "Access-Control-Allow-Origin" := "*"]

  function Respond(statusCode: int, message: string, payload: Payload): (r: Response)
    ensures r.headers == StandardHeaders
  {
    Response(statusCode, StandardHeaders, message, payload)
  }

  /**
   * `event.get('pathParameters', {}).get(name)`: an absent dictionary reads
   * as empty, but a None one has no `.get` and raises AttributeError.
   */
  function PathParameter(event: Event, name: string): (r: Outcome<Option<string>>)
    ensures r.Raised? <==> event.pathParameters.Null?
    ensures r.Returned? && r.value.Some? <==>
              event.pathParameters.Given? && name in event.pathParameters.values
    ensures r.Returned? && r.value.Some? ==> r.value.value == event.pathParameters.values[name]
  {
    match event.pathParameters
    case Missing => Returned(None)
    case Null => Raised(AttributeError("'NoneType' object has no attribute 'get'"))
    case Given(values) => Returned(if name in values then Some(values[name]) else None)
  }

  /**
   * `(event.get('queryStringParameters') or {}).get(name)`: an absent or None
   * dictionary reads as empty; this never raises.
   */
  function QueryParameter(event: Event, name: string): (r: Option<string>)
    ensures r.Some? <==> event.queryStringParameters.Given? && name in event.queryStringParameters.values
    ensures r.Some? ==> r.value == event.queryStringParameters.values[name]
  {
    match event.queryStringParameters
    case Given(values) => if name in values then Some(values[name]) else None
    case _ => None
  }

  /** Python truthiness of a looked-up string: `not s` holds exactly for None and "". */
  predicate Truthy(s: Option<string>)
    ensures Truthy(s) <==> s.Some? && |s.value| > 0
  {
    s.Some? && s.value != ""
  }
}
