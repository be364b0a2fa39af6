/** The shared request path of the `common` package: merging parameters into
    a base URL's query, and the check of a decoded payload for an upstream
    error. URL parsing, percent-encoding and the HTTP round trip are not
    modelled: what `url.Parse` made of the base string, and what the transport
    and the JSON decoder produced, are inputs. */
module Http {

  import opened Wrappers
  import opened JsonValue

  /** A parsed URL: everything but the query, and the query as `url.Values`
      (a name may carry several values). */
  datatype Url = Url(location: string, query: map<string, seq<string>>)

  /** What the round trip of one GET produced. */
  datatype Outcome =
    | TransportFailed(cause: string)   // building the request or `client.Do` failed
    | DecodeFailed(cause: string)      // the body is not a JSON object (or not JSON)
    | Decoded(body: JsonObject)        // the body decoded into `map[string]interface{}`;
                                       // a literal `null` body decodes to a nil map, which
                                       // reads like an empty one: `Decoded(map[])`

  /** The base URL every adapter uses, as `url.Parse` returns it: no query. */
  const AlphaVantageBase := Url("https://www.alphavantage.co/query", map[])

  /** `BuildRequestURL`: an unparseable base is an error; otherwise each
      parameter replaces, with its single value, whatever the base query had
      under that name, and every other name of the base query is kept. */
  method BuildRequestURL(parsed: Result<Url, string>, params: map<string, string>)
    returns (r: Result<Url, string>)
    ensures parsed.Err? ==> r == Err(parsed.error)
    ensures parsed.Ok? ==> r.Ok? && r.value.location == parsed.value.location
    ensures parsed.Ok? ==> r.value.query.Keys == parsed.value.query.Keys + params.Keys
    ensures parsed.Ok? ==> forall k :: k in params ==> r.value.query[k] == [params[k]]
    ensures parsed.Ok? ==> forall k :: k in parsed.value.query && k !in params ==>
      r.value.query[k] == parsed.value.query[k]
  {
    if parsed.Err? {
      return Err(parsed.error);
    }
    var u := parsed.value;
    var q := u.query;
    var todo := params.Keys;
    while todo != {}
      invariant todo <= params.Keys
      invariant q.Keys == u.query.Keys + (params.Keys - todo)
      invariant forall k :: k in params && k !in todo ==> q[k] == [params[k]]
      invariant forall k :: k in u.query && (k !in params || k in todo) ==> q[k] == u.query[k]
      decreases todo
    {
      var key :| key in todo;
      q := q[key := [params[key]]];
      todo := todo - {key};
    }
    r := Ok(Url(u.location, q));
  }

  /** The "Error Message" check: a string under that key turns the payload
      into an error; a value of another type, or no such key, leaves the
      payload as the result. */
  function CheckAPIError(body: JsonObject): (r: Result<JsonObject, string>)
    ensures "Error Message" in body && body["Error Message"].JStr? ==>
      r == Err("API error: " + body["Error Message"].s)
    ensures !("Error Message" in body && body["Error Message"].JStr?) ==> r == Ok(body)
  {
    if "Error Message" in body && body["Error Message"].JStr? then
      Err("API error: " + body["Error Message"].s)
    else
      Ok(body)
  }

  /** What `MakeAPIRequest` returns once a request has been sent. */
  function Response(outcome: Outcome): (r: Result<JsonObject, string>)
    ensures outcome.TransportFailed? ==> r == Err(outcome.cause)
    ensures outcome.DecodeFailed? ==> r == Err(outcome.cause)
    ensures outcome.Decoded? ==> r == CheckAPIError(outcome.body)
  {
    match outcome
    case TransportFailed(e) => Err(e)
    case DecodeFailed(e) => Err(e)
    case Decoded(body) => CheckAPIError(body)
  }

  /** A successful response is the decoded payload itself, and it never
      carries a string "Error Message". */
  lemma ResponseOkIsUncheckedBody(outcome: Outcome)
    requires Response(outcome).Ok?
    ensures outcome.Decoded? && Response(outcome).value == outcome.body
    ensures !("Error Message" in outcome.body && outcome.body["Error Message"].JStr?)
  {
  }

  /** `MakeAPIRequest`: `sent` is the URL the request went to. A URL that
      cannot be built fails before any request is made; otherwise the result
      is that of the round trip, checked for "Error Message". */
  method MakeAPIRequest(parsed: Result<Url, string>, params: map<string, string>, outcome: Outcome)
    returns (sent: Option<Url>, r: Result<JsonObject, string>)
    ensures parsed.Err? ==> sent == None && r == Err(parsed.error)
    ensures parsed.Ok? ==> sent.Some? && sent.value.location == parsed.value.location
    ensures parsed.Ok? ==> sent.value.query.Keys == parsed.value.query.Keys + params.Keys
    ensures parsed.Ok? ==> forall k :: k in params ==> sent.value.query[k] == [params[k]]
    ensures parsed.Ok? ==> forall k :: k in parsed.value.query && k !in params ==>
      sent.value.query[k] == parsed.value.query[k]
    ensures parsed.Ok? ==> r == Response(outcome)
  {
    var url := BuildRequestURL(parsed, params);
    if url.Err? {
      return None, Err(url.error);
    }
    sent := Some(url.value);
    match outcome {
      case TransportFailed(e) => r := Err(e);
      case DecodeFailed(e) => r := Err(e);
      case Decoded(body) =>
        if "Error Message" in body && body["Error Message"].JStr? {
          r := Err("API error: " + body["Error Message"].s);
        } else {
          r := Ok(body);
        }
    }
  }
}
