/** stock/fundamental: the income-statement fetch, which builds its URL by
    string formatting, screens the body for upstream error keys and only then
    decodes it. The transport, the body read and the two JSON decodes are
    inputs: what `http.Get`, `ioutil.ReadAll` and `json.Unmarshal` returned
    for this request. The decoded statement is the type parameter `S`. */
module IncomeStatement {

  import opened Wrappers
  import opened JsonValue
  import Config

  const QueryPath := "/query?function=INCOME_STATEMENT&symbol="
  const KeyPart := "&apikey="

  /** The request URL: base, path and query glued together; neither the
      symbol nor the key is percent-encoded. */
  function RequestUrl(base: string, symbol: string, apiKey: string): (url: string)
    ensures |url| == |base| + |QueryPath| + |symbol| + |KeyPart| + |apiKey|
    ensures url[..|base|] == base
    ensures url[|base|..|base| + |QueryPath|] == QueryPath
    ensures url[|base| + |QueryPath|..|base| + |QueryPath| + |symbol|] == symbol
    ensures url[|url| - |apiKey| - |KeyPart|..] == KeyPart + apiKey
  {
    base + QueryPath + symbol + KeyPart + apiKey
  }

  /** Among symbols of one length, the URL tells symbol and key apart. */
  lemma RequestUrlInjective(base: string, s1: string, k1: string, s2: string, k2: string)
    requires |s1| == |s2|
    ensures RequestUrl(base, s1, k1) == RequestUrl(base, s2, k2) <==> s1 == s2 && k1 == k2
  {
    var u1, u2 := RequestUrl(base, s1, k1), RequestUrl(base, s2, k2);
    var at := |base| + |QueryPath|;
    if u1 == u2 {
      assert s1 == u1[at..at + |s1|] == u2[at..at + |s2|] == s2;
      assert k1 == u1[at + |s1| + |KeyPart|..] == u2[at + |s2| + |KeyPart|..] == k2;
    }
  }

  /** A symbol is pasted in verbatim, so one carrying its own `&apikey=`
      smuggles a second key parameter into the query. */
  lemma SymbolIsNotEscaped(base: string, key: string)
    ensures RequestUrl(base, "IBM&apikey=x", key)
      == base + "/query?function=INCOME_STATEMENT&symbol=IBM&apikey=x&apikey=" + key
  {
  }

  /** Across lengths it does not: two different requests can ask for the very
      same URL, since the parts are not escaped. */
  lemma RequestUrlAmbiguous(base: string)
    ensures RequestUrl(base, "A", "B&apikey=C") == RequestUrl(base, "A&apikey=B", "C")
  {
  }

  /** With the configured base URL, which already ends in `/query`, the path
      requested is `/query/query`: the configured host comes first, then the
      path segment twice. */
  lemma ConfiguredUrlDoublesQueryPath(env: Config.Env, symbol: string)
    ensures var cfg := Config.Resolve(env);
      var url := RequestUrl(cfg.alphaVantageBaseURL, symbol, cfg.alphaVantageAPIKey);
      url[..27] == "https://www.alphavantage.co" && url[27..33] == "/query" && url[33..39] == "/query"
  {
    var cfg := Config.Resolve(env);
    var url := RequestUrl(cfg.alphaVantageBaseURL, symbol, cfg.alphaVantageAPIKey);
    var n := |Config.BaseURL|;
    assert url[..n] == Config.BaseURL;
    assert url[n..n + |QueryPath|] == QueryPath;
    assert url[..27] == Config.BaseURL[..27];
    assert url[27..33] == Config.BaseURL[27..];
    assert url[33..39] == QueryPath[..6];
    assert Config.BaseURL[..27] == "https://www.alphavantage.co";
    assert Config.BaseURL[27..] == "/query";
    QueryPathStartsWithQuery();
  }

  lemma QueryPathStartsWithQuery()
    ensures QueryPath[..6] == "/query"
  {
    assert QueryPath[0] == '/' && QueryPath[1] == 'q' && QueryPath[2] == 'u';
    assert QueryPath[3] == 'e' && QueryPath[4] == 'r' && QueryPath[5] == 'y';
  }

  /** What the standard library returned for the request: `http.Get` failed,
      reading the body failed, or the body was read, in which case it comes
      with its decode as a generic JSON object (`None` when it is not one)
      and its decode as a statement. */
  datatype Fetch<S> =
    | GetFailed(cause: string)
    | ReadFailed(cause: string)
    | Body(asObject: Option<JsonObject>, asStatement: Result<S, string>)

  /** The errors the function returns, each keeping what it wraps or reports. */
  datatype Failure =
    | RequestFailed(cause: string)
    | BodyReadFailed(cause: string)
    | ApiError(payload: Json)
    | ApiInformation(payload: Json)
    | ParseFailed(cause: string)

  /** `%v` of a scalar the upstream error keys may hold; numbers, arrays and
      objects are not rendered. */
  function Verb(p: Json): Option<string>
  {
    match p
    case JStr(s) => Some(s)
    case JBool(b) => Some(if b then "true" else "false")
    case JNull => Some("<nil>")
    case _ => None
  }

  /** The text of each error, with the prefix the function gives it. */
  function Message(f: Failure): (r: Option<string>)
    ensures f.ApiError? && f.payload.JStr? ==> r == Some("API error: " + f.payload.s)
    ensures f.ApiInformation? && f.payload.JStr? ==> r == Some("API information: " + f.payload.s)
    ensures f.RequestFailed? ==> r == Some("error making request to Alpha Vantage: " + f.cause)
    ensures f.BodyReadFailed? ==> r == Some("error reading response body: " + f.cause)
    ensures f.ParseFailed? ==> r == Some("error parsing income statement data: " + f.cause)
  {
    match f
    case RequestFailed(c) => Some("error making request to Alpha Vantage: " + c)
    case BodyReadFailed(c) => Some("error reading response body: " + c)
    case ApiError(p) => if Verb(p).Some? then Some("API error: " + Verb(p).value) else None
    case ApiInformation(p) => if Verb(p).Some? then Some("API information: " + Verb(p).value) else None
    case ParseFailed(c) => Some("error parsing income statement data: " + c)
  }

  /** `GetIncomeStatement` after the URL: the first failing step decides the
      error; "Error Message" (of any JSON type, `null` included) is looked
      for before "Information"; a body that is not a JSON object skips that
      screen and goes straight to the statement decode. */
  function GetIncomeStatement<S>(fetch: Fetch<S>): (r: Result<S, Failure>)
    ensures fetch.GetFailed? ==> r == Err(RequestFailed(fetch.cause))
    ensures fetch.ReadFailed? ==> r == Err(BodyReadFailed(fetch.cause))
    ensures fetch.Body? && fetch.asStatement.Err?
      && !(fetch.asObject.Some? && ("Error Message" in fetch.asObject.value || "Information" in fetch.asObject.value))
      ==> r == Err(ParseFailed(fetch.asStatement.error))
    ensures r.Ok? ==> fetch.Body? && fetch.asStatement == Ok(r.value)
  {
    match fetch
    case GetFailed(c) => Err(RequestFailed(c))
    case ReadFailed(c) => Err(BodyReadFailed(c))
    case Body(obj, st) =>
      if obj.Some? && "Error Message" in obj.value then Err(ApiError(obj.value["Error Message"]))
      else if obj.Some? && "Information" in obj.value then Err(ApiInformation(obj.value["Information"]))
      else match st
        case Err(e) => Err(ParseFailed(e))
        case Ok(s) => Ok(s)
  }

  /** A statement comes back exactly when the body was read, is not an object
      carrying either error key, and decodes. */
  lemma SucceedsIff<S>(fetch: Fetch<S>)
    ensures GetIncomeStatement(fetch).Ok? <==>
      fetch.Body? && fetch.asStatement.Ok? &&
      !(fetch.asObject.Some? && ("Error Message" in fetch.asObject.value || "Information" in fetch.asObject.value))
  {
  }

  /** "Error Message" wins over "Information" when both are present, and
      either one wins over a statement that would have decoded. */
  lemma ErrorMessageFirst<S>(obj: JsonObject, st: Result<S, string>)
    requires "Error Message" in obj
    ensures GetIncomeStatement(Body(Some(obj), st)) == Err(ApiError(obj["Error Message"]))
  {
  }

  lemma InformationSecond<S>(obj: JsonObject, st: Result<S, string>)
    requires "Error Message" !in obj && "Information" in obj
    ensures GetIncomeStatement(Body(Some(obj), st)) == Err(ApiInformation(obj["Information"]))
  {
  }

  /** A body that is not a JSON object is never screened: it fails, if at
      all, with the parse prefix. */
  lemma NonObjectSkipsScreen<S>(cause: string)
    ensures var f: Fetch<S> := Body(None, Err(cause)); GetIncomeStatement(f) == Err(ParseFailed(cause))
    ensures Message(ParseFailed(cause)) == Some("error parsing income statement data: " + cause)
  {
  }

  /** A `null` under "Error Message" still counts as present. */
  lemma NullErrorMessageIsAnError<S>(obj: JsonObject, st: Result<S, string>)
    requires "Error Message" in obj && obj["Error Message"] == JNull
    ensures Message(GetIncomeStatement(Body(Some(obj), st)).error) == Some("API error: <nil>")
  {
    assert "API error: " + "<nil>" == "API error: <nil>";
  }
}
