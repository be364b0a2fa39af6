/** The rules by which the three time-series adapters turn their parameter
    record into the upstream query. The Go sources hold three copies of the
    same construction (alphavantage/timeseries, api/alphavantage/timeseries
    and stock); each copy is modelled in its own module and proved to follow
    the rules stated here once. */
module TimeSeriesQuery {

  const Intraday := "TIME_SERIES_INTRADAY"

  /** `TimeSeriesParams`, the same eight fields in every copy. */
  datatype Params = Params(
    fn: string,
    symbol: string,
    interval: string,
    outputSize: string,
    dataType: string,
    adjusted: bool,
    extendedHours: bool,
    month: string)

  /** Every name the query can ever hold. */
  const AllKeys: set<string> :=
    {"function", "symbol", "apikey", "interval", "outputsize", "datatype",
     "month", "adjusted", "extended_hours"}

  function BoolText(b: bool): string {
    if b then "true" else "false"
  }

  /** The query rules, name by name:
      - "function", "symbol" and "apikey" are always sent;
      - "interval" only for an intraday request with a non-empty interval;
      - "outputsize" and "datatype" whenever the field is non-empty;
      - "month" only for an intraday request with a non-empty month;
      - "adjusted" only for an intraday request that is not adjusted, and
        then always as "false" (true is the upstream default);
      - "extended_hours" always for an intraday request, never otherwise;
      and nothing else. */
  ghost predicate Conforms(p: Params, apiKey: string, q: map<string, string>) {
    && q.Keys <= AllKeys
    && CommonRules(p, apiKey, q)
    && IntradayRules(p, q)
  }

  /** The rules for the names every copy inserts first. */
  ghost predicate CommonRules(p: Params, apiKey: string, q: map<string, string>) {
    && "function" in q && q["function"] == p.fn
    && "symbol" in q && q["symbol"] == p.symbol
    && "apikey" in q && q["apikey"] == apiKey
    && ("interval" in q <==> p.interval != "" && p.fn == Intraday)
    && ("interval" in q ==> q["interval"] == p.interval)
    && ("outputsize" in q <==> p.outputSize != "")
    && ("outputsize" in q ==> q["outputsize"] == p.outputSize)
    && ("datatype" in q <==> p.dataType != "")
    && ("datatype" in q ==> q["datatype"] == p.dataType)
  }

  /** The rules for the intraday-only names. */
  ghost predicate IntradayRules(p: Params, q: map<string, string>) {
    var intraday := p.fn == Intraday;
    && ("month" in q <==> intraday && p.month != "")
    && ("month" in q ==> q["month"] == p.month)
    && ("adjusted" in q <==> intraday && !p.adjusted)
    && ("adjusted" in q ==> q["adjusted"] == "false")
    && ("extended_hours" in q <==> intraday)
    && ("extended_hours" in q ==> q["extended_hours"] == BoolText(p.extendedHours))
  }

  /** What the query holds after the common inserts, before the intraday
      block. */
  ghost predicate BeforeIntraday(p: Params, apiKey: string, q: map<string, string>) {
    && q.Keys <= AllKeys
    && CommonRules(p, apiKey, q)
    && "month" !in q && "adjusted" !in q && "extended_hours" !in q
  }

  /** Whether the query has an entry under `k`, one of `AllKeys`. */
  function Included(p: Params, k: string): bool {
    var intraday := p.fn == Intraday;
    match k
    case "interval" => p.interval != "" && intraday
    case "outputsize" => p.outputSize != ""
    case "datatype" => p.dataType != ""
    case "month" => intraday && p.month != ""
    case "adjusted" => intraday && !p.adjusted
    case "extended_hours" => intraday
    case _ => true
  }

  /** The entry under `k`, when there is one. */
  function ValueOf(p: Params, apiKey: string, k: string): string {
    match k
    case "function" => p.fn
    case "symbol" => p.symbol
    case "apikey" => apiKey
    case "interval" => p.interval
    case "outputsize" => p.outputSize
    case "datatype" => p.dataType
    case "month" => p.month
    case "adjusted" => "false"
    case _ => BoolText(p.extendedHours)
  }

  /** A reference query, name by name. */
  function QueryMap(p: Params, apiKey: string): (q: map<string, string>)
    ensures Conforms(p, apiKey, q)
  {
    map k | k in AllKeys && Included(p, k) :: ValueOf(p, apiKey, k)
  }

  /** The rules leave no freedom: two queries that follow them for the same
      request are equal. */
  lemma ConformsUnique(p: Params, apiKey: string, q1: map<string, string>, q2: map<string, string>)
    requires Conforms(p, apiKey, q1) && Conforms(p, apiKey, q2)
    ensures q1 == q2
  {
    forall k | k in q1
      ensures k in q2 && q1[k] == q2[k]
    {
      assert k in AllKeys;
    }
    forall k | k in q2
      ensures k in q1
    {
      assert k in AllKeys;
    }
  }

  /** A query that follows the rules is the reference query. */
  lemma ConformsIsQueryMap(p: Params, apiKey: string, q: map<string, string>)
    requires Conforms(p, apiKey, q)
    ensures q == QueryMap(p, apiKey)
  {
    ConformsUnique(p, apiKey, q, QueryMap(p, apiKey));
  }

  /** A non-intraday request sends none of the intraday-only names. */
  lemma NonIntradayHasNoIntradayKeys(p: Params, apiKey: string, q: map<string, string>)
    requires Conforms(p, apiKey, q) && p.fn != Intraday
    ensures "interval" !in q && "month" !in q && "adjusted" !in q && "extended_hours" !in q
    ensures q.Keys <= {"function", "symbol", "apikey", "outputsize", "datatype"}
  {
  }

  /** "adjusted" is never sent as "true". */
  lemma AdjustedNeverTrue(p: Params, apiKey: string, q: map<string, string>)
    requires Conforms(p, apiKey, q)
    ensures "adjusted" in q ==> q["adjusted"] != "true"
  {
  }
}
