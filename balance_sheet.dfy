/** api/alphavantage/fundamental: the balance-sheet adapter, which reshapes
    the untyped payload of the shared client field by field. */
module BalanceSheet {

  import opened Wrappers
  import opened JsonValue
  import Config
  import Http

  /** `BalanceSheetReport`: every figure stays the text upstream sent. */
  datatype Report = Report(
    fiscalDateEnding: string,
    reportedCurrency: string,
    totalAssets: string,
    totalCurrentAssets: string,
    cashAndCashEquivalentsAtCarryingValue: string,
    cashAndShortTermInvestments: string,
    inventory: string,
    currentNetReceivables: string,
    totalNonCurrentAssets: string,
    propertyPlantEquipment: string,
    accumulatedDepreciationAmortizationPPE: string,
    intangibleAssets: string,
    intangibleAssetsExcludingGoodwill: string,
    goodwill: string,
    investments: string,
    longTermInvestments: string,
    shortTermInvestments: string,
    otherCurrentAssets: string,
    otherNonCurrentAssets: string,
    totalLiabilities: string,
    totalCurrentLiabilities: string,
    currentAccountsPayable: string,
    deferredRevenue: string,
    currentDebt: string,
    shortTermDebt: string,
    totalNonCurrentLiabilities: string,
    capitalLeaseObligations: string,
    longTermDebt: string,
    currentLongTermDebt: string,
    longTermDebtNoncurrent: string,
    shortLongTermDebtTotal: string,
    otherCurrentLiabilities: string,
    otherNonCurrentLiabilities: string,
    totalShareholderEquity: string,
    treasuryStock: string,
    retainedEarnings: string,
    commonStock: string,
    commonStockSharesOutstanding: string)

  /** The upstream keys the report is read from. */
  const ReportKeys: set<string> := {
    "fiscalDateEnding",
    "reportedCurrency",
    "totalAssets",
    "totalCurrentAssets",
    "cashAndCashEquivalentsAtCarryingValue",
    "cashAndShortTermInvestments",
    "inventory",
    "currentNetReceivables",
    "totalNonCurrentAssets",
    "propertyPlantEquipment",
    "accumulatedDepreciationAmortizationPPE",
    "intangibleAssets",
    "intangibleAssetsExcludingGoodwill",
    "goodwill",
    "investments",
    "longTermInvestments",
    "shortTermInvestments",
    "otherCurrentAssets",
    "otherNonCurrentAssets",
    "totalLiabilities",
    "totalCurrentLiabilities",
    "currentAccountsPayable",
    "deferredRevenue",
    "currentDebt",
    "shortTermDebt",
    "totalNonCurrentLiabilities",
    "capitalLeaseObligations",
    "longTermDebt",
    "currentLongTermDebt",
    "longTermDebtNoncurrent",
    "shortLongTermDebtTotal",
    "otherCurrentLiabilities",
    "otherNonCurrentLiabilities",
    "totalShareholderEquity",
    "treasuryStock",
    "retainedEarnings",
    "commonStock",
    "commonStockSharesOutstanding"}

  /** `mapToBalanceSheetReport`: each field is `GetString` of its key. */
  function MapToReport(m: JsonObject): (r: Report)
    ensures r.fiscalDateEnding == GetString(m, "fiscalDateEnding")
    ensures r.reportedCurrency == GetString(m, "reportedCurrency")
    ensures r.totalAssets == GetString(m, "totalAssets")
    ensures r.totalCurrentAssets == GetString(m, "totalCurrentAssets")
    ensures r.cashAndCashEquivalentsAtCarryingValue == GetString(m, "cashAndCashEquivalentsAtCarryingValue")
    ensures r.cashAndShortTermInvestments == GetString(m, "cashAndShortTermInvestments")
    ensures r.inventory == GetString(m, "inventory")
    ensures r.currentNetReceivables == GetString(m, "currentNetReceivables")
    ensures r.totalNonCurrentAssets == GetString(m, "totalNonCurrentAssets")
    ensures r.propertyPlantEquipment == GetString(m, "propertyPlantEquipment")
    ensures r.accumulatedDepreciationAmortizationPPE == GetString(m, "accumulatedDepreciationAmortizationPPE")
    ensures r.intangibleAssets == GetString(m, "intangibleAssets")
    ensures r.intangibleAssetsExcludingGoodwill == GetString(m, "intangibleAssetsExcludingGoodwill")
    ensures r.goodwill == GetString(m, "goodwill")
    ensures r.investments == GetString(m, "investments")
    ensures r.longTermInvestments == GetString(m, "longTermInvestments")
    ensures r.shortTermInvestments == GetString(m, "shortTermInvestments")
    ensures r.otherCurrentAssets == GetString(m, "otherCurrentAssets")
    ensures r.otherNonCurrentAssets == GetString(m, "otherNonCurrentAssets")
    ensures r.totalLiabilities == GetString(m, "totalLiabilities")
    ensures r.totalCurrentLiabilities == GetString(m, "totalCurrentLiabilities")
    ensures r.currentAccountsPayable == GetString(m, "currentAccountsPayable")
    ensures r.deferredRevenue == GetString(m, "deferredRevenue")
    ensures r.currentDebt == GetString(m, "currentDebt")
    ensures r.shortTermDebt == GetString(m, "shortTermDebt")
    ensures r.totalNonCurrentLiabilities == GetString(m, "totalNonCurrentLiabilities")
    ensures r.capitalLeaseObligations == GetString(m, "capitalLeaseObligations")
    ensures r.longTermDebt == GetString(m, "longTermDebt")
    ensures r.currentLongTermDebt == GetString(m, "currentLongTermDebt")
    ensures r.longTermDebtNoncurrent == GetString(m, "longTermDebtNoncurrent")
    ensures r.shortLongTermDebtTotal == GetString(m, "shortLongTermDebtTotal")
    ensures r.otherCurrentLiabilities == GetString(m, "otherCurrentLiabilities")
    ensures r.otherNonCurrentLiabilities == GetString(m, "otherNonCurrentLiabilities")
    ensures r.totalShareholderEquity == GetString(m, "totalShareholderEquity")
    ensures r.treasuryStock == GetString(m, "treasuryStock")
    ensures r.retainedEarnings == GetString(m, "retainedEarnings")
    ensures r.commonStock == GetString(m, "commonStock")
    ensures r.commonStockSharesOutstanding == GetString(m, "commonStockSharesOutstanding")
  {
    Report(
      GetString(m, "fiscalDateEnding"),
      GetString(m, "reportedCurrency"),
      GetString(m, "totalAssets"),
      GetString(m, "totalCurrentAssets"),
      GetString(m, "cashAndCashEquivalentsAtCarryingValue"),
      GetString(m, "cashAndShortTermInvestments"),
      GetString(m, "inventory"),
      GetString(m, "currentNetReceivables"),
      GetString(m, "totalNonCurrentAssets"),
      GetString(m, "propertyPlantEquipment"),
      GetString(m, "accumulatedDepreciationAmortizationPPE"),
      GetString(m, "intangibleAssets"),
      GetString(m, "intangibleAssetsExcludingGoodwill"),
      GetString(m, "goodwill"),
      GetString(m, "investments"),
      GetString(m, "longTermInvestments"),
      GetString(m, "shortTermInvestments"),
      GetString(m, "otherCurrentAssets"),
      GetString(m, "otherNonCurrentAssets"),
      GetString(m, "totalLiabilities"),
      GetString(m, "totalCurrentLiabilities"),
      GetString(m, "currentAccountsPayable"),
      GetString(m, "deferredRevenue"),
      GetString(m, "currentDebt"),
      GetString(m, "shortTermDebt"),
      GetString(m, "totalNonCurrentLiabilities"),
      GetString(m, "capitalLeaseObligations"),
      GetString(m, "longTermDebt"),
      GetString(m, "currentLongTermDebt"),
      GetString(m, "longTermDebtNoncurrent"),
      GetString(m, "shortLongTermDebtTotal"),
      GetString(m, "otherCurrentLiabilities"),
      GetString(m, "otherNonCurrentLiabilities"),
      GetString(m, "totalShareholderEquity"),
      GetString(m, "treasuryStock"),
      GetString(m, "retainedEarnings"),
      GetString(m, "commonStock"),
      GetString(m, "commonStockSharesOutstanding"))
  }

  /** Only what `GetString` finds under the report keys matters: extra keys,
      and values that are not strings, make no difference beyond "". */
  lemma MapDependsOnlyOnReportKeys(m1: JsonObject, m2: JsonObject)
    requires forall k :: k in ReportKeys ==> GetString(m1, k) == GetString(m2, k)
    ensures MapToReport(m1) == MapToReport(m2)
  {
  }

  /** `BalanceSheetResponse`: the requested symbol and the reports in the
      order upstream sent them. */
  datatype Response = Response(symbol: string, annualReports: seq<Report>, quarterlyReports: seq<Report>)

  /** The object elements of an array, in order; any other element is
      dropped. */
  function Objects(elems: seq<Json>): (objs: seq<JsonObject>)
    ensures |objs| <= |elems|
  {
    if elems == [] then []
    else
      var last := elems[|elems| - 1];
      Objects(elems[..|elems| - 1]) + (if last.JObj? then [last.fields] else [])
  }

  /** Filtering distributes over concatenation, so the kept elements keep
      their relative order. */
  lemma {:induction false} ObjectsAppend(a: seq<Json>, b: seq<Json>)
    ensures Objects(a + b) == Objects(a) + Objects(b)
    decreases |b|
  {
    if b == [] {
      assert a + b == a;
    } else {
      var b' := b[..|b| - 1];
      ObjectsAppend(a, b');
      assert (a + b)[..|a + b| - 1] == a + b';
    }
  }

  /** One element: an object is kept with its fields, anything else is dropped. */
  lemma ObjectsSingleton(x: Json)
    ensures Objects([x]) == if x.JObj? then [x.fields] else []
  {
    assert [x][..0] == [];
  }

  /** Nothing is dropped from an array of objects only. */
  lemma {:induction false} ObjectsOfObjects(elems: seq<Json>)
    requires forall i :: 0 <= i < |elems| ==> elems[i].JObj?
    ensures |Objects(elems)| == |elems|
    ensures forall i :: 0 <= i < |elems| ==> Objects(elems)[i] == elems[i].fields
    decreases |elems|
  {
    if elems != [] {
      ObjectsOfObjects(elems[..|elems| - 1]);
    }
  }

  function MapAll(objs: seq<JsonObject>): (rs: seq<Report>)
    ensures |rs| == |objs|
    ensures forall i :: 0 <= i < |objs| ==> rs[i] == MapToReport(objs[i])
  {
    seq(|objs|, i requires 0 <= i < |objs| => MapToReport(objs[i]))
  }

  /** The reports under `key`: the mapped object elements of the array found
      there, or none when the key is missing or not an array. */
  function ReportList(resp: JsonObject, key: string): (rs: seq<Report>)
    ensures !(key in resp && resp[key].JArr?) ==> rs == []
    ensures key in resp && resp[key].JArr? ==> |rs| <= |resp[key].elems|
  {
    if key in resp && resp[key].JArr? then MapAll(Objects(resp[key].elems)) else []
  }

  /** One step of the report loop: the next element adds its report when it
      is an object and nothing otherwise. */
  lemma MapAllStep(elems: seq<Json>, i: nat)
    requires i < |elems|
    ensures MapAll(Objects(elems[..i + 1])) ==
      MapAll(Objects(elems[..i])) + (if elems[i].JObj? then [MapToReport(elems[i].fields)] else [])
  {
    assert elems[..i + 1][..i] == elems[..i];
  }

  /** One of the two report loops of `GetBalanceSheet`. */
  method ExtractReports(resp: JsonObject, key: string) returns (reports: seq<Report>)
    ensures reports == ReportList(resp, key)
  {
    reports := [];
    if key in resp && resp[key].JArr? {
      var elems := resp[key].elems;
      for i := 0 to |elems|
        invariant reports == MapAll(Objects(elems[..i]))
      {
        MapAllStep(elems, i);
        if elems[i].JObj? {
          reports := reports + [MapToReport(elems[i].fields)];
        }
      }
      assert elems[..|elems|] == elems;
    }
  }

  /** `GetBalanceSheet`. The query is exactly function, symbol and key; a
      client error is returned with no partial response; on success the
      symbol is the requested one, whatever the payload says, and the two
      lists are read independently. `sent` is the URL the request went to. */
  method GetBalanceSheet(symbol: string, cfg: Config.Settings, parsedBase: Result<Http.Url, string>,
                         outcome: Http.Outcome)
    returns (q: map<string, string>, sent: Option<Http.Url>, r: Result<Response, string>)
    ensures q == map["function" := "BALANCE_SHEET", "symbol" := symbol, "apikey" := cfg.alphaVantageAPIKey]
    ensures parsedBase.Err? ==> sent == None
    ensures parsedBase.Ok? ==> sent.Some? && sent.value.location == parsedBase.value.location
    ensures parsedBase.Ok? ==> sent.value.query.Keys == parsedBase.value.query.Keys + q.Keys
    ensures parsedBase.Ok? ==> forall k :: k in q ==> sent.value.query[k] == [q[k]]
    ensures parsedBase.Err? ==> r == Err(parsedBase.error)
    ensures parsedBase.Ok? && Http.Response(outcome).Err? ==> r == Err(Http.Response(outcome).error)
    ensures parsedBase.Ok? && Http.Response(outcome).Ok? ==>
      var body := Http.Response(outcome).value;
      r == Ok(Response(symbol, ReportList(body, "annualReports"), ReportList(body, "quarterlyReports")))
  {
    q := map["function" := "BALANCE_SHEET", "symbol" := symbol, "apikey" := cfg.alphaVantageAPIKey];
    var resp;
    sent, resp := Http.MakeAPIRequest(parsedBase, q, outcome);
    if resp.Err? {
      return q, sent, Err(resp.error);
    }
    var annual := ExtractReports(resp.value, "annualReports");
    var quarterly := ExtractReports(resp.value, "quarterlyReports");
    r := Ok(Response(symbol, annual, quarterly));
  }
}
