/** api/alphavantage/fundamental: the company-overview adapter, one struct
    literal of `getString` calls over the shared client's payload. */
module CompanyOverview {

  import opened Wrappers
  import opened JsonValue
  import Config
  import Http

  /** `CompanyOverviewResponse`: every value stays the text upstream sent. */
  datatype Overview = Overview(
    symbol: string,
    name: string,
    description: string,
    exchange: string,
    currency: string,
    country: string,
    sector: string,
    industry: string,
    address: string,
    fiscalYearEnd: string,
    latestQuarter: string,
    marketCapitalization: string,
    ebitda: string,
    peRatio: string,
    pegRatio: string,
    bookValue: string,
    dividendPerShare: string,
    dividendYield: string,
    eps: string,
    revenuePerShareTTM: string,
    profitMargin: string,
    operatingMarginTTM: string,
    returnOnAssetsTTM: string,
    returnOnEquityTTM: string,
    revenueTTM: string,
    grossProfitTTM: string,
    dilutedEPSTTM: string,
    quarterlyEarningsGrowthYOY: string,
    quarterlyRevenueGrowthYOY: string,
    analystTargetPrice: string,
    trailingPE: string,
    forwardPE: string,
    priceToSalesRatioTTM: string,
    priceToBookRatio: string,
    evToRevenue: string,
    evToEBITDA: string,
    beta: string,
    weekHigh52: string,
    weekLow52: string,
    dayMovingAverage50: string,
    dayMovingAverage200: string,
    sharesOutstanding: string,
    sharesFloat: string,
    sharesShort: string,
    sharesShortPriorMonth: string,
    shortRatio: string,
    shortPercentOutstanding: string,
    shortPercentFloat: string,
    percentInsiders: string,
    percentInstitutions: string,
    forwardAnnualDividendRate: string,
    forwardAnnualDividendYield: string,
    payoutRatio: string,
    dividendDate: string,
    exDividendDate: string,
    lastSplitFactor: string,
    lastSplitDate: string)

  /** The upstream keys the overview is read from (PascalCase, and the four
      that start with a digit such as "52WeekHigh"), in the order of the
      struct, five groups at a time. */
  const OverviewKeys: set<string> :=
    ProfileKeys + ValuationKeys + RatiosKeys + SharesKeys + DividendsKeys

  const ProfileKeys: set<string> := {
    "Symbol",
    "Name",
    "Description",
    "Exchange",
    "Currency",
    "Country",
    "Sector",
    "Industry",
    "Address",
    "FiscalYearEnd",
    "LatestQuarter",
    "MarketCapitalization"}

  const ValuationKeys: set<string> := {
    "EBITDA",
    "PERatio",
    "PEGRatio",
    "BookValue",
    "DividendPerShare",
    "DividendYield",
    "EPS",
    "RevenuePerShareTTM",
    "ProfitMargin",
    "OperatingMarginTTM",
    "ReturnOnAssetsTTM",
    "ReturnOnEquityTTM"}

  const RatiosKeys: set<string> := {
    "RevenueTTM",
    "GrossProfitTTM",
    "DilutedEPSTTM",
    "QuarterlyEarningsGrowthYOY",
    "QuarterlyRevenueGrowthYOY",
    "AnalystTargetPrice",
    "TrailingPE",
    "ForwardPE",
    "PriceToSalesRatioTTM",
    "PriceToBookRatio",
    "EVToRevenue",
    "EVToEBITDA"}

  const SharesKeys: set<string> := {
    "Beta",
    "52WeekHigh",
    "52WeekLow",
    "50DayMovingAverage",
    "200DayMovingAverage",
    "SharesOutstanding",
    "SharesFloat",
    "SharesShort",
    "SharesShortPriorMonth",
    "ShortRatio",
    "ShortPercentOutstanding",
    "ShortPercentFloat"}

  const DividendsKeys: set<string> := {
    "PercentInsiders",
    "PercentInstitutions",
    "ForwardAnnualDividendRate",
    "ForwardAnnualDividendYield",
    "PayoutRatio",
    "DividendDate",
    "ExDividendDate",
    "LastSplitFactor",
    "LastSplitDate"}

  /** The struct literal of `GetCompanyOverview`: each field is `GetString`
      of its upstream key. */
  function MapToOverview(m: JsonObject): (o: Overview)
    ensures o.symbol == GetString(m, "Symbol")
    ensures o.name == GetString(m, "Name")
    ensures o.description == GetString(m, "Description")
    ensures o.exchange == GetString(m, "Exchange")
    ensures o.currency == GetString(m, "Currency")
    ensures o.country == GetString(m, "Country")
    ensures o.sector == GetString(m, "Sector")
    ensures o.industry == GetString(m, "Industry")
    ensures o.address == GetString(m, "Address")
    ensures o.fiscalYearEnd == GetString(m, "FiscalYearEnd")
    ensures o.latestQuarter == GetString(m, "LatestQuarter")
    ensures o.marketCapitalization == GetString(m, "MarketCapitalization")
    ensures o.ebitda == GetString(m, "EBITDA")
    ensures o.peRatio == GetString(m, "PERatio")
    ensures o.pegRatio == GetString(m, "PEGRatio")
    ensures o.bookValue == GetString(m, "BookValue")
    ensures o.dividendPerShare == GetString(m, "DividendPerShare")
    ensures o.dividendYield == GetString(m, "DividendYield")
    ensures o.eps == GetString(m, "EPS")
    ensures o.revenuePerShareTTM == GetString(m, "RevenuePerShareTTM")
    ensures o.profitMargin == GetString(m, "ProfitMargin")
    ensures o.operatingMarginTTM == GetString(m, "OperatingMarginTTM")
    ensures o.returnOnAssetsTTM == GetString(m, "ReturnOnAssetsTTM")
    ensures o.returnOnEquityTTM == GetString(m, "ReturnOnEquityTTM")
    ensures o.revenueTTM == GetString(m, "RevenueTTM")
    ensures o.grossProfitTTM == GetString(m, "GrossProfitTTM")
    ensures o.dilutedEPSTTM == GetString(m, "DilutedEPSTTM")
    ensures o.quarterlyEarningsGrowthYOY == GetString(m, "QuarterlyEarningsGrowthYOY")
    ensures o.quarterlyRevenueGrowthYOY == GetString(m, "QuarterlyRevenueGrowthYOY")
    ensures o.analystTargetPrice == GetString(m, "AnalystTargetPrice")
    ensures o.trailingPE == GetString(m, "TrailingPE")
    ensures o.forwardPE == GetString(m, "ForwardPE")
    ensures o.priceToSalesRatioTTM == GetString(m, "PriceToSalesRatioTTM")
    ensures o.priceToBookRatio == GetString(m, "PriceToBookRatio")
    ensures o.evToRevenue == GetString(m, "EVToRevenue")
    ensures o.evToEBITDA == GetString(m, "EVToEBITDA")
    ensures o.beta == GetString(m, "Beta")
    ensures o.weekHigh52 == GetString(m, "52WeekHigh")
    ensures o.weekLow52 == GetString(m, "52WeekLow")
    ensures o.dayMovingAverage50 == GetString(m, "50DayMovingAverage")
    ensures o.dayMovingAverage200 == GetString(m, "200DayMovingAverage")
    ensures o.sharesOutstanding == GetString(m, "SharesOutstanding")
    ensures o.sharesFloat == GetString(m, "SharesFloat")
    ensures o.sharesShort == GetString(m, "SharesShort")
    ensures o.sharesShortPriorMonth == GetString(m, "SharesShortPriorMonth")
    ensures o.shortRatio == GetString(m, "ShortRatio")
    ensures o.shortPercentOutstanding == GetString(m, "ShortPercentOutstanding")
    ensures o.shortPercentFloat == GetString(m, "ShortPercentFloat")
    ensures o.percentInsiders == GetString(m, "PercentInsiders")
    ensures o.percentInstitutions == GetString(m, "PercentInstitutions")
    ensures o.forwardAnnualDividendRate == GetString(m, "ForwardAnnualDividendRate")
    ensures o.forwardAnnualDividendYield == GetString(m, "ForwardAnnualDividendYield")
    ensures o.payoutRatio == GetString(m, "PayoutRatio")
    ensures o.dividendDate == GetString(m, "DividendDate")
    ensures o.exDividendDate == GetString(m, "ExDividendDate")
    ensures o.lastSplitFactor == GetString(m, "LastSplitFactor")
    ensures o.lastSplitDate == GetString(m, "LastSplitDate")
  {
    Overview(
      GetString(m, "Symbol"),
      GetString(m, "Name"),
      GetString(m, "Description"),
      GetString(m, "Exchange"),
      GetString(m, "Currency"),
      GetString(m, "Country"),
      GetString(m, "Sector"),
      GetString(m, "Industry"),
      GetString(m, "Address"),
      GetString(m, "FiscalYearEnd"),
      GetString(m, "LatestQuarter"),
      GetString(m, "MarketCapitalization"),
      GetString(m, "EBITDA"),
      GetString(m, "PERatio"),
      GetString(m, "PEGRatio"),
      GetString(m, "BookValue"),
      GetString(m, "DividendPerShare"),
      GetString(m, "DividendYield"),
      GetString(m, "EPS"),
      GetString(m, "RevenuePerShareTTM"),
      GetString(m, "ProfitMargin"),
      GetString(m, "OperatingMarginTTM"),
      GetString(m, "ReturnOnAssetsTTM"),
      GetString(m, "ReturnOnEquityTTM"),
      GetString(m, "RevenueTTM"),
      GetString(m, "GrossProfitTTM"),
      GetString(m, "DilutedEPSTTM"),
      GetString(m, "QuarterlyEarningsGrowthYOY"),
      GetString(m, "QuarterlyRevenueGrowthYOY"),
      GetString(m, "AnalystTargetPrice"),
      GetString(m, "TrailingPE"),
      GetString(m, "ForwardPE"),
      GetString(m, "PriceToSalesRatioTTM"),
      GetString(m, "PriceToBookRatio"),
      GetString(m, "EVToRevenue"),
      GetString(m, "EVToEBITDA"),
      GetString(m, "Beta"),
      GetString(m, "52WeekHigh"),
      GetString(m, "52WeekLow"),
      GetString(m, "50DayMovingAverage"),
      GetString(m, "200DayMovingAverage"),
      GetString(m, "SharesOutstanding"),
      GetString(m, "SharesFloat"),
      GetString(m, "SharesShort"),
      GetString(m, "SharesShortPriorMonth"),
      GetString(m, "ShortRatio"),
      GetString(m, "ShortPercentOutstanding"),
      GetString(m, "ShortPercentFloat"),
      GetString(m, "PercentInsiders"),
      GetString(m, "PercentInstitutions"),
      GetString(m, "ForwardAnnualDividendRate"),
      GetString(m, "ForwardAnnualDividendYield"),
      GetString(m, "PayoutRatio"),
      GetString(m, "DividendDate"),
      GetString(m, "ExDividendDate"),
      GetString(m, "LastSplitFactor"),
      GetString(m, "LastSplitDate"))
  }

  /** Two payloads that agree, through `GetString`, on every key of `keys`. */
  ghost predicate AgreeOn(m1: JsonObject, m2: JsonObject, keys: set<string>) {
    forall k {:trigger GetString(m1, k)} :: k in keys ==> GetString(m1, k) == GetString(m2, k)
  }

  /* The dependency lemma below, one group of fields at a time. */
  lemma AgreeProfile(m1: JsonObject, m2: JsonObject)
    requires AgreeOn(m1, m2, ProfileKeys)
    ensures var o1, o2 := MapToOverview(m1), MapToOverview(m2);
      o1.symbol == o2.symbol &&
      o1.name == o2.name &&
      o1.description == o2.description &&
      o1.exchange == o2.exchange &&
      o1.currency == o2.currency &&
      o1.country == o2.country &&
      o1.sector == o2.sector &&
      o1.industry == o2.industry &&
      o1.address == o2.address &&
      o1.fiscalYearEnd == o2.fiscalYearEnd &&
      o1.latestQuarter == o2.latestQuarter &&
      o1.marketCapitalization == o2.marketCapitalization
  {
  }

  lemma AgreeValuation(m1: JsonObject, m2: JsonObject)
    requires AgreeOn(m1, m2, ValuationKeys)
    ensures var o1, o2 := MapToOverview(m1), MapToOverview(m2);
      o1.ebitda == o2.ebitda &&
      o1.peRatio == o2.peRatio &&
      o1.pegRatio == o2.pegRatio &&
      o1.bookValue == o2.bookValue &&
      o1.dividendPerShare == o2.dividendPerShare &&
      o1.dividendYield == o2.dividendYield &&
      o1.eps == o2.eps &&
      o1.revenuePerShareTTM == o2.revenuePerShareTTM &&
      o1.profitMargin == o2.profitMargin &&
      o1.operatingMarginTTM == o2.operatingMarginTTM &&
      o1.returnOnAssetsTTM == o2.returnOnAssetsTTM &&
      o1.returnOnEquityTTM == o2.returnOnEquityTTM
  {
  }

  lemma AgreeRatios(m1: JsonObject, m2: JsonObject)
    requires AgreeOn(m1, m2, RatiosKeys)
    ensures var o1, o2 := MapToOverview(m1), MapToOverview(m2);
      o1.revenueTTM == o2.revenueTTM &&
      o1.grossProfitTTM == o2.grossProfitTTM &&
      o1.dilutedEPSTTM == o2.dilutedEPSTTM &&
      o1.quarterlyEarningsGrowthYOY == o2.quarterlyEarningsGrowthYOY &&
      o1.quarterlyRevenueGrowthYOY == o2.quarterlyRevenueGrowthYOY &&
      o1.analystTargetPrice == o2.analystTargetPrice &&
      o1.trailingPE == o2.trailingPE &&
      o1.forwardPE == o2.forwardPE &&
      o1.priceToSalesRatioTTM == o2.priceToSalesRatioTTM &&
      o1.priceToBookRatio == o2.priceToBookRatio &&
      o1.evToRevenue == o2.evToRevenue &&
      o1.evToEBITDA == o2.evToEBITDA
  {
  }

  lemma AgreeShares(m1: JsonObject, m2: JsonObject)
    requires AgreeOn(m1, m2, SharesKeys)
    ensures var o1, o2 := MapToOverview(m1), MapToOverview(m2);
      o1.beta == o2.beta &&
      o1.weekHigh52 == o2.weekHigh52 &&
      o1.weekLow52 == o2.weekLow52 &&
      o1.dayMovingAverage50 == o2.dayMovingAverage50 &&
      o1.dayMovingAverage200 == o2.dayMovingAverage200 &&
      o1.sharesOutstanding == o2.sharesOutstanding &&
      o1.sharesFloat == o2.sharesFloat &&
      o1.sharesShort == o2.sharesShort &&
      o1.sharesShortPriorMonth == o2.sharesShortPriorMonth &&
      o1.shortRatio == o2.shortRatio &&
      o1.shortPercentOutstanding == o2.shortPercentOutstanding &&
      o1.shortPercentFloat == o2.shortPercentFloat
  {
  }

  lemma AgreeDividends(m1: JsonObject, m2: JsonObject)
    requires AgreeOn(m1, m2, DividendsKeys)
    ensures var o1, o2 := MapToOverview(m1), MapToOverview(m2);
      o1.percentInsiders == o2.percentInsiders &&
      o1.percentInstitutions == o2.percentInstitutions &&
      o1.forwardAnnualDividendRate == o2.forwardAnnualDividendRate &&
      o1.forwardAnnualDividendYield == o2.forwardAnnualDividendYield &&
      o1.payoutRatio == o2.payoutRatio &&
      o1.dividendDate == o2.dividendDate &&
      o1.exDividendDate == o2.exDividendDate &&
      o1.lastSplitFactor == o2.lastSplitFactor &&
      o1.lastSplitDate == o2.lastSplitDate
  {
  }

  /** Only what `GetString` finds under the overview keys matters: upstream
      keys outside the mapping are ignored. */
  lemma MapDependsOnlyOnOverviewKeys(m1: JsonObject, m2: JsonObject)
    requires AgreeOn(m1, m2, OverviewKeys)
    ensures MapToOverview(m1) == MapToOverview(m2)
  {
    AgreeProfile(m1, m2);
    AgreeValuation(m1, m2);
    AgreeRatios(m1, m2);
    AgreeShares(m1, m2);
    AgreeDividends(m1, m2);
  }

  /** Adding an entry under a key outside the mapping changes nothing. */
  lemma MapIgnoresOtherKeys(m: JsonObject, k: string, v: Json)
    requires k !in OverviewKeys
    ensures MapToOverview(m[k := v]) == MapToOverview(m)
  {
    forall key | key in OverviewKeys
      ensures GetString(m[k := v], key) == GetString(m, key)
    {
      GetStringLocal(m, k, v, key);
    }
    MapDependsOnlyOnOverviewKeys(m[k := v], m);
  }

  /** `GetCompanyOverview`. The query is exactly function, symbol and key; a
      client error is propagated unchanged; on success the overview is the
      mapping of the payload, so its symbol is upstream's "Symbol" (empty
      when upstream omits it) and not the requested one. `sent` is the URL
      the request went to. */
  method GetCompanyOverview(symbol: string, cfg: Config.Settings, parsedBase: Result<Http.Url, string>,
                            outcome: Http.Outcome)
    returns (q: map<string, string>, sent: Option<Http.Url>, r: Result<Overview, string>)
    ensures q == map["function" := "OVERVIEW", "symbol" := symbol, "apikey" := cfg.alphaVantageAPIKey]
    ensures parsedBase.Err? ==> sent == None
    ensures parsedBase.Ok? ==> sent.Some? && sent.value.location == parsedBase.value.location
    ensures parsedBase.Ok? ==> sent.value.query.Keys == parsedBase.value.query.Keys + q.Keys
    ensures parsedBase.Ok? ==> forall k :: k in q ==> sent.value.query[k] == [q[k]]
    ensures parsedBase.Err? ==> r == Err(parsedBase.error)
    ensures parsedBase.Ok? && Http.Response(outcome).Err? ==> r == Err(Http.Response(outcome).error)
    ensures parsedBase.Ok? && Http.Response(outcome).Ok? ==>
      r == Ok(MapToOverview(Http.Response(outcome).value))
    ensures parsedBase.Ok? && outcome.Decoded? && r.Ok? ==> r.value.symbol == GetString(outcome.body, "Symbol")
    ensures parsedBase.Ok? && outcome.Decoded? && "Symbol" !in outcome.body && r.Ok? ==> r.value.symbol == ""
  {
    q := map["function" := "OVERVIEW", "symbol" := symbol, "apikey" := cfg.alphaVantageAPIKey];
    var resp;
    sent, resp := Http.MakeAPIRequest(parsedBase, q, outcome);
    if resp.Err? {
      return q, sent, Err(resp.error);
    }
    r := Ok(MapToOverview(resp.value));
  }
}
