# econ: Alpha Vantage proxy and file reader, modelled in Dafny

The econ repository is a Go web service that sits in front of the Alpha
Vantage market-data API and also parses CSV and PDF files. Most of it is
glue around HTTP, JSON and PDF libraries. This project models the
deterministic rules inside that glue and proves properties of them:

- **Outbound queries.** The three copies of the time-series client each
  build a query map by conditional inserts: "interval" only for intraday,
  "adjusted" only when it is false, "extended_hours" always for intraday.
  The news-sentiment client builds its own map the same way. Each builder
  is a method over a `map<string, string>`. It is proved to meet one
  declarative rule set, `TimeSeriesQuery.Conforms` or `News.Conforms`, and
  exactly one map meets that rule set.
- **Inbound defaulting.** The time-series and news route handlers read
  their parameters from a query string with gin's `DefaultQuery` and
  `Query`. They parse booleans with `strconv.ParseBool` and the news limit
  with `strconv.Atoi`, and keep the default whenever parsing fails.
- **Request and response shaping.**
  - `common.BuildRequestURL` merges the parameters into the parsed base
    URL's query.
  - `common.MakeAPIRequest` turns a string under "Error Message" into an
    error.
  - The stock copy of that request function does no such check.
  - The income-statement fetch glues its URL together by hand and screens
    "Error Message" before "Information".
- **JSON to records.** The balance sheet and the company overview read
  every field with `getString`, which gives `""` for an absent key and for
  a value that is not a string. The balance sheet keeps only the object
  elements of its report arrays, in their upstream order.
- **Configuration.** Each config package looks up environment variables
  with defaults and initialises once, like `sync.Once`. Each is a class with
  an `initialized` flag.
- **File reader.** The model covers four parts:
  - choosing a reader by file type;
  - the sentinel errors and `%w` wrapping;
  - the PDF markup cleaner, a chain of regular-expression and `ReplaceAll`
    passes;
  - paragraph grouping, the directory filter for extracted files, the
    assembly of `ReadFromReader`'s rows (fallback row, metadata rows,
    placeholder), and the status decisions and row statistics of the two
    upload routes.

Library calls are parameters of the model. These include the HTTP
transport, the JSON decoder, `url.Parse`, pdfcpu, the file system and the
environment. An HTTP round trip is an `Http.Outcome` (transport failure,
decode failure or decoded object). The environment is a map. A PDF read is
a `PdfReader.Steps` record that says what each library step returned.

Each Go file of the core has its own module, with one exception:
`cleanPDFMarkup` in filereader/pdf_reader.go is the separate module
`PdfMarkup` (pdf_markup.dfy), and the rest of that file is `PdfReader`.
Each .dfy file is named after its Go file, with the directory added where
a name repeats or is unclear:
- alpha_time_series.dfy, api_time_series.dfy and stock_time_series.dfy
  model the three time_series.go copies, under alphavantage/timeseries,
  api/alphavantage/timeseries and stock;
- config.dfy and api_config.dfy model config/config.go and
  api/config.go;
- news.dfy models alphavantage/news/news_and_setiment.go;
- time_series_handlers.dfy, news_handlers.dfy and file_handlers.dfy model
  api/timeseries_handlers.go, alphavantage/news_and_sentiment_handlers.go
  and filereader/handlers.go.

Some modules have no Go file of their own:
- the three time-series copies share `TimeSeriesQuery`;
- gin's `DefaultQuery` and `Query`, which several handler files call, are
  modelled once in `GinQuery`;
- `Decimal` models `strconv.Atoi` and `strconv.Itoa`;
- `JsonValue` (json.dfy) models decoded JSON and `Wrappers` holds
  `Option` and `Result`.

Everything verifies together.

One behaviour worth knowing: in `cleanPDFMarkup` the operator pass runs
before the font pass. The operator pass already deletes the `Tf` of a font
declaration, so the font pattern can no longer match it. The proved result
is that `"/F1 2 Tf"` cleans to `"/F1 2"`
(`PdfMarkup.FontDeclarationSurvivesCleaning`).

## Model

| member | source | states |
|---|---|---|
| JsonValue.GetString | api/alphavantage/fundamental/company_overview.go:161-168 | A string value under the key is returned. An absent key, or a value that is a number, bool, null, array or object, gives "". |
| JsonValue.GetStringLocal | api/alphavantage/fundamental/balance_sheet.go:113-120 | Changing the entry of one key never changes what `getString` finds under another key. |
| Http.BuildRequestURL | common/http.go:11-24 | An unparseable base URL gives its error and no URL. Otherwise every parameter is bound to exactly `[value]`, overriding a same-named base key. Base keys that are not parameters keep their values, no other keys appear, and the location is unchanged. |
| Http.CheckAPIError | common/http.go:55-60 | A string `m` under "Error Message" gives the error "API error: " + m. An absent key or a non-string value returns the object unchanged. |
| Http.Response | common/http.go:43-60 | A transport or decode failure is returned as its error. A decoded object goes through the "Error Message" check. |
| Http.ResponseOkIsUncheckedBody | common/http.go:50-60 | A successful response is exactly the decoded object, and that object carries no string "Error Message". |
| Http.MakeAPIRequest | common/http.go:27-61 | A URL failure returns the error before any request is sent. Otherwise the request goes to the parsed location. Its query has the base keys plus every parameter: a parameter replaces a base key of the same name, and other base keys keep their values. The result is `Response(outcome)`. |
| Config.GetEnvWithDefault | config/config.go:36-41 | A variable that is set, even to "", gives its value. An unset variable gives the default. |
| Config.Resolve | config/config.go:25-30 | API key, version and port come from their variables with defaults "demo", "1.0" and "8080". The base URL is always the fixed Alpha Vantage URL. |
| Config.DefaultsWhenUnset | config/config.go:26-29 | With none of the three variables set, the settings are exactly ("demo", the fixed URL, "1.0", "8080"). |
| Config.ResolveDependsOnlyOnThreeVariables | config/config.go:25-30 | Two environments that agree on the three variables give the same settings, and the base URL is never read from the environment. |
| Config.ConfigStore.constructor | config/config.go:17-20 | The store starts uninitialised. |
| Config.ConfigStore.GetConfig | config/config.go:23-33 | The first call resolves the environment and stores the result. Every later call returns the stored settings unchanged, whatever the environment is then. |
| Config.GetConfigTwice | config/config.go:23-33 | Two calls with different environments both return the settings of the first environment. |
| ApiConfig.GetEnvWithDefault | api/config.go:31-36 | A set variable, even when empty, wins over the default. An unset one gives the default. |
| ApiConfig.Resolve | api/config.go:22-25 | The API key defaults to "demo" and the version to "1.0". |
| ApiConfig.ResolveDependsOnlyOnTwoVariables | api/config.go:22-25 | Setting or removing any variable other than ALPHAVANTAGE_API_KEY and API_DEFAULT_VERSION leaves the settings unchanged. |
| ApiConfig.EmptyValueWins | api/config.go:31-36 | An API-key variable set to "" gives the key "", not "demo". |
| ApiConfig.ConfigStore.constructor | api/config.go:14-17 | The store starts uninitialised. |
| ApiConfig.ConfigStore.GetConfig | api/config.go:20-28 | The first call resolves and stores the settings. Later calls return the stored settings unchanged. |
| ApiConfig.GetConfigTwice | api/config.go:20-28 | Two calls with different environments both return the settings of the first environment. |
| TimeSeriesQuery.QueryMap | alphavantage/timeseries/time_series.go:72-106 | The reference query map meets every inclusion rule of the time-series query. |
| TimeSeriesQuery.ConformsUnique | alphavantage/timeseries/time_series.go:72-106 | At most one map meets the rules for given parameters and key, so the rules fix the query completely. |
| TimeSeriesQuery.ConformsIsQueryMap | alphavantage/timeseries/time_series.go:72-106 | Any map that meets the rules is the reference map. |
| TimeSeriesQuery.NonIntradayHasNoIntradayKeys | alphavantage/timeseries/time_series.go:91-106 | For a non-intraday function, none of interval, month, adjusted or extended_hours is sent. Only function, symbol, apikey, outputsize and datatype can appear. |
| TimeSeriesQuery.AdjustedNeverTrue | alphavantage/timeseries/time_series.go:96-99 | "adjusted" is never sent as "true". |
| AlphaTimeSeries.BuildQuery | alphavantage/timeseries/time_series.go:72-106 | The conditional inserts produce a map that meets the rules. function, symbol and apikey are always present. interval appears iff it is non-empty and the function is intraday. outputsize and datatype appear iff non-empty. month, adjusted="false" and extended_hours="true"/"false" appear under the intraday rules. The key set is within the nine names. |
| ApiTimeSeries.BuildQuery | api/alphavantage/timeseries/time_series.go:43-77 | The same rules as the other copies, with the configured API key. |
| ApiTimeSeries.GetTimeSeries | api/alphavantage/timeseries/time_series.go:38-86 | The query meets the rules. A URL error, transport error, decode error or upstream "Error Message" is returned unchanged with no data. Otherwise the decoded object is the data. A request is sent only when the base URL parses: it goes to the base location with every query entry set, so `q` is what reaches the API. |
| StockTimeSeries.GetAPIKeyFromEnv | stock/time_series.go:142-149 | The key is the variable's value when it is non-empty. It is "demo" when the variable is unset or empty, and it is never "". |
| StockTimeSeries.EmptyKeyDiffersFromConfig | stock/time_series.go:142-149 | A variable set to "" gives "demo" here, while the config package gives "". |
| StockTimeSeries.BuildRequestURL | stock/time_series.go:126-139 | Every parameter is set to its value, other base keys are kept, and an unparseable base URL is an error. |
| StockTimeSeries.MakeAPIRequest | stock/time_series.go:94-123 | A URL failure means nothing is sent. Otherwise the request goes to the parsed location with every parameter set and the other base keys kept. Transport and decode failures are errors. A decoded object is returned as success even when it holds "Error Message". |
| StockTimeSeries.BuildQuery | stock/time_series.go:48-82 | The inserts meet the same rules as the other two copies. |
| StockTimeSeries.GetTimeSeries | stock/time_series.go:41-91 | The request goes to the hard-coded base URL, whatever the configuration. Its query is the rule map with the environment key. An upstream error payload is still a success. |
| TimeSeriesHandlers.ParseBool | api/timeseries_handlers.go:112-121 | Exactly 1, t, T, TRUE, true and True parse as true. Exactly 0, f, F, FALSE, false and False parse as false. Anything else is an error. |
| TimeSeriesHandlers.ToStockParams | api/timeseries_handlers.go:153-172 | Every field, Adjusted included, is copied unchanged into the stock parameters. |
| TimeSeriesHandlers.SymbolRouteParams | api/timeseries_handlers.go:48-59 | With no query, the function is TIME_SERIES_DAILY, outputsize is "compact" and datatype is "json". There is never an interval or month, and Adjusted and ExtendedHours stay false. |
| TimeSeriesHandlers.IntervalRouteParams | api/timeseries_handlers.go:97-129 | The function is always intraday. extended_hours is true only when it parses as true. adjusted is false only when present and parsing as false, so absent or unparseable keeps true. month comes from the query, defaulting to "". |
| TimeSeriesHandlers.GetTimeSeriesData | api/timeseries_handlers.go:153-172 | The stock query meets the rules for the copied parameters. The stock client's result is returned unchanged. |
| TimeSeriesHandlers.GetTimeSeriesForSymbol | api/timeseries_handlers.go:47-79 | The outbound query meets the full query rule set for the route's parameters and the environment key. Function, outputsize and datatype come from the query with the defaults TIME_SERIES_DAILY, compact and json, and nothing else is sent. An empty query gives exactly {function: TIME_SERIES_DAILY, symbol, apikey, outputsize: compact, datatype: json}. With function=TIME_SERIES_INTRADAY, adjusted="false" is sent and no interval. Success is 200 with the configured version, the symbol and an empty interval. An error is 500 with its text. |
| TimeSeriesHandlers.GetTimeSeriesWithInterval | api/timeseries_handlers.go:96-150 | The outbound function is intraday whatever the query says. The apikey is the environment key. interval is sent iff the path interval is non-empty, and then with its value. outputsize, datatype and month are sent iff their values are non-empty, with the defaults compact, json and "", and then with those values. extended_hours is always sent: "true" when the query parses as true and "false" otherwise. adjusted is sent iff the query parses as false, and then as "false". No other key is sent. Success echoes symbol and interval. An error is 500. |
| News.ConformsUnique | alphavantage/news/news_and_setiment.go:58-81 | The news query rules fix the map completely. |
| News.BuildQuery | alphavantage/news/news_and_setiment.go:58-81 | function=NEWS_SENTIMENT and apikey are always sent and "symbol" never is. Each text parameter is sent iff non-empty, verbatim. "limit" is sent iff Limit > 0, as its decimal text. |
| News.LimitRoundTrip | alphavantage/news/news_and_setiment.go:79-81 | The "limit" text sent upstream parses back to the record's Limit. |
| News.NoLimitValidation | alphavantage/news/news_and_setiment.go:76-81 | No range check is made: Limit 5000 is sent as "5000". |
| News.GetNewsAndSentiment | alphavantage/news/news_and_setiment.go:53-97 | The query meets the rules, and the fetch result is returned unchanged. |
| GinQuery.QueryValue | alphavantage/news_and_sentiment_handlers.go:36-42 | `c.Query`: a present parameter gives its value and an absent one gives "". |
| GinQuery.DefaultQuery | api/timeseries_handlers.go:49-51 | `c.DefaultQuery`: a present parameter, even "", is used. An absent one gives the default. |
| NewsHandlers.ExtractParams | alphavantage/news_and_sentiment_handlers.go:36-50 | The text parameters are copied verbatim. Limit is the parsed limit when it parses, including zero and negative values. An absent, empty or unparseable limit leaves 0. |
| NewsHandlers.GetNewsAndSentiment | alphavantage/news_and_sentiment_handlers.go:34-69 | function=NEWS_SENTIMENT and the configured apikey are always sent, and no key outside the news query names is. "limit" reaches upstream iff the query's limit parses to a positive number, and then with that value. The text parameters are passed on exactly when non-empty. Success is 200 with version "1.0" and the adapter's data. An error is 500 with its text. |
| Decimal.DigitChar | alphavantage/news/news_and_setiment.go:80 | The character of one decimal digit has that value. |
| Decimal.NatText | alphavantage/news/news_and_setiment.go:80 | A natural number's text is non-empty, all digits and has no leading zero. |
| Decimal.Itoa | alphavantage/news/news_and_setiment.go:80 | `strconv.Itoa` gives digits, with a leading '-' for a negative number. |
| Decimal.Atoi | alphavantage/news_and_sentiment_handlers.go:46 | `strconv.Atoi` accepts only 64-bit values and rejects the empty text. |
| Decimal.NatTextValue | alphavantage/news/news_and_setiment.go:80 | The digits of n read back as n. |
| Decimal.AtoiItoa | alphavantage/news_and_sentiment_handlers.go:46 | Parsing the formatted text of any 64-bit integer gives that integer back. |
| Decimal.AtoiExamples | alphavantage/news_and_sentiment_handlers.go:46-49 | "007" and "+5" parse. " 5", "5a" and "-" do not, so such a limit keeps 0. |
| BalanceSheet.MapDependsOnlyOnReportKeys | api/alphavantage/fundamental/balance_sheet.go:109-163 | Two objects that agree under the 38 camelCase report keys map to the same report. Values under any other key do not matter. |
| BalanceSheet.MapToReport | api/alphavantage/fundamental/balance_sheet.go:109-163 | Each of the 38 report fields is `getString` of its own key, such as `totalAssets` from "totalAssets". |
| BalanceSheet.Objects | api/alphavantage/fundamental/balance_sheet.go:87-91 | The kept object elements are never more than the array's elements. |
| BalanceSheet.ObjectsAppend | api/alphavantage/fundamental/balance_sheet.go:87-91 | The filter distributes over concatenation, so kept elements stay in upstream order. |
| BalanceSheet.ObjectsSingleton | api/alphavantage/fundamental/balance_sheet.go:88 | An object element is kept with its fields, and any other element is skipped. |
| BalanceSheet.ObjectsOfObjects | api/alphavantage/fundamental/balance_sheet.go:87-91 | From an array of objects only, every element is kept, in place. |
| BalanceSheet.MapAll | api/alphavantage/fundamental/balance_sheet.go:89-90 | Element i of the reports is the mapped object i. |
| BalanceSheet.ReportList | api/alphavantage/fundamental/balance_sheet.go:86-93 | A missing or non-array key gives no reports. Otherwise there are never more reports than array elements. |
| BalanceSheet.ExtractReports | api/alphavantage/fundamental/balance_sheet.go:86-103 | The append loop gives exactly the in-order mapped object elements of the array. |
| BalanceSheet.GetBalanceSheet | api/alphavantage/fundamental/balance_sheet.go:63-106 | The query is exactly {function: BALANCE_SHEET, symbol, apikey}, and a client error returns no partial response. On success, Symbol is the requested symbol whatever the upstream says. The annual and quarterly lists are extracted independently. A request is sent only when the base URL parses: it goes to the base location with every query entry set, so `q` is what reaches the API. |
| CompanyOverview.AgreeProfile | api/alphavantage/fundamental/company_overview.go:98-108 | The profile fields are read through `getString` of their own keys. |
| CompanyOverview.AgreeValuation | api/alphavantage/fundamental/company_overview.go:109-122 | The valuation fields are read through `getString` of their own keys. |
| CompanyOverview.AgreeRatios | api/alphavantage/fundamental/company_overview.go:123-135 | The growth and ratio fields are read through `getString` of their own keys. |
| CompanyOverview.AgreeShares | api/alphavantage/fundamental/company_overview.go:136-147 | Two objects that agree under the price-average and share keys, such as "52WeekHigh" and "SharesOutstanding", give the same values for those fields. |
| CompanyOverview.MapToOverview | api/alphavantage/fundamental/company_overview.go:97-155 | Each of the 57 overview fields is `getString` of its own key. The digit-led keys map to their fields: WeekHigh52 from "52WeekHigh", DayMovingAverage50 from "50DayMovingAverage". |
| CompanyOverview.AgreeDividends | api/alphavantage/fundamental/company_overview.go:148-154 | The dividend and split fields are read through `getString` of their own keys. |
| CompanyOverview.MapDependsOnlyOnOverviewKeys | api/alphavantage/fundamental/company_overview.go:97-155 | Payloads that agree under the mapped PascalCase keys give the same overview. |
| CompanyOverview.MapIgnoresOtherKeys | api/alphavantage/fundamental/company_overview.go:97-157 | Adding an upstream entry under an unmapped key changes nothing. |
| CompanyOverview.GetCompanyOverview | api/alphavantage/fundamental/company_overview.go:79-158 | The query is exactly {function: OVERVIEW, symbol, apikey}, and a client error is propagated unchanged. Symbol comes from the upstream "Symbol", so it is "" when the upstream omits it. A request is sent only when the base URL parses: it goes to the base location with every query entry set, so `q` is what reaches the API. |
| IncomeStatement.RequestUrl | stock/fundamental/income_statement.go:58-61 | The URL is base, then "/query?function=INCOME_STATEMENT&symbol=", the symbol, "&apikey=" and the key, with nothing escaped. |
| IncomeStatement.RequestUrlInjective | stock/fundamental/income_statement.go:58-61 | Among symbols of one length, equal URLs mean equal symbols and keys. |
| IncomeStatement.SymbolIsNotEscaped | stock/fundamental/income_statement.go:58-61 | A symbol carrying "&apikey=" is pasted in verbatim. |
| IncomeStatement.RequestUrlAmbiguous | stock/fundamental/income_statement.go:58-61 | Two different symbol and key pairs can give the same URL. |
| IncomeStatement.ConfiguredUrlDoublesQueryPath | stock/fundamental/income_statement.go:58 | With the configured base URL the path is ".../query/query". |
| IncomeStatement.Message | stock/fundamental/income_statement.go:66-90 | Each failure has its own text. A request failure gives "error making request to Alpha Vantage: ", a body-read failure gives "error reading response body: " and a parse failure gives "error parsing income statement data: ", each followed by the cause. A string payload gives "API error: " or "API information: " followed by the payload. |
| IncomeStatement.GetIncomeStatement | stock/fundamental/income_statement.go:63-94 | A failed `http.Get` is wrapped as a request error and a failed body read as a read error. A read body without either error key whose statement decode fails gives the parse error with the decoder's cause. A success comes only from a read body that parsed. |
| IncomeStatement.SucceedsIff | stock/fundamental/income_statement.go:76-93 | A statement is returned exactly when the body was read, parsed, and is not an object holding "Error Message" or "Information". |
| IncomeStatement.ErrorMessageFirst | stock/fundamental/income_statement.go:79-81 | "Error Message" of any type yields the API error, even when "Information" is also present. |
| IncomeStatement.InformationSecond | stock/fundamental/income_statement.go:82-84 | Without "Error Message", "Information" yields the API information error. |
| IncomeStatement.NonObjectSkipsScreen | stock/fundamental/income_statement.go:88-91 | A body that is not an object is not screened. It fails with "error parsing income statement data: " and the cause. |
| IncomeStatement.NullErrorMessageIsAnError | stock/fundamental/income_statement.go:79-81 | A null under "Error Message" still counts as present and reads "API error: &lt;nil&gt;". |
| FileErrors.WrapError | filereader/errors.go:16-18 | The text is msg + ": " + the original text, and the wrapper unwraps to the original. |
| FileErrors.Unwrap | filereader/errors.go:17 | Only a `%w` wrapper has a cause. |
| FileErrors.SentinelsDistinct | filereader/errors.go:9-13 | The three sentinels are pairwise distinct, as values under `errors.Is` and as texts. |
| FileErrors.WrapPreservesIs | filereader/errors.go:16-18 | A wrapped error matches exactly what the original matched, plus the wrapper itself. |
| FileErrors.IsImpliesTextSuffix | filereader/errors.go:16-18 | A match under `errors.Is` means the target's text ends the error's text. |
| FileInterface.NewReader | filereader/interface.go:29-38 | "csv" gives a CSV reader with the `NewCSVReader` defaults and "pdf" a PDF reader with both flags set. Every other value gives ErrUnsupportedFileType, and exactly one of a reader and an error comes back. |
| FileInterface.NewReaderIsCaseSensitive | filereader/interface.go:35-36 | "CSV", "PDF" and "" are unsupported, and the error text is "unsupported file type". |
| PdfMarkup.ReSpaceIsUnicodeSpace | filereader/pdf_reader.go:208-209 | Every RE2 `\s` character is also trimmed by `strings.TrimSpace`. |
| PdfMarkup.StripOperators | filereader/pdf_reader.go:186-187 | The operator pass only deletes characters: the result is a subsequence of the input, in order, and never longer. |
| PdfMarkup.RemoveAll | filereader/pdf_reader.go:190-197 | `ReplaceAll` with "" only deletes: the result is a subsequence of the input. A one-character pattern leaves none of that character. |
| PdfMarkup.RemoveBrackets | filereader/pdf_reader.go:190-197 | After the six bracket passes no '(', ')', '[' or ']' is left. |
| PdfMarkup.DigitsEnd | filereader/pdf_reader.go:200-205 | The greedy `\d+` run ends at the first non-digit. |
| PdfMarkup.SpacesEnd | filereader/pdf_reader.go:200-208 | The greedy `\s+` run ends at the first non-space. |
| PdfMarkup.NumberEnd | filereader/pdf_reader.go:200-205 | A match of `\d+(\.\d+)?` is non-empty and inside the text. |
| PdfMarkup.OperatorTailEnd | filereader/pdf_reader.go:200-205 | A match of `\s+T[fd]` is non-empty and inside the text. |
| PdfMarkup.MatchEnd | filereader/pdf_reader.go:200-205 | A font or position match is non-empty and inside the text. |
| PdfMarkup.StripPattern | filereader/pdf_reader.go:200-205 | The font and position passes only delete characters: the result is a subsequence of the input, in order. |
| PdfMarkup.CollapseSpaces | filereader/pdf_reader.go:208 | Every run of `\s` becomes one plain space. There are never two spaces side by side and no other white space. The non-space characters survive unchanged and in order. A leading space stays a leading space, and the length never grows. |
| PdfMarkup.CollapseAppend | filereader/pdf_reader.go:208 | The collapse works piece by piece: after a non-space character, collapsing the whole text equals collapsing each part. |
| PdfMarkup.CollapseRun | filereader/pdf_reader.go:208 | A whole run of `\s`, of any length and kind, becomes exactly one plain space before what follows it. |
| PdfMarkup.FirstNonSpace | filereader/pdf_reader.go:209 | The leading white space ends at the first character that is not white space. |
| PdfMarkup.LastNonSpaceEnd | filereader/pdf_reader.go:209 | The trailing white space starts after the last character that is not white space. |
| PdfMarkup.TrimSpace | filereader/pdf_reader.go:209 | The result is the slice between the leading and trailing white space. It has no white space at either end, and it is empty iff the text is all white space. |
| PdfMarkup.TrimSpaceIdempotent | filereader/pdf_reader.go:161 | Trimming a trimmed text changes nothing. |
| PdfMarkup.SliceKeepsSpacing | filereader/pdf_reader.go:208-209 | Trimming keeps the spacing and bracket properties of the collapsed text. |
| PdfMarkup.CleanPdfMarkup | filereader/pdf_reader.go:184-212 | The output is no longer than the input. It has no brackets, no white space at either end, no two `\s` side by side, no `\s` other than a plain space, and no newline. |
| PdfMarkup.NoNewline | filereader/pdf_reader.go:208 | Text whose only white space is plain spaces has no newline. |
| PdfMarkup.RemoveAllWithoutOccurrence | filereader/pdf_reader.go:190-197 | `ReplaceAll` leaves a text alone when a character of the pattern does not occur in it. |
| PdfMarkup.RemoveBracketsIdentity | filereader/pdf_reader.go:190-197 | The bracket passes leave a bracket-free text unchanged. |
| PdfMarkup.MatchNeedsT | filereader/pdf_reader.go:200-205 | A font or position match needs a 'T' in the text. |
| PdfMarkup.NoMatchWithoutT | filereader/pdf_reader.go:200-205 | Without a 'T' no font or position match starts anywhere. |
| PdfMarkup.StripPatternWithoutT | filereader/pdf_reader.go:200-205 | Without a 'T' the font and position passes change nothing. |
| PdfMarkup.OperatorBoundaries | filereader/pdf_reader.go:186 | `\b` after `T*` needs a following word character: "T* x" is kept and "T*x" loses its operator. |
| PdfMarkup.FontOperatorStripped | filereader/pdf_reader.go:186-187 | The operator pass deletes the `Tf` of "/F1 2 Tf". |
| PdfMarkup.FontPatternMatchesDeclaration | filereader/pdf_reader.go:200 | On its own the font pattern matches all of "/F1 2 Tf". |
| PdfMarkup.CollapseIdentity | filereader/pdf_reader.go:208 | A text already made of single plain spaces is left unchanged by the collapse. |
| PdfMarkup.LeftoverExample | filereader/pdf_reader.go:190-208 | "/F1 2 " passes the bracket, font, position and collapse stages unchanged. |
| PdfMarkup.TrimExample | filereader/pdf_reader.go:209 | Trimming "/F1 2 " gives "/F1 2". |
| PdfMarkup.FontDeclarationSurvivesCleaning | filereader/pdf_reader.go:184-212 | "/F1 2 Tf" cleans to "/F1 2": the font pattern never sees the declaration. |
| PdfReader.Split | filereader/pdf_reader.go:157 | `strings.Split` on newline gives at least one piece. No piece holds a newline, and joining the pieces with newlines gives the text back. |
| PdfReader.JoinFirst | filereader/pdf_reader.go:157 | A character in front of the first line is in front of the joined text. |
| PdfReader.TrimLines | filereader/pdf_reader.go:160-161 | Trimming keeps one entry per line. |
| PdfReader.TrimLinesTrimmed | filereader/pdf_reader.go:161 | Every line the loop sees is trimmed. |
| PdfReader.ParagraphsTrimmed | filereader/pdf_reader.go:160-180 | Every paragraph row has exactly one field, which is non-empty and trimmed. |
| PdfReader.ProcessRowsAtMostOne | filereader/pdf_reader.go:154-180 | Cleaning leaves no newline, so one piece of text gives no row when it cleans to "" and otherwise the single row holding the cleaned text. |
| PdfReader.ProcessExtractedText | filereader/pdf_reader.go:150-181 | The rows of the text are appended, and the earlier rows are unchanged. |
| PdfReader.ParagraphsLoopStep | filereader/pdf_reader.go:160-175 | One turn of the line loop keeps the emitted rows plus the rows still to come equal to the goal. |
| PdfReader.AppendParagraphs | filereader/pdf_reader.go:157-180 | Consecutive non-blank trimmed lines are joined with one space. A blank line closes the paragraph, and the last paragraph is flushed. |
| PdfReader.FlatMapAppend | filereader/pdf_reader.go:139-146 | Processing two directory listings in a row gives their rows concatenated. |
| PdfReader.FlatMapStep | filereader/pdf_reader.go:139-146 | One more file appends that file's rows to the accumulated rows. |
| PdfReader.FlatMapBound | filereader/pdf_reader.go:139-146 | When each entry gives at most one row, there are no more rows than entries. |
| PdfReader.FilesRowsAppend | filereader/pdf_reader.go:139-146 | Directory order is kept. |
| PdfReader.FilesRowsBound | filereader/pdf_reader.go:139-146 | The files never give more rows than there are entries. |
| PdfReader.SkippedEntry | filereader/pdf_reader.go:140-144 | A directory, a name not ending in ".txt" or ".content", or an unreadable file adds no rows. |
| PdfReader.ExtractTextFromFiles | filereader/pdf_reader.go:138-147 | The rows of the selected, readable files are appended in directory order. |
| PdfReader.MetadataEntryRows | filereader/pdf_reader.go:124-126 | Each metadata entry becomes ["Metadata", key, value], one row per entry, in the given order. |
| PdfReader.ReadFromReader | filereader/pdf_reader.go:46-135 | The appending code yields exactly the assembled result of its temporary-file, text and metadata phases. |
| PdfReader.ExtractText | filereader/pdf_reader.go:71-110 | The text phase yields the content-file rows, the fallback rows, or the content-directory error. |
| PdfReader.ExtractFallback | filereader/pdf_reader.go:83-99 | After a failed content extraction, the page files' rows come first. If there are none, the fallback row comes next, followed by the raw text's rows. |
| PdfReader.AppendMetadata | filereader/pdf_reader.go:113-128 | The metadata phase appends its rows to the text rows. |
| PdfReader.AssembleNeverEmpty | filereader/pdf_reader.go:130-134 | A successful read never returns an empty table. |
| PdfReader.AssembleFailsIff | filereader/pdf_reader.go:46-110 | The read fails exactly on a temporary-file failure, a temporary-directory failure or an unreadable content directory. |
| PdfReader.PlaceholderWhenNothingExtracted | filereader/pdf_reader.go:130-132 | An otherwise empty result becomes exactly [["No content extracted from PDF"]]. |
| PdfReader.FallbackPathHasRows | filereader/pdf_reader.go:93-94 | After a content-extraction failure the text phase always has rows, so the placeholder is not returned. With no page rows, the first row is the fallback row. |
| PdfReader.MetadataFailureIsARow | filereader/pdf_reader.go:115-117 | A metadata failure appends one error row and the read still succeeds. |
| PdfReader.MetadataLayout | filereader/pdf_reader.go:119-126 | The separator row appears exactly when earlier rows exist, and the entry rows follow it. |
| FileHandlers.BindFileType | filereader/handlers.go:25-27 | The required binding fails exactly when fileType is absent or empty. |
| FileHandlers.MaxColumnsIsMax | filereader/handlers.go:81-86 | No row is wider than the maximum. It is 0 for no rows and otherwise the width of some row. |
| FileHandlers.RowStats | filereader/handlers.go:80-86 | rowsCount is the number of rows. columnsMax is at least every row's width, is 0 when there are no rows, and otherwise equals some row's width. |
| FileHandlers.SuccessResponse | filereader/handlers.go:89-97 | A success is 200 with version "1.0", the echoed file type and name, the data unchanged, and its statistics. |
| FileHandlers.AfterAcceptOutcomes | filereader/handlers.go:62-97 | An unsupported type is 400 "unsupported file type" and no reader is chosen. A reader error is 500 with its text and no data. A read is 200 with the rows unchanged, their count and the widest row. |
| FileHandlers.ReadFileFromUpload | filereader/handlers.go:41-100 | A missing type is 400 with the type message, before anything else. A missing file part is then also 400. After that comes the reader choice and the read. |
| FileHandlers.ReportedFilename | filereader/handlers.go:126-129 | An absent or empty filename becomes "unknown", and the reported name is never "". |
| FileHandlers.ReadFileFromBytes | filereader/handlers.go:115-179 | A missing type is 400, then an unreadable body is 400 "Failed to read request body". After that come the reader choice and the read, reported under the filename or "unknown". |

## Left out

- HTTP transport (`http.Client.Do`, `http.Get`, `ioutil.ReadAll`): an `Http.Outcome` or `IncomeStatement.Fetch` input stands for what the round trip produced.
- `encoding/json` decoding and the struct decodes: the decoded object, or the decode error, is an input. The direct-decode adapters in alphavantage/fundamental are not part of this model.
- `url.Parse` and `Values.Encode`: the parsed base URL is an input, and a query is a map from name to values. Parameter order and percent-escaping are not modelled.
- gin routing, binding and JSON rendering: a handler is a method from a query map and path values to an outcome value.
- `time.Now` timestamps in every response envelope are not modelled.
- `sync.Once` concurrency: initialisation is modelled single-threaded, as a flag.
- pdfcpu, `os.CreateTemp`, `os.MkdirTemp`, `os.ReadDir`, `os.ReadFile`, `extractRawText` and `extractMetadata`: their outcomes are fields of `PdfReader.Steps`. What pdfcpu writes into an extracted file is content inside a `PdfReader.DirEntry`.
- PdfReader.ReadFromReader: Go's map iteration makes metadata order unspecified. The model takes the metadata as a sequence in one given order, so it proves the layout for each order rather than reasoning about permutations.
- `PDFReader.Read` and `ReadFromBytes` only open a file or wrap a byte slice before `ReadFromReader`.
- encoding/csv parsing is not modelled. Only the defaults `NewCSVReader` sets are modelled, as `FileInterface.DefaultCsv`.
- FileHandlers.ReadFileFromUpload and FileHandlers.ReadFileFromBytes: the reader's result for the request's content is an input. These methods model the decision order and the shaping, not the parsing.
- The `Error` field of `FileReadResponse` is never set by the handlers and is not modelled.
- IncomeStatement.Message: `%v` of a number, array or object under an error key is not rendered, and the message is `None` for those. Strings, booleans and null are rendered.
- FileErrors.Is compares error values structurally. Go's `errors.Is` compares with `==`, which for the wrapping `fmt.Errorf` errors is pointer identity. The two agree whenever the target is one of the three exported sentinels. The package itself never calls `errors.Is`.
- Strings are sequences of characters rather than UTF-8 bytes. `unicode.IsSpace` is modelled as its fixed set of code points.
- A nil slice and an empty slice are not told apart: both are an empty sequence.
- The float `OverallSentimentScore` and the other payload structs of the news feed: the decoded feed is an opaque value.
- The thin envelope-only handlers are not part of this model. These are the company-overview, balance-sheet, income-statement and cash-flow handlers. So are the cash-flow adapter, the route table and the example program.
- `common.GetAPIRequest`, called by two of the clients, is not part of this model. Its fetched-and-decoded result is an input.
