# DART lookup layer: a Dafny model

This project models the lookup layer of a tool server that answers questions about Korean companies. It gets its data from the DART corporate-registry API. It covers two source files.

`src/tools.py`:
- credential resolution;
- the company-name search and the two ways a search result is narrowed to one company;
- normalisation of the company identifier (`corp_code`);
- the candidate-year list and the year-by-year retry of the financial-statement lookup;
- the cache check and cache write of every lookup;
- `xml_to_dict`;
- the multi-year trend analysis;
- the file-format guard of the document download.

`src/main.py`:
- `temporary_env`, which overrides environment variables for one call;
- how the HTTP route extracts credentials from the request body;
- its in-place `convert_to_str` coercion;
- its required-parameter checks.

The modules follow that structure:

- `Text`: the Python string operations the code relies on: `strip`, `lower`, `in`, `isdigit`, `zfill` and `str(int)`.
- `Values`: request and reply values, with Python truthiness and `str()`.
- `Credentials`: `get_credentials`.
- `Registry`:
  - the search filter loop: the method `SearchMatches`, against `FilterMatches`;
  - the two selection loops (`SelectForFinancial`, `SelectListedFirst`), specified by `FinancialChoice` and `ListedFirstChoice`.
- `Identifier`: `corp_code` normalisation.
- `Years`: `years_to_try`.
- `XmlDoc`: `xml_to_dict`, both as a method that builds the dictionary in place and as the function `Convert`.
- `Upstream`: the requests sent and the replies received. Replies are inputs.
- `Lookup`: every lookup as a function. It maps the caches it touches and the upstream replies to the result, the caches as they are left, and the requests sent, in order.
- `LookupProps`: what the lookups guarantee:
  - cache soundness;
  - the year-retry outcome;
  - repeat calls answered from the cache;
  - selection priority;
  - requests sent;
  - which trend years are collected.
- `LookupService`: the same lookups as a class whose eight cache fields the methods update in place. Each method is proved to agree with its `Lookup` function.
- `Environment`: `temporary_env` over a `ProcessEnv` object, with its entry and exit loops.
- `HttpAdapter`:
  - credential extraction;
  - the key masking, which fails every call for a truthy key that is not a string;
  - `convert_to_str` on a `Request` object;
  - the tool dispatch of `call_tool_http`.

Where the code and its design description disagree, the model follows the code:
- There is no input validation and no caching of failures.
- There is no retrying HTTP client.
- The shareholders lookup does not fall back to other years.
- The disclosure lookup does not normalise `corp_code`.
- A financial statement found under a fallback year is cached under the year that succeeded, not the year requested.

Errors are modelled as constructors of `LookupError`, one per message the code can produce, rather than as the Korean message text. The adapter's user-facing error strings are kept verbatim.

The executives route of `call_tool_http` (src/main.py:467-478) passes year parameters to `get_executives`. That function accepts only `corp_code`, `company_name` and `arguments` (src/tools.py:783). The call therefore raises, and the handler answers with its generic error. The model's `Route` gives `CallFailed` for this case. The executives lookup itself is modelled with the three parameters it actually has.

## Model

| member | source | states |
|---|---|---|
| Credentials.GetCredentials | src/tools.py:38-79 | a truthy string override in `arguments["env"]["DART_API_KEY"]` wins. A truthy non-string override makes the call fail. Otherwise the key is the environment variable's value, or `""` when it is unset |
| Credentials.EmptyKeyWhenNoSource | src/tools.py:50-62 | the key is empty exactly when there is no truthy override and the environment gives no non-empty key |
| Text.StripShape | src/tools.py:250 | `strip()` returns the slice left when white space is removed from both ends. The result neither starts nor ends with white space |
| Text.StripIdempotent | src/tools.py:250 | stripping twice is the same as stripping once |
| Text.ZFill | src/tools.py:252 | `zfill(width)` pads with zeros on the left up to `width` and never shortens; the original string is the result's suffix |
| Text.NatToStringDigits | src/tools.py:279 | `str(n)` is a non-empty digit string that denotes `n` |
| Text.IntToStringInjective | src/tools.py:279 | distinct years have distinct decimal renderings |
| Identifier.NormalizePadsShortCodes | src/tools.py:250-252 | a code of at most eight digits becomes exactly eight digits: leading zeros, then the code. It denotes the same number |
| Identifier.NormalizeKeepsLongCodes | src/tools.py:250-252 | a digit code longer than eight characters is only stripped, never truncated |
| Identifier.NormalizeOnlyStripsOthers | src/tools.py:250-252 | a code that is not all digits is only stripped |
| Identifier.NormalizeYieldsNormalized | src/tools.py:250-252 | normalisation yields a normalised code: no surrounding white space, and at least eight places when all digits |
| Identifier.NormalizedIsFixed | src/tools.py:250-252 | normalisation leaves an already normalised code unchanged |
| Identifier.NormalizeIdempotent | src/tools.py:250-252 | normalising twice is the same as normalising once |
| Years.YearsToTryShape | src/tools.py:275-279 | the requested year comes first, followed by the recent years other than it. There are no duplicates. The list has 3 candidates when the request is one of the recent years, otherwise 4 |
| Years.YearsToTryOrder | src/tools.py:277-279 | a requested year outside the recent years comes before all three of them in order. A requested year that is one of them comes first, followed by the other two in their order |
| Years.DefaultYearCandidates | src/tools.py:258-283 | with the default year (last year), the candidates are exactly the three most recent years |
| Years.RecentYearsDistinct | src/tools.py:283 | the three recent years are pairwise distinct |
| Registry.FilterMatches | src/tools.py:146-170 | the result keeps exactly the entries with a non-empty name that contains the query, ignoring case |
| Registry.FilterMatchesAppend | src/tools.py:152-165 | filtering a concatenation is the same as concatenating the filtered parts, so order is kept |
| Registry.SearchMatches | src/tools.py:146-170 | the append loop yields the filtered entries in source order |
| Registry.FinancialChoicePriority | src/tools.py:216-236 | with a listed exact match, the choice is the last one. Without one but with an exact match, the choice is the last exact match, which is unlisted. Without any exact match, it is the first listed entry, or the first entry when none is listed |
| Registry.SelectForFinancial | src/tools.py:216-236 | the selection loop picks the entry `FinancialChoice` names |
| Registry.ListedFirstChoicePriority | src/tools.py:490-498 | the choice is the first entry whose stripped `stock_code` is non-blank when there is one, else the first entry |
| Registry.SelectListedFirst | src/tools.py:490-498 | the selection loop picks the entry `ListedFirstChoice` names |
| XmlDoc.XmlToDict | src/tools.py:723-738 | the in-place build of the dictionary gives `Convert(e)` |
| XmlDoc.TaggedEntry | src/tools.py:730-737 | a tag no child has gets no entry. A tag seen once maps to that child's dictionary. A repeated tag maps to the list of its children in document order |
| XmlDoc.UntaggedKeyKept | src/tools.py:724-737 | a key that no child's tag equals keeps its base entry |
| XmlDoc.ConvertKeys | src/tools.py:724-737 | the keys are `text` and `attributes` entries and child tags, nothing else |
| XmlDoc.TextEntry | src/tools.py:725-726 | `text` is present exactly when the element's stripped text is non-empty, and then holds that text |
| XmlDoc.AttributesEntry | src/tools.py:727-728 | `attributes` is present exactly when the element has attributes, and then holds them |
| LookupProps.ClassifyCases | src/tools.py:303-336 | a year yields data exactly on status `000` with a non-empty list. An empty list, status `013`, any other status and a request failure each give their own error |
| LookupProps.YearLoopFindsFirst | src/tools.py:285-320 | the first succeeding year wins. Only it is cached, and only the requests up to it are sent |
| LookupProps.YearLoopExhausts | src/tools.py:285-340 | when no year succeeds, the result is a not-found error carrying the last year's error. The cache is unchanged and every year is requested |
| LookupProps.YearLoopOutcome | src/tools.py:285-340 | the loop's whole outcome is decided by the first succeeding year, or by there being none |
| LookupProps.DistinctYearQueries | src/tools.py:285-300 | the requests for distinct years are distinct |
| LookupProps.YearLoopSound | src/tools.py:285-320 | the loop keeps the cache sound. A success is cached under the found year |
| LookupProps.FetchFinancialSound | src/tools.py:246-340 | the normalised code is looked up. A success is for one of the candidate years, and the cache afterwards is the old cache plus exactly that entry under the found year. A failure leaves the cache unchanged. An empty code gives the identifier-required error |
| LookupProps.YearLoopRequestCount | src/tools.py:285-340 | the loop sends between one request and one per year, always a prefix of the candidate years |
| LookupProps.FetchFinancialRequests | src/tools.py:258-340 | on a cache miss, at most four requests go out, all distinct, starting with the requested year |
| LookupProps.FallbackCachedUnderFoundYear | src/tools.py:258-319 | data found under a fallback year is not cached under the requested year |
| LookupProps.FetchFinancialRepeat | src/tools.py:258-263 | after a success for the requested year, the same call is answered from the cache with no request |
| LookupProps.SearchSound | src/tools.py:96-176 | a cache hit is returned unchanged with no request. A miss sends one registry request and returns the filtered list with its count; the cache afterwards is the old cache plus exactly that entry under the query |
| LookupProps.SearchWithoutKey | src/tools.py:102-106 | on a cache miss without an API key, the search fails and sends nothing |
| LookupProps.ResolveSound | src/tools.py:204-243 | a given code is used as is. A name resolves to the selected entry's non-empty code from the cached search |
| LookupProps.ResolveRepeat | src/tools.py:96-100 | a successful resolution is repeated from the cache with no request |
| LookupProps.IdentifierRequiredEverywhere | src/tools.py:245-246 | with neither code nor name, the financial, overview, major-report, executives and shareholders lookups fail at once. No cache changes and nothing is sent |
| LookupProps.FinancialSound | src/tools.py:190-340 | both caches stay sound. A result has normalised code, a candidate year and non-empty data, and is cached. A failure leaves the statement cache unchanged |
| LookupProps.FinancialRepeat | src/tools.py:256-263 | a success for the requested year is answered from the caches on repeat |
| LookupProps.DisclosureSound | src/tools.py:343-417 | at most one request goes out. A result leaves the old cache plus exactly that entry under (code, range, page, count). A repeat comes from the cache. A failure leaves the cache unchanged |
| LookupProps.FetchOverviewSound | src/tools.py:507-555 | at most one request goes out. A result is for the normalised code and leaves the old cache plus exactly that entry under it. A failure leaves the cache unchanged |
| LookupProps.OverviewSound | src/tools.py:465-560 | the caches stay sound. The result's code is normalised. A failure leaves the overview cache unchanged |
| LookupProps.OverviewRepeat | src/tools.py:517-521 | after a success, the same request is answered from the caches with no request |
| LookupProps.FetchMajorReportSound | src/tools.py:609-667 | at most one request goes out. A result leaves the old cache plus exactly that entry under (code, begin, end). A failure leaves the cache unchanged |
| LookupProps.MajorReportSound | src/tools.py:563-672 | the result's dates are the requested range (defaulting to the last 30 days). The code is normalised. A failure leaves the report cache unchanged |
| LookupProps.MajorReportRepeat | src/tools.py:625-629 | after a success, the same request is answered from the caches with no request |
| LookupProps.DocumentSound | src/tools.py:689-773 | a format other than `xml` or `pdf` is refused before any request or cache access. A download leaves the old cache plus exactly that entry under (receipt number, format), and a repeat comes from the cache |
| LookupProps.DocumentBody | src/tools.py:716-758 | a well-formed XML document carries `xml_to_dict` of its root. A malformed one carries the parse error. Both keep the text and size |
| LookupProps.FetchExecutivesSound | src/tools.py:825-873 | at most one request goes out. A result leaves the old cache plus exactly that entry under the normalised code. A failure leaves the cache unchanged |
| LookupProps.ExecutivesSound | src/tools.py:783-878 | the caches stay sound. The code is normalised. A failure leaves the executives cache unchanged |
| LookupProps.ExecutivesRepeat | src/tools.py:835-839 | after a success, the same request is answered from the caches with no request |
| LookupProps.FetchShareholdersSound | src/tools.py:927-983 | at most one request goes out. A result leaves the old cache plus exactly that entry under (code, year, report code). A failure leaves the cache unchanged |
| LookupProps.ShareholdersSound | src/tools.py:881-989 | the result carries the requested year and report code. The code is normalised. A failure leaves the shareholder cache unchanged |
| LookupProps.ShareholdersRepeat | src/tools.py:941-945 | after a success, the same request is answered from the caches with no request |
| LookupProps.TrendFoldStep | src/tools.py:443-450 | an iteration keeps the entries so far as a prefix. It appends exactly one entry when its statement lookup succeeds, carrying that iteration's year and the statement's data, and none when it fails |
| LookupProps.TrendFoldYears | src/tools.py:443-450 | the collected years are among the requested years and are pairwise distinct |
| LookupProps.TrendFoldSound | src/tools.py:443-450 | the caches stay sound. There are at most `n` entries, each with non-empty data |
| LookupProps.TrendFoldCollects | src/tools.py:443-450 | every iteration whose statement lookup succeeded has its entry in the final list. The year of every iteration whose lookup failed is absent from it |
| LookupProps.TrendSound | src/tools.py:420-462 | without an API key, the call fails and changes nothing. Otherwise `years_analyzed` is the entry count, at most `years`. Entries have distinct requested years and non-empty data. A year is reported exactly when its statement lookup succeeded |
| LookupService.Service.constructor | src/tools.py:28-35 | all eight caches start empty and sound |
| LookupService.Service.SearchCompany | src/tools.py:82-187 | the method's result, search cache and requests are those of `SearchRun` |
| LookupService.Service.Resolve | src/tools.py:204-243 | agrees with `ResolveRun` |
| LookupService.Service.TryYears | src/tools.py:285-340 | the retry loop agrees with `YearLoop` |
| LookupService.Service.FetchFinancialStatement | src/tools.py:246-340 | agrees with `FetchFinancial` |
| LookupService.Service.FinancialStatement | src/tools.py:190-340 | agrees with `FinancialRun` and keeps both caches sound |
| LookupService.Service.PublicDisclosure | src/tools.py:343-417 | agrees with `DisclosureRun` and keeps its cache sound |
| LookupService.Service.FinancialTrend | src/tools.py:420-462 | agrees with `TrendRun` and keeps both caches sound |
| LookupService.Service.CollectTrend | src/tools.py:443-450 | the year loop agrees with `TrendFold` |
| LookupService.Service.CompanyOverview | src/tools.py:465-560 | agrees with `OverviewRun` and keeps the caches sound |
| LookupService.Service.MajorReport | src/tools.py:563-672 | agrees with `MajorReportRun` and keeps the caches sound |
| LookupService.Service.DownloadDocument | src/tools.py:675-780 | agrees with `DocumentRun` and keeps its cache sound |
| LookupService.Service.ExecutiveList | src/tools.py:783-878 | agrees with `ExecutivesRun` and keeps the caches sound |
| LookupService.Service.ShareholderList | src/tools.py:881-989 | agrees with `ShareholdersRun` and keeps the caches sound |
| Environment.AppliedValue | src/main.py:217-220 | inside the block, a key with a non-`None` override holds `str(value)`. A `None` override, and any key not overridden, keeps its prior value |
| Environment.RestoredValue | src/main.py:222-227 | after the `finally` loop, each saved key holds its saved value, or is absent when that was `None`. Other keys keep the block's values |
| Environment.SavedKeys | src/main.py:217-218 | `saved_values` names exactly the overridden keys, each once |
| Environment.RestoredAfterBlock | src/main.py:214-227 | whatever the block did, on exit overridden keys are back to their values from before the block, or removed again if they had none. Other keys keep the block's values |
| Environment.RoundTrip | src/main.py:214-227 | when the block changes nothing else, leaving it restores exactly the environment it entered with |
| Environment.ProcessEnv.Enter | src/main.py:216-220 | the entry loop saves each key's value before writing it, and leaves `Applied` |
| Environment.ProcessEnv.Exit | src/main.py:221-227 | the exit loop leaves `Restored` |
| HttpAdapter.CredsFromEnv | src/main.py:391-394 | `creds` contains `DART_API_KEY` exactly when the body's `env` is a dictionary holding it, and then holds its value |
| HttpAdapter.CredentialsInsideBlock | src/main.py:391-405 | inside `temporary_env(creds)`, a lookup reads a truthy override as is, and it is always a string there. A falsy non-`None` override is read as `str(value)`. Otherwise the lookup reads the environment's key |
| HttpAdapter.ConvertedEntries | src/main.py:384-388 | the keys are kept. Listed keys holding a value that is neither `None` nor a string become `str(value)`. Everything else is untouched |
| HttpAdapter.ConvertIdempotent | src/main.py:384-388 | converting again changes nothing |
| HttpAdapter.Request.ConvertToStr | src/main.py:384-388 | the in-place loop leaves `Converted` |
| HttpAdapter.ToolNameParsed | src/main.py:407-493 | each tool is reached by its own name |
| HttpAdapter.ToolNamedInverse | src/main.py:407-493 | a name reaches a tool only if it is that tool's name. It reaches "Tool not found" exactly when it is no tool's name |
| HttpAdapter.CallFailedCases | src/main.py:396-400 | a truthy non-string key fails every call, `health` and unknown names included, before the body is touched. Otherwise only the executives route fails, once past its check |
| HttpAdapter.IdentifierRequired | src/main.py:418-422 | the financial, overview, executives and shareholders tools answer the corp-code-or-name error exactly when the key can be masked and both identifiers are falsy. The body is left untouched |
| HttpAdapter.CompanyNameRequired | src/main.py:410-413 | the search tool answers the company-name error exactly when the key can be masked and `company_name` is falsy |
| HttpAdapter.CorpCodeRequired | src/main.py:431-450 | the disclosure and trend tools answer the corp-code error exactly when the key can be masked and `corp_code` is falsy, whatever the name |
| HttpAdapter.UnknownToolName | src/main.py:493 | "Tool not found" is answered exactly for names that are no tool's when the key can be masked. The body is untouched |
| HttpAdapter.RoutedBody | src/main.py:396-491 | the body is converted only by the coercing tools, and only when the key can be masked and the tool's check passes. Each lookup runs with `creds` and the current body |
| HttpAdapter.BodyChanges | src/main.py:396-491 | the body changes only at `bsns_year` and `reprt_code`. It changes only for the financial, executives and shareholders tools, and never when the key cannot be masked |
| HttpAdapter.Defaults | src/main.py:424-453 | `reprt_code` defaults to `11011` and period values reach the lookup as strings. `page_no` defaults to 1, `page_count` to 10 and `years` to 5 |
| HttpAdapter.ExecutivesNeverInvoked | src/main.py:396-478 | the executives route answers the missing-parameter error when the key can be masked and both identifiers are missing. Otherwise it answers the call failure |
| HttpAdapter.Request.CallTool | src/main.py:367-496 | the method's answer and the body it leaves agree with `Dispatch` |

## Left out

- Network access, ZIP extraction, XML parsing and JSON decoding are replaced by the replies of a `Provider`, which are inputs.
- Cache expiry (TTL) and `maxsize` eviction of `TTLCache` are not modelled: each cache is a plain map.
- The current date is an input (`Clock`): calendar arithmetic for the 30-day window is not modelled.
- The base64 encoding of PDF documents is an input of the reply.
- Logging is not modelled. Key masking is modelled only where it changes behaviour: slicing a truthy non-string key raises. In `get_credentials` this is the `Raised` error. In `call_tool_http` it is the `CallFailed` answer, given before any tool is chosen.
- Float coercion (`convert_float_to_int`, and `int()` on `page_no`, `page_count` and `years`) is not modelled, because floats are not modelled.
- Transport, route registration and `asyncio.to_thread` are not modelled, and neither is the `health` tool's body beyond its dispatch.
- The generic `except Exception` handlers are modelled only where the code evidently raises: the credential slice in `get_credentials`, the key masking in `call_tool_http`, and the executives route.
- The route's values are not converted to the typed parameters of the `Lookup` functions. A `corp_code` that is not a string is not followed into the lookup.
- Text.Lower: lower-cases ASCII letters only. Python lower-cases all of Unicode.
- Text.IsDigits: accepts ASCII digits only. Python's `isdigit` accepts all Unicode digits, so a code of other digits is modelled as not all digits and is only stripped.
- Identifier.NormalizeOnlyStripsOthers: "not all digits" means not all ASCII digits; a code of other Unicode digits, which Python would pad, is only stripped here (see Text.IsDigits).
- Values.PyStr: of a dictionary or list, carries the rendered text as data instead of computing it.
- Lookup.TrendNext: labels each entry with the requested year, as the code does. This holds even when the financial lookup took its data from a fallback year.
- The error message texts of the lookups are represented by `LookupError` constructors, not by the strings.
