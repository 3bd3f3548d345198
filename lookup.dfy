/**
 * The lookup operations of src/tools.py as functions of the caches and the
 * upstream replies. Each `...Run` function gives an operation's result, the
 * caches it touches as it leaves them, and the upstream requests it sent.
 * The class in LookupService performs the same operations in place.
 */
module Lookup {
  import opened Common
  import opened Text
  import opened Values
  import opened Credentials
  import opened Registry
  import opened Identifier
  import opened Years
  import opened XmlDoc
  import opened Upstream

  // Results

  datatype Companies = Companies(total: int, companies: seq<CorpEntry>)
  datatype Financial = Financial(corpCode: string, bsnsYear: string, reprtCode: string, financialData: seq<Value>)
  datatype Disclosures = Disclosures(corpCode: string, totalCount: Value, pageNo: int, pageCount: int, disclosures: seq<Value>)
  datatype Overview = Overview(corpCode: string, companyInfo: Value)
  datatype MajorReports = MajorReports(corpCode: string, bgnDe: string, endDe: string, reports: seq<Value>)
  datatype Document =
    | ParsedDocument(rceptNo: string, format: string, content: string, parsed: map<string, XmlValue>, size: nat)
    | UnparsedDocument(rceptNo: string, format: string, content: string, parseError: string, size: nat)
    | PdfDocument(rceptNo: string, format: string, contentBase64: string, size: nat, mimeType: string)
  datatype Executives = Executives(corpCode: string, executives: seq<Value>)
  datatype Shareholders = Shareholders(corpCode: string, bsnsYear: string, reprtCode: string, shareholders: seq<Value>)
  datatype TrendEntry = TrendEntry(year: string, data: seq<Value>)
  datatype Trend = Trend(corpCode: string, yearsAnalyzed: nat, financialTrend: seq<TrendEntry>)

  /** Why one candidate year of a financial-statement lookup gave no data (`last_error`). */
  datatype AttemptError =
    | EmptyList(year: string)                                        // status "000" with an empty list
    | NoData(year: string)                                           // status "013"
    | StatusError(year: string, message: Option<string>, status: string)
    | RequestFailure(detail: string)                                 // the request raised

  /** The `{"error": ...}` results, one constructor per message the source can produce. */
  datatype LookupError =
    | SearchFailed(cause: LookupError)      // the name search failed; its message is wrapped
    | CompanyNotFound(name: string)         // the name search matched nothing
    | CorpCodeMissing(name: string)         // the selected entry has an empty corp_code
    | IdentifierRequired                    // neither corp_code nor company_name
    | ApiKeyMissing
    | NoXmlInArchive
    | ArchiveParseFailed(detail: string)
    | RequestFailed(detail: string)
    | ApiStatus(message: Option<string>)    // a status other than "000"
    | FinancialNotFound(last: Option<AttemptError>)
    | InvalidFileFormat
    | Raised                                // the call raises instead of returning (see GetCredentials)

  datatype Outcome<T> = Ok(value: T) | Err(error: LookupError)

  /** Type names of the eight caches, one per lookup, each keyed by the request that produced the entry. */
  type CompanyCache = map<string, Companies>
  type FinancialKey = (string, string, string)               // (corp_code, bsns_year, reprt_code)
  type FinancialCache = map<FinancialKey, Financial>
  type DisclosureKey = (string, string, string, int, int)    // (corp_code, bgn_de, end_de, page_no, page_count)
  type DisclosureCache = map<DisclosureKey, Disclosures>
  type OverviewCache = map<string, Overview>
  type MajorReportKey = (string, string, string)             // (corp_code, bgn_de, end_de)
  type MajorReportCache = map<MajorReportKey, MajorReports>
  type DocumentKey = (string, string)                        // (rcept_no, file_format)
  type DocumentCache = map<DocumentKey, Document>
  type ExecutivesCache = map<string, Executives>
  type ShareholdersKey = (string, string, string)            // (corp_code, bsns_year, reprt_code)
  type ShareholdersCache = map<ShareholdersKey, Shareholders>

  /** One lookup on one cache: its result, the cache it leaves, and the upstream requests it sent, in order. */
  datatype Step<K(==), V, T> = Step(result: Outcome<T>, cache: map<K, V>, sent: seq<Query>)

  /** A lookup that may first search a name: the search cache it leaves besides its own. */
  datatype Resolved<K(==), V, T> = Resolved(result: Outcome<T>, company: CompanyCache, cache: map<K, V>, sent: seq<Query>)

  /** A Python `Optional[str]` argument that is neither `None` nor `""`. */
  predicate Given(o: Option<string>) {
    o.Some? && o.value != ""
  }

  /** The business year a lookup uses: the one given, else `str(current_year - 1)`. */
  function RequestedYear(bsnsYear: Option<string>, clock: Clock): string {
    if Given(bsnsYear) then bsnsYear.value else DefaultYear(clock.year)
  }

  /** The date range a lookup uses: the dates given, else the last thirty days. */
  function RequestedRange(bgnDe: Option<string>, endDe: Option<string>, clock: Clock): (string, string) {
    (if Given(bgnDe) then bgnDe.value else clock.monthAgo, if Given(endDe) then endDe.value else clock.today)
  }

  /** `get_credentials(arguments)["DART_API_KEY"]`, with the check every lookup makes on it. */
  function ApiKey(arguments: Value, environ: map<string, string>): Outcome<string> {
    match GetCredentials(arguments, environ)
    case None => Err(Raised)
    case Some(key) => if key == "" then Err(ApiKeyMissing) else Ok(key)
  }

  // search_company

  /** `search_company(query, arguments)` */
  function SearchRun(cache: CompanyCache, query: string, arguments: Value, environ: map<string, string>, up: Provider)
    : Step<string, Companies, Companies>
  {
    if query in cache then Step(Ok(cache[query]), cache, [])
    else
      match ApiKey(arguments, environ)
      case Err(e) => Step(Err(e), cache, [])
      case Ok(key) =>
        var q := CorpCodeQuery(key);
        match up.registry(q)
        case RegistryRequestFailed(detail) => Step(Err(RequestFailed(detail)), cache, [q])
        case ArchiveWithoutXml => Step(Err(NoXmlInArchive), cache, [q])
        case ArchiveUnreadable(detail) => Step(Err(ArchiveParseFailed(detail)), cache, [q])
        case Listing(entries) =>
          var matching := FilterMatches(entries, query);
          var found := Companies(|matching|, matching);
          Step(Ok(found), cache[query := found], [q])
  }

  // Resolving a company name to a corp_code

  /** Which selection block a lookup uses. */
  datatype Policy = PreferExactListed | PreferListed

  function Choose(policy: Policy, companies: seq<CorpEntry>, name: string): CorpEntry
    requires |companies| > 0
  {
    match policy
    case PreferExactListed => companies[FinancialChoice(companies, name)]
    case PreferListed => companies[ListedFirstChoice(companies)]
  }

  /**
   * The opening block of the lookups that accept a company name: without a
   * corp_code, search the name and take the corp_code of the selected entry.
   * `Ok("")` is the case of neither being given, which the caller reports.
   */
  function ResolveRun(cache: CompanyCache, corpCode: Option<string>, companyName: Option<string>, policy: Policy,
                      arguments: Value, environ: map<string, string>, up: Provider): Step<string, Companies, string>
  {
    if !Given(corpCode) && Given(companyName) then
      var name := companyName.value;
      var search := SearchRun(cache, name, arguments, environ, up);
      match search.result
      case Err(e) => Step(Err(if e.Raised? then Raised else SearchFailed(e)), search.cache, search.sent)
      case Ok(found) =>
        if found.companies == [] then Step(Err(CompanyNotFound(name)), search.cache, search.sent)
        else
          var selected := Choose(policy, found.companies, name);
          if selected.corpCode == "" then Step(Err(CorpCodeMissing(name)), search.cache, search.sent)
          else Step(Ok(selected.corpCode), search.cache, search.sent)
    else Step(Ok(corpCode.GetOr("")), cache, [])
  }

  /** A lookup after resolution: the search cache and requests of the resolution come first. */
  function AfterResolve<K(==), V, T>(resolved: Step<string, Companies, string>, fetch: Step<K, V, T>)
    : Resolved<K, V, T>
  {
    Resolved(fetch.result, resolved.cache, fetch.cache, resolved.sent + fetch.sent)
  }

  /** A lookup whose resolution failed: its own cache is untouched. */
  function ResolveFailed<K(==), V, T>(resolved: Step<string, Companies, string>, cache: map<K, V>): Resolved<K, V, T>
    requires resolved.result.Err?
  {
    Resolved(Err(resolved.result.error), resolved.cache, cache, resolved.sent)
  }

  // get_financial_statement

  /** What one candidate year's reply means: the data, or why there was none. */
  datatype Attempt = Found(items: seq<Value>) | Missed(error: AttemptError)

  function Classify(year: string, reply: JsonReply): Attempt {
    match reply
    case JsonRequestFailed(detail) => Missed(RequestFailure(detail))
    case Answer(status, message, list, _, _) =>
      var code := status.GetOr("unknown");
      if code == "000" then
        if list != [] then Found(list) else Missed(EmptyList(year))
      else if code == "013" then Missed(NoData(year))
      else Missed(StatusError(year, message, code))
  }

  /** The request for one candidate year (consolidated statements, `fs_div = "CFS"`). */
  function YearQuery(key: string, corpCode: string, year: string, reprtCode: string): Query {
    FinancialQuery(key, corpCode, year, reprtCode, "CFS")
  }

  /** The requests for the years `ys`, in order. */
  function YearQueries(key: string, corpCode: string, ys: seq<string>, reprtCode: string): (r: seq<Query>)
    ensures |r| == |ys|
  {
    if ys == [] then [] else [YearQuery(key, corpCode, ys[0], reprtCode)] + YearQueries(key, corpCode, ys[1..], reprtCode)
  }

  /** The year loop: try each year in turn, stop at the first with data, else report the last error. */
  function YearLoop(cache: FinancialCache, key: string, corpCode: string, years: seq<string>, reprtCode: string,
                    json: Query -> JsonReply, lastError: Option<AttemptError>): Step<FinancialKey, Financial, Financial>
    decreases |years|
  {
    if years == [] then Step(Err(FinancialNotFound(lastError)), cache, [])
    else
      var year := years[0];
      var q := YearQuery(key, corpCode, year, reprtCode);
      match Classify(year, json(q))
      case Found(items) =>
        var f := Financial(corpCode, year, reprtCode, items);
        Step(Ok(f), cache[(corpCode, year, reprtCode) := f], [q])
      case Missed(e) =>
        var rest := YearLoop(cache, key, corpCode, years[1..], reprtCode, json, Some(e));
        Step(rest.result, rest.cache, [q] + rest.sent)
  }

  /** `get_financial_statement` from the corp_code check on. */
  function FetchFinancial(cache: FinancialCache, code: string, bsnsYear: Option<string>, reprtCode: string,
                          arguments: Value, environ: map<string, string>, clock: Clock, up: Provider)
    : Step<FinancialKey, Financial, Financial>
  {
    if code == "" then Step(Err(IdentifierRequired), cache, [])
    else
      var corpCode := NormalizeCorpCode(code);
      var year := RequestedYear(bsnsYear, clock);
      var cacheKey := (corpCode, year, reprtCode);
      if cacheKey in cache then Step(Ok(cache[cacheKey]), cache, [])
      else
        match ApiKey(arguments, environ)
        case Err(e) => Step(Err(e), cache, [])
        case Ok(key) => YearLoop(cache, key, corpCode, YearsToTry(year, clock.year), reprtCode, up.json, None)
  }

  /** `get_financial_statement(corp_code, company_name, bsns_year, reprt_code, arguments)` */
  function FinancialRun(company: CompanyCache, cache: FinancialCache, corpCode: Option<string>, companyName: Option<string>,
                        bsnsYear: Option<string>, reprtCode: string, arguments: Value, environ: map<string, string>,
                        clock: Clock, up: Provider): Resolved<FinancialKey, Financial, Financial>
  {
    var resolved := ResolveRun(company, corpCode, companyName, PreferExactListed, arguments, environ, up);
    if resolved.result.Err? then ResolveFailed(resolved, cache)
    else AfterResolve(resolved, FetchFinancial(cache, resolved.result.value, bsnsYear, reprtCode, arguments, environ, clock, up))
  }

  // get_public_disclosure

  /** `get_public_disclosure(corp_code, bgn_de, end_de, page_no, page_count, arguments)`; the code is not normalised. */
  function DisclosureRun(cache: DisclosureCache, corpCode: string, bgnDe: Option<string>, endDe: Option<string>,
                         pageNo: int, pageCount: int, arguments: Value, environ: map<string, string>, clock: Clock, up: Provider)
    : Step<DisclosureKey, Disclosures, Disclosures>
  {
    var (begin, end) := RequestedRange(bgnDe, endDe, clock);
    var cacheKey := (corpCode, begin, end, pageNo, pageCount);
    if cacheKey in cache then Step(Ok(cache[cacheKey]), cache, [])
    else
      match ApiKey(arguments, environ)
      case Err(e) => Step(Err(e), cache, [])
      case Ok(key) =>
        var q := DisclosureQuery(key, corpCode, begin, end, pageNo, pageCount);
        match up.json(q)
        case JsonRequestFailed(detail) => Step(Err(RequestFailed(detail)), cache, [q])
        case Answer(status, message, list, totalCount, _) =>
          if status == Some("000") then
            var d := Disclosures(corpCode, totalCount, pageNo, pageCount, list);
            Step(Ok(d), cache[cacheKey := d], [q])
          else Step(Err(ApiStatus(message)), cache, [q])
  }

  // analyze_financial_trend

  /** The year the `i`-th iteration of the trend loop requests: `str(current_year - i - 1)`. */
  function TrendYear(currentYear: int, i: int): string {
    IntToString(currentYear - i - 1)
  }

  /** What the trend loop has gathered: the entries, the two caches it leaves and the requests sent. */
  datatype Collected = Collected(entries: seq<TrendEntry>, company: CompanyCache, cache: FinancialCache, sent: seq<Query>)

  /** Iteration `i` of the trend loop: the statement lookup for its year, and an entry if that lookup succeeded. */
  function TrendNext(before: Collected, corpCode: string, i: int, arguments: Value,
                     environ: map<string, string>, clock: Clock, up: Provider): Collected
  {
    var year := TrendYear(clock.year, i);
    var r := FinancialRun(before.company, before.cache, Some(corpCode), None, Some(year), "11011", arguments, environ, clock, up);
    var entries := if r.result.Ok? then before.entries + [TrendEntry(year, r.result.value.financialData)] else before.entries;
    Collected(entries, r.company, r.cache, before.sent + r.sent)
  }

  /** The first `n` iterations of the trend loop; a year whose lookup fails adds no entry. */
  function TrendFold(company: CompanyCache, cache: FinancialCache, corpCode: string, n: nat, arguments: Value,
                     environ: map<string, string>, clock: Clock, up: Provider): Collected
  {
    if n == 0 then Collected([], company, cache, [])
    else TrendNext(TrendFold(company, cache, corpCode, n - 1, arguments, environ, clock, up), corpCode, n - 1, arguments, environ, clock, up)
  }

  /** `analyze_financial_trend(corp_code, years, arguments)` */
  function TrendRun(company: CompanyCache, cache: FinancialCache, corpCode: string, years: int, arguments: Value,
                    environ: map<string, string>, clock: Clock, up: Provider): Resolved<FinancialKey, Financial, Trend>
  {
    match ApiKey(arguments, environ)
    case Err(e) => Resolved(Err(e), company, cache, [])
    case Ok(_) =>
      var fold := TrendFold(company, cache, corpCode, if years > 0 then years else 0, arguments, environ, clock, up);
      Resolved(Ok(Trend(corpCode, |fold.entries|, fold.entries)), fold.company, fold.cache, fold.sent)
  }

  // get_company_overview

  /** `get_company_overview` from the corp_code check on. */
  function FetchOverview(cache: OverviewCache, code: string, arguments: Value, environ: map<string, string>, up: Provider)
    : Step<string, Overview, Overview>
  {
    if code == "" then Step(Err(IdentifierRequired), cache, [])
    else
      var corpCode := NormalizeCorpCode(code);
      if corpCode in cache then Step(Ok(cache[corpCode]), cache, [])
      else
        match ApiKey(arguments, environ)
        case Err(e) => Step(Err(e), cache, [])
        case Ok(key) =>
          var q := CompanyQuery(key, corpCode);
          match up.json(q)
          case JsonRequestFailed(detail) => Step(Err(RequestFailed(detail)), cache, [q])
          case Answer(status, message, _, _, body) =>
            if status == Some("000") then
              var o := Overview(corpCode, body);
              Step(Ok(o), cache[corpCode := o], [q])
            else Step(Err(ApiStatus(message)), cache, [q])
  }

  /** `get_company_overview(corp_code, company_name, arguments)` */
  function OverviewRun(company: CompanyCache, cache: OverviewCache, corpCode: Option<string>, companyName: Option<string>,
                       arguments: Value, environ: map<string, string>, up: Provider): Resolved<string, Overview, Overview>
  {
    var resolved := ResolveRun(company, corpCode, companyName, PreferListed, arguments, environ, up);
    if resolved.result.Err? then ResolveFailed(resolved, cache)
    else AfterResolve(resolved, FetchOverview(cache, resolved.result.value, arguments, environ, up))
  }

  // get_major_report

  /** `get_major_report` from the corp_code check on. */
  function FetchMajorReport(cache: MajorReportCache, code: string, bgnDe: Option<string>, endDe: Option<string>,
                            arguments: Value, environ: map<string, string>, clock: Clock, up: Provider)
    : Step<MajorReportKey, MajorReports, MajorReports>
  {
    if code == "" then Step(Err(IdentifierRequired), cache, [])
    else
      var corpCode := NormalizeCorpCode(code);
      var (begin, end) := RequestedRange(bgnDe, endDe, clock);
      var cacheKey := (corpCode, begin, end);
      if cacheKey in cache then Step(Ok(cache[cacheKey]), cache, [])
      else
        match ApiKey(arguments, environ)
        case Err(e) => Step(Err(e), cache, [])
        case Ok(key) =>
          var q := MajorReportQuery(key, corpCode, begin, end);
          match up.json(q)
          case JsonRequestFailed(detail) => Step(Err(RequestFailed(detail)), cache, [q])
          case Answer(status, message, list, _, _) =>
            if status == Some("000") then
              var m := MajorReports(corpCode, begin, end, list);
              Step(Ok(m), cache[cacheKey := m], [q])
            else Step(Err(ApiStatus(message)), cache, [q])
  }

  /** `get_major_report(corp_code, company_name, bgn_de, end_de, arguments)` */
  function MajorReportRun(company: CompanyCache, cache: MajorReportCache, corpCode: Option<string>, companyName: Option<string>,
                          bgnDe: Option<string>, endDe: Option<string>, arguments: Value, environ: map<string, string>,
                          clock: Clock, up: Provider): Resolved<MajorReportKey, MajorReports, MajorReports>
  {
    var resolved := ResolveRun(company, corpCode, companyName, PreferListed, arguments, environ, up);
    if resolved.result.Err? then ResolveFailed(resolved, cache)
    else AfterResolve(resolved, FetchMajorReport(cache, resolved.result.value, bgnDe, endDe, arguments, environ, clock, up))
  }

  // download_disclosure_document

  /** The result built from a downloaded document. */
  function DocumentResult(rceptNo: string, fileFormat: string, text: string, size: nat, tree: ParsedXml, base64: string): Document {
    if fileFormat == "xml" then
      match tree
      case WellFormed(root) => ParsedDocument(rceptNo, fileFormat, text, Convert(root), size)
      case Malformed(detail) => UnparsedDocument(rceptNo, fileFormat, text, detail, size)
    else PdfDocument(rceptNo, fileFormat, base64, size, "application/pdf")
  }

  /** `download_disclosure_document(rcept_no, file_format, arguments)` */
  function DocumentRun(cache: DocumentCache, rceptNo: string, fileFormat: string,
                       arguments: Value, environ: map<string, string>, up: Provider): Step<DocumentKey, Document, Document>
  {
    if fileFormat != "xml" && fileFormat != "pdf" then Step(Err(InvalidFileFormat), cache, [])
    else
      var cacheKey := (rceptNo, fileFormat);
      if cacheKey in cache then Step(Ok(cache[cacheKey]), cache, [])
      else
        match ApiKey(arguments, environ)
        case Err(e) => Step(Err(e), cache, [])
        case Ok(key) =>
          var q := DocumentQuery(key, rceptNo, fileFormat);
          match up.document(q)
          case DocumentRequestFailed(detail) => Step(Err(RequestFailed(detail)), cache, [q])
          case Fetched(text, size, tree, base64) =>
            var d := DocumentResult(rceptNo, fileFormat, text, size, tree, base64);
            Step(Ok(d), cache[cacheKey := d], [q])
  }

  // get_executives

  /** `get_executives` from the corp_code check on. */
  function FetchExecutives(cache: ExecutivesCache, code: string, arguments: Value, environ: map<string, string>, up: Provider)
    : Step<string, Executives, Executives>
  {
    if code == "" then Step(Err(IdentifierRequired), cache, [])
    else
      var corpCode := NormalizeCorpCode(code);
      if corpCode in cache then Step(Ok(cache[corpCode]), cache, [])
      else
        match ApiKey(arguments, environ)
        case Err(e) => Step(Err(e), cache, [])
        case Ok(key) =>
          var q := ExecutivesQuery(key, corpCode);
          match up.json(q)
          case JsonRequestFailed(detail) => Step(Err(RequestFailed(detail)), cache, [q])
          case Answer(status, message, list, _, _) =>
            if status == Some("000") then
              var x := Executives(corpCode, list);
              Step(Ok(x), cache[corpCode := x], [q])
            else Step(Err(ApiStatus(message)), cache, [q])
  }

  /** `get_executives(corp_code, company_name, arguments)` */
  function ExecutivesRun(company: CompanyCache, cache: ExecutivesCache, corpCode: Option<string>, companyName: Option<string>,
                         arguments: Value, environ: map<string, string>, up: Provider): Resolved<string, Executives, Executives>
  {
    var resolved := ResolveRun(company, corpCode, companyName, PreferListed, arguments, environ, up);
    if resolved.result.Err? then ResolveFailed(resolved, cache)
    else AfterResolve(resolved, FetchExecutives(cache, resolved.result.value, arguments, environ, up))
  }

  // get_shareholders

  /** `get_shareholders` from the corp_code check on; a single year, without fallback. */
  function FetchShareholders(cache: ShareholdersCache, code: string, bsnsYear: Option<string>, reprtCode: string,
                             arguments: Value, environ: map<string, string>, clock: Clock, up: Provider)
    : Step<ShareholdersKey, Shareholders, Shareholders>
  {
    if code == "" then Step(Err(IdentifierRequired), cache, [])
    else
      var corpCode := NormalizeCorpCode(code);
      var year := RequestedYear(bsnsYear, clock);
      var cacheKey := (corpCode, year, reprtCode);
      if cacheKey in cache then Step(Ok(cache[cacheKey]), cache, [])
      else
        match ApiKey(arguments, environ)
        case Err(e) => Step(Err(e), cache, [])
        case Ok(key) =>
          var q := ShareholdersQuery(key, corpCode, year, reprtCode);
          match up.json(q)
          case JsonRequestFailed(detail) => Step(Err(RequestFailed(detail)), cache, [q])
          case Answer(status, message, list, _, _) =>
            if status == Some("000") then
              var x := Shareholders(corpCode, year, reprtCode, list);
              Step(Ok(x), cache[cacheKey := x], [q])
            else Step(Err(ApiStatus(message)), cache, [q])
  }

  /** `get_shareholders(corp_code, company_name, bsns_year, reprt_code, arguments)` */
  function ShareholdersRun(company: CompanyCache, cache: ShareholdersCache, corpCode: Option<string>, companyName: Option<string>,
                           bsnsYear: Option<string>, reprtCode: string, arguments: Value, environ: map<string, string>,
                           clock: Clock, up: Provider): Resolved<ShareholdersKey, Shareholders, Shareholders>
  {
    var resolved := ResolveRun(company, corpCode, companyName, PreferListed, arguments, environ, up);
    if resolved.result.Err? then ResolveFailed(resolved, cache)
    else AfterResolve(resolved, FetchShareholders(cache, resolved.result.value, bsnsYear, reprtCode, arguments, environ, clock, up))
  }
}
