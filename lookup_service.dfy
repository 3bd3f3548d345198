/**
 * The module state of src/tools.py: eight caches, one per lookup, which
 * the lookups read and fill in place. Each method performs one lookup on
 * the caches it names and is proved to agree with the `...Run` function of
 * Lookup on the caches it found; `Valid` is the invariant every lookup
 * keeps. `sent` records the upstream requests in the order they were sent.
 */
module LookupService {
  import opened Common
  import opened Text
  import opened Values
  import opened Registry
  import opened Identifier
  import opened Years
  import opened XmlDoc
  import opened Upstream
  import opened Lookup
  import opened LookupProps

  class Service {
    var company: CompanyCache
    var financial: FinancialCache
    var disclosure: DisclosureCache
    var overview: OverviewCache
    var majorReport: MajorReportCache
    var document: DocumentCache
    var executives: ExecutivesCache
    var shareholders: ShareholdersCache
    ghost var sent: seq<Query>

    /** Every cached entry is one its key could have produced. */
    ghost predicate Valid()
      reads this
    {
      && CompanyCacheSound(company) && FinancialCacheSound(financial) && DisclosureCacheSound(disclosure)
      && OverviewCacheSound(overview) && MajorReportCacheSound(majorReport) && DocumentCacheSound(document)
      && ExecutivesCacheSound(executives) && ShareholdersCacheSound(shareholders)
    }

    /** The caches as the module creates them: all empty. */
    constructor ()
      ensures Valid()
      ensures company == map[] && financial == map[] && disclosure == map[] && overview == map[]
      ensures majorReport == map[] && document == map[] && executives == map[] && shareholders == map[]
      ensures sent == []
    {
      company, financial, disclosure, overview := map[], map[], map[], map[];
      majorReport, document, executives, shareholders := map[], map[], map[], map[];
      sent := [];
    }

    /** `search_company(query, arguments)` */
    method SearchCompany(query: string, arguments: Value, environ: map<string, string>, up: Provider)
      returns (result: Outcome<Companies>)
      modifies this`company, this`sent
      ensures var r := SearchRun(old(company), query, arguments, environ, up);
              result == r.result && company == r.cache && sent == old(sent) + r.sent
    {
      if query in company {
        return Ok(company[query]);
      }
      var key := ApiKey(arguments, environ);
      if key.Err? {
        return Err(key.error);
      }
      var q := CorpCodeQuery(key.value);
      sent := sent + [q];
      match up.registry(q)
      case RegistryRequestFailed(detail) =>
        result := Err(RequestFailed(detail));
      case ArchiveWithoutXml =>
        result := Err(NoXmlInArchive);
      case ArchiveUnreadable(detail) =>
        result := Err(ArchiveParseFailed(detail));
      case Listing(entries) =>
        var matching := SearchMatches(entries, query);
        var found := Companies(|matching|, matching);
        company := company[query := found];
        result := Ok(found);
    }

    /** The opening block of a lookup that accepts a company name in place of a corp_code. */
    method Resolve(corpCode: Option<string>, companyName: Option<string>, policy: Policy,
                   arguments: Value, environ: map<string, string>, up: Provider)
      returns (result: Outcome<string>)
      modifies this`company, this`sent
      ensures var r := ResolveRun(old(company), corpCode, companyName, policy, arguments, environ, up);
              result == r.result && company == r.cache && sent == old(sent) + r.sent
    {
      if Given(corpCode) || !Given(companyName) {
        return Ok(corpCode.GetOr(""));
      }
      var name := companyName.value;
      var search := SearchCompany(name, arguments, environ, up);
      if search.Err? {
        return Err(if search.error.Raised? then Raised else SearchFailed(search.error));
      }
      var companies := search.value.companies;
      if companies == [] {
        return Err(CompanyNotFound(name));
      }
      var selected: CorpEntry;
      if policy.PreferExactListed? {
        selected := SelectForFinancial(companies, name);
      } else {
        selected := SelectListedFirst(companies);
      }
      if selected.corpCode == "" {
        return Err(CorpCodeMissing(name));
      }
      result := Ok(selected.corpCode);
    }

    /** `get_financial_statement` from the corp_code check on, with its loop over the candidate years. */
    method FetchFinancialStatement(code: string, bsnsYear: Option<string>, reprtCode: string,
                                   arguments: Value, environ: map<string, string>, clock: Clock, up: Provider)
      returns (result: Outcome<Financial>)
      modifies this`financial, this`sent
      ensures var r := FetchFinancial(old(financial), code, bsnsYear, reprtCode, arguments, environ, clock, up);
              result == r.result && financial == r.cache && sent == old(sent) + r.sent
    {
      if code == "" {
        return Err(IdentifierRequired);
      }
      var corpCode := NormalizeCorpCode(code);
      var year := RequestedYear(bsnsYear, clock);
      if (corpCode, year, reprtCode) in financial {
        return Ok(financial[(corpCode, year, reprtCode)]);
      }
      var key := ApiKey(arguments, environ);
      if key.Err? {
        return Err(key.error);
      }
      result := TryYears(key.value, corpCode, YearsToTry(year, clock.year), reprtCode, up.json);
    }

    /** The loop over the candidate years: stop at the first year with data, else report the last error. */
    method TryYears(key: string, corpCode: string, years: seq<string>, reprtCode: string, json: Query -> JsonReply)
      returns (result: Outcome<Financial>)
      modifies this`financial, this`sent
      ensures var r := YearLoop(old(financial), key, corpCode, years, reprtCode, json, None);
              result == r.result && financial == r.cache && sent == old(sent) + r.sent
    {
      ghost var done: seq<Query> := [];
      var lastError: Option<AttemptError> := None;
      var i := 0;
      while i < |years|
        invariant 0 <= i <= |years|
        invariant financial == old(financial) && sent == old(sent) + done
        invariant var rest := YearLoop(financial, key, corpCode, years[i..], reprtCode, json, lastError);
                  YearLoop(financial, key, corpCode, years, reprtCode, json, None) == Step(rest.result, rest.cache, done + rest.sent)
      {
        var y := years[i];
        var q := YearQuery(key, corpCode, y, reprtCode);
        assert years[i..][0] == y && years[i..][1..] == years[i + 1..];
        sent, done := sent + [q], done + [q];
        match Classify(y, json(q))
        case Found(items) =>
          var f := Financial(corpCode, y, reprtCode, items);
          financial := financial[(corpCode, y, reprtCode) := f];
          return Ok(f);
        case Missed(e) =>
          lastError := Some(e);
        i := i + 1;
      }
      result := Err(FinancialNotFound(lastError));
    }

    /** `get_financial_statement(corp_code, company_name, bsns_year, reprt_code, arguments)` */
    method FinancialStatement(corpCode: Option<string>, companyName: Option<string>, bsnsYear: Option<string>,
                              reprtCode: string, arguments: Value, environ: map<string, string>, clock: Clock, up: Provider)
      returns (result: Outcome<Financial>)
      requires CompanyCacheSound(company) && FinancialCacheSound(financial)
      modifies this`company, this`financial, this`sent
      ensures var r := FinancialRun(old(company), old(financial), corpCode, companyName, bsnsYear, reprtCode,
                                    arguments, environ, clock, up);
              result == r.result && company == r.company && financial == r.cache && sent == old(sent) + r.sent
      ensures CompanyCacheSound(company) && FinancialCacheSound(financial)
    {
      FinancialSound(company, financial, corpCode, companyName, bsnsYear, reprtCode, arguments, environ, clock, up);
      result := StatementLookup(corpCode, companyName, bsnsYear, reprtCode, arguments, environ, clock, up);
    }

    /** The statement lookup itself: resolve the company, then fetch. */
    method StatementLookup(corpCode: Option<string>, companyName: Option<string>, bsnsYear: Option<string>,
                           reprtCode: string, arguments: Value, environ: map<string, string>, clock: Clock, up: Provider)
      returns (result: Outcome<Financial>)
      modifies this`company, this`financial, this`sent
      ensures var r := FinancialRun(old(company), old(financial), corpCode, companyName, bsnsYear, reprtCode,
                                    arguments, environ, clock, up);
              result == r.result && company == r.company && financial == r.cache && sent == old(sent) + r.sent
    {
      ghost var resolved := ResolveRun(company, corpCode, companyName, PreferExactListed, arguments, environ, up);
      ghost var f0 := financial;
      var code := Resolve(corpCode, companyName, PreferExactListed, arguments, environ, up);
      if code.Err? {
        result := Err(code.error);
      } else {
        ghost var fetch := FetchFinancial(f0, code.value, bsnsYear, reprtCode, arguments, environ, clock, up);
        result := FetchFinancialStatement(code.value, bsnsYear, reprtCode, arguments, environ, clock, up);
        ConcatAssoc(old(sent), resolved.sent, fetch.sent);
      }
    }

    /** `get_public_disclosure(corp_code, bgn_de, end_de, page_no, page_count, arguments)` */
    method PublicDisclosure(corpCode: string, bgnDe: Option<string>, endDe: Option<string>, pageNo: int, pageCount: int,
                            arguments: Value, environ: map<string, string>, clock: Clock, up: Provider)
      returns (result: Outcome<Disclosures>)
      requires DisclosureCacheSound(disclosure)
      modifies this`disclosure, this`sent
      ensures var r := DisclosureRun(old(disclosure), corpCode, bgnDe, endDe, pageNo, pageCount, arguments, environ, clock, up);
              result == r.result && disclosure == r.cache && sent == old(sent) + r.sent
      ensures DisclosureCacheSound(disclosure)
    {
      DisclosureSound(disclosure, corpCode, bgnDe, endDe, pageNo, pageCount, arguments, environ, clock, up);
      var (begin, end) := RequestedRange(bgnDe, endDe, clock);
      var cacheKey := (corpCode, begin, end, pageNo, pageCount);
      if cacheKey in disclosure {
        return Ok(disclosure[cacheKey]);
      }
      var key := ApiKey(arguments, environ);
      if key.Err? {
        return Err(key.error);
      }
      var q := DisclosureQuery(key.value, corpCode, begin, end, pageNo, pageCount);
      sent := sent + [q];
      match up.json(q)
      case JsonRequestFailed(detail) =>
        result := Err(RequestFailed(detail));
      case Answer(status, message, list, totalCount, _) =>
        if status == Some("000") {
          var d := Disclosures(corpCode, totalCount, pageNo, pageCount, list);
          disclosure := disclosure[cacheKey := d];
          result := Ok(d);
        } else {
          result := Err(ApiStatus(message));
        }
    }

    /** `analyze_financial_trend(corp_code, years, arguments)`: one statement lookup per year, newest first. */
    method FinancialTrend(corpCode: string, years: int, arguments: Value, environ: map<string, string>, clock: Clock, up: Provider)
      returns (result: Outcome<Trend>)
      requires CompanyCacheSound(company) && FinancialCacheSound(financial)
      modifies this`company, this`financial, this`sent
      ensures var r := TrendRun(old(company), old(financial), corpCode, years, arguments, environ, clock, up);
              result == r.result && company == r.company && financial == r.cache && sent == old(sent) + r.sent
      ensures CompanyCacheSound(company) && FinancialCacheSound(financial)
    {
      TrendSound(company, financial, corpCode, years, arguments, environ, clock, up);
      var key := ApiKey(arguments, environ);
      if key.Err? {
        return Err(key.error);
      }
      var entries := CollectTrend(corpCode, if years > 0 then years else 0, arguments, environ, clock, up);
      result := Ok(Trend(corpCode, |entries|, entries));
    }

    /** The loop `for i in range(years)` of `analyze_financial_trend`. */
    method CollectTrend(corpCode: string, n: nat, arguments: Value, environ: map<string, string>, clock: Clock, up: Provider)
      returns (entries: seq<TrendEntry>)
      modifies this`company, this`financial, this`sent
      ensures var c := TrendFold(old(company), old(financial), corpCode, n, arguments, environ, clock, up);
              entries == c.entries && company == c.company && financial == c.cache && sent == old(sent) + c.sent
    {
      entries := [];
      ghost var fold := Collected([], company, financial, []);
      var i := 0;
      while i < n
        invariant 0 <= i <= n
        invariant fold == TrendFold(old(company), old(financial), corpCode, i, arguments, environ, clock, up)
        invariant entries == fold.entries && company == fold.company && financial == fold.cache && sent == old(sent) + fold.sent
      {
        entries := TrendIteration(corpCode, i, entries, fold, old(sent), arguments, environ, clock, up);
        fold := TrendNext(fold, corpCode, i, arguments, environ, clock, up);
        i := i + 1;
      }
    }

    /** One iteration of the trend loop: look up the statement for year `current_year - i - 1`, keep it if found. */
    method TrendIteration(corpCode: string, i: int, entries: seq<TrendEntry>, ghost before: Collected, ghost base: seq<Query>,
                          arguments: Value, environ: map<string, string>, clock: Clock, up: Provider)
      returns (collected: seq<TrendEntry>)
      requires entries == before.entries && company == before.company && financial == before.cache && sent == base + before.sent
      modifies this`company, this`financial, this`sent
      ensures var next := TrendNext(before, corpCode, i, arguments, environ, clock, up);
              collected == next.entries && company == next.company && financial == next.cache && sent == base + next.sent
    {
      var year := TrendYear(clock.year, i);
      ghost var r := FinancialRun(company, financial, Some(corpCode), None, Some(year), "11011", arguments, environ, clock, up);
      var statement := StatementLookup(Some(corpCode), None, Some(year), "11011", arguments, environ, clock, up);
      collected := entries;
      if statement.Ok? {
        collected := collected + [TrendEntry(year, statement.value.financialData)];
      }
      ConcatAssoc(base, before.sent, r.sent);
    }

    /** `get_company_overview` from the corp_code check on. */
    method FetchCompanyOverview(code: string, arguments: Value, environ: map<string, string>, up: Provider)
      returns (result: Outcome<Overview>)
      modifies this`overview, this`sent
      ensures var r := FetchOverview(old(overview), code, arguments, environ, up);
              result == r.result && overview == r.cache && sent == old(sent) + r.sent
    {
      if code == "" {
        return Err(IdentifierRequired);
      }
      var corpCode := NormalizeCorpCode(code);
      if corpCode in overview {
        return Ok(overview[corpCode]);
      }
      var key := ApiKey(arguments, environ);
      if key.Err? {
        return Err(key.error);
      }
      var q := CompanyQuery(key.value, corpCode);
      sent := sent + [q];
      match up.json(q)
      case JsonRequestFailed(detail) =>
        result := Err(RequestFailed(detail));
      case Answer(status, message, _, _, body) =>
        if status == Some("000") {
          var o := Overview(corpCode, body);
          overview := overview[corpCode := o];
          result := Ok(o);
        } else {
          result := Err(ApiStatus(message));
        }
    }

    /** `get_company_overview(corp_code, company_name, arguments)` */
    method CompanyOverview(corpCode: Option<string>, companyName: Option<string>,
                           arguments: Value, environ: map<string, string>, up: Provider)
      returns (result: Outcome<Overview>)
      requires CompanyCacheSound(company) && OverviewCacheSound(overview)
      modifies this`company, this`overview, this`sent
      ensures var r := OverviewRun(old(company), old(overview), corpCode, companyName, arguments, environ, up);
              result == r.result && company == r.company && overview == r.cache && sent == old(sent) + r.sent
      ensures CompanyCacheSound(company) && OverviewCacheSound(overview)
    {
      OverviewSound(company, overview, corpCode, companyName, arguments, environ, up);
      ghost var resolved := ResolveRun(company, corpCode, companyName, PreferListed, arguments, environ, up);
      ghost var cache0 := overview;
      var code := Resolve(corpCode, companyName, PreferListed, arguments, environ, up);
      if code.Err? {
        result := Err(code.error);
      } else {
        ghost var fetch := FetchOverview(cache0, code.value, arguments, environ, up);
        result := FetchCompanyOverview(code.value, arguments, environ, up);
        ConcatAssoc(old(sent), resolved.sent, fetch.sent);
      }
    }

    /** `get_major_report` from the corp_code check on. */
    method FetchMajorReports(code: string, bgnDe: Option<string>, endDe: Option<string>,
                             arguments: Value, environ: map<string, string>, clock: Clock, up: Provider)
      returns (result: Outcome<MajorReports>)
      modifies this`majorReport, this`sent
      ensures var r := FetchMajorReport(old(majorReport), code, bgnDe, endDe, arguments, environ, clock, up);
              result == r.result && majorReport == r.cache && sent == old(sent) + r.sent
    {
      if code == "" {
        return Err(IdentifierRequired);
      }
      var corpCode := NormalizeCorpCode(code);
      var (begin, end) := RequestedRange(bgnDe, endDe, clock);
      var cacheKey := (corpCode, begin, end);
      if cacheKey in majorReport {
        return Ok(majorReport[cacheKey]);
      }
      var key := ApiKey(arguments, environ);
      if key.Err? {
        return Err(key.error);
      }
      var q := MajorReportQuery(key.value, corpCode, begin, end);
      sent := sent + [q];
      match up.json(q)
      case JsonRequestFailed(detail) =>
        result := Err(RequestFailed(detail));
      case Answer(status, message, list, _, _) =>
        if status == Some("000") {
          var m := MajorReports(corpCode, begin, end, list);
          majorReport := majorReport[cacheKey := m];
          result := Ok(m);
        } else {
          result := Err(ApiStatus(message));
        }
    }

    /** `get_major_report(corp_code, company_name, bgn_de, end_de, arguments)` */
    method MajorReport(corpCode: Option<string>, companyName: Option<string>, bgnDe: Option<string>, endDe: Option<string>,
                       arguments: Value, environ: map<string, string>, clock: Clock, up: Provider)
      returns (result: Outcome<MajorReports>)
      requires CompanyCacheSound(company) && MajorReportCacheSound(majorReport)
      modifies this`company, this`majorReport, this`sent
      ensures var r := MajorReportRun(old(company), old(majorReport), corpCode, companyName, bgnDe, endDe, arguments, environ, clock, up);
              result == r.result && company == r.company && majorReport == r.cache && sent == old(sent) + r.sent
      ensures CompanyCacheSound(company) && MajorReportCacheSound(majorReport)
    {
      MajorReportSound(company, majorReport, corpCode, companyName, bgnDe, endDe, arguments, environ, clock, up);
      ghost var resolved := ResolveRun(company, corpCode, companyName, PreferListed, arguments, environ, up);
      ghost var cache0 := majorReport;
      var code := Resolve(corpCode, companyName, PreferListed, arguments, environ, up);
      if code.Err? {
        result := Err(code.error);
      } else {
        ghost var fetch := FetchMajorReport(cache0, code.value, bgnDe, endDe, arguments, environ, clock, up);
        result := FetchMajorReports(code.value, bgnDe, endDe, arguments, environ, clock, up);
        ConcatAssoc(old(sent), resolved.sent, fetch.sent);
      }
    }

    /** `download_disclosure_document(rcept_no, file_format, arguments)` */
    method DownloadDocument(rceptNo: string, fileFormat: string, arguments: Value, environ: map<string, string>, up: Provider)
      returns (result: Outcome<Document>)
      requires DocumentCacheSound(document)
      modifies this`document, this`sent
      ensures var r := DocumentRun(old(document), rceptNo, fileFormat, arguments, environ, up);
              result == r.result && document == r.cache && sent == old(sent) + r.sent
      ensures DocumentCacheSound(document)
    {
      DocumentSound(document, rceptNo, fileFormat, arguments, environ, up);
      if fileFormat != "xml" && fileFormat != "pdf" {
        return Err(InvalidFileFormat);
      }
      var cacheKey := (rceptNo, fileFormat);
      if cacheKey in document {
        return Ok(document[cacheKey]);
      }
      var key := ApiKey(arguments, environ);
      if key.Err? {
        return Err(key.error);
      }
      var q := DocumentQuery(key.value, rceptNo, fileFormat);
      sent := sent + [q];
      match up.document(q)
      case DocumentRequestFailed(detail) =>
        result := Err(RequestFailed(detail));
      case Fetched(text, size, tree, base64) =>
        var d: Document;
        if fileFormat == "xml" {
          match tree
          case WellFormed(root) =>
            var parsed := XmlToDict(root);
            d := ParsedDocument(rceptNo, fileFormat, text, parsed, size);
          case Malformed(detail) =>
            d := UnparsedDocument(rceptNo, fileFormat, text, detail, size);
        } else {
          d := PdfDocument(rceptNo, fileFormat, base64, size, "application/pdf");
        }
        document := document[cacheKey := d];
        result := Ok(d);
    }

    /** `get_executives` from the corp_code check on. */
    method FetchExecutiveList(code: string, arguments: Value, environ: map<string, string>, up: Provider)
      returns (result: Outcome<Executives>)
      modifies this`executives, this`sent
      ensures var r := FetchExecutives(old(executives), code, arguments, environ, up);
              result == r.result && executives == r.cache && sent == old(sent) + r.sent
    {
      if code == "" {
        return Err(IdentifierRequired);
      }
      var corpCode := NormalizeCorpCode(code);
      if corpCode in executives {
        return Ok(executives[corpCode]);
      }
      var key := ApiKey(arguments, environ);
      if key.Err? {
        return Err(key.error);
      }
      var q := ExecutivesQuery(key.value, corpCode);
      sent := sent + [q];
      match up.json(q)
      case JsonRequestFailed(detail) =>
        result := Err(RequestFailed(detail));
      case Answer(status, message, list, _, _) =>
        if status == Some("000") {
          var x := Executives(corpCode, list);
          executives := executives[corpCode := x];
          result := Ok(x);
        } else {
          result := Err(ApiStatus(message));
        }
    }

    /** `get_executives(corp_code, company_name, arguments)` */
    method ExecutiveList(corpCode: Option<string>, companyName: Option<string>,
                         arguments: Value, environ: map<string, string>, up: Provider)
      returns (result: Outcome<Executives>)
      requires CompanyCacheSound(company) && ExecutivesCacheSound(executives)
      modifies this`company, this`executives, this`sent
      ensures var r := ExecutivesRun(old(company), old(executives), corpCode, companyName, arguments, environ, up);
              result == r.result && company == r.company && executives == r.cache && sent == old(sent) + r.sent
      ensures CompanyCacheSound(company) && ExecutivesCacheSound(executives)
    {
      ExecutivesSound(company, executives, corpCode, companyName, arguments, environ, up);
      ghost var resolved := ResolveRun(company, corpCode, companyName, PreferListed, arguments, environ, up);
      ghost var cache0 := executives;
      var code := Resolve(corpCode, companyName, PreferListed, arguments, environ, up);
      if code.Err? {
        result := Err(code.error);
      } else {
        ghost var fetch := FetchExecutives(cache0, code.value, arguments, environ, up);
        result := FetchExecutiveList(code.value, arguments, environ, up);
        ConcatAssoc(old(sent), resolved.sent, fetch.sent);
      }
    }

    /** `get_shareholders` from the corp_code check on. */
    method FetchShareholderList(code: string, bsnsYear: Option<string>, reprtCode: string,
                                arguments: Value, environ: map<string, string>, clock: Clock, up: Provider)
      returns (result: Outcome<Shareholders>)
      modifies this`shareholders, this`sent
      ensures var r := FetchShareholders(old(shareholders), code, bsnsYear, reprtCode, arguments, environ, clock, up);
              result == r.result && shareholders == r.cache && sent == old(sent) + r.sent
    {
      if code == "" {
        return Err(IdentifierRequired);
      }
      var corpCode := NormalizeCorpCode(code);
      var year := RequestedYear(bsnsYear, clock);
      var cacheKey := (corpCode, year, reprtCode);
      if cacheKey in shareholders {
        return Ok(shareholders[cacheKey]);
      }
      var key := ApiKey(arguments, environ);
      if key.Err? {
        return Err(key.error);
      }
      var q := ShareholdersQuery(key.value, corpCode, year, reprtCode);
      sent := sent + [q];
      match up.json(q)
      case JsonRequestFailed(detail) =>
        result := Err(RequestFailed(detail));
      case Answer(status, message, list, _, _) =>
        if status == Some("000") {
          var x := Shareholders(corpCode, year, reprtCode, list);
          shareholders := shareholders[cacheKey := x];
          result := Ok(x);
        } else {
          result := Err(ApiStatus(message));
        }
    }

    /** `get_shareholders(corp_code, company_name, bsns_year, reprt_code, arguments)` */
    method ShareholderList(corpCode: Option<string>, companyName: Option<string>, bsnsYear: Option<string>, reprtCode: string,
                           arguments: Value, environ: map<string, string>, clock: Clock, up: Provider)
      returns (result: Outcome<Shareholders>)
      requires CompanyCacheSound(company) && ShareholdersCacheSound(shareholders)
      modifies this`company, this`shareholders, this`sent
      ensures var r := ShareholdersRun(old(company), old(shareholders), corpCode, companyName, bsnsYear, reprtCode,
                                       arguments, environ, clock, up);
              result == r.result && company == r.company && shareholders == r.cache && sent == old(sent) + r.sent
      ensures CompanyCacheSound(company) && ShareholdersCacheSound(shareholders)
    {
      ShareholdersSound(company, shareholders, corpCode, companyName, bsnsYear, reprtCode, arguments, environ, clock, up);
      ghost var resolved := ResolveRun(company, corpCode, companyName, PreferListed, arguments, environ, up);
      ghost var cache0 := shareholders;
      var code := Resolve(corpCode, companyName, PreferListed, arguments, environ, up);
      if code.Err? {
        result := Err(code.error);
      } else {
        ghost var fetch := FetchShareholders(cache0, code.value, bsnsYear, reprtCode, arguments, environ, clock, up);
        result := FetchShareholderList(code.value, bsnsYear, reprtCode, arguments, environ, clock, up);
        ConcatAssoc(old(sent), resolved.sent, fetch.sent);
      }
    }
  }
}
