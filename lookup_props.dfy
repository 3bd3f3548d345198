/**
 * What the lookups of src/tools.py promise, proved about the functions of
 * Lookup: which results each cache may hold, that only successes are
 * cached, that a repeated lookup is answered from the cache without a
 * request, and how the year fallback and the trend loop behave.
 */
module LookupProps {
  import opened Common
  import opened Text
  import opened Values
  import opened Registry
  import opened Identifier
  import opened Years
  import opened XmlDoc
  import opened Upstream
  import opened Lookup

  // What each cache may hold: every entry answers the request its key describes.

  predicate CompaniesFor(query: string, c: Companies) {
    c.total == |c.companies| && forall e :: e in c.companies ==> Matches(e, query)
  }

  predicate CompanyCacheSound(m: CompanyCache) {
    forall k :: k in m ==> CompaniesFor(k, m[k])
  }

  predicate FinancialFor(k: FinancialKey, f: Financial) {
    f.corpCode == k.0 && f.bsnsYear == k.1 && f.reprtCode == k.2 && f.financialData != [] && IsNormalized(k.0)
  }

  predicate FinancialCacheSound(m: FinancialCache) {
    forall k :: k in m ==> FinancialFor(k, m[k])
  }

  predicate DisclosuresFor(k: DisclosureKey, d: Disclosures) {
    d.corpCode == k.0 && d.pageNo == k.3 && d.pageCount == k.4
  }

  predicate DisclosureCacheSound(m: DisclosureCache) {
    forall k :: k in m ==> DisclosuresFor(k, m[k])
  }

  predicate OverviewFor(k: string, o: Overview) {
    o.corpCode == k && IsNormalized(k)
  }

  predicate OverviewCacheSound(m: OverviewCache) {
    forall k :: k in m ==> OverviewFor(k, m[k])
  }

  predicate MajorReportsFor(k: MajorReportKey, m: MajorReports) {
    m.corpCode == k.0 && m.bgnDe == k.1 && m.endDe == k.2 && IsNormalized(k.0)
  }

  predicate MajorReportCacheSound(m: MajorReportCache) {
    forall k :: k in m ==> MajorReportsFor(k, m[k])
  }

  predicate DocumentFor(k: DocumentKey, d: Document) {
    && d.rceptNo == k.0 && d.format == k.1
    && (k.1 == "xml" || k.1 == "pdf")
    && (d.PdfDocument? <==> k.1 == "pdf")
    && (d.PdfDocument? ==> d.mimeType == "application/pdf")
  }

  predicate DocumentCacheSound(m: DocumentCache) {
    forall k :: k in m ==> DocumentFor(k, m[k])
  }

  predicate ExecutivesFor(k: string, x: Executives) {
    x.corpCode == k && IsNormalized(k)
  }

  predicate ExecutivesCacheSound(m: ExecutivesCache) {
    forall k :: k in m ==> ExecutivesFor(k, m[k])
  }

  predicate ShareholdersFor(k: ShareholdersKey, x: Shareholders) {
    x.corpCode == k.0 && x.bsnsYear == k.1 && x.reprtCode == k.2 && IsNormalized(k.0)
  }

  predicate ShareholdersCacheSound(m: ShareholdersCache) {
    forall k :: k in m ==> ShareholdersFor(k, m[k])
  }

  // The year loop

  /** The year `year` gives data. */
  predicate YearSucceeds(key: string, corpCode: string, reprtCode: string, json: Query -> JsonReply, year: string) {
    Classify(year, json(YearQuery(key, corpCode, year, reprtCode))).Found?
  }

  /** The statement a year that gives data produces. */
  function YearStatement(key: string, corpCode: string, reprtCode: string, json: Query -> JsonReply, year: string): Financial
    requires YearSucceeds(key, corpCode, reprtCode, json, year)
  {
    Financial(corpCode, year, reprtCode, Classify(year, json(YearQuery(key, corpCode, year, reprtCode))).items)
  }

  /** Why the year `year` gave no data. */
  function YearError(key: string, corpCode: string, reprtCode: string, json: Query -> JsonReply, year: string): AttemptError
    requires !YearSucceeds(key, corpCode, reprtCode, json, year)
  {
    Classify(year, json(YearQuery(key, corpCode, year, reprtCode))).error
  }

  /** The candidate years that give data, as a predicate for `FirstIndex`. */
  function Succeeding(key: string, corpCode: string, reprtCode: string, json: Query -> JsonReply): string -> bool {
    year => YearSucceeds(key, corpCode, reprtCode, json, year)
  }

  /**
   * A year gives data exactly when its reply has status `"000"` and a
   * non-empty list; each other reply is reported as its own kind of error,
   * and a reply without a status counts as the status `"unknown"`.
   */
  lemma ClassifyCases(year: string, reply: JsonReply)
    ensures var a := Classify(year, reply);
            && (a.Found? <==> reply.Answer? && reply.status == Some("000") && reply.list != [])
            && (a.Found? ==> a.items == reply.list)
            && (reply.JsonRequestFailed? ==> a == Missed(RequestFailure(reply.detail)))
            && (reply.Answer? && reply.status == Some("000") && reply.list == [] ==> a == Missed(EmptyList(year)))
            && (reply.Answer? && reply.status == Some("013") ==> a == Missed(NoData(year)))
            && (reply.Answer? && reply.status.None? ==> a == Missed(StatusError(year, reply.message, "unknown")))
  {
  }

  /**
   * The loop stops at the first year with data: it returns that year's
   * statement, caches it under that year, and has sent one request per year
   * up to and including it.
   */
  lemma {:induction false} YearLoopFindsFirst(cache: FinancialCache, key: string, corpCode: string, years: seq<string>,
                                              reprtCode: string, json: Query -> JsonReply, lastError: Option<AttemptError>, k: nat)
    requires k < |years| && YearSucceeds(key, corpCode, reprtCode, json, years[k])
    requires forall j :: 0 <= j < k ==> !YearSucceeds(key, corpCode, reprtCode, json, years[j])
    ensures var f := YearStatement(key, corpCode, reprtCode, json, years[k]);
            YearLoop(cache, key, corpCode, years, reprtCode, json, lastError)
              == Step(Ok(f), cache[(corpCode, years[k], reprtCode) := f], YearQueries(key, corpCode, years[..k + 1], reprtCode))
    decreases k
  {
    if k == 0 {
      assert years[..1] == [years[0]];
    } else {
      var q := YearQuery(key, corpCode, years[0], reprtCode);
      var rest := years[1..];
      assert rest[k - 1] == years[k];
      forall j | 0 <= j < k - 1 ensures !YearSucceeds(key, corpCode, reprtCode, json, rest[j]) {
        assert rest[j] == years[j + 1];
      }
      assert !YearSucceeds(key, corpCode, reprtCode, json, years[0]);
      YearLoopFindsFirst(cache, key, corpCode, rest, reprtCode, json, Some(YearError(key, corpCode, reprtCode, json, years[0])), k - 1);
      assert years[..k + 1] == [years[0]] + rest[..k];
      assert YearQueries(key, corpCode, years[..k + 1], reprtCode) == [q] + YearQueries(key, corpCode, rest[..k], reprtCode);
    }
  }

  /**
   * When no year gives data the loop reports the error of the last year
   * tried (or the one it started with, for no years), caches nothing, and
   * has sent one request per year.
   */
  lemma {:induction false} YearLoopExhausts(cache: FinancialCache, key: string, corpCode: string, years: seq<string>,
                                            reprtCode: string, json: Query -> JsonReply, lastError: Option<AttemptError>)
    requires forall j :: 0 <= j < |years| ==> !YearSucceeds(key, corpCode, reprtCode, json, years[j])
    ensures YearLoop(cache, key, corpCode, years, reprtCode, json, lastError)
         == Step(Err(FinancialNotFound(
                   if years == [] then lastError else Some(YearError(key, corpCode, reprtCode, json, years[|years| - 1])))),
                 cache, YearQueries(key, corpCode, years, reprtCode))
    decreases |years|
  {
    if years != [] {
      var q := YearQuery(key, corpCode, years[0], reprtCode);
      var rest := years[1..];
      forall j | 0 <= j < |rest| ensures !YearSucceeds(key, corpCode, reprtCode, json, rest[j]) {
        assert rest[j] == years[j + 1];
      }
      assert !YearSucceeds(key, corpCode, reprtCode, json, years[0]);
      var e := YearError(key, corpCode, reprtCode, json, years[0]);
      YearLoopExhausts(cache, key, corpCode, rest, reprtCode, json, Some(e));
      assert YearQueries(key, corpCode, years, reprtCode) == [q] + YearQueries(key, corpCode, rest, reprtCode);
      if rest != [] {
        assert rest[|rest| - 1] == years[|years| - 1];
      }
    }
  }

  /**
   * The year loop is a first-success search: its outcome is decided by the
   * first candidate year that gives data, if there is one.
   */
  lemma YearLoopOutcome(cache: FinancialCache, key: string, corpCode: string, years: seq<string>, reprtCode: string,
                        json: Query -> JsonReply, lastError: Option<AttemptError>)
    ensures var r := YearLoop(cache, key, corpCode, years, reprtCode, json, lastError);
            match FirstIndex(years, Succeeding(key, corpCode, reprtCode, json))
            case Some(k) =>
              var f := YearStatement(key, corpCode, reprtCode, json, years[k]);
              r == Step(Ok(f), cache[(corpCode, years[k], reprtCode) := f], YearQueries(key, corpCode, years[..k + 1], reprtCode))
            case None =>
              r == Step(Err(FinancialNotFound(
                          if years == [] then lastError else Some(YearError(key, corpCode, reprtCode, json, years[|years| - 1])))),
                        cache, YearQueries(key, corpCode, years, reprtCode))
  {
    var p := Succeeding(key, corpCode, reprtCode, json);
    match FirstIndex(years, p)
    case Some(k) =>
      assert p(years[k]);
      forall j | 0 <= j < k ensures !YearSucceeds(key, corpCode, reprtCode, json, years[j]) {
        assert !p(years[j]);
      }
      YearLoopFindsFirst(cache, key, corpCode, years, reprtCode, json, lastError, k);
    case None =>
      forall j | 0 <= j < |years| ensures !YearSucceeds(key, corpCode, reprtCode, json, years[j]) {
        assert !p(years[j]);
      }
      YearLoopExhausts(cache, key, corpCode, years, reprtCode, json, lastError);
  }

  /** The `i`-th request the year loop sends is the one for the `i`-th year. */
  lemma {:induction false} YearQueriesAt(key: string, corpCode: string, ys: seq<string>, reprtCode: string, i: nat)
    requires i < |ys|
    ensures YearQueries(key, corpCode, ys, reprtCode)[i] == YearQuery(key, corpCode, ys[i], reprtCode)
  {
    if i > 0 {
      YearQueriesAt(key, corpCode, ys[1..], reprtCode, i - 1);
    }
  }

  /** Requests for distinct years are distinct, the first being for the first year. */
  lemma DistinctYearQueries(key: string, corpCode: string, ys: seq<string>, reprtCode: string)
    requires ys != [] && NoDuplicates(ys)
    ensures var qs := YearQueries(key, corpCode, ys, reprtCode);
            && qs[0] == YearQuery(key, corpCode, ys[0], reprtCode)
            && forall i, j :: 0 <= i < j < |qs| ==> qs[i] != qs[j]
  {
    var qs := YearQueries(key, corpCode, ys, reprtCode);
    YearQueriesAt(key, corpCode, ys, reprtCode, 0);
    forall i, j | 0 <= i < j < |qs| ensures qs[i] != qs[j] {
      YearQueriesAt(key, corpCode, ys, reprtCode, i);
      YearQueriesAt(key, corpCode, ys, reprtCode, j);
    }
  }

  /**
   * The year loop caches only a statement with data, under the normalised
   * code, the year that gave it and the report code; after a failure the
   * cache is unchanged.
   */
  lemma YearLoopSound(cache: FinancialCache, key: string, corpCode: string, years: seq<string>, reprtCode: string,
                      json: Query -> JsonReply, lastError: Option<AttemptError>)
    requires FinancialCacheSound(cache) && IsNormalized(corpCode)
    ensures var r := YearLoop(cache, key, corpCode, years, reprtCode, json, lastError);
            && FinancialCacheSound(r.cache)
            && (r.result.Ok? ==>
                  var f := r.result.value;
                  && f.corpCode == corpCode && f.reprtCode == reprtCode && f.bsnsYear in years
                  && FinancialFor((corpCode, f.bsnsYear, reprtCode), f)
                  && r.cache == cache[(corpCode, f.bsnsYear, reprtCode) := f])
            && (r.result.Err? ==> r.cache == cache && r.result.error.FinancialNotFound?)
  {
    YearLoopOutcome(cache, key, corpCode, years, reprtCode, json, lastError);
    var p := Succeeding(key, corpCode, reprtCode, json);
    match FirstIndex(years, p)
    case Some(k) =>
      assert p(years[k]);
    case None =>
  }

  /**
   * `get_financial_statement` once the company is known: an empty code is
   * refused; a result is a statement with data for the normalised code and
   * one of the candidate years, and is in the cache afterwards, under no
   * other new key; a failure leaves the cache as it was.
   */
  lemma FetchFinancialSound(cache: FinancialCache, code: string, bsnsYear: Option<string>, reprtCode: string,
                            arguments: Value, environ: map<string, string>, clock: Clock, up: Provider)
    requires FinancialCacheSound(cache)
    ensures var r := FetchFinancial(cache, code, bsnsYear, reprtCode, arguments, environ, clock, up);
            && FinancialCacheSound(r.cache)
            && (code == "" ==> r == Step(Err(IdentifierRequired), cache, []))
            && (r.result.Ok? ==>
                  var f := r.result.value;
                  && f.corpCode == NormalizeCorpCode(code) && f.reprtCode == reprtCode
                  && f.bsnsYear in YearsToTry(RequestedYear(bsnsYear, clock), clock.year)
                  && FinancialFor((f.corpCode, f.bsnsYear, reprtCode), f)
                  && r.cache == cache[(f.corpCode, f.bsnsYear, reprtCode) := f])
            && (r.result.Err? ==> r.cache == cache)
  {
    if code != "" {
      var c := NormalizeCorpCode(code);
      var year := RequestedYear(bsnsYear, clock);
      NormalizeYieldsNormalized(code);
      assert year != "";
      assert YearsToTry(year, clock.year)[0] == year;
      if (c, year, reprtCode) !in cache && ApiKey(arguments, environ).Ok? {
        YearLoopSound(cache, ApiKey(arguments, environ).value, c, YearsToTry(year, clock.year), reprtCode, up.json, None);
      }
    }
  }

  /** How many requests the year loop sends: one per year up to the first with data. */
  lemma YearLoopRequestCount(cache: FinancialCache, key: string, corpCode: string, years: seq<string>, reprtCode: string,
                             json: Query -> JsonReply) returns (n: nat)
    requires years != []
    ensures var r := YearLoop(cache, key, corpCode, years, reprtCode, json, None);
            && 1 <= n <= |years|
            && r.sent == YearQueries(key, corpCode, years[..n], reprtCode)
  {
    YearLoopOutcome(cache, key, corpCode, years, reprtCode, json, None);
    match FirstIndex(years, Succeeding(key, corpCode, reprtCode, json))
    case Some(k) => n := k + 1;
    case None => n := |years|; assert years[..n] == years;
  }

  /**
   * The requests `get_financial_statement` sends after a cache miss: one
   * per candidate year up to the first with data, at most four, the first
   * for the requested year, and never the same request twice.
   */
  lemma FetchFinancialRequests(cache: FinancialCache, code: string, bsnsYear: Option<string>, reprtCode: string,
                               arguments: Value, environ: map<string, string>, clock: Clock, up: Provider)
    requires code != "" && ApiKey(arguments, environ).Ok?
    requires (NormalizeCorpCode(code), RequestedYear(bsnsYear, clock), reprtCode) !in cache
    ensures var r := FetchFinancial(cache, code, bsnsYear, reprtCode, arguments, environ, clock, up);
            var key, c := ApiKey(arguments, environ).value, NormalizeCorpCode(code);
            var ys := YearsToTry(RequestedYear(bsnsYear, clock), clock.year);
            && 1 <= |r.sent| <= |ys| <= 4
            && r.sent == YearQueries(key, c, ys[..|r.sent|], reprtCode)
            && r.sent[0] == YearQuery(key, c, RequestedYear(bsnsYear, clock), reprtCode)
            && (forall i, j :: 0 <= i < j < |r.sent| ==> r.sent[i] != r.sent[j])
  {
    var key, c := ApiKey(arguments, environ).value, NormalizeCorpCode(code);
    var year := RequestedYear(bsnsYear, clock);
    var ys := YearsToTry(year, clock.year);
    assert year != "";
    YearsToTryShape(year, clock.year);
    var m := YearLoopRequestCount(cache, key, c, ys, reprtCode, up.json);
    assert ys[..m][0] == year;
    DistinctYearQueries(key, c, ys[..m], reprtCode);
  }

  /**
   * After a fallback the statement is cached under the year that gave it,
   * not under the requested one, so the requested key is still a miss.
   */
  lemma FallbackCachedUnderFoundYear(cache: FinancialCache, code: string, bsnsYear: Option<string>, reprtCode: string,
                                     arguments: Value, environ: map<string, string>, clock: Clock, up: Provider)
    requires FinancialCacheSound(cache)
    requires (NormalizeCorpCode(code), RequestedYear(bsnsYear, clock), reprtCode) !in cache
    ensures var r := FetchFinancial(cache, code, bsnsYear, reprtCode, arguments, environ, clock, up);
            r.result.Ok? && r.result.value.bsnsYear != RequestedYear(bsnsYear, clock) ==>
              (NormalizeCorpCode(code), RequestedYear(bsnsYear, clock), reprtCode) !in r.cache
  {
    FetchFinancialSound(cache, code, bsnsYear, reprtCode, arguments, environ, clock, up);
  }

  /**
   * A statement for the requested year is answered from the cache the next
   * time: the same request returns the same result and sends nothing.
   */
  lemma FetchFinancialRepeat(cache: FinancialCache, code: string, bsnsYear: Option<string>, reprtCode: string,
                             arguments: Value, environ: map<string, string>, clock: Clock, up: Provider)
    requires FinancialCacheSound(cache)
    ensures var r := FetchFinancial(cache, code, bsnsYear, reprtCode, arguments, environ, clock, up);
            r.result.Ok? && r.result.value.bsnsYear == RequestedYear(bsnsYear, clock) ==>
              FetchFinancial(r.cache, code, bsnsYear, reprtCode, arguments, environ, clock, up) == Step(r.result, r.cache, [])
  {
    FetchFinancialSound(cache, code, bsnsYear, reprtCode, arguments, environ, clock, up);
  }

  // search_company and the name resolution

  /**
   * `search_company`: a result lists only entries whose name contains the
   * query, with `total` their number; after a download it is exactly the
   * filtered listing; it is cached under the query, and a failure leaves
   * the cache as it was. At most the registry download is sent.
   */
  lemma SearchSound(cache: CompanyCache, query: string, arguments: Value, environ: map<string, string>, up: Provider)
    requires CompanyCacheSound(cache)
    ensures var r := SearchRun(cache, query, arguments, environ, up);
            && CompanyCacheSound(r.cache)
            && (r.result.Ok? ==> CompaniesFor(query, r.result.value) && r.cache == cache[query := r.result.value])
            && (r.result.Err? ==> r.cache == cache)
            && (query in cache ==> r == Step(Ok(cache[query]), cache, []))
            && (query !in cache && ApiKey(arguments, environ).Ok? ==>
                  var reply := up.registry(CorpCodeQuery(ApiKey(arguments, environ).value));
                  && r.sent == [CorpCodeQuery(ApiKey(arguments, environ).value)]
                  && (reply.Listing? ==>
                        r.result == Ok(Companies(|FilterMatches(reply.entries, query)|, FilterMatches(reply.entries, query))))
                  && (!reply.Listing? ==> r.result.Err?))
  {
    if query !in cache && ApiKey(arguments, environ).Ok? {
      var reply := up.registry(CorpCodeQuery(ApiKey(arguments, environ).value));
      if reply.Listing? {
        var m := FilterMatches(reply.entries, query);
        assert CompaniesFor(query, Companies(|m|, m));
      }
    }
  }

  /** Without a usable API key nothing is sent and nothing cached. */
  lemma SearchWithoutKey(cache: CompanyCache, query: string, arguments: Value, environ: map<string, string>, up: Provider)
    requires query !in cache && ApiKey(arguments, environ).Err?
    ensures SearchRun(cache, query, arguments, environ, up) == Step(Err(ApiKey(arguments, environ).error), cache, [])
  {
  }

  /**
   * Resolving a name: with a corp_code given (or neither given) nothing
   * happens; otherwise a resolved code is non-empty and is the code of the
   * entry the policy selects from the cached search for that name.
   */
  lemma ResolveSound(cache: CompanyCache, corpCode: Option<string>, companyName: Option<string>, policy: Policy,
                     arguments: Value, environ: map<string, string>, up: Provider)
    requires CompanyCacheSound(cache)
    ensures var r := ResolveRun(cache, corpCode, companyName, policy, arguments, environ, up);
            && CompanyCacheSound(r.cache)
            && (Given(corpCode) || !Given(companyName) ==> r == Step(Ok(corpCode.GetOr("")), cache, []))
            && (!Given(corpCode) && Given(companyName) && r.result.Ok? ==>
                  var name := companyName.value;
                  && name in r.cache && r.cache[name].companies != []
                  && r.result.value == Choose(policy, r.cache[name].companies, name).corpCode
                  && r.result.value != "")
  {
    if !Given(corpCode) && Given(companyName) {
      SearchSound(cache, companyName.value, arguments, environ, up);
    }
  }

  /** A name resolved once resolves the same way again from the search cache, sending nothing. */
  lemma ResolveRepeat(cache: CompanyCache, corpCode: Option<string>, companyName: Option<string>, policy: Policy,
                      arguments: Value, environ: map<string, string>, up: Provider)
    requires CompanyCacheSound(cache)
    ensures var r := ResolveRun(cache, corpCode, companyName, policy, arguments, environ, up);
            r.result.Ok? ==> ResolveRun(r.cache, corpCode, companyName, policy, arguments, environ, up) == Step(r.result, r.cache, [])
  {
    ResolveSound(cache, corpCode, companyName, policy, arguments, environ, up);
  }

  /** With neither a corp_code nor a company name, every lookup that takes both refuses, changing nothing and sending nothing. */
  lemma IdentifierRequiredEverywhere(company: CompanyCache, financial: FinancialCache, overview: OverviewCache,
                                     majorReport: MajorReportCache, executives: ExecutivesCache, shareholders: ShareholdersCache,
                                     corpCode: Option<string>, companyName: Option<string>, bsnsYear: Option<string>,
                                     reprtCode: string, bgnDe: Option<string>, endDe: Option<string>,
                                     arguments: Value, environ: map<string, string>, clock: Clock, up: Provider)
    requires !Given(corpCode) && !Given(companyName)
    ensures FinancialRun(company, financial, corpCode, companyName, bsnsYear, reprtCode, arguments, environ, clock, up)
         == Resolved(Err(IdentifierRequired), company, financial, [])
    ensures OverviewRun(company, overview, corpCode, companyName, arguments, environ, up)
         == Resolved(Err(IdentifierRequired), company, overview, [])
    ensures MajorReportRun(company, majorReport, corpCode, companyName, bgnDe, endDe, arguments, environ, clock, up)
         == Resolved(Err(IdentifierRequired), company, majorReport, [])
    ensures ExecutivesRun(company, executives, corpCode, companyName, arguments, environ, up)
         == Resolved(Err(IdentifierRequired), company, executives, [])
    ensures ShareholdersRun(company, shareholders, corpCode, companyName, bsnsYear, reprtCode, arguments, environ, clock, up)
         == Resolved(Err(IdentifierRequired), company, shareholders, [])
  {
  }

  // Whole lookups

  /**
   * `get_financial_statement`: both caches stay sound; a result is a cached
   * statement with data for one of the candidate years; a failure leaves
   * the statement cache as it was.
   */
  lemma FinancialSound(company: CompanyCache, cache: FinancialCache, corpCode: Option<string>, companyName: Option<string>,
                       bsnsYear: Option<string>, reprtCode: string, arguments: Value, environ: map<string, string>,
                       clock: Clock, up: Provider)
    requires CompanyCacheSound(company) && FinancialCacheSound(cache)
    ensures var r := FinancialRun(company, cache, corpCode, companyName, bsnsYear, reprtCode, arguments, environ, clock, up);
            && CompanyCacheSound(r.company) && FinancialCacheSound(r.cache)
            && (r.result.Ok? ==>
                  var f := r.result.value;
                  && f.reprtCode == reprtCode && f.financialData != [] && IsNormalized(f.corpCode)
                  && f.bsnsYear in YearsToTry(RequestedYear(bsnsYear, clock), clock.year)
                  && (f.corpCode, f.bsnsYear, reprtCode) in r.cache
                  && r.cache[(f.corpCode, f.bsnsYear, reprtCode)] == f)
            && (r.result.Err? ==> r.cache == cache)
  {
    var resolved := ResolveRun(company, corpCode, companyName, PreferExactListed, arguments, environ, up);
    ResolveSound(company, corpCode, companyName, PreferExactListed, arguments, environ, up);
    if resolved.result.Ok? {
      FetchFinancialSound(cache, resolved.result.value, bsnsYear, reprtCode, arguments, environ, clock, up);
    }
  }

  /** A statement for the requested year is answered from the caches the next time, sending nothing. */
  lemma FinancialRepeat(company: CompanyCache, cache: FinancialCache, corpCode: Option<string>, companyName: Option<string>,
                        bsnsYear: Option<string>, reprtCode: string, arguments: Value, environ: map<string, string>,
                        clock: Clock, up: Provider)
    requires CompanyCacheSound(company) && FinancialCacheSound(cache)
    ensures var r := FinancialRun(company, cache, corpCode, companyName, bsnsYear, reprtCode, arguments, environ, clock, up);
            r.result.Ok? && r.result.value.bsnsYear == RequestedYear(bsnsYear, clock) ==>
              FinancialRun(r.company, r.cache, corpCode, companyName, bsnsYear, reprtCode, arguments, environ, clock, up)
                == Resolved(r.result, r.company, r.cache, [])
  {
    var resolved := ResolveRun(company, corpCode, companyName, PreferExactListed, arguments, environ, up);
    ResolveSound(company, corpCode, companyName, PreferExactListed, arguments, environ, up);
    ResolveRepeat(company, corpCode, companyName, PreferExactListed, arguments, environ, up);
    if resolved.result.Ok? {
      FetchFinancialRepeat(cache, resolved.result.value, bsnsYear, reprtCode, arguments, environ, clock, up);
    }
  }

  /**
   * `get_public_disclosure`: a result is for the page asked for and is
   * cached under the request with its default dates; a failure is not
   * cached; the same request is then answered from the cache.
   */
  lemma DisclosureSound(cache: DisclosureCache, corpCode: string, bgnDe: Option<string>, endDe: Option<string>,
                        pageNo: int, pageCount: int, arguments: Value, environ: map<string, string>, clock: Clock, up: Provider)
    requires DisclosureCacheSound(cache)
    ensures var r := DisclosureRun(cache, corpCode, bgnDe, endDe, pageNo, pageCount, arguments, environ, clock, up);
            var (begin, end) := RequestedRange(bgnDe, endDe, clock);
            var key := (corpCode, begin, end, pageNo, pageCount);
            && DisclosureCacheSound(r.cache) && |r.sent| <= 1
            && (r.result.Ok? ==> DisclosuresFor(key, r.result.value) && r.cache == cache[key := r.result.value]
                                 && DisclosureRun(r.cache, corpCode, bgnDe, endDe, pageNo, pageCount, arguments, environ, clock, up)
                                      == Step(r.result, r.cache, []))
            && (r.result.Err? ==> r.cache == cache)
  {
    var (begin, end) := RequestedRange(bgnDe, endDe, clock);
    var key := (corpCode, begin, end, pageNo, pageCount);
    if key !in cache && ApiKey(arguments, environ).Ok? {
      var q := DisclosureQuery(ApiKey(arguments, environ).value, corpCode, begin, end, pageNo, pageCount);
      var reply := up.json(q);
      if reply.Answer? && reply.status == Some("000") {
        var d := Disclosures(corpCode, reply.totalCount, pageNo, pageCount, reply.list);
        assert DisclosureRun(cache, corpCode, bgnDe, endDe, pageNo, pageCount, arguments, environ, clock, up)
            == Step(Ok(d), cache[key := d], [q]);
        assert DisclosureCacheSound(cache[key := d]);
      }
    }
  }

  /** `get_company_overview` after resolution: a result is cached under the normalised code. */
  lemma FetchOverviewSound(cache: OverviewCache, code: string, arguments: Value, environ: map<string, string>, up: Provider)
    requires OverviewCacheSound(cache)
    ensures var r := FetchOverview(cache, code, arguments, environ, up);
            var key := NormalizeCorpCode(code);
            && OverviewCacheSound(r.cache) && |r.sent| <= 1
            && (code == "" ==> r == Step(Err(IdentifierRequired), cache, []))
            && (r.result.Ok? ==> OverviewFor(key, r.result.value) && r.cache == cache[key := r.result.value])
            && (r.result.Err? ==> r.cache == cache)
  {
    if code != "" {
      var key := NormalizeCorpCode(code);
      NormalizeYieldsNormalized(code);
      if key !in cache && ApiKey(arguments, environ).Ok? {
        var q := CompanyQuery(ApiKey(arguments, environ).value, key);
        var reply := up.json(q);
        if reply.Answer? && reply.status == Some("000") {
          var o := Overview(key, reply.body);
          assert FetchOverview(cache, code, arguments, environ, up) == Step(Ok(o), cache[key := o], [q]);
        }
      }
    }
  }

  /**
   * `get_company_overview`: both caches stay sound, a result is for a
   * normalised code, and a failure is not cached.
   */
  lemma OverviewSound(company: CompanyCache, cache: OverviewCache, corpCode: Option<string>, companyName: Option<string>,
                      arguments: Value, environ: map<string, string>, up: Provider)
    requires CompanyCacheSound(company) && OverviewCacheSound(cache)
    ensures var r := OverviewRun(company, cache, corpCode, companyName, arguments, environ, up);
            && CompanyCacheSound(r.company) && OverviewCacheSound(r.cache)
            && (r.result.Ok? ==> IsNormalized(r.result.value.corpCode))
            && (r.result.Err? ==> r.cache == cache)
  {
    var resolved := ResolveRun(company, corpCode, companyName, PreferListed, arguments, environ, up);
    ResolveSound(company, corpCode, companyName, PreferListed, arguments, environ, up);
    if resolved.result.Ok? {
      FetchOverviewSound(cache, resolved.result.value, arguments, environ, up);
    }
  }

  /** `get_company_overview`: after a success, the same request is answered from the caches without any upstream request. */
  lemma OverviewRepeat(company: CompanyCache, cache: OverviewCache, corpCode: Option<string>, companyName: Option<string>,
                       arguments: Value, environ: map<string, string>, up: Provider)
    requires CompanyCacheSound(company) && OverviewCacheSound(cache)
    ensures var r := OverviewRun(company, cache, corpCode, companyName, arguments, environ, up);
            r.result.Ok? ==> OverviewRun(r.company, r.cache, corpCode, companyName, arguments, environ, up)
                               == Resolved(r.result, r.company, r.cache, [])
  {
    var resolved := ResolveRun(company, corpCode, companyName, PreferListed, arguments, environ, up);
    ResolveSound(company, corpCode, companyName, PreferListed, arguments, environ, up);
    if resolved.result.Ok? {
      ResolveRepeat(company, corpCode, companyName, PreferListed, arguments, environ, up);
      var code := resolved.result.value;
      var f := FetchOverview(cache, code, arguments, environ, up);
      FetchOverviewSound(cache, code, arguments, environ, up);
      assert OverviewRun(company, cache, corpCode, companyName, arguments, environ, up) == AfterResolve(resolved, f);
      if f.result.Ok? {
        assert FetchOverview(f.cache, code, arguments, environ, up) == Step(f.result, f.cache, []);
      }
    }
  }

  /** `get_major_report` after resolution: a result is cached under the normalised code and the dates used. */
  lemma FetchMajorReportSound(cache: MajorReportCache, code: string, bgnDe: Option<string>, endDe: Option<string>,
                              arguments: Value, environ: map<string, string>, clock: Clock, up: Provider)
    requires MajorReportCacheSound(cache)
    ensures var r := FetchMajorReport(cache, code, bgnDe, endDe, arguments, environ, clock, up);
            var (begin, end) := RequestedRange(bgnDe, endDe, clock);
            var key := (NormalizeCorpCode(code), begin, end);
            && MajorReportCacheSound(r.cache) && |r.sent| <= 1
            && (code == "" ==> r == Step(Err(IdentifierRequired), cache, []))
            && (r.result.Ok? ==> MajorReportsFor(key, r.result.value) && r.cache == cache[key := r.result.value])
            && (r.result.Err? ==> r.cache == cache)
  {
    if code != "" {
      var c := NormalizeCorpCode(code);
      NormalizeYieldsNormalized(code);
      var (begin, end) := RequestedRange(bgnDe, endDe, clock);
      var k := (c, begin, end);
      if k !in cache && ApiKey(arguments, environ).Ok? {
        var q := MajorReportQuery(ApiKey(arguments, environ).value, c, begin, end);
        var reply := up.json(q);
        if reply.Answer? && reply.status == Some("000") {
          var m := MajorReports(c, begin, end, reply.list);
          assert FetchMajorReport(cache, code, bgnDe, endDe, arguments, environ, clock, up) == Step(Ok(m), cache[k := m], [q]);
        }
      }
    }
  }

  /**
   * `get_major_report`: both caches stay sound, a result is for a
   * normalised code and the dates used, and a failure is not cached.
   */
  lemma MajorReportSound(company: CompanyCache, cache: MajorReportCache, corpCode: Option<string>, companyName: Option<string>,
                         bgnDe: Option<string>, endDe: Option<string>, arguments: Value, environ: map<string, string>,
                         clock: Clock, up: Provider)
    requires CompanyCacheSound(company) && MajorReportCacheSound(cache)
    ensures var r := MajorReportRun(company, cache, corpCode, companyName, bgnDe, endDe, arguments, environ, clock, up);
            && CompanyCacheSound(r.company) && MajorReportCacheSound(r.cache)
            && (r.result.Ok? ==> IsNormalized(r.result.value.corpCode)
                                 && (r.result.value.bgnDe, r.result.value.endDe) == RequestedRange(bgnDe, endDe, clock))
            && (r.result.Err? ==> r.cache == cache)
  {
    var resolved := ResolveRun(company, corpCode, companyName, PreferListed, arguments, environ, up);
    ResolveSound(company, corpCode, companyName, PreferListed, arguments, environ, up);
    if resolved.result.Ok? {
      FetchMajorReportSound(cache, resolved.result.value, bgnDe, endDe, arguments, environ, clock, up);
    }
  }

  /** `get_major_report`: after a success, the same request is answered from the caches without any upstream request. */
  lemma MajorReportRepeat(company: CompanyCache, cache: MajorReportCache, corpCode: Option<string>, companyName: Option<string>,
                          bgnDe: Option<string>, endDe: Option<string>, arguments: Value, environ: map<string, string>,
                          clock: Clock, up: Provider)
    requires CompanyCacheSound(company) && MajorReportCacheSound(cache)
    ensures var r := MajorReportRun(company, cache, corpCode, companyName, bgnDe, endDe, arguments, environ, clock, up);
            r.result.Ok? ==> MajorReportRun(r.company, r.cache, corpCode, companyName, bgnDe, endDe, arguments, environ, clock, up)
                               == Resolved(r.result, r.company, r.cache, [])
  {
    var resolved := ResolveRun(company, corpCode, companyName, PreferListed, arguments, environ, up);
    ResolveSound(company, corpCode, companyName, PreferListed, arguments, environ, up);
    if resolved.result.Ok? {
      ResolveRepeat(company, corpCode, companyName, PreferListed, arguments, environ, up);
      var code := resolved.result.value;
      var f := FetchMajorReport(cache, code, bgnDe, endDe, arguments, environ, clock, up);
      FetchMajorReportSound(cache, code, bgnDe, endDe, arguments, environ, clock, up);
      assert MajorReportRun(company, cache, corpCode, companyName, bgnDe, endDe, arguments, environ, clock, up) == AfterResolve(resolved, f);
      if f.result.Ok? {
        assert FetchMajorReport(f.cache, code, bgnDe, endDe, arguments, environ, clock, up) == Step(f.result, f.cache, []);
      }
    }
  }

  /**
   * `download_disclosure_document`: a format other than `"xml"` or `"pdf"`
   * is refused before anything else; a result has the requested number and
   * format, is a PDF exactly for `"pdf"`, and is cached, parsed or not; a
   * failure is not cached; the same request is then answered from the cache.
   */
  lemma DocumentSound(cache: DocumentCache, rceptNo: string, fileFormat: string,
                      arguments: Value, environ: map<string, string>, up: Provider)
    requires DocumentCacheSound(cache)
    ensures var r := DocumentRun(cache, rceptNo, fileFormat, arguments, environ, up);
            var key := (rceptNo, fileFormat);
            && DocumentCacheSound(r.cache) && |r.sent| <= 1
            && (fileFormat != "xml" && fileFormat != "pdf" ==> r == Step(Err(InvalidFileFormat), cache, []))
            && (r.result.Ok? ==> DocumentFor(key, r.result.value) && r.cache == cache[key := r.result.value]
                                 && DocumentRun(r.cache, rceptNo, fileFormat, arguments, environ, up) == Step(r.result, r.cache, []))
            && (r.result.Err? ==> r.cache == cache)
  {
  }

  /** A well-formed XML download carries the converted element tree; a malformed one its parse error. */
  lemma DocumentBody(rceptNo: string, text: string, size: nat, tree: ParsedXml, base64: string)
    ensures var d := DocumentResult(rceptNo, "xml", text, size, tree, base64);
            && (tree.WellFormed? ==> d.ParsedDocument? && d.parsed == Convert(tree.root) && d.content == text)
            && (tree.Malformed? ==> d.UnparsedDocument? && d.parseError == tree.detail && d.content == text)
            && d.size == size
  {
  }

  /** `get_executives` after resolution: a result is cached under the normalised code. */
  lemma FetchExecutivesSound(cache: ExecutivesCache, code: string, arguments: Value, environ: map<string, string>, up: Provider)
    requires ExecutivesCacheSound(cache)
    ensures var r := FetchExecutives(cache, code, arguments, environ, up);
            var key := NormalizeCorpCode(code);
            && ExecutivesCacheSound(r.cache) && |r.sent| <= 1
            && (code == "" ==> r == Step(Err(IdentifierRequired), cache, []))
            && (r.result.Ok? ==> ExecutivesFor(key, r.result.value) && r.cache == cache[key := r.result.value])
            && (r.result.Err? ==> r.cache == cache)
  {
    if code != "" {
      var key := NormalizeCorpCode(code);
      NormalizeYieldsNormalized(code);
      if key !in cache && ApiKey(arguments, environ).Ok? {
        var q := ExecutivesQuery(ApiKey(arguments, environ).value, key);
        var reply := up.json(q);
        if reply.Answer? && reply.status == Some("000") {
          var x := Executives(key, reply.list);
          assert FetchExecutives(cache, code, arguments, environ, up) == Step(Ok(x), cache[key := x], [q]);
        }
      }
    }
  }

  /**
   * `get_executives`: both caches stay sound, a result is for a normalised
   * code, and a failure is not cached.
   */
  lemma ExecutivesSound(company: CompanyCache, cache: ExecutivesCache, corpCode: Option<string>, companyName: Option<string>,
                        arguments: Value, environ: map<string, string>, up: Provider)
    requires CompanyCacheSound(company) && ExecutivesCacheSound(cache)
    ensures var r := ExecutivesRun(company, cache, corpCode, companyName, arguments, environ, up);
            && CompanyCacheSound(r.company) && ExecutivesCacheSound(r.cache)
            && (r.result.Ok? ==> IsNormalized(r.result.value.corpCode))
            && (r.result.Err? ==> r.cache == cache)
  {
    var resolved := ResolveRun(company, corpCode, companyName, PreferListed, arguments, environ, up);
    ResolveSound(company, corpCode, companyName, PreferListed, arguments, environ, up);
    if resolved.result.Ok? {
      FetchExecutivesSound(cache, resolved.result.value, arguments, environ, up);
    }
  }

  /** `get_executives`: after a success, the same request is answered from the caches without any upstream request. */
  lemma ExecutivesRepeat(company: CompanyCache, cache: ExecutivesCache, corpCode: Option<string>, companyName: Option<string>,
                         arguments: Value, environ: map<string, string>, up: Provider)
    requires CompanyCacheSound(company) && ExecutivesCacheSound(cache)
    ensures var r := ExecutivesRun(company, cache, corpCode, companyName, arguments, environ, up);
            r.result.Ok? ==> ExecutivesRun(r.company, r.cache, corpCode, companyName, arguments, environ, up)
                               == Resolved(r.result, r.company, r.cache, [])
  {
    var resolved := ResolveRun(company, corpCode, companyName, PreferListed, arguments, environ, up);
    ResolveSound(company, corpCode, companyName, PreferListed, arguments, environ, up);
    if resolved.result.Ok? {
      ResolveRepeat(company, corpCode, companyName, PreferListed, arguments, environ, up);
      var code := resolved.result.value;
      var f := FetchExecutives(cache, code, arguments, environ, up);
      FetchExecutivesSound(cache, code, arguments, environ, up);
      assert ExecutivesRun(company, cache, corpCode, companyName, arguments, environ, up) == AfterResolve(resolved, f);
      if f.result.Ok? {
        assert FetchExecutives(f.cache, code, arguments, environ, up) == Step(f.result, f.cache, []);
      }
    }
  }

  /** `get_shareholders` after resolution: one request, for the requested year only, cached under it. */
  lemma FetchShareholdersSound(cache: ShareholdersCache, code: string, bsnsYear: Option<string>, reprtCode: string,
                               arguments: Value, environ: map<string, string>, clock: Clock, up: Provider)
    requires ShareholdersCacheSound(cache)
    ensures var r := FetchShareholders(cache, code, bsnsYear, reprtCode, arguments, environ, clock, up);
            var key := (NormalizeCorpCode(code), RequestedYear(bsnsYear, clock), reprtCode);
            && ShareholdersCacheSound(r.cache) && |r.sent| <= 1
            && (code == "" ==> r == Step(Err(IdentifierRequired), cache, []))
            && (r.result.Ok? ==> ShareholdersFor(key, r.result.value) && r.cache == cache[key := r.result.value])
            && (r.result.Err? ==> r.cache == cache)
  {
    if code != "" {
      var c := NormalizeCorpCode(code);
      NormalizeYieldsNormalized(code);
      var year := RequestedYear(bsnsYear, clock);
      var k := (c, year, reprtCode);
      if k !in cache && ApiKey(arguments, environ).Ok? {
        var q := ShareholdersQuery(ApiKey(arguments, environ).value, c, year, reprtCode);
        var reply := up.json(q);
        if reply.Answer? && reply.status == Some("000") {
          var x := Shareholders(c, year, reprtCode, reply.list);
          assert FetchShareholders(cache, code, bsnsYear, reprtCode, arguments, environ, clock, up) == Step(Ok(x), cache[k := x], [q]);
        }
      }
    }
  }

  /**
   * `get_shareholders`: both caches stay sound, a result reports the
   * requested year (there is no fallback), and a failure is not cached.
   */
  lemma ShareholdersSound(company: CompanyCache, cache: ShareholdersCache, corpCode: Option<string>, companyName: Option<string>,
                          bsnsYear: Option<string>, reprtCode: string, arguments: Value, environ: map<string, string>,
                          clock: Clock, up: Provider)
    requires CompanyCacheSound(company) && ShareholdersCacheSound(cache)
    ensures var r := ShareholdersRun(company, cache, corpCode, companyName, bsnsYear, reprtCode, arguments, environ, clock, up);
            && CompanyCacheSound(r.company) && ShareholdersCacheSound(r.cache)
            && (r.result.Ok? ==> IsNormalized(r.result.value.corpCode)
                                 && r.result.value.bsnsYear == RequestedYear(bsnsYear, clock)
                                 && r.result.value.reprtCode == reprtCode)
            && (r.result.Err? ==> r.cache == cache)
  {
    var resolved := ResolveRun(company, corpCode, companyName, PreferListed, arguments, environ, up);
    ResolveSound(company, corpCode, companyName, PreferListed, arguments, environ, up);
    if resolved.result.Ok? {
      FetchShareholdersSound(cache, resolved.result.value, bsnsYear, reprtCode, arguments, environ, clock, up);
    }
  }

  /** `get_shareholders`: after a success, the same request is answered from the caches without any upstream request. */
  lemma ShareholdersRepeat(company: CompanyCache, cache: ShareholdersCache, corpCode: Option<string>, companyName: Option<string>,
                           bsnsYear: Option<string>, reprtCode: string, arguments: Value, environ: map<string, string>,
                           clock: Clock, up: Provider)
    requires CompanyCacheSound(company) && ShareholdersCacheSound(cache)
    ensures var r := ShareholdersRun(company, cache, corpCode, companyName, bsnsYear, reprtCode, arguments, environ, clock, up);
            r.result.Ok? ==> ShareholdersRun(r.company, r.cache, corpCode, companyName, bsnsYear, reprtCode, arguments, environ, clock, up)
                               == Resolved(r.result, r.company, r.cache, [])
  {
    var resolved := ResolveRun(company, corpCode, companyName, PreferListed, arguments, environ, up);
    ResolveSound(company, corpCode, companyName, PreferListed, arguments, environ, up);
    if resolved.result.Ok? {
      ResolveRepeat(company, corpCode, companyName, PreferListed, arguments, environ, up);
      var code := resolved.result.value;
      var f := FetchShareholders(cache, code, bsnsYear, reprtCode, arguments, environ, clock, up);
      FetchShareholdersSound(cache, code, bsnsYear, reprtCode, arguments, environ, clock, up);
      assert ShareholdersRun(company, cache, corpCode, companyName, bsnsYear, reprtCode, arguments, environ, clock, up) == AfterResolve(resolved, f);
      if f.result.Ok? {
        assert FetchShareholders(f.cache, code, bsnsYear, reprtCode, arguments, environ, clock, up) == Step(f.result, f.cache, []);
      }
    }
  }

  // analyze_financial_trend

  /** `y` is the year of one of the first `n` iterations of the trend loop. */
  predicate IsTrendYear(currentYear: int, n: nat, y: string) {
    exists i :: 0 <= i < n && y == TrendYear(currentYear, i)
  }

  /** The years of a list of trend entries, in order. */
  function EntryYears(entries: seq<TrendEntry>): (r: seq<string>)
    ensures |r| == |entries|
    ensures forall j :: 0 <= j < |entries| ==> r[j] == entries[j].year
  {
    seq(|entries|, j requires 0 <= j < |entries| => entries[j].year)
  }

  /** Every entry's year was requested by one of the first `n` iterations, and no year appears twice. */
  predicate TrendYearsWithin(currentYear: int, n: nat, entries: seq<TrendEntry>) {
    && (forall j :: 0 <= j < |entries| ==> IsTrendYear(currentYear, n, entries[j].year))
    && NoDuplicates(EntryYears(entries))
  }

  /** The statement lookup iteration `i` runs from the loop state `before`. */
  function TrendAttempt(before: Collected, corpCode: string, i: nat,
                        arguments: Value, environ: map<string, string>, clock: Clock, up: Provider)
    : Resolved<FinancialKey, Financial, Financial>
  {
    FinancialRun(before.company, before.cache, Some(corpCode), None, Some(TrendYear(clock.year, i)), "11011", arguments, environ, clock, up)
  }

  /** The states of the trend loop after 0, 1, ..., `n` iterations. */
  function TrendStates(company: CompanyCache, cache: FinancialCache, corpCode: string, n: nat,
                       arguments: Value, environ: map<string, string>, clock: Clock, up: Provider): (h: seq<Collected>)
    ensures |h| == n + 1
  {
    if n == 0 then [Collected([], company, cache, [])]
    else
      var p := TrendStates(company, cache, corpCode, n - 1, arguments, environ, clock, up);
      p + [TrendNext(p[n - 1], corpCode, n - 1, arguments, environ, clock, up)]
  }

  /** Each state follows from the one before by one iteration. */
  predicate IsTrendRun(h: seq<Collected>, corpCode: string, arguments: Value, environ: map<string, string>,
                       clock: Clock, up: Provider) {
    forall k :: 0 < k < |h| ==> h[k] == TrendNext(h[k - 1], corpCode, k - 1, arguments, environ, clock, up)
  }

  /** `TrendStates` starts with no entries and steps by `TrendNext`. */
  lemma {:induction false} TrendStatesRun(company: CompanyCache, cache: FinancialCache, corpCode: string, n: nat,
                                          arguments: Value, environ: map<string, string>, clock: Clock, up: Provider)
    ensures var h := TrendStates(company, cache, corpCode, n, arguments, environ, clock, up);
            h[0].entries == [] && IsTrendRun(h, corpCode, arguments, environ, clock, up)
  {
    if n > 0 {
      TrendStatesRun(company, cache, corpCode, n - 1, arguments, environ, clock, up);
      var p := TrendStates(company, cache, corpCode, n - 1, arguments, environ, clock, up);
      var h := TrendStates(company, cache, corpCode, n, arguments, environ, clock, up);
      var last := TrendNext(p[n - 1], corpCode, n - 1, arguments, environ, clock, up);
      assert h == p + [last];
      forall k | 0 < k < |h| ensures h[k] == TrendNext(h[k - 1], corpCode, k - 1, arguments, environ, clock, up) {
        if k < n {
          assert h[k] == p[k] && h[k - 1] == p[k - 1];
        } else {
          assert h[k] == last && h[k - 1] == p[n - 1];
        }
      }
    }
  }

  /** The last of `TrendStates` is the state `TrendFold` reaches. */
  lemma {:induction false} TrendStatesLast(company: CompanyCache, cache: FinancialCache, corpCode: string, n: nat,
                                           arguments: Value, environ: map<string, string>, clock: Clock, up: Provider)
    ensures TrendStates(company, cache, corpCode, n, arguments, environ, clock, up)[n]
         == TrendFold(company, cache, corpCode, n, arguments, environ, clock, up)
  {
    if n > 0 {
      TrendStatesLast(company, cache, corpCode, n - 1, arguments, environ, clock, up);
    }
  }

  /** One iteration appends as `StepAppends` says. */
  lemma NextAppends(before: Collected, corpCode: string, i: nat,
                    arguments: Value, environ: map<string, string>, clock: Clock, up: Provider)
    ensures StepAppends(before.entries, TrendNext(before, corpCode, i, arguments, environ, clock, up).entries,
                        TrendYear(clock.year, i), TrendAttempt(before, corpCode, i, arguments, environ, clock, up))
  {
    var after := TrendNext(before, corpCode, i, arguments, environ, clock, up).entries;
    if |after| > |before.entries| {
      assert after[..|before.entries|] == before.entries;
    }
  }

  /**
   * Iteration `n - 1` keeps the entries gathered so far and adds one more
   * exactly when its statement lookup succeeds; that entry is labelled with
   * the year the iteration asked for and holds the statement's data.
   */
  lemma TrendFoldStep(company: CompanyCache, cache: FinancialCache, corpCode: string, n: nat,
                      arguments: Value, environ: map<string, string>, clock: Clock, up: Provider)
    requires n > 0
    ensures var before := TrendFold(company, cache, corpCode, n - 1, arguments, environ, clock, up).entries;
            var after := TrendFold(company, cache, corpCode, n, arguments, environ, clock, up).entries;
            var r := TrendAttempt(TrendFold(company, cache, corpCode, n - 1, arguments, environ, clock, up), corpCode, n - 1,
                                  arguments, environ, clock, up);
            && |before| <= |after| && after[..|before|] == before
            && (r.result.Ok? <==> |after| == |before| + 1)
            && (r.result.Ok? ==> after[|before|] == TrendEntry(TrendYear(clock.year, n - 1), r.result.value.financialData))
  {
    var before := TrendFold(company, cache, corpCode, n - 1, arguments, environ, clock, up).entries;
    var after := TrendFold(company, cache, corpCode, n, arguments, environ, clock, up).entries;
    if |after| > |before| {
      assert after[..|before|] == before;
    }
  }

  /** Adding an entry for the year of iteration `n - 1` keeps the years within the first `n` iterations and distinct. */
  lemma ExtendTrendYears(currentYear: int, n: nat, before: seq<TrendEntry>, after: seq<TrendEntry>)
    requires n > 0 && TrendYearsWithin(currentYear, n - 1, before)
    requires |before| <= |after| <= |before| + 1 && after[..|before|] == before
    requires |after| == |before| + 1 ==> after[|before|].year == TrendYear(currentYear, n - 1)
    ensures TrendYearsWithin(currentYear, n, after)
  {
    var year := TrendYear(currentYear, n - 1);
    forall j | 0 <= j < |before| ensures IsTrendYear(currentYear, n, before[j].year) && before[j].year != year {
      var i :| 0 <= i < n - 1 && before[j].year == TrendYear(currentYear, i);
      IntToStringInjective(currentYear - i - 1, currentYear - (n - 1) - 1);
    }
    forall j | 0 <= j < |after| ensures IsTrendYear(currentYear, n, after[j].year) {
      if j < |before| { assert after[j] == after[..|before|][j] == before[j]; } else { assert after[j].year == TrendYear(currentYear, n - 1); }
    }
    forall i, j | 0 <= i < j < |after| ensures EntryYears(after)[i] != EntryYears(after)[j] {
      assert after[i] == after[..|before|][i] == before[i];
      if j < |before| {
        assert after[j] == after[..|before|][j] == before[j];
        assert EntryYears(before)[i] != EntryYears(before)[j];
      }
    }
  }

  /** The trend loop requests each year at most once: every entry is for a requested year, none twice. */
  lemma {:induction false} TrendFoldYears(company: CompanyCache, cache: FinancialCache, corpCode: string, n: nat,
                                          arguments: Value, environ: map<string, string>, clock: Clock, up: Provider)
    ensures TrendYearsWithin(clock.year, n, TrendFold(company, cache, corpCode, n, arguments, environ, clock, up).entries)
  {
    if n > 0 {
      TrendFoldYears(company, cache, corpCode, n - 1, arguments, environ, clock, up);
      TrendFoldStep(company, cache, corpCode, n, arguments, environ, clock, up);
      ExtendTrendYears(clock.year, n,
                       TrendFold(company, cache, corpCode, n - 1, arguments, environ, clock, up).entries,
                       TrendFold(company, cache, corpCode, n, arguments, environ, clock, up).entries);
    }
  }

  /** A year's lookup `r` is reflected in `entries`: its entry when it succeeded, no entry for the year when it failed. */
  predicate CollectedAt(entries: seq<TrendEntry>, year: string, r: Resolved<FinancialKey, Financial, Financial>) {
    && (r.result.Ok? ==> TrendEntry(year, r.result.value.financialData) in entries)
    && (r.result.Err? ==> year !in EntryYears(entries))
  }

  /** An entry for another year appended to the list keeps what it says about `year`. */
  lemma KeepCollected(before: seq<TrendEntry>, after: seq<TrendEntry>, year: string, added: string,
                      r: Resolved<FinancialKey, Financial, Financial>)
    requires |before| <= |after| <= |before| + 1 && after[..|before|] == before
    requires |after| == |before| + 1 ==> after[|before|].year == added
    requires year != added && CollectedAt(before, year, r)
    ensures CollectedAt(after, year, r)
  {
    if r.result.Ok? {
      var j :| 0 <= j < |before| && before[j] == TrendEntry(year, r.result.value.financialData);
      assert after[j] == after[..|before|][j];
    } else {
      forall j | 0 <= j < |after| ensures EntryYears(after)[j] != year {
        if j < |before| {
          assert after[j] == after[..|before|][j];
          assert EntryYears(before)[j] == before[j].year;
        }
      }
    }
  }

  /** The iteration's own lookup is reflected once its entry, if any, is appended to a list without its year. */
  lemma NewCollected(before: seq<TrendEntry>, after: seq<TrendEntry>, year: string,
                     r: Resolved<FinancialKey, Financial, Financial>)
    requires |before| <= |after| <= |before| + 1 && after[..|before|] == before
    requires r.result.Ok? <==> |after| == |before| + 1
    requires r.result.Ok? ==> after[|before|] == TrendEntry(year, r.result.value.financialData)
    requires year !in EntryYears(before)
    ensures CollectedAt(after, year, r)
  {
    if r.result.Ok? {
      assert after[|before|] in after;
    } else {
      assert after == after[..|before|];
    }
  }

  /** The year of iteration `n - 1` is not among the years the first `n - 1` iterations collected. */
  lemma LaterYearAbsent(currentYear: int, n: nat, entries: seq<TrendEntry>)
    requires n > 0 && TrendYearsWithin(currentYear, n - 1, entries)
    ensures TrendYear(currentYear, n - 1) !in EntryYears(entries)
  {
    forall j | 0 <= j < |entries| ensures EntryYears(entries)[j] != TrendYear(currentYear, n - 1) {
      var k :| 0 <= k < n - 1 && entries[j].year == TrendYear(currentYear, k);
      IntToStringInjective(currentYear - k - 1, currentYear - (n - 1) - 1);
    }
  }

  /**
   * One iteration as `TrendFoldStep` describes it: the entries `before` are
   * kept, and one entry for `year` with the statement's data is appended
   * exactly when the lookup `r` succeeded.
   */
  predicate StepAppends(before: seq<TrendEntry>, after: seq<TrendEntry>, year: string,
                        r: Resolved<FinancialKey, Financial, Financial>) {
    && |before| <= |after| <= |before| + 1 && after[..|before|] == before
    && (r.result.Ok? <==> |after| == |before| + 1)
    && (r.result.Ok? ==> after[|before|] == TrendEntry(year, r.result.value.financialData))
  }

  /**
   * Along a run of the loop from no entries, the years collected are those
   * of distinct iterations, and each iteration's lookup is reflected in the
   * entries of every later state.
   */
  lemma {:induction false} RunCollects(h: seq<Collected>, m: nat, corpCode: string, arguments: Value,
                                       environ: map<string, string>, clock: Clock, up: Provider)
    requires m < |h| && h[0].entries == [] && IsTrendRun(h, corpCode, arguments, environ, clock, up)
    ensures TrendYearsWithin(clock.year, m, h[m].entries)
    ensures forall i :: 0 <= i < m ==>
              CollectedAt(h[m].entries, TrendYear(clock.year, i), TrendAttempt(h[i], corpCode, i, arguments, environ, clock, up))
  {
    if m > 0 {
      RunCollects(h, m - 1, corpCode, arguments, environ, clock, up);
      var before, after := h[m - 1].entries, h[m].entries;
      var last := TrendYear(clock.year, m - 1);
      assert h[m] == TrendNext(h[m - 1], corpCode, m - 1, arguments, environ, clock, up);
      NextAppends(h[m - 1], corpCode, m - 1, arguments, environ, clock, up);
      ExtendTrendYears(clock.year, m, before, after);
      forall i | 0 <= i < m
        ensures CollectedAt(after, TrendYear(clock.year, i), TrendAttempt(h[i], corpCode, i, arguments, environ, clock, up))
      {
        if i < m - 1 {
          IntToStringInjective(clock.year - i - 1, clock.year - (m - 1) - 1);
          KeepCollected(before, after, TrendYear(clock.year, i), last, TrendAttempt(h[i], corpCode, i, arguments, environ, clock, up));
        } else {
          LaterYearAbsent(clock.year, m, before);
          NewCollected(before, after, last, TrendAttempt(h[i], corpCode, i, arguments, environ, clock, up));
        }
      }
    } else {
      assert EntryYears(h[0].entries) == [];
    }
  }

  /**
   * The trend loop collects exactly the years whose statement lookup did not
   * fail: with `h[i]` the loop's state before iteration `i`, a successful
   * iteration's entry is in the final list, and the year of a failed one is
   * not.
   */
  lemma TrendFoldCollects(company: CompanyCache, cache: FinancialCache, corpCode: string, n: nat,
                          arguments: Value, environ: map<string, string>, clock: Clock, up: Provider)
    ensures var entries := TrendFold(company, cache, corpCode, n, arguments, environ, clock, up).entries;
            var h := TrendStates(company, cache, corpCode, n, arguments, environ, clock, up);
            forall i :: 0 <= i < n ==>
              CollectedAt(entries, TrendYear(clock.year, i), TrendAttempt(h[i], corpCode, i, arguments, environ, clock, up))
  {
    TrendStatesRun(company, cache, corpCode, n, arguments, environ, clock, up);
    TrendStatesLast(company, cache, corpCode, n, arguments, environ, clock, up);
    RunCollects(TrendStates(company, cache, corpCode, n, arguments, environ, clock, up), n, corpCode, arguments, environ, clock, up);
  }

  /** The trend loop keeps both caches sound and adds at most one entry, with non-empty data, per iteration. */
  lemma {:induction false} TrendFoldSound(company: CompanyCache, cache: FinancialCache, corpCode: string, n: nat,
                                          arguments: Value, environ: map<string, string>, clock: Clock, up: Provider)
    requires CompanyCacheSound(company) && FinancialCacheSound(cache)
    ensures var c := TrendFold(company, cache, corpCode, n, arguments, environ, clock, up);
            && CompanyCacheSound(c.company) && FinancialCacheSound(c.cache)
            && |c.entries| <= n
            && (forall j :: 0 <= j < |c.entries| ==> c.entries[j].data != [])
  {
    if n > 0 {
      var before := TrendFold(company, cache, corpCode, n - 1, arguments, environ, clock, up);
      TrendFoldSound(company, cache, corpCode, n - 1, arguments, environ, clock, up);
      var year := TrendYear(clock.year, n - 1);
      FinancialSound(before.company, before.cache, Some(corpCode), None, Some(year), "11011", arguments, environ, clock, up);
      var c := TrendFold(company, cache, corpCode, n, arguments, environ, clock, up);
      forall j | 0 <= j < |c.entries| ensures c.entries[j].data != [] {
        if j < |before.entries| { assert c.entries[j] == before.entries[j]; }
      }
    }
  }

  /**
   * `analyze_financial_trend`: without a usable key it fails and sends
   * nothing; otherwise it reports as many years as it collected, at most
   * the number asked for (none for a count below one), each year requested
   * once with non-empty data, every year whose statement lookup succeeded
   * and none whose lookup failed, and both caches stay sound.
   */
  lemma TrendSound(company: CompanyCache, cache: FinancialCache, corpCode: string, years: int,
                   arguments: Value, environ: map<string, string>, clock: Clock, up: Provider)
    requires CompanyCacheSound(company) && FinancialCacheSound(cache)
    ensures var r := TrendRun(company, cache, corpCode, years, arguments, environ, clock, up);
            var n := if years > 0 then years else 0;
            && CompanyCacheSound(r.company) && FinancialCacheSound(r.cache)
            && (ApiKey(arguments, environ).Err? ==> r == Resolved(Err(ApiKey(arguments, environ).error), company, cache, []))
            && (ApiKey(arguments, environ).Ok? ==>
                  && r.result.Ok? && r.result.value.corpCode == corpCode
                  && r.result.value.yearsAnalyzed == |r.result.value.financialTrend| <= n
                  && (forall j :: 0 <= j < |r.result.value.financialTrend| ==>
                        r.result.value.financialTrend[j].data != [] && IsTrendYear(clock.year, n, r.result.value.financialTrend[j].year))
                  && NoDuplicates(EntryYears(r.result.value.financialTrend))
                  && var h := TrendStates(company, cache, corpCode, n, arguments, environ, clock, up);
                     forall i :: 0 <= i < n ==>
                       CollectedAt(r.result.value.financialTrend, TrendYear(clock.year, i),
                                   TrendAttempt(h[i], corpCode, i, arguments, environ, clock, up)))
  {
    var n := if years > 0 then years else 0;
    TrendFoldSound(company, cache, corpCode, n, arguments, environ, clock, up);
    TrendFoldYears(company, cache, corpCode, n, arguments, environ, clock, up);
    TrendFoldCollects(company, cache, corpCode, n, arguments, environ, clock, up);
  }
}
