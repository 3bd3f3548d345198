/**
 * The registry entries a name search returns, the filter `search_company`
 * applies to them, and the two policies by which the lookups pick one entry
 * (src/tools.py).
 */
module Registry {
  import opened Common
  import opened Text

  /** One `<list>` element of the registry listing (`findtext` defaults missing fields to `""`). */
  datatype CorpEntry = CorpEntry(corpCode: string, corpName: string, stockCode: string, modifyDate: string)

  /** `corp_name and query.lower() in corp_name.lower()` */
  predicate Matches(e: CorpEntry, query: string) {
    e.corpName != "" && Contains(Lower(e.corpName), Lower(query))
  }

  /** The entries that match `query`, in source order (specification of the search loop). */
  function FilterMatches(entries: seq<CorpEntry>, query: string): (r: seq<CorpEntry>)
    ensures |r| <= |entries|
    ensures forall e :: e in r <==> e in entries && Matches(e, query)
  {
    if entries == [] then []
    else
      var last := entries[|entries| - 1];
      var front := entries[..|entries| - 1];
      assert entries == front + [last];
      FilterMatches(front, query) + (if Matches(last, query) then [last] else [])
  }

  /** Filtering distributes over concatenation: the matches keep their source order. */
  lemma {:induction false} FilterMatchesAppend(a: seq<CorpEntry>, b: seq<CorpEntry>, query: string)
    ensures FilterMatches(a + b, query) == FilterMatches(a, query) + FilterMatches(b, query)
  {
    if b != [] {
      var front := b[..|b| - 1];
      assert (a + b)[..|a + b| - 1] == a + front;
      FilterMatchesAppend(a, front, query);
    } else {
      assert a + b == a;
    }
  }

  /** The filter loop of `search_company`. */
  method SearchMatches(companies: seq<CorpEntry>, query: string) returns (matching: seq<CorpEntry>)
    ensures matching == FilterMatches(companies, query)
  {
    matching := [];
    var queryLower := Lower(query);
    var i := 0;
    while i < |companies|
      invariant 0 <= i <= |companies|
      invariant matching == FilterMatches(companies[..i], query)
    {
      var company := companies[i];
      assert companies[..i + 1][..i] == companies[..i];
      if company.corpName != "" && Contains(Lower(company.corpName), queryLower) {
        matching := matching + [company];
      }
      i := i + 1;
    }
    assert companies[..i] == companies;
  }

  // Selection of one entry among the search results.

  /** The index of the first element satisfying `p`. */
  function FirstIndex<T>(s: seq<T>, p: T -> bool): (r: Option<nat>)
    ensures r.Some? ==> r.value < |s| && p(s[r.value]) && forall j :: 0 <= j < r.value ==> !p(s[j])
    ensures r.None? ==> forall j :: 0 <= j < |s| ==> !p(s[j])
  {
    if s == [] then None
    else
      match FirstIndex(s[..|s| - 1], p)
      case Some(j) => Some(j)
      case None => if p(s[|s| - 1]) then Some(|s| - 1) else None
  }

  /** The index of the last element satisfying `p`. */
  function LastIndex<T>(s: seq<T>, p: T -> bool): (r: Option<nat>)
    ensures r.Some? ==> r.value < |s| && p(s[r.value]) && forall j :: r.value < j < |s| ==> !p(s[j])
    ensures r.None? ==> forall j :: 0 <= j < |s| ==> !p(s[j])
  {
    if s == [] then None
    else if p(s[|s| - 1]) then Some(|s| - 1)
    else LastIndex(s[..|s| - 1], p)
  }

  /** `stock_code and stock_code != " "` on the stripped ticker. */
  predicate IsListed(e: CorpEntry) {
    var stockCode := Strip(e.stockCode);
    stockCode != "" && stockCode != " "
  }

  /** The stripped name equals the stripped query. */
  predicate IsExact(e: CorpEntry, name: string) {
    Strip(e.corpName) == Strip(name)
  }

  function ListedExact(name: string): CorpEntry -> bool {
    e => IsExact(e, name) && IsListed(e)
  }

  function UnlistedExact(name: string): CorpEntry -> bool {
    e => IsExact(e, name) && !IsListed(e)
  }

  function ListedInexact(name: string): CorpEntry -> bool {
    e => !IsExact(e, name) && IsListed(e)
  }

  function Listed(): CorpEntry -> bool {
    e => IsListed(e)
  }

  /** `LastIndex` over a prefix that grows by one element. */
  lemma LastIndexExtend<T>(s: seq<T>, p: T -> bool, i: nat)
    requires i < |s|
    ensures LastIndex(s[..i + 1], p) == if p(s[i]) then Some(i) else LastIndex(s[..i], p)
  {
    assert s[..i + 1][..i] == s[..i];
  }

  /** `FirstIndex` over a prefix that grows by one element. */
  lemma FirstIndexExtend<T>(s: seq<T>, p: T -> bool, i: nat)
    requires i < |s|
    ensures FirstIndex(s[..i + 1], p) == if FirstIndex(s[..i], p).Some? then FirstIndex(s[..i], p)
                                          else if p(s[i]) then Some(i) else None
  {
    assert s[..i + 1][..i] == s[..i];
  }

  /** The entry at an optional index. */
  function At(s: seq<CorpEntry>, k: Option<nat>): Option<CorpEntry>
    requires k.Some? ==> k.value < |s|
  {
    match k
    case None => None
    case Some(j) => Some(s[j])
  }

  /**
   * The index `get_financial_statement` selects: the last listed exact match,
   * else the last unlisted exact match, else the first listed entry that is
   * not an exact match, else the first entry.
   */
  function FinancialChoice(companies: seq<CorpEntry>, name: string): (k: nat)
    requires |companies| > 0
    ensures k < |companies|
  {
    var listedExact := LastIndex(companies, ListedExact(name));
    var exact := LastIndex(companies, UnlistedExact(name));
    var listedFirst := FirstIndex(companies, ListedInexact(name));
    if listedExact.Some? then listedExact.value
    else if exact.Some? then exact.value
    else if listedFirst.Some? then listedFirst.value
    else 0
  }

  /**
   * The priority of `FinancialChoice` stated on the entries themselves:
   * a listed exact match beats any other entry, any exact match beats any
   * inexact one, and a listed entry beats an unlisted one. Among listed
   * exact matches, and among unlisted ones, the last wins; among listed
   * inexact entries, the first.
   */
  lemma FinancialChoicePriority(companies: seq<CorpEntry>, name: string)
    requires |companies| > 0
    ensures var k := FinancialChoice(companies, name); var c := companies[k];
            && ((exists j :: 0 <= j < |companies| && IsExact(companies[j], name) && IsListed(companies[j]))
                  ==> IsExact(c, name) && IsListed(c)
                      && forall j :: k < j < |companies| ==> !(IsExact(companies[j], name) && IsListed(companies[j])))
            && ((exists j :: 0 <= j < |companies| && IsExact(companies[j], name)) ==> IsExact(c, name))
            && (((forall j :: 0 <= j < |companies| ==> !(IsExact(companies[j], name) && IsListed(companies[j])))
                   && (exists j :: 0 <= j < |companies| && IsExact(companies[j], name)))
                  ==> !IsListed(c) && forall j :: k < j < |companies| ==> !IsExact(companies[j], name))
            && (((forall j :: 0 <= j < |companies| ==> !IsExact(companies[j], name))
                   && (exists j :: 0 <= j < |companies| && IsListed(companies[j])))
                  ==> IsListed(c) && forall j :: 0 <= j < k ==> !IsListed(companies[j]))
            && ((forall j :: 0 <= j < |companies| ==> !IsListed(companies[j]) && !IsExact(companies[j], name))
                  ==> k == 0)
  {
    var k := FinancialChoice(companies, name);
    if exists j :: 0 <= j < |companies| && IsExact(companies[j], name) && IsListed(companies[j]) {
      var j :| 0 <= j < |companies| && IsExact(companies[j], name) && IsListed(companies[j]);
      assert ListedExact(name)(companies[j]);
    } else if exists j :: 0 <= j < |companies| && IsExact(companies[j], name) {
      var j :| 0 <= j < |companies| && IsExact(companies[j], name);
      assert UnlistedExact(name)(companies[j]);
      forall i | k < i < |companies| ensures !IsExact(companies[i], name) {
        assert !UnlistedExact(name)(companies[i]);
      }
    } else if exists j :: 0 <= j < |companies| && IsListed(companies[j]) {
      var j :| 0 <= j < |companies| && IsListed(companies[j]);
      assert ListedInexact(name)(companies[j]);
      assert forall i :: 0 <= i < |companies| ==> (ListedInexact(name)(companies[i]) <==> IsListed(companies[i]));
    }
  }

  /** How the three indices the selection loop tracks change when the prefix grows by one entry. */
  lemma FinancialIndicesExtend(companies: seq<CorpEntry>, name: string, i: nat)
    requires i < |companies|
    ensures var c := companies[i];
            var isExact := Strip(c.corpName) == Strip(name);
            var stockCode := Strip(c.stockCode);
            var isListed := stockCode != "" && stockCode != " ";
            && LastIndex(companies[..i + 1], ListedExact(name))
               == (if isExact && isListed then Some(i) else LastIndex(companies[..i], ListedExact(name)))
            && LastIndex(companies[..i + 1], UnlistedExact(name))
               == (if isExact && !isListed then Some(i) else LastIndex(companies[..i], UnlistedExact(name)))
            && FirstIndex(companies[..i + 1], ListedInexact(name))
               == (if FirstIndex(companies[..i], ListedInexact(name)).Some? then FirstIndex(companies[..i], ListedInexact(name))
                   else if !isExact && isListed then Some(i) else None)
  {
    LastIndexExtend(companies, ListedExact(name), i);
    LastIndexExtend(companies, UnlistedExact(name), i);
    FirstIndexExtend(companies, ListedInexact(name), i);
  }

  /** `FinancialChoice` in terms of the entries at the three indices. */
  lemma FinancialChoiceAt(companies: seq<CorpEntry>, name: string)
    requires |companies| > 0
    ensures var listedExact := At(companies, LastIndex(companies, ListedExact(name)));
            var exact := At(companies, LastIndex(companies, UnlistedExact(name)));
            var listedFirst := At(companies, FirstIndex(companies, ListedInexact(name)));
            companies[FinancialChoice(companies, name)]
            == if listedExact.Some? then listedExact.value
               else if exact.Some? then exact.value
               else if listedFirst.Some? then listedFirst.value
               else companies[0]
  {
  }

  /** The selection loop of `get_financial_statement`. */
  method SelectForFinancial(companies: seq<CorpEntry>, name: string) returns (selected: CorpEntry)
    requires |companies| > 0
    ensures selected == companies[FinancialChoice(companies, name)]
  {
    var exactMatch: Option<CorpEntry> := None;
    var listedExactMatch: Option<CorpEntry> := None;
    var listedFirst: Option<CorpEntry> := None;
    var i := 0;
    while i < |companies|
      invariant 0 <= i <= |companies|
      invariant listedExactMatch == At(companies, LastIndex(companies[..i], ListedExact(name)))
      invariant exactMatch == At(companies, LastIndex(companies[..i], UnlistedExact(name)))
      invariant listedFirst == At(companies, FirstIndex(companies[..i], ListedInexact(name)))
    {
      var company := companies[i];
      var isExact := Strip(company.corpName) == Strip(name);
      var stockCode := Strip(company.stockCode);
      var isListed := stockCode != "" && stockCode != " ";
      FinancialIndicesExtend(companies, name, i);
      if isExact && isListed {
        listedExactMatch := Some(company);
      } else if isExact {
        exactMatch := Some(company);
      } else if isListed && listedFirst.None? {
        listedFirst := Some(company);
      }
      i := i + 1;
    }
    assert companies[..i] == companies;
    FinancialChoiceAt(companies, name);
    selected := if listedExactMatch.Some? then listedExactMatch.value
                else if exactMatch.Some? then exactMatch.value
                else if listedFirst.Some? then listedFirst.value
                else companies[0];
  }

  /**
   * The index the overview, major-report, executives and shareholders
   * lookups select: the first listed entry, else the first entry.
   */
  function ListedFirstChoice(companies: seq<CorpEntry>): (k: nat)
    requires |companies| > 0
    ensures k < |companies|
  {
    match FirstIndex(companies, Listed())
    case Some(j) => j
    case None => 0
  }

  /** The "first listed, else first" policy stated on the entries themselves. */
  lemma ListedFirstChoicePriority(companies: seq<CorpEntry>)
    requires |companies| > 0
    ensures var k := ListedFirstChoice(companies);
            && (forall j :: 0 <= j < k ==> !IsListed(companies[j]))
            && ((exists j :: 0 <= j < |companies| && IsListed(companies[j])) <==> IsListed(companies[k]))
  {
    if exists j :: 0 <= j < |companies| && IsListed(companies[j]) {
      var j :| 0 <= j < |companies| && IsListed(companies[j]);
      assert Listed()(companies[j]);
    }
  }

  /** The selection loop shared by the overview, major-report, executives and shareholders lookups. */
  method SelectListedFirst(companies: seq<CorpEntry>) returns (selected: CorpEntry)
    requires |companies| > 0
    ensures selected == companies[ListedFirstChoice(companies)]
  {
    var found: Option<CorpEntry> := None;
    var i := 0;
    while i < |companies|
      invariant 0 <= i <= |companies|
      invariant FirstIndex(companies[..i], Listed()) == None
    {
      var company := companies[i];
      var stockCode := Strip(company.stockCode);
      assert Listed()(company) == (stockCode != "" && stockCode != " ");
      FirstIndexExtend(companies, Listed(), i);
      if stockCode != "" && stockCode != " " {
        found := Some(company);
        FirstIndexOfPrefix(companies, Listed(), i + 1);
        break;
      }
      i := i + 1;
    }
    if found.None? {
      assert companies[..i] == companies;
    }
    selected := if found.Some? then found.value else companies[0];
  }

  /** A match found in a prefix is the first match of the whole sequence. */
  lemma FirstIndexOfPrefix<T>(s: seq<T>, p: T -> bool, n: nat)
    requires n <= |s| && FirstIndex(s[..n], p).Some?
    ensures FirstIndex(s, p) == FirstIndex(s[..n], p)
  {
    var j := FirstIndex(s[..n], p).value;
    assert s[..n][j] == s[j];
    assert forall i :: 0 <= i < j ==> s[..n][i] == s[i];
    FirstIndexUnique(s, p, j);
  }

  /** The first match is determined by the matching property. */
  lemma FirstIndexUnique<T>(s: seq<T>, p: T -> bool, j: nat)
    requires j < |s| && p(s[j]) && forall i :: 0 <= i < j ==> !p(s[i])
    ensures FirstIndex(s, p) == Some(j)
  {
    var r := FirstIndex(s, p);
    assert r.Some?;
    assert !(r.value < j) && !(j < r.value);
  }
}
