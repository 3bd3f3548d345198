/**
 * The HTTP route `call_tool_http` in src/main.py: credential extraction from
 * the request body, the in-place `convert_to_str` coercion, and the
 * required-parameter checks that decide which lookup is called.
 */
module HttpAdapter {
  import opened Common
  import opened Values
  import opened Credentials
  import opened Environment

  /** The request body, a JSON object. */
  type Body = map<string, Value>

  /** `request_data.get("env", {})` */
  function EnvOf(data: Body): Value {
    Get(data, "env", VDict(map[], "{}"))
  }

  /** `creds`: the single override `DART_API_KEY`, taken from the body's `"env"` dictionary. */
  function ExtractCreds(data: Body): Overrides {
    var env := EnvOf(data);
    if env.VDict? && KeyName in env.entries then [(KeyName, env.entries[KeyName])] else []
  }

  /** `creds` holds the key exactly when the body's `"env"` is a dictionary that holds it, and then holds that value. */
  lemma CredsFromEnv(data: Body, text: string)
    ensures |ExtractCreds(data)| <= 1 && DistinctKeys(ExtractCreds(data))
    ensures ExtractCreds(data) != [] <==> HasOverride(VDict(data, text))
    ensures ExtractCreds(data) != [] ==> ExtractCreds(data) == [(KeyName, Override(VDict(data, text)))]
  {
  }

  /** One step of `convert_to_str`: a present value that is neither `None` nor a string becomes `str(value)`. */
  function ConvertOne(data: Body, key: string): Body {
    if key in data && !data[key].VNone? && !data[key].VStr? then data[key := VStr(PyStr(data[key]))] else data
  }

  /** `convert_to_str(data, keys)`: the body after every key has been converted, in order. */
  function Converted(data: Body, keys: seq<string>): Body {
    if keys == [] then data else ConvertOne(Converted(data, keys[..|keys| - 1]), keys[|keys| - 1])
  }

  /** The value `convert_to_str` leaves at `k`. */
  function ConvertedValue(v: Value): Value {
    if !v.VNone? && !v.VStr? then VStr(PyStr(v)) else v
  }

  /**
   * `convert_to_str` keeps the body's keys; a listed key holding a value that
   * is neither `None` nor a string now holds `str(value)`; every other entry
   * is untouched.
   */
  lemma {:induction false} ConvertedEntries(data: Body, keys: seq<string>)
    ensures Converted(data, keys).Keys == data.Keys
    ensures forall k :: k in data && k in keys ==> Converted(data, keys)[k] == ConvertedValue(data[k])
    ensures forall k :: k in data && k !in keys ==> Converted(data, keys)[k] == data[k]
  {
    if keys != [] {
      var p := keys[..|keys| - 1];
      ConvertedEntries(data, p);
      assert keys == p + [keys[|keys| - 1]];
    }
  }

  /** Converting again changes nothing. */
  lemma ConvertIdempotent(data: Body, keys: seq<string>)
    ensures Converted(Converted(data, keys), keys) == Converted(data, keys)
  {
    var once := Converted(data, keys);
    ConvertedEntries(data, keys);
    ConvertedEntries(once, keys);
    forall k | k in once ensures Converted(once, keys)[k] == once[k] {
    }
  }

  /**
   * The masked log line written before any tool is chosen slices the key and
   * appends `"***"`, which raises for a truthy key that is not a string.
   */
  predicate MaskingFails(data: Body) {
    var creds := ExtractCreds(data);
    creds != [] && Truthy(creds[0].1) && !creds[0].1.VStr?
  }

  /** The lookup a route calls, with the values it takes from the body. */
  datatype LookupCall =
    | SearchCompany(companyName: Value)
    | FinancialStatement(corpCode: Value, companyName: Value, bsnsYear: Value, reprtCode: Value)
    | PublicDisclosure(corpCode: Value, bgnDe: Value, endDe: Value, pageNo: Value, pageCount: Value)
    | FinancialTrend(corpCode: Value, years: Value)
    | CompanyOverview(corpCode: Value, companyName: Value)
    | Shareholders(corpCode: Value, companyName: Value, bsnsYear: Value, reprtCode: Value)

  /** What `call_tool_http` answers. */
  datatype Response =
    | Health
      /** `{"error": message}` returned before any lookup runs. */
    | MissingParameter(message: string)
    | ToolNotFound
      /** The lookup runs inside `temporary_env(creds)` with the (converted) body as `arguments`. */
    | Invoke(call: LookupCall, creds: Overrides, arguments: Body)
      /**
       * The route raised and the handler answered `{"error": "Error calling tool: ..."}`:
       * the masking of a truthy non-string key failed, or the executives route
       * passed four positional arguments to a lookup that takes three.
       */
    | CallFailed

  /** The answer together with the body as the route leaves it. */
  datatype Dispatched = Dispatched(response: Response, data: Body)

  const NeedCompanyName := "Missing required parameter: company_name"
  const NeedCorpCode := "Missing required parameter: corp_code"
  const NeedCorpCodeOrName := "Missing required parameter: corp_code or company_name"

  /** The tools `call_tool_http` recognises, and every other name. */
  datatype Tool =
    | HealthTool | SearchTool | FinancialTool | DisclosureTool | TrendTool
    | OverviewTool | ExecutivesTool | ShareholdersTool | UnknownTool
  {
    /** The tools that take either identifier. */
    predicate TakesEitherIdentifier() {
      FinancialTool? || OverviewTool? || ExecutivesTool? || ShareholdersTool?
    }

    /** The tools that coerce the period parameters to strings. */
    predicate Coerces() {
      FinancialTool? || ExecutivesTool? || ShareholdersTool?
    }
  }

  /** The name each recognised tool is called by in the route's path. */
  function ToolName(tool: Tool): string {
    match tool
    case HealthTool => "health"
    case SearchTool => "search_company_tool"
    case FinancialTool => "get_financial_statement_tool"
    case DisclosureTool => "get_public_disclosure_tool"
    case TrendTool => "analyze_financial_trend_tool"
    case OverviewTool => "get_company_overview_tool"
    case ExecutivesTool => "get_executives_tool"
    case ShareholdersTool => "get_shareholders_tool"
    case UnknownTool => ""
  }

  /** The chain of `if tool_name == ...` tests, read as one choice. */
  function ToolNamed(name: string): Tool {
    if name == "health" then HealthTool
    else if name == "search_company_tool" then SearchTool
    else if name == "get_financial_statement_tool" then FinancialTool
    else if name == "get_public_disclosure_tool" then DisclosureTool
    else if name == "analyze_financial_trend_tool" then TrendTool
    else if name == "get_company_overview_tool" then OverviewTool
    else if name == "get_executives_tool" then ExecutivesTool
    else if name == "get_shareholders_tool" then ShareholdersTool
    else UnknownTool
  }

  /** Each recognised tool is reached by its own name. */
  lemma ToolNameParsed(tool: Tool)
    requires !tool.UnknownTool?
    ensures ToolNamed(ToolName(tool)) == tool
  {
    match tool
    case HealthTool =>
    case SearchTool =>
    case FinancialTool =>
    case DisclosureTool =>
    case TrendTool =>
    case OverviewTool =>
    case ExecutivesTool =>
    case ShareholdersTool =>
  }

  /** A name reaches a recognised tool only if it is that tool's name, and "Tool not found" only if it is no tool's name. */
  lemma ToolNamedInverse(name: string)
    ensures !ToolNamed(name).UnknownTool? ==> ToolName(ToolNamed(name)) == name
    ensures ToolNamed(name) == UnknownTool <==> forall t: Tool :: !t.UnknownTool? ==> ToolName(t) != name
  {
    var tool := ToolNamed(name);
    if tool == UnknownTool {
      forall t: Tool | !t.UnknownTool? ensures ToolName(t) != name {
        match t
        case HealthTool =>
        case SearchTool =>
        case FinancialTool =>
        case DisclosureTool =>
        case TrendTool =>
        case OverviewTool =>
        case ExecutivesTool =>
        case ShareholdersTool =>
      }
    } else {
      assert ToolName(tool) == name by {
        match tool
        case HealthTool =>
        case SearchTool =>
        case FinancialTool =>
        case DisclosureTool =>
        case TrendTool =>
        case OverviewTool =>
        case ExecutivesTool =>
        case ShareholdersTool =>
      }
    }
  }

  /** `request_data.get(key)` */
  function Param(data: Body, key: string): Value {
    Get(data, key, VNone)
  }

  /** Neither `corp_code` nor `company_name` is truthy. */
  predicate NoIdentifier(data: Body) {
    !Truthy(Param(data, "corp_code")) && !Truthy(Param(data, "company_name"))
  }

  /** The parameter one of the tool's checks requires is missing or falsy. */
  predicate MissesRequired(tool: Tool, data: Body) {
    if tool.SearchTool? then !Truthy(Param(data, "company_name"))
    else if tool.DisclosureTool? || tool.TrendTool? then !Truthy(Param(data, "corp_code"))
    else tool.TakesEitherIdentifier() && NoIdentifier(data)
  }

  /** The error message for a missing required parameter. */
  function MissingMessage(tool: Tool): string {
    if tool.SearchTool? then NeedCompanyName
    else if tool.DisclosureTool? || tool.TrendTool? then NeedCorpCode
    else NeedCorpCodeOrName
  }

  /** `call_tool_http(tool_name, request_data)` */
  function Dispatch(name: string, data: Body): Dispatched {
    Route(ToolNamed(name), data)
  }

  /** The route each tool takes, with its early returns. */
  function Route(tool: Tool, data: Body): Dispatched {
    if MaskingFails(data) then Dispatched(CallFailed, data)
    else if tool.HealthTool? then Dispatched(Health, data)
    else if tool.UnknownTool? then Dispatched(ToolNotFound, data)
    else if MissesRequired(tool, data) then Dispatched(MissingParameter(MissingMessage(tool)), data)
    else
      var d := if tool.Coerces() then Converted(data, ["bsns_year", "reprt_code"]) else data;
      var corpCode, name := Param(d, "corp_code"), Param(d, "company_name");
      var year, code := Param(d, "bsns_year"), Get(d, "reprt_code", VStr("11011"));
      var creds := ExtractCreds(data);
      match tool
      case SearchTool => Dispatched(Invoke(SearchCompany(name), creds, d), d)
      case FinancialTool => Dispatched(Invoke(FinancialStatement(corpCode, name, year, code), creds, d), d)
      case DisclosureTool =>
        var call := PublicDisclosure(corpCode, Param(d, "bgn_de"), Param(d, "end_de"),
                                     Get(d, "page_no", VInt(1)), Get(d, "page_count", VInt(10)));
        Dispatched(Invoke(call, creds, d), d)
      case TrendTool => Dispatched(Invoke(FinancialTrend(corpCode, Get(d, "years", VInt(5))), creds, d), d)
      case OverviewTool => Dispatched(Invoke(CompanyOverview(corpCode, name), creds, d), d)
      case ShareholdersTool => Dispatched(Invoke(Shareholders(corpCode, name, year, code), creds, d), d)
      case ExecutivesTool => Dispatched(CallFailed, d)
  }

  /**
   * A key whose masking raises fails every call, `health` and unknown names
   * included, before the body is touched; otherwise only the executives
   * route fails, once past its check.
   */
  lemma CallFailedCases(name: string, data: Body)
    ensures MaskingFails(data) ==> Dispatch(name, data) == Dispatched(CallFailed, data)
    ensures Dispatch(name, data).response == CallFailed
            <==> MaskingFails(data) || (ToolNamed(name).ExecutivesTool? && !NoIdentifier(data))
  {
  }

  /**
   * The four tools that take either identifier refuse the call, before any
   * lookup and without touching the body, exactly when the key can be masked
   * and both identifiers are falsy.
   */
  lemma IdentifierRequired(tool: Tool, data: Body)
    requires tool.TakesEitherIdentifier()
    ensures Route(tool, data).response == MissingParameter(NeedCorpCodeOrName)
            <==> !MaskingFails(data) && NoIdentifier(data)
    ensures NoIdentifier(data) ==> Route(tool, data).data == data
  {
  }

  /** The search tool refuses a falsy `company_name`, and only that, once the key has been masked. */
  lemma CompanyNameRequired(data: Body)
    ensures Route(SearchTool, data).response == MissingParameter(NeedCompanyName)
            <==> !MaskingFails(data) && !Truthy(Param(data, "company_name"))
  {
  }

  /**
   * The disclosure and trend tools refuse a falsy `corp_code` (a company name
   * is not enough), and only that, once the key has been masked.
   */
  lemma CorpCodeRequired(tool: Tool, data: Body)
    requires tool.DisclosureTool? || tool.TrendTool?
    ensures Route(tool, data).response == MissingParameter(NeedCorpCode)
            <==> !MaskingFails(data) && !Truthy(Param(data, "corp_code"))
  {
  }

  /**
   * "Tool not found" is answered, the body untouched, exactly for a name that
   * is no tool's when the key can be masked.
   */
  lemma UnknownToolName(name: string, data: Body)
    ensures Dispatch(name, data).response == ToolNotFound
            <==> !MaskingFails(data) && forall t: Tool :: !t.UnknownTool? ==> ToolName(t) != name
    ensures Dispatch(name, data).response == ToolNotFound ==> Dispatch(name, data).data == data
  {
    ToolNamedInverse(name);
  }

  /**
   * The body a route leaves, and the body and credentials a lookup it reaches
   * runs with; a lookup is reached only when the key could be masked.
   */
  lemma RoutedBody(tool: Tool, data: Body)
    ensures var r := Route(tool, data);
            && r.data == (if tool.Coerces() && !MaskingFails(data) && !NoIdentifier(data)
                          then Converted(data, ["bsns_year", "reprt_code"]) else data)
            && (r.response.Invoke? ==> !MaskingFails(data) && r.response.creds == ExtractCreds(data) && r.response.arguments == r.data)
  {
  }

  /**
   * The key a lookup reached through the route resolves inside
   * `temporary_env(creds)`, with the body it is given as `arguments`: a
   * truthy override is always a string there (any other type failed the
   * masking first) and is used as it is; a falsy non-`None` override has been
   * written to the environment as `str(value)`, so the lookup reads that
   * text; otherwise the key the environment had.
   */
  lemma CredentialsInsideBlock(tool: Tool, data: Body, text: string, environ: Environ)
    ensures var r := Route(tool, data).response;
            var given := VDict(data, text);
            r.Invoke? ==>
              var key := GetCredentials(VDict(r.arguments, text), Applied(environ, r.creds));
              && (HasOverride(given) && Truthy(Override(given)) ==>
                    Override(given).VStr? && key == Some(Override(given).s))
              && (HasOverride(given) && !Truthy(Override(given)) && !Override(given).VNone? ==>
                    key == Some(PyStr(Override(given))))
              && (!HasOverride(given) || Override(given).VNone? ==>
                    key == Some(if KeyName in environ then environ[KeyName] else ""))
  {
    var r := Route(tool, data);
    if r.response.Invoke? {
      RoutedBody(tool, data);
      ConvertedEntries(data, ["bsns_year", "reprt_code"]);
      var arguments := VDict(r.response.arguments, text);
      assert EnvOf(r.response.arguments) == EnvOf(data);
      var creds := ExtractCreds(data);
      CredsFromEnv(data, text);
      CredsFromEnv(r.response.arguments, text);
      AppliedValue(environ, creds, KeyName);
      if creds != [] {
        assert creds[0].0 == KeyName;
      }
    }
  }

  /**
   * The body is changed only by the three coercing tools, and only when the
   * key could be masked and the call passed its check, and then only at
   * `bsns_year` and `reprt_code`, where a value that is neither `None` nor a
   * string becomes `str(value)`; every lookup it reaches runs with `creds`
   * and with the body as it now is.
   */
  lemma BodyChanges(tool: Tool, data: Body)
    ensures var r := Route(tool, data);
            && r.data.Keys == data.Keys
            && (forall k :: k in data && k != "bsns_year" && k != "reprt_code" ==> r.data[k] == data[k])
            && (!tool.Coerces() || MaskingFails(data) ==> r.data == data)
            && (tool.Coerces() && !MaskingFails(data) && !NoIdentifier(data) ==>
                  forall k :: k in data && (k == "bsns_year" || k == "reprt_code") ==> r.data[k] == ConvertedValue(data[k]))
            && (r.response.Invoke? ==> r.response.creds == ExtractCreds(data) && r.response.arguments == r.data)
  {
    RoutedBody(tool, data);
    ConvertedEntries(data, ["bsns_year", "reprt_code"]);
  }

  /**
   * The defaults the routes fill in: `reprt_code` "11011" for the period
   * lookups, page 1 of 10 entries for disclosures, five years for the trend;
   * a present period parameter reaches the lookup as a string (or `None`).
   */
  lemma Defaults(tool: Tool, data: Body)
    ensures var r := Route(tool, data).response;
            && (r.Invoke? && (r.call.FinancialStatement? || r.call.Shareholders?) ==>
                  && r.call.reprtCode == (if "reprt_code" in data then ConvertedValue(data["reprt_code"]) else VStr("11011"))
                  && r.call.bsnsYear == (if "bsns_year" in data then ConvertedValue(data["bsns_year"]) else VNone)
                  && (r.call.reprtCode.VStr? || r.call.reprtCode.VNone?)
                  && (r.call.bsnsYear.VStr? || r.call.bsnsYear.VNone?))
            && (r.Invoke? && r.call.PublicDisclosure? ==>
                  r.call.pageNo == Get(data, "page_no", VInt(1)) && r.call.pageCount == Get(data, "page_count", VInt(10)))
            && (r.Invoke? && r.call.FinancialTrend? ==> r.call.years == Get(data, "years", VInt(5)))
  {
    if tool.Coerces() && !MaskingFails(data) && !NoIdentifier(data) {
      ConvertedEntries(data, ["bsns_year", "reprt_code"]);
    }
  }

  /** The executives route never reaches its lookup: it refuses the call or fails. */
  lemma ExecutivesNeverInvoked(data: Body)
    ensures Route(ExecutivesTool, data).response
            == if !MaskingFails(data) && NoIdentifier(data) then MissingParameter(NeedCorpCodeOrName) else CallFailed
  {
  }

  /** The request body, which `convert_to_str` changes in place. */
  class Request {
    var data: Body

    constructor (body: Body)
      ensures data == body
    {
      data := body;
    }

    /** `convert_to_str(request_data, keys)` */
    method ConvertToStr(keys: seq<string>)
      modifies this
      ensures data == Converted(old(data), keys)
    {
      var i := 0;
      while i < |keys|
        invariant 0 <= i <= |keys|
        invariant data == Converted(old(data), keys[..i])
      {
        var key := keys[i];
        assert keys[..i + 1][..i] == keys[..i];
        if key in data && !data[key].VNone? && !data[key].VStr? {
          data := data[key := VStr(PyStr(data[key]))];
        }
        i := i + 1;
      }
      assert keys[..i] == keys;
    }

    /** `call_tool_http`: the answer, with the body as the route leaves it. */
    method CallTool(name: string) returns (response: Response)
      modifies this
      ensures response == Dispatch(name, old(data)).response
      ensures data == Dispatch(name, old(data)).data
    {
      var tool := ToolNamed(name);
      var creds := ExtractCreds(data);
      if creds != [] && Truthy(creds[0].1) && !creds[0].1.VStr? {
        return CallFailed;
      } else if tool.HealthTool? {
        return Health;
      } else if tool.UnknownTool? {
        return ToolNotFound;
      } else if MissesRequired(tool, data) {
        return MissingParameter(MissingMessage(tool));
      }
      if tool.Coerces() {
        ConvertToStr(["bsns_year", "reprt_code"]);
      }
      var corpCode, companyName := Param(data, "corp_code"), Param(data, "company_name");
      var year, code := Param(data, "bsns_year"), Get(data, "reprt_code", VStr("11011"));
      match tool
      case SearchTool =>
        response := Invoke(SearchCompany(companyName), creds, data);
      case FinancialTool =>
        response := Invoke(FinancialStatement(corpCode, companyName, year, code), creds, data);
      case DisclosureTool =>
        var call := PublicDisclosure(corpCode, Param(data, "bgn_de"), Param(data, "end_de"),
                                     Get(data, "page_no", VInt(1)), Get(data, "page_count", VInt(10)));
        response := Invoke(call, creds, data);
      case TrendTool =>
        response := Invoke(FinancialTrend(corpCode, Get(data, "years", VInt(5))), creds, data);
      case OverviewTool =>
        response := Invoke(CompanyOverview(corpCode, companyName), creds, data);
      case ShareholdersTool =>
        response := Invoke(Shareholders(corpCode, companyName, year, code), creds, data);
      case ExecutivesTool =>
        response := CallFailed;
    }
  }
}
