/**
 * The upstream registry API as the lookups see it: the requests they send
 * and the replies they may get. Replies are inputs of the model; the
 * network, ZIP extraction, XML parsing and JSON decoding are not modelled.
 */
module Upstream {
  import opened Common
  import opened Values
  import opened Registry
  import opened XmlDoc

  /** One upstream request, with every query parameter it carries. */
  datatype Query =
    | CorpCodeQuery(key: string)
    | FinancialQuery(key: string, corpCode: string, bsnsYear: string, reprtCode: string, fsDiv: string)
    | DisclosureQuery(key: string, corpCode: string, bgnDe: string, endDe: string, pageNo: int, pageCount: int)
    | CompanyQuery(key: string, corpCode: string)
    | MajorReportQuery(key: string, corpCode: string, bgnDe: string, endDe: string)
    | DocumentQuery(key: string, rceptNo: string, format: string)
    | ExecutivesQuery(key: string, corpCode: string)
    | ShareholdersQuery(key: string, corpCode: string, bsnsYear: string, reprtCode: string)

  /**
   * The reply to a JSON endpoint: its decoded `status`, `message`, `list`
   * (`[]` when absent), `total_count` (`0` when absent) and the whole
   * object; or the `RequestException` the call raised (transport failure,
   * an HTTP error status, or a body that is not JSON).
   */
  datatype JsonReply =
    | Answer(status: Option<string>, message: Option<string>, list: seq<Value>, totalCount: Value, body: Value)
    | JsonRequestFailed(detail: string)

  /** The reply to the registry download, after ZIP extraction and XML parsing. */
  datatype RegistryReply =
    | Listing(entries: seq<CorpEntry>)
    | RegistryRequestFailed(detail: string)
    | ArchiveWithoutXml
    | ArchiveUnreadable(detail: string)

  /** The outcome of parsing a downloaded XML document. */
  datatype ParsedXml = WellFormed(root: Element) | Malformed(detail: string)

  /** The reply to a document download: its text, byte size, parse and base64 encoding. */
  datatype DocumentReply =
    | Fetched(text: string, size: nat, tree: ParsedXml, base64: string)
    | DocumentRequestFailed(detail: string)

  /** The upstream API: what each endpoint answers to each request. */
  datatype Provider = Provider(
    registry: Query -> RegistryReply,
    json: Query -> JsonReply,
    document: Query -> DocumentReply)

  /** What the lookups read from the clock: the year, today and the day thirty days ago (`YYYYMMDD`). */
  datatype Clock = Clock(year: int, today: string, monthAgo: string)
}
