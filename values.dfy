/**
 * The dynamically typed values that arrive in a tool call's JSON body and in
 * upstream JSON replies, with Python's truthiness and `str()`.
 */
module Values {
  import opened Text

  /**
   * A Python value. A dictionary keeps its entries and, beside them, the
   * text `str()` renders it as: that text depends on insertion order, which
   * a map does not record. Every other kind of value (a list, a float, ...)
   * is `VOther`, known only by its `str()` text and its truthiness.
   */
  datatype Value =
    | VNone
    | VBool(b: bool)
    | VInt(i: int)
    | VStr(s: string)
    | VDict(entries: map<string, Value>, text: string)
    | VOther(text: string, truthy: bool)

  /** `bool(v)` */
  predicate Truthy(v: Value) {
    match v
    case VNone => false
    case VBool(b) => b
    case VInt(i) => i != 0
    case VStr(s) => s != ""
    case VDict(entries, _) => |entries| > 0
    case VOther(_, truthy) => truthy
  }

  /** `str(v)` */
  function PyStr(v: Value): string {
    match v
    case VNone => "None"
    case VBool(b) => if b then "True" else "False"
    case VInt(i) => IntToString(i)
    case VStr(s) => s
    case VDict(_, text) => text
    case VOther(text, _) => text
  }

  /** `d.get(key, default)` on a dictionary's entries. */
  function Get(d: map<string, Value>, key: string, default: Value): Value {
    if key in d then d[key] else default
  }
}
