/**
 * `xml_to_dict` in `download_disclosure_document` (src/tools.py): a parsed
 * XML element becomes a dictionary with an optional `"text"` entry, an
 * optional `"attributes"` entry and one entry per child tag, a tag seen more
 * than once collecting its children in a list.
 */
module XmlDoc {
  import opened Common
  import opened Text

  /** An element of the parsed document (what ElementTree yields). */
  datatype Element = Element(tag: string, text: Option<string>, attrib: map<string, string>, children: seq<Element>)

  /** A value of the dictionary `xml_to_dict` builds. */
  datatype XmlValue =
    | XText(s: string)
    | XAttributes(attrs: map<string, string>)
    | XDict(fields: map<string, XmlValue>)
    | XList(items: seq<XmlValue>)

  /** The entries set before any child is visited: the stripped text and the attributes. */
  function Base(e: Element): map<string, XmlValue> {
    var withText := if e.text.Some? && e.text.value != "" && Strip(e.text.value) != ""
                    then map["text" := XText(Strip(e.text.value))] else map[];
    if |e.attrib| > 0 then withText["attributes" := XAttributes(e.attrib)] else withText
  }

  /** Adds one child's dictionary under its tag, promoting an existing entry to a list. */
  function Insert(m: map<string, XmlValue>, tag: string, v: XmlValue): map<string, XmlValue> {
    if tag in m then
      var items := if m[tag].XList? then m[tag].items else [m[tag]];
      m[tag := XList(items + [v])]
    else m[tag := v]
  }

  /** The dictionary `xml_to_dict(e)` returns. */
  function Convert(e: Element): map<string, XmlValue>
    decreases e, 1
  {
    FoldChildren(e, |e.children|)
  }

  /** The dictionary after the first `n` children of `e` have been added. */
  function FoldChildren(e: Element, n: nat): map<string, XmlValue>
    requires n <= |e.children|
    decreases e, 0, n
  {
    if n == 0 then Base(e)
    else
      var child := e.children[n - 1];
      Insert(FoldChildren(e, n - 1), child.tag, XDict(Convert(child)))
  }

  /** `xml_to_dict`, which fills `result` in place while it visits the children. */
  method XmlToDict(e: Element) returns (result: map<string, XmlValue>)
    ensures result == Convert(e)
    decreases e
  {
    result := map[];
    if e.text.Some? && e.text.value != "" && Strip(e.text.value) != "" {
      result := result["text" := XText(Strip(e.text.value))];
    }
    if |e.attrib| > 0 {
      result := result["attributes" := XAttributes(e.attrib)];
    }
    var i := 0;
    while i < |e.children|
      invariant 0 <= i <= |e.children|
      invariant result == FoldChildren(e, i)
    {
      var child := e.children[i];
      var childData := XmlToDict(child);
      var tag := child.tag;
      if tag in result {
        if !result[tag].XList? {
          result := result[tag := XList([result[tag]])];
        }
        result := result[tag := XList(result[tag].items + [XDict(childData)])];
      } else {
        result := result[tag := XDict(childData)];
      }
      i := i + 1;
    }
  }

  /** The converted children among the first `n` whose tag is `tag`, in document order. */
  function Tagged(e: Element, tag: string, n: nat): (r: seq<XmlValue>)
    requires n <= |e.children|
    ensures forall v :: v in r ==> v.XDict?
  {
    if n == 0 then []
    else
      var child := e.children[n - 1];
      Tagged(e, tag, n - 1) + (if child.tag == tag then [XDict(Convert(child))] else [])
  }

  /** How the entry under `tag` describes the list `t` of dictionaries added under it. */
  predicate Describes(m: map<string, XmlValue>, tag: string, t: seq<XmlValue>) {
    && (|t| == 0 <==> tag !in m)
    && (|t| == 1 ==> m[tag] == t[0])
    && (|t| >= 2 ==> m[tag] == XList(t))
  }

  /** Adding a dictionary under `tag` extends the list the entry describes. */
  lemma InsertSameTag(m: map<string, XmlValue>, tag: string, t: seq<XmlValue>, v: XmlValue)
    requires Describes(m, tag, t) && forall x :: x in t ==> x.XDict?
    ensures Describes(Insert(m, tag, v), tag, t + [v])
  {
    if |t| == 1 {
      assert t[0] in t;
      assert t + [v] == [t[0], v];
    }
  }

  /** Adding under another tag leaves the entry under `tag` as it was. */
  lemma InsertOtherTag(m: map<string, XmlValue>, tag: string, other: string, t: seq<XmlValue>, v: XmlValue)
    requires Describes(m, tag, t) && other != tag
    ensures Describes(Insert(m, other, v), tag, t)
  {
  }

  /**
   * For a tag that the text and attributes do not already occupy: no entry
   * when no child has it, the one child's dictionary when one child has it,
   * and the list of all their dictionaries, in document order, when several do.
   */
  lemma {:induction false} TaggedEntry(e: Element, tag: string, n: nat)
    requires n <= |e.children| && tag !in Base(e)
    ensures Describes(FoldChildren(e, n), tag, Tagged(e, tag, n))
  {
    if n > 0 {
      TaggedEntry(e, tag, n - 1);
      var child := e.children[n - 1];
      var prev, t' := FoldChildren(e, n - 1), Tagged(e, tag, n - 1);
      var v := XDict(Convert(child));
      assert FoldChildren(e, n) == Insert(prev, child.tag, v);
      if child.tag == tag {
        assert Tagged(e, tag, n) == t' + [v];
        InsertSameTag(prev, tag, t', v);
      } else {
        assert Tagged(e, tag, n) == t';
        InsertOtherTag(prev, tag, child.tag, t', v);
      }
    }
  }

  /** A key that is no child's tag keeps the entry the text and attributes gave it. */
  lemma {:induction false} UntaggedKeyKept(e: Element, key: string, n: nat)
    requires n <= |e.children|
    requires forall i :: 0 <= i < n ==> e.children[i].tag != key
    ensures key in FoldChildren(e, n) <==> key in Base(e)
    ensures key in Base(e) ==> FoldChildren(e, n)[key] == Base(e)[key]
  {
    if n > 0 {
      UntaggedKeyKept(e, key, n - 1);
    }
  }

  /** Every key of the result is `"text"`, `"attributes"` or the tag of some child, and every child tag is a key. */
  lemma {:induction false} ConvertKeys(e: Element, n: nat)
    requires n <= |e.children|
    ensures forall key :: key in FoldChildren(e, n) <==>
              key in Base(e) || exists i :: 0 <= i < n && e.children[i].tag == key
    ensures Base(e).Keys <= {"text", "attributes"}
  {
    if n > 0 {
      ConvertKeys(e, n - 1);
    }
  }

  /**
   * Without a child tagged `"text"`, the `"text"` entry is present exactly
   * when the element's stripped text is non-empty, and holds that text.
   */
  lemma TextEntry(e: Element)
    requires forall i :: 0 <= i < |e.children| ==> e.children[i].tag != "text"
    ensures var m := Convert(e);
            && ("text" in m <==> e.text.Some? && Strip(e.text.value) != "")
            && ("text" in m ==> m["text"] == XText(Strip(e.text.value)))
  {
    UntaggedKeyKept(e, "text", |e.children|);
  }

  /**
   * Without a child tagged `"attributes"`, the `"attributes"` entry is present
   * exactly when the element has attributes, and holds them.
   */
  lemma AttributesEntry(e: Element)
    requires forall i :: 0 <= i < |e.children| ==> e.children[i].tag != "attributes"
    ensures var m := Convert(e);
            && ("attributes" in m <==> |e.attrib| > 0)
            && ("attributes" in m ==> m["attributes"] == XAttributes(e.attrib))
  {
    UntaggedKeyKept(e, "attributes", |e.children|);
  }
}
