// An already-parsed XML document, as ElementTree presents it: a tag, an
// attribute dictionary whose keys are raw strings (a namespaced attribute
// has the key "{uri}Name"), the optional text, and the children in order.
module Xml {
  import opened Wrappers

  datatype Element = Element(tag: string, attrs: map<string, string>, text: Option<string>, children: seq<Element>)

  const DtsUri := "www.microsoft.com/SqlServer/Dts"
  const PipelineUri := "www.microsoft.com/sqlserver/dts/pipeline"
  const SqlTaskUri := "www.microsoft.com/sqlserver/dts/tasks/sqltask"

  /** The Clark name "{uri}local" that ElementTree uses for a prefixed name. */
  function Qualified(uri: string, local: string): string {
    "{" + uri + "}" + local
  }

  /** `DTS:local` resolved through the package's namespace table. */
  function Dts(local: string): string {
    Qualified(DtsUri, local)
  }

  /** `element.get(key, default)`. */
  function Get(e: Element, key: string, default: string): string {
    if key in e.attrs then e.attrs[key] else default
  }

  /**
   * The parsers' `_get_attr`: the attribute under its namespaced key
   * "{uri}name" if present (even when empty), else under the bare name,
   * else the default.
   */
  function GetNsAttr(e: Element, uri: string, name: string, default: string): (r: string)
    ensures Qualified(uri, name) in e.attrs ==> r == e.attrs[Qualified(uri, name)]
    ensures Qualified(uri, name) !in e.attrs && name in e.attrs ==> r == e.attrs[name]
    ensures Qualified(uri, name) !in e.attrs && name !in e.attrs ==> r == default
  {
    var key := Qualified(uri, name);
    if key in e.attrs then e.attrs[key] else Get(e, name, default)
  }

  /** `_get_attr(element, name, namespaces, default)` for a `DTS:` attribute. */
  function DtsAttr(e: Element, name: string, default: string := ""): (r: string)
    ensures Dts(name) in e.attrs ==> r == e.attrs[Dts(name)]
    ensures Dts(name) !in e.attrs && name in e.attrs ==> r == e.attrs[name]
    ensures Dts(name) !in e.attrs && name !in e.attrs ==> r == default
  {
    GetNsAttr(e, DtsUri, name, default)
  }

  /** `element.find(tag)`: the first direct child carrying `tag`. */
  function Find(children: seq<Element>, tag: string): (r: Option<Element>)
    ensures r.Some? ==> r.value in children && r.value.tag == tag
    ensures r.None? <==> forall k :: 0 <= k < |children| ==> children[k].tag != tag
  {
    if |children| == 0 then None
    else if children[0].tag == tag then Some(children[0])
    else Find(children[1..], tag)
  }

  /** The child `find` returns is the first one with the tag: every child before it carries another tag. */
  lemma {:induction false} FindIsFirst(children: seq<Element>, tag: string)
    ensures Find(children, tag).Some? ==>
      exists k :: 0 <= k < |children| && children[k] == Find(children, tag).value
        && forall j :: 0 <= j < k ==> children[j].tag != tag
  {
    if |children| > 0 && children[0].tag != tag && Find(children, tag).Some? {
      FindIsFirst(children[1..], tag);
      var k :| 0 <= k < |children[1..]| && children[1..][k] == Find(children, tag).value
        && forall j :: 0 <= j < k ==> children[1..][j].tag != tag;
      assert children[k + 1] == Find(children, tag).value;
      forall j | 0 <= j < k + 1 ensures children[j].tag != tag {
        if j > 0 { assert children[j] == children[1..][j - 1]; }
      }
    }
  }

  /** `element.find(tag)` on an element. */
  function FindChild(e: Element, tag: string): Option<Element> {
    Find(e.children, tag)
  }

  /** `element.find(first)`, falling back to `element.find(second)`. */
  function FindEither(e: Element, first: string, second: string): Option<Element> {
    match FindChild(e, first)
    case Some(c) => Some(c)
    case None => FindChild(e, second)
  }

  /** `element.findall(tag)`: the direct children carrying `tag`, in order. */
  function FindAll(children: seq<Element>, tag: string): (r: seq<Element>)
    ensures |r| <= |children|
    ensures forall k :: 0 <= k < |r| ==> r[k].tag == tag && r[k] in children
    ensures forall c :: c in children && c.tag == tag ==> c in r
  {
    if |children| == 0 then []
    else if children[0].tag == tag then [children[0]] + FindAll(children[1..], tag)
    else FindAll(children[1..], tag)
  }

  /** `findall` keeps document order and multiplicity: the children of a concatenation are found piecewise. */
  lemma {:induction false} FindAllAppend(a: seq<Element>, b: seq<Element>, tag: string)
    ensures FindAll(a + b, tag) == FindAll(a, tag) + FindAll(b, tag)
  {
    if |a| > 0 {
      assert (a + b)[1..] == a[1..] + b;
      FindAllAppend(a[1..], b, tag);
    } else {
      assert a + b == b;
    }
  }

  /** A single child is found exactly when it carries the tag. */
  lemma FindAllOne(c: Element, tag: string)
    ensures FindAll([c], tag) == if c.tag == tag then [c] else []
  {
    assert [c][1..] == [];
  }

  /** `findall(first)`, and if that finds nothing, `findall(second)`. */
  function FindAllEither(e: Element, first: string, second: string): seq<Element> {
    var a := FindAll(e.children, first);
    if |a| > 0 then a else FindAll(e.children, second)
  }

  /** `element.findall(".//tag")`: every proper descendant with `tag`, in document order. */
  function Descendants(e: Element, tag: string): seq<Element>
    decreases e, 0
  {
    DescendantsOf(e.children, tag)
  }

  function DescendantsOf(children: seq<Element>, tag: string): seq<Element>
    decreases children, 1
  {
    if |children| == 0 then []
    else
      var c := children[0];
      (if c.tag == tag then [c] else []) + Descendants(c, tag) + DescendantsOf(children[1..], tag)
  }

  /** `element.iter()`: the element itself and then its descendants, in document order. */
  function Iter(e: Element): seq<Element>
    decreases e, 0
  {
    [e] + IterAll(e.children)
  }

  function IterAll(children: seq<Element>): seq<Element>
    decreases children, 1
  {
    if |children| == 0 then [] else Iter(children[0]) + IterAll(children[1..])
  }

  lemma {:induction false} DescendantsHaveTag(e: Element, tag: string)
    ensures forall k :: 0 <= k < |Descendants(e, tag)| ==> Descendants(e, tag)[k].tag == tag
    decreases e, 0
  {
    DescendantsOfHaveTag(e.children, tag);
  }

  lemma {:induction false} DescendantsOfHaveTag(children: seq<Element>, tag: string)
    ensures forall k :: 0 <= k < |DescendantsOf(children, tag)| ==> DescendantsOf(children, tag)[k].tag == tag
    decreases children, 1
  {
    if |children| > 0 {
      DescendantsHaveTag(children[0], tag);
      DescendantsOfHaveTag(children[1..], tag);
    }
  }

  /** A direct child with the tag is also found by the descendant search. */
  lemma {:induction false} FindAllAmongDescendants(e: Element, tag: string, c: Element)
    requires c in FindAll(e.children, tag)
    ensures c in Descendants(e, tag)
  {
    FindAllInDescendantsOf(e.children, tag, c);
  }

  lemma {:induction false} FindAllInDescendantsOf(children: seq<Element>, tag: string, c: Element)
    requires c in FindAll(children, tag)
    ensures c in DescendantsOf(children, tag)
    decreases |children|
  {
    if children[0].tag == tag && c == children[0] {
    } else {
      FindAllInDescendantsOf(children[1..], tag, c);
    }
  }
}
