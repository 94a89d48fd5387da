/**
 * The small part of the W3C DOM Level 2 Core (with DOM Level 3's conversion of
 * an empty namespace URI to no namespace) that the XmlUtil element helpers use: namespace-aware element creation, `setAttributeNS` and `appendChild` of a
 * text node. An element is an object whose attributes and children are updated
 * in place; `ElementValue` is its abstract value.
 */
module Dom {
  import opened Wrappers

  /** `javax.xml.XMLConstants.XMLNS_ATTRIBUTE`: the name of a default namespace declaration. */
  const XMLNS_ATTRIBUTE: string := "xmlns"
  /** `javax.xml.XMLConstants.XMLNS_ATTRIBUTE_NS_URI`: the namespace of every declaration attribute. */
  const XMLNS_ATTRIBUTE_NS_URI: string := "http://www.w3.org/2000/xmlns/"

  /** The namespace an element gets from a namespace URI argument: the JDK's DOM
      (DOM Level 3 Core) treats the empty URI as no namespace. */
  function NamespaceOf(uri: string): (r: Option<string>)
    ensures r.None? <==> uri == ""
    ensures r.Some? ==> r.value == uri
  {
    if uri == "" then None else Some(uri)
  }

  /** A qualified name taken apart: the optional prefix and the local part. */
  datatype QName = QName(prefix: Option<string>, localName: string)

  /** The position of the first `c` in `s` (Java's `indexOf`), None when there is none. */
  function IndexOf(s: string, c: char): (r: Option<nat>)
    ensures r.None? <==> c !in s
    ensures r.Some? ==> r.value < |s| && s[r.value] == c && c !in s[..r.value]
  {
    if |s| == 0 then None
    else if s[0] == c then Some(0)
    else
      match IndexOf(s[1..], c)
      case None => None
      case Some(i) =>
        assert s[..i + 1] == [s[0]] + s[1..][..i];
        Some(i + 1)
  }

  /** Splits a qualified name at its first colon, as `createElementNS` and `setAttributeNS` do. */
  function SplitQName(qname: string): (r: QName)
    ensures r.prefix.None? <==> ':' !in qname
    ensures r.prefix.None? ==> r.localName == qname
    ensures r.prefix.Some? ==> ':' !in r.prefix.value && qname == r.prefix.value + ":" + r.localName
  {
    match IndexOf(qname, ':')
    case None => QName(None, qname)
    case Some(i) =>
      assert qname == qname[..i] + ":" + qname[i + 1..];
      QName(Some(qname[..i]), qname[i + 1..])
  }

  /** Writes a qualified name back out: `prefix:local`, or `local` alone. */
  function JoinQName(q: QName): string
  {
    match q.prefix
    case None => q.localName
    case Some(p) => p + ":" + q.localName
  }

  /** Splitting a joined name gives back its parts, provided the prefix has no colon of its own. */
  lemma {:induction false} SplitJoin(q: QName)
    requires q.prefix.None? ==> ':' !in q.localName
    requires q.prefix.Some? ==> ':' !in q.prefix.value
    ensures SplitQName(JoinQName(q)) == q
  {
    var s := JoinQName(q);
    if q.prefix.Some? {
      // the colon after the prefix is the first one in `s`
      var p := q.prefix.value;
      assert s[|p|] == ':';
      assert ':' in s;
      assert s[..|p|] == p;
      assert s[|p| + 1..] == q.localName;
    }
  }

  /** An attribute is identified by its namespace URI and its local name. */
  datatype AttrKey = AttrKey(namespaceUri: string, localName: string)

  /** What an attribute holds: the qualified name it was last set with, and its value. */
  datatype Attr = Attr(qualifiedName: string, value: string)

  /** The only child nodes the helpers create: text nodes. */
  datatype Node = Text(data: string)

  /** The abstract value of an element. `prefix` is fixed when the element is created. */
  datatype ElementValue = ElementValue(
    tagName: string,
    namespaceUri: Option<string>,
    prefix: Option<string>,
    attributes: map<AttrKey, Attr>,
    children: seq<Node>)

  /** The element after `setAttributeNS(namespaceUri, qualifiedName, value)`. */
  function WithAttributeNS(e: ElementValue, namespaceUri: string, qualifiedName: string, value: string): (r: ElementValue)
    ensures r.attributes.Keys == e.attributes.Keys + {AttrKey(namespaceUri, SplitQName(qualifiedName).localName)}
    ensures r.attributes[AttrKey(namespaceUri, SplitQName(qualifiedName).localName)] == Attr(qualifiedName, value)
    ensures forall k :: k in e.attributes && k != AttrKey(namespaceUri, SplitQName(qualifiedName).localName) ==>
                          r.attributes[k] == e.attributes[k]
    ensures r.(attributes := e.attributes) == e
  {
    var key := AttrKey(namespaceUri, SplitQName(qualifiedName).localName);
    e.(attributes := e.attributes[key := Attr(qualifiedName, value)])
  }

  /** The element after `appendChild(child)`. */
  function WithChild(e: ElementValue, child: Node): (r: ElementValue)
    ensures |r.children| == |e.children| + 1 && r.children[|e.children|] == child
    ensures r.children[..|e.children|] == e.children
    ensures r.(children := e.children) == e
  {
    e.(children := e.children + [child])
  }

  /** The attribute key of the declaration for `prefix`: `xmlns:prefix`, or `xmlns` for the default namespace. */
  function DeclarationKey(prefix: Option<string>): AttrKey
  {
    match prefix
    case None => AttrKey(XMLNS_ATTRIBUTE_NS_URI, XMLNS_ATTRIBUTE)
    case Some(p) => AttrKey(XMLNS_ATTRIBUTE_NS_URI, p)
  }

  /** The namespace the element's own declarations bind `prefix` to, if it declares one. */
  function DeclaredNamespace(e: ElementValue, prefix: Option<string>): Option<string>
  {
    var key := DeclarationKey(prefix);
    if key in e.attributes then Some(e.attributes[key].value) else None
  }

  /** A DOM element, updated in place by `setAttributeNS` and `appendChild`. */
  class Element {
    const tagName: string
    const namespaceUri: Option<string>
    const prefix: Option<string>
    var attributes: map<AttrKey, Attr>
    var children: seq<Node>

    function Value(): ElementValue
      reads this
    {
      ElementValue(tagName, namespaceUri, prefix, attributes, children)
    }

    /** `Document.createElement(tagName)`: no namespace, no prefix, no attributes, no children. */
    constructor Unqualified(tagName: string)
      ensures Value() == ElementValue(tagName, None, None, map[], [])
    {
      this.tagName := tagName;
      this.namespaceUri := None;
      this.prefix := None;
      this.attributes := map[];
      this.children := [];
    }

    /** `Document.createElementNS(namespaceUri, qualifiedName)`: the prefix is the part before the first colon. */
    constructor Qualified(namespaceUri: string, qualifiedName: string)
      ensures Value() == ElementValue(qualifiedName, NamespaceOf(namespaceUri), SplitQName(qualifiedName).prefix, map[], [])
    {
      this.tagName := qualifiedName;
      this.namespaceUri := NamespaceOf(namespaceUri);
      this.prefix := SplitQName(qualifiedName).prefix;
      this.attributes := map[];
      this.children := [];
    }

    /** `setAttributeNS`: adds the attribute, or replaces the one with the same namespace and local name. */
    method SetAttributeNS(namespaceUri: string, qualifiedName: string, value: string)
      modifies this
      ensures Value() == WithAttributeNS(old(Value()), namespaceUri, qualifiedName, value)
    {
      var key := AttrKey(namespaceUri, SplitQName(qualifiedName).localName);
      attributes := attributes[key := Attr(qualifiedName, value)];
    }

    /** `appendChild`: adds `child` after the existing children. */
    method AppendChild(child: Node)
      modifies this
      ensures Value() == WithChild(old(Value()), child)
    {
      children := children + [child];
    }
  }
}
