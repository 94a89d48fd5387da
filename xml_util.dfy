/**
 * The element-construction helpers of XmlUtil. Each creates a fresh element,
 * gives it the namespace declaration its qualified name calls for (`xmlns`, or
 * `xmlns:<prefix>`, as in section 4 of Namespaces in XML 1.0) and, for the text
 * helpers, one text child. `netconfPrefix` stands for
 * `XmlNetconfConstants.PREFIX`, whose value is not part of this model.
 */
module XmlUtil {
  import opened Wrappers
  import opened Dom

  /** `createPrefixedValue(prefix, value)`: `prefix:value`. */
  function CreatePrefixedValue(prefix: string, value: string): (r: string)
    ensures |r| == |prefix| + 1 + |value|
    ensures r[..|prefix|] == prefix && r[|prefix|] == ':' && r[|prefix| + 1..] == value
  {
    prefix + ":" + value
  }

  /** A prefixed value splits back into the prefix and the value when the prefix has no colon. */
  lemma PrefixedValueSplits(prefix: string, value: string)
    requires ':' !in prefix
    ensures SplitQName(CreatePrefixedValue(prefix, value)) == QName(Some(prefix), value)
  {
    SplitJoin(QName(Some(prefix), value));
  }

  /** The name of the attribute that declares `prefix`: `xmlns`, or `xmlns:<prefix>`. */
  function DeclarationName(prefix: Option<string>): string
  {
    match prefix
    case None => XMLNS_ATTRIBUTE
    case Some(p) => XMLNS_ATTRIBUTE + ":" + p
  }

  /** The element `createElement(document, qname, namespaceURI)` returns. */
  function ElementFor(qname: string, namespaceUri: Option<string>): ElementValue
  {
    match namespaceUri
    case None => ElementValue(qname, None, None, map[], [])
    case Some(uri) =>
      var created := ElementValue(qname, NamespaceOf(uri), SplitQName(qname).prefix, map[], []);
      WithAttributeNS(created, XMLNS_ATTRIBUTE_NS_URI, DeclarationName(created.prefix), uri)
  }

  /** The element `createTextElement(document, qname, content, namespaceURI)` returns. */
  function TextElementFor(qname: string, content: string, namespaceUri: Option<string>): ElementValue
  {
    WithChild(ElementFor(qname, namespaceUri), Text(content))
  }

  /** The element the six-argument `createTextElementWithNamespacedContent` returns. */
  function NamespacedContentElementFor(qname: string, prefix: string, namespace: string,
                                       contentWithoutPrefix: string, namespaceUri: Option<string>,
                                       netconfPrefix: string): ElementValue
  {
    var content := CreatePrefixedValue(netconfPrefix, contentWithoutPrefix);
    var element := TextElementFor(qname, content, namespaceUri);
    WithAttributeNS(element, XMLNS_ATTRIBUTE_NS_URI, CreatePrefixedValue(XMLNS_ATTRIBUTE, prefix), namespace)
  }

  /** The declaration attribute `xmlns:<p>` is keyed by the local name `p`, whatever `p` holds. */
  lemma DeclarationNameKey(prefix: Option<string>)
    ensures AttrKey(XMLNS_ATTRIBUTE_NS_URI, SplitQName(DeclarationName(prefix)).localName) == DeclarationKey(prefix)
  {
    assert ':' !in XMLNS_ATTRIBUTE;
    if prefix.Some? {
      PrefixedValueSplits(XMLNS_ATTRIBUTE, prefix.value);
    }
  }

  /** Without a namespace the element is unqualified and carries no declaration. */
  lemma ElementWithoutNamespace(qname: string)
    ensures ElementFor(qname, None).namespaceUri.None? && ElementFor(qname, None).prefix.None?
    ensures ElementFor(qname, None).attributes == map[]
    ensures ElementFor(qname, None).tagName == qname && ElementFor(qname, None).children == []
  {
  }

  /** With a namespace and an unprefixed name, exactly `xmlns = uri` is added. */
  lemma ElementUnprefixed(qname: string, uri: string)
    requires ':' !in qname
    ensures ElementFor(qname, Some(uri)).prefix.None?
    ensures ElementFor(qname, Some(uri)).attributes
            == map[AttrKey(XMLNS_ATTRIBUTE_NS_URI, XMLNS_ATTRIBUTE) := Attr(XMLNS_ATTRIBUTE, uri)]
  {
    DeclarationNameKey(None);
  }

  /** With a namespace and the name `pfx:local`, exactly `xmlns:pfx = uri` is added. */
  lemma ElementPrefixed(pfx: string, local: string, uri: string)
    requires ':' !in pfx
    ensures ElementFor(pfx + ":" + local, Some(uri)).prefix == Some(pfx)
    ensures ElementFor(pfx + ":" + local, Some(uri)).attributes
            == map[AttrKey(XMLNS_ATTRIBUTE_NS_URI, pfx) := Attr("xmlns:" + pfx, uri)]
  {
    PrefixedValueSplits(pfx, local);
    DeclarationNameKey(Some(pfx));
    assert DeclarationName(Some(pfx)) == "xmlns:" + pfx;
  }

  /**
   * With a namespace, the element's own prefix (or the default) is declared, bound
   * to that namespace, and nothing else is. An empty URI gives no element namespace
   * but still the declaration `xmlns="..."` with the empty value.
   */
  lemma ElementDeclaresItsNamespace(qname: string, uri: string)
    ensures DeclaredNamespace(ElementFor(qname, Some(uri)), ElementFor(qname, Some(uri)).prefix) == Some(uri)
    ensures uri != "" ==> ElementFor(qname, Some(uri)).namespaceUri == Some(uri)
    ensures uri == "" ==> ElementFor(qname, Some(uri)).namespaceUri.None?
    ensures |ElementFor(qname, Some(uri)).attributes| == 1
  {
    DeclarationNameKey(ElementFor(qname, Some(uri)).prefix);
  }

  /** A text element is the plain element plus exactly one text child holding `content`. */
  lemma TextElementAddsOneText(qname: string, content: string, namespaceUri: Option<string>)
    ensures TextElementFor(qname, content, namespaceUri).children == [Text(content)]
    ensures TextElementFor(qname, content, namespaceUri).(children := []) == ElementFor(qname, namespaceUri)
  {
  }

  /**
   * The namespaced-content element holds the text `netconfPrefix:contentWithoutPrefix`,
   * declares `prefix` as `namespace`, and keeps every other attribute the plain element has.
   */
  lemma NamespacedContentDeclaresPrefix(qname: string, prefix: string, namespace: string,
                                        contentWithoutPrefix: string, namespaceUri: Option<string>,
                                        netconfPrefix: string)
    ensures NamespacedContentElementFor(qname, prefix, namespace, contentWithoutPrefix, namespaceUri, netconfPrefix).children
            == [Text(netconfPrefix + ":" + contentWithoutPrefix)]
    ensures DeclaredNamespace(NamespacedContentElementFor(qname, prefix, namespace, contentWithoutPrefix, namespaceUri, netconfPrefix), Some(prefix))
            == Some(namespace)
    ensures NamespacedContentElementFor(qname, prefix, namespace, contentWithoutPrefix, namespaceUri, netconfPrefix).attributes
            == ElementFor(qname, namespaceUri).attributes[DeclarationKey(Some(prefix)) := Attr("xmlns:" + prefix, namespace)]
    ensures var e := NamespacedContentElementFor(qname, prefix, namespace, contentWithoutPrefix, namespaceUri, netconfPrefix);
            e.tagName == qname && e.namespaceUri == ElementFor(qname, namespaceUri).namespaceUri
            && e.prefix == ElementFor(qname, namespaceUri).prefix
  {
    var content := CreatePrefixedValue(netconfPrefix, contentWithoutPrefix);
    var plain := TextElementFor(qname, content, namespaceUri);
    var name := CreatePrefixedValue(XMLNS_ATTRIBUTE, prefix);
    assert name == DeclarationName(Some(prefix)) == "xmlns:" + prefix;
    DeclarationNameKey(Some(prefix));
    assert plain.attributes == ElementFor(qname, namespaceUri).attributes;
  }

  /** When `prefix` is the NETCONF prefix, the prefix of the text content resolves to `namespace`. */
  lemma NamespacedContentResolves(qname: string, prefix: string, namespace: string,
                                  contentWithoutPrefix: string, namespaceUri: Option<string>)
    requires ':' !in prefix
    ensures var e := NamespacedContentElementFor(qname, prefix, namespace, contentWithoutPrefix, namespaceUri, prefix);
            DeclaredNamespace(e, SplitQName(e.children[0].data).prefix) == Some(namespace)
  {
    NamespacedContentDeclaresPrefix(qname, prefix, namespace, contentWithoutPrefix, namespaceUri, prefix);
    PrefixedValueSplits(prefix, contentWithoutPrefix);
  }

  /**
   * Setting `xmlns:<prefix>` again replaces the element's own declaration: when the
   * element's tag uses the same prefix for another namespace, the tag's prefix no
   * longer resolves to the tag's namespace.
   */
  lemma ContentDeclarationReplacesTagDeclaration(pfx: string, local: string, uri: string, namespace: string,
                                                 contentWithoutPrefix: string, netconfPrefix: string)
    requires ':' !in pfx
    ensures var e := NamespacedContentElementFor(pfx + ":" + local, pfx, namespace, contentWithoutPrefix, Some(uri), netconfPrefix);
            e.namespaceUri == NamespaceOf(uri) && DeclaredNamespace(e, e.prefix) == Some(namespace)
  {
    ElementPrefixed(pfx, local, uri);
    NamespacedContentDeclaresPrefix(pfx + ":" + local, pfx, namespace, contentWithoutPrefix, Some(uri), netconfPrefix);
  }

  /** The five-argument overload: an unqualified tag carrying only the `xmlns:<prefix>` declaration. */
  lemma UnqualifiedNamespacedContent(qname: string, prefix: string, namespace: string,
                                     contentWithoutPrefix: string, netconfPrefix: string)
    ensures var e := NamespacedContentElementFor(qname, prefix, namespace, contentWithoutPrefix, None, netconfPrefix);
            e.namespaceUri.None? && e.prefix.None? && e.tagName == qname
            && e.attributes == map[AttrKey(XMLNS_ATTRIBUTE_NS_URI, prefix) := Attr("xmlns:" + prefix, namespace)]
  {
    NamespacedContentDeclaresPrefix(qname, prefix, namespace, contentWithoutPrefix, None, netconfPrefix);
  }

  /** `createElement(document, qname, namespaceURI)`. */
  method CreateElement(qname: string, namespaceUri: Option<string>) returns (element: Element)
    ensures fresh(element) && element.Value() == ElementFor(qname, namespaceUri)
  {
    if namespaceUri.None? {
      element := new Element.Unqualified(qname);
      return;
    }
    var uri := namespaceUri.value;
    element := new Element.Qualified(uri, qname);
    var name := XMLNS_ATTRIBUTE;
    if element.prefix.Some? {
      name := name + ":" + element.prefix.value;
    }
    element.SetAttributeNS(XMLNS_ATTRIBUTE_NS_URI, name, uri);
  }

  /** `createTextElement(document, qname, content, namespaceURI)`. */
  method CreateTextElement(qname: string, content: string, namespaceUri: Option<string>) returns (element: Element)
    ensures fresh(element) && element.Value() == TextElementFor(qname, content, namespaceUri)
  {
    element := CreateElement(qname, namespaceUri);
    element.AppendChild(Text(content));
  }

  /** The six-argument `createTextElementWithNamespacedContent`. */
  method CreateTextElementWithNamespacedContent(qname: string, prefix: string, namespace: string,
                                                contentWithoutPrefix: string, namespaceUri: Option<string>,
                                                netconfPrefix: string) returns (element: Element)
    ensures fresh(element)
    ensures element.Value() == NamespacedContentElementFor(qname, prefix, namespace, contentWithoutPrefix, namespaceUri, netconfPrefix)
  {
    var content := CreatePrefixedValue(netconfPrefix, contentWithoutPrefix);
    element := CreateTextElement(qname, content, namespaceUri);
    var prefixedNamespaceAttr := CreatePrefixedValue(XMLNS_ATTRIBUTE, prefix);
    element.SetAttributeNS(XMLNS_ATTRIBUTE_NS_URI, prefixedNamespaceAttr, namespace);
  }

  /** The five-argument `createTextElementWithNamespacedContent`: the six-argument one without a tag namespace. */
  method CreateTextElementWithNamespacedContentUnqualified(qname: string, prefix: string, namespace: string,
                                                          contentWithoutPrefix: string, netconfPrefix: string)
    returns (element: Element)
    ensures fresh(element)
    ensures element.Value() == NamespacedContentElementFor(qname, prefix, namespace, contentWithoutPrefix, None, netconfPrefix)
  {
    element := CreateTextElementWithNamespacedContent(qname, prefix, namespace, contentWithoutPrefix, None, netconfPrefix);
  }
}
