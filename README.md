# NETCONF handling priority and XML element helpers, in Dafny

This project models two small pieces of the OpenDaylight NETCONF message substrate.

- `HandlingPriority`: the value a server operation handler returns to say whether it can service a
  request and how eagerly. It is either the `CANNOT_HANDLE` sentinel, which has no number, or a Java
  `int` priority. The model covers the three canonical instances, `getHandlingPriority`,
  `getPriority`, `increasePriority`, `isCannotHandle`, `compareTo`, `equals` and `hashCode`.
  The class is immutable, so it is a datatype `CannotHandle | Value(int32)` with functions and lemmas.
  `compareTo` appears twice:
  - `CompareCascade` follows the source's rule cascade, including the identity test and the final
    `IllegalStateException`;
  - `CompareTo` is a reference order: the sentinel sits one below `Integer.MIN_VALUE`, and values
    compare as signed integers.
  The cascade is proved never to reach the `IllegalStateException`. On a non-null argument it agrees
  with `CompareTo`. On null, the sentinel returns -1 and a numeric priority throws a
  NullPointerException.
- The element-construction helpers of `XmlUtil`: `createPrefixedValue`, `createElement`,
  `createTextElement` and both overloads of `createTextElementWithNamespacedContent`. They run over a
  small DOM model (`Dom.Element`). It is a class whose attributes and children are updated in place
  by `SetAttributeNS` and `AppendChild`, as DOM Level 2 Core does, with DOM Level 3's conversion of an empty namespace URI to no namespace. Attributes are keyed by namespace
  URI and local name. A qualified name's prefix is the part before its first colon. Each helper is a
  method proved to build the element described by a specification function (`ElementFor`,
  `TextElementFor`, `NamespacedContentElementFor`). Lemmas about those functions state which
  namespace declaration (`xmlns` or `xmlns:<prefix>`, section 4 of Namespaces in XML 1.0) the
  element gets, and what it binds.

Files: `wrappers.dfy` (Option, Result), `int32.dfy` (Java `int` and its wrapping `+`),
`handling_priority.dfy`, `dom.dfy`, `xml_util.dfy`.

`XmlNetconfConstants.PREFIX` is not part of this model. The helpers take it as the parameter
`netconfPrefix`. The `Document` argument of the helpers serves only as a node factory and is dropped:
each helper returns a fresh `Element`.

Three details of the code that the model keeps:

- The overflow guard at HandlingPriority.java:47 is strict (`< Integer.MAX_VALUE`) although its
  message says "cannot be higher than". So no increase produces `HANDLE_WITH_MAX_PRIORITY`.
- `createElement` with an empty `Optional` builds an element with no namespace and no declaration.
- The namespaced-content helper declares `prefix` but writes its text with
  `XmlNetconfConstants.PREFIX`. The text's prefix resolves to `namespace` on the element when the
  two are equal (`NamespacedContentResolves`). Otherwise it resolves only through some other
  declaration, such as the tag's own `xmlns:<PREFIX>`.

## Model

| member | source | states |
|---|---|---|
| `HandlingPriorities.GetHandlingPriority` | protocol/netconf-server/src/main/java/org/opendaylight/netconf/server/api/operations/HandlingPriority.java:24-30 | the priority built from `p` always carries `p` and is never the sentinel |
| `HandlingPriorities.GetPriority` | protocol/netconf-server/src/main/java/org/opendaylight/netconf/server/api/operations/HandlingPriority.java:40-42 | the number is absent exactly for `CANNOT_HANDLE`; a present number rebuilds the same priority |
| `HandlingPriorities.CanonicalBounds` | protocol/netconf-server/src/main/java/org/opendaylight/netconf/server/api/operations/HandlingPriority.java:18-42 | `CANNOT_HANDLE` has no number, DEFAULT carries `Integer.MIN_VALUE` and MAX carries `Integer.MAX_VALUE`; every numeric priority lies between DEFAULT and MAX |
| `HandlingPriorities.Equals` | protocol/netconf-server/src/main/java/org/opendaylight/netconf/server/api/operations/HandlingPriority.java:82-85 | `equals` holds exactly when the argument is a priority with the same tag and the same value; it is false for null and for other classes |
| `HandlingPriorities.HashCode` | protocol/netconf-server/src/main/java/org/opendaylight/netconf/server/api/operations/HandlingPriority.java:87-90 | 0 for the sentinel, the int value otherwise; equal priorities hash alike (`EqualsConsistentWithCompareTo`) |
| `HandlingPriorities.IsCannotHandle` | protocol/netconf-server/src/main/java/org/opendaylight/netconf/server/api/operations/HandlingPriority.java:52-54 | true exactly when the priority number is absent, i.e. for the sentinel only |
| `HandlingPriorities.IncreasePriority` | protocol/netconf-server/src/main/java/org/opendaylight/netconf/server/api/operations/HandlingPriority.java:44-50 | illegal-state error exactly on the sentinel; illegal-argument "negative increase" exactly when the increase is <= 0; "too high" exactly when the sum reaches `Integer.MAX_VALUE`; otherwise the exact sum, below MAX and strictly greater than the receiver |
| `Int32.Add` | protocol/netconf-server/src/main/java/org/opendaylight/netconf/server/api/operations/HandlingPriority.java:49 | Java `int` addition: the exact sum when it fits, the sum minus 2^32 when it overflows upwards, plus 2^32 when it overflows downwards |
| `HandlingPriorities.IncreaseNeverReachesMax` | protocol/netconf-server/src/main/java/org/opendaylight/netconf/server/api/operations/HandlingPriority.java:45-49 | no successful increase produces MAX; every increase of MAX fails, with "too high" for a positive increase; every increase of the sentinel fails with illegal state |
| `HandlingPriorities.CompareTo` | protocol/netconf-server/src/main/java/org/opendaylight/netconf/server/api/operations/HandlingPriority.java:58-80 | the order returns -1, 0 or 1, and returns 0 exactly when the two priorities are `equals` |
| `HandlingPriorities.CompareCascade` | protocol/netconf-server/src/main/java/org/opendaylight/netconf/server/api/operations/HandlingPriority.java:58-80 | the cascade as written never reaches the `IllegalStateException`; for a non-null argument it always returns the reference order's answer, whatever the identity test says; for a null argument the sentinel returns -1 and a numeric priority throws a NullPointerException |
| `HandlingPriorities.CannotHandleIsLeast` | protocol/netconf-server/src/main/java/org/opendaylight/netconf/server/api/operations/HandlingPriority.java:62-67 | the sentinel compares below every numeric priority, `Integer.MIN_VALUE` included, and every numeric priority compares above it |
| `HandlingPriorities.ValuesCompareBySignedValue` | protocol/netconf-server/src/main/java/org/opendaylight/netconf/server/api/operations/HandlingPriority.java:69-77 | two numeric priorities compare less, equal or greater exactly as their signed values do |
| `HandlingPriorities.CompareToIsTotalOrder` | protocol/netconf-server/src/main/java/org/opendaylight/netconf/server/api/operations/HandlingPriority.java:58-80 | the order is reflexive, sign-antisymmetric, antisymmetric, transitive (both strict and non-strict) and total |
| `HandlingPriorities.EqualsConsistentWithCompareTo` | protocol/netconf-server/src/main/java/org/opendaylight/netconf/server/api/operations/HandlingPriority.java:58-90 | comparing gives 0 exactly when `equals` holds; `equals` is symmetric and false for null; equal priorities have equal `hashCode` |
| `Dom.NamespaceOf` | protocol/netconf-api/src/main/java/org/opendaylight/netconf/api/xml/XmlUtil.java:140 | the element namespace is absent exactly for the empty URI, and otherwise the URI itself |
| `Dom.IndexOf` | protocol/netconf-api/src/main/java/org/opendaylight/netconf/api/xml/XmlUtil.java:140-142 | the index found is the first occurrence of the character; nothing is found exactly when the character is absent |
| `Dom.SplitQName` | protocol/netconf-api/src/main/java/org/opendaylight/netconf/api/xml/XmlUtil.java:140-142 | a name has a prefix exactly when it contains a colon; then the prefix has no colon and prefix + ":" + local gives back the name; otherwise the local part is the whole name |
| `Dom.SplitJoin` | protocol/netconf-api/src/main/java/org/opendaylight/netconf/api/xml/XmlUtil.java:140-143 | splitting `prefix:local` with a colon-free prefix gives back the prefix and the local part |
| `Dom.WithAttributeNS` | protocol/netconf-api/src/main/java/org/opendaylight/netconf/api/xml/XmlUtil.java:145 | `setAttributeNS` sets the attribute keyed by namespace and local name and keeps every other attribute and everything else of the element |
| `Dom.WithChild` | protocol/netconf-api/src/main/java/org/opendaylight/netconf/api/xml/XmlUtil.java:152 | `appendChild` adds exactly one child at the end and keeps the rest of the element |
| `Dom.Element.Unqualified` | protocol/netconf-api/src/main/java/org/opendaylight/netconf/api/xml/XmlUtil.java:136 | `createElement(qname)` gives an element with no namespace, no prefix, no attributes and no children |
| `Dom.Element.Qualified` | protocol/netconf-api/src/main/java/org/opendaylight/netconf/api/xml/XmlUtil.java:140 | `createElementNS(uri, qname)` gives an element in `uri` (no namespace when `uri` is empty) whose prefix is the part of `qname` before the first colon |
| `Dom.Element.SetAttributeNS` | protocol/netconf-api/src/main/java/org/opendaylight/netconf/api/xml/XmlUtil.java:145 | the element's new value is its old value with the attribute set |
| `Dom.Element.AppendChild` | protocol/netconf-api/src/main/java/org/opendaylight/netconf/api/xml/XmlUtil.java:152 | the element's new value is its old value with the child appended |
| `XmlUtil.CreatePrefixedValue` | protocol/netconf-api/src/main/java/org/opendaylight/netconf/api/xml/XmlUtil.java:174-176 | the result is the prefix, one colon, then the value |
| `XmlUtil.PrefixedValueSplits` | protocol/netconf-api/src/main/java/org/opendaylight/netconf/api/xml/XmlUtil.java:174-176 | with a colon-free prefix, `prefix:value` splits back into that prefix and that value |
| `XmlUtil.DeclarationNameKey` | protocol/netconf-api/src/main/java/org/opendaylight/netconf/api/xml/XmlUtil.java:141-145 | the attribute named `xmlns` or `xmlns:<p>` is stored under the declaration key of the default namespace or of `p`, whatever `p` holds |
| `XmlUtil.ElementWithoutNamespace` | protocol/netconf-api/src/main/java/org/opendaylight/netconf/api/xml/XmlUtil.java:135-137 | with no namespace the element is unqualified, unprefixed, and has no attributes and no children |
| `XmlUtil.ElementUnprefixed` | protocol/netconf-api/src/main/java/org/opendaylight/netconf/api/xml/XmlUtil.java:139-145 | with a namespace and a colon-free name, the only attribute is `xmlns = uri` |
| `XmlUtil.ElementPrefixed` | protocol/netconf-api/src/main/java/org/opendaylight/netconf/api/xml/XmlUtil.java:139-145 | with a namespace and the name `pfx:local`, the prefix is `pfx` and the only attribute is `xmlns:pfx = uri` |
| `XmlUtil.ElementDeclaresItsNamespace` | protocol/netconf-api/src/main/java/org/opendaylight/netconf/api/xml/XmlUtil.java:139-146 | with a namespace, the element has exactly one attribute, and it binds the element's own prefix (or the default) to that namespace; the element is in that namespace, or in none when the URI is empty |
| `XmlUtil.TextElementAddsOneText` | protocol/netconf-api/src/main/java/org/opendaylight/netconf/api/xml/XmlUtil.java:149-154 | a text element is the `createElement` element plus exactly one text child holding `content` |
| `XmlUtil.NamespacedContentDeclaresPrefix` | protocol/netconf-api/src/main/java/org/opendaylight/netconf/api/xml/XmlUtil.java:163-171 | the only child is the text `PREFIX:content`; the attributes are those of `createElement` with `xmlns:<prefix> = namespace` set over them, so `prefix` resolves to `namespace`; tag name, namespace and prefix are those `createElement` gives |
| `XmlUtil.NamespacedContentResolves` | protocol/netconf-api/src/main/java/org/opendaylight/netconf/api/xml/XmlUtil.java:163-171 | when `prefix` equals the NETCONF prefix, the prefix of the text content resolves to `namespace` on the element itself |
| `XmlUtil.ContentDeclarationReplacesTagDeclaration` | protocol/netconf-api/src/main/java/org/opendaylight/netconf/api/xml/XmlUtil.java:163-171 | when the tag is `pfx:local` in `uri` and the content prefix is also `pfx`, the tag's prefix is then bound to `namespace`, not to `uri` |
| `XmlUtil.UnqualifiedNamespacedContent` | protocol/netconf-api/src/main/java/org/opendaylight/netconf/api/xml/XmlUtil.java:156-161 | the five-argument overload gives an unqualified, unprefixed tag whose only attribute is `xmlns:<prefix> = namespace` |
| `XmlUtil.CreateElement` | protocol/netconf-api/src/main/java/org/opendaylight/netconf/api/xml/XmlUtil.java:133-147 | returns a fresh element whose value is `ElementFor(qname, namespaceURI)` |
| `XmlUtil.CreateTextElement` | protocol/netconf-api/src/main/java/org/opendaylight/netconf/api/xml/XmlUtil.java:149-154 | returns a fresh element whose value is `TextElementFor(qname, content, namespaceURI)` |
| `XmlUtil.CreateTextElementWithNamespacedContent` | protocol/netconf-api/src/main/java/org/opendaylight/netconf/api/xml/XmlUtil.java:163-172 | returns a fresh element whose value is `NamespacedContentElementFor` of its arguments |
| `XmlUtil.CreateTextElementWithNamespacedContentUnqualified` | protocol/netconf-api/src/main/java/org/opendaylight/netconf/api/xml/XmlUtil.java:156-161 | returns a fresh element equal to the six-argument helper's with no tag namespace |

## Left out

- Object identity: Java's `this == o` cannot be observed on datatype values. `CompareCascade` takes it
  as a flag, and a null argument as None. The reference order `CompareTo` is defined on non-null
  priorities only. `CompareCascade`'s precondition records that only `CANNOT_HANDLE` lacks a number, because the no-argument
  constructor is private.
- `toString` of HandlingPriority and the exception messages: only the kind of failure is modelled.
- The handler selector that picks the highest priority is not part of this model. Only the order it
  would rely on is proved.
- DOM name validation: `createElementNS` and `setAttributeNS` throw a NAMESPACE_ERR or an
  INVALID_CHARACTER_ERR for malformed names (an empty prefix, a second colon, `xmlns` bound to the
  wrong namespace, an empty namespace with a prefix). The model accepts every name.
- `Dom.Element` keeps only tag name, namespace, prefix, attributes and text children. It has no
  owner document, no parent links and no other node kinds.
- XmlUtil parsing (`BUILDER_FACTORY`, `DEFAULT_DOM_BUILDER`, `readXmlTo*`, `newDocument`): parser
  configuration, a thread-local builder and stream I/O of a foreign XML library.
- XmlUtil serialization, XPath and copying (`PRETTY_PRINT_TEMPLATE`, `newIndentingTransformer`,
  `toString*`, `evaluateXPath`, `createDocumentCopy`): calls into the XSLT, XPath and DOM libraries.
- The client session dispatcher, the RESTCONF wiring and the body-reader shim: interfaces, I/O and
  dependency-injection glue with no logic to verify.
