/** The parsed document tree as the RDML library sees it through lxml. */
module Element {
  import opened Wrappers

  /** The namespace of every RDML element, in the `{uri}` prefix form lxml uses for qualified tags. */
  const Namespace: string := "{http://www.rdml.org}"

  /** The qualified tag of the RDML element whose local name is `id`. */
  function QName(id: string): string
  {
    Namespace + id
  }

  /** One element of the tree: its qualified tag, its text (None when the element has no text),
      its attributes, and its child elements in document order.
      Comments and processing instructions among the children are elements whose tag lies
      outside the RDML namespace, so no query by local name ever matches them. */
  datatype Node = Node(tag: string, text: Option<string>, attrs: map<string, string>, children: seq<Node>)

  /** `node.get(name)`: the value of an attribute, or None when it is not set. */
  function Attr(n: Node, name: string): Option<string>
  {
    if name in n.attrs then Some(n.attrs[name]) else None
  }
}
