/** The RDML document: acceptance of a parsed tree, the declared version, the
    experimenter list and the JSON projection of the whole document. */
module RdmlDocument {
  import opened Wrappers
  import opened Element
  import opened Json
  import opened ChildQuery
  import opened ExperimenterRecord

  /** The qualified tag the root element must carry. */
  const RootTag: string := "{http://www.rdml.org}rdml"

  /** The format versions a document may declare. */
  const SupportedVersions: seq<string> := ["1.0", "1.1", "1.2"]

  /** The version a new document declares. */
  const NewVersion: string := "1.2"

  predicate IsSupported(version: Option<string>)
  {
    version.Some? && version.value in SupportedVersions
  }

  /** The reasons `loadXMLString` raises `RdmlError`. */
  datatype LoadError = XmlLoadError | RootNotRdml | UnsupportedVersion
  {
    function Message(): string
    {
      match this
      case XmlLoadError => "XML load error, not a valid RDML or XML file."
      case RootNotRdml => "Root element is not 'rdml', not a valid RDML or XML file."
      case UnsupportedVersion => "Unknown or unsupported RDML file version."
    }
  }

  /** The schema file `validate` and `isvalid` check a document of the given version
      against; None for a version without one. */
  function SchemaFile(version: Option<string>): (r: Option<string>)
    ensures r.Some? <==> IsSupported(version)
  {
    if version == Some("1.0") then Some("RDML_v1_0_REC.xsd")
    else if version == Some("1.1") then Some("RDML_v1_1_REC.xsd")
    else if version == Some("1.2") then Some("RDML_v1_2_REC.xsd")
    else None
  }

  /** The tree `new()` parses: a root declaring version 1.2 whose only child is
      `dateMade`, holding the creation time. */
  function NewDocument(timestamp: string): Node
  {
    Node(RootTag, Some("\n"), map["version" := NewVersion],
         [Node(QName("dateMade"), Some(timestamp), map[], [])])
  }

  /** The `Experimenter` objects for the experimenter children of `root`. */
  function ExperimenterList(root: Node, version: Option<string>): seq<Experimenter>
  {
    var m := AllTagged(root.children, QName("experimenter"));
    seq(|m|, i requires 0 <= i < |m| => Experimenter(m[i], version))
  }

  /** What `Rdml.tojson` builds for a document with root `root` and version `version`. */
  function RdmlJson(root: Node, version: Option<string>): Value
  {
    var es := ExperimenterList(root, version);
    Obj(map["rdml" := Obj(map["version" := OfText(version),
                              "dateMade" := OfText(GetFirstChildText(root, "dateMade")),
                              "dateUpdated" := OfText(GetFirstChildText(root, "dateUpdated")),
                              "experimenters" := Arr(seq(|es|, i requires 0 <= i < |es| => Obj(ExperimenterJson(es[i].node))))])])
  }

  /** The `experimenters` list of the projection holds one entry per experimenter child
      of the root, in document order: entry i projects the child at the i-th position
      (in increasing order) that carries the experimenter tag. */
  lemma ProjectionListsEveryExperimenter(root: Node, version: Option<string>)
    ensures var body := RdmlJson(root, version).fields["rdml"].fields;
            var items := body["experimenters"].items;
            var idx := TaggedIndices(root.children, QName("experimenter"));
            && |items| == |idx|
            && (forall i :: 0 <= i < |idx| ==> idx[i] < |root.children| && items[i] == Obj(ExperimenterJson(root.children[idx[i]])))
            && (forall i, j :: 0 <= i < j < |idx| ==> idx[i] < idx[j])
            && (forall k :: 0 <= k < |root.children| ==> (root.children[k].tag == QName("experimenter") <==> k in idx))
  {
    AllTaggedIsTaggedSubsequence(root.children, QName("experimenter"));
  }

  /** The projection of a fresh document: its version, its creation time, "" for the
      missing update time, and no experimenters. */
  lemma NewDocumentProjection(timestamp: string)
    ensures RdmlJson(NewDocument(timestamp), Some(NewVersion))
            == Obj(map["rdml" := Obj(map["version" := Str("1.2"),
                                         "dateMade" := Str(timestamp),
                                         "dateUpdated" := Str(""),
                                         "experimenters" := Arr([])])])
  {
    var root := NewDocument(timestamp);
    assert root.children[0].tag != QName("experimenter");
    assert root.children[..0] == [];
    assert AllTagged(root.children, QName("experimenter")) == [];
    assert ExperimenterList(root, Some(NewVersion)) == [];
    assert root.children[0].tag == QName("dateMade");
    FirstChildIsEarliest(root, "dateMade", 0);
    assert root.children[0].tag != QName("dateUpdated");
    assert GetFirstChild(root, "dateUpdated").None?;
    assert GetFirstChildText(root, "dateMade") == Some(timestamp);
    assert GetFirstChildText(root, "dateUpdated") == Some("");
    var es := ExperimenterList(root, Some(NewVersion));
    assert seq(|es|, i requires 0 <= i < |es| => Obj(ExperimenterJson(es[i].node))) == [];
  }

  /** An RDML object: the parsed tree (`_rdmlData`), its root (`_node`) and the version
      the root declares (`_rdmlVersion`). */
  class Rdml {
    var rdmlData: Option<Node>
    var node: Option<Node>
    var rdmlVersion: Option<string>

    /** A tree has been loaded, and `_node` is the root of `_rdmlData`. */
    ghost predicate Valid()
      reads this
    {
      node.Some? && rdmlData == node
    }

    /** The last load succeeded: the root is an RDML root of a supported version and
        `_rdmlVersion` is what it declares. */
    ghost predicate Accepted()
      reads this
    {
      && Valid()
      && node.value.tag == RootTag
      && rdmlVersion == Attr(node.value, "version")
      && IsSupported(rdmlVersion)
    }

    /** `Rdml()` with no file name: a new document. */
    constructor (timestamp: string)
      requires timestamp != ""
      ensures Accepted()
      ensures node == Some(NewDocument(timestamp))
      ensures Version() == Some(NewVersion)
    {
      rdmlData, node, rdmlVersion := None, None, Some("0.0");
      new;
      New(timestamp);
    }

    /** `new()`: load the tree of an empty document created at `timestamp`. */
    method New(timestamp: string)
      requires timestamp != ""
      modifies this
      ensures Accepted()
      ensures node == Some(NewDocument(timestamp))
      ensures Version() == Some(NewVersion)
      ensures HasChild(node.value, "dateMade") && GetFirstChildText(node.value, "dateMade") == Some(timestamp)
    {
      var root := NewDocument(timestamp);
      var r := LoadXMLString(Some(root));
      assert root.children[0].tag == QName("dateMade");
      FirstChildIsEarliest(root, "dateMade", 0);
    }

    /** `loadXMLString(data)` after parsing: `parsed` is the parser's tree, None when the
        parser raises `XMLSyntaxError`. The fields are assigned before each check, so a
        rejected tree is still left in place. */
    method LoadXMLString(parsed: Option<Node>) returns (r: Outcome<LoadError>)
      modifies this
      ensures parsed.None? ==> r == Fail(XmlLoadError) && rdmlData == old(rdmlData) && node == old(node)
                               && rdmlVersion == old(rdmlVersion)
      ensures parsed.Some? ==> rdmlData == parsed && node == parsed && Valid()
      ensures parsed.Some? && parsed.value.tag != RootTag ==>
                r == Fail(RootNotRdml) && rdmlVersion == old(rdmlVersion)
      ensures parsed.Some? && parsed.value.tag == RootTag ==>
                && rdmlVersion == Attr(parsed.value, "version")
                && r == (if IsSupported(rdmlVersion) then Pass else Fail(UnsupportedVersion))
      ensures parsed.Some? ==> (r.Pass? <==> Accepted())
      ensures r.Pass? ==> Accepted()
      ensures r.Pass? ==> Version() == Attr(parsed.value, "version") && IsSupported(Version())
      ensures old(Valid()) ==> Valid()
    {
      if parsed.None? {
        return Fail(XmlLoadError);
      }
      rdmlData := parsed;
      node := rdmlData;
      if node.value.tag != RootTag {
        return Fail(RootNotRdml);
      }
      rdmlVersion := Attr(node.value, "version");
      if !IsSupported(rdmlVersion) {
        return Fail(UnsupportedVersion);
      }
      r := Pass;
    }

    /** `version()`: for an accepted document, the supported version its root declares. */
    function Version(): (v: Option<string>)
      reads this
      ensures Accepted() ==> IsSupported(v) && v == Attr(node.value, "version")
      ensures Accepted() ==> SchemaFile(v).Some?
    {
      rdmlVersion
    }

    /** `experimenters()`: one `Experimenter` per experimenter child of the root, in
        document order, each carrying the document's version. */
    method Experimenters() returns (ret: seq<Experimenter>)
      requires Valid()
      ensures |ret| == |TaggedIndices(node.value.children, QName("experimenter"))|
      ensures forall i :: 0 <= i < |ret| ==>
                TaggedIndices(node.value.children, QName("experimenter"))[i] < |node.value.children| &&
                ret[i].node == node.value.children[TaggedIndices(node.value.children, QName("experimenter"))[i]]
      ensures forall i :: 0 <= i < |ret| ==> ret[i].rdmlVersion == rdmlVersion
      ensures ret == ExperimenterList(node.value, rdmlVersion)
    {
      var exp := GetAllChilds(node.value, "experimenter");
      ret := [];
      for i := 0 to |exp|
        invariant |ret| == i
        invariant forall k :: 0 <= k < i ==> ret[k] == Experimenter(exp[k], rdmlVersion)
      {
        ret := ret + [Experimenter(exp[i], rdmlVersion)];
      }
      AllTaggedIsTaggedSubsequence(node.value.children, QName("experimenter"));
    }

    /** `tojson()`: the projection of the whole document. */
    method ToJson() returns (data: Value)
      requires Valid()
      ensures data == RdmlJson(node.value, rdmlVersion)
    {
      var allExperimenters := Experimenters();
      var experimenters: seq<Value> := [];
      for i := 0 to |allExperimenters|
        invariant |experimenters| == i
        invariant forall k :: 0 <= k < i ==> experimenters[k] == Obj(ExperimenterJson(allExperimenters[k].node))
      {
        var e := allExperimenters[i].ToJson();
        experimenters := experimenters + [Obj(e)];
      }
      assert experimenters == seq(|allExperimenters|, i requires 0 <= i < |allExperimenters|
                                                        => Obj(ExperimenterJson(allExperimenters[i].node)));
      data := Obj(map["rdml" := Obj(map["version" := OfText(Version()),
                                        "dateMade" := OfText(GetFirstChildText(node.value, "dateMade")),
                                        "dateUpdated" := OfText(GetFirstChildText(node.value, "dateUpdated")),
                                        "experimenters" := Arr(experimenters)])]);
    }
  }
}
