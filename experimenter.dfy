/** The experimenter record: a read-only view of one `experimenter` element. */
module ExperimenterRecord {
  import opened Wrappers
  import opened Element
  import opened Json
  import opened ChildQuery

  /** Sub-elements read as text, or "" when absent. */
  const RequiredFields: seq<string> := ["firstName", "lastName"]

  /** Sub-elements that read as None when absent or empty. */
  const OptionalFields: seq<string> := ["email", "labName", "labAddress"]

  /** The `KeyError` raised for a key the record does not know. The source raises it with
      no argument; the model adds the key so that a caller can tell which lookup failed. */
  datatype LookupError = KeyError(key: string)

  /** The keys the projection of an experimenter element holds: `id` and the required
      fields always, an optional field when its element exists. */
  ghost predicate InProjection(n: Node, f: string)
  {
    f == "id" || f in RequiredFields || (f in OptionalFields && HasChild(n, f))
  }

  /** What `Experimenter.tojson` builds for the experimenter element `n`. */
  function ExperimenterJson(n: Node): (data: map<string, Value>)
    ensures forall f :: f in data <==> InProjection(n, f)
    ensures "id" in data && data["id"] == OfText(Attr(n, "id"))
    ensures forall f :: f in data && f != "id" ==> data[f] == OfText(GetFirstChildText(n, f))
  {
    var data := map["id" := OfText(Attr(n, "id")),
                    "firstName" := OfText(GetFirstChildText(n, "firstName")),
                    "lastName" := OfText(GetFirstChildText(n, "lastName"))];
    assert Projects(n, data, []);
    var withEmail := FirstChildEntry(n, data, true, "email");
    assert Projects(n, withEmail, ["email"]);
    var withLabName := FirstChildEntry(n, withEmail, true, "labName");
    assert Projects(n, withLabName, ["email", "labName"]);
    var result := FirstChildEntry(n, withLabName, true, "labAddress");
    assert Projects(n, result, OptionalFields);
    result
  }

  /** `data` is the projection of `n` restricted to the optional fields in `opts`. */
  ghost predicate Projects(n: Node, data: map<string, Value>, opts: seq<string>)
  {
    && (forall f :: f in data <==> f == "id" || f in RequiredFields || (f in opts && HasChild(n, f)))
    && "id" in data && data["id"] == OfText(Attr(n, "id"))
    && (forall f :: f in data && f != "id" ==> data[f] == OfText(GetFirstChildText(n, f)))
  }

  /** An `Experimenter` object: the element it reads and the document version it came with. */
  datatype Experimenter = Experimenter(node: Node, rdmlVersion: Option<string>)
  {
    /** `Experimenter.__getitem__(key)`. */
    function Get(key: string): (r: Result<Option<string>, LookupError>)
      ensures key == "id" ==> r == Ok(Attr(node, "id"))
      ensures key in RequiredFields ==>
                r.Ok? && r.value == (if HasChild(node, key) then GetFirstChild(node, key).value.text else Some(""))
      ensures key in OptionalFields ==>
                r.Ok? && (r.value.Some? <==> HasChild(node, key) && GetFirstChild(node, key).value.text.Some?
                                             && GetFirstChild(node, key).value.text.value != "")
      ensures key in OptionalFields && r.Ok? && r.value.Some? ==> r.value == GetFirstChild(node, key).value.text
      ensures r.Err? <==> key != "id" && key !in RequiredFields && key !in OptionalFields
      ensures r.Err? ==> r.error == KeyError(key)
    {
      if key == "id" then Ok(Attr(node, "id"))
      else if key in RequiredFields then Ok(GetFirstChildText(node, key))
      else if key in OptionalFields then
        var v := GetFirstChildText(node, key);
        if v == Some("") then Ok(None) else Ok(v)
      else Err(KeyError(key))
    }

    /** `Experimenter.tojson()`: the three fixed entries, then each optional field through
        `_addFirstChildToDic` with `opt` set. */
    method ToJson() returns (data: map<string, Value>)
      ensures data == ExperimenterJson(node)
    {
      data := map["id" := OfText(Attr(node, "id")),
                  "firstName" := OfText(GetFirstChildText(node, "firstName")),
                  "lastName" := OfText(GetFirstChildText(node, "lastName"))];
      data := AddFirstChildToDic(node, data, true, "email");
      data := AddFirstChildToDic(node, data, true, "labName");
      data := AddFirstChildToDic(node, data, true, "labAddress");
    }
  }

  /** The projection and the key lookup tell the same story: every projected key can be
      looked up; `id` and the required fields project exactly what lookup returns; an
      optional field is projected exactly when its element exists, and then lookup returns
      its text unless that text is empty or missing. */
  lemma ToJsonAgreesWithGet(e: Experimenter, key: string)
    ensures key in ExperimenterJson(e.node) ==> e.Get(key).Ok?
    ensures key == "id" || key in RequiredFields ==>
              key in ExperimenterJson(e.node) && ExperimenterJson(e.node)[key] == OfText(e.Get(key).value)
    ensures key in OptionalFields ==> (key in ExperimenterJson(e.node) <==> HasChild(e.node, key))
    ensures key in OptionalFields && e.Get(key).value.Some? ==>
              ExperimenterJson(e.node)[key] == OfText(e.Get(key).value)
  {
  }
}
