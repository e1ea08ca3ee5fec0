# RDML-Python core, modelled in Dafny

This project models the record-query core of the RDML-Python library (`rdml.py`). That
library reads and edits RDML documents, the XML exchange format for real-time PCR data.
The model covers four parts:

- **Child queries** (`ChildQuery`, `child_query.dfy`). These are `_getFirstChild`,
  `_getFirstChildText`, `_addFirstChildToDic` and `_getAllChilds`: scans over an
  element's ordered children that match the qualified tag `{http://www.rdml.org}` + local
  name.
- **Document acceptance** (`RdmlDocument`, `rdml.dfy`). `Rdml.loadXMLString` checks the
  tree the parser returns: the root must be `{http://www.rdml.org}rdml` and its `version`
  attribute must be `1.0`, `1.1` or `1.2`. `Rdml.new` loads a fresh document declaring
  version `1.2` with a `dateMade` child. `Rdml.version` returns the declared version.
  `SchemaFile` selects the schema file for that version.
- **Experimenter records** (`ExperimenterRecord`, `experimenter.dfy`). These are
  `Experimenter.__getitem__` and `Experimenter.tojson`. `firstName` and `lastName` are
  required fields. `email`, `labName` and `labAddress` are optional.
- **The document projection**: `Rdml.experimenters` and `Rdml.tojson`.

How each part is modelled:

- The element tree is a value: `Element.Node` holds a tag, an optional text, an
  attribute map and an ordered sequence of children. lxml gives an element without text
  the text `None`, so text is an `Option<string>`.
- The dictionaries `tojson` builds are maps into `Json.Value`: `Null`, `Str`, `Arr` or
  `Obj`.
- `Rdml` is a class. Its fields `rdmlData`, `node` and `rdmlVersion` stand for
  `_rdmlData`, `_node` and `_rdmlVersion`, which `loadXMLString` assigns.
- `Experimenter` never changes its fields, so it is a datatype.
- Loops that build lists or update a dictionary are methods with loop invariants:
  `GetAllChilds`, `AddFirstChildToDic`, `Rdml.Experimenters` and `Rdml.ToJson`. Each
  method is proved against a specification function: `AllTagged`, `FirstChildEntry`,
  `ExperimenterList` and `RdmlJson`.
- The early-return scans `_getFirstChild` and `_getFirstChildText` are recursive
  functions.
- Raised exceptions become values: `Outcome<LoadError>` for the three `RdmlError`s of a
  load, and `Result<_, LookupError>` for the `KeyError` of `__getitem__`.

Parsing is a parameter. `LoadXMLString(parsed)` receives the parser's tree, or `None`
when the parser raises `XMLSyntaxError`. The current time in `new()` is the `timestamp`
parameter.

### A rejected load is not atomic

`loadXMLString` assigns `_rdmlData` and `_node` (rdml.py:169, rdml.py:172) before it
checks the root tag (rdml.py:173). It assigns `_rdmlVersion` (rdml.py:175) before it
checks the version (rdml.py:177). A rejected tree therefore stays in the object.
`Rdml.LoadXMLString` states which fields a rejected load has replaced. Only an
`XMLSyntaxError` leaves every field unchanged.

`rdml.py` has no record creation, deletion, uniqueness check or insertion-position code.

## Model

| member | source | states |
|---|---|---|
| `ChildQuery.GetFirstChild` | rdml.py:26-31 | None exactly when no child of `base` has the tag `{http://www.rdml.org}` + id; otherwise a child of `base` that has that tag |
| `ChildQuery.FirstChildIsEarliest` | rdml.py:28-30 | the child returned is the earliest matching child in document order |
| `ChildQuery.GetFirstChildText` | rdml.py:34-39 | the text of the child `_getFirstChild` finds (None when that child has no text), and `""` when no child matches |
| `ChildQuery.FirstChildEntry` | rdml.py:42-50 | no key other than `id` is added, removed or changed; `id` gets the first match's text when a child matches; with no match it gets `""` when `opt` is false, and `dic` is returned unchanged when `opt` is true |
| `ChildQuery.AddFirstChildToDic` | rdml.py:42-50 | the scan with early return produces exactly the dictionary `FirstChildEntry` describes |
| `ChildQuery.GetAllChilds` | rdml.py:53-59 | the append loop returns the matching children in document order (`AllTagged`), and every returned child has the tag |
| `ChildQuery.AllTaggedIsTaggedSubsequence` | rdml.py:55-58 | the list is the subsequence of the children taken at exactly the positions whose tag matches, in increasing order; its length is the number of those positions |
| `ChildQuery.AllChildsStartsWithFirstChild` | rdml.py:26-59 | `_getAllChilds` is empty exactly when `_getFirstChild` finds nothing, and otherwise starts with the child `_getFirstChild` returns |
| `ExperimenterRecord.Experimenter.Get` | rdml.py:340-353 | `id` gives the `id` attribute; `firstName` and `lastName` give the first child's text, or `""` when there is no such child; `email`, `labName` and `labAddress` give None when the child is absent or its text is empty or missing, and the text otherwise; every other key gives `KeyError` |
| `ExperimenterRecord.ExperimenterJson` | rdml.py:365-373 | the projection always has `id`, `firstName` and `lastName`; it has an optional field exactly when that field's element exists; every value other than `id` is the field's first-child text |
| `ExperimenterRecord.Experimenter.ToJson` | rdml.py:365-373 | the dictionary built from three fixed entries and three optional-field updates is `ExperimenterJson` of the record's element |
| `ExperimenterRecord.ToJsonAgreesWithGet` | rdml.py:340-373 | every projected key can be looked up; for `id` and the required fields the projection holds what `__getitem__` returns; an optional key is projected exactly when its element exists, and agrees with `__getitem__` whenever lookup gives a value |
| `RdmlDocument.Rdml.LoadXMLString` | rdml.py:168-178 | an `XMLSyntaxError` fails with the XML load error and changes nothing; otherwise the tree becomes `_rdmlData` and `_node`; a root tag other than `{http://www.rdml.org}rdml` fails; otherwise `_rdmlVersion` becomes the root's `version` attribute and the load succeeds exactly when that is `1.0`, `1.1` or `1.2`; after a successful load the version is the root's `version` attribute |
| `RdmlDocument.Rdml.Version` | rdml.py:261-271 | for an accepted document, the declared version is supported, is the root's `version` attribute, and has a schema file |
| `RdmlDocument.SchemaFile` | rdml.py:203-211 | a schema file is chosen exactly for the supported versions |
| `RdmlDocument.Rdml.New` | rdml.py:102-105 | the load of the new tree succeeds; the version is `1.2`; the root has a `dateMade` child whose text is the creation time |
| `RdmlDocument.Rdml.constructor` | rdml.py:84-90 | an `Rdml()` made without a file name is an accepted document of version `1.2` |
| `RdmlDocument.NewDocumentProjection` | rdml.py:102-104 | a new document projects to version `1.2`, its creation time, `""` for `dateUpdated`, and an empty experimenter list |
| `RdmlDocument.Rdml.Experimenters` | rdml.py:273-278 | one `Experimenter` per experimenter child of the root, in document order, each carrying the document's version |
| `RdmlDocument.Rdml.ToJson` | rdml.py:290-303 | the projection holds the version, the `dateMade` and `dateUpdated` texts, and the projection of each experimenter in the order `experimenters()` returns them (`RdmlJson`) |
| `RdmlDocument.ProjectionListsEveryExperimenter` | rdml.py:290-300 | the projection's `experimenters` list has one entry per experimenter child of the root; entry i projects the i-th such child in document order |

## Left out

- `load` and `save` (rdml.py:108-151) read and write zip archives and files. I/O is not modelled. For the same reason, the `Rdml(filename)` form of the constructor, which calls `load`, is not modelled.
- The removal of `!ENTITY` declarations and the XML parsing in `loadXMLString` (rdml.py:164-171) are done by `re` and lxml. The parser's result is a parameter of `LoadXMLString`.
- `validate` and `isvalid` (rdml.py:180-259) call lxml's XSD validator on schema files found through the filesystem. Only the choice of schema file from the version is modelled (`SchemaFile`). The validation itself and the report text are not modelled.
- The current time in `new()` (rdml.py:103) is a clock read. It is the `timestamp` parameter. Because `strftime` never returns an empty string, the model requires a non-empty timestamp.
- The command-line block and the commented-out code (rdml.py:376-408) are not modelled.
- The exception classes (rdml.py:12-23) are replaced by the `LoadError` and `LookupError` datatypes. `LoadError.Message` keeps the messages the code raises.
- Element identity is not modelled. lxml elements are shared objects, but the model's nodes are values. An `Experimenter` holds its element by value, which is enough because nothing in this core changes a tree.
- `AddFirstChildToDic` returns the updated dictionary instead of changing the caller's dictionary in place. Its callers in `Experimenter.tojson` (rdml.py:370-372) ignore the return value and read the dictionary changed in place; the model reassigns the caller's map to the result, which yields the same map. Aliasing of the dictionary is not captured.
- The text that follows an element (lxml's `tail`) and namespace declarations are not modelled. No query in the core reads them.
- Exceptions from the parser other than `XMLSyntaxError` (for example the `ValueError` lxml raises for a string that carries an encoding declaration) are not caught at rdml.py:168-171; they propagate as themselves and leave every field unchanged. The model has no value for them.
- Key order is not modelled. The dictionaries built at rdml.py:295-302 and rdml.py:365-372 keep insertion order, so a JSON dump lists `id`, `firstName`, `lastName`, then the optional fields; `map<string, Value>` has no order.
