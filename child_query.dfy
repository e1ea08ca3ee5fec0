/** The child-query helpers: linear scans over an element's children that match the
    qualified tag `{http://www.rdml.org}` + id. */
module ChildQuery {
  import opened Wrappers
  import opened Element
  import opened Json

  /** No child in `cs` carries the tag `t`. */
  ghost predicate NoneTagged(cs: seq<Node>, t: string)
  {
    forall i :: 0 <= i < |cs| ==> cs[i].tag != t
  }

  /** `cs[k]` is the earliest child in `cs` that carries the tag `t`. */
  ghost predicate IsFirstTagged(cs: seq<Node>, t: string, k: int)
  {
    0 <= k < |cs| && cs[k].tag == t && forall j :: 0 <= j < k ==> cs[j].tag != t
  }

  /** The scan of `_getFirstChild`: the first child tagged `t`, if any. */
  function FirstTagged(cs: seq<Node>, t: string): (r: Option<Node>)
    ensures r.None? <==> NoneTagged(cs, t)
    ensures r.Some? ==> r.value.tag == t && r.value in cs
  {
    if |cs| == 0 then None
    else if cs[0].tag == t then Some(cs[0])
    else FirstTagged(cs[1..], t)
  }

  /** `_getFirstChild(base, id)`: the first child of `base` whose tag is `QName(id)`,
      None exactly when there is no such child. */
  function GetFirstChild(base: Node, id: string): (r: Option<Node>)
    ensures r.None? <==> NoneTagged(base.children, QName(id))
    ensures r.Some? ==> r.value.tag == QName(id) && r.value in base.children
  {
    FirstTagged(base.children, QName(id))
  }

  /** Whether `base` has a child whose local name is `id`. */
  predicate HasChild(base: Node, id: string)
  {
    GetFirstChild(base, id).Some?
  }

  lemma {:induction false} FirstTaggedIsEarliest(cs: seq<Node>, t: string, k: int)
    requires IsFirstTagged(cs, t, k)
    ensures FirstTagged(cs, t) == Some(cs[k])
  {
    if k > 0 {
      assert cs[0].tag != t;
      assert IsFirstTagged(cs[1..], t, k - 1) by {
        forall j | 0 <= j < k - 1 ensures cs[1..][j].tag != t {
          assert cs[1..][j] == cs[j + 1];
        }
      }
      FirstTaggedIsEarliest(cs[1..], t, k - 1);
    }
  }

  /** The child `_getFirstChild` returns is the earliest matching one in document order. */
  lemma FirstChildIsEarliest(base: Node, id: string, k: int)
    requires IsFirstTagged(base.children, QName(id), k)
    ensures GetFirstChild(base, id) == Some(base.children[k])
  {
    FirstTaggedIsEarliest(base.children, QName(id), k);
  }

  /** The scan of `_getFirstChildText`, which repeats the loop of `_getFirstChild` but
      returns the matching child's text, or "" when nothing matches. */
  function FirstTaggedText(cs: seq<Node>, t: string): (r: Option<string>)
    ensures r == match FirstTagged(cs, t)
                 case Some(n) => n.text
                 case None => Some("")
  {
    if |cs| == 0 then Some("")
    else if cs[0].tag == t then cs[0].text
    else FirstTaggedText(cs[1..], t)
  }

  /** `_getFirstChildText(base, id)`: the text of the child `_getFirstChild` finds
      (None when that child has no text), and "" when there is no such child. */
  function GetFirstChildText(base: Node, id: string): (r: Option<string>)
    ensures HasChild(base, id) ==> r == GetFirstChild(base, id).value.text
    ensures !HasChild(base, id) ==> r == Some("")
  {
    FirstTaggedText(base.children, QName(id))
  }

  /** The dictionary `_addFirstChildToDic(base, dic, opt, id)` leaves behind: the first
      matching child's text under `id`; when there is none, `dic` unchanged if the field
      is optional and "" under `id` if it is required. */
  function FirstChildEntry(base: Node, dic: map<string, Value>, opt: bool, id: string): (d: map<string, Value>)
    ensures forall k :: k != id ==> (k in d <==> k in dic)
    ensures forall k :: k != id && k in d ==> d[k] == dic[k]
    ensures id in d <==> HasChild(base, id) || !opt || id in dic
    ensures HasChild(base, id) || !opt ==> d[id] == OfText(GetFirstChildText(base, id))
    ensures !HasChild(base, id) && opt ==> d == dic
  {
    match GetFirstChild(base, id)
    case Some(n) => dic[id := OfText(n.text)]
    case None => if opt then dic else dic[id := Str("")]
  }

  /** `_addFirstChildToDic`: the scan with early return, giving back the updated dictionary. */
  method AddFirstChildToDic(base: Node, dic: map<string, Value>, opt: bool, id: string)
    returns (d: map<string, Value>)
    ensures d == FirstChildEntry(base, dic, opt, id)
  {
    var t := QName(id);
    var i := 0;
    while i < |base.children|
      invariant 0 <= i <= |base.children|
      invariant forall j :: 0 <= j < i ==> base.children[j].tag != t
    {
      var n := base.children[i];
      if n.tag == t {
        FirstChildIsEarliest(base, id, i);
        d := dic[id := OfText(n.text)];
        return;
      }
      i := i + 1;
    }
    if !opt {
      d := dic[id := Str("")];
    } else {
      d := dic;
    }
  }

  /** The children in `cs` tagged `t`, in their order in `cs`. */
  function AllTagged(cs: seq<Node>, t: string): seq<Node>
  {
    if |cs| == 0 then []
    else AllTagged(cs[..|cs| - 1], t) + (if cs[|cs| - 1].tag == t then [cs[|cs| - 1]] else [])
  }

  /** The positions in `cs` of the children tagged `t`, in increasing order. */
  function TaggedIndices(cs: seq<Node>, t: string): seq<nat>
  {
    if |cs| == 0 then []
    else TaggedIndices(cs[..|cs| - 1], t) + (if cs[|cs| - 1].tag == t then [|cs| - 1] else [])
  }

  /** `AllTagged(cs, t)` is the subsequence of `cs` picked out by exactly the positions
      of the children tagged `t`, taken in increasing order. */
  lemma {:induction false} AllTaggedIsTaggedSubsequence(cs: seq<Node>, t: string)
    ensures |AllTagged(cs, t)| == |TaggedIndices(cs, t)|
    ensures forall i :: 0 <= i < |TaggedIndices(cs, t)| ==>
              TaggedIndices(cs, t)[i] < |cs| && AllTagged(cs, t)[i] == cs[TaggedIndices(cs, t)[i]]
    ensures forall i, j :: 0 <= i < j < |TaggedIndices(cs, t)| ==> TaggedIndices(cs, t)[i] < TaggedIndices(cs, t)[j]
    ensures forall k :: 0 <= k < |cs| ==> (cs[k].tag == t <==> k in TaggedIndices(cs, t))
  {
    if |cs| > 0 {
      var front := cs[..|cs| - 1];
      AllTaggedIsTaggedSubsequence(front, t);
      forall k | 0 <= k < |front| ensures front[k] == cs[k] { }
    }
  }

  /** Every child `AllTagged` returns carries the tag. */
  lemma {:induction false} AllTaggedMatch(cs: seq<Node>, t: string)
    ensures forall n :: n in AllTagged(cs, t) ==> n.tag == t
  {
    if |cs| > 0 {
      AllTaggedMatch(cs[..|cs| - 1], t);
    }
  }

  lemma {:induction false} AllTaggedEmpty(cs: seq<Node>, t: string)
    ensures AllTagged(cs, t) == [] <==> NoneTagged(cs, t)
  {
    AllTaggedIsTaggedSubsequence(cs, t);
    var idx := TaggedIndices(cs, t);
    if !NoneTagged(cs, t) {
      var k :| 0 <= k < |cs| && cs[k].tag == t;
      assert k in idx;
    }
    if idx != [] {
      assert idx[0] in idx;
      assert cs[idx[0]].tag == t;
    }
  }

  lemma {:induction false} AllTaggedHeadIsFirst(cs: seq<Node>, t: string)
    requires AllTagged(cs, t) != []
    ensures FirstTagged(cs, t) == Some(AllTagged(cs, t)[0])
  {
    AllTaggedIsTaggedSubsequence(cs, t);
    var idx := TaggedIndices(cs, t);
    var k := idx[0];
    assert k in idx;
    forall j | 0 <= j < k ensures cs[j].tag != t {
      forall i | 0 <= i < |idx| ensures idx[i] != j {
        assert i == 0 || idx[0] < idx[i];
      }
    }
    FirstTaggedIsEarliest(cs, t, k);
  }

  /** `_getAllChilds` and `_getFirstChild` agree: the list is empty exactly when there is
      no first child, and otherwise starts with it. */
  lemma AllChildsStartsWithFirstChild(base: Node, id: string)
    ensures AllTagged(base.children, QName(id)) == [] <==> GetFirstChild(base, id).None?
    ensures AllTagged(base.children, QName(id)) != [] ==>
              GetFirstChild(base, id) == Some(AllTagged(base.children, QName(id))[0])
  {
    AllTaggedEmpty(base.children, QName(id));
    if AllTagged(base.children, QName(id)) != [] {
      AllTaggedHeadIsFirst(base.children, QName(id));
    }
  }

  /** `_getAllChilds(base, id)`: every child tagged `QName(id)`, in document order,
      built by appending in one pass over the children. */
  method GetAllChilds(base: Node, id: string) returns (ret: seq<Node>)
    ensures ret == AllTagged(base.children, QName(id))
    ensures forall n :: n in ret ==> n.tag == QName(id)
  {
    var cs, t := base.children, QName(id);
    ret := [];
    for i := 0 to |cs|
      invariant ret == AllTagged(cs[..i], t)
    {
      assert cs[..i + 1][..i] == cs[..i];
      if cs[i].tag == t {
        ret := ret + [cs[i]];
      }
    }
    assert cs[..|cs|] == cs;
    AllTaggedMatch(cs, t);
  }
}
