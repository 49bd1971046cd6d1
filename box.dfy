/** A network device ("box") as the client sees it: its field table, the paths
    of its credentials, routes and ports collections, and the collection of
    boxes. */
module Boxes {
  import opened Wrappers
  import opened Json
  import opened Exceptions
  import opened Fields
  import opened Resources

  /** The table of `Box`, in `dir()` order: every field is a top-level key of the
      same name, with no default and no converter. */
  const BoxFields: seq<(string, Field)> := [
    ("description", Scalar(["description"], false, JNull, None)),
    ("hostname", Scalar(["hostname"], false, JNull, None)),
    ("mgmt_address", Scalar(["mgmt_address"], false, JNull, None)),
    ("model", Scalar(["model"], true, JNull, None)),
    ("uuid", Scalar(["uuid"], true, JNull, None)),
    ("vendor", Scalar(["vendor"], true, JNull, None)),
    ("version", Scalar(["version"], true, JNull, None))
  ]

  /** The required keys, in table order. */
  const RequiredKeys: seq<string> := ["model", "uuid", "vendor", "version"]

  /** The optional keys, in table order. */
  const OptionalKeys: seq<string> := ["description", "hostname", "mgmt_address"]

  /** The keys of the table, in table order. */
  const BoxKeys: seq<string> := OptionalKeys + RequiredKeys

  /** The table's attribute names are the keys, in order, each declared once;
      the required fields are the last four, those of the required keys. */
  lemma BoxKeysDeclared()
    ensures |BoxFields| == |BoxKeys| == |OptionalKeys| + |RequiredKeys|
    ensures forall i :: 0 <= i < |BoxFields| ==> BoxFields[i].0 == BoxKeys[i]
    ensures forall i :: 0 <= i < |BoxFields| ==> (BoxFields[i].1.required <==> |OptionalKeys| <= i)
    ensures forall m :: 0 <= m < |RequiredKeys| ==> BoxKeys[|OptionalKeys| + m] == RequiredKeys[m]
    ensures DistinctNames(BoxFields)
  {
  }

  /** Each entry is what `Field(name, required=...)` builds from its own name. */
  lemma BoxFieldsBuilt(i: nat)
    requires i < |BoxFields|
    ensures NewField(Key(BoxFields[i].0), BoxFields[i].0 in RequiredKeys, JNull, None) == Ok(BoxFields[i].1)
  {
  }

  /** Each field of a dict document: the key's value, None for an absent optional
      key, `MissingAttributeError` naming an absent required key. */
  lemma BoxFieldValue(members: seq<(string, Json)>, resourcePath: string, i: nat)
    requires i < |BoxFields|
    ensures var (name, f) := BoxFields[i];
      FieldValue(f, JObj(members), resourcePath, [])
        == if Lookup(members, name).Some? then Ok(Lookup(members, name).value)
           else if f.required then Err(MissingError([name], resourcePath))
           else Ok(JNull)
  {
    TopLevelField(BoxFields[i].1, members, resourcePath);
  }

  /** Each field of a dict document succeeds unless it is required and absent,
      and its value is then the key's value, None when absent. */
  lemma BoxFieldsOfDict(members: seq<(string, Json)>, resourcePath: string)
    ensures forall i :: 0 <= i < |BoxFields| ==>
      (FieldValue(BoxFields[i].1, JObj(members), resourcePath, []).Ok? <==>
        (BoxFields[i].1.required ==> Lookup(members, BoxFields[i].0).Some?))
    ensures forall i :: 0 <= i < |BoxFields| && FieldValue(BoxFields[i].1, JObj(members), resourcePath, []).Ok? ==>
      FieldValue(BoxFields[i].1, JObj(members), resourcePath, []).value == GetOr(members, BoxFields[i].0, JNull)
  {
    forall i | 0 <= i < |BoxFields|
      ensures FieldValue(BoxFields[i].1, JObj(members), resourcePath, []).Ok? <==>
        (BoxFields[i].1.required ==> Lookup(members, BoxFields[i].0).Some?)
      ensures FieldValue(BoxFields[i].1, JObj(members), resourcePath, []).Ok? ==>
        FieldValue(BoxFields[i].1, JObj(members), resourcePath, []).value == GetOr(members, BoxFields[i].0, JNull)
    {
      BoxFieldValue(members, resourcePath, i);
    }
  }

  /** A dict document parses exactly when all four required keys are present. */
  lemma BoxParse(members: seq<(string, Json)>, resourcePath: string)
    ensures Parse(BoxFields, JObj(members), resourcePath).error.None? <==>
      forall k :: k in RequiredKeys ==> Lookup(members, k).Some?
  {
    var doc := JObj(members);
    BoxKeysDeclared();
    ParseSuccess(BoxFields, doc, resourcePath);
    BoxFieldsOfDict(members, resourcePath);
    if forall k :: k in RequiredKeys ==> Lookup(members, k).Some? {
      forall i | 0 <= i < |BoxFields|
        ensures FieldValue(BoxFields[i].1, doc, resourcePath, []).Ok?
      {
        if BoxFields[i].1.required {
          assert BoxFields[i].0 == RequiredKeys[i - |OptionalKeys|];
        }
      }
    } else {
      var k :| k in RequiredKeys && Lookup(members, k).None?;
      var m :| 0 <= m < |RequiredKeys| && RequiredKeys[m] == k;
      assert BoxFields[|OptionalKeys| + m].0 == k;
      assert !FieldValue(BoxFields[|OptionalKeys| + m].1, doc, resourcePath, []).Ok?;
    }
  }

  /** A dict document with the four required keys sets every attribute to the
      value under its key, None for an absent optional key, and no other
      attribute. */
  lemma BoxValues(members: seq<(string, Json)>, resourcePath: string)
    requires forall k :: k in RequiredKeys ==> Lookup(members, k).Some?
    ensures Parse(BoxFields, JObj(members), resourcePath).error.None?
    ensures var values := Parse(BoxFields, JObj(members), resourcePath).values;
      && (forall a :: a in values <==> a in BoxKeys)
      && forall k :: k in BoxKeys ==> k in values && values[k] == GetOr(members, k, JNull)
  {
    var doc := JObj(members);
    BoxParse(members, resourcePath);
    BoxKeysDeclared();
    BoxFieldsOfDict(members, resourcePath);
    ParseSuccess(BoxFields, doc, resourcePath);
    var values := Parse(BoxFields, doc, resourcePath).values;
    forall k | k in BoxKeys
      ensures k in values && values[k] == GetOr(members, k, JNull)
    {
      var i :| 0 <= i < |BoxKeys| && BoxKeys[i] == k;
      assert BoxFields[i].0 == k;
    }
  }

  /** A dict document that has the required keys before the `m`-th, in table
      order, but lacks the `m`-th raises `MissingAttributeError` naming it. */
  lemma BoxMissing(members: seq<(string, Json)>, resourcePath: string, m: nat)
    requires m < |RequiredKeys| && Lookup(members, RequiredKeys[m]).None?
    requires forall j :: 0 <= j < m ==> Lookup(members, RequiredKeys[j]).Some?
    ensures Parse(BoxFields, JObj(members), resourcePath).error
         == Some(MissingError([RequiredKeys[m]], resourcePath))
  {
    var r := |OptionalKeys| + m;
    BoxKeysDeclared();
    BoxFieldsOfDict(members, resourcePath);
    forall j | 0 <= j < r
      ensures FieldValue(BoxFields[j].1, JObj(members), resourcePath, []).Ok?
    {
      if BoxFields[j].1.required {
        assert BoxFields[j].0 == RequiredKeys[j - |OptionalKeys|];
      }
    }
    BoxFieldValue(members, resourcePath, r);
    ParseFailure(BoxFields, JObj(members), resourcePath, r);
  }

  /** A document that is not a dict fails on the first field, setting nothing. */
  lemma BoxNotADict(doc: Json, resourcePath: string)
    requires !doc.JObj?
    ensures Parse(BoxFields, doc, resourcePath) == Parsed(map[], Some(SubscriptFault(doc)))
  {
    forall i | 0 <= i < |BoxFields|
      ensures FieldValue(BoxFields[i].1, doc, resourcePath, []) == Err(SubscriptFault(doc))
    {
      assert BoxFields[i].1.path[..0] == [];
    }
    ParseFailure(BoxFields, doc, resourcePath, 0);
    var values := Parse(BoxFields, doc, resourcePath).values;
    assert forall a :: a !in values;
    assert values == map[];
  }

  // ---------------------------------------------------------------------------
  // Sub-resource paths

  /** The identity of the sub-document `name` of a dict document: missing or
      empty, it is a missing attribute naming `name`. */
  function LinkedIdentity(members: seq<(string, Json)>, name: string, resourcePath: string): Result<string, Failure>
  {
    match Lookup(members, name)
    case Some(sub) => if Truthy(sub) then MemberIdentity(sub) else Err(MissingError([name], resourcePath))
    case None => Err(MissingError([name], resourcePath))
  }

  /** A sub-resource path of a box document: the sub-document's identity, or
      `.get` failing on a document that is not a dict. */
  lemma {:induction false} SubPath(doc: Json, resourcePath: string, name: string)
    requires name != ""
    ensures SubResourcePath(doc, resourcePath, Key(name))
         == if doc.JObj? then LinkedIdentity(doc.members, name, resourcePath)
            else Err(AttributeFault(doc, "get"))
  {
    assert [name][..0] == [];
    assert PathOf(Key(name)) == [name];
    assert !EmptyName(Key(name));
    if doc.JObj? {
      var sub := GetOr(doc.members, name, JObj([]));
      assert Walk(doc, [name]) == Ok(sub);
      match Lookup(doc.members, name)
      case None =>
        assert !Truthy(sub);
      case Some(v) =>
        assert sub == v;
        MemberIdentityErrors(v);
    } else {
      assert Walk(doc, [name]) == Err(AttributeFault(doc, "get"));
    }
  }

  /** `Box.credentials`: the path of the box's credentials collection. */
  function CredentialsPath(doc: Json, resourcePath: string): (r: Result<string, Failure>)
    ensures r == if doc.JObj? then LinkedIdentity(doc.members, "credentials", resourcePath)
                 else Err(AttributeFault(doc, "get"))
  {
    SubPath(doc, resourcePath, "credentials");
    SubResourcePath(doc, resourcePath, Key("credentials"))
  }

  /** `Box.routes`: the path of the box's routes collection. */
  function RoutesPath(doc: Json, resourcePath: string): (r: Result<string, Failure>)
    ensures r == if doc.JObj? then LinkedIdentity(doc.members, "routes", resourcePath)
                 else Err(AttributeFault(doc, "get"))
  {
    SubPath(doc, resourcePath, "routes");
    SubResourcePath(doc, resourcePath, Key("routes"))
  }

  /** `Box.ports`: the path of the box's ports collection. */
  function PortsPath(doc: Json, resourcePath: string): (r: Result<string, Failure>)
    ensures r == if doc.JObj? then LinkedIdentity(doc.members, "ports", resourcePath)
                 else Err(AttributeFault(doc, "get"))
  {
    SubPath(doc, resourcePath, "ports");
    SubResourcePath(doc, resourcePath, Key("ports"))
  }

  // ---------------------------------------------------------------------------
  // The collection of boxes

  /** `iter(BoxCollection(connection, path))`: one `Box` per member path of the
      collection, in order; the first that cannot be fetched or parsed ends the
      iteration with its exception. */
  method BoxCollection(path: string, content: Option<Json>, fetch: string -> Result<Option<Json>, Failure>)
    returns (boxes: seq<Resource>, error: Option<Failure>)
    ensures MemberPaths(Document(content), path).Err? ==>
      boxes == [] && error == Some(MemberPaths(Document(content), path).error)
    ensures MemberPaths(Document(content), path).Ok? ==>
      var ids := MemberPaths(Document(content), path).value;
      && |boxes| <= |ids|
      && (error.None? <==> |boxes| == |ids|)
      && (forall i :: 0 <= i < |boxes| ==> fresh(boxes[i]) && OpenedAt(boxes[i], ids[i], BoxFields, fetch))
      && (error.Some? ==> error == MemberError(BoxFields, fetch, ids[|boxes|]))
  {
    boxes, error := IterCollection(path, content, BoxFields, fetch);
  }
}
