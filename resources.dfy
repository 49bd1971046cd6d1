/** Resources: a JSON document whose declared fields are parsed into attributes,
    and the helpers that follow `_links.self` hyperlinks between documents. */
module Resources {
  import opened Wrappers
  import opened Text
  import opened Json
  import opened Exceptions
  import opened Seqs
  import opened Fields
  import opened ErrorMessages

  // ---------------------------------------------------------------------------
  // Member identities

  /** The exception naming a member without a usable `_links.self`. */
  function MissingLinks(member: Json): Failure
  {
    MissingAttribute("_links", Str(member))
  }

  /** The self link of a member document: the member is a dict whose `_links` is a
      non-empty dict whose `self` is a non-empty string. */
  function SelfLink(member: Json): Option<string>
  {
    if !member.JObj? then None
    else
      match Lookup(member.members, "_links")
      case Some(JObj(links)) =>
        if links == [] then None
        else
          (match Lookup(links, "self")
           case Some(JStr(s)) => if s == "" then None else Some(s)
           case _ => None)
      case _ => None
  }

  /** `r` is `s` with its trailing run of `c` removed. */
  predicate StrippedOf(r: string, s: string, c: char)
  {
    && |r| <= |s| && r == s[..|r|]
    && (r == [] || r[|r| - 1] != c)
    && forall k :: |r| <= k < |s| ==> s[k] == c
  }

  /** `get_member_identity(member)`. */
  function MemberIdentity(member: Json): Result<string, Failure>
  {
    if !member.JObj? then Err(AttributeFault(member, "get"))
    else
      var links := GetOr(member.members, "_links", JNull);
      if !Truthy(links) then Err(MissingLinks(member))
      else if !links.JObj? then Err(AttributeFault(links, "get"))
      else
        var self := GetOr(links.members, "self", JNull);
        if !Truthy(self) then Err(MissingLinks(member))
        else if !self.JStr? then Err(AttributeFault(self, "rstrip"))
        else Ok(RStrip(self.s, '/'))
  }

  /** A member has an identity exactly when it has a self link, and the identity
      is that link with its trailing `/` removed; a member that is not a dict
      fails on `.get`, and one without a truthy `_links` is a missing attribute. */
  lemma IdentityOutcome(member: Json)
    ensures MemberIdentity(member).Ok? <==> SelfLink(member).Some?
    ensures MemberIdentity(member).Ok? ==> StrippedOf(MemberIdentity(member).value, SelfLink(member).value, '/')
    ensures !member.JObj? ==> MemberIdentity(member) == Err(AttributeFault(member, "get"))
    ensures member.JObj? && !Truthy(GetOr(member.members, "_links", JNull)) ==>
      MemberIdentity(member) == Err(MissingLinks(member))
  {
    if member.JObj? {
      var links := GetOr(member.members, "_links", JNull);
      if Truthy(links) && links.JObj? {
        var self := GetOr(links.members, "self", JNull);
        if Truthy(self) && self.JStr? {
          assert self == Lookup(links.members, "self").value;
        }
      }
    }
  }

  /** A member whose `_links` is a dict without a truthy `self` raises the same
      `MissingAttributeError` as one without `_links`. */
  lemma MissingSelf(member: Json)
    requires member.JObj? && GetOr(member.members, "_links", JNull).JObj?
    requires GetOr(member.members, "_links", JNull).members != []
    requires !Truthy(GetOr(GetOr(member.members, "_links", JNull).members, "self", JNull))
    ensures MemberIdentity(member) == Err(MissingLinks(member))
  {
  }

  /** Every exception `get_member_identity` raises is a `MissingAttributeError`
      or an `AttributeError`; none is a `TypeError` or a `KeyError`. */
  lemma MemberIdentityErrors(member: Json)
    ensures MemberIdentity(member).Err? ==>
      || MemberIdentity(member).error == MissingLinks(member)
      || (MemberIdentity(member).error.Builtin? && FaultClass(MemberIdentity(member).error.fault) == AttributeError)
    ensures MemberIdentity(member).Err? ==>
      !(MemberIdentity(member).error.Builtin? && FaultClass(MemberIdentity(member).error.fault) in {TypeError, KeyError})
  {
  }

  /** `get_member_identity` applied to every member. */
  function IdentityResults(members: seq<Json>): (r: seq<Result<string, Failure>>)
    ensures |r| == |members|
  {
    if members == [] then [] else IdentityResults(members[..|members| - 1]) + [MemberIdentity(members[|members| - 1])]
  }

  lemma {:induction false} IdentityAt(members: seq<Json>, i: nat)
    requires i < |members|
    ensures IdentityResults(members)[i] == MemberIdentity(members[i])
    decreases |members|
  {
    if i < |members| - 1 {
      IdentityAt(members[..|members| - 1], i);
    }
  }

  predicate NonEmpty(s: string) { s != "" }

  /** `get_members_identities(members)`: iterating `members` may itself fail, the
      first member without an identity raises, and empty identities are
      skipped. */
  function MembersIdentities(members: Json): Result<seq<string>, Failure>
  {
    match Elements(members)
    case Err(e) => Err(e)
    case Ok(elems) =>
      match AllOk(IdentityResults(elems), |elems|)
      case Err(e) => Err(e)
      case Ok(ids) => Ok(Filter(NonEmpty, ids))
  }

  /** The identities of members that all have one. */
  function SelfPaths(members: seq<Json>): (r: seq<string>)
    requires forall i :: 0 <= i < |members| ==> MemberIdentity(members[i]).Ok?
    ensures |r| == |members| && forall i :: 0 <= i < |members| ==> r[i] == MemberIdentity(members[i]).value
  {
    seq(|members|, i requires 0 <= i < |members| => MemberIdentity(members[i]).value)
  }

  /** A list of members fails exactly when some member has no identity, and then
      with the exception of the first such member. */
  lemma IdentitiesFailure(members: seq<Json>)
    ensures MembersIdentities(JList(members)).Err? <==>
      exists i :: 0 <= i < |members| && MemberIdentity(members[i]).Err?
    ensures MembersIdentities(JList(members)).Err? ==>
      exists i :: 0 <= i < |members|
        && MemberIdentity(members[i]) == Err(MembersIdentities(JList(members)).error)
        && forall j :: 0 <= j < i ==> MemberIdentity(members[j]).Ok?
  {
    var results := IdentityResults(members);
    forall i | 0 <= i < |members|
      ensures results[i] == MemberIdentity(members[i])
    {
      IdentityAt(members, i);
    }
    AllOkFailure(results, |members|);
  }

  /** When every member has an identity, the result is those identities in member
      order with the empty ones dropped. */
  lemma IdentitiesInOrder(members: seq<Json>)
    requires forall i :: 0 <= i < |members| ==> MemberIdentity(members[i]).Ok?
    ensures MembersIdentities(JList(members)) == Ok(Filter(NonEmpty, SelfPaths(members)))
  {
    var results := IdentityResults(members);
    forall i | 0 <= i < |members|
      ensures results[i] == MemberIdentity(members[i])
    {
      IdentityAt(members, i);
    }
    AllOkFailure(results, |members|);
    AllOkValues(results, |members|);
    assert AllOk(results, |members|).value == SelfPaths(members);
  }

  /** Those identities form a subsequence of the members' identities, no longer
      than the list, with no empty entry and no trailing `/`. */
  lemma IdentitiesShape(members: seq<Json>)
    requires forall i :: 0 <= i < |members| ==> MemberIdentity(members[i]).Ok?
    ensures var ids := Filter(NonEmpty, SelfPaths(members));
      && IsSubsequence(ids, SelfPaths(members))
      && |ids| <= |members|
      && forall id :: id in ids ==> id != "" && id[|id| - 1] != '/'
  {
    var all := SelfPaths(members);
    FilterIsSubsequence(NonEmpty, all);
    forall id | id in Filter(NonEmpty, all)
      ensures id != "" && id[|id| - 1] != '/'
    {
      var i :| 0 <= i < |all| && all[i] == id;
      IdentityOutcome(members[i]);
    }
  }

  /** One member of the loop of `get_members_identities`: a member without an
      identity ends it with that member's exception, any other adds its
      identity, and the list keeps the non-empty ones. */
  lemma IdentityStep(members: seq<Json>, i: nat, all: seq<string>)
    requires i < |members| && AllOk(IdentityResults(members), i) == Ok(all)
    ensures MemberIdentity(members[i]).Err? ==>
      AllOk(IdentityResults(members), |members|) == Err(MemberIdentity(members[i]).error)
    ensures MemberIdentity(members[i]).Ok? ==>
      var id := MemberIdentity(members[i]).value;
      && AllOk(IdentityResults(members), i + 1) == Ok(all + [id])
      && Filter(NonEmpty, all + [id]) == if id != "" then Filter(NonEmpty, all) + [id] else Filter(NonEmpty, all)
  {
    var results := IdentityResults(members);
    IdentityAt(members, i);
    if MemberIdentity(members[i]).Err? {
      AllOkStops(results, i + 1, |members|);
    } else {
      FilterAppend(NonEmpty, all, MemberIdentity(members[i]).value);
    }
  }

  /** The loop of `get_members_identities`. */
  method GetMembersIdentities(members: Json) returns (r: Result<seq<string>, Failure>)
    ensures r == MembersIdentities(members)
  {
    var elems := Elements(members);
    if elems.Err? {
      return Err(elems.error);
    }
    ghost var results := IdentityResults(elems.value);
    ghost var all: seq<string> := [];
    var list: seq<string> := [];
    var i := 0;
    while i < |elems.value|
      invariant 0 <= i <= |elems.value|
      invariant AllOk(results, i) == Ok(all)
      invariant list == Filter(NonEmpty, all)
    {
      IdentityStep(elems.value, i, all);
      var id := MemberIdentity(elems.value[i]);
      if id.Err? {
        return Err(id.error);
      }
      all := all + [id.value];
      if id.value != "" {
        list := list + [id.value];
      }
      i := i + 1;
    }
    return Ok(list);
  }

  /** The converter of `ResourceCollection.members_identities`: a failure inside
      becomes the converter's exception text. */
  function IdentitiesConverter(members: Json): (r: Result<Json, string>)
    ensures r.Ok? <==> MembersIdentities(members).Ok?
    ensures r.Ok? ==>
      && r.value.JList? && |r.value.items| == |MembersIdentities(members).value|
      && forall i :: 0 <= i < |r.value.items| ==> r.value.items[i] == JStr(MembersIdentities(members).value[i])
    ensures r.Err? ==> r.error == Describe(MembersIdentities(members).error)
  {
    match MembersIdentities(members)
    case Err(e) => Err(Describe(e))
    case Ok(ids) => Ok(JList(StrList(ids)))
  }

  function StrList(ids: seq<string>): (r: seq<Json>)
    ensures |r| == |ids| && forall i :: 0 <= i < |ids| ==> r[i] == JStr(ids[i])
  {
    if ids == [] then [] else StrList(ids[..|ids| - 1]) + [JStr(ids[|ids| - 1])]
  }

  /** `members_identities = Field('members', default=[], converter=...)`. */
  const MembersField: Field := Scalar(["members"], false, JList([]), Some(IdentitiesConverter))

  /** The field table of a `ResourceCollection`. */
  const CollectionFields: seq<(string, Field)> := [("members_identities", MembersField)]

  // ---------------------------------------------------------------------------
  // Sub-resource paths

  /** `not subresource_name` for a name or a list of names. */
  predicate EmptyName(name: PathArg)
  {
    name == Key("") || name == Keys([])
  }

  /** `get_sub_resource_path_by(resource, name)` on the resource's document and
      path. Its `except (TypeError, KeyError)` is kept although no exception that
      `get_member_identity` raises is one of those. */
  function SubResourcePath(doc: Json, resourcePath: string, name: PathArg): Result<string, Failure>
  {
    if EmptyName(name) then Err(InvalidInput("subresource cannot be empty"))
    else
      var names := PathOf(name);
      match Walk(doc, names)
      case Err(e) => Err(e)
      case Ok(body) =>
        if !Truthy(body) then Err(MissingError(names, resourcePath))
        else
          match MemberIdentity(body)
          case Ok(id) => Ok(id)
          case Err(e) =>
            if e.Builtin? && FaultClass(e.fault) in {TypeError, KeyError} then Err(MissingError(names, resourcePath))
            else Err(e)
  }

  /** An empty name is invalid input; a missing or empty sub-document is a missing
      attribute naming the joined path; otherwise the result is exactly the
      sub-document's member identity, with its trailing `/` removed. */
  lemma SubResourcePathOutcome(doc: Json, resourcePath: string, name: PathArg)
    ensures EmptyName(name) ==>
      SubResourcePath(doc, resourcePath, name) == Err(InvalidInput("subresource cannot be empty"))
    ensures !EmptyName(name) && Walk(doc, PathOf(name)).Ok? && !Truthy(Walk(doc, PathOf(name)).value) ==>
      SubResourcePath(doc, resourcePath, name) == Err(MissingError(PathOf(name), resourcePath))
    ensures !EmptyName(name) && Walk(doc, PathOf(name)).Ok? && Truthy(Walk(doc, PathOf(name)).value) ==>
      SubResourcePath(doc, resourcePath, name) == MemberIdentity(Walk(doc, PathOf(name)).value)
    ensures SubResourcePath(doc, resourcePath, name).Ok? ==>
      && !EmptyName(name) && Walk(doc, PathOf(name)).Ok?
      && SelfLink(Walk(doc, PathOf(name)).value).Some?
      && StrippedOf(SubResourcePath(doc, resourcePath, name).value, SelfLink(Walk(doc, PathOf(name)).value).value, '/')
  {
  }

  // ---------------------------------------------------------------------------
  // Parsing a document into attributes

  /** Each declared field with the value it loads from `doc`, in table order. */
  function Outcomes(fields: seq<(string, Field)>, doc: Json, resourcePath: string): (r: seq<(string, Result<Json, Failure>)>)
    ensures |r| == |fields|
  {
    if fields == [] then []
    else
      var n := |fields| - 1;
      Outcomes(fields[..n], doc, resourcePath) + [(fields[n].0, FieldValue(fields[n].1, doc, resourcePath, []))]
  }

  lemma {:induction false} OutcomeAt(fields: seq<(string, Field)>, doc: Json, resourcePath: string, i: nat)
    requires i < |fields|
    ensures Outcomes(fields, doc, resourcePath)[i] == (fields[i].0, FieldValue(fields[i].1, doc, resourcePath, []))
    decreases |fields|
  {
    if i < |fields| - 1 {
      OutcomeAt(fields[..|fields| - 1], doc, resourcePath, i);
    }
  }

  /** What `_parse_attributes` leaves behind after the first `n` fields: the
      attributes it set, and the exception that stopped it, if any. */
  datatype Parsed = Parsed(values: map<string, Json>, error: Option<Failure>)

  function Settle(outcomes: seq<(string, Result<Json, Failure>)>, n: nat): Parsed
    requires n <= |outcomes|
  {
    if n == 0 then Parsed(map[], None)
    else
      var p := Settle(outcomes, n - 1);
      if p.error.Some? then p
      else
        match outcomes[n - 1].1
        case Err(e) => Parsed(p.values, Some(e))
        case Ok(v) => Parsed(p.values[outcomes[n - 1].0 := v], None)
  }

  /** `_parse_attributes(doc)` over a field table. */
  function Parse(fields: seq<(string, Field)>, doc: Json, resourcePath: string): Parsed
  {
    Settle(Outcomes(fields, doc, resourcePath), |fields|)
  }

  /** Attribute names declared once each, as class attributes are. */
  predicate DistinctNames(fields: seq<(string, Field)>)
  {
    forall i, j :: 0 <= i < j < |fields| ==> fields[i].0 != fields[j].0
  }

  /** No exception exactly when every outcome so far succeeded. */
  lemma {:induction false} SettleOk(outcomes: seq<(string, Result<Json, Failure>)>, n: nat)
    requires n <= |outcomes|
    ensures Settle(outcomes, n).error.None? <==> forall i :: 0 <= i < n ==> outcomes[i].1.Ok?
  {
    if n > 0 {
      SettleOk(outcomes, n - 1);
    }
  }

  /** Without an exception, every name is set to its outcome's value. */
  lemma {:induction false} SettleValues(outcomes: seq<(string, Result<Json, Failure>)>, n: nat)
    requires n <= |outcomes| && Settle(outcomes, n).error.None?
    requires forall i, j :: 0 <= i < j < |outcomes| ==> outcomes[i].0 != outcomes[j].0
    ensures forall i :: 0 <= i < n ==>
      && outcomes[i].1.Ok? && outcomes[i].0 in Settle(outcomes, n).values
      && Settle(outcomes, n).values[outcomes[i].0] == outcomes[i].1.value
  {
    if n > 0 {
      SettleValues(outcomes, n - 1);
      SettleKeys(outcomes, n - 1);
      SettleOk(outcomes, n);
    }
  }

  /** The names set are those of the outcomes so far. */
  lemma {:induction false} SettleKeys(outcomes: seq<(string, Result<Json, Failure>)>, n: nat)
    requires n <= |outcomes| && Settle(outcomes, n).error.None?
    ensures forall a :: a in Settle(outcomes, n).values <==> exists j :: 0 <= j < n && outcomes[j].0 == a
  {
    if n > 0 {
      SettleKeys(outcomes, n - 1);
    }
  }

  /** An exception comes from one failing outcome, reached without an earlier
      exception, and leaves the names set before it. */
  lemma {:induction false} SettleFailure(outcomes: seq<(string, Result<Json, Failure>)>, n: nat)
    requires n <= |outcomes| && Settle(outcomes, n).error.Some?
    ensures exists i :: (0 <= i < n && Settle(outcomes, i).error.None? && outcomes[i].1.Err?
      && Settle(outcomes, n) == Parsed(Settle(outcomes, i).values, Some(outcomes[i].1.error)))
  {
    if Settle(outcomes, n - 1).error.Some? {
      SettleFailure(outcomes, n - 1);
    } else {
      assert Settle(outcomes, n) == Parsed(Settle(outcomes, n - 1).values, Some(outcomes[n - 1].1.error));
    }
  }

  /** A failure at field `i` is the final outcome: later fields are not loaded. */
  lemma {:induction false} SettleStops(outcomes: seq<(string, Result<Json, Failure>)>, i: nat, n: nat)
    requires i <= n <= |outcomes| && Settle(outcomes, i).error.Some?
    ensures Settle(outcomes, n) == Settle(outcomes, i)
    decreases n - i
  {
    if i < n {
      SettleStops(outcomes, i, n - 1);
    }
  }

  /** Parsing succeeds exactly when every field loads, and then sets every
      declared attribute to its field's value and nothing else. */
  lemma ParseSuccess(fields: seq<(string, Field)>, doc: Json, resourcePath: string)
    requires DistinctNames(fields)
    ensures Parse(fields, doc, resourcePath).error.None? <==>
      forall i :: 0 <= i < |fields| ==> FieldValue(fields[i].1, doc, resourcePath, []).Ok?
    ensures Parse(fields, doc, resourcePath).error.None? ==>
      var values := Parse(fields, doc, resourcePath).values;
      && (forall a :: a in values <==> exists i :: 0 <= i < |fields| && fields[i].0 == a)
      && forall i :: 0 <= i < |fields| ==> values[fields[i].0] == FieldValue(fields[i].1, doc, resourcePath, []).value
  {
    var outcomes := Outcomes(fields, doc, resourcePath);
    forall i | 0 <= i < |fields|
      ensures outcomes[i] == (fields[i].0, FieldValue(fields[i].1, doc, resourcePath, []))
    {
      OutcomeAt(fields, doc, resourcePath, i);
    }
    SettleOk(outcomes, |fields|);
    if Parse(fields, doc, resourcePath).error.None? {
      SettleKeys(outcomes, |fields|);
      SettleValues(outcomes, |fields|);
    }
  }

  /** The first failing outcome is the final exception, and the names set are
      those of the outcomes before it. */
  lemma SettleFirstFailure(outcomes: seq<(string, Result<Json, Failure>)>, i: nat)
    requires i < |outcomes| && outcomes[i].1.Err?
    requires forall j :: 0 <= j < i ==> outcomes[j].1.Ok?
    ensures Settle(outcomes, |outcomes|).error == Some(outcomes[i].1.error)
    ensures forall a :: a in Settle(outcomes, |outcomes|).values <==> exists j :: 0 <= j < i && outcomes[j].0 == a
  {
    SettleOk(outcomes, i);
    SettleKeys(outcomes, i);
    assert Settle(outcomes, i + 1) == Parsed(Settle(outcomes, i).values, Some(outcomes[i].1.error));
    SettleStops(outcomes, i + 1, |outcomes|);
  }

  /** Parsing stops at the first field that fails, with its exception, after
      setting exactly the attributes declared before it. */
  lemma ParseFailure(fields: seq<(string, Field)>, doc: Json, resourcePath: string, i: nat)
    requires i < |fields| && FieldValue(fields[i].1, doc, resourcePath, []).Err?
    requires forall j :: 0 <= j < i ==> FieldValue(fields[j].1, doc, resourcePath, []).Ok?
    ensures Parse(fields, doc, resourcePath).error == Some(FieldValue(fields[i].1, doc, resourcePath, []).error)
    ensures forall a :: a in Parse(fields, doc, resourcePath).values <==> exists j :: 0 <= j < i && fields[j].0 == a
  {
    var outcomes := Outcomes(fields, doc, resourcePath);
    forall j | 0 <= j < |fields|
      ensures outcomes[j] == (fields[j].0, FieldValue(fields[j].1, doc, resourcePath, []))
    {
      OutcomeAt(fields, doc, resourcePath, j);
    }
    SettleFirstFailure(outcomes, i);
    var values := Settle(outcomes, |outcomes|).values;
    forall a
      ensures a in values <==> exists j :: 0 <= j < i && fields[j].0 == a
    {
      if a in values {
        var j :| 0 <= j < i && outcomes[j].0 == a;
        assert fields[j].0 == a;
      } else {
        forall j | 0 <= j < i
          ensures fields[j].0 != a
        {
          assert outcomes[j].0 == fields[j].0;
        }
      }
    }
  }

  /** One more field of `_parse_attributes`: its exception ends the parse with
      the attributes set so far, its value is set on top of them. */
  lemma ParseStep(fields: seq<(string, Field)>, doc: Json, resourcePath: string, i: nat,
                  before: map<string, Json>, attributes: map<string, Json>)
    requires i < |fields|
    requires Settle(Outcomes(fields, doc, resourcePath), i).error.None?
    requires attributes == before + Settle(Outcomes(fields, doc, resourcePath), i).values
    ensures var v := FieldValue(fields[i].1, doc, resourcePath, []);
      && (v.Err? ==> attributes == before + Parse(fields, doc, resourcePath).values
                     && Some(v.error) == Parse(fields, doc, resourcePath).error)
      && (v.Ok? ==> Settle(Outcomes(fields, doc, resourcePath), i + 1).error.None?
                    && attributes[fields[i].0 := v.value]
                       == before + Settle(Outcomes(fields, doc, resourcePath), i + 1).values)
  {
    var outcomes := Outcomes(fields, doc, resourcePath);
    OutcomeAt(fields, doc, resourcePath, i);
    if FieldValue(fields[i].1, doc, resourcePath, []).Err? {
      SettleStops(outcomes, i + 1, |fields|);
    }
  }

  /** A JSON resource: its path, its declared field table, the document last
      loaded and the attributes parsed from it. */
  class Resource {
    const path: string
    const fields: seq<(string, Field)>
    var json: Json
    var attributes: map<string, Json>

    /** The object before its first load: `_json` is None. */
    constructor (path: string, fields: seq<(string, Field)>)
      ensures this.path == path && this.fields == fields
      ensures json == JNull && attributes == map[]
    {
      this.path := path;
      this.fields := fields;
      json := JNull;
      attributes := map[];
    }

    /** `_parse_attributes(doc)`: set each declared field's value in table order;
        an exception stops the loop with the earlier attributes already set. */
    method ParseAttributes(doc: Json) returns (error: Option<Failure>)
      modifies this
      ensures json == old(json)
      ensures attributes == old(attributes) + Parse(fields, doc, path).values
      ensures error == Parse(fields, doc, path).error
    {
      ghost var outcomes := Outcomes(fields, doc, path);
      var i := 0;
      while i < |fields|
        invariant 0 <= i <= |fields|
        invariant json == old(json)
        invariant Settle(outcomes, i).error.None?
        invariant attributes == old(attributes) + Settle(outcomes, i).values
      {
        ParseStep(fields, doc, path, i, old(attributes), attributes);
        var (name, field) := fields[i];
        var v := Fields.Load(field, doc, path, []);
        if v.Err? {
          return Some(v.error);
        }
        attributes := attributes[name := v.value];
        i := i + 1;
      }
      assert outcomes == Outcomes(fields, doc, path);
      return None;
    }

    /** `load()` given the fetched content: an empty body is an empty document,
        which is kept in `json` and then parsed. */
    method Load(content: Option<Json>) returns (error: Option<Failure>)
      modifies this
      ensures json == Document(content)
      ensures attributes == old(attributes) + Parse(fields, json, path).values
      ensures error == Parse(fields, json, path).error
    {
      json := Document(content);
      error := ParseAttributes(json);
    }

    /** `get_sub_resource_path_by(self, name)`, walking the document in a loop. */
    method SubResourcePathBy(name: PathArg) returns (r: Result<string, Failure>)
      ensures r == SubResourcePath(json, path, name)
    {
      if name == Key("") || name == Keys([]) {
        return Err(InvalidInput("subresource cannot be empty"));
      }
      var names := PathOf(name);
      var body := WalkKeys(json, names);
      if body.Err? {
        return Err(body.error);
      }
      if !Truthy(body.value) {
        return Err(MissingError(names, path));
      }
      var id := MemberIdentity(body.value);
      if id.Err? {
        var e := id.error;
        if e.Builtin? && FaultClass(e.fault) in {TypeError, KeyError} {
          return Err(MissingError(names, path));
        }
        return Err(e);
      }
      return Ok(id.value);
    }
  }

  /** `Resource(connection, path)`: construct, then load the fetched content. */
  method Open(path: string, fields: seq<(string, Field)>, content: Option<Json>) returns (res: Resource, error: Option<Failure>)
    ensures fresh(res) && res.path == path && res.fields == fields
    ensures res.json == Document(content)
    ensures res.attributes == Parse(fields, res.json, path).values
    ensures error == Parse(fields, res.json, path).error
  {
    res := new Resource(path, fields);
    error := res.Load(content);
  }

  /** `members_identities` of a collection document: the identities of its
      `members` list, none when `members` is absent; a failure while reading the
      list is a malformed `members` attribute, and a document that is not a dict
      cannot be subscripted. */
  function MemberPaths(doc: Json, resourcePath: string): Result<seq<string>, Failure>
  {
    if !doc.JObj? then Err(SubscriptFault(doc))
    else
      match Lookup(doc.members, "members")
      case None => Ok([])
      case Some(m) =>
        match MembersIdentities(m)
        case Ok(ids) => Ok(ids)
        case Err(e) => Err(MalformedError(["members"], resourcePath, Describe(e)))
  }

  /** The member paths of a collection document: its `members` list read through
      `get_members_identities`, or none when `members` is absent. */
  lemma CollectionMembers(members: seq<(string, Json)>, resourcePath: string)
    ensures FieldValue(MembersField, JObj(members), resourcePath, [])
         == match MemberPaths(JObj(members), resourcePath)
            case Ok(ids) => Ok(JList(StrList(ids)))
            case Err(e) => Err(e)
  {
    TopLevelField(MembersField, members, resourcePath);
    assert [] + MembersField.path == ["members"];
    assert MembersField.path[..0] == [];
    if Lookup(members, "members").None? {
      assert StrList([]) == [];
    }
  }

  /** Parsing a collection document sets `members_identities` to its member
      paths, or raises what reading them raises. */
  lemma CollectionParse(doc: Json, resourcePath: string)
    ensures Parse(CollectionFields, doc, resourcePath).error
         == if MemberPaths(doc, resourcePath).Ok? then None else Some(MemberPaths(doc, resourcePath).error)
    ensures Parse(CollectionFields, doc, resourcePath).values
         == if MemberPaths(doc, resourcePath).Ok?
            then map["members_identities" := JList(StrList(MemberPaths(doc, resourcePath).value))]
            else map[]
  {
    var outcomes := Outcomes(CollectionFields, doc, resourcePath);
    OutcomeAt(CollectionFields, doc, resourcePath, 0);
    var v := FieldValue(MembersField, doc, resourcePath, []);
    if doc.JObj? {
      CollectionMembers(doc.members, resourcePath);
    } else {
      assert MembersField.path[..0] == [];
      assert v == Err(SubscriptFault(doc));
    }
    assert outcomes[0] == ("members_identities", v);
    assert Settle(outcomes, 0) == Parsed(map[], None);
    match v
    case Ok(x) =>
      assert Settle(outcomes, 1) == Parsed(map["members_identities" := x], None);
    case Err(e) =>
      assert Settle(outcomes, 1) == Parsed(map[], Some(e));
  }

  /** The strings of a list of identities. */
  function Strings(items: seq<Json>): (r: seq<string>)
    ensures |r| == |items|
  {
    if items == [] then [] else Strings(items[..|items| - 1]) + [Str(items[|items| - 1])]
  }

  lemma {:induction false} StringsOfStrList(ids: seq<string>)
    ensures Strings(StrList(ids)) == ids
    decreases |ids|
  {
    if ids != [] {
      var n := |ids| - 1;
      StringsOfStrList(ids[..n]);
      assert StrList(ids)[..n] == StrList(ids[..n]);
      assert ids[..n] + [ids[n]] == ids;
    }
  }

  /** The document a fetched body loads into. */
  function Document(content: Option<Json>): Json
  {
    if content.Some? then content.value else JObj([])
  }

  /** How fetching and loading the member at `identity` ends: the exception the
      fetch or the parse raises, if any. */
  function MemberError(fields: seq<(string, Field)>, fetch: string -> Result<Option<Json>, Failure>, identity: string): Option<Failure>
  {
    match fetch(identity)
    case Err(e) => Some(e)
    case Ok(content) => Parse(fields, Document(content), identity).error
  }

  /** `r` is the member at `identity`, fetched and loaded without an exception. */
  ghost predicate OpenedAt(r: Resource, identity: string, fields: seq<(string, Field)>, fetch: string -> Result<Option<Json>, Failure>)
    reads r
  {
    && fetch(identity).Ok?
    && r.path == identity && r.fields == fields
    && r.json == Document(fetch(identity).value)
    && r.attributes == Parse(fields, r.json, identity).values
    && MemberError(fields, fetch, identity).None?
  }

  /** `ResourceCollection.__iter__`: one resource per member identity, in order,
      each fetched and loaded; the first member whose fetch or parse fails ends
      the iteration with that exception. */
  method Members(identities: seq<string>, fields: seq<(string, Field)>, fetch: string -> Result<Option<Json>, Failure>)
    returns (resources: seq<Resource>, error: Option<Failure>)
    ensures |resources| <= |identities|
    ensures error.None? <==> |resources| == |identities|
    ensures forall i :: 0 <= i < |resources| ==> fresh(resources[i]) && OpenedAt(resources[i], identities[i], fields, fetch)
    ensures error.Some? ==> error == MemberError(fields, fetch, identities[|resources|])
  {
    resources := [];
    var i := 0;
    while i < |identities|
      invariant 0 <= i <= |identities| && |resources| == i
      invariant forall j :: 0 <= j < i ==> fresh(resources[j]) && OpenedAt(resources[j], identities[j], fields, fetch)
    {
      var got := fetch(identities[i]);
      if got.Err? {
        return resources, Some(got.error);
      }
      var res, err := Open(identities[i], fields, got.value);
      if err.Some? {
        return resources, err;
      }
      resources := resources + [res];
      i := i + 1;
    }
    return resources, None;
  }

  /** A collection, fetched as `content`, iterated: its member paths, then one
      loaded resource per path, in order. */
  method IterCollection(path: string, content: Option<Json>, fields: seq<(string, Field)>,
                        fetch: string -> Result<Option<Json>, Failure>)
    returns (resources: seq<Resource>, error: Option<Failure>)
    ensures MemberPaths(Document(content), path).Err? ==>
      resources == [] && error == Some(MemberPaths(Document(content), path).error)
    ensures MemberPaths(Document(content), path).Ok? ==>
      var ids := MemberPaths(Document(content), path).value;
      && |resources| <= |ids|
      && (error.None? <==> |resources| == |ids|)
      && (forall i :: 0 <= i < |resources| ==> fresh(resources[i]) && OpenedAt(resources[i], ids[i], fields, fetch))
      && (error.Some? ==> error == MemberError(fields, fetch, ids[|resources|]))
  {
    var collection, err := Open(path, CollectionFields, content);
    CollectionParse(collection.json, path);
    if err.Some? {
      return [], err;
    }
    var listed := collection.attributes["members_identities"];
    var ids := Strings(listed.items);
    StringsOfStrList(MemberPaths(collection.json, path).value);
    resources, error := Members(ids, fields, fetch);
  }
}
