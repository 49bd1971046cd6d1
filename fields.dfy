/** Declarative fields of a JSON resource: a `Field` pulls one value out of a
    parsed document by a key path and applies the required/default/converter
    rules; a `CollectionField` turns a list of sub-documents into a list of
    records; an `EnumerationField` maps raw values through a table. */
module Fields {
  import opened Wrappers
  import opened Text
  import opened Json
  import opened Exceptions
  import opened ErrorMessages
  import opened Seqs

  /** A Python callable applied to a present value. An exception it raises is
      `Err(str(exc))`. */
  type Converter = Json -> Result<Json, string>

  /** A field path after construction: never empty. */
  type Path = p: seq<string> | p != [] witness [""]

  datatype Field =
    | Scalar(path: Path, required: bool, default: Json, converter: Option<Converter>)
    | Collection(path: Path, required: bool, default: Json, converter: Option<Converter>,
                 subfields: seq<(string, Field)>)

  /** The `path` argument of the constructors: a single key or a list of keys. */
  datatype PathArg = Key(key: string) | Keys(keys: seq<string>)

  /** A non-list path is wrapped as a one-element list. */
  function PathOf(arg: PathArg): seq<string>
  {
    match arg
    case Key(k) => [k]
    case Keys(ks) => ks
  }

  /** `Field(path, required, default, converter)`. */
  function NewField(path: PathArg, required: bool, default: Json, converter: Option<Converter>): (r: Result<Field, Failure>)
    ensures r.Ok? <==> PathOf(path) != []
    ensures r.Ok? ==> r.value.Scalar? && r.value.path == PathOf(path) && r.value.required == required
                      && r.value.default == default && r.value.converter == converter
    ensures r.Err? ==> path == Keys([]) && r.error == InvalidInput("Path cannot be empty")
  {
    if PathOf(path) == [] then Err(InvalidInput("Path cannot be empty"))
    else Ok(Scalar(PathOf(path), required, default, converter))
  }

  /** A `CollectionField` subclass instantiated with `path`: its subfields are the
      fields the subclass declares. */
  function NewCollectionField(path: PathArg, required: bool, default: Json, converter: Option<Converter>,
                              subfields: seq<(string, Field)>): (r: Result<Field, Failure>)
    ensures r.Ok? <==> PathOf(path) != []
    ensures r.Ok? ==> r.value.Collection? && r.value.path == PathOf(path) && r.value.required == required
                      && r.value.default == default && r.value.converter == converter
                      && r.value.subfields == subfields
    ensures r.Err? ==> path == Keys([]) && r.error == InvalidInput("Path cannot be empty")
  {
    if PathOf(path) == [] then Err(InvalidInput("Path cannot be empty"))
    else Ok(Collection(PathOf(path), required, default, converter, subfields))
  }

  /** `mapping.get(value)` for a mapping with string keys: a string is looked up,
      an unhashable list or dict raises `TypeError`, anything else is unmapped. */
  function MappingGet(mapping: seq<(string, Json)>, value: Json): (r: Result<Json, string>)
    ensures value.JStr? ==> r == Ok(GetOr(mapping, value.s, JNull))
    ensures value.JList? ==> r == Err("unhashable type: 'list'")
    ensures value.JObj? ==> r == Err("unhashable type: 'dict'")
    ensures (value.JNull? || value.JBool? || value.JInt?) ==> r == Ok(JNull)
  {
    match value
    case JStr(s) => Ok(GetOr(mapping, s, JNull))
    case JList(_) => Err("unhashable type: 'list'")
    case JObj(_) => Err("unhashable type: 'dict'")
    case _ => Ok(JNull)
  }

  /** `EnumerationField(field, mapping, required, default)`: the mapping must be a
      dict, and its `get` becomes the converter. */
  function NewEnumerationField(path: PathArg, mapping: Json, required: bool, default: Json): (r: Result<Field, Failure>)
    ensures !mapping.JObj? ==>
      r == Err(InvalidInput("EnumerationField initializer must be a dict"))
    ensures mapping.JObj? ==> (r.Ok? <==> PathOf(path) != [])
    ensures r.Ok? ==>
      && mapping.JObj? && r.value.Scalar? && r.value.path == PathOf(path)
      && r.value.required == required && r.value.default == default
      && r.value.converter.Some?
      && forall v :: r.value.converter.value(v) == MappingGet(mapping.members, v)
  {
    if !mapping.JObj? then Err(InvalidInput("EnumerationField initializer must be a dict"))
    else NewField(path, required, default, Some(v => MappingGet(mapping.members, v)))
  }

  /** The start of the message `int` gives for a string that is not an integer literal. */
  const InvalidLiteral: string := "invalid literal for int() with base 10: "

  /** `int` formats the rejected string with `%.200R`: its repr, cut after 200
      characters. */
  const ReprLimit: nat := 200

  /** The message `int` gives for the string `s` that is not an integer literal. */
  function LiteralError(s: string): (m: string)
    ensures |InvalidLiteral| <= |m| <= |InvalidLiteral| + ReprLimit && m[..|InvalidLiteral|] == InvalidLiteral
    ensures IsPrefix(m[|InvalidLiteral|..], QuoteString(s))
    ensures |QuoteString(s)| <= ReprLimit ==> m == InvalidLiteral + QuoteString(s)
    ensures |QuoteString(s)| > ReprLimit ==> |m| == |InvalidLiteral| + ReprLimit
  {
    var repr := QuoteString(s);
    InvalidLiteral + (if |repr| <= ReprLimit then repr else repr[..ReprLimit])
  }

  predicate IsPrefix(p: string, s: string)
  {
    |p| <= |s| && s[..|p|] == p
  }

  /** `int(value)` for the JSON values: an integer is itself, a boolean is 0 or 1,
      a string is parsed in base 10, anything else is a `TypeError`. */
  function IntConverter(value: Json): (r: Result<Json, string>)
    ensures r.Ok? ==> r.value.JInt?
    ensures value.JInt? ==> r == Ok(value)
    ensures value.JStr? ==> (r.Ok? <==> ParseInt(value.s).Some?)
  {
    match value
    case JInt(i) => Ok(JInt(i))
    case JBool(b) => Ok(JInt(if b then 1 else 0))
    case JStr(s) =>
      (match ParseInt(s)
       case Some(i) => Ok(JInt(i))
       case None => Err(LiteralError(s)))
    case _ =>
      Err("int() argument must be a string, a bytes-like object or a number, not '" + TypeName(value) + "'")
  }

  /** `int(str(i)) == i`: the integer converter reads back every rendered integer. */
  lemma IntConverterOfString(i: int)
    ensures IntConverter(JStr(IntToString(i))) == Ok(JInt(i))
  {
    ParseIntOfIntToString(i);
  }

  /** The `Integer` field with the `int` converter, as the library's own example
      resource declares it. */
  const IntegerExample: Field := Scalar(["Integer"], false, JNull, Some(IntConverter))

  /** The string '42' under `Integer` loads as the integer 42. */
  lemma IntegerExampleAccepts(members: seq<(string, Json)>, resourcePath: string)
    requires Lookup(members, "Integer") == Some(JStr("42"))
    ensures Leaf(IntegerExample, JObj(members), resourcePath, []) == Ok(JInt(42))
  {
    assert DigitsValue("42") == 42 by {
      assert "42"[..1] == "4";
    }
    ParseIntOfDigits("42");
  }

  /** The string 'banana' under `Integer` raises `MalformedAttributeError` with the
      message of `int`. */
  lemma IntegerExampleMalformed(members: seq<(string, Json)>, resourcePath: string, s: string)
    requires Lookup(members, "Integer") == Some(JStr(s)) && ParseInt(s).None?
    ensures Leaf(IntegerExample, JObj(members), resourcePath, [])
         == Err(MalformedError(["Integer"], resourcePath, LiteralError(s)))
  {
    assert [] + IntegerExample.path == ["Integer"];
  }

  lemma IntegerExampleRejects(members: seq<(string, Json)>, resourcePath: string)
    requires Lookup(members, "Integer") == Some(JStr("banana"))
    ensures Leaf(IntegerExample, JObj(members), resourcePath, [])
         == Err(MalformedError(["Integer"], resourcePath, InvalidLiteral + "'banana'"))
  {
    BananaRejected();
    IntegerExampleMalformed(members, resourcePath, "banana");
  }

  /** `"banana"` is no integer literal, and its repr is short enough to be quoted whole. */
  lemma BananaRejected()
    ensures ParseInt("banana") == None
    ensures LiteralError("banana") == InvalidLiteral + "'banana'"
  {
    var banana := "banana";
    assert banana[0] == 'b' && banana[5] == 'a';
    ParseIntRejects(banana);
    assert '\'' !in banana by {
      assert forall k :: 0 <= k < |banana| ==> banana[k] in "abn";
    }
    assert QuoteString(banana) == "'banana'";
  }

  /** `for item in keys: body = body.get(item, {})`: an absent key is an empty dict,
      and `.get` on anything but a dict raises `AttributeError`. */
  function Walk(body: Json, keys: seq<string>): (r: Result<Json, Failure>)
    ensures r.Err? ==> r.error.Builtin? && FaultClass(r.error.fault) == AttributeError
    decreases |keys|
  {
    if keys == [] then Ok(body)
    else
      match Walk(body, keys[..|keys| - 1])
      case Err(e) => Err(e)
      case Ok(b) =>
        if b.JObj? then Ok(GetOr(b.members, keys[|keys| - 1], JObj([])))
        else Err(AttributeFault(b, "get"))
  }

  /** Walking on from an empty dict stays at the empty dict. */
  lemma {:induction false} WalkEmpty(keys: seq<string>)
    ensures Walk(JObj([]), keys) == Ok(JObj([]))
    decreases |keys|
  {
    if keys != [] {
      WalkEmpty(keys[..|keys| - 1]);
    }
  }

  /** One step of a walk: from the walk so far, look up one more key. */
  function WalkStep(r: Result<Json, Failure>, key: string): Result<Json, Failure> {
    match r
    case Err(e) => Err(e)
    case Ok(b) =>
      if b.JObj? then Ok(GetOr(b.members, key, JObj([])))
      else Err(AttributeFault(b, "get"))
  }

  /** A nonempty walk is the walk of all keys but the last, then one step. */
  lemma WalkLast(body: Json, keys: seq<string>)
    requires keys != []
    ensures Walk(body, keys) == WalkStep(Walk(body, keys[..|keys| - 1]), keys[|keys| - 1])
  {
  }

  /** Walking a longer path walks the prefix first. */
  lemma {:induction false} WalkPrefix(body: Json, keys: seq<string>, n: nat, b: Json)
    requires n <= |keys| && Walk(body, keys[..n]) == Ok(b)
    ensures Walk(body, keys) == Walk(b, keys[n..])
    decreases |keys| - n
  {
    if n == |keys| {
      assert keys[..n] == keys;
      assert keys[n..] == [];
    } else {
      var init, rest := keys[..|keys| - 1], keys[n..];
      assert init[..n] == keys[..n];
      assert rest[..|rest| - 1] == init[n..] && rest[|rest| - 1] == keys[|keys| - 1];
      if n < |init| {
        WalkPrefix(body, init, n, b);
      } else {
        assert init == keys[..n] && init[n..] == [];
      }
      WalkLast(body, keys);
      WalkLast(b, rest);
    }
  }

  /** The exception a missing required field raises. */
  function MissingError(attribute: seq<string>, resourcePath: string): Failure
  {
    MissingAttribute(Join("/", attribute), resourcePath)
  }

  /** The exception a failing converter turns into. */
  function MalformedError(attribute: seq<string>, resourcePath: string, error: string): Failure
  {
    MalformedAttribute(Join("/", attribute), resourcePath, error)
  }

  /** `Field._load(body, resource, nested_in)`: walk to the parent of the last key,
      subscript it, then apply the required/default/converter rules. */
  function Leaf(f: Field, body: Json, resourcePath: string, nestedIn: seq<string>): Result<Json, Failure>
  {
    var name := f.path[|f.path| - 1];
    match Walk(body, f.path[..|f.path| - 1])
    case Err(e) => Err(e)
    case Ok(parent) =>
      if !parent.JObj? then Err(SubscriptFault(parent))
      else
        match Lookup(parent.members, name)
        case None => if f.required then Err(MissingError(nestedIn + f.path, resourcePath)) else Ok(f.default)
        case Some(item) =>
          match f.converter
          case None => Ok(item)
          case Some(convert) =>
            match convert(item)
            case Ok(v) => Ok(v)
            case Err(e) => Err(MalformedError(nestedIn + f.path, resourcePath, e))
  }

  /** `for x in value`: the items of a list, the characters of a string, the keys
      of a dict; anything else raises `TypeError`. */
  function Elements(value: Json): (r: Result<seq<Json>, Failure>)
    ensures r.Err? <==> !(value.JList? || value.JStr? || value.JObj?)
    ensures value.JList? ==> r == Ok(value.items)
    ensures value.JStr? ==>
      && r.Ok? && |r.value| == |value.s|
      && forall k :: 0 <= k < |value.s| ==> r.value[k] == JStr([value.s[k]])
    ensures value.JObj? ==>
      && r.Ok? && |r.value| == |value.members|
      && forall k :: 0 <= k < |value.members| ==> r.value[k] == JStr(value.members[k].0)
  {
    match value
    case JList(items) => Ok(items)
    case JStr(s) => Ok(Characters(s))
    case JObj(members) => Ok(KeysOf(members))
    case _ => Err(NotIterableFault(value))
  }

  /** The one-character strings of `s`, in order. */
  function Characters(s: string): (r: seq<Json>)
    ensures |r| == |s| && forall k :: 0 <= k < |s| ==> r[k] == JStr([s[k]])
  {
    if s == [] then [] else Characters(s[..|s| - 1]) + [JStr([s[|s| - 1]])]
  }

  /** The keys of a dict, in order. */
  function KeysOf(members: seq<(string, Json)>): (r: seq<Json>)
    ensures |r| == |members| && forall k :: 0 <= k < |members| ==> r[k] == JStr(members[k].0)
  {
    if members == [] then [] else KeysOf(members[..|members| - 1]) + [JStr(members[|members| - 1].0)]
  }

  /** The value a field loads from `body`. A collection loads its own list without
      the parent's `nested_in`, then loads every element's subfields with
      `nested_in` extended by its path. */
  function FieldValue(f: Field, body: Json, resourcePath: string, nestedIn: seq<string>): Result<Json, Failure>
    decreases f, 3
  {
    match f
    case Scalar(_, _, _, _) => Leaf(f, body, resourcePath, nestedIn)
    case Collection(_, _, _, _, _) =>
      match Leaf(f, body, resourcePath, [])
      case Err(e) => Err(e)
      case Ok(values) =>
        if values == JNull then Ok(JNull)
        else
          match Elements(values)
          case Err(e) => Err(e)
          case Ok(elems) =>
            match AllOk(RecordResults(f, elems, resourcePath, nestedIn + f.path, |elems|), |elems|)
            case Err(e) => Err(e)
            case Ok(rs) => Ok(JList(rs))
  }

  /** A loaded record as a value of the list. */
  function AsRecord(r: Result<seq<(string, Json)>, Failure>): Result<Json, Failure>
  {
    match r
    case Ok(attrs) => Ok(JObj(attrs))
    case Err(e) => Err(e)
  }

  /** The record each of the first `n` elements loads into. */
  function RecordResults(f: Field, elems: seq<Json>, resourcePath: string, nested: seq<string>, n: nat): (r: seq<Result<Json, Failure>>)
    requires f.Collection? && n <= |elems|
    ensures |r| == n
    decreases f, 2, n
  {
    if n == 0 then []
    else RecordResults(f, elems, resourcePath, nested, n - 1) + [AsRecord(Record(f, elems[n - 1], resourcePath, nested))]
  }

  /** One collection element with every subfield loaded from it, in table order;
      the first failure wins. */
  function Record(f: Field, value: Json, resourcePath: string, nested: seq<string>): Result<seq<(string, Json)>, Failure>
    requires f.Collection?
    decreases f, 1
  {
    AllOk(SubfieldResults(f, value, resourcePath, nested, |f.subfields|), |f.subfields|)
  }

  /** A loaded value paired with its attribute name. */
  function Labelled(name: string, r: Result<Json, Failure>): Result<(string, Json), Failure>
  {
    match r
    case Ok(v) => Ok((name, v))
    case Err(e) => Err(e)
  }

  /** The first `k` subfields, each loaded from one element. */
  function SubfieldResults(f: Field, value: Json, resourcePath: string, nested: seq<string>, k: nat): (r: seq<Result<(string, Json), Failure>>)
    requires f.Collection? && k <= |f.subfields|
    ensures |r| == k
    decreases f, 0, k
  {
    if k == 0 then []
    else
      SubfieldResults(f, value, resourcePath, nested, k - 1)
        + [Labelled(f.subfields[k - 1].0, FieldValue(f.subfields[k - 1].1, value, resourcePath, nested))]
  }

  /** The `i`-th result is the record of the `i`-th element. */
  lemma {:induction false} RecordAt(f: Field, elems: seq<Json>, resourcePath: string, nested: seq<string>, n: nat, i: nat)
    requires f.Collection? && i < n <= |elems|
    ensures RecordResults(f, elems, resourcePath, nested, n)[i] == AsRecord(Record(f, elems[i], resourcePath, nested))
    decreases n
  {
    if i < n - 1 {
      RecordAt(f, elems, resourcePath, nested, n - 1, i);
    }
  }

  /** The `j`-th result is the `j`-th subfield loaded from the element. */
  lemma {:induction false} SubfieldAt(f: Field, value: Json, resourcePath: string, nested: seq<string>, k: nat, j: nat)
    requires f.Collection? && j < k <= |f.subfields|
    ensures SubfieldResults(f, value, resourcePath, nested, k)[j]
         == Labelled(f.subfields[j].0, FieldValue(f.subfields[j].1, value, resourcePath, nested))
    decreases k
  {
    if j < k - 1 {
      SubfieldAt(f, value, resourcePath, nested, k - 1, j);
    }
  }

  /** A record loads exactly when each of its subfields loads; it then pairs every
      subfield's attribute name with the value loaded from the element, in table
      order. */
  lemma RecordContents(f: Field, value: Json, resourcePath: string, nested: seq<string>)
    requires f.Collection?
    ensures Record(f, value, resourcePath, nested).Ok? <==>
      forall j :: 0 <= j < |f.subfields| ==> FieldValue(f.subfields[j].1, value, resourcePath, nested).Ok?
    ensures Record(f, value, resourcePath, nested).Ok? ==>
      var attrs := Record(f, value, resourcePath, nested).value;
      && |attrs| == |f.subfields|
      && forall j :: 0 <= j < |f.subfields| ==>
           attrs[j] == (f.subfields[j].0, FieldValue(f.subfields[j].1, value, resourcePath, nested).value)
  {
    var rs := SubfieldResults(f, value, resourcePath, nested, |f.subfields|);
    forall j | 0 <= j < |f.subfields|
      ensures rs[j] == Labelled(f.subfields[j].0, FieldValue(f.subfields[j].1, value, resourcePath, nested))
    {
      SubfieldAt(f, value, resourcePath, nested, |f.subfields|, j);
    }
    AllOkFailure(rs, |rs|);
    if Record(f, value, resourcePath, nested).Ok? {
      AllOkValues(rs, |rs|);
    }
  }

  // ---------------------------------------------------------------------------
  // The loops of `Field._load` and `CollectionField._load`

  /** The walk loop of `Field._load`. */
  method WalkKeys(body: Json, keys: seq<string>) returns (r: Result<Json, Failure>)
    ensures r == Walk(body, keys)
  {
    var cur := body;
    var i := 0;
    while i < |keys|
      invariant 0 <= i <= |keys|
      invariant Walk(body, keys[..i]) == Ok(cur)
    {
      assert keys[..i + 1][..i] == keys[..i];
      if !cur.JObj? {
        WalkFailure(body, keys, i + 1);
        return Err(AttributeFault(cur, "get"));
      }
      cur := GetOr(cur.members, keys[i], JObj([]));
      i := i + 1;
    }
    assert keys[..i] == keys;
    return Ok(cur);
  }

  /** A failed step fails the whole walk with the same exception. */
  lemma {:induction false} WalkFailure(body: Json, keys: seq<string>, n: nat)
    requires n <= |keys| && Walk(body, keys[..n]).Err?
    ensures Walk(body, keys) == Walk(body, keys[..n])
    decreases |keys| - n
  {
    if n < |keys| {
      var init := keys[..|keys| - 1];
      assert init[..n] == keys[..n];
      WalkFailure(body, init, n);
      if n == |keys| - 1 {
        assert keys[..n] == init;
      }
    } else {
      assert keys[..n] == keys;
    }
  }

  /** `Field._load`. */
  method LoadLeaf(f: Field, body: Json, resourcePath: string, nestedIn: seq<string>) returns (r: Result<Json, Failure>)
    ensures r == Leaf(f, body, resourcePath, nestedIn)
  {
    var name := f.path[|f.path| - 1];
    var walked := WalkKeys(body, f.path[..|f.path| - 1]);
    if walked.Err? {
      return Err(walked.error);
    }
    var parent := walked.value;
    if !parent.JObj? {
      return Err(SubscriptFault(parent));
    }
    var item := Lookup(parent.members, name);
    if item.None? {
      if f.required {
        return Err(MissingError(nestedIn + f.path, resourcePath));
      }
      return Ok(f.default);
    }
    if f.converter.None? {
      return Ok(item.value);
    }
    var converted := f.converter.value(item.value);
    if converted.Err? {
      return Err(MalformedError(nestedIn + f.path, resourcePath, converted.error));
    }
    return Ok(converted.value);
  }

  /** `field._load(body, resource, nested_in)` for either kind of field: a
      collection copies a record per element and sets each subfield on it. */
  method Load(f: Field, body: Json, resourcePath: string, nestedIn: seq<string>) returns (r: Result<Json, Failure>)
    ensures r == FieldValue(f, body, resourcePath, nestedIn)
    decreases f, 2
  {
    if f.Scalar? {
      r := LoadLeaf(f, body, resourcePath, nestedIn);
      return;
    }
    var nested := nestedIn + f.path;
    var values := LoadLeaf(f, body, resourcePath, []);
    if values.Err? {
      return Err(values.error);
    }
    if values.value == JNull {
      return Ok(JNull);
    }
    var elems := Elements(values.value);
    if elems.Err? {
      return Err(elems.error);
    }
    ghost var records := RecordResults(f, elems.value, resourcePath, nested, |elems.value|);
    var instances: seq<Json> := [];
    var i := 0;
    while i < |elems.value|
      invariant 0 <= i <= |elems.value|
      invariant AllOk(records, i) == Ok(instances)
    {
      var attrs := LoadRecord(f, elems.value[i], resourcePath, nested);
      RecordAt(f, elems.value, resourcePath, nested, |elems.value|, i);
      if attrs.Err? {
        AllOkStops(records, i + 1, |records|);
        return Err(attrs.error);
      }
      instances := instances + [JObj(attrs.value)];
      i := i + 1;
    }
    return Ok(JList(instances));
  }

  /** The inner loop of `CollectionField._load`: every subfield set on one record. */
  method LoadRecord(f: Field, value: Json, resourcePath: string, nested: seq<string>)
    returns (r: Result<seq<(string, Json)>, Failure>)
    requires f.Collection?
    ensures r == Record(f, value, resourcePath, nested)
    decreases f, 1
  {
    ghost var subs := SubfieldResults(f, value, resourcePath, nested, |f.subfields|);
    var subfields := f.subfields;
    var attrs: seq<(string, Json)> := [];
    var j := 0;
    while j < |subfields|
      invariant 0 <= j <= |subfields|
      invariant AllOk(subs, j) == Ok(attrs)
    {
      SubfieldStep(f, value, resourcePath, nested, j, attrs);
      var (name, sub) := subfields[j];
      var v := Load(sub, value, resourcePath, nested);
      if v.Err? {
        return Err(v.error);
      }
      attrs := attrs + [(name, v.value)];
      j := j + 1;
    }
    return Ok(attrs);
  }

  /** One more subfield either extends the record loaded so far or fails the
      whole record with its exception. */
  lemma SubfieldStep(f: Field, value: Json, resourcePath: string, nested: seq<string>, j: nat, attrs: seq<(string, Json)>)
    requires f.Collection? && j < |f.subfields|
    requires AllOk(SubfieldResults(f, value, resourcePath, nested, |f.subfields|), j) == Ok(attrs)
    ensures var v := FieldValue(f.subfields[j].1, value, resourcePath, nested);
      && (v.Err? ==> Record(f, value, resourcePath, nested) == Err(v.error))
      && (v.Ok? ==> AllOk(SubfieldResults(f, value, resourcePath, nested, |f.subfields|), j + 1)
                    == Ok(attrs + [(f.subfields[j].0, v.value)]))
  {
    var subs := SubfieldResults(f, value, resourcePath, nested, |f.subfields|);
    SubfieldAt(f, value, resourcePath, nested, |f.subfields|, j);
    if FieldValue(f.subfields[j].1, value, resourcePath, nested).Err? {
      AllOkStops(subs, j + 1, |subs|);
    }
  }

  // ---------------------------------------------------------------------------
  // What a field promises

  /** A missing leaf, also one under a missing parent (an absent intermediate key
      is an empty dict), raises `MissingAttributeError` naming `nested_in + path`
      joined by `/` when the field is required, and gives the default otherwise. */
  lemma MissingLeaf(f: Field, body: Json, resourcePath: string, nestedIn: seq<string>, n: nat, parent: seq<(string, Json)>)
    requires n < |f.path| && Walk(body, f.path[..n]) == Ok(JObj(parent))
    requires Lookup(parent, f.path[n]).None?
    ensures Leaf(f, body, resourcePath, nestedIn)
         == if f.required then Err(MissingError(nestedIn + f.path, resourcePath)) else Ok(f.default)
  {
    var init := f.path[..|f.path| - 1];
    if n < |f.path| - 1 {
      assert init[..n] == f.path[..n];
      WalkThroughMissing(body, init, n, parent);
      MissingAtParent(f, body, resourcePath, nestedIn, []);
    } else {
      assert f.path[..n] == init;
      MissingAtParent(f, body, resourcePath, nestedIn, parent);
    }
  }

  /** A path that passes through an absent key ends at an empty dict. */
  lemma WalkThroughMissing(body: Json, keys: seq<string>, n: nat, parent: seq<(string, Json)>)
    requires n < |keys| && Walk(body, keys[..n]) == Ok(JObj(parent))
    requires Lookup(parent, keys[n]).None?
    ensures Walk(body, keys) == Ok(JObj([]))
  {
    assert keys[..n + 1][..n] == keys[..n];
    WalkPrefix(body, keys, n + 1, JObj([]));
    WalkEmpty(keys[n + 1..]);
  }

  /** The leaf is absent from the dict the walk ends at. */
  lemma MissingAtParent(f: Field, body: Json, resourcePath: string, nestedIn: seq<string>, parent: seq<(string, Json)>)
    requires Walk(body, f.path[..|f.path| - 1]) == Ok(JObj(parent))
    requires Lookup(parent, f.path[|f.path| - 1]).None?
    ensures Leaf(f, body, resourcePath, nestedIn)
         == if f.required then Err(MissingError(nestedIn + f.path, resourcePath)) else Ok(f.default)
  {
  }

  /** A present value: returned unchanged without a converter, converted with
      one, and a converter failure becomes `MalformedAttributeError`. */
  lemma PresentLeaf(f: Field, body: Json, resourcePath: string, nestedIn: seq<string>, parent: seq<(string, Json)>, item: Json)
    requires Walk(body, f.path[..|f.path| - 1]) == Ok(JObj(parent))
    requires Lookup(parent, f.path[|f.path| - 1]) == Some(item)
    ensures f.converter.None? ==> Leaf(f, body, resourcePath, nestedIn) == Ok(item)
    ensures f.converter.Some? && f.converter.value(item).Ok? ==>
      Leaf(f, body, resourcePath, nestedIn) == Ok(f.converter.value(item).value)
    ensures f.converter.Some? && f.converter.value(item).Err? ==>
      Leaf(f, body, resourcePath, nestedIn)
        == Err(MalformedError(nestedIn + f.path, resourcePath, f.converter.value(item).error))
  {
  }

  /** A top-level field of a dict document: missing, present, or converted. */
  lemma TopLevelField(f: Field, members: seq<(string, Json)>, resourcePath: string)
    requires |f.path| == 1
    ensures Lookup(members, f.path[0]).None? ==>
      Leaf(f, JObj(members), resourcePath, [])
        == if f.required then Err(MissingError(f.path, resourcePath)) else Ok(f.default)
    ensures Lookup(members, f.path[0]).Some? && f.converter.None? ==>
      Leaf(f, JObj(members), resourcePath, []) == Ok(Lookup(members, f.path[0]).value)
  {
    assert f.path[..0] == [];
    assert [] + f.path == f.path;
  }

  /** The enumeration converter maps a raw string through the table, and an
      unmapped raw value becomes None. */
  lemma EnumerationValue(path: PathArg, mapping: seq<(string, Json)>, required: bool, default: Json,
                         body: Json, resourcePath: string, parent: seq<(string, Json)>, raw: string)
    requires NewEnumerationField(path, JObj(mapping), required, default).Ok?
    requires var f := NewEnumerationField(path, JObj(mapping), required, default).value;
      Walk(body, f.path[..|f.path| - 1]) == Ok(JObj(parent))
      && Lookup(parent, f.path[|f.path| - 1]) == Some(JStr(raw))
    ensures var f := NewEnumerationField(path, JObj(mapping), required, default).value;
      Leaf(f, body, resourcePath, []) == Ok(GetOr(mapping, raw, JNull))
    ensures Lookup(mapping, raw).None? ==>
      var f := NewEnumerationField(path, JObj(mapping), required, default).value;
      Leaf(f, body, resourcePath, []) == Ok(JNull)
  {
    var f := NewEnumerationField(path, JObj(mapping), required, default).value;
    assert f.converter.value(JStr(raw)) == MappingGet(mapping, JStr(raw));
  }

  /** An absent optional collection whose default is None loads as None; any
      other loaded collection has one record per element of its source list, in
      order, each made of its subfields loaded from that element with `nested_in`
      extended by the collection's path. */
  lemma CollectionShape(f: Field, body: Json, resourcePath: string, nestedIn: seq<string>, items: seq<Json>)
    requires f.Collection?
    ensures Leaf(f, body, resourcePath, []) == Ok(JNull) ==> FieldValue(f, body, resourcePath, nestedIn) == Ok(JNull)
    ensures Leaf(f, body, resourcePath, []) == Ok(JList(items)) && FieldValue(f, body, resourcePath, nestedIn).Ok? ==>
      var rs := FieldValue(f, body, resourcePath, nestedIn).value;
      && rs.JList? && |rs.items| == |items|
      && forall i :: 0 <= i < |items| ==>
           Record(f, items[i], resourcePath, nestedIn + f.path).Ok?
           && rs.items[i] == JObj(Record(f, items[i], resourcePath, nestedIn + f.path).value)
    ensures Leaf(f, body, resourcePath, []) == Ok(JList(items)) ==>
      (FieldValue(f, body, resourcePath, nestedIn).Ok? <==>
         forall i :: 0 <= i < |items| ==> Record(f, items[i], resourcePath, nestedIn + f.path).Ok?)
  {
    var nested := nestedIn + f.path;
    var records := RecordResults(f, items, resourcePath, nested, |items|);
    forall i | 0 <= i < |items|
      ensures records[i] == AsRecord(Record(f, items[i], resourcePath, nested))
    {
      RecordAt(f, items, resourcePath, nested, |items|, i);
    }
    AllOkFailure(records, |items|);
    if AllOk(records, |items|).Ok? {
      AllOkValues(records, |items|);
    }
  }
}
