/** Parsed JSON documents as the client sees them: Python `None`, `bool`,
    `int`, `str`, `list` and `dict`. A `dict` keeps its keys in insertion
    order, as Python's does, so it is a sequence of (key, value) pairs. */
module Json {
  import opened Wrappers
  import opened Text

  datatype Json =
    | JNull
    | JBool(b: bool)
    | JInt(i: int)
    | JStr(s: string)
    | JList(items: seq<Json>)
    | JObj(members: seq<(string, Json)>)

  /** `d[key]` of a dict: the value stored under `key`, or None when it is absent. */
  function Lookup(members: seq<(string, Json)>, key: string): (r: Option<Json>)
    ensures r.None? <==> forall k :: 0 <= k < |members| ==> members[k].0 != key
    ensures r.Some? ==> exists k :: 0 <= k < |members| && members[k] == (key, r.value)
    decreases |members|
  {
    if members == [] then None
    else if members[0].0 == key then Some(members[0].1)
    else
      var r := Lookup(members[1..], key);
      assert forall k :: 1 <= k < |members| ==> members[k] == members[1..][k - 1];
      r
  }

  /** `d.get(key, default)`. */
  function GetOr(members: seq<(string, Json)>, key: string, default: Json): Json
  {
    match Lookup(members, key)
    case Some(v) => v
    case None => default
  }

  /** Python truthiness: `not value` holds exactly for the falsy values. */
  predicate Truthy(j: Json)
  {
    match j
    case JNull => false
    case JBool(b) => b
    case JInt(i) => i != 0
    case JStr(s) => s != []
    case JList(items) => items != []
    case JObj(members) => members != []
  }

  /** `type(value).__name__`. */
  function TypeName(j: Json): string
  {
    match j
    case JNull => "NoneType"
    case JBool(_) => "bool"
    case JInt(_) => "int"
    case JStr(_) => "str"
    case JList(_) => "list"
    case JObj(_) => "dict"
  }

  /** `str(value)`, as `%s` renders it. */
  function Str(j: Json): string
  {
    if j.JStr? then j.s else Repr(j)
  }

  /** `repr(value)`. */
  function Repr(j: Json): string
    decreases j, 1, 0
  {
    match j
    case JNull => "None"
    case JBool(b) => if b then "True" else "False"
    case JInt(i) => IntToString(i)
    case JStr(s) => QuoteString(s)
    case JList(items) => "[" + Join(", ", ReprItems(j, |items|)) + "]"
    case JObj(members) => "{" + Join(", ", ReprMembers(j, |members|)) + "}"
  }

  /** The quoting `repr` gives a string; escapes are not reproduced. */
  function QuoteString(s: string): string
  {
    if '\'' in s && '"' !in s then "\"" + s + "\"" else "'" + s + "'"
  }

  function ReprItems(j: Json, n: nat): (r: seq<string>)
    requires j.JList? && n <= |j.items|
    ensures |r| == n
    decreases j, 0, n
  {
    if n == 0 then [] else ReprItems(j, n - 1) + [Repr(j.items[n - 1])]
  }

  function ReprMembers(j: Json, n: nat): (r: seq<string>)
    requires j.JObj? && n <= |j.members|
    ensures |r| == n
    decreases j, 0, n
  {
    if n == 0 then []
    else ReprMembers(j, n - 1) + [QuoteString(j.members[n - 1].0) + ": " + Repr(j.members[n - 1].1)]
  }
}
