/** The client's error classes, their message templates, the HTTP error
    object and the classification of HTTP status codes. A raised exception is
    a value: its constructor only assigns attributes once. Built-in Python
    exceptions that escape the client unhandled (`AttributeError`,
    `TypeError`, ...) are carried as `Builtin` failures. */
module Exceptions {
  import opened Wrappers
  import opened Text
  import opened Json

  /** The class hierarchy below `SoftboxenError`. */
  datatype ErrorClass =
    | SoftboxenError
    | InvalidInputError
    | NetworkError
    | MissingAttributeError
    | MalformedAttributeError
    | InvalidParameterValueError
    | ExtensionNotFoundError
    | HTTPError
    | BadRequestError
    | ResourceNotFoundError
    | ServerSideError
    | AccessError

  function Depth(c: ErrorClass): nat
  {
    match c
    case SoftboxenError => 0
    case BadRequestError => 2
    case ResourceNotFoundError => 2
    case ServerSideError => 2
    case AccessError => 2
    case _ => 1
  }

  /** The direct base class, within the hierarchy. */
  function Parent(c: ErrorClass): (p: Option<ErrorClass>)
    ensures p.None? <==> c == SoftboxenError
    ensures p.Some? ==> Depth(p.value) < Depth(c)
  {
    match c
    case SoftboxenError => None
    case BadRequestError => Some(HTTPError)
    case ResourceNotFoundError => Some(HTTPError)
    case ServerSideError => Some(HTTPError)
    case AccessError => Some(HTTPError)
    case _ => Some(SoftboxenError)
  }

  /** `issubclass(c, d)`. */
  predicate IsA(c: ErrorClass, d: ErrorClass)
    decreases Depth(c)
  {
    c == d || (Parent(c).Some? && IsA(Parent(c).value, d))
  }

  /** Literal template text: a percent sign would start a conversion. */
  type PlainText = s: string | '%' !in s

  /** A conversion key of a template: free of parentheses, so that `%` reads it
      up to the next closing parenthesis. */
  type Key = k: string | ')' !in k && '(' !in k

  /** A message template as it is written: literal text and `%(key)s`
      conversions, in order. */
  datatype Pattern =
    | End
    | Literal(s: PlainText, next: Pattern)
    | Conversion(key: Key, next: Pattern)

  /** The template string the pattern spells. */
  function Render(p: Pattern): string
  {
    match p
    case End => ""
    case Literal(s, next) => s + Render(next)
    case Conversion(key, next) => "%(" + key + ")s" + Render(next)
  }

  /** Every key the pattern names is one of the arguments. */
  predicate HasKeys(p: Pattern, kwargs: map<string, string>)
  {
    match p
    case End => true
    case Literal(_, next) => HasKeys(next, kwargs)
    case Conversion(key, next) => key in kwargs && HasKeys(next, kwargs)
  }

  function Prefixed(p: string, r: Result<string, Failure>): Result<string, Failure>
  {
    match r
    case Ok(s) => Ok(p + s)
    case Err(e) => Err(e)
  }

  /** `template % kwargs` for a well-formed template: each conversion is replaced
      by its argument, and the first key that is missing is a `KeyError`. */
  function Interpolate(p: Pattern, kwargs: map<string, string>): (r: Result<string, Failure>)
    ensures r.Ok? <==> HasKeys(p, kwargs)
    ensures r.Err? ==> r.error.Builtin? && FaultClass(r.error.fault) == KeyError
  {
    match p
    case End => Ok("")
    case Literal(s, next) => Prefixed(s, Interpolate(next, kwargs))
    case Conversion(key, next) =>
      if key !in kwargs then Err(Builtin(MissingKey(key)))
      else Prefixed(kwargs[key], Interpolate(next, kwargs))
  }

  /** Interpolation proceeds one piece at a time. */
  lemma LiteralStep(s: PlainText, next: Pattern, kwargs: map<string, string>, rest: string)
    requires Interpolate(next, kwargs) == Ok(rest)
    ensures Interpolate(Literal(s, next), kwargs) == Ok(s + rest)
  {
  }

  lemma ConversionStep(key: Key, next: Pattern, kwargs: map<string, string>, rest: string)
    requires key in kwargs && Interpolate(next, kwargs) == Ok(rest)
    ensures Interpolate(Conversion(key, next), kwargs) == Ok(kwargs[key] + rest)
  {
  }

  // The class attribute `message` of each class that sets one. Long literal
  // text is kept in short pieces; the rendered template is the same.
  const InvalidInputTemplate: Pattern := Literal("Invalid input: ", Conversion("error", End))
  const NetworkTemplate: Pattern :=
    Literal("Unable to ", Literal("connect to ", Conversion("url", Literal(". Error: ", Conversion("error", End)))))
  const MissingAttributeTemplate: Pattern :=
    Literal("The attribute ", Conversion("attribute",
    Literal(" is missing ", Literal("from the ", Literal("resource ", Conversion("resource", End))))))
  const MalformedAttributeTemplate: Pattern :=
    Literal("The attribute ", Conversion("attribute",
    Literal(" is malformed ", Literal("in the ", Literal("resource ", Conversion("resource",
    Literal(": ", Conversion("error", End))))))))
  const InvalidParameterValueTemplate: Pattern :=
    Literal("The parameter \"", Conversion("parameter",
    Literal("\" value \"", Conversion("value",
    Literal("\" is invalid. ", Literal("Valid values ", Literal("are: ", Conversion("valid_values", End))))))))
  const ExtensionNotFoundTemplate: Pattern :=
    Literal("Cannot find ", Literal("CLI extension ", Literal("for ", Conversion("vendor",
    Literal(", ", Conversion("model", Literal(", ", Conversion("version", End))))))))
  const HttpTemplate: Pattern :=
    Literal("HTTP ", Conversion("method", Literal(" ", Conversion("url",
    Literal(" returned code ", Conversion("code", Literal(". ", Conversion("error", End))))))))
  const ResourceNotFoundTemplate: Pattern :=
    Literal("Resource ", Conversion("url", Literal(" not found", End)))

  /** The class attribute `message` as a pattern, found along the base classes as
      Python finds it. */
  function MessagePattern(c: ErrorClass): Option<Pattern>
    decreases Depth(c)
  {
    match c
    case SoftboxenError => None
    case InvalidInputError => Some(InvalidInputTemplate)
    case NetworkError => Some(NetworkTemplate)
    case MissingAttributeError => Some(MissingAttributeTemplate)
    case MalformedAttributeError => Some(MalformedAttributeTemplate)
    case InvalidParameterValueError => Some(InvalidParameterValueTemplate)
    case ExtensionNotFoundError => Some(ExtensionNotFoundTemplate)
    case HTTPError => Some(HttpTemplate)
    case ResourceNotFoundError => Some(ResourceNotFoundTemplate)
    case _ => MessagePattern(Parent(c).value)
  }

  function RenderOption(template: Option<Pattern>): Option<string>
  {
    match template
    case None => None
    case Some(p) => Some(Render(p))
  }

  /** The class attribute `message` as a string: None for `SoftboxenError` itself. */
  function Template(c: ErrorClass): Option<string>
  {
    RenderOption(MessagePattern(c))
  }

  /** A raised exception. `kwargs` are the keyword arguments rendered by `str()`;
      `statusCode` and `body` are set for the HTTP errors only. The `message`
      attribute of a raised error is `Message(cls, kwargs)`. */
  datatype Failure =
    | Raised(cls: ErrorClass, kwargs: map<string, string>, statusCode: Option<int>, body: Option<Json>)
    | Builtin(fault: Fault)

  /** The built-in exception classes the client lets escape. */
  datatype BuiltinClass = AttributeError | TypeError | KeyError | ValueError

  /** What went wrong inside Python itself; `FaultClass` and `FaultText` give the
      class and the text of the exception. */
  datatype Fault =
    | NoAttribute(value: Json, attr: string)
    | ListSubscript
    | StringSubscript
    | NotSubscriptable(value: Json)
    | NotIterable(value: Json)
    | MissingKey(key: string)
    | IncompleteFormat
    | UnsupportedFormat
    | IncompleteFormatKey

  function FaultClass(f: Fault): BuiltinClass
  {
    match f
    case NoAttribute(_, _) => AttributeError
    case MissingKey(_) => KeyError
    case IncompleteFormat => ValueError
    case UnsupportedFormat => ValueError
    case IncompleteFormatKey => ValueError
    case _ => TypeError
  }

  /** `str(exc)` of the built-in exception. */
  function FaultText(f: Fault): string
  {
    match f
    case NoAttribute(j, attr) => "'" + TypeName(j) + "' object has no attribute '" + attr + "'"
    case ListSubscript => "list indices must be integers or slices, not str"
    case StringSubscript => "string indices must be integers"
    case NotSubscriptable(j) => "'" + TypeName(j) + "' object is not subscriptable"
    case NotIterable(j) => "'" + TypeName(j) + "' object is not iterable"
    case MissingKey(key) => QuoteString(key)
    case IncompleteFormat => "incomplete format"
    case UnsupportedFormat => "unsupported format character"
    case IncompleteFormatKey => "incomplete format key"
  }

  /** `getattr(value, attr)` on a value that lacks it. */
  function AttributeFault(j: Json, attr: string): Failure
  {
    Builtin(NoAttribute(j, attr))
  }

  /** `value[key]` with a string key on a value that is not a dict. */
  function SubscriptFault(j: Json): Failure
  {
    match j
    case JList(_) => Builtin(ListSubscript)
    case JStr(_) => Builtin(StringSubscript)
    case _ => Builtin(NotSubscriptable(j))
  }

  /** `for x in value` on a value that cannot be iterated. */
  function NotIterableFault(j: Json): Failure
  {
    Builtin(NotIterable(j))
  }

  // ---------------------------------------------------------------------------
  // `template % kwargs` with a mapping on the right

  /** Where the key that starts at `from` ends: `%` counts parentheses, so a
      nested pair belongs to the key and the key ends at the `)` that closes the
      opening one; `depth` parentheses are still open. */
  function KeyClose(t: string, from: nat, depth: nat): (r: Option<nat>)
    requires depth >= 1
    ensures r.Some? ==> from <= r.value < |t| && t[r.value] == ')'
    decreases |t| - from
  {
    if from >= |t| then None
    else if t[from] == ')' then (if depth == 1 then Some(from) else KeyClose(t, from + 1, depth - 1))
    else if t[from] == '(' then KeyClose(t, from + 1, depth + 1)
    else KeyClose(t, from + 1, depth)
  }

  /** A key without parentheses ends at the first `)`. */
  lemma {:induction false} KeyCloseFlat(t: string, from: nat, n: nat)
    requires from + n < |t| && t[from + n] == ')'
    requires forall k :: from <= k < from + n ==> t[k] != ')' && t[k] != '('
    ensures KeyClose(t, from, 1) == Some(from + n)
    decreases n
  {
    if n > 0 {
      KeyCloseFlat(t, from + 1, n - 1);
    }
  }

  /** Python's `%` formatting of `t` with a mapping of strings, for the two
      conversions templates use: `%%` is a percent sign and `%(key)s` is
      `kwargs[key]`. A missing key is a `KeyError`, a key whose parentheses do not
      balance is a `ValueError`, and any other conversion (`%s`, `%(key)d`, ...)
      is reported as unsupported. */
  function Format(t: string, kwargs: map<string, string>): Result<string, Failure>
    decreases |t|
  {
    if t == [] then Ok("")
    else if t[0] != '%' then Prefixed([t[0]], Format(t[1..], kwargs))
    else if |t| == 1 then Err(Builtin(IncompleteFormat))
    else if t[1] == '%' then Prefixed("%", Format(t[2..], kwargs))
    else if t[1] != '(' then Err(Builtin(UnsupportedFormat))
    else
      match KeyClose(t, 2, 1)
      case None => Err(Builtin(IncompleteFormatKey))
      case Some(close) =>
        var key := t[2..close];
        if key !in kwargs then Err(Builtin(MissingKey(key)))
        else if close + 1 == |t| then Err(Builtin(IncompleteFormat))
        else if t[close + 1] != 's' then Err(Builtin(UnsupportedFormat))
        else Prefixed(kwargs[key], Format(t[close + 2..], kwargs))
  }

  /** Text without a percent sign formats to itself. */
  lemma {:induction false} FormatPlain(t: string, kwargs: map<string, string>)
    requires '%' !in t
    ensures Format(t, kwargs) == Ok(t)
    decreases |t|
  {
    if t != [] {
      FormatPlain(t[1..], kwargs);
      assert [t[0]] + t[1..] == t;
    }
  }

  lemma {:induction false} FormatText(lit: string, rest: string, kwargs: map<string, string>)
    requires '%' !in lit
    ensures Format(lit + rest, kwargs) == Prefixed(lit, Format(rest, kwargs))
    decreases |lit|
  {
    if lit != [] {
      var t := lit + rest;
      assert t != [] && t[0] == lit[0] && lit[0] in lit;
      assert t[1..] == lit[1..] + rest;
      assert forall ch :: ch in lit[1..] ==> ch in lit;
      assert Format(t, kwargs) == Prefixed([lit[0]], Format(lit[1..] + rest, kwargs));
      FormatText(lit[1..], rest, kwargs);
      assert [lit[0]] + lit[1..] == lit;
      match Format(rest, kwargs)
      case Ok(s) => assert [lit[0]] + (lit[1..] + s) == lit + s;
      case Err(_) =>
    } else {
      assert lit + rest == rest;
      match Format(rest, kwargs)
      case Ok(s) => assert lit + s == s;
      case Err(_) =>
    }
  }

  lemma FormatKey(key: string, rest: string, kwargs: map<string, string>)
    requires ')' !in key && '(' !in key
    ensures Format("%(" + key + ")s" + rest, kwargs)
         == if key in kwargs then Prefixed(kwargs[key], Format(rest, kwargs))
            else Err(Builtin(MissingKey(key)))
  {
    var t := "%(" + key + ")s" + rest;
    var close := 2 + |key|;
    assert t[close] == ')';
    assert forall k :: 2 <= k < close ==> t[k] == key[k - 2];
    KeyCloseFlat(t, 2, |key|);
    assert t[2..close] == key;
    assert t[close + 2..] == rest;
  }

  /** Python's `%` on the rendered template agrees with `Interpolate`. */
  lemma {:induction false} FormatRender(p: Pattern, kwargs: map<string, string>)
    ensures Format(Render(p), kwargs) == Interpolate(p, kwargs)
  {
    match p
    case End =>
    case Literal(s, next) =>
      FormatRender(next, kwargs);
      FormatText(s, Render(next), kwargs);
    case Conversion(key, next) =>
      FormatRender(next, kwargs);
      FormatKey(key, Render(next), kwargs);
  }

  /** Parentheses in a key must balance: `"%(a(b)s" % {"a(b": "x"}` raises
      `ValueError: incomplete format key`. */
  lemma FormatUnbalancedKey()
    ensures Format("%(a(b)s", map["a(b" := "x"]) == Err(Builtin(IncompleteFormatKey))
  {
    var t := "%(a(b)s";
    assert t[2] == 'a' && t[3] == '(' && t[4] == 'b' && t[5] == ')' && t[6] == 's' && |t| == 7;
    assert KeyClose(t, 6, 2) == None;
    assert KeyClose(t, 2, 1) == None;
  }

  /** `SoftboxenError.__init__` as written: `if self.message and kwargs:
      self.message = self.message % kwargs`. */
  function FormatMessage(template: Option<string>, kwargs: map<string, string>): Result<Option<string>, Failure>
  {
    if template.Some? && template.value != "" && kwargs != map[] then
      match Format(template.value, kwargs)
      case Ok(m) => Ok(Some(m))
      case Err(e) => Err(e)
    else Ok(template)
  }

  /** `SoftboxenError.__init__` on the class template: filled from the keyword
      arguments only when both are non-empty; otherwise left as it is. */
  function InitMessage(template: Option<Pattern>, kwargs: map<string, string>): (r: Result<Option<string>, Failure>)
    ensures (template.None? || Render(template.value) == "" || kwargs == map[]) ==> r == Ok(RenderOption(template))
    ensures r.Ok? ==> (r.value.None? <==> template.None?)
    ensures template.Some? && Render(template.value) != "" && kwargs != map[] ==>
      (r.Ok? <==> HasKeys(template.value, kwargs))
  {
    if template.Some? && Render(template.value) != "" && kwargs != map[] then
      match Interpolate(template.value, kwargs)
      case Ok(m) => Ok(Some(m))
      case Err(e) => Err(e)
    else Ok(RenderOption(template))
  }

  /** Filling in the pattern is exactly Python's `%` on the template string. */
  lemma InitMessageIsFormatting(template: Option<Pattern>, kwargs: map<string, string>)
    ensures InitMessage(template, kwargs) == FormatMessage(RenderOption(template), kwargs)
  {
    if template.Some? {
      FormatRender(template.value, kwargs);
    }
  }

  /** A template without a percent sign is the message whatever the arguments. */
  lemma FormatMessagePlain(t: string, kwargs: map<string, string>)
    requires '%' !in t
    ensures FormatMessage(Some(t), kwargs) == Ok(Some(t))
  {
    FormatPlain(t, kwargs);
  }

  /** The `message` attribute `__init__` leaves on an instance of `cls` built
      from `kwargs`, when building it does not fail. */
  function Message(cls: ErrorClass, kwargs: map<string, string>): Option<string>
  {
    match InitMessage(MessagePattern(cls), kwargs)
    case Ok(m) => m
    case Err(_) => None
  }

  /** The keyword arguments of a call, written out in order: a later argument
      of the same name replaces an earlier one. */
  function Kwargs(args: seq<(string, string)>): map<string, string>
  {
    if args == [] then map[]
    else Kwargs(args[..|args| - 1])[args[|args| - 1].0 := args[|args| - 1].1]
  }

  lemma KwargsAppend(args: seq<(string, string)>, name: string, value: string)
    ensures Kwargs(args + [(name, value)]) == Kwargs(args)[name := value]
  {
    assert (args + [(name, value)])[..|args|] == args;
  }

  /** `str(exc)`. */
  function Describe(f: Failure): string
  {
    match f
    case Raised(cls, kwargs, _, _) =>
      (match Message(cls, kwargs)
       case Some(m) => m
       case None => "None")
    case Builtin(fault) => FaultText(fault)
  }

  /** `raise cls(**kwargs)` for a class whose constructor takes keyword arguments:
      filling in the template may itself raise. */
  function Raise(cls: ErrorClass, kwargs: map<string, string>): Failure
    requires !IsA(cls, HTTPError)
  {
    match InitMessage(MessagePattern(cls), kwargs)
    case Ok(_) => Raised(cls, kwargs, None, None)
    case Err(e) => e
  }

  /** A template that starts with literal text, filled in without a missing key,
      is the message. */
  lemma TemplateFilled(c: ErrorClass, kwargs: map<string, string>, m: string)
    requires MessagePattern(c).Some? && MessagePattern(c).value.Literal? && MessagePattern(c).value.s != ""
    requires kwargs != map[] && Interpolate(MessagePattern(c).value, kwargs) == Ok(m)
    ensures InitMessage(MessagePattern(c), kwargs) == Ok(Some(m))
    ensures Message(c, kwargs) == Some(m)
    ensures !IsA(c, HTTPError) ==> Raise(c, kwargs) == Raised(c, kwargs, None, None)
  {
    var p := MessagePattern(c).value;
    assert Render(p) == p.s + Render(p.next);
  }

  // ---------------------------------------------------------------------------
  // HTTP errors

  /** What the client sees of an HTTP response: its status code and its parsed
      JSON body, None when `response.json()` raises `ValueError` (no JSON body). */
  datatype Response = Response(statusCode: int, json: Option<Json>)

  function HttpKwargs(verb: string, url: string, code: int, error: string): map<string, string>
  {
    map["method" := verb, "url" := url, "code" := IntToString(code), "error" := error]
  }

  /** The `error` keyword argument: the body's `error` entry, 'unknown error'
      when there is no such entry or no JSON body at all. */
  function ErrorText(json: Option<Json>): string
    requires json.Some? ==> json.value.JObj?
  {
    if json.None? then "unknown error" else Str(GetOr(json.value.members, "error", JStr("unknown error")))
  }

  /** `HTTPError.__init__(method, url, response)` for `cls` or one of its subclasses. */
  function NewHttpError(cls: ErrorClass, verb: string, url: string, response: Response): Failure
    requires IsA(cls, HTTPError)
  {
    var code := response.statusCode;
    if response.json.Some? && !response.json.value.JObj? then
      AttributeFault(response.json.value, "get")
    else
      var body := if response.json.None? then None else Some(GetOr(response.json.value.members, "error", JObj([])));
      var kwargs := HttpKwargs(verb, url, code, ErrorText(response.json));
      match InitMessage(MessagePattern(cls), kwargs)
      case Ok(_) => Raised(cls, kwargs, Some(code), body)
      case Err(e) => e
  }

  /** The status-code rules of `handle_error_response`: below 400 is no error,
      and each code of 400 or above selects exactly one class. */
  function Classify(code: int): (r: Option<ErrorClass>)
    ensures r.None? <==> code < 400
    ensures r == Some(ResourceNotFoundError) <==> code == 404
    ensures r == Some(BadRequestError) <==> code == 400
    ensures r == Some(AccessError) <==> code == 401 || code == 403
    ensures r == Some(ServerSideError) <==> code >= 500
    ensures r == Some(HTTPError) <==> 400 <= code < 500 && code !in {400, 401, 403, 404}
    ensures r.Some? ==> IsA(r.value, HTTPError) && IsA(r.value, SoftboxenError)
  {
    if code < 400 then None
    else if code == 404 then Some(ResourceNotFoundError)
    else if code == 400 then Some(BadRequestError)
    else if code == 401 || code == 403 then Some(AccessError)
    else if code >= 500 then Some(ServerSideError)
    else Some(HTTPError)
  }

  /** `handle_error_response(method, url, response)`: None when nothing is raised. */
  function HandleErrorResponse(verb: string, url: string, response: Response): Option<Failure>
  {
    match Classify(response.statusCode)
    case None => None
    case Some(cls) => Some(NewHttpError(cls, verb, url, response))
  }
}
