# softboxen client core in Dafny

This project models the core of the softboxen REST client. Four parts are covered:

- The JSON resource layer: fields that load values out of a fetched JSON
  document; collection and enumeration fields; member identities taken from
  `_links.self`; sub-resource paths; resources and resource collections.
- The exception classes: their `%(key)s` message templates and the mapping
  from HTTP status codes to exception classes.
- The CLI extension factory: `load_clis` and `get_box`.
- The `Box` resource: its field table, its three sub-collection paths and the
  collection of boxes.

A JSON value is the datatype `Json.Json`. Its dicts are ordered association
lists, because Python dicts keep insertion order and `str()` of a dict shows
that order. A raised exception is the value `Exceptions.Failure`. Every
operation is total: it returns either its result or the `Failure` that the
Python code raises. That includes the built-in `AttributeError`, `TypeError`
and `KeyError` that escape from `.get` on a non-dict, from subscripting or
from iterating.

Modules, following the source files:

- `Wrappers`, `Seqs`, `Text`, `Json`: Option/Result, order-preserving
  filtering and subsequences, Python's `int()`/`str()`/`rstrip`/`join` on
  strings, and JSON values with Python's truthiness and `str()`/`repr()`.
- `Exceptions`, `ErrorMessages` (softboxen/exceptions.py):
  - the class hierarchy;
  - message templates as patterns, with Python's `%` formatting;
  - `SoftboxenError.__init__`, `HTTPError.__init__` and `handle_error_response`;
  - the text of every message the core raises.
- `Fields` (softboxen/client/resources/base.py, lines 16-144):
  - `Field`, `CollectionField`, `EnumerationField`;
  - the walk loop, then `Field._load` and `CollectionField._load` as methods
    with loops, each proved equal to a specification function.
- `Resources` (base.py, lines 147-323):
  - `get_member_identity`, `get_members_identities` and `get_sub_resource_path_by`;
  - the `Resource` class (fields `path`, `fields`, `json`, `attributes`), with
    `_parse_attributes`, `load` and `get_sub_resource_path_by` as methods;
  - `ResourceCollection` and its iteration.
- `Boxes` (softboxen/client/resources/box/box.py): the `Box` table, the
  `credentials`, `routes` and `ports` paths, and `BoxCollection`.
- `Factory` (softboxen/cli/factory.py): the entry-point dict, `load_clis` and
  `get_box`.

The I/O is modelled as inputs:

- the body returned by `connection.get(path)` is a parameter `content`;
- fetching a member of a collection is a function parameter
  `fetch: string -> Result<Option<Json>, Failure>`;
- `pkg_resources.iter_entry_points(namespace)` is the input sequence
  `entryPoints`, each item with the class it loads;
- `_collect_fields`, which scans `dir()` of a class, is an explicit field
  table listed in `dir()` order, which is alphabetical.

## Model

| member | source | states |
|---|---|---|
| Exceptions.Parent | softboxen/exceptions.py:15-104 | every class except `SoftboxenError` has a direct base closer to the root; `SoftboxenError` has none |
| Exceptions.Interpolate | softboxen/exceptions.py:20-22 | filling a template succeeds exactly when every `%(key)s` it names is among the keyword arguments; otherwise it raises a `KeyError` |
| Exceptions.FormatRender | softboxen/exceptions.py:22 | Python's `%` applied to the template string gives the same result as filling the pattern in; template keys hold no parentheses, as all of the client's do |
| Exceptions.FormatUnbalancedKey | softboxen/exceptions.py:22 | `%` counts parentheses in a key: `"%(a(b)s"` raises `ValueError` "incomplete format key" |
| Exceptions.FormatMessagePlain | softboxen/exceptions.py:20-22 | a template without a percent sign is the message, whatever the arguments |
| Exceptions.InitMessage | softboxen/exceptions.py:20-24 | no template, an empty template or no keyword arguments leaves the class template as the message; with both, the template is filled |
| Exceptions.InitMessageIsFormatting | softboxen/exceptions.py:20-24 | the pattern-level message equals `message % kwargs` as `__init__` writes it |
| Exceptions.TemplateFilled | softboxen/exceptions.py:20-24 | a class whose template fills without a missing key is raised with that text as its message |
| Exceptions.Classify | softboxen/exceptions.py:107-126 | below 400 nothing; 404 is `ResourceNotFoundError`; 400 `BadRequestError`; 401 and 403 `AccessError`; 500 and above `ServerSideError`; any other code `HTTPError`; each is an `HTTPError` subclass (both directions) |
| ErrorMessages.InvalidInputMessage | softboxen/exceptions.py:27-28 | `InvalidInputError(error=e)` reads "Invalid input: " followed by e |
| ErrorMessages.MissingAttributeMessage | softboxen/exceptions.py:35-37 | `MissingAttributeError(attribute, resource)` has that text, with both values filled in |
| ErrorMessages.MalformedAttributeMessage | softboxen/exceptions.py:40-42 | `MalformedAttributeError(attribute, resource, error)` has that text, with the three values filled in |
| ErrorMessages.ExtensionNotFoundMessage | softboxen/exceptions.py:50-52 | `ExtensionNotFoundError(vendor, model, version)` reads "Cannot find CLI extension for v, m, ver" |
| ErrorMessages.HttpMessage | softboxen/exceptions.py:64 | an `HTTPError`, `BadRequestError`, `ServerSideError` or `AccessError` reads "HTTP method url returned code c. error" |
| ErrorMessages.NotFoundMessage | softboxen/exceptions.py:95-96 | a `ResourceNotFoundError` reads "Resource url not found" |
| ErrorMessages.ExtensionKwargs | softboxen/cli/factory.py:70-71 | the three keyword arguments of the raise are recorded under their own names; this is the `Kwargs` fact that `ErrorMessages.ExtensionNotFoundMessage` uses, stated once for this raise |
| ErrorMessages.HttpErrorMessage | softboxen/exceptions.py:55-104 | each HTTP error class fills in its template: "Resource url not found" for `ResourceNotFoundError`, "HTTP method url returned code c. error" for the others |
| ErrorMessages.HandleErrorResponseRaises | softboxen/exceptions.py:66-126 | nothing is raised exactly below 400. Otherwise an instance of the classified class is raised. It records the status code. Its `body` is the JSON body's `error` entry, or `{}`, or None when there is no JSON body, in which case the error text is 'unknown error'. It carries the message text. A JSON body that is not a dict makes `.get` fail |
| Text.RStrip | softboxen/client/resources/base.py:256 | `rstrip('/')` gives a prefix that ends in no `/`, and everything removed is `/` |
| Text.ParseIntOfIntToString | tests/unit/client/resources/test_base.py:116 | `int(str(i)) == i` for every integer |
| Json.Lookup | softboxen/client/resources/base.py:58 | `body[name]` is absent exactly when no key matches; a found value is stored under the key |
| Fields.NewField | softboxen/client/resources/base.py:29-40 | a non-list path becomes a one-element list; an empty list raises `InvalidInputError` 'Path cannot be empty'; the settings are stored |
| Fields.NewCollectionField | softboxen/client/resources/base.py:98-100 | as `Field`, with the subfields of the subclass's table |
| Fields.NewEnumerationField | softboxen/client/resources/base.py:136-144 | a mapping that is not a dict raises `InvalidInputError`; otherwise the field's converter is `mapping.get` |
| Fields.MappingGet | softboxen/client/resources/base.py:144 | `mapping.get(value)`: a string is looked up, with None when absent; a list or dict is unhashable; other scalars give None |
| Fields.IntConverter | tests/unit/client/resources/test_base.py:116 | `int(value)`: an integer is itself; a string converts exactly when it is a decimal literal: ASCII white space (tab, line feed, vertical tab, form feed, carriage return, space) or Unicode white space above ASCII around it, an optional sign, and digits that single underscores may separate. Every success is an integer. A rejected string raises `ValueError` with `int`'s "invalid literal" text and the string's repr cut after 200 characters. Any other type raises `TypeError` with the Python 3.7 wording |
| Text.ParseIntGrouped | tests/unit/client/resources/test_base.py:116 | `int("1_000")` is 1000: underscores between digit groups are dropped |
| Text.ParseIntDoubleUnderscore | tests/unit/client/resources/test_base.py:116 | `int("1__0")` raises: two adjacent underscores are not a literal |
| Fields.IntConverterOfString | tests/unit/client/resources/test_base.py:116 | the converter reads back every rendered integer |
| Fields.IntegerExampleAccepts | tests/unit/client/resources/test_base.py:160-162 | the string '42' under `Integer` loads as 42 |
| Fields.IntegerExampleMalformed | tests/unit/client/resources/test_base.py:173-178 | any string under `Integer` that is not a decimal literal raises `MalformedAttributeError` for `Integer`, carrying `int`'s "invalid literal" message with the string's repr, cut after 200 characters |
| Text.ParseIntSeparatorRejected | tests/unit/client/resources/test_base.py:116 | `int("\x1c5")` raises: the ASCII separator characters are not white space to `int` |
| Fields.LiteralError | tests/unit/client/resources/test_base.py:116 | the `ValueError` text is the "invalid literal" prefix followed by the string's repr, whole when it has at most 200 characters and cut after 200 otherwise |
| Fields.IntegerExampleRejects | tests/unit/client/resources/test_base.py:173-178 | the string 'banana' under `Integer` raises `MalformedAttributeError` for `Integer`, carrying `int`'s "invalid literal" message |
| Fields.Walk | softboxen/client/resources/base.py:54-55 | the only exception the walk raises is `AttributeError` |
| Fields.WalkEmpty | softboxen/client/resources/base.py:55 | once an absent key has given `{}`, the rest of the walk stays at `{}` |
| Fields.WalkPrefix | softboxen/client/resources/base.py:54-55 | walking a path walks its prefix, then the rest from where the prefix ended |
| Fields.WalkFailure | softboxen/client/resources/base.py:54-55 | a step that fails fails the whole walk with the same exception |
| Fields.WalkThroughMissing | softboxen/client/resources/base.py:54-55 | a path through an absent key ends at an empty dict |
| Fields.WalkKeys | softboxen/client/resources/base.py:54-55 | the loop computes the walk |
| Fields.Elements | softboxen/client/resources/base.py:116 | `for value in values`: a list gives its items, a string its one-character strings in order, a dict its keys in order; anything else raises `TypeError` |
| Fields.LoadLeaf | softboxen/client/resources/base.py:42-80 | the method equals the specification of `Field._load` |
| Fields.MissingLeaf | softboxen/client/resources/base.py:53-67 | an absent leaf, also one under an absent parent, raises `MissingAttributeError` naming `nested_in + path` when required, and gives the default otherwise |
| Fields.MissingAtParent | softboxen/client/resources/base.py:57-67 | the same, for a leaf absent from the dict the walk ends at |
| Fields.PresentLeaf | softboxen/client/resources/base.py:69-80 | a present value is returned unchanged without a converter. With a converter it is converted. A converter that raises becomes `MalformedAttributeError` with the converter's message |
| Fields.TopLevelField | softboxen/client/resources/base.py:53-70 | a top-level key of a dict: missing gives the error or the default; present gives its value |
| Fields.EnumerationValue | softboxen/client/resources/base.py:136-144 | an enumeration field maps the raw string through the table; an unmapped raw value loads as None |
| Fields.RecordContents | softboxen/client/resources/base.py:115-124 | a record loads exactly when each subfield loads from its element; it pairs each name with its value, in table order |
| Fields.CollectionShape | softboxen/client/resources/base.py:110-124 | an absent collection loads as None. Otherwise there is one record per element, in order, each loaded with `nested_in` extended by the collection's path. The load fails exactly when some record fails |
| Fields.Load | softboxen/client/resources/base.py:102-124 | the method with its loops equals the specification, for either kind of field |
| Fields.LoadRecord | softboxen/client/resources/base.py:118-121 | the inner loop equals the record of one element |
| Resources.IdentityOutcome | softboxen/client/resources/base.py:246-256 | a member has an identity exactly when it has a truthy `_links.self` string; the identity is that link with its trailing `/` removed; a non-dict raises `AttributeError`; missing `_links` raises `MissingAttributeError` |
| Resources.MissingSelf | softboxen/client/resources/base.py:251-254 | a truthy `_links` without a truthy `self` raises the same `MissingAttributeError` |
| Resources.MemberIdentityErrors | softboxen/client/resources/base.py:246-256 | `get_member_identity` raises only `MissingAttributeError` or `AttributeError`, never `TypeError` or `KeyError` |
| Resources.IdentitiesFailure | softboxen/client/resources/base.py:275-283 | a list fails exactly when some member has no identity, and then with the first such member's exception |
| Resources.IdentitiesInOrder | softboxen/client/resources/base.py:275-283 | otherwise the result is the identities in member order with the empty ones dropped |
| Resources.IdentitiesShape | softboxen/client/resources/base.py:275-283 | such a result is a subsequence of the identities, no longer than the input, with no empty entry and no trailing `/` |
| Resources.IdentityStep | softboxen/client/resources/base.py:276-283 | one member of the loop: one without an identity ends it with its exception; otherwise its identity is added, and kept only when non-empty |
| Resources.GetMembersIdentities | softboxen/client/resources/base.py:275-283 | the loop with `continue` equals `get_members_identities` |
| Resources.IdentitiesConverter | softboxen/client/resources/base.py:294-295 | as a converter, failure is exactly a failure of `get_members_identities`, and it carries that exception's text |
| Resources.SubResourcePathOutcome | softboxen/client/resources/base.py:208-229 | an empty name is `InvalidInputError`. A missing or falsy sub-document is `MissingAttributeError` naming the joined path. Otherwise the result is that sub-document's member identity, and a success is its self link stripped of trailing `/` |
| Resources.SettleOk | softboxen/client/resources/base.py:173-174 | no exception after n fields exactly when each of them loaded |
| Resources.SettleFailure | softboxen/client/resources/base.py:173-174 | any exception comes from one failing field reached without an earlier exception, and leaves only the names set before it |
| Resources.SettleFirstFailure | softboxen/client/resources/base.py:173-174 | the first failing field's exception is the final one, and exactly the names before it are set |
| Resources.SettleStops | softboxen/client/resources/base.py:173-174 | once a field fails, the later fields are not loaded |
| Resources.ParseSuccess | softboxen/client/resources/base.py:166-174 | parsing succeeds exactly when every field loads, and then sets exactly the declared names, each to its field's value |
| Resources.ParseFailure | softboxen/client/resources/base.py:166-174 | when field i is the first to fail, parsing raises its exception, after setting exactly the attributes declared before it |
| Resources.Resource.constructor | softboxen/client/resources/base.py:159-162 | a new resource has its path, no document and no attributes |
| Resources.Resource.ParseAttributes | softboxen/client/resources/base.py:166-174 | the loop sets the parsed attributes over the old ones and returns the parse's exception; the document is unchanged |
| Resources.Resource.Load | softboxen/client/resources/base.py:176-189 | the document is the fetched body, or `{}` for an empty body, and it is then parsed |
| Resources.Resource.SubResourcePathBy | softboxen/client/resources/base.py:208-229 | the method with its walk loop equals `get_sub_resource_path_by` on the resource's document |
| Resources.Open | softboxen/client/resources/base.py:159-164 | constructing loads the fetched body: the new resource's document and attributes are those of the parse |
| Resources.CollectionMembers | softboxen/client/resources/base.py:292-295 | `members_identities` of a dict document: the identities of its `members`, none when absent, or a malformed `members` attribute |
| Resources.CollectionParse | softboxen/client/resources/base.py:292-299 | parsing a collection document sets only `members_identities`, to its member paths, or raises what reading them raises |
| Resources.Members | softboxen/client/resources/base.py:309-323 | one resource per identity, in order, each fetched and loaded; the first fetch or parse that fails ends the iteration with its exception |
| Resources.IterCollection | softboxen/client/resources/base.py:297-323 | a collection's member paths, then its members: error and members as above, and no member when the paths cannot be read |
| Boxes.BoxKeysDeclared | softboxen/client/resources/box/box.py:25-44 | the attribute names are the seven keys, each once; exactly the vendor, model, version and uuid fields are required |
| Boxes.BoxFieldsBuilt | softboxen/client/resources/box/box.py:25-44 | each table entry is what `Field(name, required=...)` builds from its own name, required exactly for vendor, model, version and uuid |
| Boxes.BoxFieldValue | softboxen/client/resources/box/box.py:25-44 | each box field loads the key's value, None for an absent optional key, or `MissingAttributeError` for an absent required key |
| Boxes.BoxFieldsOfDict | softboxen/client/resources/box/box.py:25-44 | on a dict document, a field fails exactly when it is required and its key is absent; otherwise it loads the key's value or None |
| Boxes.BoxParse | softboxen/client/resources/box/box.py:25-44 | a dict document parses exactly when vendor, model, version and uuid are present |
| Boxes.BoxValues | softboxen/client/resources/box/box.py:25-44 | then all seven attributes are set, each to its key's value or None, and no others |
| Boxes.BoxMissing | softboxen/client/resources/box/box.py:25-34 | the first absent required key in table order raises `MissingAttributeError` naming it |
| Boxes.BoxNotADict | softboxen/client/resources/box/box.py:25-44 | a document that is not a dict fails on the first field and sets nothing |
| Boxes.SubPath | softboxen/client/resources/box/box.py:46-63 | a box's sub-resource path is the linked sub-document's identity. A missing or empty sub-document is a missing attribute. A document that is not a dict raises `AttributeError` |
| Boxes.CredentialsPath | softboxen/client/resources/box/box.py:46-51 | the `credentials` path, as above |
| Boxes.RoutesPath | softboxen/client/resources/box/box.py:53-57 | the `routes` path: the instance of `Boxes.SubPath` for the key `routes` |
| Boxes.PortsPath | softboxen/client/resources/box/box.py:59-63 | the `ports` path: the instance of `Boxes.SubPath` for the key `ports` |
| Boxes.BoxCollection | softboxen/client/resources/box/box.py:66-75 | iterating the collection gives one box per member path, in order; the first that fails ends the iteration with its exception |
| Factory.PutNames | softboxen/cli/factory.py:26-30 | assigning to a dict key keeps an existing key in place and appends a new one |
| Factory.PutGet | softboxen/cli/factory.py:26-30 | after assigning, the key reads the new value and the other keys are unchanged |
| Factory.ExtensionsNames | softboxen/cli/factory.py:26-30 | the dict has one key per distinct entry-point name, in order of first occurrence |
| Factory.ExtensionsGet | softboxen/cli/factory.py:26-30 | every name maps to the class of the last entry point with that name |
| Factory.DiscoveredClasses | softboxen/cli/factory.py:26-44 | `load_clis` returns exactly the `CommandProcessor` subclasses that were loaded last under some name |
| Factory.LoadClis | softboxen/cli/factory.py:18-44 | the loop with `continue` keeps exactly the compliant classes, in dict order; the result is a subsequence of the dict's values |
| Factory.GetBox | softboxen/cli/factory.py:47-71 | a result matches vendor, model and version, and is the first discovered class that does. It fails exactly when none matches, raising `ExtensionNotFoundError` with the three values |

## Left out

- **Network I/O.** `RestClient` and `connection.get` are left out. Responses enter as the `content` and `fetch` parameters, and `handle_error_response` takes the status code and the parsed JSON body.
- **Logging.** All `LOG` calls are left out; they have no effect on results.
- **`_collect_fields`.** It scans `dir()` of a class at run time. The model takes the explicit field table instead, in alphabetical (`dir()`) order.
- **`copy.copy(self)` in `CollectionField._load`.** Each record is modelled as the list of its attribute names and values, not as a copy of the field object.
- **`str(exc)` for converter exceptions.** A converter is modelled as a function that returns a value or a message. Unforeseen exceptions from arbitrary callables are not modelled.
- **Entry-point loading.** `entry_point.load()` and `issubclass` are modelled as data: each entry point carries its class, and a flag says whether the class is a `CommandProcessor` subclass. Import errors raised while loading are not modelled. When `load()` returns something that is not a class, `issubclass(impl, base.CommandProcessor)` raises `TypeError`; the flag cannot express that case, so the model has no such path.
- **The classes `load_clis` returns.** They are records of their `VENDOR`, `MODEL` and `VERSION`. Comparing them with `!=` is string comparison.
- **The sub-collections behind `credentials`, `routes` and `ports`.** These properties construct the sub-collection, which fetches it. The model gives only the path it is fetched from, which is where the core's logic lies.
- **`get_sub_resource_path_by`'s `except (TypeError, KeyError)`.** This handler is modelled as written. `Resources.MemberIdentityErrors` shows it never fires, because `get_member_identity` raises neither.
- Fields.IntConverter: decimal digits outside ASCII (`int("١٢") == 12` in Python) are not read as digits, because the model has no Unicode digit table; such strings are rejected.
- Fields.NewEnumerationField: the mapping is a JSON object, so its keys are strings. A Python dict with other keys, such as `{1: 'up'}`, cannot be written, and `MappingGet` gives None for every non-string raw value. The error text names `EnumerationField` where the source uses the class's own name, which differs only for a subclass.
- **JSON documents.** Numbers are integers only, with no floats. A `JObj` may list a key twice, which no Python dict does; `Lookup` then takes the first.
- **Python version.** Built-in messages and parsing rules follow Python 3.6 and 3.7, the versions `setup.py` declares. The model uses the 3.7 `TypeError` text of `int()` and has no limit on the number of digits `int()` accepts. The 4300-digit limit that 3.7.14 and later releases added is not modelled, so `Text.ParseIntOfIntToString` holds for every integer.
- **`repr()` of strings.** It is modelled without Python's escape sequences.
- **`ErrorMessages.InvalidInputMessage` and the other message lemmas.** They state the message for the keyword arguments the core passes. They do not state it for arbitrary objects rendered by `%s`.
- **The Flask API, the CLI commands and `CommandProcessor.loop`.** The REST server, the command-line tools and the CLI's read-eval-print loop are outside this core.
