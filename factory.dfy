/** Discovery of the CLI extensions installed under an entry-point namespace,
    and the choice of the one that serves a given box. */
module Factory {
  import opened Wrappers
  import opened Seqs
  import opened Exceptions
  import opened ErrorMessages

  /** A loaded extension class: the `VENDOR`, `MODEL` and `VERSION` it declares,
      and whether it is a subclass of `CommandProcessor`. */
  datatype Implementation = Implementation(vendor: string, model: string, version: string, isProcessor: bool)

  /** An entry point of the namespace: its name and the class it loads. */
  datatype EntryPoint = EntryPoint(name: string, impl: Implementation)

  /** A Python dict from entry-point names to classes, as its items in order. */
  type Extensions = seq<(string, Implementation)>

  predicate IsProcessor(impl: Implementation)
  {
    impl.isProcessor
  }

  /** The keys of a dict, in order. */
  function Names(d: Extensions): seq<string>
  {
    if d == [] then [] else [d[0].0] + Names(d[1..])
  }

  /** The values of a dict, in order. */
  function Impls(d: Extensions): seq<Implementation>
  {
    if d == [] then [] else [d[0].1] + Impls(d[1..])
  }

  /** `d.get(name)`. */
  function Get(d: Extensions, name: string): Option<Implementation>
  {
    if d == [] then None
    else if d[0].0 == name then Some(d[0].1)
    else Get(d[1..], name)
  }

  /** `d[name] = impl`: an existing key keeps its place and takes the new value,
      a new key goes at the end. */
  function Put(d: Extensions, name: string, impl: Implementation): Extensions
  {
    if d == [] then [(name, impl)]
    else if d[0].0 == name then [(name, impl)] + d[1..]
    else [d[0]] + Put(d[1..], name, impl)
  }

  /** The dict comprehension `{ep.name: ep.load() for ep in entry_points}`. */
  function ExtensionsOf(entryPoints: seq<EntryPoint>): Extensions
  {
    if entryPoints == [] then []
    else
      var last := entryPoints[|entryPoints| - 1];
      Put(ExtensionsOf(entryPoints[..|entryPoints| - 1]), last.name, last.impl)
  }

  /** The names of the entry points, in order. */
  function EntryNames(entryPoints: seq<EntryPoint>): (r: seq<string>)
    ensures |r| == |entryPoints|
  {
    if entryPoints == [] then []
    else EntryNames(entryPoints[..|entryPoints| - 1]) + [entryPoints[|entryPoints| - 1].name]
  }

  /** The names of `s` at their first occurrence, in order. */
  function FirstOccurrences(s: seq<string>): seq<string>
  {
    if s == [] then []
    else
      var init := FirstOccurrences(s[..|s| - 1]);
      if s[|s| - 1] in s[..|s| - 1] then init else init + [s[|s| - 1]]
  }

  /** The class of the last entry point called `name`, if any. */
  function LastLoaded(entryPoints: seq<EntryPoint>, name: string): Option<Implementation>
  {
    if entryPoints == [] then None
    else if entryPoints[|entryPoints| - 1].name == name then Some(entryPoints[|entryPoints| - 1].impl)
    else LastLoaded(entryPoints[..|entryPoints| - 1], name)
  }

  predicate Distinct(s: seq<string>)
  {
    forall i, j :: 0 <= i < j < |s| ==> s[i] != s[j]
  }

  // ---------------------------------------------------------------------------
  // The dict

  lemma {:induction false} PutNames(d: Extensions, name: string, impl: Implementation)
    ensures Names(Put(d, name, impl)) == if name in Names(d) then Names(d) else Names(d) + [name]
    decreases d
  {
    if d != [] && d[0].0 != name {
      PutNames(d[1..], name, impl);
      assert Names(d) == [d[0].0] + Names(d[1..]);
    }
  }

  lemma {:induction false} PutGet(d: Extensions, name: string, impl: Implementation, other: string)
    ensures Get(Put(d, name, impl), other) == if other == name then Some(impl) else Get(d, other)
    decreases d
  {
    if d != [] && d[0].0 != name {
      PutGet(d[1..], name, impl, other);
    }
  }

  lemma {:induction false} FirstOccurrencesOf(s: seq<string>)
    ensures forall x :: x in FirstOccurrences(s) <==> x in s
    ensures Distinct(FirstOccurrences(s))
    ensures IsSubsequence(FirstOccurrences(s), s)
    decreases |s|
  {
    if s != [] {
      var init := s[..|s| - 1];
      FirstOccurrencesOf(init);
      assert forall x :: x in s <==> x in init || x == s[|s| - 1];
      if s[|s| - 1] !in init {
        SubsequenceExtend(FirstOccurrences(init), init, s[|s| - 1]);
        assert init + [s[|s| - 1]] == s;
        var r := FirstOccurrences(s);
        assert r[..|r| - 1] == FirstOccurrences(init);
      } else {
        SubsequenceExtend(FirstOccurrences(init), init, s[|s| - 1]);
        assert init + [s[|s| - 1]] == s;
      }
    }
  }

  /** The dict has one key per distinct entry-point name, in the order of each
      name's first occurrence. */
  lemma {:induction false} ExtensionsNames(entryPoints: seq<EntryPoint>)
    ensures Names(ExtensionsOf(entryPoints)) == FirstOccurrences(EntryNames(entryPoints))
    ensures Distinct(Names(ExtensionsOf(entryPoints)))
    decreases |entryPoints|
  {
    if entryPoints != [] {
      var init := entryPoints[..|entryPoints| - 1];
      var last := entryPoints[|entryPoints| - 1];
      ExtensionsNames(init);
      PutNames(ExtensionsOf(init), last.name, last.impl);
      FirstOccurrencesOf(EntryNames(init));
      var names := EntryNames(entryPoints);
      assert names[..|names| - 1] == EntryNames(init) && names[|names| - 1] == last.name;
    }
    FirstOccurrencesOf(EntryNames(entryPoints));
  }

  /** When two entry points share a name, the one loaded last is kept. */
  lemma {:induction false} ExtensionsGet(entryPoints: seq<EntryPoint>, name: string)
    ensures Get(ExtensionsOf(entryPoints), name) == LastLoaded(entryPoints, name)
    decreases |entryPoints|
  {
    if entryPoints != [] {
      var init := entryPoints[..|entryPoints| - 1];
      var last := entryPoints[|entryPoints| - 1];
      ExtensionsGet(init, name);
      PutGet(ExtensionsOf(init), last.name, last.impl, name);
    }
  }

  lemma {:induction false} GetInNames(d: Extensions, name: string)
    ensures Get(d, name).Some? ==> name in Names(d)
    decreases d
  {
    if d != [] {
      GetInNames(d[1..], name);
    }
  }

  /** With distinct keys, the values are exactly what some key looks up. */
  lemma {:induction false} ImplsGet(d: Extensions, impl: Implementation)
    requires Distinct(Names(d))
    ensures impl in Impls(d) <==> exists name :: Get(d, name) == Some(impl)
    decreases d
  {
    if d != [] {
      var rest := d[1..];
      assert Names(d) == [d[0].0] + Names(rest);
      assert Impls(d) == [d[0].1] + Impls(rest);
      assert Distinct(Names(rest)) by {
        forall i, j | 0 <= i < j < |Names(rest)|
          ensures Names(rest)[i] != Names(rest)[j]
        {
          assert Names(rest)[i] == Names(d)[i + 1] && Names(rest)[j] == Names(d)[j + 1];
        }
      }
      assert d[0].0 !in Names(rest) by {
        forall i | 0 <= i < |Names(rest)|
          ensures Names(rest)[i] != d[0].0
        {
          assert Names(rest)[i] == Names(d)[i + 1] && d[0].0 == Names(d)[0];
        }
      }
      ImplsGet(rest, impl);
      if impl in Impls(d) {
        if impl == d[0].1 {
          var first := d[0].0;
          assert Get(d, first) == Some(impl);
          assert exists name :: Get(d, name) == Some(impl);
        } else {
          assert impl in Impls(rest);
          var name :| Get(rest, name) == Some(impl);
          GetInNames(rest, name);
          assert name != d[0].0;
          assert Get(d, name) == Some(impl);
          assert exists other :: Get(d, other) == Some(impl);
        }
      } else {
        forall name
          ensures Get(d, name) != Some(impl)
        {
          if d[0].0 != name {
            assert Get(d, name) == Get(rest, name);
          }
        }
      }
    }
  }

  lemma {:induction false} ImplsAppend(d: Extensions, item: (string, Implementation))
    ensures Impls(d + [item]) == Impls(d) + [item.1]
    decreases d
  {
    if d != [] {
      assert (d + [item])[1..] == d[1..] + [item];
      ImplsAppend(d[1..], item);
    }
  }

  // ---------------------------------------------------------------------------
  // load_clis and get_box

  /** What `load_clis` returns for the given entry points. */
  function Discovered(entryPoints: seq<EntryPoint>): seq<Implementation>
  {
    Filter(IsProcessor, Impls(ExtensionsOf(entryPoints)))
  }

  /** `load_clis` returns the `CommandProcessor` subclasses among the classes
      last loaded under each entry-point name, and nothing else. */
  lemma DiscoveredClasses(entryPoints: seq<EntryPoint>, impl: Implementation)
    ensures impl in Discovered(entryPoints) <==>
      impl.isProcessor && exists name :: LastLoaded(entryPoints, name) == Some(impl)
  {
    var d := ExtensionsOf(entryPoints);
    ExtensionsNames(entryPoints);
    ImplsGet(d, impl);
    if impl in Impls(d) {
      var name :| Get(d, name) == Some(impl);
      ExtensionsGet(entryPoints, name);
    }
    if exists name :: LastLoaded(entryPoints, name) == Some(impl) {
      var name :| LastLoaded(entryPoints, name) == Some(impl);
      ExtensionsGet(entryPoints, name);
    }
  }

  /** `load_clis(namespace)`, given what the namespace's entry points load. */
  method LoadClis(entryPoints: seq<EntryPoint>) returns (clis: seq<Implementation>)
    ensures clis == Discovered(entryPoints)
    ensures IsSubsequence(clis, Impls(ExtensionsOf(entryPoints)))
  {
    var extensions := ExtensionsOf(entryPoints);
    clis := [];
    var i := 0;
    while i < |extensions|
      invariant 0 <= i <= |extensions|
      invariant clis == Filter(IsProcessor, Impls(extensions[..i]))
    {
      var impl := extensions[i].1;
      assert extensions[..i + 1] == extensions[..i] + [extensions[i]];
      ImplsAppend(extensions[..i], extensions[i]);
      FilterAppend(IsProcessor, Impls(extensions[..i]), impl);
      if !impl.isProcessor {
        i := i + 1;
        continue;
      }
      clis := clis + [impl];
      i := i + 1;
    }
    assert extensions[..i] == extensions;
    FilterIsSubsequence(IsProcessor, Impls(extensions));
  }

  predicate Matches(impl: Implementation, vendor: string, model: string, version: string)
  {
    impl.vendor == vendor && impl.model == model && impl.version == version
  }

  /** `get_box(vendor, model, version)`: the first discovered class that declares
      this vendor, model and version, or `ExtensionNotFoundError` naming them. */
  method GetBox(entryPoints: seq<EntryPoint>, vendor: string, model: string, version: string)
    returns (r: Result<Implementation, Failure>)
    ensures r.Ok? ==> Matches(r.value, vendor, model, version)
    ensures r.Ok? ==> exists i :: (0 <= i < |Discovered(entryPoints)| && Discovered(entryPoints)[i] == r.value
      && forall j :: 0 <= j < i ==> !Matches(Discovered(entryPoints)[j], vendor, model, version))
    ensures r.Err? <==> forall c :: c in Discovered(entryPoints) ==> !Matches(c, vendor, model, version)
    ensures r.Err? ==> r.error == ExtensionNotFound(vendor, model, version)
  {
    var clis := LoadClis(entryPoints);
    for i := 0 to |clis|
      invariant forall j :: 0 <= j < i ==> !Matches(clis[j], vendor, model, version)
    {
      var cli := clis[i];
      if cli.vendor != vendor {
        continue;
      }
      if cli.model != model {
        continue;
      }
      if cli.version != version {
        continue;
      }
      return Ok(cli);
    }
    return Err(ExtensionNotFound(vendor, model, version));
  }
}
