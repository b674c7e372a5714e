/**
 * `Environment` (conda_turbo/env/env.py): the in-memory description of an
 * environment file, its channel operations, its serialisation to a mapping
 * (`to_dict`) and its loading from a decoded document (`from_yaml`).
 */
module Env {
  import opened Wrappers
  import opened Dict
  import opened Values
  import opened Seqs
  import opened EnvKeys
  import opened EnvDependencies

  /** The attributes of an environment as plain values.  `dependencies` is
      the raw list as written, not the parsed dictionary. */
  datatype Fields = Fields(
    name: Value,
    filename: Value,
    channels: seq<string>,
    dependencies: Value,
    prefix: Value,
    variables: Value,
    subdir: Value,
    requested: Value,
    explicit: Value,
    onlyBaseFields: bool)

  /** One conditional assignment of `to_dict`: `if written: d[key] = value`. */
  datatype Entry = Entry(key: string, value: Value, written: bool)

  /** No two assignments name the same key. */
  predicate KeysUnique(es: seq<Entry>) {
    forall i, j :: 0 <= i < j < |es| ==> es[i].key != es[j].key
  }

  /** The keys the assignments name, in order. */
  function EntryKeys(es: seq<Entry>): (ks: seq<string>)
    ensures |ks| == |es| && forall i :: 0 <= i < |es| ==> ks[i] == es[i].key
  {
    seq(|es|, i requires 0 <= i < |es| => es[i].key)
  }

  /** The assignments in order, each applied to the dictionary so far. */
  function Assign(d: Document, es: seq<Entry>): (r: Document)
    ensures Distinct(d) ==> Distinct(r)
    decreases |es|
  {
    if es == [] then d
    else Assign(if es[0].written then Put(d, es[0].key, es[0].value) else d, es[1..])
  }

  /** Only keys already present or named by an assignment appear. */
  lemma {:induction false} AssignKeys(d: Document, es: seq<Entry>)
    ensures forall k :: k in Keys(Assign(d, es)) ==> k in Keys(d) || k in EntryKeys(es)
    decreases |es|
  {
    if es != [] {
      var d' := if es[0].written then Put(d, es[0].key, es[0].value) else d;
      var rest := es[1..];
      assert Assign(d, es) == Assign(d', rest);
      AssignKeys(d', rest);
      forall k | k in EntryKeys(rest)
        ensures k in EntryKeys(es)
      {
        var j :| 0 <= j < |rest| && EntryKeys(rest)[j] == k;
        assert EntryKeys(es)[j + 1] == k;
      }
      assert forall k :: k in Keys(d') ==> k in Keys(d) || k == es[0].key;
      assert EntryKeys(es)[0] == es[0].key;
    }
  }

  /** A key no assignment names keeps its value. */
  lemma {:induction false} AssignOther(d: Document, es: seq<Entry>, k: string)
    requires forall i :: 0 <= i < |es| ==> es[i].key != k
    ensures Get(Assign(d, es), k) == Get(d, k)
    decreases |es|
  {
    if es != [] {
      var d' := if es[0].written then Put(d, es[0].key, es[0].value) else d;
      AssignOther(d', es[1..], k);
    }
  }

  /** With distinct keys, each key ends up as its own assignment left it. */
  lemma {:induction false} AssignGet(d: Document, es: seq<Entry>, i: nat)
    requires KeysUnique(es) && i < |es|
    ensures Get(Assign(d, es), es[i].key) ==
      if es[i].written then Some(es[i].value) else Get(d, es[i].key)
    decreases |es|
  {
    var d' := if es[0].written then Put(d, es[0].key, es[0].value) else d;
    var rest := es[1..];
    assert Assign(d, es) == Assign(d', rest);
    if i == 0 {
      forall j | 0 <= j < |rest|
        ensures rest[j].key != es[0].key
      {
        assert rest[j] == es[j + 1];
      }
      AssignOther(d', rest, es[0].key);
    } else {
      forall a, b | 0 <= a < b < |rest|
        ensures rest[a].key != rest[b].key
      {
        assert rest[a] == es[a + 1] && rest[b] == es[b + 1];
      }
      assert rest[i - 1] == es[i];
      AssignGet(d', rest, i - 1);
    }
  }

  /** The keys `to_dict` writes are pairwise different. */
  lemma KeysDiffer()
    ensures "name" != "channels" && "name" != "dependencies" && "name" != "variables" && "name" != "prefix"
    ensures "name" != "subdir" && "name" != "requested" && "name" != "explicit"
    ensures "channels" != "dependencies" && "channels" != "variables" && "channels" != "prefix"
    ensures "channels" != "subdir" && "channels" != "requested" && "channels" != "explicit"
    ensures "dependencies" != "variables" && "dependencies" != "prefix" && "dependencies" != "subdir"
    ensures "dependencies" != "requested" && "dependencies" != "explicit"
    ensures "variables" != "prefix" && "variables" != "subdir" && "variables" != "requested"
    ensures "variables" != "explicit"
    ensures "prefix" != "subdir" && "prefix" != "requested" && "prefix" != "explicit"
    ensures "subdir" != "requested" && "subdir" != "explicit" && "requested" != "explicit"
  {
  }

  /** The conditional assignments of `to_dict`, in order, for an
      environment whose parsed dictionary is non-empty exactly when its raw
      list is truthy. */
  function Entries(f: Fields): (es: seq<Entry>)
    ensures |es| == 7 && KeysUnique(es)
    ensures forall k :: k in EntryKeys(es) ==> k in ValidKeys && k != "name"
    ensures forall i :: 0 <= i < |es| && es[i].written ==> Truthy(es[i].value)
  {
    KeysDiffer();
    [Entry("channels", TextList(f.channels), f.channels != []),
     Entry("dependencies", f.dependencies, Truthy(f.dependencies)),
     Entry("variables", f.variables, Truthy(f.variables)),
     Entry("prefix", f.prefix, Truthy(f.prefix)),
     Entry("subdir", f.subdir, Truthy(f.subdir) && !f.onlyBaseFields),
     Entry("requested", f.requested, Truthy(f.requested) && !f.onlyBaseFields),
     Entry("explicit", f.explicit, Truthy(f.explicit) && !f.onlyBaseFields)]
  }

  /** `to_dict()`: `{"name": name}` followed by the conditional assignments. */
  function Serialize(f: Fields): (d: Document)
    ensures Distinct(d)
    ensures forall k :: k in Keys(d) ==> k in ValidKeys
  {
    AssignKeys(Put([], "name", f.name), Entries(f));
    Assign(Put([], "name", f.name), Entries(f))
  }

  /** `Some(v)` when `c` holds. */
  function When(c: bool, v: Value): (r: Option<Value>)
    ensures r.Some? <==> c
  {
    if c then Some(v) else None
  }

  /** What `d.get(k)` gives on the serialised mapping, key by key. */
  lemma SerializeLookup(f: Fields)
    ensures var d := Serialize(f);
      Get(d, "name") == Some(f.name) &&
      Get(d, "channels") == When(f.channels != [], TextList(f.channels)) &&
      Get(d, "dependencies") == When(Truthy(f.dependencies), f.dependencies) &&
      Get(d, "variables") == When(Truthy(f.variables), f.variables) &&
      Get(d, "prefix") == When(Truthy(f.prefix), f.prefix) &&
      Get(d, "subdir") == When(Truthy(f.subdir) && !f.onlyBaseFields, f.subdir) &&
      Get(d, "requested") == When(Truthy(f.requested) && !f.onlyBaseFields, f.requested) &&
      Get(d, "explicit") == When(Truthy(f.explicit) && !f.onlyBaseFields, f.explicit)
  {
    KeysDiffer();
    var d0 := Put([], "name", f.name);
    var es := Entries(f);
    assert forall k :: k != "name" ==> Get(d0, k) == None;
    AssignOther(d0, es, "name");
    forall i | 0 <= i < 7
      ensures Get(Serialize(f), es[i].key) == When(es[i].written, es[i].value)
    {
      AssignGet(d0, es, i);
    }
    assert es[0].key == "channels" && es[1].key == "dependencies" && es[2].key == "variables";
    assert es[3].key == "prefix" && es[4].key == "subdir" && es[5].key == "requested";
    assert es[6].key == "explicit";
  }

  /** `name` is always written; any other key is written only with a
      truthy value, and the additional fields never under
      `only_base_fields`. */
  lemma SerializeShape(f: Fields)
    ensures var d := Serialize(f);
      "name" in Keys(d) &&
      (forall k :: k in Keys(d) && k != "name" ==> Truthy(Get(d, k).value)) &&
      (f.onlyBaseFields ==>
        "subdir" !in Keys(d) && "requested" !in Keys(d) && "explicit" !in Keys(d))
  {
    var d := Serialize(f);
    SerializeLookup(f);
    forall k | k in Keys(d) && k != "name"
      ensures Truthy(Get(d, k).value)
    {
      assert k in ValidKeys;
    }
  }

  /** `has_additional_fields`: the three fields are all set, even if empty.
      A mapping `to_dict` writes with all three comes from an environment
      that has them. */
  predicate HasAdditionalFields(f: Fields): (b: bool)
    ensures var d := Serialize(f);
      "subdir" in Keys(d) && "requested" in Keys(d) && "explicit" in Keys(d) ==> b
  {
    SerializeLookup(f);
    f.requested != Null && f.subdir != Null && f.explicit != Null
  }

  /** When the serialised mapping carries all three additional fields, the
      environment has them; the converse fails, since `to_dict` also drops
      set but empty values. */
  lemma SerializedAdditionalFields(f: Fields)
    ensures var d := Serialize(f);
      "subdir" in Keys(d) && "requested" in Keys(d) && "explicit" in Keys(d) ==> HasAdditionalFields(f)
    ensures f.requested == Items([]) && f.subdir != Null && f.explicit != Null ==>
      HasAdditionalFields(f) && "requested" !in Keys(Serialize(f))
  {
    SerializeLookup(f);
  }

  /** The channel list `add_channels` builds: the given channels first, then
      the current ones, each once, in order of first appearance. */
  function AddedChannels(given: seq<string>, current: seq<string>): (r: seq<string>)
    ensures NoDups(r)
    ensures forall c :: c in r <==> c in given || c in current
  {
    Unique(given + current)
  }

  /** The given channels lead, in their own order, and a current list
      without repeats keeps its order behind them, minus the channels that
      moved to the front. */
  lemma {:induction false} AddedChannelsOrder(given: seq<string>, current: seq<string>)
    ensures var r := AddedChannels(given, current);
      |Unique(given)| <= |r| && r[..|Unique(given)|] == Unique(given)
    ensures NoDups(current) ==> AddedChannels(given, current) == Unique(given) + Without(current, given)
  {
    UniqueAppend(given, current);
    if NoDups(current) {
      UniqueOfNoDups(current);
    }
  }

  /** An environment as `Environment.__init__` leaves it. */
  class Environment {
    var name: Value
    var filename: Value
    var prefix: Value
    var dependencies: Dependencies
    var variables: Value
    var subdir: Value
    var requested: Value
    var explicit: Value
    var onlyBaseFields: bool
    var channels: seq<string>

    ghost predicate Valid()
      reads this, dependencies
    {
      dependencies.Valid()
    }

    /** The attributes as values. */
    function Snapshot(): Fields
      reads this, dependencies
    {
      Fields(name, filename, channels, dependencies.raw, prefix, variables,
             subdir, requested, explicit, onlyBaseFields)
    }

    /** `Environment(...)`: the raw dependency list is parsed, and an
        absent channel list becomes empty. */
    constructor (name: Value, filename: Value, channels: Option<seq<string>>, dependencies: Value,
                 prefix: Value, variables: Value, subdir: Value, requested: Value,
                 explicit: Value, onlyBaseFields: bool, syn: SpecSyntax)
      ensures Valid() && fresh(this.dependencies)
      ensures Snapshot() == Fields(name, filename, if channels.Some? then channels.value else [],
                                   dependencies, prefix, variables, subdir, requested, explicit,
                                   onlyBaseFields)
      ensures this.dependencies.items == ParseRaw([], dependencies, syn)
    {
      this.name := name;
      this.filename := filename;
      this.prefix := prefix;
      this.dependencies := new Dependencies(dependencies, syn);
      this.variables := variables;
      this.subdir := subdir;
      this.requested := requested;
      this.explicit := explicit;
      this.onlyBaseFields := onlyBaseFields;
      this.channels := if channels.None? then [] else channels.value;
    }

    /** `add_channels`: only the channel list changes. */
    method AddChannels(given: seq<string>)
      requires Valid()
      modifies this
      ensures Valid()
      ensures Snapshot() == old(Snapshot()).(channels := AddedChannels(given, old(channels)))
      ensures dependencies == old(dependencies)
    {
      channels := Unique(given + channels);
    }

    /** `remove_channels`. */
    method RemoveChannels()
      requires Valid()
      modifies this
      ensures Valid()
      ensures Snapshot() == old(Snapshot()).(channels := [])
      ensures dependencies == old(dependencies)
    {
      channels := [];
    }

    /** `to_dict()`.  It tests the parsed dictionary for emptiness but
        writes the raw list; on a valid environment that is the raw list's
        own truthiness. */
    function ToDict(): (d: Document)
      reads this, dependencies
      requires Valid()
      ensures d == Serialize(Snapshot())
    {
      Assign(Put([], "name", name),
        [Entry("channels", TextList(channels), channels != []),
         Entry("dependencies", dependencies.raw, dependencies.items != []),
         Entry("variables", variables, Truthy(variables)),
         Entry("prefix", prefix, Truthy(prefix)),
         Entry("subdir", subdir, Truthy(subdir) && !onlyBaseFields),
         Entry("requested", requested, Truthy(requested) && !onlyBaseFields),
         Entry("explicit", explicit, Truthy(explicit) && !onlyBaseFields)])
    }
  }

  /** The parameter names of `Environment.__init__`. */
  const Params: seq<string> :=
    ["name", "filename", "channels", "dependencies", "prefix", "variables", "subdir",
     "requested", "explicit", "only_base_fields"]

  /** An absent keyword argument takes its default, `None`. */
  function OrNull(v: Option<Value>): Value {
    if v.Some? then v.value else Null
  }

  /** `_expand_channels`: every entry of the channel value (`[]` when
      absent) goes through `expandvars`.  Iterating `None` and expanding a
      mapping entry both raise `TypeError`. */
  function ExpandChannels(channels: Option<Value>, expandVars: string -> string): (r: Result<seq<string>, LoadError>)
    ensures channels.None? ==> r == Success([])
    ensures channels == Some(Null) ==> r == Failure(NotIterable("channels"))
    ensures r.Success? && channels.Some? ==>
      var es := Elements(channels.value);
      |r.value| == |es| && forall i :: 0 <= i < |es| ==> es[i].Plain? && r.value[i] == expandVars(es[i].spec)
    ensures r.Failure? && channels != Some(Null) ==>
      r.error == ChannelNotText("channels") &&
      exists i :: 0 <= i < |Elements(channels.value)| && Elements(channels.value)[i].Section?
  {
    match channels
    case None => Success([])
    case Some(Null) => Failure(NotIterable("channels"))
    case Some(v) =>
      var es := Elements(v);
      if exists i :: 0 <= i < |es| && es[i].Section? then Failure(ChannelNotText("channels"))
      else Success(ExpandAll(es, expandVars))
  }

  /** `expandvars` on each entry of a list of plain entries. */
  function ExpandAll(es: seq<Item>, expandVars: string -> string): (r: seq<string>)
    requires forall i :: 0 <= i < |es| ==> es[i].Plain?
    ensures |r| == |es| && forall i :: 0 <= i < |es| ==> r[i] == expandVars(es[i].spec)
  {
    if es == [] then [] else [expandVars(es[0].spec)] + ExpandAll(es[1..], expandVars)
  }

  /** A channel list `expandvars` leaves alone comes back unchanged. */
  lemma ExpandWrittenChannels(cs: seq<string>, expandVars: string -> string)
    requires forall c :: c in cs ==> expandVars(c) == c
    ensures ExpandChannels(Some(TextList(cs)), expandVars) == Success(cs)
  {
    var r := ExpandChannels(Some(TextList(cs)), expandVars);
    assert forall i :: 0 <= i < |cs| ==> TextList(cs).items[i] == Plain(cs[i]);
    assert r.value == cs;
  }

  /** What `from_yaml` passes to `Environment(**data)` under `k`: the
      keyword argument if one is given, else the document's entry if its key
      is valid, with the dependency list after the pip repair. */
  function Loaded(doc: Document, kwargs: Document, k: string): (r: Option<Value>)
    ensures r.Some? && k !in Keys(kwargs) ==> k in ValidKeys && k in Keys(doc)
  {
    if k in Keys(kwargs) then Get(kwargs, k)
    else if k !in ValidKeys then None
    else if k == "dependencies" && Get(doc, k).Some? then Some(Repaired(Get(doc, k).value))
    else Get(doc, k)
  }

  /** The attributes `Environment(**data)` receives, with the expanded channels. */
  function LoadedFields(doc: Document, kwargs: Document, channels: seq<string>): Fields {
    Fields(OrNull(Loaded(doc, kwargs, "name")), OrNull(Loaded(doc, kwargs, "filename")), channels,
           OrNull(Loaded(doc, kwargs, "dependencies")), OrNull(Loaded(doc, kwargs, "prefix")),
           OrNull(Loaded(doc, kwargs, "variables")), OrNull(Loaded(doc, kwargs, "subdir")),
           OrNull(Loaded(doc, kwargs, "requested")), OrNull(Loaded(doc, kwargs, "explicit")),
           Truthy(OrNull(Loaded(doc, kwargs, "only_base_fields"))))
  }

  /** `from_yaml(text, **kwargs)` on the decoded document (`None` for an
      empty one): the environment's attributes, or the error it raises, in
      the order the steps run. */
  function Load(doc: Option<Document>, kwargs: Document, expandVars: string -> string): (r: Result<Fields, LoadError>)
    ensures (r.Failure? && r.error.EnvironmentFileEmpty?) <==> doc.None?
    ensures doc.Some? && Get(doc.value, "dependencies") == Some(Null) ==> r == Failure(NotIterable("dependencies"))
    ensures r.Success? ==> doc.Some? && forall k :: k in Keys(kwargs) ==> k in Params
  {
    if doc.None? then Failure(EnvironmentFileEmpty(GetOr(kwargs, "filename", Null)))
    else if Get(doc.value, "dependencies") == Some(Null) then Failure(NotIterable("dependencies"))
    else Build(doc.value, kwargs, expandVars)
  }

  /** The steps of `from_yaml` after `validate_keys`: expand the channels,
      then hand the data to `Environment`. */
  function Build(doc: Document, kwargs: Document, expandVars: string -> string): (r: Result<Fields, LoadError>)
    ensures r.Success? ==> forall k :: k in Keys(kwargs) ==> k in Params
    ensures r.Failure? && r.error.UnexpectedKeyword? ==> r.error.key in Keys(kwargs) && r.error.key !in Params
    ensures r.Failure? ==> !r.error.EnvironmentFileEmpty?
  {
    match ExpandChannels(Loaded(doc, kwargs, "channels"), expandVars)
    case Failure(e) => Failure(e)
    case Success(channels) =>
      var unknown := Without(Keys(kwargs), Params);
      if unknown != [] then Failure(UnexpectedKeyword(unknown[0]))
      else Success(LoadedFields(doc, kwargs, channels))
  }

  /** A key outside `VALID_KEYS` in the document changes nothing: it is
      dropped before the environment is built. */
  lemma LoadIgnoresInvalidKey(doc: Document, kwargs: Document, k: string, v: Value,
                              expandVars: string -> string)
    requires k !in ValidKeys
    ensures Load(Some(Put(doc, k, v)), kwargs, expandVars) == Load(Some(doc), kwargs, expandVars)
  {
    var doc' := Put(doc, k, v);
    LoadedIgnoresInvalidKey(doc, kwargs, k, v);
    BuildSameLoaded(doc, doc', kwargs, expandVars);
    InvalidIsNotDependencies(k);
    assert Get(doc', "dependencies") == Get(doc, "dependencies");
  }

  /** Every argument `Environment` receives is the same with or without
      the invalid key. */
  lemma LoadedIgnoresInvalidKey(doc: Document, kwargs: Document, k: string, v: Value)
    requires k !in ValidKeys
    ensures forall j :: Loaded(Put(doc, k, v), kwargs, j) == Loaded(doc, kwargs, j)
  {
    var doc' := Put(doc, k, v);
    forall j
      ensures Loaded(doc', kwargs, j) == Loaded(doc, kwargs, j)
    {
      if j == k {
        LoadedInvalid(doc, kwargs, k);
        LoadedInvalid(doc', kwargs, k);
      } else {
        LoadedSameGet(doc, doc', kwargs, j);
      }
    }
  }

  /** `dependencies` is a valid key. */
  lemma InvalidIsNotDependencies(k: string)
    requires k !in ValidKeys
    ensures k != "dependencies"
  {
    assert ValidKeys[1] == "dependencies";
  }

  /** An invalid key can only come from a keyword argument. */
  lemma LoadedInvalid(doc: Document, kwargs: Document, k: string)
    requires k !in ValidKeys
    ensures Loaded(doc, kwargs, k) == Get(kwargs, k)
  {
  }

  /** Documents that agree on a key load it alike. */
  lemma LoadedSameGet(doc: Document, doc': Document, kwargs: Document, j: string)
    requires Get(doc', j) == Get(doc, j)
    ensures Loaded(doc', kwargs, j) == Loaded(doc, kwargs, j)
  {
  }

  /** `Build` looks at the document only through `Loaded`. */
  lemma BuildSameLoaded(doc: Document, doc': Document, kwargs: Document, expandVars: string -> string)
    requires forall j :: Loaded(doc', kwargs, j) == Loaded(doc, kwargs, j)
    ensures Build(doc', kwargs, expandVars) == Build(doc, kwargs, expandVars)
  {
    forall channels
      ensures LoadedFields(doc', kwargs, channels) == LoadedFields(doc, kwargs, channels)
    {
    }
    assert Loaded(doc', kwargs, "channels") == Loaded(doc, kwargs, "channels");
  }

  /** An assignment whose flag is off can carry any value. */
  predicate SameWritten(es: seq<Entry>, es': seq<Entry>) {
    |es| == |es'| &&
    forall i :: 0 <= i < |es| ==>
      es[i].key == es'[i].key && es[i].written == es'[i].written &&
      (es[i].written ==> es[i].value == es'[i].value)
  }

  /** Values of assignments that are not made do not matter. */
  lemma {:induction false} AssignSame(d: Document, es: seq<Entry>, es': seq<Entry>)
    requires SameWritten(es, es')
    ensures Assign(d, es) == Assign(d, es')
    decreases |es|
  {
    if es != [] {
      var d' := if es[0].written then Put(d, es[0].key, es[0].value) else d;
      AssignSame(d', es[1..], es'[1..]);
    }
  }

  /** What the base attributes become when the serialised mapping is
      loaded again. */
  lemma ReloadedBaseFields(f: Fields)
    ensures var g := LoadedFields(Serialize(f), [], f.channels);
      g.name == f.name && g.channels == f.channels && !g.onlyBaseFields &&
      g.dependencies == (if Truthy(f.dependencies) then Repaired(f.dependencies) else Null) &&
      g.variables == (if Truthy(f.variables) then f.variables else Null) &&
      g.prefix == (if Truthy(f.prefix) then f.prefix else Null)
  {
    var d := Serialize(f);
    SerializeLookup(f);
    LoadedWithoutKeywords(d, "name");
    LoadedWithoutKeywords(d, "dependencies");
    LoadedWithoutKeywords(d, "variables");
    LoadedWithoutKeywords(d, "prefix");
    LoadedWithoutKeywords(d, "only_base_fields");
    OnlyKeywordParameters();
  }

  /** Two parameters of `Environment` can only come from keyword arguments. */
  lemma OnlyKeywordParameters()
    ensures "only_base_fields" !in ValidKeys && "filename" !in ValidKeys
  {
  }

  /** What the additional attributes become when the serialised mapping is
      loaded again: each survives only if `to_dict` wrote it. */
  lemma ReloadedAdditionalFields(f: Fields)
    ensures var g := LoadedFields(Serialize(f), [], f.channels);
      g.subdir == (if Truthy(f.subdir) && !f.onlyBaseFields then f.subdir else Null) &&
      g.requested == (if Truthy(f.requested) && !f.onlyBaseFields then f.requested else Null) &&
      g.explicit == (if Truthy(f.explicit) && !f.onlyBaseFields then f.explicit else Null)
  {
    var d := Serialize(f);
    SerializeLookup(f);
    LoadedWithoutKeywords(d, "subdir");
    LoadedWithoutKeywords(d, "requested");
    LoadedWithoutKeywords(d, "explicit");
  }

  /** Without keyword arguments, a valid key reads the document. */
  lemma LoadedWithoutKeywords(doc: Document, k: string)
    ensures var none: Document := [];
      Loaded(doc, none, k) ==
        if k !in ValidKeys then None
        else if k == "dependencies" && Get(doc, k).Some? then Some(Repaired(Get(doc, k).value))
        else Get(doc, k)
  {
  }

  /** Two environments whose truthy fields agree, the second without
      `only_base_fields` and with the additional fields the first would
      not write cleared, make the same assignments. */
  lemma EntriesAgree(f: Fields, g: Fields)
    requires g.channels == f.channels && !g.onlyBaseFields
    requires g.dependencies == (if Truthy(f.dependencies) then f.dependencies else Null)
    requires g.variables == (if Truthy(f.variables) then f.variables else Null)
    requires g.prefix == (if Truthy(f.prefix) then f.prefix else Null)
    requires g.subdir == (if Truthy(f.subdir) && !f.onlyBaseFields then f.subdir else Null)
    requires g.requested == (if Truthy(f.requested) && !f.onlyBaseFields then f.requested else Null)
    requires g.explicit == (if Truthy(f.explicit) && !f.onlyBaseFields then f.explicit else Null)
    ensures SameWritten(Entries(g), Entries(f))
  {
    var es, es' := Entries(g), Entries(f);
    forall i | 0 <= i < 7
      ensures es[i].key == es'[i].key && es[i].written == es'[i].written &&
              (es[i].written ==> es[i].value == es'[i].value)
    {
    }
  }

  /** The written channel list expands back to itself. */
  lemma ReloadedChannels(f: Fields, expandVars: string -> string)
    requires forall c :: c in f.channels ==> expandVars(c) == c
    ensures var none: Document := [];
      ExpandChannels(Loaded(Serialize(f), none, "channels"), expandVars) == Success(f.channels)
  {
    var d := Serialize(f);
    SerializeLookup(f);
    LoadedWithoutKeywords(d, "channels");
    if f.channels != [] {
      ExpandWrittenChannels(f.channels, expandVars);
    }
  }

  /** Loading what `to_dict` wrote gives back an environment that writes the
      same mapping, provided `expandvars` leaves its channels alone and its
      dependency list needs no pip repair. */
  lemma ReloadSerialized(f: Fields, expandVars: string -> string)
    requires forall c :: c in f.channels ==> expandVars(c) == c
    requires Repaired(f.dependencies) == f.dependencies
    ensures Load(Some(Serialize(f)), [], expandVars).Success?
    ensures Serialize(Load(Some(Serialize(f)), [], expandVars).value) == Serialize(f)
  {
    var d := Serialize(f);
    var none: Document := [];
    ReloadedChannels(f, expandVars);
    assert Get(d, "dependencies") != Some(Null) by {
      SerializeLookup(f);
    }
    assert Without(Keys(none), Params) == [];
    var g := LoadedFields(d, none, f.channels);
    assert Load(Some(d), none, expandVars) == Success(g);
    ReloadedBaseFields(f);
    ReloadedAdditionalFields(f);
    EntriesAgree(f, g);
    AssignSame(Put([], "name", f.name), Entries(g), Entries(f));
  }

  /** The loop of `from_yaml` over the keyword arguments: `data[key] = value`. */
  method MergeKeywords(data: Document, kwargs: Document) returns (merged: Document)
    requires Distinct(data) && Distinct(kwargs)
    requires forall k :: k in Keys(data) ==> k in ValidKeys
    ensures Distinct(merged)
    ensures forall k :: Get(merged, k) == if k in Keys(kwargs) then Get(kwargs, k) else Get(data, k)
    ensures Without(Keys(merged), Params) == Without(Keys(kwargs), Params)
  {
    merged := data;
    MergeStart(data, kwargs);
    var i := 0;
    while i < |kwargs|
      invariant 0 <= i <= |kwargs|
      invariant Distinct(merged)
      invariant forall k :: Get(merged, k) == if k in Keys(kwargs[..i]) then Get(kwargs, k) else Get(data, k)
      invariant Without(Keys(merged), Params) == Without(Keys(kwargs[..i]), Params)
    {
      MergeLookupStep(data, kwargs, merged, i);
      MergeNamesStep(data, kwargs, merged, i);
      merged := Put(merged, kwargs[i].0, kwargs[i].1);
      i := i + 1;
    }
    assert kwargs[..i] == kwargs;
  }

  /** Before the keyword loop: `data` holds no name `Environment` rejects. */
  lemma MergeStart(data: Document, kwargs: Document)
    requires forall k :: k in Keys(data) ==> k in ValidKeys
    ensures Without(Keys(data), Params) == Without(Keys(kwargs[..0]), Params)
  {
    forall k | k in Keys(data)
      ensures k in Params
    {
      ValidKeysAreParams(k);
    }
    WithoutAll(Keys(data), Params);
    assert Keys(kwargs[..0]) == [];
  }

  /** One keyword argument more: the lookups of the loop invariant. */
  lemma MergeLookupStep(data: Document, kwargs: Document, merged: Document, i: nat)
    requires Distinct(kwargs) && i < |kwargs|
    requires forall k :: Get(merged, k) == if k in Keys(kwargs[..i]) then Get(kwargs, k) else Get(data, k)
    ensures forall k :: Get(Put(merged, kwargs[i].0, kwargs[i].1), k) ==
                        if k in Keys(kwargs[..i + 1]) then Get(kwargs, k) else Get(data, k)
  {
    DistinctAt(kwargs, i);
    KeysSnoc(kwargs, i);
  }

  /** One keyword argument more: the names `Environment` does not accept. */
  lemma MergeNamesStep(data: Document, kwargs: Document, merged: Document, i: nat)
    requires Distinct(kwargs) && i < |kwargs|
    requires forall k :: k in Keys(data) ==> k in ValidKeys
    requires forall k :: Get(merged, k) == if k in Keys(kwargs[..i]) then Get(kwargs, k) else Get(data, k)
    requires Without(Keys(merged), Params) == Without(Keys(kwargs[..i]), Params)
    ensures Without(Keys(Put(merged, kwargs[i].0, kwargs[i].1)), Params) == Without(Keys(kwargs[..i + 1]), Params)
  {
    var key := kwargs[i].0;
    DistinctAt(kwargs, i);
    KeysSnoc(kwargs, i);
    WithoutSnoc(Keys(kwargs[..i]), key, Params);
    if key in Keys(merged) {
      assert Get(merged, key).Some?;
      ValidKeysAreParams(key);
    } else {
      WithoutSnoc(Keys(merged), key, Params);
    }
  }

  /** Every valid key names a parameter of `Environment`. */
  lemma ValidKeysAreParams(k: string)
    requires k in ValidKeys
    ensures k in Params
  {
  }

  /** The document after `validate_keys` and the keyword loop holds what
      `Loaded` describes. */
  lemma MergedIsLoaded(doc: Document, validated: Document, data: Document, kwargs: Document)
    requires forall k :: k !in ValidKeys ==> Get(validated, k) == None
    requires forall k :: k in ValidKeys && k != "dependencies" ==> Get(validated, k) == Get(doc, k)
    requires var d := Get(doc, "dependencies");
      Get(validated, "dependencies") == if d.Some? then Some(Repaired(d.value)) else None
    requires forall k :: Get(data, k) == if k in Keys(kwargs) then Get(kwargs, k) else Get(validated, k)
    ensures forall k :: Get(data, k) == Loaded(doc, kwargs, k)
  {
    forall k
      ensures Get(data, k) == Loaded(doc, kwargs, k)
    {
      if k !in Keys(kwargs) && k in ValidKeys && k != "dependencies" {
        assert Get(data, k) == Get(doc, k);
      }
    }
  }

  /** What `Environment(**data)` receives, with the expanded channels. */
  function Arguments(data: Document, channels: seq<string>): Fields {
    Fields(OrNull(Get(data, "name")), OrNull(Get(data, "filename")), channels,
           OrNull(Get(data, "dependencies")), OrNull(Get(data, "prefix")),
           OrNull(Get(data, "variables")), OrNull(Get(data, "subdir")),
           OrNull(Get(data, "requested")), OrNull(Get(data, "explicit")),
           Truthy(OrNull(Get(data, "only_base_fields"))))
  }

  /** The merged data hands `Environment` what `LoadedFields` describes. */
  lemma ArgumentsAreLoaded(doc: Document, kwargs: Document, data: Document, channels: seq<string>)
    requires forall k :: Get(data, k) == Loaded(doc, kwargs, k)
    ensures Arguments(data, channels) == LoadedFields(doc, kwargs, channels)
  {
  }

  /**
   * `from_yaml(text, **kwargs)`, given the decoded document (`None` when
   * the text holds nothing).  `syn` stands for conda's spec helpers and
   * `expandVars` for `os.path.expandvars`.
   */
  method FromYaml(doc: Option<Document>, kwargs: Document, syn: SpecSyntax, expandVars: string -> string)
    returns (r: Result<Environment, LoadError>)
    requires doc.Some? ==> Distinct(doc.value)
    requires Distinct(kwargs)
    ensures var l := Load(doc, kwargs, expandVars);
      (l.Failure? ==> r == Failure(l.error)) &&
      (l.Success? ==>
        r.Success? && fresh(r.value) && fresh(r.value.dependencies) && r.value.Valid() &&
        r.value.Snapshot() == l.value &&
        r.value.dependencies.items == ParseRaw([], l.value.dependencies, syn))
  {
    if doc.None? {
      return Failure(EnvironmentFileEmpty(GetOr(kwargs, "filename", Null)));
    }
    var validated, _ := ValidateKeys(doc.value);
    if validated.Failure? {
      return Failure(validated.error);
    }
    var data := MergeKeywords(validated.value, kwargs);
    MergedIsLoaded(doc.value, validated.value, data, kwargs);
    r := Construct(doc.value, data, kwargs, syn, expandVars);
  }

  /** The rest of `from_yaml` once `data` holds the merged document:
      `_expand_channels(data)`, then `Environment(**data)`. */
  method Construct(ghost doc: Document, data: Document, kwargs: Document, syn: SpecSyntax,
                   expandVars: string -> string)
    returns (r: Result<Environment, LoadError>)
    requires forall k :: Get(data, k) == Loaded(doc, kwargs, k)
    requires Without(Keys(data), Params) == Without(Keys(kwargs), Params)
    ensures var l := Build(doc, kwargs, expandVars);
      (l.Failure? ==> r == Failure(l.error)) &&
      (l.Success? ==>
        r.Success? && fresh(r.value) && fresh(r.value.dependencies) && r.value.Valid() &&
        r.value.Snapshot() == l.value &&
        r.value.dependencies.items == ParseRaw([], l.value.dependencies, syn))
  {
    var channels := ExpandChannels(Get(data, "channels"), expandVars);
    if channels.Failure? {
      return Failure(channels.error);
    }
    var unknown := Without(Keys(data), Params);
    if unknown != [] {
      return Failure(UnexpectedKeyword(unknown[0]));
    }
    var args := Arguments(data, channels.value);
    ArgumentsAreLoaded(doc, kwargs, data, channels.value);
    var env := new Environment(
      args.name, args.filename, Some(args.channels), args.dependencies, args.prefix,
      args.variables, args.subdir, args.requested, args.explicit, args.onlyBaseFields, syn);
    return Success(env);
  }
}
