/**
 * `validate_keys` (conda_turbo/env/env.py): drop the top-level keys an
 * environment file may not carry, then make sure pip itself is listed when
 * the file has a `pip:` section.
 */
module EnvKeys {
  import opened Wrappers
  import opened Dict
  import opened Values
  import opened SpecText

  /** `VALID_KEYS`. */
  const ValidKeys: seq<string> :=
    ["name", "dependencies", "prefix", "channels", "variables", "subdir", "requested", "explicit"]

  /** Why loading an environment file fails. */
  datatype LoadError =
    | EnvironmentFileEmpty(filename: Value)   // the document decoded to nothing
    | NotIterable(key: string)                // a `for` loop met `None` (Python's TypeError)
    | ChannelNotText(key: string)             // `expandvars` was handed a mapping (TypeError)
    | UnexpectedKeyword(key: string)          // `Environment(**data)` got an unknown name

  /** The keys of `data` that are not valid, in order of appearance. */
  function InvalidKeys(data: Document): (ks: seq<string>)
    ensures forall k :: k in ks <==> k in Keys(data) && k !in ValidKeys
  {
    if data == [] then []
    else if data[0].0 in ValidKeys then InvalidKeys(data[1..])
    else [data[0].0] + InvalidKeys(data[1..])
  }

  /** Some plain entry names pip (`lists_pip`); a bare `pip` entry does. */
  predicate ListsPip(deps: seq<Item>): (b: bool)
    ensures forall i :: 0 <= i < |deps| && deps[i] == Plain("pip") ==> b
  {
    PipNamesPip();
    exists i :: 0 <= i < |deps| && deps[i].Plain? && IsPip(deps[i].spec)
  }

  /** Some mapping entry has a `pip` key. */
  predicate HasPipSection(deps: seq<Item>) {
    exists i :: 0 <= i < |deps| && deps[i].Section? && "pip" in Keys(deps[i].entries)
  }

  /** The dependency list after the pip repair: once it has a `pip:`
      section, pip itself is listed; a list that already names pip is left
      alone. */
  function RepairPip(deps: seq<Item>): (r: seq<Item>)
    ensures HasPipSection(deps) ==> ListsPip(r)
    ensures ListsPip(deps) ==> r == deps
  {
    if HasPipSection(deps) && !ListsPip(deps) then
      PipNamesPip();
      var r := [Plain("pip")] + deps;
      assert r[0].Plain? && IsPip(r[0].spec);
      r
    else deps
  }

  /** The bare spec `pip` names pip. */
  lemma PipNamesPip()
    ensures IsPip("pip")
  {
    assert SplitColons(LeadingToken("pip")) == ["pip"] by {
      assert LeadingToken("pip") == "pip" by {
        assert LeadingToken("") == "";
        assert "p"[1..] == "" && "ip"[1..] == "p" && "pip"[1..] == "ip";
      }
    }
  }

  /** The `dependencies` value after the repair; only a list can hold a section. */
  function Repaired(v: Value): Value {
    if v.Items? then Items(RepairPip(v.items)) else v
  }

  /** One key more: it is listed exactly when it is not valid. */
  lemma InvalidKeysStep(data: Document, i: nat)
    requires i < |data|
    ensures InvalidKeys(data[..i + 1]) ==
      InvalidKeys(data[..i]) + (if data[i].0 in ValidKeys then [] else [data[i].0])
  {
    assert data[..i + 1] == data[..i] + [data[i]];
    InvalidKeysAppend(data[..i], [data[i]]);
    assert [data[i]][1..] == [];
  }

  /** The keys of two documents in a row are listed in that order. */
  lemma {:induction false} InvalidKeysAppend(a: Document, b: Document)
    ensures InvalidKeys(a + b) == InvalidKeys(a) + InvalidKeys(b)
  {
    if a == [] {
      assert a + b == b;
    } else {
      assert (a + b)[0] == a[0];
      assert (a + b)[1..] == a[1..] + b;
      InvalidKeysAppend(a[1..], b);
    }
  }

  /** The first half of `validate_keys`: pop every invalid key from a copy of `data`. */
  method DropInvalidKeys(data: Document) returns (newData: Document, invalid: seq<string>)
    requires Distinct(data)
    ensures invalid == InvalidKeys(data)
    ensures Distinct(newData)
    ensures forall k :: k in Keys(newData) <==> k in Keys(data) && k in ValidKeys
    ensures forall k :: Get(newData, k) == if k in ValidKeys then Get(data, k) else None
  {
    newData := data;
    invalid := [];
    var i := 0;
    while i < |data|
      invariant 0 <= i <= |data|
      invariant invalid == InvalidKeys(data[..i])
      invariant Distinct(newData)
      invariant forall k :: k in Keys(newData) <==> k in Keys(data) && k !in invalid
      invariant forall k :: Get(newData, k) == if k in invalid then None else Get(data, k)
    {
      var key := data[i].0;
      InvalidKeysStep(data, i);
      if key !in ValidKeys {
        invalid := invalid + [key];
        newData := Remove(newData, key);
      }
      i := i + 1;
    }
    assert data[..|data|] == data;
  }

  /**
   * `validate_keys(data, kwargs)`.  `invalid` lists the keys the warning
   * names.  A `dependencies: null` entry makes the pip check iterate `None`.
   */
  method ValidateKeys(data: Document) returns (r: Result<Document, LoadError>, invalid: seq<string>)
    requires Distinct(data)
    ensures invalid == InvalidKeys(data)
    ensures r.Failure? <==> Get(data, "dependencies") == Some(Null)
    ensures r.Failure? ==> r.error == NotIterable("dependencies")
    ensures r.Success? ==> Distinct(r.value)
    ensures r.Success? ==> forall k :: k in Keys(r.value) <==> k in Keys(data) && k in ValidKeys
    ensures r.Success? ==> forall k :: k !in ValidKeys ==> Get(r.value, k) == None
    ensures r.Success? ==> forall k :: k in ValidKeys && k != "dependencies" ==> Get(r.value, k) == Get(data, k)
    ensures r.Success? ==>
      var d := Get(data, "dependencies");
      Get(r.value, "dependencies") == if d.Some? then Some(Repaired(d.value)) else None
  {
    var newData;
    newData, invalid := DropInvalidKeys(data);
    var deps := GetOr(data, "dependencies", Items([]));
    if deps.Null? {
      return Failure(NotIterable("dependencies")), invalid;
    }
    newData := InsertPip(newData, deps);
    r := Success(newData);
  }

  /** The second half of `validate_keys`: the first mapping entry with a
      `pip` key, when no plain entry names pip, puts `pip` at the front of
      the dependency list. */
  method InsertPip(data: Document, deps: Value) returns (newData: Document)
    requires !deps.Null? && Distinct(data)
    ensures Distinct(newData)
    ensures forall k :: k in Keys(newData) <==> k in Keys(data) || (k == "dependencies" && Repaired(deps) != deps)
    ensures forall k :: k != "dependencies" ==> Get(newData, k) == Get(data, k)
    ensures Get(newData, "dependencies") ==
      if Repaired(deps) != deps then Some(Repaired(deps)) else Get(data, "dependencies")
  {
    newData := data;
    var elems := Elements(deps);
    var listsPip := ListsPip(elems);
    var j := 0;
    while j < |elems|
      invariant 0 <= j <= |elems|
      invariant newData == data
      invariant listsPip || !HasPipSection(elems[..j])
    {
      assert elems[..j + 1] == elems[..j] + [elems[j]];
      var dep := elems[j];
      if dep.Section? && "pip" in Keys(dep.entries) && !listsPip {
        newData := Put(newData, "dependencies", Items([Plain("pip")] + deps.items));
        break;
      }
      j := j + 1;
    }
    assert j == |elems| ==> elems[..j] == elems;
    RepairedShape(deps);
    InsertedPip(data, deps, newData);
  }

  /** What `InsertPip` leaves in the document, given that it writes the
      repaired list exactly when the repair changes it. */
  lemma InsertedPip(data: Document, deps: Value, newData: Document)
    requires !deps.Null? && Distinct(data)
    requires newData == if Repaired(deps) != deps then Put(data, "dependencies", Repaired(deps)) else data
    ensures Distinct(newData)
    ensures forall k :: k in Keys(newData) <==> k in Keys(data) || (k == "dependencies" && Repaired(deps) != deps)
    ensures forall k :: k != "dependencies" ==> Get(newData, k) == Get(data, k)
    ensures Get(newData, "dependencies") ==
      if Repaired(deps) != deps then Some(Repaired(deps)) else Get(data, "dependencies")
  {
  }

  /** The `dependencies` value changes exactly when it is a list the repair
      extends, and then by one `pip` at the front. */
  lemma RepairedShape(deps: Value)
    requires !deps.Null?
    ensures Repaired(deps) != deps <==> HasPipSection(Elements(deps)) && !ListsPip(Elements(deps))
    ensures Repaired(deps) != deps ==> deps.Items? && Repaired(deps) == Items([Plain("pip")] + deps.items)
  {
    if !deps.Items? {
      assert !HasPipSection(Elements(deps));
    } else {
      assert RepairPip(deps.items) != deps.items ==> Items(RepairPip(deps.items)) != deps;
    }
  }

  /** The repair inserts exactly one `pip`, at the front, and only when a
      `pip:` section exists and no plain entry names pip. */
  lemma RepairPipShape(deps: seq<Item>)
    ensures RepairPip(deps) == deps || (RepairPip(deps) == [Plain("pip")] + deps)
    ensures RepairPip(deps) != deps <==> HasPipSection(deps) && !ListsPip(deps)
  {
  }

  /** Repairing twice inserts nothing more. */
  lemma RepairPipIdempotent(deps: seq<Item>)
    ensures RepairPip(RepairPip(deps)) == RepairPip(deps)
  {
  }

  /** A channel-qualified pip (`conda-forge::pip>=20`) names pip. */
  lemma QualifiedPipCounts(channel: string, rest: string)
    requires forall i :: 0 <= i < |channel| ==> !IsSeparator(channel[i]) && channel[i] != ':'
    requires rest == [] || IsSeparator(rest[0])
    ensures IsPip(channel + "::pip" + rest)
  {
    var token := channel + "::pip";
    assert token == channel + "::" + "pip";
    LeadingTokenOf(token, rest);
    SplitAtColons(channel, "pip");
    SplitWithoutColons("pip");
  }

  /** A bare name other than `pip` (`pipx`, `python-pip`) does not. */
  lemma OtherNameDoesNotCount(name: string, rest: string)
    requires forall i :: 0 <= i < |name| ==> !IsSeparator(name[i]) && name[i] != ':'
    requires rest == [] || IsSeparator(rest[0])
    requires name != "pip"
    ensures !IsPip(name + rest)
  {
    LeadingTokenOf(name, rest);
    SplitWithoutColons(name);
  }
}
