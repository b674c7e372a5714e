/**
 * `Dependencies` (conda_turbo/env/env.py): a dictionary from ecosystem name
 * ("conda", "pip", ...) to spec lists, rebuilt from the raw dependency list
 * of an environment file.
 */
module EnvDependencies {
  import opened Wrappers
  import opened Dict
  import opened Values

  /** The parsed dictionary: ecosystem name to spec list, in insertion order. */
  type Specs = seq<(string, seq<string>)>

  /** conda's spec helpers, which the model does not re-implement:
      `common.arg2spec` normalises a plain spec, `MatchSpec(s).name` reads
      the package name out of one. */
  datatype SpecSyntax = SpecSyntax(arg2spec: string -> string, nameOf: string -> string)

  /** `d.update(section)`: each key of the section is set in turn. */
  function Merge(d: Specs, section: seq<(string, seq<string>)>): (r: Specs)
    ensures forall k :: k in Keys(d) ==> k in Keys(r)
    ensures Keys(d) <= Keys(r)
    ensures Distinct(d) ==> Distinct(r)
    ensures forall k :: Get(r, k) == if k in Keys(section) then LastIn(section, k) else Get(d, k)
  {
    if section == [] then d
    else
      var init := section[..|section| - 1];
      var last := section[|section| - 1];
      assert Keys(section) == Keys(init) + [last.0];
      Put(Merge(d, init), last.0, last.1)
  }

  /** The value the last occurrence of `k` in a section carries. */
  function LastIn(section: seq<(string, seq<string>)>, k: string): (r: Option<seq<string>>)
    ensures r.Some? <==> k in Keys(section)
  {
    if section == [] then None
    else
      var init := section[..|section| - 1];
      assert Keys(section) == Keys(init) + [section[|section| - 1].0];
      if section[|section| - 1].0 == k then Some(section[|section| - 1].1) else LastIn(init, k)
  }

  /** One iteration of the loop in `parse`: a mapping entry is merged, a
      plain entry is normalised and appended to the conda list. */
  function Step(d: Specs, line: Item, syn: SpecSyntax): (r: Specs)
    requires "conda" in Keys(d)
    ensures "conda" in Keys(r) && Keys(d) <= Keys(r)
    ensures Distinct(d) ==> Distinct(r)
  {
    match line
    case Section(section) => Merge(d, section)
    case Plain(s) => Put(d, "conda", GetOr(d, "conda", []) + [syn.arg2spec(s)])
  }

  /** The loop of `parse` over the first `|lines|` entries. */
  function ParseLines(d: Specs, lines: seq<Item>, syn: SpecSyntax): (r: Specs)
    requires "conda" in Keys(d)
    ensures "conda" in Keys(r) && Keys(d) <= Keys(r)
    ensures Distinct(d) ==> Distinct(r)
  {
    if lines == [] then d
    else Step(ParseLines(d, lines[..|lines| - 1], syn), lines[|lines| - 1], syn)
  }

  /** Some spec of the list is named pip (`MatchSpec(s).name == "pip"`). */
  predicate NamesPip(specs: seq<string>, syn: SpecSyntax) {
    exists i :: 0 <= i < |specs| && syn.nameOf(specs[i]) == "pip"
  }

  /** The tail of `parse`: an empty pip list is deleted, and pip is listed
      under conda when a pip entry was present and conda does not name it. */
  function FixPip(d: Specs, syn: SpecSyntax): (r: Specs)
    requires "conda" in Keys(d) && Distinct(d)
    ensures Distinct(r) && "conda" in Keys(r)
  {
    if "pip" !in Keys(d) then d
    else
      var d1 := if Get(d, "pip") == Some([]) then Remove(d, "pip") else d;
      var conda := GetOr(d1, "conda", []);
      if NamesPip(conda, syn) then d1 else Put(d1, "conda", conda + ["pip"])
  }

  /** `parse` run on a dictionary that already holds `d`. */
  function ParseRaw(d: Specs, raw: Value, syn: SpecSyntax): (r: Specs)
    requires Distinct(d)
    ensures Distinct(r)
    ensures Truthy(raw) ==> "conda" in Keys(r)
  {
    if !Truthy(raw) then d
    else FixPip(ParseLines(Put(d, "conda", []), Elements(raw), syn), syn)
  }

  /** The dictionary subclass: `raw` is the list as written in the file. */
  class Dependencies {
    var raw: Value
    var items: Specs

    /** A well-formed dictionary whose emptiness matches the raw list's:
        `parse` fills it exactly when the raw list is truthy. */
    ghost predicate Valid()
      reads this
    {
      Distinct(items) && (items == [] <==> !Truthy(raw))
    }

    /** `Dependencies(raw)`: an empty dictionary, then `parse`. */
    constructor (raw: Value, syn: SpecSyntax)
      ensures Valid()
      ensures this.raw == raw && items == ParseRaw([], raw, syn)
    {
      this.raw := raw;
      items := [];
      new;
      Parse(syn);
    }

    /** `parse`: rebuild the dictionary from `raw`, on top of what it holds. */
    method Parse(syn: SpecSyntax)
      requires Distinct(items) && (!Truthy(raw) ==> items == [])
      modifies this
      ensures Valid()
      ensures raw == old(raw) && items == ParseRaw(old(items), raw, syn)
    {
      if !Truthy(raw) {
        return;
      }
      items := Put(items, "conda", []);
      ReadLines(Elements(raw), syn);
      FinishPip(syn);
    }

    /** The loop of `parse`: each mapping entry updates the dictionary, each
        plain entry is normalised and appended to the conda list. */
    method ReadLines(lines: seq<Item>, syn: SpecSyntax)
      requires "conda" in Keys(items) && Distinct(items)
      modifies this
      ensures raw == old(raw) && items == ParseLines(old(items), lines, syn)
      ensures "conda" in Keys(items) && Distinct(items)
    {
      var i := 0;
      while i < |lines|
        invariant 0 <= i <= |lines|
        invariant raw == old(raw)
        invariant items == ParseLines(old(items), lines[..i], syn)
      {
        assert lines[..i + 1][..i] == lines[..i];
        match lines[i] {
          case Section(section) =>
            items := Merge(items, section);
          case Plain(s) =>
            items := Put(items, "conda", GetOr(items, "conda", []) + [syn.arg2spec(s)]);
        }
        i := i + 1;
      }
      assert lines[..|lines|] == lines;
    }

    /** The tail of `parse`: drop an empty pip list and list pip under conda. */
    method FinishPip(syn: SpecSyntax)
      requires "conda" in Keys(items) && Distinct(items)
      modifies this
      ensures raw == old(raw) && items == FixPip(old(items), syn)
      ensures "conda" in Keys(items) && Distinct(items)
    {
      if "pip" in Keys(items) {
        if Get(items, "pip") == Some([]) {
          items := Remove(items, "pip");
        }
        var conda := GetOr(items, "conda", []);
        if !NamesPip(conda, syn) {
          items := Put(items, "conda", conda + ["pip"]);
        }
      }
    }

    /** `add`: append to the raw list and parse again.  Only a list has
        `append`; any other raw value raises `AttributeError` (`ok` false). */
    method Add(entry: Item, syn: SpecSyntax) returns (ok: bool)
      requires Valid()
      modifies this
      ensures Valid()
      ensures ok <==> old(raw).Items?
      ensures ok ==> raw == Items(old(raw).items + [entry]) && items == ParseRaw(old(items), raw, syn)
      ensures !ok ==> raw == old(raw) && items == old(items)
    {
      if !raw.Items? {
        return false;
      }
      raw := Items(raw.items + [entry]);
      Parse(syn);
      ok := true;
    }
  }

  /** Some mapping entry of `lines` has the key `k` (looking from the end). */
  predicate SectionHas(lines: seq<Item>, k: string) {
    lines != [] &&
    ((lines[|lines| - 1].Section? && k in Keys(lines[|lines| - 1].entries)) ||
     SectionHas(lines[..|lines| - 1], k))
  }

  /** What the last mapping entry that has `k` gives it. */
  function LastSection(lines: seq<Item>, k: string): (r: Option<seq<string>>)
    ensures r.Some? <==> SectionHas(lines, k)
  {
    if lines == [] then None
    else
      var init := lines[..|lines| - 1];
      var last := lines[|lines| - 1];
      if last.Section? && k in Keys(last.entries) then LastIn(last.entries, k)
      else LastSection(init, k)
  }

  /** The plain entries, normalised by `arg2spec`, in order. */
  function PlainSpecs(lines: seq<Item>, syn: SpecSyntax): (r: seq<string>)
    ensures |r| <= |lines|
  {
    if lines == [] then []
    else
      var last := lines[|lines| - 1];
      PlainSpecs(lines[..|lines| - 1], syn) + if last.Plain? then [syn.arg2spec(last.spec)] else []
  }

  /** Every key other than conda ends up with the value of the last mapping
      entry that sets it. */
  lemma {:induction false} ParseLinesGet(d: Specs, lines: seq<Item>, syn: SpecSyntax, k: string)
    requires "conda" in Keys(d)
    requires k != "conda"
    ensures Get(ParseLines(d, lines, syn), k) ==
      if SectionHas(lines, k) then LastSection(lines, k) else Get(d, k)
  {
    if lines != [] {
      var init := lines[..|lines| - 1];
      ParseLinesGet(d, init, syn, k);
    }
  }

  /** Without a `conda:` mapping entry, the conda list is what it was
      followed by the normalised plain entries. */
  lemma {:induction false} ParseLinesConda(d: Specs, lines: seq<Item>, syn: SpecSyntax)
    requires "conda" in Keys(d)
    requires !SectionHas(lines, "conda")
    ensures Get(ParseLines(d, lines, syn), "conda") == Some(GetOr(d, "conda", []) + PlainSpecs(lines, syn))
  {
    if lines == [] {
      assert GetOr(d, "conda", []) + [] == GetOr(d, "conda", []);
    } else {
      var init := lines[..|lines| - 1];
      var last := lines[|lines| - 1];
      ParseLinesConda(d, init, syn);
      var before := ParseLines(d, init, syn);
      var base := GetOr(d, "conda", []);
      var pre := PlainSpecs(init, syn);
      assert GetOr(before, "conda", []) == base + pre;
      match last {
        case Section(section) =>
          assert "conda" !in Keys(section) by {
            assert lines[|lines| - 1] == last;
          }
          assert Get(Merge(before, section), "conda") == Get(before, "conda");
          assert PlainSpecs(lines, syn) == pre + [];
          assert pre + [] == pre;
        case Plain(spec) =>
          var x := syn.arg2spec(spec);
          assert Get(ParseLines(d, lines, syn), "conda") == Some((base + pre) + [x]);
          assert PlainSpecs(lines, syn) == pre + [x];
          assert (base + pre) + [x] == base + (pre + [x]);
      }
    }
  }

  /** The conda list after the tail of `parse`. */
  lemma FixPipConda(d: Specs, syn: SpecSyntax)
    requires "conda" in Keys(d) && Distinct(d)
    ensures var c := GetOr(d, "conda", []);
      Get(FixPip(d, syn), "conda") == Some(c + if "pip" in Keys(d) && !NamesPip(c, syn) then ["pip"] else [])
  {
    var c := GetOr(d, "conda", []);
    if "pip" in Keys(d) {
      var d1 := if Get(d, "pip") == Some([]) then Remove(d, "pip") else d;
      assert Get(d1, "conda") == Get(d, "conda");
      assert GetOr(d1, "conda", []) == c;
      if NamesPip(c, syn) {
        assert FixPip(d, syn) == d1;
        assert c + [] == c;
      } else {
        assert FixPip(d, syn) == Put(d1, "conda", c + ["pip"]);
      }
    } else {
      assert c + [] == c;
    }
  }

  /** An empty or absent raw list leaves the fresh dictionary empty; any
      other raw value yields at least the conda entry. */
  lemma ParsedEmptyIff(raw: Value, syn: SpecSyntax)
    ensures ParseRaw([], raw, syn) == [] <==> !Truthy(raw)
  {
    if Truthy(raw) {
      var r := ParseRaw([], raw, syn);
      assert "conda" in Keys(r);
    }
  }

  /** The conda entry is the first key of a fresh parse. */
  lemma ParsedCondaFirst(raw: Value, syn: SpecSyntax)
    requires Truthy(raw)
    ensures var r := ParseRaw([], raw, syn); r != [] && r[0].0 == "conda"
  {
    var start := Put([], "conda", []);
    assert Keys(start) == ["conda"];
    var d := ParseLines(start, Elements(raw), syn);
    assert Keys(d)[0] == "conda";
    if "pip" in Keys(d) {
      var d1 := if Get(d, "pip") == Some([]) then Remove(d, "pip") else d;
      assert d1[0].0 == "conda";
      var conda := GetOr(d1, "conda", []);
      assert Keys(Put(d1, "conda", conda + ["pip"]))[0] == Keys(d1)[0];
    }
  }

  /** Later mapping entries win: every key other than conda and pip holds
      the value of the last mapping entry that sets it. */
  lemma ParsedLaterWins(raw: Value, syn: SpecSyntax, k: string)
    requires Truthy(raw)
    requires k != "conda" && k != "pip"
    ensures Get(ParseRaw([], raw, syn), k) == LastSection(Elements(raw), k)
  {
    var start := Put([], "conda", []);
    ParseLinesGet(start, Elements(raw), syn, k);
  }

  /** pip holds the last pip list written, unless that list is empty, in
      which case the key is gone. */
  lemma ParsedPip(raw: Value, syn: SpecSyntax)
    requires Truthy(raw)
    ensures var v := LastSection(Elements(raw), "pip");
      Get(ParseRaw([], raw, syn), "pip") == if v == Some([]) then None else v
  {
    var start := Put([], "conda", []);
    ParseLinesGet(start, Elements(raw), syn, "pip");
  }

  /** Without a `conda:` mapping entry, conda lists the normalised plain
      entries in order, followed by pip when a pip entry was present and no
      plain spec is named pip. */
  lemma ParsedConda(raw: Value, syn: SpecSyntax)
    requires Truthy(raw)
    requires !SectionHas(Elements(raw), "conda")
    ensures var plain := PlainSpecs(Elements(raw), syn);
      Get(ParseRaw([], raw, syn), "conda") ==
        Some(plain + if SectionHas(Elements(raw), "pip") && !NamesPip(plain, syn) then ["pip"] else [])
  {
    var start := Put([], "conda", []);
    var lines := Elements(raw);
    ParseLinesConda(start, lines, syn);
    ParseLinesGet(start, lines, syn, "pip");
    var d := ParseLines(start, lines, syn);
    var plain := PlainSpecs(lines, syn);
    assert [] + plain == plain;
    assert GetOr(d, "conda", []) == plain;
    assert "pip" in Keys(d) <==> SectionHas(lines, "pip");
    FixPipConda(d, syn);
    assert ParseRaw([], raw, syn) == FixPip(d, syn);
  }
}
