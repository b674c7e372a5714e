/**
 * The pure half of `from_environment` (conda_turbo/env/env.py): installed
 * package records grouped by package type, sorted by name and rendered as
 * spec strings, and the `url#md5` list.
 */
module EnvRecords {
  import opened Sorting
  import opened Seqs
  import opened Values
  import opened SpecText

  /** conda's `PackageType`; `Untyped` is a record whose type is `None`. */
  datatype PackageType =
    | Untyped
    | NoarchGeneric
    | NoarchPython
    | VirtualPrivateEnv
    | VirtualPythonWheel
    | VirtualPythonEggManageable
    | VirtualPythonEggUnmanageable
    | VirtualPythonEggLink
    | VirtualSystem

  /** An installed package record, as far as the export reads it.
      `channel` is the canonical name of the channel it came from. */
  datatype PackageRecord = PackageRecord(
    name: string,
    version: string,
    build: string,
    packageType: PackageType,
    channel: string,
    url: string,
    md5: string)

  /** The records of one package type, in their original order
      (`groupby_to_dict(...).get(t, ())`). */
  function OfType(precs: seq<PackageRecord>, t: PackageType): (r: seq<PackageRecord>)
    ensures forall x :: x in r <==> x in precs && x.packageType == t
  {
    if precs == [] then []
    else (if precs[0].packageType == t then [precs[0]] else []) + OfType(precs[1..], t)
  }

  /** `sorted` ordering: no record's name is below an earlier one's. */
  predicate SortedByName(s: seq<PackageRecord>) {
    forall i, j :: 0 <= i < j < |s| ==> !Less(s[j].name, s[i].name)
  }

  /** The records named `n`, in order: what stability is about. */
  function Named(s: seq<PackageRecord>, n: string): seq<PackageRecord> {
    if s == [] then []
    else (if s[0].name == n then [s[0]] else []) + Named(s[1..], n)
  }

  /** Put `x` before the first record whose name is not below its own. */
  function Insert(x: PackageRecord, t: seq<PackageRecord>): (r: seq<PackageRecord>)
    ensures multiset(r) == multiset(t) + multiset{x}
  {
    if t == [] || !Less(t[0].name, x.name) then [x] + t
    else
      assert t == [t[0]] + t[1..];
      [t[0]] + Insert(x, t[1..])
  }

  /** Inserting into a sorted list keeps it sorted. */
  lemma {:induction false} InsertSorted(x: PackageRecord, t: seq<PackageRecord>)
    requires SortedByName(t)
    ensures SortedByName(Insert(x, t))
  {
    if t == [] || !Less(t[0].name, x.name) {
      forall j | 0 <= j < |t| ensures !Less(t[j].name, x.name) {
        if j > 0 {
          NotBelowTransitive(x.name, t[0].name, t[j].name);
        }
      }
    } else {
      InsertSorted(x, t[1..]);
      var r := Insert(x, t[1..]);
      forall j | 0 <= j < |r| ensures !Less(r[j].name, t[0].name) {
        assert r[j] in multiset(r);
        if r[j] == x {
          LessTotal(t[0].name, x.name);
          if Less(x.name, t[0].name) {
            LessTransitive(x.name, t[0].name, x.name);
            LessIrreflexive(x.name);
          }
        } else {
          assert r[j] in t[1..];
        }
      }
    }
  }

  /** `x` goes before every record of the same name already there. */
  lemma {:induction false} InsertStable(x: PackageRecord, t: seq<PackageRecord>, n: string)
    requires SortedByName(t)
    ensures Named(Insert(x, t), n) == (if x.name == n then [x] else []) + Named(t, n)
  {
    if t == [] || !Less(t[0].name, x.name) {
      assert ([x] + t)[1..] == t;
    } else {
      InsertStable(x, t[1..], n);
      var r := Insert(x, t[1..]);
      assert ([t[0]] + r)[1..] == r;
      LessIrreflexive(x.name);
      assert t[0].name != x.name;
      var head := if t[0].name == n then [t[0]] else [];
      var mine := if x.name == n then [x] else [];
      assert Named(t, n) == head + Named(t[1..], n);
      assert Named(Insert(x, t), n) == head + (mine + Named(t[1..], n));
      assert head == [] || mine == [];
    }
  }

  /** `sorted(s, key=name)`, as an insertion sort. */
  function SortByName(s: seq<PackageRecord>): (r: seq<PackageRecord>)
    ensures multiset(r) == multiset(s)
  {
    if s == [] then []
    else
      assert s == [s[0]] + s[1..];
      Insert(s[0], SortByName(s[1..]))
  }

  /** The result is ordered by name. */
  lemma {:induction false} SortByNameSorted(s: seq<PackageRecord>)
    ensures SortedByName(SortByName(s))
  {
    if s != [] {
      SortByNameSorted(s[1..]);
      InsertSorted(s[0], SortByName(s[1..]));
    }
  }

  /** The sort is stable: records with the same name keep their order. */
  lemma {:induction false} SortByNameStable(s: seq<PackageRecord>, n: string)
    ensures Named(SortByName(s), n) == Named(s, n)
  {
    if s != [] {
      SortByNameStable(s[1..], n);
      SortByNameSorted(s[1..]);
      InsertStable(s[0], SortByName(s[1..]), n);
    }
  }

  /** How many times `x` occurs among the records of type `t`. */
  lemma {:induction false} OfTypeCount(precs: seq<PackageRecord>, t: PackageType, x: PackageRecord)
    ensures multiset(OfType(precs, t))[x] == if x.packageType == t then multiset(precs)[x] else 0
  {
    if precs != [] {
      OfTypeCount(precs[1..], t, x);
      assert precs == [precs[0]] + precs[1..];
    }
  }

  /** The package types `from_environment` writes as conda specs. */
  predicate IsCondaType(t: PackageType) {
    t == Untyped || t == NoarchGeneric || t == NoarchPython
  }

  /** The package types `from_environment` writes as pip specs. */
  predicate IsPipType(t: PackageType) {
    t == VirtualPythonWheel || t == VirtualPythonEggManageable || t == VirtualPythonEggUnmanageable
  }

  /** `conda_precs`: the records of the three conda types, by name. */
  function CondaRecords(precs: seq<PackageRecord>): (r: seq<PackageRecord>)
    ensures SortedByName(r)
    ensures forall x :: x in r ==> x in precs && IsCondaType(x.packageType)
  {
    var g := OfType(precs, Untyped) + OfType(precs, NoarchGeneric) + OfType(precs, NoarchPython);
    SortByNameSorted(g);
    assert forall x :: x in SortByName(g) ==> x in multiset(g);
    SortByName(g)
  }

  /** `pip_precs`: the wheel and egg records, by name. */
  function PipRecords(precs: seq<PackageRecord>): (r: seq<PackageRecord>)
    ensures SortedByName(r)
    ensures forall x :: x in r ==> x in precs && IsPipType(x.packageType)
  {
    var g := OfType(precs, VirtualPythonWheel) + OfType(precs, VirtualPythonEggManageable)
      + OfType(precs, VirtualPythonEggUnmanageable);
    SortByNameSorted(g);
    assert forall x :: x in SortByName(g) ==> x in multiset(g);
    SortByName(g)
  }

  /** The conda group holds every record of the three conda types, as often
      as it is installed, and nothing else, sorted by name. */
  lemma CondaRecordsAreTheCondaGroup(precs: seq<PackageRecord>, x: PackageRecord)
    ensures SortedByName(CondaRecords(precs))
    ensures multiset(CondaRecords(precs))[x] == if IsCondaType(x.packageType) then multiset(precs)[x] else 0
  {
    var g := OfType(precs, Untyped) + OfType(precs, NoarchGeneric) + OfType(precs, NoarchPython);
    SortByNameSorted(g);
    OfTypeCount(precs, Untyped, x);
    OfTypeCount(precs, NoarchGeneric, x);
    OfTypeCount(precs, NoarchPython, x);
  }

  /** The pip group holds every wheel and egg record, and nothing else,
      sorted by name. */
  lemma PipRecordsAreThePipGroup(precs: seq<PackageRecord>, x: PackageRecord)
    ensures SortedByName(PipRecords(precs))
    ensures multiset(PipRecords(precs))[x] == if IsPipType(x.packageType) then multiset(precs)[x] else 0
  {
    var g := OfType(precs, VirtualPythonWheel) + OfType(precs, VirtualPythonEggManageable)
      + OfType(precs, VirtualPythonEggUnmanageable);
    SortByNameSorted(g);
    OfTypeCount(precs, VirtualPythonWheel, x);
    OfTypeCount(precs, VirtualPythonEggManageable, x);
    OfTypeCount(precs, VirtualPythonEggUnmanageable, x);
  }

  /** `"=".join((name, version))`, or with the build string appended. */
  function CondaSpec(r: PackageRecord, noBuilds: bool): string {
    if noBuilds then r.name + "=" + r.version else r.name + "=" + r.version + "=" + r.build
  }

  /** `f"{name}=={version}"`. */
  function PipSpec(r: PackageRecord): string {
    r.name + "==" + r.version
  }

  /** `f"{url}#{md5}"`. */
  function Locator(r: PackageRecord): string {
    r.url + "#" + r.md5
  }

  /** The dependency list of an export: the conda specs, then one
      `{pip: [...]}` entry when there is a pip record. */
  function RenderedDependencies(precs: seq<PackageRecord>, noBuilds: bool): (deps: seq<Item>)
  {
    Render(CondaRecords(precs), PipRecords(precs), noBuilds)
  }

  /** The dependency list for grouped and sorted records. */
  function Render(conda: seq<PackageRecord>, pip: seq<PackageRecord>, noBuilds: bool): (deps: seq<Item>)
    ensures |deps| == |conda| + (if pip == [] then 0 else 1)
    ensures forall i :: 0 <= i < |conda| ==> deps[i] == Plain(CondaSpec(conda[i], noBuilds))
    ensures pip != [] ==>
      var last := deps[|conda|];
      last.Section? && |last.entries| == 1 && last.entries[0].0 == "pip" &&
      |last.entries[0].1| == |pip| && forall i :: 0 <= i < |pip| ==> last.entries[0].1[i] == PipSpec(pip[i])
  {
    seq(|conda|, i requires 0 <= i < |conda| => Plain(CondaSpec(conda[i], noBuilds)))
      + if pip == [] then []
        else [Section([("pip", seq(|pip|, i requires 0 <= i < |pip| => PipSpec(pip[i])))])]
  }

  /** `explicit`: one locator per record, in graph order. */
  function ExplicitLocators(precs: seq<PackageRecord>): (urls: seq<string>)
    ensures |urls| == |precs|
  {
    seq(|precs|, i requires 0 <= i < |precs| => Locator(precs[i]))
  }

  /** When no field holds `=`, splitting a conda spec on `=` gives the
      fields back. */
  lemma CondaSpecSplits(r: PackageRecord, noBuilds: bool)
    requires '=' !in r.name && '=' !in r.version && '=' !in r.build
    ensures SplitOn(CondaSpec(r, noBuilds), '=') ==
      if noBuilds then [r.name, r.version] else [r.name, r.version, r.build]
  {
    SplitOnFree(r.version, '=');
    SplitOnAt(r.name, r.version, '=');
    SplitOnFree(r.build, '=');
    SplitOnAt(r.version, r.build, '=');
    SplitOnAt(r.name, r.version + "=" + r.build, '=');
    assert r.name + "=" + r.version == r.name + ['='] + r.version;
    assert r.name + "=" + r.version + "=" + r.build == r.name + ['='] + (r.version + ['='] + r.build);
  }

  /** A locator splits on `#` into the URL and the checksum. */
  lemma LocatorSplits(r: PackageRecord)
    requires '#' !in r.url && '#' !in r.md5
    ensures SplitOn(Locator(r), '#') == [r.url, r.md5]
  {
    SplitOnFree(r.md5, '#');
    SplitOnAt(r.url, r.md5, '#');
    assert r.url + "#" + r.md5 == r.url + ['#'] + r.md5;
  }
}
