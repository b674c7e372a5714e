/**
 * `from_environment` (conda_turbo/env/env.py): an `Environment` describing
 * what is installed in a prefix.  What conda knows about the prefix and its
 * configuration comes in as values.
 */
module PrefixExport {
  import opened Wrappers
  import opened Dict
  import opened Values
  import opened Seqs
  import opened EnvDependencies
  import opened EnvRecords
  import opened Env

  /** What `from_environment` reads about a prefix: the installed records in
      `PrefixGraph` order, the environment variables stored in the prefix,
      and the history's requested specs, each already turned into a string. */
  datatype PrefixState = PrefixState(records: seq<PackageRecord>, variables: Value, requested: seq<string>)

  /** `context.channels` and `context.subdir`. */
  datatype Context = Context(channels: seq<string>, subdir: string)

  /** The channel canonical names of the records, in order. */
  function ChannelsOf(precs: seq<PackageRecord>): (cs: seq<string>)
    ensures |cs| == |precs| && forall i :: 0 <= i < |precs| ==> cs[i] == precs[i].channel
  {
    seq(|precs|, i requires 0 <= i < |precs| => precs[i].channel)
  }

  /** The channels of one record more. */
  lemma ChannelsOfSnoc(precs: seq<PackageRecord>, i: nat)
    requires i < |precs|
    ensures ChannelsOf(precs[..i + 1]) == ChannelsOf(precs[..i]) + [precs[i].channel]
  {
    assert ChannelsOf(precs[..i + 1])[i] == precs[i].channel;
  }

  /** The new names of `names`, latest first, ahead of `start`. */
  function Prepended(start: seq<string>, names: seq<string>): seq<string> {
    Reverse(Without(Unique(names), start)) + start
  }

  /** The channel list after the loop that puts every record's channel not
      yet listed at the front. */
  function RecordChannels(start: seq<string>, precs: seq<PackageRecord>): (r: seq<string>)
    ensures IsSuffix(start, r)
    ensures forall c :: c in r <==> c in start || c in ChannelsOf(precs)
    ensures var added := r[..|r| - |start|];
      NoDups(added) && forall c :: c in added <==> c in ChannelsOf(precs) && c !in start
    ensures NoDups(start) ==> NoDups(r)
  {
    var w := Without(Unique(ChannelsOf(precs)), start);
    ReverseMembers(w);
    ReverseNoDups(w);
    var r := Prepended(start, ChannelsOf(precs));
    assert r[..|r| - |start|] == Reverse(w);
    assert r[|r| - |start|..] == start;
    assert NoDups(start) ==> NoDups(r) by {
      if NoDups(start) {
        NoDupsConcat(Reverse(w), start);
      }
    }
    r
  }

  /** One more name: one already listed changes nothing, a new one goes to
      the front. */
  lemma PrependedSnoc(start: seq<string>, names: seq<string>, c: string)
    ensures var before := Prepended(start, names);
      Prepended(start, names + [c]) == if c in before then before else [c] + before
  {
    var u := Unique(names);
    UniqueSnoc(names, c);
    var w := Without(u, start);
    ReverseMembers(w);
    if c !in u {
      WithoutSnoc(u, c, start);
      if c !in start {
        ReverseSnoc(w, c);
        ConcatAssoc([c], Reverse(w), start);
      }
    }
  }

  /** The channel loop of `from_environment`, inserting at index 0. */
  method PrependRecordChannels(start: seq<string>, precs: seq<PackageRecord>) returns (channels: seq<string>)
    ensures channels == RecordChannels(start, precs)
  {
    channels := start;
    assert ChannelsOf(precs[..0]) == [];
    var i := 0;
    while i < |precs|
      invariant 0 <= i <= |precs|
      invariant channels == Prepended(start, ChannelsOf(precs[..i]))
    {
      var name := precs[i].channel;
      ChannelsOfSnoc(precs, i);
      PrependedSnoc(start, ChannelsOf(precs[..i]), name);
      if name !in channels {
        channels := [name] + channels;
      }
      i := i + 1;
    }
    assert precs[..|precs|] == precs;
    assert channels == Prepended(start, ChannelsOf(precs));
  }

  /** The attributes `from_environment` gives the environment it builds. */
  function Exported(name: Value, prefix: string, noBuilds: bool, ignoreChannels: bool,
                    fromHistory: bool, onlyBaseFields: bool, st: PrefixState, ctx: Context): (f: Fields)
    ensures f.name == name && f.filename == Null && f.prefix == Text(prefix)
    ensures f.variables == st.variables && f.onlyBaseFields == onlyBaseFields
    ensures IsSuffix(ctx.channels, f.channels)
    ensures forall c :: c in f.channels ==> c in ctx.channels || c in ChannelsOf(CondaRecords(st.records))
  {
    if fromHistory then
      Fields(name, Null, ctx.channels, TextList(st.requested), Text(prefix), st.variables,
             Null, Null, Null, onlyBaseFields)
    else
      Fields(name, Null,
             if ignoreChannels then ctx.channels else RecordChannels(ctx.channels, CondaRecords(st.records)),
             Items(RenderedDependencies(st.records, noBuilds)), Text(prefix), st.variables,
             Text(ctx.subdir), TextList(st.requested), TextList(ExplicitLocators(st.records)),
             onlyBaseFields)
  }

  /**
   * `from_environment(name, prefix, no_builds, ignore_channels,
   * from_history, only_base_fields)`.  `st` is what `PrefixData`, `History`
   * and `PrefixGraph` report for the prefix.
   */
  method FromEnvironment(name: Value, prefix: string, noBuilds: bool, ignoreChannels: bool,
                         fromHistory: bool, onlyBaseFields: bool, st: PrefixState, ctx: Context,
                         syn: SpecSyntax)
    returns (env: Environment)
    ensures fresh(env) && fresh(env.dependencies) && env.Valid()
    ensures env.Snapshot() == Exported(name, prefix, noBuilds, ignoreChannels, fromHistory,
                                       onlyBaseFields, st, ctx)
    ensures env.dependencies.items == ParseRaw([], env.dependencies.raw, syn)
  {
    var variables := st.variables;
    var requested := st.requested;
    if fromHistory {
      var deps := st.requested;
      env := new Environment(name, Null, Some(ctx.channels), TextList(deps), Text(prefix),
                             variables, Null, Null, Null, onlyBaseFields, syn);
      return;
    }
    var precs := st.records;
    var conda := CondaRecords(precs);
    var dependencies := RenderedDependencies(precs, noBuilds);
    var channels := ctx.channels;
    if !ignoreChannels {
      channels := PrependRecordChannels(ctx.channels, conda);
    }
    var explicit := ExplicitLocators(precs);
    env := new Environment(name, Null, Some(channels), Items(dependencies), Text(prefix),
                           variables, Text(ctx.subdir), TextList(requested), TextList(explicit),
                           onlyBaseFields, syn);
  }

  /** With `from_history` the environment lists the requested specs under
      the configured channels and leaves all three additional fields unset;
      without it, all three are set. */
  lemma ExportedHistory(name: Value, prefix: string, noBuilds: bool, ignoreChannels: bool,
                        fromHistory: bool, onlyBaseFields: bool, st: PrefixState, ctx: Context)
    ensures var f := Exported(name, prefix, noBuilds, ignoreChannels, fromHistory, onlyBaseFields, st, ctx);
      f.onlyBaseFields == onlyBaseFields &&
      (HasAdditionalFields(f) <==> !fromHistory) &&
      (fromHistory ==>
         f.channels == ctx.channels && f.dependencies == TextList(st.requested) &&
         f.subdir == Null && f.requested == Null && f.explicit == Null) &&
      (!fromHistory ==>
         f.requested == TextList(st.requested) &&
         f.dependencies == Items(RenderedDependencies(st.records, noBuilds)) &&
         f.subdir == Text(ctx.subdir))
  {
    var f := Exported(name, prefix, noBuilds, ignoreChannels, fromHistory, onlyBaseFields, st, ctx);
    if fromHistory {
      assert f.subdir == Null && f.requested == Null && f.explicit == Null;
    } else {
      assert f.subdir.Text? && f.requested.Items? && f.explicit.Items?;
    }
  }

  /** The configured channels always close the list; a name is added at
      most once, only for an installed conda record, and only with channel
      lookup on. */
  lemma ExportedChannels(name: Value, prefix: string, noBuilds: bool, ignoreChannels: bool,
                         fromHistory: bool, onlyBaseFields: bool, st: PrefixState, ctx: Context)
    ensures var f := Exported(name, prefix, noBuilds, ignoreChannels, fromHistory, onlyBaseFields, st, ctx);
      var conda := ChannelsOf(CondaRecords(st.records));
      IsSuffix(ctx.channels, f.channels) &&
      (NoDups(ctx.channels) ==> NoDups(f.channels)) &&
      (forall c :: c in f.channels <==> c in ctx.channels || (!fromHistory && !ignoreChannels && c in conda))
  {
    var f := Exported(name, prefix, noBuilds, ignoreChannels, fromHistory, onlyBaseFields, st, ctx);
    if fromHistory || ignoreChannels {
      assert f.channels[|f.channels| - |ctx.channels|..] == ctx.channels;
    }
  }

  /** The export lists one `url#md5` per installed record, in graph order,
      whatever its package type. */
  lemma ExportedExplicit(name: Value, prefix: string, noBuilds: bool, ignoreChannels: bool,
                         onlyBaseFields: bool, st: PrefixState, ctx: Context)
    ensures var f := Exported(name, prefix, noBuilds, ignoreChannels, false, onlyBaseFields, st, ctx);
      f.explicit.Items? && |f.explicit.items| == |st.records| &&
      forall i :: 0 <= i < |st.records| ==>
        f.explicit.items[i] == Plain(st.records[i].url + "#" + st.records[i].md5)
  {
  }

  /** Read back through `Dependencies`, an export with pip records holds
      exactly their `name==version` specs under pip. */
  lemma ExportedPipParsed(precs: seq<PackageRecord>, noBuilds: bool, syn: SpecSyntax)
    requires PipRecords(precs) != []
    ensures var pip := PipRecords(precs);
      Get(ParseRaw([], Items(RenderedDependencies(precs, noBuilds)), syn), "pip") ==
        Some(seq(|pip|, i requires 0 <= i < |pip| => pip[i].name + "==" + pip[i].version))
  {
    var pip := PipRecords(precs);
    var specs := seq(|pip|, i requires 0 <= i < |pip| => PipSpec(pip[i]));
    assert specs == seq(|pip|, i requires 0 <= i < |pip| => pip[i].name + "==" + pip[i].version);
    assert specs != [] by {
      assert |specs| == |pip| > 0;
    }
    var deps := RenderedDependencies(precs, noBuilds);
    var section := [("pip", specs)];
    assert deps[|deps| - 1] == Section(section);
    assert LastIn(section, "pip") == Some(specs);
    assert LastSection(deps, "pip") == Some(specs);
    assert Elements(Items(deps)) == deps;
    ParsedPip(Items(deps), syn);
  }
  /** A list of plain entries has no mapping entry, and its normalised
      specs are its entries' specs through `arg2spec`, in order. */
  lemma {:induction false} AllPlain(lines: seq<Item>, syn: SpecSyntax, k: string)
    requires forall i :: 0 <= i < |lines| ==> lines[i].Plain?
    ensures !SectionHas(lines, k)
    ensures var specs := PlainSpecs(lines, syn);
      |specs| == |lines| && forall i :: 0 <= i < |lines| ==> specs[i] == syn.arg2spec(lines[i].spec)
  {
    if lines != [] {
      var init := lines[..|lines| - 1];
      AllPlain(init, syn, k);
    }
  }

  /** Read back through `Dependencies`, an export lists under conda the
      normalised `name=version[=build]` specs of the conda records in name
      order, followed by pip when there are pip records and no conda spec
      is named pip. */
  lemma ExportedCondaParsed(precs: seq<PackageRecord>, noBuilds: bool, syn: SpecSyntax)
    requires CondaRecords(precs) != [] || PipRecords(precs) != []
    ensures var conda := CondaRecords(precs);
      var parsed := ParseRaw([], Items(RenderedDependencies(precs, noBuilds)), syn);
      var specs := PlainSpecs(RenderedDependencies(precs, noBuilds), syn);
      |specs| == |conda| &&
      (forall i :: 0 <= i < |conda| ==> specs[i] == syn.arg2spec(CondaSpec(conda[i], noBuilds))) &&
      Get(parsed, "conda") ==
        Some(specs + if PipRecords(precs) != [] && !NamesPip(specs, syn) then ["pip"] else [])
  {
    var deps := RenderedDependencies(precs, noBuilds);
    RenderedSections(CondaRecords(precs), PipRecords(precs), noBuilds, syn);
    assert Elements(Items(deps)) == deps;
    ParsedConda(Items(deps), syn);
  }

  /** The only mapping entry of a rendered list is the pip one, present
      exactly when there are pip records. */
  lemma RenderedSections(conda: seq<PackageRecord>, pip: seq<PackageRecord>, noBuilds: bool, syn: SpecSyntax)
    ensures var deps := Render(conda, pip, noBuilds);
      var specs := PlainSpecs(deps, syn);
      !SectionHas(deps, "conda") && (SectionHas(deps, "pip") <==> pip != []) &&
      |specs| == |conda| &&
      (forall i :: 0 <= i < |conda| ==> specs[i] == syn.arg2spec(CondaSpec(conda[i], noBuilds)))
  {
    var deps := Render(conda, pip, noBuilds);
    var plain := seq(|conda|, i requires 0 <= i < |conda| => Plain(CondaSpec(conda[i], noBuilds)));
    AllPlain(plain, syn, "conda");
    AllPlain(plain, syn, "pip");
    if pip == [] {
      assert deps == plain;
    } else {
      var section := [("pip", seq(|pip|, i requires 0 <= i < |pip| => PipSpec(pip[i])))];
      assert deps == plain + [Section(section)];
      assert deps[..|deps| - 1] == plain;
      assert Keys(section) == ["pip"];
      assert PlainSpecs(deps, syn) == PlainSpecs(plain, syn) + [];
    }
  }
}
