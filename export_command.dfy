/**
 * `execute` of `conda env export` (conda_turbo/cli/main_env_export.py): the
 * environment of a prefix, with the channel list overridden and extended
 * as the flags ask, written out as the `to_dict` mapping in JSON or YAML.
 * The encoders and the file or terminal written to stay outside the model:
 * the output is the mapping together with its format and destination.
 */
module ExportCommand {
  import opened Wrappers
  import opened Dict
  import opened Values
  import opened Seqs
  import opened EnvDependencies
  import opened Env
  import opened PrefixExport

  /** The flags the command reads. */
  datatype ExportArgs = ExportArgs(
    noBuilds: bool,
    ignoreChannels: bool,
    fromHistory: bool,
    noAdditionalFields: bool,
    overrideChannels: bool,
    channel: Option<seq<string>>,   // --channel, None when not given
    json: bool,
    file: Option<string>)           // --file, None for the terminal

  datatype Format = Json | Yaml

  /** What is written, in which format, and where. */
  datatype Output = Output(format: Format, file: Option<string>, content: Document)

  /** `to_dict(stream=fp)` hands the `str` of `json.dumps` to a file opened
      in binary mode, which refuses it with a `TypeError`; the file is
      left created and empty. */
  datatype WriteError = TextToBinaryFile(file: string)

  /** The writing step as the command does it: the terminal takes either
      format, and a file takes YAML (the YAML dumper encodes to bytes) but
      not JSON. */
  function Emit(args: ExportArgs, d: Document): (r: Result<Output, WriteError>)
    ensures r.Failure? <==> args.json && args.file.Some?
    ensures r.Failure? ==> r.error.file == args.file.value
    ensures r.Success? ==> r.value.content == d && r.value.file == args.file
  {
    if args.file.Some? && args.json then Failure(TextToBinaryFile(args.file.value))
    else Success(Output(if args.json then Json else Yaml, args.file, d))
  }

  /** `conda env export --json --file env.json` raises instead of writing
      the environment. */
  lemma JsonToFileFails(d: Document)
    ensures var args := ExportArgs(false, false, false, false, false, None, true, Some("env.json"));
      Emit(args, d) == Failure(TextToBinaryFile("env.json"))
  {
  }

  /** The writing step as evidently intended: the mapping goes to the
      terminal or the file, in JSON under `--json` and YAML otherwise. */
  function EmitIntended(args: ExportArgs, d: Document): (o: Output)
    ensures o.format == Json <==> args.json
  {
    Output(if args.json then Json else Yaml, args.file, d)
  }

  /** The intended step writes the mapping for every combination of flags,
      and agrees with the command wherever the command does not raise. */
  lemma EmitIntendedWrites(args: ExportArgs, d: Document)
    ensures EmitIntended(args, d).content == d && EmitIntended(args, d).file == args.file
    ensures Emit(args, d).Success? ==> Emit(args, d).value == EmitIntended(args, d)
    ensures Emit(args, d).Failure? ==> EmitIntended(args, d) == Output(Json, args.file, d)
  {
  }

  /** The channel list after `--override-channels` and `--channel`. */
  function FinalChannels(args: ExportArgs, channels: seq<string>): (r: seq<string>)
    ensures forall c :: c in r <==>
      (args.channel.Some? && c in args.channel.value) || (!args.overrideChannels && c in channels)
    ensures args.channel.Some? ==> NoDups(r)
    ensures args.channel.None? ==> r == if args.overrideChannels then [] else channels
  {
    var kept := if args.overrideChannels then [] else channels;
    if args.channel.Some? then AddedChannels(args.channel.value, kept) else kept
  }

  /** The environment the command serialises. */
  function ExportFields(args: ExportArgs, name: Value, prefix: string, st: PrefixState, ctx: Context): (f: Fields)
    ensures var e := Exported(name, prefix, args.noBuilds, args.ignoreChannels, args.fromHistory,
                              args.noAdditionalFields, st, ctx);
      f.(channels := e.channels) == e &&
      forall c :: c in f.channels <==>
        (args.channel.Some? && c in args.channel.value) || (!args.overrideChannels && c in e.channels)
  {
    var f := Exported(name, prefix, args.noBuilds, args.ignoreChannels, args.fromHistory,
                      args.noAdditionalFields, st, ctx);
    f.(channels := FinalChannels(args, f.channels))
  }

  /**
   * `execute(args, parser)` for the prefix `determine_target_prefix`
   * chose, whose name `env_name` reports as `name`; `st` and `ctx` are
   * what `from_environment` reads about it.  Returns what is written and
   * the exit code 0, or the exception that escapes and no exit code.
   */
  method Execute(args: ExportArgs, name: Value, prefix: string, st: PrefixState, ctx: Context,
                 syn: SpecSyntax)
    returns (r: Result<Output, WriteError>, code: Option<int>)
    ensures r == Emit(args, Serialize(ExportFields(args, name, prefix, st, ctx)))
    ensures r.Success? ==> r.value == EmitIntended(args, Serialize(ExportFields(args, name, prefix, st, ctx)))
    ensures code == if r.Success? then Some(0) else None
  {
    var env := FromEnvironment(name, prefix, args.noBuilds, args.ignoreChannels, args.fromHistory,
                               args.noAdditionalFields, st, ctx, syn);
    ApplyChannelFlags(env, args);
    var d := env.ToDict();
    if args.file.Some? && args.json {
      return Failure(TextToBinaryFile(args.file.value)), None;
    }
    r := Success(Output(if args.json then Json else Yaml, args.file, d));
    code := Some(0);
  }

  /** `remove_channels` under `--override-channels`, then `add_channels`
      with the `--channel` list when one is given. */
  method ApplyChannelFlags(env: Environment, args: ExportArgs)
    requires env.Valid()
    modifies env
    ensures env.Valid() && env.dependencies == old(env.dependencies)
    ensures env.Snapshot() == old(env.Snapshot()).(channels := FinalChannels(args, old(env.channels)))
  {
    if args.overrideChannels {
      env.RemoveChannels();
    }
    if args.channel.Some? {
      env.AddChannels(args.channel.value);
    }
  }

  /** Under `--override-channels` the exported channels are exactly the
      given ones, each once; with none given the mapping has no channels
      key at all. */
  lemma ExportOverride(args: ExportArgs, name: Value, prefix: string, st: PrefixState, ctx: Context)
    requires args.overrideChannels
    ensures var f := ExportFields(args, name, prefix, st, ctx);
      (args.channel.Some? ==> f.channels == Unique(args.channel.value)) &&
      (args.channel.None? ==> "channels" !in Keys(Serialize(f)))
  {
    var f := ExportFields(args, name, prefix, st, ctx);
    if args.channel.Some? {
      assert args.channel.value + [] == args.channel.value;
    } else {
      SerializeLookup(f);
    }
  }

  /** Without `--override-channels`, the given channels lead and the
      channels of the environment follow, without repeats; every channel of
      either list is exported. */
  lemma ExportAddsChannels(args: ExportArgs, name: Value, prefix: string, st: PrefixState, ctx: Context)
    requires !args.overrideChannels && args.channel.Some?
    ensures var e := Exported(name, prefix, args.noBuilds, args.ignoreChannels, args.fromHistory,
                              args.noAdditionalFields, st, ctx);
      var f := ExportFields(args, name, prefix, st, ctx);
      var given := Unique(args.channel.value);
      NoDups(f.channels) &&
      (forall c :: c in f.channels <==> c in args.channel.value || c in e.channels) &&
      |given| <= |f.channels| && f.channels[..|given|] == given
  {
    var e := Exported(name, prefix, args.noBuilds, args.ignoreChannels, args.fromHistory,
                      args.noAdditionalFields, st, ctx);
    AddedChannelsOrder(args.channel.value, e.channels);
  }

  /** `--no-additional-fields` keeps subdir, requested and explicit out of
      the output; `--from-history` leaves them unset, so they are absent
      too; otherwise the requested specs are written when there are any. */
  lemma ExportAdditionalFields(args: ExportArgs, name: Value, prefix: string, st: PrefixState, ctx: Context)
    ensures var d := Serialize(ExportFields(args, name, prefix, st, ctx));
      (args.noAdditionalFields || args.fromHistory ==>
        "subdir" !in Keys(d) && "requested" !in Keys(d) && "explicit" !in Keys(d)) &&
      (!args.noAdditionalFields && !args.fromHistory && st.requested != [] ==>
        Get(d, "requested") == Some(TextList(st.requested)))
  {
    ExportedHistory(name, prefix, args.noBuilds, args.ignoreChannels, args.fromHistory,
                    args.noAdditionalFields, st, ctx);
    var f := ExportFields(args, name, prefix, st, ctx);
    assert f.onlyBaseFields == args.noAdditionalFields;
    assert args.fromHistory ==> f.subdir == Null && f.requested == Null && f.explicit == Null;
    assert !args.fromHistory ==> f.requested == TextList(st.requested);
    AdditionalFieldsWritten(f);
  }

  /** `to_dict` writes none of the three additional fields when the flag
      suppresses them or none is set, and writes a non-empty `requested`
      list otherwise. */
  lemma AdditionalFieldsWritten(f: Fields)
    ensures var d := Serialize(f);
      (f.onlyBaseFields || (f.subdir == Null && f.requested == Null && f.explicit == Null) ==>
         "subdir" !in Keys(d) && "requested" !in Keys(d) && "explicit" !in Keys(d)) &&
      (!f.onlyBaseFields && f.requested.Items? && f.requested.items != [] ==>
         Get(d, "requested") == Some(f.requested))
  {
    SerializeLookup(f);
  }
}
