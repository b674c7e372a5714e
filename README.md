# conda-env-ng environment model in Dafny

This project models the environment-description core of conda-env-ng
(`conda_turbo`). That core is the `Environment` object behind `conda env create`
and `conda env export`:

- how an environment file's decoded mapping is filtered and repaired (`validate_keys`);
- how its dependency list is classified into an ordered map from ecosystem to
  spec list (`Dependencies`);
- how an `Environment` holds, changes and serialises its attributes
  (`add_channels`, `remove_channels`, `to_dict`, `has_additional_fields`);
- how an environment is loaded from a decoded document (`from_yaml`,
  `_expand_channels`) or built from an installed prefix (`from_environment`);
- which installers `env create` calls, in which order and with which specs;
- how `env export` overrides and extends the channel list before writing;
- how the no-solve path turns conda specs into package URLs for `explicit`.

Python dictionaries, which keep insertion order, are association sequences
(`Dict`). Decoded YAML is the `Values.Value` datatype. Its scalars are text, and
a dependency entry is either a plain spec or a mapping section.

Everything the code delegates to conda is a parameter:

- `arg2spec` and `MatchSpec(...).name` (`EnvDependencies.SpecSyntax`);
- `os.path.expandvars`;
- the prefix's records, history and variables (`PrefixExport.PrefixState`);
- `context` and `check_prefix` (`PrefixExport.Context`, `CreateCommand.Host`);
- the installers and what each call raises (`CreateCommand.Installers`);
- `SubdirData.query_all` (`NoSolve.Index`);
- `specs.detect`, which reads the spec file with `os.getcwd` and `get_filename`: `CreateCommand.Execute` takes the environment it returns as an input.

The create command records every call it makes on the outside world as a
trace of `CreateCommand.Call` values.

`Environment` and `Dependencies` are classes whose methods update their
fields, as in the source. Their contracts tie the new state to pure
specification functions (`Env.Serialize`, `EnvDependencies.ParseRaw`,
`Env.AddedChannels`, `PrefixExport.RecordChannels`, `CreateCommand.Create`),
and the lemmas prove the promised properties about those functions. The
loops of the source are methods with loop invariants:

- the key filter and the pip insertion of `validate_keys`;
- the loop of `Dependencies.parse`;
- the keyword merge of `from_yaml`;
- the channel insertion of `from_environment`;
- the installer loop of `env create`.

The model follows the code as written:

- `env create` as written never selects between the `explicit`, `requested`
  and `dependencies` fields. It never installs pinned locators directly and
  never raises a dry-run exit. It installs the dependency map as described
  below.
- The missing-installer error names the ecosystem only, not the prefix.
- The missing pip entry is repaired in two places:
  - `validate_keys` puts `pip` at the front of the raw list;
  - `Dependencies.parse` appends `pip` to the end of the conda list.

## Model

| member | source | states |
|---|---|---|
| EnvKeys.InvalidKeys | conda_turbo/env/env.py:29-34 | the keys the warning lists are exactly the document's keys outside `VALID_KEYS` |
| EnvKeys.InvalidKeysAppend | conda_turbo/env/env.py:31-34 | the invalid keys of two documents in a row are those of the first, then those of the second, in order |
| EnvKeys.DropInvalidKeys | conda_turbo/env/env.py:29-34 | the copy keeps exactly the valid keys, each with its value unchanged, and still has no repeated key; the dropped keys are listed in order |
| EnvKeys.ValidateKeys | conda_turbo/env/env.py:27-63 | fails exactly when `dependencies` is `None` (iterating it raises); otherwise only valid keys remain, all except `dependencies` unchanged, and `dependencies` is the pip-repaired list |
| EnvKeys.InsertPip | conda_turbo/env/env.py:48-62 | only the dependency entry can change, and it changes exactly when the repair inserts `pip` |
| EnvKeys.RepairedShape | conda_turbo/env/env.py:48-62 | the `dependencies` value changes exactly when it has a `pip:` mapping entry and no plain entry names pip; it is then a list, and the change puts one `pip` at its front |
| EnvKeys.ListsPip | conda_turbo/env/env.py:51 | `lists_pip`: a bare `pip` entry makes the list name pip |
| EnvKeys.RepairPip | conda_turbo/env/env.py:48-62 | after the repair a list with a `pip:` mapping entry names pip in a plain entry; a list that already names pip is left alone |
| EnvKeys.PipNamesPip | conda_turbo/env/env.py:49-51 | the inserted spec `pip` itself counts as naming pip |
| EnvKeys.RepairPipShape | conda_turbo/env/env.py:48-62 | the repair either leaves the list alone or puts exactly one `pip` at index 0; it inserts exactly when a `pip:` mapping entry exists and no plain entry names pip |
| EnvKeys.RepairPipIdempotent | conda_turbo/env/env.py:48-62 | repairing an already repaired list inserts nothing more |
| EnvKeys.QualifiedPipCounts | conda_turbo/env/env.py:49-51 | a channel-qualified `channel::pip` followed by a version constraint counts as naming pip |
| EnvKeys.OtherNameDoesNotCount | conda_turbo/env/env.py:49-51 | a bare package name other than `pip` (such as `pipx`) does not count |
| SpecText.IsPip | conda_turbo/env/env.py:50 | a spec whose leading token is exactly `pip` counts, whatever constraint follows; a counted spec's leading token is at least three characters long |
| SpecText.PartShorter | conda_turbo/env/env.py:50 | no `::` part is longer than the token it was cut from |
| SpecText.LeadingToken | conda_turbo/env/env.py:49-50 | the token is the longest separator-free prefix of the spec |
| SpecText.SplitColons | conda_turbo/env/env.py:50 | the parts join back to the token with `::` and none of them contains `::` |
| EnvDependencies.Merge | conda_turbo/env/env.py:204-205 | after `update`, a key of the section holds the section's last value for it, and every other key keeps its value; no key is repeated and no existing key is lost |
| EnvDependencies.Step | conda_turbo/env/env.py:203-207 | one entry keeps the conda key, loses no key and repeats none |
| EnvDependencies.ParseLines | conda_turbo/env/env.py:203-207 | the loop keeps the conda key, loses no key and repeats none |
| EnvDependencies.FixPip | conda_turbo/env/env.py:209-213 | the tail of `parse` keeps the conda key and repeats none |
| EnvDependencies.ParseRaw | conda_turbo/env/env.py:196-213 | the parsed map has no repeated key and has a conda entry whenever the raw list is truthy |
| EnvDependencies.Dependencies.constructor | conda_turbo/env/env.py:191-194 | the map is the parse of `raw`, and `raw` is stored as given (the source also grows a `conda:` section inside it; see Left out) |
| EnvDependencies.Dependencies.Parse | conda_turbo/env/env.py:196-213 | the map becomes the parse of `raw` on top of what it held, and is empty exactly when `raw` is falsy; the model's `raw` is unchanged (see Left out) |
| EnvDependencies.Dependencies.ReadLines | conda_turbo/env/env.py:203-207 | the loop's map is the specification of the loop over the entries |
| EnvDependencies.Dependencies.FinishPip | conda_turbo/env/env.py:209-213 | an empty pip list is deleted, and pip is appended to conda when it is not named there |
| EnvDependencies.Dependencies.Add | conda_turbo/env/env.py:216-219 | on a list, the entry is appended to `raw` and the map is parsed again; on any other raw value (no `append`) nothing changes; aliasing as for `Parse` |
| EnvDependencies.ParseLinesGet | conda_turbo/env/env.py:203-207 | every key other than conda holds the value of the last mapping entry that sets it |
| EnvDependencies.ParseLinesConda | conda_turbo/env/env.py:203-207 | without a `conda:` section, the conda list grows by the `arg2spec`-normalised plain entries, in order |
| EnvDependencies.NamesPip | conda_turbo/env/env.py:212 | `any(MatchSpec(s).name == "pip" ...)` over the conda list; its effect on `parse` is stated by `FixPipConda` |
| EnvDependencies.FixPipConda | conda_turbo/env/env.py:209-213 | the conda list gains `pip` exactly when a pip key exists and no conda spec is named pip |
| EnvDependencies.ParsedEmptyIff | conda_turbo/env/env.py:198-199 | the fresh map is empty exactly when the raw list is falsy |
| EnvDependencies.ParsedCondaFirst | conda_turbo/env/env.py:201 | conda is the first key of a fresh parse |
| EnvDependencies.ParsedLaterWins | conda_turbo/env/env.py:203-205 | each key other than conda and pip holds the last value written for it |
| EnvDependencies.ParsedPip | conda_turbo/env/env.py:209-211 | pip holds the last pip list written; when that list is empty the key is gone |
| EnvDependencies.ParsedConda | conda_turbo/env/env.py:201-213 | without a `conda:` section, conda lists the normalised plain entries in order, then `pip` when a pip entry exists and no plain spec is named pip |
| EnvRecords.OfType | conda_turbo/env/env.py:101-106 | a type's group holds exactly the records of that type |
| EnvRecords.OfTypeCount | conda_turbo/env/env.py:101-106 | a record occurs in its type's group as often as it is installed, and never in another group |
| EnvRecords.SortByName | conda_turbo/env/env.py:102-109 | the sorted list is a permutation of the input |
| EnvRecords.SortByNameSorted | conda_turbo/env/env.py:102-109 | the sorted list is ordered by name |
| EnvRecords.SortByNameStable | conda_turbo/env/env.py:102-109 | records with the same name keep their relative order, as Python's `sorted` does |
| EnvRecords.CondaRecords | conda_turbo/env/env.py:100-109 | the conda group is sorted by name and holds only installed records of the untyped, noarch-generic and noarch-python types |
| EnvRecords.PipRecords | conda_turbo/env/env.py:111-118 | the pip group is sorted by name and holds only installed wheel and egg records |
| EnvRecords.CondaRecordsAreTheCondaGroup | conda_turbo/env/env.py:100-109 | the conda group is sorted by name and holds every untyped, noarch-generic and noarch-python record as often as installed, and nothing else |
| EnvRecords.PipRecordsAreThePipGroup | conda_turbo/env/env.py:111-118 | the pip group is sorted by name and holds every wheel and egg record as often as installed, and nothing else |
| EnvRecords.Render | conda_turbo/env/env.py:120-125 | one plain `name=version[=build]` entry per conda record, in order; then, exactly when there are pip records, one `pip:` section with one `name==version` per pip record, in order |
| EnvRecords.ExplicitLocators | conda_turbo/env/env.py:134 | one locator per record |
| EnvRecords.CondaSpecSplits | conda_turbo/env/env.py:120-123 | a rendered conda spec splits on `=` back into name and version, and the build unless `no_builds`, when no field holds `=` |
| EnvRecords.LocatorSplits | conda_turbo/env/env.py:134 | a locator splits on `#` back into URL and checksum |
| Env.Serialize | conda_turbo/env/env.py:260-276 | the mapping `to_dict` builds has no repeated key and only keys from `VALID_KEYS` |
| Env.SerializeLookup | conda_turbo/env/env.py:262-276 | key by key: name always; channels, dependencies (the raw list), variables and prefix exactly when truthy; subdir, requested and explicit exactly when truthy and not `only_base_fields` |
| Env.SerializeShape | conda_turbo/env/env.py:262-276 | `name` is always present, every other key present holds a truthy value, and `only_base_fields` suppresses the three additional fields |
| Env.HasAdditionalFields | conda_turbo/env/env.py:288-294 | an environment whose `to_dict` mapping carries subdir, requested and explicit has all three fields set |
| Env.SerializedAdditionalFields | conda_turbo/env/env.py:288-294 | a mapping carrying all three additional fields comes from an environment that has them; an environment with `requested=[]` has them but its mapping omits `requested` |
| Seqs.Unique | conda_turbo/env/env.py:254 | conda's `unique`: no repeats, and exactly the elements of the input; the first-occurrence order is stated by `Env.AddedChannelsOrder` |
| Env.AddedChannels | conda_turbo/env/env.py:252-254 | the new channel list has no repeats and holds exactly the given and the current channels |
| Env.AddedChannelsOrder | conda_turbo/env/env.py:252-254 | the given channels lead, de-duplicated, in their own order; a current list without repeats follows in its order, minus the channels moved to the front |
| Env.Environment.constructor | conda_turbo/env/env.py:225-250 | the attributes are the arguments, an absent channel list becomes `[]`, and the dependencies are the parse of the raw list |
| Env.Environment.AddChannels | conda_turbo/env/env.py:252-254 | only the channel list changes, to the de-duplicated given-then-current list |
| Env.Environment.RemoveChannels | conda_turbo/env/env.py:256-258 | only the channel list changes, to `[]` |
| Env.Environment.ToDict | conda_turbo/env/env.py:260-278 | the mapping is `Serialize` of the attributes, even though the source tests the parsed map and writes the raw list |
| Env.ExpandChannels | conda_turbo/env/env.py:164-168 | an absent channel list gives `[]`; `None` raises; a mapping entry raises; otherwise one `expandvars` result per entry, in order |
| Env.ExpandAll | conda_turbo/env/env.py:166-168 | one expanded string per entry, in order |
| Env.ExpandWrittenChannels | conda_turbo/env/env.py:164-168 | a written channel list that `expandvars` leaves alone expands to itself |
| Env.Loaded | conda_turbo/env/env.py:155-159 | a value that no keyword argument supplies comes from a valid key of the document |
| Env.Load | conda_turbo/env/env.py:149-161 | `EnvironmentFileEmpty` is raised exactly for an empty document; a `None` dependency list raises; a loaded environment took only keyword arguments that `Environment` accepts |
| Env.Build | conda_turbo/env/env.py:157-161 | a built environment took only accepted keyword arguments; an unexpected keyword names a keyword argument `Environment` does not accept |
| Env.LoadIgnoresInvalidKey | conda_turbo/env/env.py:30-34 | adding a key outside `VALID_KEYS` to the document changes neither the loaded environment nor the error |
| Env.ReloadedBaseFields | conda_turbo/env/env.py:262-270 | loading `to_dict`'s mapping gives back the name, the dependencies after the pip repair, variables and prefix when truthy, and `only_base_fields` off; the channel list is supplied here, not loaded: `Env.ReloadedChannels` proves it reloads, when `expandvars` leaves every channel unchanged |
| Env.ReloadedAdditionalFields | conda_turbo/env/env.py:271-276 | loading `to_dict`'s mapping gives back each additional field exactly when it was written |
| Env.ReloadedChannels | conda_turbo/env/env.py:164-168 | when `expandvars` leaves every written channel unchanged, `_expand_channels` on the loaded mapping gives back the channels written |
| Env.ReloadSerialized | conda_turbo/env/env.py:149-161 | serialising, loading and serialising again gives the same mapping |
| Env.MergeKeywords | conda_turbo/env/env.py:157-159 | keyword arguments override document values and are not filtered; the names `Environment` does not accept are those of the keyword arguments |
| Env.FromYaml | conda_turbo/env/env.py:149-161 | an empty document raises `EnvironmentFileEmpty`; a `None` dependency list, a mapping channel entry or an unknown keyword raises; otherwise the environment has the attributes `Load` describes and its parsed dependencies |
| Env.Construct | conda_turbo/env/env.py:160-161 | the channels are expanded before `Environment(**data)` runs, and the environment gets the loaded attributes |
| PrefixExport.RecordChannels | conda_turbo/env/env.py:127-132 | the configured channels stay a suffix; the names in front are new, each once, and are exactly the record channels not already configured |
| PrefixExport.PrependRecordChannels | conda_turbo/env/env.py:127-132 | the loop that inserts at index 0 computes `RecordChannels` |
| PrefixExport.Exported | conda_turbo/env/env.py:66-146 | name, prefix, variables and `only_base_fields` pass through and no filename is set; the configured channels stay a suffix, and every channel is a configured one or a conda record's; the rendered dependencies and `subdir` are stated by `ExportedHistory` |
| PrefixExport.FromEnvironment | conda_turbo/env/env.py:66-146 | the environment has the attributes `Exported` describes, with its dependencies parsed |
| PrefixExport.ExportedHistory | conda_turbo/env/env.py:88-146 | with `from_history`: history specs, configured channels, no additional fields; without it, all three are set, `requested` is the history, the dependencies are the rendered conda and pip specs of the installed records and `subdir` is the configured one |
| PrefixExport.ExportedChannels | conda_turbo/env/env.py:127-132 | the configured channels close the list; no name is added twice; a name is added only for a conda record and only with channel lookup on |
| PrefixExport.ExportedExplicit | conda_turbo/env/env.py:134 | one `url#md5` per installed record, in graph order, of any package type |
| PrefixExport.ExportedPipParsed | conda_turbo/env/env.py:124-125 | parsed back, the export's pip entry holds the pip records' `name==version` specs in name order |
| PrefixExport.ExportedCondaParsed | conda_turbo/env/env.py:120-125 | parsed back, conda lists the normalised `name=version[=build]` of the conda records in name order, then `pip` when there are pip records not named there |
| PrefixExport.RenderedSections | conda_turbo/env/env.py:120-125 | the only mapping entry of a rendered list is the pip one, present exactly when there are pip records |
| CreateCommand.Wrap | conda_turbo/cli/main_env_create.py:82-94 | a missing installer inside the ecosystem loop becomes the error naming the ecosystem; any other exception, and a missing installer outside the loop, passes through unchanged |
| CreateCommand.Attempt | conda_turbo/cli/main_env_create.py:78-81 | one installation raises nothing exactly when its installer loads and its call returns |
| CreateCommand.RunSteps | conda_turbo/cli/main_env_create.py:76-81 | after an exception no further installation happens |
| CreateCommand.EcosystemSteps | conda_turbo/cli/main_env_create.py:76-81 | one guarded installation per ecosystem, in map order, with its own spec list |
| CreateCommand.TargetPrefix | conda_turbo/cli/main_env_create.py:31-35 | `determine_target_prefix` sees the given name and prefix when either is given, and otherwise the environment's own name with no prefix |
| CreateCommand.DefaultPackages | conda_turbo/cli/main_env_create.py:47-49 | the default packages are non-empty exactly when `--no-default-packages` is off and the configured list is non-empty, and are then that list |
| CreateCommand.Steps | conda_turbo/cli/main_env_create.py:64-94 | the installation plan: a conda install of the default packages first when there are any, then one conda install of nothing for an empty map, or else one guarded install per ecosystem in map order; its length counts exactly these |
| CreateCommand.ChosenName | conda_turbo/cli/main_env_create.py:32-33 | the environment's name replaces `args.name` exactly when neither `--name` nor `--prefix` is given |
| CreateCommand.DryRunOutcome | conda_turbo/cli/main_env_create.py:51-62 | a dry run adds at most one call after the removal, and it is a `dry_run`; a missing conda installer raises `InvalidInstaller`; success leaves the result map untouched with code 0 |
| CreateCommand.InstallOutcome | conda_turbo/cli/main_env_create.py:64-98 | the real run's calls follow the removal; a normal return gives 0 and, when the variables are truthy, writing them is the last call |
| CreateCommand.ExtendedConda | conda_turbo/cli/main_env_create.py:55-56 | the extension keeps the keys, appends the default packages to the conda list only, and leaves every other entry alone |
| CreateCommand.Create | conda_turbo/cli/main_env_create.py:10-103 | the removal of an existing prefix, when asked for, is the first call; a normal return returns 0 |
| CreateCommand.CreateRejectedPrefix | conda_turbo/cli/main_env_create.py:35-39 | a prefix `check_prefix` rejects ends the command with its exception; the removal is the only call, so nothing is installed and no variables are written |
| CreateCommand.Execute | conda_turbo/cli/main_env_create.py:10-103 | the result and the calls made are those of `Create`; `args.name` becomes the environment's name when neither `--name` nor `--prefix` is given; the conda list is extended in place only by a dry run |
| CreateCommand.DryRunConda | conda_turbo/cli/main_env_create.py:51-62 | only the conda installer's `dry_run` is called, with the conda specs then the default packages, and that list replaces the conda entry |
| CreateCommand.RemoveExisting | conda_turbo/cli/main_env_create.py:37-38 | the prefix is removed exactly under `--yes` when it exists and is not the root prefix |
| CreateCommand.RealRun | conda_turbo/cli/main_env_create.py:64-98 | the real run's result and calls are those `InstallOutcome` describes |
| CreateCommand.InstallAll | conda_turbo/cli/main_env_create.py:64-94 | the installations are the default packages, then an empty conda install or one per ecosystem |
| CreateCommand.InstallStep | conda_turbo/cli/main_env_create.py:66-68 | one installation is one `Attempt` |
| CreateCommand.InstallEach | conda_turbo/cli/main_env_create.py:76-94 | the loop over the map runs the ecosystem installations in order |
| CreateCommand.RunStepsKeepsTrace | conda_turbo/cli/main_env_create.py:64-94 | the installations only add calls after those made before them |
| CreateCommand.RunStepsSucceed | conda_turbo/cli/main_env_create.py:76-81 | installations that all succeed make their calls in order and raise nothing |
| CreateCommand.RunStepsResult | conda_turbo/cli/main_env_create.py:79-81 | the result map holds, for an installer, the call of its last installation |
| CreateCommand.RunStepsFailure | conda_turbo/cli/main_env_create.py:76-94 | the first installation that fails ends the run with its exception, after the calls before it |
| CreateCommand.CreateDryRun | conda_turbo/cli/main_env_create.py:51-62 | a dry run calls only the removal and the conda `dry_run` of the conda specs and default packages, and returns the untouched result map |
| CreateCommand.CreateInstalls | conda_turbo/cli/main_env_create.py:64-103 | when all succeed: the default packages first, then one empty conda install for an empty map or one install per ecosystem in order, then the variables when truthy; returns 0 |
| CreateCommand.EcosystemInstalls | conda_turbo/cli/main_env_create.py:76-81 | one install per ecosystem, in map order, with its own list |
| CreateCommand.StepsAt | conda_turbo/cli/main_env_create.py:76-81 | the plan ends with the ecosystems: the `i`-th entry of the map is installed, guarded, at position `i` of the plan's tail, with its own spec list |
| CreateCommand.StepsCalls | conda_turbo/cli/main_env_create.py:64-81 | the calls of the installations, spelled out |
| CreateCommand.CreateResults | conda_turbo/cli/main_env_create.py:45-81 | each ecosystem's entry of the result map holds its own install, so the map's conda install replaces the default-packages one |
| CreateCommand.InstallOutcomeResults | conda_turbo/cli/main_env_create.py:64-81 | when every installation succeeds, each ecosystem's entry of the result map holds its own install |
| CreateCommand.EcosystemResult | conda_turbo/cli/main_env_create.py:76-81 | an ecosystem's entry of the result map holds its own install, since no later installation uses its installer |
| CreateCommand.LaterSteps | conda_turbo/cli/main_env_create.py:76 | no later installation uses an ecosystem's installer again |
| CreateCommand.CreateFailure | conda_turbo/cli/main_env_create.py:76-98 | the first failing installation ends the command with its exception, and the variables are never written |
| CreateCommand.MissingStepError | conda_turbo/cli/main_env_create.py:82-94 | a missing installer is reported by the ecosystem's name inside the loop and as `InvalidInstaller` for conda outside it |
| CreateCommand.CreateMissingInstaller | conda_turbo/cli/main_env_create.py:82-94 | a missing installer for an ecosystem of the map is reported by name; one for the default packages or an empty map passes on as `InvalidInstaller` |
| ExportCommand.FinalChannels | conda_turbo/cli/main_env_export.py:25-29 | a channel is exported exactly when it is given with `--channel` or, without `--override-channels`, it was exported before; with `--channel` there are no repeats, and without it the list is emptied or kept |
| ExportCommand.ExportFields | conda_turbo/cli/main_env_export.py:16-29 | the serialised environment is `from_environment`'s except for the channels, which are the given ones and, without override, the exported ones |
| ExportCommand.Execute | conda_turbo/cli/main_env_export.py:11-38 | what is written is the `to_dict` mapping of the exported environment after the channel flags, through `Emit`; whenever it writes, it writes what `EmitIntended` does and returns 0, and when the exception escapes there is no exit code |
| ExportCommand.Emit | conda_turbo/cli/main_env_export.py:31-36 | writing fails exactly for `--json` with `--file`; otherwise the mapping goes to `--file` when given, else to the terminal |
| ExportCommand.JsonToFileFails | conda_turbo/cli/main_env_export.py:34-35 | `--json --file env.json` raises instead of writing |
| ExportCommand.EmitIntended | conda_turbo/cli/main_env_export.py:31-36 | JSON is chosen exactly under `--json` |
| ExportCommand.EmitIntendedWrites | conda_turbo/cli/main_env_export.py:31-36 | the corrected step writes the mapping to the chosen destination for every flag combination, and agrees with `Emit` wherever `Emit` succeeds |
| ExportCommand.AdditionalFieldsWritten | conda_turbo/env/env.py:271-276 | `to_dict` writes none of subdir, requested and explicit under `only_base_fields` or when none is set, and writes a non-empty `requested` otherwise |
| ExportCommand.ApplyChannelFlags | conda_turbo/cli/main_env_export.py:25-29 | only the channels change: emptied under `--override-channels`, then extended by `--channel` |
| ExportCommand.ExportOverride | conda_turbo/cli/main_env_export.py:25-29 | under override the channels are exactly the de-duplicated given ones; with none given, the mapping has no channels key |
| ExportCommand.ExportAddsChannels | conda_turbo/cli/main_env_export.py:28-29 | the given channels lead without repeats, and every given or exported channel appears |
| ExportCommand.ExportAdditionalFields | conda_turbo/cli/main_env_export.py:16-23 | `--no-additional-fields` and `--from-history` keep subdir, requested and explicit out of the mapping; otherwise a non-empty history is written as `requested` |
| NoSolve.FindPackageUrl | conda_turbo/no_solve.py:15-27 | succeeds exactly when one package matches, with its URL; otherwise the error states the count |
| NoSolve.NoSolveInstall | conda_turbo/no_solve.py:30-38 | a missing conda entry fails before any lookup; on success `explicit` gets the prefix |
| NoSolve.FindAll | conda_turbo/no_solve.py:33 | a successful lookup list has one URL per spec; a failure comes from a spec without exactly one match |
| NoSolve.FindAllSucceeds | conda_turbo/no_solve.py:31-33 | the lookups succeed exactly when every spec matches one package, and then give one URL per spec, in order |
| NoSolve.FindAllFailure | conda_turbo/no_solve.py:33 | a failing lookup reports the first spec that does not match exactly one package |
| NoSolve.NoSolveInstallCalls | conda_turbo/no_solve.py:30-38 | `explicit` is called exactly when the conda entry exists and every spec matches one package, with one URL per spec, in order |
| NoSolve.EmptyEnvironmentHasNoConda | conda_turbo/no_solve.py:31 | an environment whose raw dependencies were empty fails at the conda key lookup |

## Left out

- YAML and JSON encoding and decoding are not modelled. This covers `yaml_safe_load`, `to_yaml`, `save`, the stream branch of `to_dict` and the encoders `env export` uses. The model works on the decoded mapping. The one outcome of the stream branch it keeps is the `TypeError` of writing JSON text to a binary file (`ExportCommand.Emit`).
- File and network access in `from_file` is not modelled: the scheme test, `download_text`, the existence check and the UTF-8/UTF-16 decoding.
- `get_filename` and `print_result` are not modelled. The first is path expansion by the operating system; the second only formats output.
- The warnings printed by `validate_keys` are not modelled. Their content is the list of invalid keys, which `ValidateKeys` returns.
- Logging in `no_solve_install` is not modelled.
- Scalar YAML values (numbers, booleans) are text, so a non-string plain dependency, which would make `is_pip` raise, is not modelled.
- A top-level document that is not a mapping is not modelled.
- conda's own behaviour is not re-implemented. `specs.detect`, with `os.getcwd` and `get_filename`, is not modelled: `CreateCommand.Execute` takes the environment it returns as an input. These are parameters: `arg2spec`, `MatchSpec`, `expandvars`, `PrefixData`, `History`, `PrefixGraph` ordering, `context`, `determine_target_prefix`, `env_name`, `get_installer`, the installers, `SubdirData.query_all` and `explicit`. Errors raised while building a `MatchSpec` are not modelled.
- `rm_rf` and `set_environment_env_vars` are recorded as calls, not modelled. `check_prefix` is a parameter (`Host.checkPrefix`) that either accepts the prefix or names the exception it raises. `touch_nonadmin` is left out: it only writes a marker file after the installations.
- Printing the solved environment after a dry run is left out.
- The command-line wiring is not part of this model: conda_turbo/cli/main_env.py, conda_turbo/cli/main.py, conda_turbo/cli.py and conda_turbo/hooks.py.
- conda_turbo/cmd_export.py is not part of this model. It is the export pipeline without `only_base_fields`, which `ExportCommand.Execute` covers with that flag off.
- EnvKeys.ValidateKeys: inserting `pip` mutates the dependency list shared with the caller's document. The model returns the repaired list and does not model that aliasing.
- Env.ReloadSerialized: the round trip holds only when `expandvars` leaves the written channels alone and the dependency list needs no pip repair.
- Env.Environment.ToDict: the model writes `dependencies` when the raw list is truthy. The source tests the parsed map, and these agree on every environment built by the constructor (`Valid`).
- NoSolve.NoSolveInstall: it takes the environment's parsed dependency map rather than the `Environment` object, and the URLs are not logged.
- ExportCommand.Execute: the output is the mapping with its format and destination, not the encoded text. When `--json --file` makes it raise, the file it created stays behind empty; that file is not modelled.
- CreateCommand.Execute: the text of the `CondaError` is reduced to the ecosystem it names.
- Aliasing of the raw dependency list is not modelled. `update` at conda_turbo/env/env.py:205 makes the dictionary's conda entry the very list object of a `conda:` section in `raw`. The appends at env.py:207 and env.py:213 then grow that section inside `raw` too. For `[{conda: [a]}, b]`, the source's `raw` ends up as `[{conda: [a, b']}, b]`, with `b'` the normalised `b`; the model's `raw` stays as written. The model is exact whenever `raw` has no `conda:` section, which includes every environment `from_environment` builds.
- EnvDependencies.Dependencies.constructor: stores `raw` as given; the source's `raw` also gains the entries `parse` appends to an aliased `conda:` section. Section values are always lists of strings in the model, so a bare `- pip:` (a `None` value, env.py:205,210) cannot be written.
- EnvDependencies.Dependencies.Parse: states that `raw` is unchanged, which holds only when `raw` has no `conda:` section. A mapping entry's value is always a list of strings in the model (`Values.Item.Section`), so a section with a `None` value, such as a bare `- pip:`, cannot be written; the source stores that `None` (env.py:205) and then deletes a `None` pip entry (env.py:210).
- EnvDependencies.Dependencies.ReadLines: the plain entries after a `conda:` section are appended to that section inside `raw` as well; the model leaves `raw` alone. Section values are always lists of strings in the model, so a bare `- pip:` (a `None` value, env.py:205,210) cannot be written.
- EnvDependencies.Dependencies.FinishPip: the `pip` appended to conda also lands in an aliased `conda:` section of `raw`; the model leaves `raw` alone. Section values are always lists of strings in the model, so a bare `- pip:` (a `None` value, env.py:205,210) cannot be written.
- EnvDependencies.Dependencies.Add: `raw` gains exactly the new entry in the model. In the source the re-parse also appends the plain entries after a `conda:` section to that section a second time. Section values are always lists of strings in the model, so a bare `- pip:` (a `None` value, env.py:205,210) cannot be written.
- CreateCommand.DryRunConda: the in-place `extend` at conda_turbo/cli/main_env_create.py:55-56 also grows an aliased `conda:` section of `raw`; the model extends the parsed conda entry and leaves `raw` unchanged. Section values are always lists of strings in the model, so a bare `- pip:` (a `None` value, env.py:205,210) cannot be written.
- CreateCommand.Execute: in a dry run, the source's `raw` also grows by the default packages when the conda entry is an aliased `conda:` section; the model leaves `raw` unchanged. Section values are always lists of strings in the model, so a bare `- pip:` (a `None` value, env.py:205,210) cannot be written.

## Findings

| source | as written | input that shows it | evidently intended | confidence | as-written member | corrected member |
|---|---|---|---|---|---|---|
| conda_turbo/cli/main_env_export.py:34-35 | the file is opened in binary mode (`"wb"`), and `to_dict(stream=fp)` writes the `str` that `json.dumps` returns, which a binary file refuses with `TypeError` | `conda env export --json --file env.json` | the JSON mapping is written to the file, as the YAML one is | high, not executed | ExportCommand.Emit (with ExportCommand.JsonToFileFails) | ExportCommand.EmitIntended (with ExportCommand.EmitIntendedWrites) |
