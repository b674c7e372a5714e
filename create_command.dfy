/**
 * `execute` of `conda env create` (conda_turbo/cli/main_env_create.py): the
 * order in which installers are called, with which spec lists, what ends up
 * in the result map, when the environment variables are written, and how a
 * missing installer is reported.  Installers, the prefix on disk and conda's
 * configuration are parameters; every call made on them is recorded.
 */
module CreateCommand {
  import opened Wrappers
  import opened Dict
  import opened Values
  import opened Seqs
  import opened EnvDependencies
  import opened Env

  /** A call the command makes on the outside world. */
  datatype Call =
    | RemovePrefix(prefix: string)                                    // rm_rf(prefix)
    | DryRun(specs: seq<string>)                                      // the conda installer's dry_run
    | Install(installer: string, prefix: string, specs: seq<string>)  // installer.install(prefix, specs, ...)
    | SetVariables(prefix: string, variables: Value)                  // set_environment_env_vars

  /** What the command raises. */
  datatype Failure =
    | InvalidInstaller(installer: string)  // get_installer knows no installer of that name
    | Raised(message: string)              // any other exception, passed on unchanged
    | UnableToInstall(installer: string)   // the CondaError naming the ecosystem

  /** The installers `get_installer` can load, and what each call raises, if anything. */
  datatype Installers = Installers(known: set<string>, raises: Call -> Option<Failure>)

  /** The parts of conda the command consults. */
  datatype Host = Host(
    rootPrefix: string,                       // context.root_prefix
    createDefaultPackages: seq<string>,       // context.create_default_packages
    targetPrefix: (Value, Value) -> string,   // determine_target_prefix, from args.name and args.prefix
    onDisk: string -> bool,                   // os.path.exists
    checkPrefix: string -> Option<Failure>)   // cli_install.check_prefix: what it raises, if anything

  /** The flags the command reads, besides the name. */
  datatype Flags = Flags(prefix: Value, yes: bool, dryRun: bool, noDefaultPackages: bool)

  /** The parsed command line; `execute` may overwrite `name`. */
  class CreateArgs {
    var name: Value
    const flags: Flags

    constructor (name: Value, flags: Flags)
      ensures this.name == name && this.flags == flags
    {
      this.name := name;
      this.flags := flags;
    }
  }

  /** The result map: installer name to the call whose return value it holds. */
  type Results = seq<(string, Option<Call>)>

  const InitialResults: Results := [("conda", None), ("pip", None)]

  /** The command's return value and its result map. */
  datatype Done = Done(exitCode: int, result: Results)

  /** One installation: which installer, which specs, and whether it runs
      inside the `try` of the per-ecosystem loop. */
  datatype Step = Step(installer: string, specs: seq<string>, guarded: bool)

  /** The state after some installations: the result map, the calls made,
      and the exception that stopped it, if any. */
  datatype Run = Run(result: Results, trace: seq<Call>, error: Option<Failure>)

  /** The name the command goes on with: the environment's own name when
      neither `--prefix` nor `--name` is given. */
  function ChosenName(name: Value, flags: Flags, envName: Value): (r: Value)
    ensures !name.Null? || !flags.prefix.Null? ==> r == name
    ensures flags.prefix.Null? && name.Null? ==> r == envName
  {
    if flags.prefix.Null? && name.Null? then envName else name
  }

  /** `args_packages`. */
  function DefaultPackages(flags: Flags, host: Host): (r: seq<string>)
    ensures r != [] <==> !flags.noDefaultPackages && host.createDefaultPackages != []
    ensures r != [] ==> r == host.createDefaultPackages
  {
    if !flags.noDefaultPackages then host.createDefaultPackages else []
  }

  /** The exception a failing step ends with: inside the loop a missing
      installer becomes the error naming the ecosystem; anything else passes
      through as raised. */
  function Wrap(s: Step, e: Failure): (r: Failure)
    ensures s.guarded && e.InvalidInstaller? ==> r == UnableToInstall(s.installer)
    ensures !(s.guarded && e.InvalidInstaller?) ==> r == e
  {
    if s.guarded && e.InvalidInstaller? then UnableToInstall(s.installer) else e
  }

  /** The call a step makes once its installer is loaded. */
  function CallOf(s: Step, prefix: string): Call {
    Install(s.installer, prefix, s.specs)
  }

  /** The step's installer loads and its call returns normally. */
  predicate Succeeds(s: Step, prefix: string, inst: Installers) {
    s.installer in inst.known && inst.raises(CallOf(s, prefix)).None?
  }

  /** `result[t] = get_installer(t).install(prefix, specs, args, env)`. */
  function Attempt(run: Run, s: Step, prefix: string, inst: Installers): (r: Run)
    requires run.error.None?
    ensures r.error.None? <==> Succeeds(s, prefix, inst)
  {
    if s.installer !in inst.known then run.(error := Some(Wrap(s, InvalidInstaller(s.installer))))
    else
      var call := CallOf(s, prefix);
      var raised := inst.raises(call);
      if raised.Some? then Run(run.result, run.trace + [call], Some(Wrap(s, raised.value)))
      else Run(Put(run.result, s.installer, Some(call)), run.trace + [call], None)
  }

  /** The steps in order, stopping at the first exception. */
  function RunSteps(run: Run, steps: seq<Step>, prefix: string, inst: Installers): (r: Run)
    ensures run.error.Some? ==> r == run
  {
    if steps == [] || run.error.Some? then run
    else
      var prev := RunSteps(run, steps[..|steps| - 1], prefix, inst);
      if prev.error.Some? then prev else Attempt(prev, steps[|steps| - 1], prefix, inst)
  }

  /** The installations only add calls after those made before them. */
  lemma {:induction false} RunStepsKeepsTrace(run: Run, steps: seq<Step>, prefix: string, inst: Installers)
    ensures var r := RunSteps(run, steps, prefix, inst);
      |run.trace| <= |r.trace| && r.trace[..|run.trace|] == run.trace
    decreases |steps|
  {
    if steps != [] && run.error.None? {
      RunStepsKeepsTrace(run, steps[..|steps| - 1], prefix, inst);
    }
  }

  /** One guarded installation per ecosystem, in map order. */
  function EcosystemSteps(items: Specs): (steps: seq<Step>)
    ensures |steps| == |items|
    ensures forall i :: 0 <= i < |items| ==> steps[i] == Step(items[i].0, items[i].1, true)
  {
    seq(|items|, i requires 0 <= i < |items| => Step(items[i].0, items[i].1, true))
  }

  /** The installations of a real (not dry) run: the default packages with
      conda when there are any, then one conda install of nothing for an
      empty dependency map, or else one per ecosystem in map order. */
  function Steps(items: Specs, defaults: seq<string>): (steps: seq<Step>)
    ensures |steps| == (if defaults != [] then 1 else 0) + (if items == [] then 1 else |items|)
    ensures defaults != [] ==> steps[0] == Step("conda", defaults, false)
    ensures items == [] ==> steps[|steps| - 1] == Step("conda", [], false)
  {
    (if defaults != [] then [Step("conda", defaults, false)] else [])
    + (if items == [] then [Step("conda", [], false)]
       else EcosystemSteps(items))
  }

  /** The calls of steps that all succeed. */
  function CallsOf(steps: seq<Step>, prefix: string): (calls: seq<Call>)
    ensures |calls| == |steps| && forall i :: 0 <= i < |steps| ==> calls[i] == CallOf(steps[i], prefix)
  {
    seq(|steps|, i requires 0 <= i < |steps| => CallOf(steps[i], prefix))
  }

  /** The calls made before any installer is looked at. */
  function Removal(prefix: string, flags: Flags, host: Host): seq<Call> {
    if flags.yes && prefix != host.rootPrefix && host.onDisk(prefix) then [RemovePrefix(prefix)] else []
  }

  /** What `execute` returns, and the calls it makes. */
  datatype Outcome = Outcome(result: Result<Done, Failure>, trace: seq<Call>)

  /** `determine_target_prefix` once the name is settled. */
  function TargetPrefix(name: Value, flags: Flags, envName: Value, host: Host): (p: string)
    ensures !name.Null? || !flags.prefix.Null? ==> p == host.targetPrefix(name, flags.prefix)
    ensures flags.prefix.Null? && name.Null? ==> p == host.targetPrefix(envName, Null)
  {
    host.targetPrefix(ChosenName(name, flags, envName), flags.prefix)
  }

  /** `execute(args, parser)` on an environment with parsed dependencies
      `items` and environment variables `variables`.  The removal, if any,
      comes first; whatever returns normally returns 0. */
  function Create(name: Value, flags: Flags, items: Specs, envName: Value, variables: Value,
                  host: Host, inst: Installers): (o: Outcome)
    ensures var removal := Removal(TargetPrefix(name, flags, envName, host), flags, host);
      |removal| <= |o.trace| && o.trace[..|removal|] == removal
    ensures o.result.Success? ==> o.result.value.exitCode == 0
  {
    var prefix := TargetPrefix(name, flags, envName, host);
    var removal := Removal(prefix, flags, host);
    var defaults := DefaultPackages(flags, host);
    var rejected := host.checkPrefix(prefix);
    RunStepsKeepsTrace(Run(InitialResults, removal, None), Steps(items, defaults), prefix, inst);
    if rejected.Some? then Outcome(Failure(rejected.value), removal)
    else if flags.dryRun then DryRunOutcome(items, defaults, removal, inst)
    else InstallOutcome(items, defaults, variables, prefix, removal, inst)
  }

  /** A prefix `check_prefix` rejects ends the command with its exception
      before any installer is looked at: the removal is the only call. */
  lemma CreateRejectedPrefix(name: Value, flags: Flags, items: Specs, envName: Value, variables: Value,
                             host: Host, inst: Installers)
    requires host.checkPrefix(TargetPrefix(name, flags, envName, host)).Some?
    ensures var o := Create(name, flags, items, envName, variables, host, inst);
      var prefix := TargetPrefix(name, flags, envName, host);
      o.result == Failure(host.checkPrefix(prefix).value) &&
      o.trace == Removal(prefix, flags, host) &&
      forall c :: c in o.trace ==> !c.Install? && !c.DryRun? && !c.SetVariables?
  {
  }

  /** The dry run: only the conda installer is asked, and only to solve. */
  function DryRunOutcome(items: Specs, defaults: seq<string>, removal: seq<Call>, inst: Installers): (o: Outcome)
    ensures |removal| <= |o.trace| <= |removal| + 1 && o.trace[..|removal|] == removal
    ensures forall i :: |removal| <= i < |o.trace| ==> o.trace[i].DryRun?
    ensures o.result.Success? ==> o.result.value == Done(0, InitialResults)
    ensures "conda" !in inst.known ==> o.result == Failure(InvalidInstaller("conda"))
  {
    if "conda" !in inst.known then Outcome(Failure(InvalidInstaller("conda")), removal)
    else
      var call := DryRun(GetOr(items, "conda", []) + defaults);
      var raised := inst.raises(call);
      Outcome(if raised.Some? then Failure(raised.value) else Success(Done(0, InitialResults)),
              removal + [call])
  }

  /** The real run: the installations, then the variables when there are any. */
  function InstallOutcome(items: Specs, defaults: seq<string>, variables: Value, prefix: string,
                          removal: seq<Call>, inst: Installers): (o: Outcome)
    ensures |removal| <= |o.trace| && o.trace[..|removal|] == removal
    ensures o.result.Success? ==> o.result.value.exitCode == 0
    ensures o.result.Success? && Truthy(variables) ==> o.trace != [] && o.trace[|o.trace| - 1] == SetVariables(prefix, variables)
  {
    RunStepsKeepsTrace(Run(InitialResults, removal, None), Steps(items, defaults), prefix, inst);
    var run := RunSteps(Run(InitialResults, removal, None), Steps(items, defaults), prefix, inst);
    if run.error.Some? then Outcome(Failure(run.error.value), run.trace)
    else Outcome(Success(Done(0, run.result)),
                 run.trace + if Truthy(variables) then [SetVariables(prefix, variables)] else [])
  }

  /** The conda list after the dry run extends it in place; without a conda
      entry the extended list is a fresh one and the map is unchanged. */
  function ExtendedConda(items: Specs, defaults: seq<string>): (r: Specs)
    ensures Keys(r) == Keys(items) && (Distinct(items) ==> Distinct(r))
    ensures "conda" in Keys(items) ==> Get(r, "conda") == Some(Get(items, "conda").value + defaults)
    ensures forall k :: k != "conda" ==> Get(r, k) == Get(items, k)
  {
    if "conda" in Keys(items) then Put(items, "conda", GetOr(items, "conda", []) + defaults) else items
  }

  /** `execute`.  The environment is the one the spec file describes. */
  method Execute(args: CreateArgs, env: Environment, host: Host, inst: Installers)
    returns (r: Result<Done, Failure>, trace: seq<Call>)
    requires env.Valid()
    modifies args, env.dependencies
    ensures var o := Create(old(args.name), args.flags, old(env.dependencies.items), env.name,
                            env.variables, host, inst);
      r == o.result && trace == o.trace
    ensures args.name == ChosenName(old(args.name), args.flags, env.name)
    ensures env.dependencies.raw == old(env.dependencies.raw)
    ensures env.dependencies.items ==
      if args.flags.dryRun && "conda" in inst.known &&
         host.checkPrefix(TargetPrefix(old(args.name), args.flags, env.name, host)).None?
      then ExtendedConda(old(env.dependencies.items), DefaultPackages(args.flags, host))
      else old(env.dependencies.items)
  {
    ghost var name0, items0 := args.name, env.dependencies.items;
    if args.flags.prefix.Null? && args.name.Null? {
      args.name := env.name;
    }
    var prefix := host.targetPrefix(args.name, args.flags.prefix);
    trace := RemoveExisting(prefix, args.flags, host);
    ghost var removal := trace;
    ghost var o := Create(name0, args.flags, items0, env.name, env.variables, host, inst);
    var rejected := host.checkPrefix(prefix);
    if rejected.Some? {
      assert o == Outcome(Failure(rejected.value), removal);
      return Failure(rejected.value), trace;
    }
    var result := InitialResults;
    var argsPackages := if !args.flags.noDefaultPackages then host.createDefaultPackages else [];
    if args.flags.dryRun {
      assert o == DryRunOutcome(items0, argsPackages, removal, inst);
      r, trace := DryRunConda(env.dependencies, argsPackages, result, trace, inst);
      return;
    }
    assert o == InstallOutcome(items0, argsPackages, env.variables, prefix, removal, inst);
    r, trace := RealRun(env.dependencies.items, argsPackages, env.variables, prefix, trace, inst);
  }

  /** The real run: the installations, stopping at the first exception,
      then the variables when there are any. */
  method RealRun(items: Specs, defaults: seq<string>, variables: Value, prefix: string,
                 removal: seq<Call>, inst: Installers)
    returns (r: Result<Done, Failure>, trace: seq<Call>)
    ensures var o := InstallOutcome(items, defaults, variables, prefix, removal, inst);
      r == o.result && trace == o.trace
  {
    var run := InstallAll(Run(InitialResults, removal, None), items, defaults, prefix, inst);
    if run.error.Some? {
      return Failure(run.error.value), run.trace;
    }
    trace := run.trace;
    if Truthy(variables) {
      trace := trace + [SetVariables(prefix, variables)];
    }
    r := Success(Done(0, run.result));
  }

  /** `rm_rf(prefix)` under `--yes` when the prefix exists and is not the
      root prefix. */
  method RemoveExisting(prefix: string, flags: Flags, host: Host) returns (trace: seq<Call>)
    ensures trace == Removal(prefix, flags, host)
    ensures trace != [] <==> flags.yes && prefix != host.rootPrefix && host.onDisk(prefix)
  {
    trace := [];
    if flags.yes && prefix != host.rootPrefix && host.onDisk(prefix) {
      trace := trace + [RemovePrefix(prefix)];
    }
  }

  /** The dry-run branch: the conda list, extended in place by the default
      packages, goes to the conda installer's `dry_run`. */
  method DryRunConda(deps: Dependencies, defaults: seq<string>, result: Results, trace0: seq<Call>,
                     inst: Installers)
    returns (r: Result<Done, Failure>, trace: seq<Call>)
    modifies deps
    ensures "conda" !in inst.known ==> r == Failure(InvalidInstaller("conda")) && trace == trace0
    ensures "conda" in inst.known ==>
      var call := DryRun(GetOr(old(deps.items), "conda", []) + defaults);
      trace == trace0 + [call] &&
      r == if inst.raises(call).Some? then Failure(inst.raises(call).value) else Success(Done(0, result))
    ensures deps.raw == old(deps.raw)
    ensures deps.items == if "conda" in inst.known then ExtendedConda(old(deps.items), defaults) else old(deps.items)
  {
    trace := trace0;
    if "conda" !in inst.known {
      return Failure(InvalidInstaller("conda")), trace;
    }
    var pkgSpecs := GetOr(deps.items, "conda", []);
    pkgSpecs := pkgSpecs + defaults;
    if "conda" in Keys(deps.items) {
      deps.items := Put(deps.items, "conda", pkgSpecs);
    }
    var call := DryRun(pkgSpecs);
    trace := trace + [call];
    var raised := inst.raises(call);
    if raised.Some? {
      return Failure(raised.value), trace;
    }
    r := Success(Done(0, result));
  }

  /** The installing branch: the default packages first, then the
      dependency map. */
  method InstallAll(start: Run, items: Specs, defaults: seq<string>, prefix: string, inst: Installers)
    returns (run: Run)
    requires start.error.None?
    ensures run == RunSteps(start, Steps(items, defaults), prefix, inst)
  {
    var first := if defaults != [] then [Step("conda", defaults, false)] else [];
    run := start;
    if defaults != [] {
      run := InstallStep(run, Step("conda", defaults, false), prefix, inst);
      if run.error.Some? {
        StepsStop(start, first, Steps(items, defaults), prefix, inst);
        return;
      }
    } else {
      assert first == [];
    }
    ghost var rest := if items == [] then [Step("conda", [], false)]
      else EcosystemSteps(items);
    assert Steps(items, defaults) == first + rest;
    if |items| == 0 {
      run := InstallStep(run, Step("conda", [], false), prefix, inst);
    } else {
      run := InstallEach(run, items, prefix, inst);
    }
    RunStepsAppend(start, first, rest, prefix, inst);
  }

  /** One installation. */
  method InstallStep(run: Run, s: Step, prefix: string, inst: Installers) returns (next: Run)
    requires run.error.None?
    ensures next == Attempt(run, s, prefix, inst)
    ensures next == RunSteps(run, [s], prefix, inst)
  {
    assert [s][..0] == [];
    if s.installer !in inst.known {
      return run.(error := Some(Wrap(s, InvalidInstaller(s.installer))));
    }
    var call := Install(s.installer, prefix, s.specs);
    var raised := inst.raises(call);
    if raised.Some? {
      return Run(run.result, run.trace + [call], Some(Wrap(s, raised.value)));
    }
    next := Run(Put(run.result, s.installer, Some(call)), run.trace + [call], None);
  }

  /** The loop over `env.dependencies.items()`, each install inside the `try`. */
  method InstallEach(run0: Run, items: Specs, prefix: string, inst: Installers) returns (run: Run)
    requires run0.error.None?
    ensures run == RunSteps(run0, EcosystemSteps(items), prefix, inst)
  {
    ghost var steps := EcosystemSteps(items);
    run := run0;
    assert steps[..0] == [];
    var i := 0;
    while i < |items|
      invariant 0 <= i <= |items|
      invariant run == RunSteps(run0, steps[..i], prefix, inst)
      invariant run.error.None?
    {
      var s := Step(items[i].0, items[i].1, true);
      RunStepsSnoc(run0, steps, i, prefix, inst);
      run := InstallStep(run, s, prefix, inst);
      if run.error.Some? {
        RunStepsStop(run0, steps, i + 1, prefix, inst);
        return;
      }
      i := i + 1;
    }
    assert steps[..|items|] == steps;
  }

  /** Once an exception is raised, later steps change nothing. */
  lemma {:induction false} RunStepsStop(run: Run, steps: seq<Step>, i: nat, prefix: string, inst: Installers)
    requires i <= |steps|
    requires RunSteps(run, steps[..i], prefix, inst).error.Some?
    ensures RunSteps(run, steps, prefix, inst) == RunSteps(run, steps[..i], prefix, inst)
    decreases |steps| - i
  {
    if i < |steps| {
      RunStepsSnoc(run, steps, i, prefix, inst);
      RunStepsStop(run, steps, i + 1, prefix, inst);
    } else {
      assert steps[..i] == steps;
    }
  }

  /** Running `a + b` is running `a`, then `b` from where `a` stopped. */
  lemma {:induction false} RunStepsAppend(run: Run, a: seq<Step>, b: seq<Step>, prefix: string, inst: Installers)
    ensures RunSteps(run, a + b, prefix, inst) == RunSteps(RunSteps(run, a, prefix, inst), b, prefix, inst)
    decreases |b|
  {
    if b == [] {
      assert a + b == a;
    } else if run.error.None? {
      var b', last := b[..|b| - 1], b[|b| - 1];
      RunStepsAppend(run, a, b', prefix, inst);
      assert (a + b)[..|a + b| - 1] == a + b';
      assert (a + b)[|a + b| - 1] == last;
      var p := RunSteps(run, a + b', prefix, inst);
      var m := RunSteps(run, a, prefix, inst);
      assert RunSteps(run, a + b, prefix, inst) == if p.error.Some? then p else Attempt(p, last, prefix, inst);
      assert p == RunSteps(m, b', prefix, inst);
      if m.error.None? {
        assert RunSteps(m, b, prefix, inst) == if p.error.Some? then p else Attempt(p, last, prefix, inst);
      }
    }
  }

  /** One more step runs from where the earlier ones stopped. */
  lemma RunStepsSnoc(run: Run, steps: seq<Step>, i: nat, prefix: string, inst: Installers)
    requires i < |steps|
    ensures var prev := RunSteps(run, steps[..i], prefix, inst);
      RunSteps(run, steps[..i + 1], prefix, inst) ==
        if prev.error.Some? then prev else Attempt(prev, steps[i], prefix, inst)
  {
    assert steps[..i + 1][..i] == steps[..i];
  }

  /** A failure in the first part is the failure of the whole. */
  lemma StepsStop(run: Run, a: seq<Step>, steps: seq<Step>, prefix: string, inst: Installers)
    requires |a| <= |steps| && steps[..|a|] == a
    requires RunSteps(run, a, prefix, inst).error.Some?
    ensures RunSteps(run, steps, prefix, inst) == RunSteps(run, a, prefix, inst)
  {
    RunStepsStop(run, steps, |a|, prefix, inst);
  }
  /** The exception of a step that does not succeed. */
  function StepError(s: Step, prefix: string, inst: Installers): Failure
    requires !Succeeds(s, prefix, inst)
  {
    if s.installer !in inst.known then Wrap(s, InvalidInstaller(s.installer))
    else Wrap(s, inst.raises(CallOf(s, prefix)).value)
  }

  /** Steps that all succeed make their calls in order and raise nothing. */
  lemma {:induction false} RunStepsSucceed(run: Run, steps: seq<Step>, prefix: string, inst: Installers)
    requires run.error.None?
    requires forall i :: 0 <= i < |steps| ==> Succeeds(steps[i], prefix, inst)
    ensures var r := RunSteps(run, steps, prefix, inst);
      r.error.None? && r.trace == run.trace + CallsOf(steps, prefix)
  {
    if steps == [] {
      assert run.trace + [] == run.trace;
    } else {
      var n := |steps| - 1;
      var init, last := steps[..n], steps[n];
      forall i | 0 <= i < |init|
        ensures Succeeds(init[i], prefix, inst)
      {
        assert init[i] == steps[i];
      }
      RunStepsSucceed(run, init, prefix, inst);
      RunStepsSnoc(run, steps, n, prefix, inst);
      assert steps[..n + 1] == steps;
      CallsOfSnoc(steps, prefix);
      ConcatAssoc(run.trace, CallsOf(init, prefix), [CallOf(last, prefix)]);
    }
  }

  /** The calls of one step more. */
  lemma CallsOfSnoc(steps: seq<Step>, prefix: string)
    requires steps != []
    ensures CallsOf(steps, prefix) == CallsOf(steps[..|steps| - 1], prefix) + [CallOf(steps[|steps| - 1], prefix)]
  {
    var a := CallsOf(steps, prefix);
    var b := CallsOf(steps[..|steps| - 1], prefix) + [CallOf(steps[|steps| - 1], prefix)];
    assert |a| == |b|;
    forall i | 0 <= i < |a| ensures a[i] == b[i] {
    }
  }

  /** The result map holds, for an installer, the call of its last step. */
  lemma {:induction false} RunStepsResult(run: Run, steps: seq<Step>, prefix: string, inst: Installers, j: nat)
    requires run.error.None?
    requires forall i :: 0 <= i < |steps| ==> Succeeds(steps[i], prefix, inst)
    requires j < |steps|
    requires forall i :: j < i < |steps| ==> steps[i].installer != steps[j].installer
    ensures Get(RunSteps(run, steps, prefix, inst).result, steps[j].installer) == Some(Some(CallOf(steps[j], prefix)))
  {
    var init := steps[..|steps| - 1];
    RunStepsSucceed(run, init, prefix, inst);
    if j < |steps| - 1 {
      RunStepsResult(run, init, prefix, inst, j);
    }
  }

  /** The first step that does not succeed ends the run with its exception,
      after the calls of the steps before it and its own call, if its
      installer loaded. */
  lemma RunStepsFailure(run: Run, steps: seq<Step>, prefix: string, inst: Installers, j: nat)
    requires run.error.None?
    requires j < |steps|
    requires forall i :: 0 <= i < j ==> Succeeds(steps[i], prefix, inst)
    requires !Succeeds(steps[j], prefix, inst)
    ensures var r := RunSteps(run, steps, prefix, inst);
      r.error == Some(StepError(steps[j], prefix, inst)) &&
      r.trace == run.trace + CallsOf(steps[..j], prefix) +
        if steps[j].installer in inst.known then [CallOf(steps[j], prefix)] else []
  {
    var init := steps[..j];
    RunStepsSucceed(run, init, prefix, inst);
    assert steps[..j + 1][..j] == init;
    assert steps[..j + 1][j] == steps[j];
    RunStepsStop(run, steps, j + 1, prefix, inst);
  }

  /** A dry run asks the conda installer to solve the conda specs followed
      by the default packages; it installs nothing and writes no variables. */
  lemma CreateDryRun(name: Value, flags: Flags, items: Specs, envName: Value, variables: Value,
                     host: Host, inst: Installers)
    requires flags.dryRun
    requires host.checkPrefix(TargetPrefix(name, flags, envName, host)).None?
    ensures var o := Create(name, flags, items, envName, variables, host, inst);
      var prefix := TargetPrefix(name, flags, envName, host);
      (forall c :: c in o.trace ==>
         c in Removal(prefix, flags, host) || c == DryRun(GetOr(items, "conda", []) + DefaultPackages(flags, host))) &&
      (o.result.Success? ==> o.result.value == Done(0, InitialResults)) &&
      ("conda" in inst.known ==> o.trace[|o.trace| - 1] == DryRun(GetOr(items, "conda", []) + DefaultPackages(flags, host)))
  {
  }

  /** When every installation succeeds: the default packages go first to
      conda, then either one conda install of nothing (empty dependency
      map) or one install per ecosystem in map order, then the variables
      when there are any; and `execute` returns 0. */
  lemma CreateInstalls(name: Value, flags: Flags, items: Specs, envName: Value, variables: Value,
                       host: Host, inst: Installers)
    requires !flags.dryRun
    requires host.checkPrefix(TargetPrefix(name, flags, envName, host)).None?
    requires var steps := Steps(items, DefaultPackages(flags, host));
      forall i :: 0 <= i < |steps| ==> Succeeds(steps[i], TargetPrefix(name, flags, envName, host), inst)
    ensures var o := Create(name, flags, items, envName, variables, host, inst);
      var prefix := TargetPrefix(name, flags, envName, host);
      var defaults := DefaultPackages(flags, host);
      o.result.Success? && o.result.value.exitCode == 0 &&
      o.trace == Removal(prefix, flags, host)
        + ((if defaults != [] then [Install("conda", prefix, defaults)] else [])
           + (if items == [] then [Install("conda", prefix, [])] else EcosystemInstalls(items, prefix)))
        + (if Truthy(variables) then [SetVariables(prefix, variables)] else [])
  {
    var prefix := TargetPrefix(name, flags, envName, host);
    var defaults := DefaultPackages(flags, host);
    var removal := Removal(prefix, flags, host);
    var o := InstallOutcome(items, defaults, variables, prefix, removal, inst);
    assert Create(name, flags, items, envName, variables, host, inst) == o;
    InstallOutcomeSucceeds(items, defaults, variables, prefix, removal, inst);
    StepsCalls(items, defaults, prefix);
  }

  /** The real run when every installation succeeds, before the calls are
      spelled out. */
  lemma InstallOutcomeSucceeds(items: Specs, defaults: seq<string>, variables: Value, prefix: string,
                               removal: seq<Call>, inst: Installers)
    requires var steps := Steps(items, defaults);
      forall i :: 0 <= i < |steps| ==> Succeeds(steps[i], prefix, inst)
    ensures var o := InstallOutcome(items, defaults, variables, prefix, removal, inst);
      o.result.Success? && o.result.value.exitCode == 0 &&
      o.trace == removal + CallsOf(Steps(items, defaults), prefix)
        + (if Truthy(variables) then [SetVariables(prefix, variables)] else [])
  {
    RunStepsSucceed(Run(InitialResults, removal, None), Steps(items, defaults), prefix, inst);
  }

  /** One install per ecosystem of the map, in order, with its own list. */
  function EcosystemInstalls(items: Specs, prefix: string): (calls: seq<Call>)
    ensures |calls| == |items|
    ensures forall i :: 0 <= i < |items| ==> calls[i] == Install(items[i].0, prefix, items[i].1)
  {
    seq(|items|, i requires 0 <= i < |items| => Install(items[i].0, prefix, items[i].1))
  }

  /** The calls of the installations, spelled out. */
  lemma StepsCalls(items: Specs, defaults: seq<string>, prefix: string)
    ensures CallsOf(Steps(items, defaults), prefix) ==
      (if defaults != [] then [Install("conda", prefix, defaults)] else [])
      + (if items == [] then [Install("conda", prefix, [])]
         else EcosystemInstalls(items, prefix))
  {
    var steps := Steps(items, defaults);
    var a := CallsOf(steps, prefix);
    var b := (if defaults != [] then [Install("conda", prefix, defaults)] else [])
      + (if items == [] then [Install("conda", prefix, [])]
         else EcosystemInstalls(items, prefix));
    var off := if defaults != [] then 1 else 0;
    assert |a| == |b|;
    forall i | 0 <= i < |a| ensures a[i] == b[i] {
      if i < off {
        assert steps[i] == Step("conda", defaults, false);
      } else if items == [] {
        assert steps[i] == Step("conda", [], false);
      } else {
        assert steps[i] == steps[off..][i - off] == EcosystemSteps(items)[i - off];
      }
    }
  }

  /** When every installation succeeds, the result map holds each
      ecosystem's own install, so the dependency map's conda install
      replaces the default-packages one; with an empty map it is the conda
      install of nothing. */
  lemma CreateResults(name: Value, flags: Flags, items: Specs, envName: Value, variables: Value,
                      host: Host, inst: Installers)
    requires !flags.dryRun && Distinct(items)
    requires host.checkPrefix(TargetPrefix(name, flags, envName, host)).None?
    requires var steps := Steps(items, DefaultPackages(flags, host));
      forall i :: 0 <= i < |steps| ==> Succeeds(steps[i], TargetPrefix(name, flags, envName, host), inst)
    ensures var o := Create(name, flags, items, envName, variables, host, inst);
      var prefix := TargetPrefix(name, flags, envName, host);
      o.result.Success? &&
      (forall i :: 0 <= i < |items| ==>
         Get(o.result.value.result, items[i].0) == Some(Some(Install(items[i].0, prefix, items[i].1)))) &&
      (items == [] ==> Get(o.result.value.result, "conda") == Some(Some(Install("conda", prefix, []))))
  {
    var prefix := TargetPrefix(name, flags, envName, host);
    var defaults := DefaultPackages(flags, host);
    var removal := Removal(prefix, flags, host);
    assert Create(name, flags, items, envName, variables, host, inst) ==
      InstallOutcome(items, defaults, variables, prefix, removal, inst);
    InstallOutcomeResults(items, defaults, variables, prefix, removal, inst);
  }

  /** The result map of a real run whose installations all succeed. */
  lemma InstallOutcomeResults(items: Specs, defaults: seq<string>, variables: Value, prefix: string,
                              removal: seq<Call>, inst: Installers)
    requires Distinct(items)
    requires var steps := Steps(items, defaults);
      forall i :: 0 <= i < |steps| ==> Succeeds(steps[i], prefix, inst)
    ensures var o := InstallOutcome(items, defaults, variables, prefix, removal, inst);
      o.result.Success? &&
      (forall i :: 0 <= i < |items| ==>
         Get(o.result.value.result, items[i].0) == Some(Some(Install(items[i].0, prefix, items[i].1)))) &&
      (items == [] ==> Get(o.result.value.result, "conda") == Some(Some(Install("conda", prefix, []))))
  {
    var steps := Steps(items, defaults);
    var start := Run(InitialResults, removal, None);
    RunStepsSucceed(start, steps, prefix, inst);
    var run := RunSteps(start, steps, prefix, inst);
    assert InstallOutcome(items, defaults, variables, prefix, removal, inst).result == Success(Done(0, run.result));
    if items == [] {
      RunStepsResult(start, steps, prefix, inst, |steps| - 1);
    } else {
      forall i | 0 <= i < |items|
        ensures Get(run.result, items[i].0) == Some(Some(Install(items[i].0, prefix, items[i].1)))
      {
        EcosystemResult(start, items, defaults, prefix, inst, i);
      }
    }
  }

  /** An ecosystem's entry of the result map holds its own install: no
      later installation uses its installer. */
  lemma EcosystemResult(start: Run, items: Specs, defaults: seq<string>, prefix: string,
                        inst: Installers, i: nat)
    requires start.error.None? && Distinct(items) && i < |items|
    requires var steps := Steps(items, defaults);
      forall k :: 0 <= k < |steps| ==> Succeeds(steps[k], prefix, inst)
    ensures Get(RunSteps(start, Steps(items, defaults), prefix, inst).result, items[i].0) ==
      Some(Some(Install(items[i].0, prefix, items[i].1)))
  {
    var steps := Steps(items, defaults);
    var j := |steps| - |items| + i;
    LaterSteps(items, defaults, i);
    StepsAt(items, defaults, i);
    assert steps[j] == Step(items[i].0, items[i].1, true);
    assert CallOf(steps[j], prefix) == Install(items[i].0, prefix, items[i].1);
    assert forall m :: j < m < |steps| ==> steps[m].installer != steps[j].installer;
    RunStepsResult(start, steps, prefix, inst, j);
  }

  /** No later installation uses the installer of the `i`-th ecosystem. */
  lemma LaterSteps(items: Specs, defaults: seq<string>, i: nat)
    requires Distinct(items) && i < |items|
    ensures var steps := Steps(items, defaults);
      var off := |steps| - |items|;
      steps[off + i].installer == items[i].0 &&
      forall m :: off + i < m < |steps| ==> steps[m].installer != items[i].0
  {
    forall k | i < k < |items|
      ensures items[k].0 != items[i].0
    {
      DistinctKeysDiffer(items, i, k);
    }
    LaterStepsOther(items, defaults, i);
  }

  /** As `LaterSteps`, given that no later ecosystem shares the name. */
  lemma LaterStepsOther(items: Specs, defaults: seq<string>, i: nat)
    requires i < |items|
    requires forall k :: i < k < |items| ==> items[k].0 != items[i].0
    ensures var steps := Steps(items, defaults);
      var off := |steps| - |items|;
      steps[off + i].installer == items[i].0 &&
      forall m :: off + i < m < |steps| ==> steps[m].installer != items[i].0
  {
    var steps := Steps(items, defaults);
    var off := |steps| - |items|;
    StepsAt(items, defaults, i);
    forall m | off + i < m < |steps| ensures steps[m].installer != items[i].0 {
      StepsAt(items, defaults, m - off);
    }
  }

  /** The installation of the `i`-th ecosystem of the map. */
  lemma StepsAt(items: Specs, defaults: seq<string>, i: nat)
    requires i < |items|
    ensures var steps := Steps(items, defaults);
      |items| <= |steps| && steps[|steps| - |items| + i] == Step(items[i].0, items[i].1, true)
  {
  }

  /** The first installation that does not succeed ends the command with
      its exception; the variables are never written. */
  lemma CreateFailure(name: Value, flags: Flags, items: Specs, envName: Value, variables: Value,
                      host: Host, inst: Installers, j: nat)
    requires !flags.dryRun
    requires host.checkPrefix(TargetPrefix(name, flags, envName, host)).None?
    requires var steps := Steps(items, DefaultPackages(flags, host));
      var prefix := TargetPrefix(name, flags, envName, host);
      j < |steps| && (forall i :: 0 <= i < j ==> Succeeds(steps[i], prefix, inst)) &&
      !Succeeds(steps[j], prefix, inst)
    ensures var o := Create(name, flags, items, envName, variables, host, inst);
      var prefix := TargetPrefix(name, flags, envName, host);
      var steps := Steps(items, DefaultPackages(flags, host));
      o.result == Failure(StepError(steps[j], prefix, inst)) &&
      forall c :: c in o.trace ==> !c.SetVariables?
  {
    var prefix := TargetPrefix(name, flags, envName, host);
    var steps := Steps(items, DefaultPackages(flags, host));
    var start := Run(InitialResults, Removal(prefix, flags, host), None);
    assert Create(name, flags, items, envName, variables, host, inst) ==
      InstallOutcome(items, DefaultPackages(flags, host), variables, prefix, start.trace, inst);
    RunStepsFailure(start, steps, prefix, inst, j);
    var r := RunSteps(start, steps, prefix, inst);
    assert Create(name, flags, items, envName, variables, host, inst) == Outcome(Failure(r.error.value), r.trace);
    var calls := CallsOf(steps[..j], prefix);
    var tail := if steps[j].installer in inst.known then [CallOf(steps[j], prefix)] else [];
    assert r.trace == start.trace + calls + tail;
    forall c | c in r.trace
      ensures !c.SetVariables?
    {
      if c in calls {
        var i :| 0 <= i < |calls| && calls[i] == c;
      }
    }
  }

  /** An ecosystem of the dependency map with no installer is reported by
      name; a missing conda installer for the default packages or for an
      empty map is passed on as `InvalidInstaller`. */
  lemma CreateMissingInstaller(name: Value, flags: Flags, items: Specs, envName: Value, variables: Value,
                               host: Host, inst: Installers, j: nat)
    requires !flags.dryRun
    requires host.checkPrefix(TargetPrefix(name, flags, envName, host)).None?
    requires var steps := Steps(items, DefaultPackages(flags, host));
      var prefix := TargetPrefix(name, flags, envName, host);
      j < |steps| && (forall i :: 0 <= i < j ==> Succeeds(steps[i], prefix, inst)) &&
      steps[j].installer !in inst.known
    ensures var o := Create(name, flags, items, envName, variables, host, inst);
      var steps := Steps(items, DefaultPackages(flags, host));
      var off := |steps| - |items|;
      (items != [] && off <= j ==> o.result == Failure(UnableToInstall(items[j - off].0))) &&
      (items == [] || j < off ==> o.result == Failure(InvalidInstaller("conda")))
  {
    CreateFailure(name, flags, items, envName, variables, host, inst, j);
    MissingStepError(items, DefaultPackages(flags, host), TargetPrefix(name, flags, envName, host), inst, j);
  }

  /** The error of an installation whose installer is missing: the name of
      the ecosystem inside the loop, `InvalidInstaller` for conda outside it. */
  lemma MissingStepError(items: Specs, defaults: seq<string>, prefix: string, inst: Installers, j: nat)
    requires var steps := Steps(items, defaults);
      j < |steps| && steps[j].installer !in inst.known
    ensures var steps := Steps(items, defaults);
      var off := |steps| - |items|;
      (items != [] && off <= j ==> StepError(steps[j], prefix, inst) == UnableToInstall(items[j - off].0)) &&
      (items == [] || j < off ==> StepError(steps[j], prefix, inst) == InvalidInstaller("conda"))
  {
    var steps := Steps(items, defaults);
    var off := |steps| - |items|;
    if items != [] && off <= j {
      StepsAt(items, defaults, j - off);
    }
  }
}
