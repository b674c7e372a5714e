/**
 * conda_turbo/no_solve.py: install an environment without solving, by
 * looking up each conda spec in the channel index and handing the package
 * URLs to `explicit`.  The index and `MatchSpec` are parameters.
 */
module NoSolve {
  import opened Wrappers
  import opened Dict
  import opened Values
  import opened EnvDependencies

  /** The channel index: `MatchSpec(d)` rendered as text, and the URLs of
      the records `SubdirData.query_all` finds for a match spec. */
  datatype Index = Index(matchSpec: string -> string, query: string -> seq<string>)

  datatype NoSolveError =
    | BadMatch(spec: string, found: nat)   // the CondaError: how many packages matched
    | MissingConda                         // `env.dependencies['conda']` raised KeyError

  /** The one call `no_solve_install` makes when every lookup succeeds. */
  datatype Explicit = Explicit(urls: seq<string>, prefix: string)

  /** A spec matches exactly one package. */
  predicate Unambiguous(ms: string, index: Index) {
    |index.query(ms)| == 1
  }

  /** `find_package_url(match_spec)`: the URL of the single match. */
  function FindPackageUrl(ms: string, index: Index): (r: Result<string, NoSolveError>)
    ensures r.Success? <==> Unambiguous(ms, index)
    ensures r.Success? ==> r.value in index.query(ms)
    ensures r.Failure? ==> r.error == BadMatch(ms, |index.query(ms)|)
  {
    var found := index.query(ms);
    if |found| != 1 then Failure(BadMatch(ms, |found|)) else Success(found[0])
  }

  /** `[find_package_url(MatchSpec(d)) for d in specs]`: the first failing
      lookup ends the comprehension. */
  function FindAll(specs: seq<string>, index: Index): (r: Result<seq<string>, NoSolveError>)
    ensures r.Success? ==> |r.value| == |specs|
    ensures r.Failure? ==> specs != [] && r.error.BadMatch?
  {
    if specs == [] then Success([])
    else
      var head := FindPackageUrl(index.matchSpec(specs[0]), index);
      if head.Failure? then Failure(head.error)
      else
        var tail := FindAll(specs[1..], index);
        if tail.Failure? then Failure(tail.error) else Success([head.value] + tail.value)
  }

  /** `no_solve_install(env, prefix)` on the environment's parsed
      dependencies. */
  function NoSolveInstall(deps: Specs, prefix: string, index: Index): (r: Result<Explicit, NoSolveError>)
    ensures Get(deps, "conda").None? ==> r == Failure(MissingConda)
    ensures r.Success? ==> r.value.prefix == prefix
  {
    var conda := Get(deps, "conda");
    if conda.None? then Failure(MissingConda)
    else
      var urls := FindAll(conda.value, index);
      if urls.Failure? then Failure(urls.error) else Success(Explicit(urls.value, prefix))
  }

  /** The lookups succeed exactly when every spec matches one package; the
      URLs then come one per spec, in the order of the specs. */
  lemma {:induction false} FindAllSucceeds(specs: seq<string>, index: Index)
    ensures FindAll(specs, index).Success? <==>
      forall i :: 0 <= i < |specs| ==> Unambiguous(index.matchSpec(specs[i]), index)
    ensures var r := FindAll(specs, index);
      r.Success? ==>
        |r.value| == |specs| &&
        forall i :: 0 <= i < |specs| ==> r.value[i] == index.query(index.matchSpec(specs[i]))[0]
  {
    if specs != [] {
      FindAllSucceeds(specs[1..], index);
      var r := FindAll(specs, index);
      if !Unambiguous(index.matchSpec(specs[0]), index) {
        assert r.Failure?;
      } else if r.Success? {
        var tail := FindAll(specs[1..], index);
        assert r.value == [index.query(index.matchSpec(specs[0]))[0]] + tail.value;
        forall i | 0 <= i < |specs|
          ensures r.value[i] == index.query(index.matchSpec(specs[i]))[0]
        {
          if i > 0 {
            assert specs[i] == specs[1..][i - 1];
          }
        }
      } else {
        var j :| 0 <= j < |specs[1..]| && !Unambiguous(index.matchSpec(specs[1..][j]), index);
        assert specs[1..][j] == specs[j + 1];
      }
    }
  }

  /** A failing lookup reports the first spec that does not match exactly
      one package, with the number it matched. */
  lemma {:induction false} FindAllFailure(specs: seq<string>, index: Index, j: nat)
    requires j < |specs|
    requires forall i :: 0 <= i < j ==> Unambiguous(index.matchSpec(specs[i]), index)
    requires !Unambiguous(index.matchSpec(specs[j]), index)
    ensures var ms := index.matchSpec(specs[j]);
      FindAll(specs, index) == Failure(BadMatch(ms, |index.query(ms)|))
  {
    if j > 0 {
      assert forall i :: 0 <= i < j - 1 ==> specs[1..][i] == specs[i + 1];
      FindAllFailure(specs[1..], index, j - 1);
      assert specs[1..][j - 1] == specs[j];
    }
  }

  /** `explicit` is called, once, exactly when the conda list exists and
      each of its specs matches one package; it receives one URL per spec,
      in order, and the prefix. */
  lemma NoSolveInstallCalls(deps: Specs, prefix: string, index: Index)
    ensures var r := NoSolveInstall(deps, prefix, index);
      var conda := GetOr(deps, "conda", []);
      (r.Success? <==>
         "conda" in Keys(deps) &&
         forall i :: 0 <= i < |conda| ==> Unambiguous(index.matchSpec(conda[i]), index)) &&
      (r.Success? ==>
         |r.value.urls| == |conda| &&
         forall i :: 0 <= i < |conda| ==> r.value.urls[i] == index.query(index.matchSpec(conda[i]))[0])
  {
    if "conda" in Keys(deps) {
      FindAllSucceeds(GetOr(deps, "conda", []), index);
    }
  }

  /** An environment whose raw dependency list was empty has no conda
      entry, so installing it without solving fails at the lookup of that
      key, before any package is searched for. */
  lemma EmptyEnvironmentHasNoConda(raw: Value, syn: SpecSyntax, prefix: string, index: Index)
    requires !Truthy(raw)
    ensures NoSolveInstall(ParseRaw([], raw, syn), prefix, index) == Failure(MissingConda)
  {
    ParsedEmptyIff(raw, syn);
  }
}
