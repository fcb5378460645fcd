/**
 * One run of newBabelProject: plan the dependencies, produce `.babelrc`,
 * README.md and `src/main.js`, wait for the version lookups and for
 * `npm init`, then merge package.json. The registry, the child process and
 * the file system are parameters.
 */
module Scaffold {
  import opened Outcomes
  import opened ProjectOptions
  import opened RuleTables
  import opened Dependencies
  import opened Templates
  import opened Manifest

  /**
   * Everything a run writes. `.babelrc`, README.md and `src/main.js` are
   * written before anything is awaited, so a run writes them whether or not
   * package.json is merged in the end.
   */
  datatype Run = Run(babelrc: Babelrc, readme: string, mainJs: Option<string>, manifest: Result<Members, Error>)

  /**
   * What becomes of package.json. `registry` maps each package the registry
   * knows to its latest version, `manifestExists` says whether package.json
   * was there at the start, `initStderr` is what `npm init -y` wrote to its
   * error stream when it had to run, and `existing` is package.json as it is
   * read back afterwards.
   */
  function ManifestOutcome(o: Options, registry: map<string, string>,
                           manifestExists: bool, initStderr: string, existing: Members): Result<Members, Error>
  {
    var versions :- ResolveVersions(Planned(o), registry);
    if !manifestExists && initStderr != "" then Failure(InitFailed(initStderr))
    else Merged(existing, o, Planned(o), versions)
  }

  /** What a run produces: the rendered files, and the outcome for package.json. */
  function Generate(o: Options, name: string, registry: map<string, string>,
                    manifestExists: bool, initStderr: string, existing: Members): Run
  {
    Run(BabelrcFor(o), Readme(o, name), MainJs(o), ManifestOutcome(o, registry, manifestExists, initStderr, existing))
  }

  /**
   * The generator's steps in its own order: the files are rendered first,
   * then the version lookups are awaited, then `npm init`, and both before
   * package.json is merged.
   */
  method NewBabelProject(o: Options, name: string, registry: map<string, string>,
                         manifestExists: bool, initStderr: string, existing: Members)
    returns (r: Run)
    ensures r == Generate(o, name, registry, manifestExists, initStderr, existing)
  {
    var deps := PlanDependencies(o);
    var babelrc := BuildBabelrc(o);
    var readme := BuildReadme(o, name);
    var mainJs := MainJs(o);
    var manifest: Result<Members, Error>;
    var versions := ResolveVersions(deps, registry);
    if versions.Failure? {
      manifest := Failure(versions.error);
    } else if !manifestExists && initStderr != "" {
      manifest := Failure(InitFailed(initStderr));
    } else {
      manifest := MergeManifest(existing, o, deps, versions.value);
    }
    r := Run(babelrc, readme, mainJs, manifest);
  }

  /**
   * The files written before the first `await` are the same whatever the
   * registry, `npm init` and package.json do: a failed run leaves them too.
   */
  lemma FilesWrittenEitherWay(o: Options, name: string,
                              registry: map<string, string>, manifestExists: bool, initStderr: string, existing: Members,
                              registry': map<string, string>, manifestExists': bool, initStderr': string, existing': Members)
    ensures var r := Generate(o, name, registry, manifestExists, initStderr, existing);
            var r' := Generate(o, name, registry', manifestExists', initStderr', existing');
            r.babelrc == r'.babelrc && r.readme == r'.readme && r.mainJs == r'.mainJs
  {
  }

  /**
   * Merging package.json fails on the first of: a package the registry cannot resolve, an
   * `npm init` that complained, a null `devDependencies` with packages to
   * write, a null `scripts`.
   */
  lemma GenerateFailure(o: Options, name: string, registry: map<string, string>,
                        manifestExists: bool, initStderr: string, existing: Members)
    ensures var r := Generate(o, name, registry, manifestExists, initStderr, existing).manifest;
      && ((exists d :: d in Planned(o) && d !in registry) ==> r.Failure? && r.error.LookupFailed?)
      && (r.Failure? && r.error.LookupFailed? ==> r.error.package in Planned(o) && r.error.package !in registry)
      && ((forall d :: d in Planned(o) ==> d in registry) ==>
            (r.Failure? <==> (!manifestExists && initStderr != "")
                             || (DevDependencies in existing && existing[DevDependencies].Null?)
                             || (Scripts in existing && existing[Scripts].Null?)))
  {
    var deps := Planned(o);
    var resolved := ResolveVersions(deps, registry);
    if resolved.Success? {
      MergedFailure(existing, o, deps, resolved.value);
      PlannedStartsWithBase(o);
    }
  }

  /**
   * After a successful run every planned package is in `devDependencies`
   * with a caret on the version the registry gave for it, whenever
   * `devDependencies` was absent or an object.
   */
  lemma GeneratedVersions(o: Options, name: string, registry: map<string, string>,
                          manifestExists: bool, initStderr: string, existing: Members, m: Members, d: string)
    requires Generate(o, name, registry, manifestExists, initStderr, existing).manifest == Success(m)
    requires DevDependencies !in existing || existing[DevDependencies].Obj?
    requires d in Planned(o)
    ensures d in registry && DevDependencies in m && m[DevDependencies].Obj?
            && d in m[DevDependencies].members
            && m[DevDependencies].members[d] == Str(Caret(registry[d]))
  {
    GenerateSucceeded(o, name, registry, manifestExists, initStderr, existing, m);
    PlannedDistinct(o);
    var versions := ResolveVersions(Planned(o), registry).value;
    var withDeps := MergeMember(existing, DevDependencies, DepEntries(Planned(o), versions)).value;
    ResolvedAndMerged(Planned(o), registry, existing, versions, withDeps, ScriptEntries(o), m, d);
  }

  /**
   * The dependency half of the run: a package listed once gets a caret on
   * its looked-up version, and writing any scripts afterwards keeps it.
   */
  lemma ResolvedAndMerged(deps: seq<string>, registry: map<string, string>, existing: Members,
                          versions: seq<string>, withDeps: Members, scripts: Members, m: Members, d: string)
    requires Distinct(deps)
    requires ResolveVersions(deps, registry) == Success(versions)
    requires MergeMember(existing, DevDependencies, DepEntries(deps, versions)) == Success(withDeps)
    requires MergeMember(withDeps, Scripts, scripts) == Success(m)
    requires DevDependencies !in existing || existing[DevDependencies].Obj?
    requires d in deps
    ensures d in registry && DevDependencies in m && m[DevDependencies].Obj?
            && d in m[DevDependencies].members
            && m[DevDependencies].members[d] == Str(Caret(registry[d]))
  {
    var i :| 0 <= i < |deps| && deps[i] == d;
    ResolvedAt(deps, registry, versions, i);
    assert forall j :: i < j < |deps| ==> deps[j] != deps[i];
    DepEntriesAt(deps, versions, i);
    MergedField(existing, DevDependencies, DepEntries(deps, versions), withDeps, d);
    MergeLeavesOthers(withDeps, Scripts, scripts, m, DevDependencies);
  }

  /** The `i`th resolved version is the caret constraint of the `i`th package's version. */
  lemma ResolvedAt(deps: seq<string>, registry: map<string, string>, versions: seq<string>, i: nat)
    requires ResolveVersions(deps, registry) == Success(versions)
    requires i < |deps|
    ensures deps[i] in registry && i < |versions| && versions[i] == Caret(registry[deps[i]])
  {
  }

  /** A run that merged package.json resolved every version and merged package.json with them. */
  lemma GenerateSucceeded(o: Options, name: string, registry: map<string, string>,
                          manifestExists: bool, initStderr: string, existing: Members, m: Members)
    requires Generate(o, name, registry, manifestExists, initStderr, existing).manifest == Success(m)
    ensures ResolveVersions(Planned(o), registry).Success?
    ensures Merged(existing, o, Planned(o), ResolveVersions(Planned(o), registry).value) == Success(m)
  {
  }

  /**
   * Each preset and plugin `.babelrc` names comes from a planned package,
   * and the flow preset is there exactly when its package is.
   */
  lemma BabelrcPackagesPlanned(o: Options)
    ensures forall p :: p in BabelrcFor(o).presets ==> PresetPackage(p) in Planned(o)
    ensures FlowPreset in BabelrcFor(o).presets <==> PresetPackage(FlowPreset) in Planned(o)
    ensures BabelrcFor(o).plugins.Some? <==> PluginPackage(ModuleExportsPlugin) in Planned(o)
  {
    BabelPackageNames();
    PlannedBasePackages(o);
    PlannedFlowPackages(o);
    PlannedPublishAndWatch(o);
  }

  /** The package names behind the presets and the plugin `.babelrc` uses. */
  lemma BabelPackageNames()
    ensures PresetPackage(EnvPreset) == "babel-preset-env"
    ensures PresetPackage(FlowPreset) == "babel-preset-flow"
    ensures PluginPackage(ModuleExportsPlugin) == "babel-plugin-add-module-exports"
  {
  }

  /**
   * Every script runs a tool the project depends on: `start` and main.js
   * come with babel-watch, `flow` with flow-bin, `lint` with eslint, `test`
   * with mocha, `prepare` copies Flow sources exactly when flow-copy-source
   * is planned, and `flint` only comes with the two scripts it runs.
   */
  lemma ScriptsUsePlannedTools(o: Options)
    ensures Name(Start) in ScriptEntries(o) <==> MainJs(o).Some?
    ensures Name(Start) in ScriptEntries(o) <==> "babel-watch" in Planned(o)
    ensures Name(FlowCheck) in ScriptEntries(o) <==> "flow-bin" in Planned(o)
    ensures Name(Lint) in ScriptEntries(o) <==> "eslint" in Planned(o)
    ensures Name(Test) in ScriptEntries(o) <==> "mocha" in Planned(o)
    ensures Name(Prepare) in ScriptEntries(o)
            ==> (ScriptEntries(o)[Name(Prepare)] == Str(PrepareCommand + CopySourceSuffix)
                 <==> "flow-copy-source" in Planned(o))
    ensures Name(Flint) in ScriptEntries(o) ==> Name(FlowCheck) in ScriptEntries(o) && Name(Lint) in ScriptEntries(o)
  {
    ScriptEntriesFor(o);
    PlannedFlowPackages(o);
    PlannedEslintPackages(o);
    PlannedMochaPackages(o);
    PlannedPublishAndWatch(o);
    if o.publish && !o.flow {
      assert |PrepareCommand + CopySourceSuffix| != |PrepareCommand + ""|;
    }
  }

  /**
   * The README's setup blocks match the tooling: the Flow block comes with
   * flow-bin, the ESLint block with eslint, the flowtype block with
   * eslint-plugin-flowtype and the test/.eslintrc block with
   * eslint-plugin-mocha.
   */
  lemma ReadmeMatchesPackages(o: Options, name: string)
    ensures FlowText in ReadmeParts(o, name) <==> "flow-bin" in Planned(o)
    ensures EslintText in ReadmeParts(o, name) <==> "eslint" in Planned(o)
    ensures EslintFlowtypeText in ReadmeParts(o, name) <==> "eslint-plugin-flowtype" in Planned(o)
    ensures EslintMochaText in ReadmeParts(o, name) <==> "eslint-plugin-mocha" in Planned(o)
  {
    ReadmeBlocksFor(o, name);
    PlannedFlowPackages(o);
    PlannedEslintPackages(o);
    PlannedMochaPackages(o);
  }
}
