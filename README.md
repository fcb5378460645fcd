# rcp-init: the Babel project scaffolder, modelled in Dafny

rcp-init asks five yes/no questions: Flow, ESLint, Mocha, publish, and
executable or library. It then scaffolds a Babel project in the current
directory. It picks the development dependencies, looks up each one's latest
version and writes a caret constraint for it. It writes `.babelrc`, a README
and, for executables, `src/main.js`. Last, it merges the dependencies and a
set of npm scripts into `package.json`.

This project models that run, as `newBabelProject.js` does it:

- `ProjectOptions` (options.dfy) is the answer record assembled at
  cli.js:65-71. It also defines the rule conditions: always, on one answer, or
  on two answers together.
- `RuleTables` (rules.dfy) defines a rule table, a list of items each guarded
  by a condition. `Select` gives the items that fire, in order. Its lemmas
  turn a nested `if`/`push` into table rows and say when an item is selected.
- `Dependencies` (dependencies.dfy) models `getVersions`. `PlanDependencies`
  grows the list with pushes under nested conditionals, as the generator does.
  It is proved equal to the dependency rule table, and the planned list's
  properties are proved on that table. `Caret` and `ResolveVersions` model
  `version` and the `Promise.all` over it.
- `Templates` (templates.dfy) models the `.babelrc` object, built with
  `unshift` and a `plugins` field. It also models the README, built with
  `+=`, and the `main.js` gate.
- `Manifest` (manifest.dfy) models `package.json` as a map of JSON values.
  `WriteDevDependencies` is a loop over the dependency list.
  `WriteScripts` writes the scripts one `if` at a time. Both are proved equal
  to a declarative merge, `Merged`, and the merge's contract is proved about
  `Merged`.
- `Scaffold` (scaffold.dfy) models `newBabelProject` as a whole. It ties the
  parts to the planned packages: the `.babelrc` presets and plugin, the
  `start`, `flow`, `lint`, `test` and `prepare` scripts (with `flint` only
  alongside `flow` and `lint`), and the README's four setup blocks.

The registry, `npm init`, and reading package.json back are parameters of
the run:

- `name` is the project's name, the base name of the working directory
  (newBabelProject.js:89). It heads the README.
- `registry` maps each package the registry knows to its version.
- `manifestExists` says whether package.json was there at the start.
- `initStderr` is what `npm init -y` printed on its error stream.
- `existing` is the parsed package.json.

The generator has no UI-framework option and no runtime dependencies. Every
planned package goes to `devDependencies`, and `start` is written only for
executables (newBabelProject.js:196-205).

A run renders `.babelrc`, README.md and `src/main.js` before it awaits
anything (newBabelProject.js:177-187). So `Generate` returns those files
whatever becomes of package.json, and only the package.json outcome is a
`Result`.

The model also follows JavaScript semantics where they matter:

- Assigning a member of a `null` `devDependencies` or `scripts` throws a
  TypeError. This aborts the run and is modelled as `Failure(NullMember(key))`.
- Writing a member of a string, number or boolean is silently lost, since the
  module is sloppy-mode CommonJS.
- A member written on an array is dropped by `JSON.stringify`.
- The model follows the order of the `await`s (newBabelProject.js:191-193):
  when both a lookup and `npm init` fail, it reports the lookup failure. The
  source only does so when the lookups settle first (see "## Left out").

## Model

| member | source | states |
|---|---|---|
| Dependencies.PlanDependencies | newBabelProject.js:41-66 | the list built by the nested pushes is exactly the list the dependency rule table selects for the answers |
| RuleTables.PushNested | newBabelProject.js:43-60 | a nested `if` block of pushes appends exactly the items its rows select: the outer ones when the outer answer is yes, the inner ones when both are |
| RuleTables.PushWhen | newBabelProject.js:61-66 | a single `if` block of pushes appends exactly the items its rows select: all of them when the answer is yes, none otherwise |
| Dependencies.TableInBlocks | newBabelProject.js:42-66 | the rule table is the three base packages followed by one block per `if` of the generator, each an outer push and the push nested in it |
| Dependencies.PlannedByBlocks | newBabelProject.js:42-66 | the planned list is the base packages followed by what the Flow, ESLint, Mocha, publish and executable blocks contribute, in that order |
| Dependencies.TableItemsDistinct | newBabelProject.js:42-66 | no package appears in two rows of the dependency table |
| Dependencies.PlannedStartsWithBase | newBabelProject.js:42 | for every combination of answers the list starts with babel-cli, babel-preset-env, rimraf in that order |
| Dependencies.PlannedDistinct | newBabelProject.js:42-66 | for every combination of answers no package is planned twice |
| Dependencies.PlannedBasePackages | newBabelProject.js:42 | babel-cli, babel-preset-env and rimraf are always planned |
| Dependencies.PlannedFlowPackages | newBabelProject.js:43-48 | babel-preset-flow and flow-bin are planned iff Flow; flow-copy-source iff Flow and publish |
| Dependencies.PlannedEslintPackages | newBabelProject.js:49-54 | eslint is planned iff ESLint; eslint-plugin-flowtype and babel-eslint iff ESLint and Flow |
| Dependencies.PlannedMochaPackages | newBabelProject.js:55-60 | mocha and chai are planned iff Mocha; eslint-plugin-mocha iff Mocha and ESLint |
| Dependencies.PlannedPublishAndWatch | newBabelProject.js:61-66 | babel-plugin-add-module-exports is planned iff publish; babel-watch iff executable |
| Dependencies.PlannedFromTable | newBabelProject.js:42-66 | every planned package is one of the table's fourteen packages |
| Dependencies.Caret | newBabelProject.js:36-39 | the constraint is one character longer than the version, starts with `^` and continues with the version |
| Dependencies.ResolveVersions | newBabelProject.js:67 | resolution succeeds iff the registry knows every package; then the constraints pair with the packages by position, each the caret of that package's version; otherwise the error names a listed package the registry does not know |
| Templates.BuildBabelrc | newBabelProject.js:71-84 | the object built from the env preset by `unshift` and the `plugins` assignment is the `.babelrc` the answers call for |
| Templates.BabelrcShape | newBabelProject.js:79-84 | presets are [flow, env] with Flow and [env] without, so they always end with env and start with flow iff Flow; `plugins` is present iff publishing and is then [add-module-exports] |
| Templates.TitleText | newBabelProject.js:89-93 | the heading block starts with `# `, then the project name, then a line break |
| Templates.ReadmeByBlocks | newBabelProject.js:95-133 | the README's blocks are the heading, then Flow setup iff Flow, ESLint setup iff ESLint, the flowtype block iff ESLint and Flow, the test/.eslintrc block iff ESLint and Mocha |
| Templates.BuildReadme | newBabelProject.js:88-133 | the text built by `+=` under nested conditionals is the concatenation of the blocks the README rule table selects |
| Templates.ReadmeTableDistinct | newBabelProject.js:95-132 | whatever the project is called, no README block equals another |
| Templates.ReadmeStartsWithName | newBabelProject.js:89-93 | for every combination of answers the README opens with `# `, the project name and a line break |
| Templates.ReadmeBlocksFor | newBabelProject.js:95-133 | the heading is always in the README; each setup block is in it exactly when its condition holds (both directions) |
| Templates.ReadmeSubBlocksFollowEslint | newBabelProject.js:99-133 | with ESLint on, the ESLint block comes before any flowtype or test/.eslintrc block |
| Templates.MainJs | newBabelProject.js:138-142 | `src/main.js` is written iff the project is executable, and then holds the hello-world line |
| Manifest.MergeNothing | newBabelProject.js:196 | creating a missing member as `{}` is what merging no entries does |
| Manifest.PutStep | newBabelProject.js:198 | one more assignment under a non-null member merges one more entry |
| Manifest.SetStep | newBabelProject.js:198 | one more assignment, null member included, is one more merged entry; on null it throws |
| Manifest.MergeStaysFailed | newBabelProject.js:197-199 | once an assignment under null has thrown, merging more entries gives the same error |
| Manifest.DepEntriesKeys | newBabelProject.js:197-199 | the dependency entries' keys are exactly the listed packages |
| Manifest.DepEntriesAt | newBabelProject.js:197-199 | a package's entry is the version at its last position in the list |
| Manifest.NameInjective | newBabelProject.js:202-221 | no two scripts share a key in `scripts` |
| Manifest.ScriptsThroughAt | newBabelProject.js:202-222 | among the scripts written so far, a script has an entry iff its rule calls for it, and the entry is its command |
| Manifest.ScriptsThroughKeys | newBabelProject.js:202-222 | every entry of the script table belongs to one of the seven scripts |
| Manifest.WriteDevDependencies | newBabelProject.js:196-199 | the `forEach` loop over the list gives what merging every package's version into `devDependencies` gives, including the TypeError on null |
| Manifest.WriteScriptWhen | newBabelProject.js:203-222 | one conditional assignment takes the manifest from "scripts before this one merged" to "this one merged too" |
| Manifest.WriteScripts | newBabelProject.js:201-222 | the conditional assignments to `json.scripts` give what merging the script table into `scripts` gives, including the TypeError on null |
| Manifest.WriteCheckScripts | newBabelProject.js:210-222 | the conditional assignments of `flow`, `lint`, `flint` and `test` take the manifest from "merged through `prepare`" to "merged through every script", with `scripts` still not null |
| Manifest.MergeManifest | newBabelProject.js:195-222 | the in-place updates give the declarative merge: dependencies first, then scripts, the first TypeError aborting |
| Manifest.ScriptEntriesFor | newBabelProject.js:202-222 | `build` always, with `test/ ` iff Mocha; `start` iff executable; `prepare` iff publish, with the flow-copy-source suffix iff Flow; `flow` iff Flow; `lint` iff ESLint, with ` test/**` iff Mocha; `flint` iff Flow and ESLint; `test` iff Mocha; each with its exact command and no other entries |
| Manifest.MergedFailure | newBabelProject.js:196-202 | the merge fails iff `devDependencies` is null with a package to write, or `scripts` is null; the dependency error comes first |
| Manifest.MergedKeepsOthers | newBabelProject.js:195-222 | a successful merge adds `devDependencies` and `scripts` if missing and leaves every other top-level member unchanged |
| Manifest.MergedDependencyAt | newBabelProject.js:197-199 | with `devDependencies` absent or an object, every package maps to the version at its last position |
| Manifest.MergedDependencies | newBabelProject.js:196-199 | `devDependencies` holds the old keys plus the listed packages, and old keys not listed keep their values; a string, number, boolean or array is left as it was; a null one survives only with nothing to write |
| Manifest.MergedScriptAt | newBabelProject.js:201-222 | with `scripts` absent or an object, every script the answers call for is there with its command |
| Manifest.MergedScriptsKept | newBabelProject.js:201-222 | `scripts` holds the old keys plus the written ones, and old keys no rule writes keep their values (an existing `start` survives when not executable); a non-object is left as it was |
| Manifest.MergedField | newBabelProject.js:196-199 | after merging entries under an absent or object member, every entry's key holds that entry's value |
| Manifest.MergeLeavesOthers | newBabelProject.js:195-222 | merging under one key leaves every other top-level member of package.json as it was |
| Manifest.MergedIdempotent | newBabelProject.js:195-222 | merging the same answers and versions into the merged manifest changes nothing |
| Manifest.MergeAgain | newBabelProject.js:196-222 | merging the same entries under a key a second time leaves the result as it is |
| Manifest.MergeSettled | newBabelProject.js:195-222 | whether merging under a key changes anything depends only on that member |
| Scaffold.NewBabelProject | newBabelProject.js:150-225 | the run plans, renders the three files, resolves versions, waits for `npm init`, then merges; it gives the declarative run, whose files are there even when package.json is not merged |
| Scaffold.FilesWrittenEitherWay | newBabelProject.js:177-193 | `.babelrc`, README.md and `src/main.js` do not depend on the registry, on `npm init` or on package.json, since they are written before the first `await` |
| Scaffold.GenerateFailure | newBabelProject.js:189-202 | an unknown package fails the package.json merge with a lookup error naming it; with every package known, the merge fails iff `npm init` complained or `devDependencies` or `scripts` is null |
| Scaffold.GenerateSucceeded | newBabelProject.js:191-199 | a run that merged package.json resolved every version and merged the manifest with them |
| Scaffold.ResolvedAt | newBabelProject.js:67 | the i-th resolved constraint is the caret of the i-th package's version |
| Scaffold.ResolvedAndMerged | newBabelProject.js:197-199 | a package listed once ends up in `devDependencies` with the caret of its registry version, whatever scripts are written afterwards |
| Scaffold.GeneratedVersions | newBabelProject.js:191-199 | after a run that merged package.json every planned package is in `devDependencies` with a caret on its registry version |
| Scaffold.BabelrcPackagesPlanned | newBabelProject.js:71-84 | every `.babelrc` preset comes from a planned package; the flow preset is there iff babel-preset-flow is planned; `plugins` iff babel-plugin-add-module-exports is planned |
| Scaffold.BabelPackageNames | newBabelProject.js:42-62 | by Babel's preset and plugin naming, the env and flow presets and the module-exports plugin load the packages babel-preset-env, babel-preset-flow and babel-plugin-add-module-exports, the names the generator pushes |
| Scaffold.ScriptsUsePlannedTools | newBabelProject.js:201-222 | `start` iff main.js is written iff babel-watch is planned; `flow` iff flow-bin; `lint` iff eslint; `test` iff mocha; `prepare` copies Flow sources iff flow-copy-source is planned; `flint` only with `flow` and `lint` |
| Scaffold.ReadmeMatchesPackages | newBabelProject.js:88-133 | the README's Flow, ESLint, flowtype and test/.eslintrc blocks are there iff flow-bin, eslint, eslint-plugin-flowtype and eslint-plugin-mocha are planned |

## Left out

- `cmd` (newBabelProject.js:6-34) spawns a child process. Only its outcome is modelled, as the `initStderr` parameter: non-empty stderr is a failure.
- The registry lookup is modelled as a map from package to version. Whether `Promise.all` rejects with the first failure in list order or the first to settle is not modelled: `ResolveVersions` names the first unknown package in list order, and its contract says only that the named package is unknown.
- File system calls (`existsSync`, `mkdirSync`, `readFileSync`, `writeFileSync`) are not modelled. The run returns the contents it would write: the three rendered files always, and package.json only when the merge succeeds. The `src` and `test` directories are not modelled.
- JSON parsing and `JSON.stringify` formatting are not modelled. A manifest is a map of JSON values, and numbers, booleans and arrays are one case, `Other`.
- A package.json whose top level is not an object is not modelled. There, the `in` test at newBabelProject.js:196 throws for null, a string, a number or a boolean. On a top-level array it does not throw: the run completes and the members written on the array are dropped by `JSON.stringify`, so package.json comes back unchanged apart from formatting.
- `gitignore` (newBabelProject.js:144-148) writes a constant and is not modelled.
- cli.js is not modelled beyond the option record it builds. It is an interactive prompt loop.
- The `+=` on `prepare` and `lint` (newBabelProject.js:208, 215) is not modelled as a second write. The source assigns these scripts and then extends them. The model builds the full string first and assigns it once. The result is the same: on an object the final value is the full string, and on a primitive both writes are lost.
- The race between a failing `npm init` and pending lookups is not modelled. The model follows the awaited order (newBabelProject.js:191-193). In the source, the `npm init` promise has no handler until line 193. If `cmd` rejects (newBabelProject.js:26-28) while a lookup is still pending, that rejection is unhandled. On Node 15 and later, the process then exits with the `npm init` error before line 191 settles, even when a package is unknown. That error never reaches the caller's `catch`.
- Console output is not modelled: `console.log(cmd)` at newBabelProject.js:9 and the progress lines at 190 and 223.
