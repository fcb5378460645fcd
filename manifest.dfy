/**
 * The package.json merge at the end of newBabelProject: the dependency
 * versions go into `devDependencies` and the npm scripts into `scripts`,
 * each created as an empty object when missing; every other member is left
 * as it was.
 */
module Manifest {
  import opened Outcomes
  import opened ProjectOptions

  /**
   * A JSON value, as far as the merge tells them apart: strings, objects,
   * null, and everything else (numbers, booleans, arrays).
   */
  datatype Json = Str(text: string) | Obj(members: map<string, Json>) | Null | Other

  /** The members of the top-level object of package.json. */
  type Members = map<string, Json>

  const DevDependencies: string := "devDependencies"
  const Scripts: string := "scripts"

  // ---------------------------------------------------------------- member writes

  /** `json[key] = {}` unless `key` is already there (whatever its value). */
  function WithObject(json: Members, key: string): Members {
    if key in json then json else json[key := Obj(map[])]
  }

  /**
   * `json[key][field] = v` where `json[key]` is not null: an object gets the
   * field; on a string, number, boolean or array the write leaves nothing in
   * the written file.
   */
  function PutMember(json: Members, key: string, field: string, v: Json): Members
    requires key in json && !json[key].Null?
  {
    match json[key]
    case Obj(m) => json[key := Obj(m[field := v])]
    case _ => json
  }

  /** The same write where `json[key]` may be null, which throws a TypeError. */
  function SetMember(json: Members, key: string, field: string, v: Json): Result<Members, Error>
    requires key in json
  {
    if json[key].Null? then Failure(NullMember(key)) else Success(PutMember(json, key, field, v))
  }

  // ---------------------------------------------------------------- the merge, declaratively

  /**
   * What writing all of `entries` under `key` makes of the manifest: an
   * absent member becomes an object of the entries, an object gets them
   * written over its own fields, null throws as soon as one entry is written,
   * and any other value is left as it was.
   */
  function MergeMember(json: Members, key: string, entries: Members): Result<Members, Error> {
    if key !in json then Success(json[key := Obj(entries)])
    else match json[key]
      case Obj(m) => Success(json[key := Obj(m + entries)])
      case Null => if entries == map[] then Success(json) else Failure(NullMember(key))
      case _ => Success(json)
  }

  /**
   * The `devDependencies` entries written for `deps` paired with `versions`
   * by position; a package listed twice keeps its later version.
   */
  function DepEntries(deps: seq<string>, versions: seq<string>): Members
    requires |versions| == |deps|
  {
    if |deps| == 0 then map[]
    else DepEntries(deps[..|deps| - 1], versions[..|deps| - 1])[deps[|deps| - 1] := Str(versions[|deps| - 1])]
  }

  /** The npm scripts the generator knows, in the order it writes them. */
  datatype Script = Build | Start | Prepare | FlowCheck | Lint | Flint | Test

  /** The key each script is stored under in `scripts`. */
  function Name(s: Script): string {
    match s
    case Build => "build"
    case Start => "start"
    case Prepare => "prepare"
    case FlowCheck => "flow"
    case Lint => "lint"
    case Flint => "flint"
    case Test => "test"
  }

  const StartCommand: string := "babel-watch --watch src src/main.js"
  const FlowCommand: string := "flow"
  const FlintCommand: string := "npm run flow && npm run lint"
  const TestCommand: string := "npm run build && mocha dist/**/*.test.js"

  const BuildCommand: string := "rimraf ./dist && babel src/ "
  const BuildTestDir: string := "test/ "
  const BuildOptions: string := "-d dist --copy-files"
  const PrepareCommand: string := "npm run build"
  const CopySourceSuffix: string := " && flow-copy-source src dist"
  const LintCommand: string := "eslint src/**"
  const LintTestSuffix: string := " test/**"

  /** Where each script comes in the order the generator writes them. */
  function Index(s: Script): nat {
    match s
    case Build => 0
    case Start => 1
    case Prepare => 2
    case FlowCheck => 3
    case Lint => 4
    case Flint => 5
    case Test => 6
  }

  /** The script written just before `s`. */
  function Previous(s: Script): (p: Script)
    requires s != Build
    ensures Index(p) + 1 == Index(s)
  {
    match s
    case Start => Build
    case Prepare => Start
    case FlowCheck => Prepare
    case Lint => FlowCheck
    case Flint => Lint
    case Test => Flint
  }

  /** The build command; it also compiles `test/` when Mocha is on. */
  function BuildScript(o: Options): string {
    BuildCommand + (if o.mocha then BuildTestDir else "") + BuildOptions
  }

  /** The command written for each script, or None when the answers do not call for it. */
  function ScriptFor(o: Options, s: Script): Option<string> {
    match s
    case Build => Some(BuildScript(o))
    case Start => if o.executable then Some(StartCommand) else None
    case Prepare => if o.publish then Some(PrepareCommand + (if o.flow then CopySourceSuffix else "")) else None
    case FlowCheck => if o.flow then Some(FlowCommand) else None
    case Lint => if o.eslint then Some(LintCommand + (if o.mocha then LintTestSuffix else "")) else None
    case Flint => if o.flow && o.eslint then Some(FlintCommand) else None
    case Test => if o.mocha then Some(TestCommand) else None
  }

  /** The entries for the scripts up to and including `s`, each written when its rule calls for it. */
  function ScriptsThrough(o: Options, s: Script): Members
    decreases Index(s)
  {
    var earlier := if s == Build then map[] else ScriptsThrough(o, Previous(s));
    match ScriptFor(o, s)
    case Some(command) => earlier[Name(s) := Str(command)]
    case None => earlier
  }

  /** The `scripts` entries the answers call for. */
  function ScriptEntries(o: Options): Members {
    ScriptsThrough(o, Test)
  }

  /** The whole merge: dependencies first, then scripts; the first TypeError aborts it. */
  function Merged(json: Members, o: Options, deps: seq<string>, versions: seq<string>): Result<Members, Error>
    requires |versions| == |deps|
  {
    var withDeps :- MergeMember(json, DevDependencies, DepEntries(deps, versions));
    MergeMember(withDeps, Scripts, ScriptEntries(o))
  }

  // ---------------------------------------------------------------- one write at a time

  /** Creating the member first is what merging no entries amounts to. */
  lemma MergeNothing(json: Members, key: string)
    ensures MergeMember(json, key, map[]) == Success(WithObject(json, key))
  {
    if key in json && json[key].Obj? {
      assert json[key].members + map[] == json[key].members;
      assert json[key := json[key]] == json;
    }
  }

  /** One more write under a non-null member is one more merged entry. */
  lemma PutStep(json: Members, key: string, entries: Members, field: string, v: Json, m: Members)
    requires MergeMember(json, key, entries) == Success(m)
    requires key in m && !m[key].Null?
    ensures MergeMember(json, key, entries[field := v]) == Success(PutMember(m, key, field, v))
  {
    if key !in json {
      assert m[key := Obj(entries[field := v])] == json[key := Obj(entries[field := v])];
    } else if json[key].Obj? {
      var prior := json[key].members;
      assert (prior + entries)[field := v] == prior + entries[field := v];
      assert m[key := Obj((prior + entries)[field := v])] == json[key := Obj(prior + entries[field := v])];
    }
  }

  /** One more write, null included, is one more merged entry. */
  lemma SetStep(json: Members, key: string, entries: Members, field: string, v: Json, m: Members)
    requires MergeMember(json, key, entries) == Success(m)
    requires key in m
    ensures MergeMember(json, key, entries[field := v]) == SetMember(m, key, field, v)
  {
    if !m[key].Null? {
      PutStep(json, key, entries, field, v, m);
    } else {
      assert field in entries[field := v];
    }
  }

  /** Once a null member has thrown, writing still more entries throws the same error. */
  lemma MergeStaysFailed(json: Members, key: string, some: Members, all: Members)
    requires MergeMember(json, key, some).Failure?
    requires some.Keys <= all.Keys
    ensures MergeMember(json, key, all) == MergeMember(json, key, some)
  {
  }

  lemma DepEntriesSnoc(deps: seq<string>, versions: seq<string>, i: nat)
    requires |versions| == |deps| && i < |deps|
    ensures DepEntries(deps[..i + 1], versions[..i + 1]) == DepEntries(deps[..i], versions[..i])[deps[i] := Str(versions[i])]
  {
    assert deps[..i + 1][..i] == deps[..i];
    assert versions[..i + 1][..i] == versions[..i];
  }

  /** The entries' keys are exactly the listed packages. */
  lemma {:induction false} DepEntriesKeys(deps: seq<string>, versions: seq<string>)
    requires |versions| == |deps|
    ensures DepEntries(deps, versions).Keys == set d | d in deps
  {
    if |deps| > 0 {
      var n := |deps| - 1;
      DepEntriesKeys(deps[..n], versions[..n]);
      assert deps == deps[..n] + [deps[n]];
    }
  }

  /** A package's entry is the version paired with its last occurrence in the list. */
  lemma {:induction false} DepEntriesAt(deps: seq<string>, versions: seq<string>, i: nat)
    requires |versions| == |deps| && i < |deps|
    requires forall j :: i < j < |deps| ==> deps[j] != deps[i]
    ensures deps[i] in DepEntries(deps, versions)
    ensures DepEntries(deps, versions)[deps[i]] == Str(versions[i])
    decreases |deps|
  {
    var n := |deps| - 1;
    if i < n {
      DepEntriesAt(deps[..n], versions[..n], i);
    }
  }

  /** No two scripts share a key. */
  lemma NameInjective(s: Script, t: Script)
    ensures Name(s) == Name(t) ==> s == t
  {
  }

  /**
   * Among the scripts up to `s`, a script gets an entry exactly when its rule
   * calls for it, and the entry is the rule's command.
   */
  lemma {:induction false} ScriptsThroughAt(o: Options, s: Script, t: Script)
    ensures Name(t) in ScriptsThrough(o, s) <==> Index(t) <= Index(s) && ScriptFor(o, t).Some?
    ensures Name(t) in ScriptsThrough(o, s) ==> ScriptsThrough(o, s)[Name(t)] == Str(ScriptFor(o, t).value)
    decreases Index(s)
  {
    NameInjective(s, t);
    if s != Build {
      ScriptsThroughAt(o, Previous(s), t);
    }
  }

  /** Every entry is some script's. */
  lemma {:induction false} ScriptsThroughKeys(o: Options, s: Script, key: string)
    requires key in ScriptsThrough(o, s)
    ensures exists t :: Index(t) <= Index(s) && Name(t) == key
    decreases Index(s)
  {
    if Name(s) != key {
      ScriptsThroughKeys(o, Previous(s), key);
    }
  }

  // ---------------------------------------------------------------- the merge, step by step

  /** `devDependencies` is created when absent, then given each package's version in list order. */
  method WriteDevDependencies(json: Members, deps: seq<string>, versions: seq<string>)
    returns (r: Result<Members, Error>)
    requires |versions| == |deps|
    ensures r == MergeMember(json, DevDependencies, DepEntries(deps, versions))
  {
    var m := json;
    if !(DevDependencies in m) {
      m := m[DevDependencies := Obj(map[])];
    }
    MergeNothing(json, DevDependencies);
    var i := 0;
    while i < |deps|
      invariant 0 <= i <= |deps|
      invariant MergeMember(json, DevDependencies, DepEntries(deps[..i], versions[..i])) == Success(m)
      invariant DevDependencies in m
    {
      DepEntriesSnoc(deps, versions, i);
      SetStep(json, DevDependencies, DepEntries(deps[..i], versions[..i]), deps[i], Str(versions[i]), m);
      var written := SetMember(m, DevDependencies, deps[i], Str(versions[i]));
      if written.Failure? {
        DepEntriesKeys(deps[..i + 1], versions[..i + 1]);
        DepEntriesKeys(deps, versions);
        MergeStaysFailed(json, DevDependencies, DepEntries(deps[..i + 1], versions[..i + 1]), DepEntries(deps, versions));
        return Failure(written.error);
      }
      m := written.value;
      i := i + 1;
    }
    assert deps[..i] == deps && versions[..i] == versions;
    r := Success(m);
  }

  /** `m` is what merging the scripts up to `s` makes of `json`, and its `scripts` is not null. */
  ghost predicate ScriptsWritten(json: Members, o: Options, s: Script, m: Members) {
    MergeMember(json, Scripts, ScriptsThrough(o, s)) == Success(m) && Scripts in m && !m[Scripts].Null?
  }

  /** `json.scripts[Name(s)] = command` when `cond` holds, once the scripts before `s` are written. */
  method WriteScriptWhen(ghost json: Members, ghost o: Options, m: Members, cond: bool, s: Script, command: string)
    returns (next: Members)
    requires s != Build && ScriptsWritten(json, o, Previous(s), m)
    requires ScriptFor(o, s) == if cond then Some(command) else None
    ensures ScriptsWritten(json, o, s, next)
  {
    if cond {
      PutStep(json, Scripts, ScriptsThrough(o, Previous(s)), Name(s), Str(command), m);
      next := PutMember(m, Scripts, Name(s), Str(command));
    } else {
      next := m;
    }
  }

  /**
   * `scripts` is created when absent, `build` is always written, and each
   * other script is written when the answers call for it.
   */
  method WriteScripts(json: Members, o: Options) returns (r: Result<Members, Error>)
    ensures r == MergeMember(json, Scripts, ScriptEntries(o))
  {
    var m := json;
    if !(Scripts in m) {
      m := m[Scripts := Obj(map[])];
    }
    MergeNothing(json, Scripts);
    var build := BuildScript(o);
    SetStep(json, Scripts, map[], Name(Build), Str(build), m);
    if m[Scripts].Null? {
      ScriptsThroughAt(o, Test, Build);
      MergeStaysFailed(json, Scripts, ScriptsThrough(o, Build), ScriptEntries(o));
    }
    m :- SetMember(m, Scripts, Name(Build), Str(build));
    m := WriteScriptWhen(json, o, m, o.executable, Start, StartCommand);
    m := WriteScriptWhen(json, o, m, o.publish, Prepare, PrepareCommand + (if o.flow then CopySourceSuffix else ""));
    m := WriteCheckScripts(json, o, m);
    r := Success(m);
  }

  /** The scripts that check the code: `flow`, `lint`, `flint` and `test`, each when the answers call for it. */
  method WriteCheckScripts(ghost json: Members, o: Options, m: Members) returns (next: Members)
    requires ScriptsWritten(json, o, Prepare, m)
    ensures ScriptsWritten(json, o, Test, next)
  {
    next := WriteScriptWhen(json, o, m, o.flow, FlowCheck, FlowCommand);
    next := WriteScriptWhen(json, o, next, o.eslint, Lint, LintCommand + (if o.mocha then LintTestSuffix else ""));
    next := WriteScriptWhen(json, o, next, o.flow && o.eslint, Flint, FlintCommand);
    next := WriteScriptWhen(json, o, next, o.mocha, Test, TestCommand);
  }

  /** Fills `devDependencies`, then `scripts`, of the parsed package.json. */
  method MergeManifest(json: Members, o: Options, deps: seq<string>, versions: seq<string>)
    returns (r: Result<Members, Error>)
    requires |versions| == |deps|
    ensures r == Merged(json, o, deps, versions)
  {
    var withDeps :- WriteDevDependencies(json, deps, versions);
    r := WriteScripts(withDeps, o);
  }

  // ---------------------------------------------------------------- what the merge promises

  /** The members an object already had under `key`; none when it is absent or not an object. */
  function Prior(json: Members, key: string): Members {
    if key in json && json[key].Obj? then json[key].members else map[]
  }

  /** What each script's entry is for every combination of answers; there are no other entries. */
  lemma ScriptEntriesFor(o: Options)
    ensures Name(Build) in ScriptEntries(o)
    ensures ScriptEntries(o)[Name(Build)] == Str(BuildScript(o))
    ensures Name(Start) in ScriptEntries(o) <==> o.executable
    ensures o.executable ==> ScriptEntries(o)[Name(Start)] == Str(StartCommand)
    ensures Name(Prepare) in ScriptEntries(o) <==> o.publish
    ensures o.publish ==> ScriptEntries(o)[Name(Prepare)] == Str(PrepareCommand + (if o.flow then CopySourceSuffix else ""))
    ensures Name(FlowCheck) in ScriptEntries(o) <==> o.flow
    ensures o.flow ==> ScriptEntries(o)[Name(FlowCheck)] == Str(FlowCommand)
    ensures Name(Lint) in ScriptEntries(o) <==> o.eslint
    ensures o.eslint ==> ScriptEntries(o)[Name(Lint)] == Str(LintCommand + (if o.mocha then LintTestSuffix else ""))
    ensures Name(Flint) in ScriptEntries(o) <==> o.flow && o.eslint
    ensures o.flow && o.eslint ==> ScriptEntries(o)[Name(Flint)] == Str(FlintCommand)
    ensures Name(Test) in ScriptEntries(o) <==> o.mocha
    ensures o.mocha ==> ScriptEntries(o)[Name(Test)] == Str(TestCommand)
    ensures forall key :: key in ScriptEntries(o) ==> exists s :: Name(s) == key
  {
    ScriptsThroughAt(o, Test, Build);
    ScriptsThroughAt(o, Test, Start);
    ScriptsThroughAt(o, Test, Prepare);
    ScriptsThroughAt(o, Test, FlowCheck);
    ScriptsThroughAt(o, Test, Lint);
    ScriptsThroughAt(o, Test, Flint);
    ScriptsThroughAt(o, Test, Test);
    assert PrepareCommand + "" == PrepareCommand;
    assert LintCommand + "" == LintCommand;
    forall key | key in ScriptEntries(o)
      ensures exists s :: Name(s) == key
    {
      ScriptsThroughKeys(o, Test, key);
    }
  }

  /**
   * The merge throws exactly when `devDependencies` is null and there is a
   * package to write, or `scripts` is null (`build` is always written); the
   * dependencies are written first, so theirs is the error when both are.
   */
  lemma MergedFailure(json: Members, o: Options, deps: seq<string>, versions: seq<string>)
    requires |versions| == |deps|
    ensures Merged(json, o, deps, versions).Failure?
        <==> (DevDependencies in json && json[DevDependencies].Null? && |deps| > 0)
             || (Scripts in json && json[Scripts].Null?)
    ensures Merged(json, o, deps, versions).Failure?
        ==> Merged(json, o, deps, versions).error
            == if DevDependencies in json && json[DevDependencies].Null? && |deps| > 0
               then NullMember(DevDependencies) else NullMember(Scripts)
  {
    DepEntriesKeys(deps, versions);
    if |deps| > 0 {
      assert deps[0] in DepEntries(deps, versions);
    }
    ScriptEntriesFor(o);
  }

  /** A successful merge adds `devDependencies` and `scripts` and leaves every other member as it was. */
  lemma MergedKeepsOthers(json: Members, o: Options, deps: seq<string>, versions: seq<string>, r: Members)
    requires |versions| == |deps|
    requires Merged(json, o, deps, versions) == Success(r)
    ensures r.Keys == json.Keys + {DevDependencies, Scripts}
    ensures forall key :: key in json && key != DevDependencies && key != Scripts ==> r[key] == json[key]
  {
  }

  /**
   * Each listed package maps to the version paired with its last occurrence,
   * when `devDependencies` was absent or an object.
   */
  lemma MergedDependencyAt(json: Members, o: Options, deps: seq<string>, versions: seq<string>, r: Members, i: nat)
    requires |versions| == |deps| && i < |deps|
    requires Merged(json, o, deps, versions) == Success(r)
    requires DevDependencies !in json || json[DevDependencies].Obj?
    requires forall j :: i < j < |deps| ==> deps[j] != deps[i]
    ensures r[DevDependencies].Obj? && deps[i] in r[DevDependencies].members
    ensures r[DevDependencies].members[deps[i]] == Str(versions[i])
  {
    DepEntriesAt(deps, versions, i);
  }

  /**
   * `devDependencies` ends up holding what it held before plus the listed
   * packages, with the earlier members that are not listed unchanged; a
   * string, number, boolean or array there is left as it was, and a null one
   * survives only when there is nothing to write.
   */
  lemma MergedDependencies(json: Members, o: Options, deps: seq<string>, versions: seq<string>, r: Members)
    requires |versions| == |deps|
    requires Merged(json, o, deps, versions) == Success(r)
    ensures DevDependencies !in json || json[DevDependencies].Obj? ==>
              r[DevDependencies].Obj?
              && r[DevDependencies].members.Keys == Prior(json, DevDependencies).Keys + (set d | d in deps)
              && forall key :: key in Prior(json, DevDependencies) && key !in deps
                   ==> r[DevDependencies].members[key] == Prior(json, DevDependencies)[key]
    ensures DevDependencies in json && !json[DevDependencies].Obj? ==> r[DevDependencies] == json[DevDependencies]
    ensures DevDependencies in json && json[DevDependencies].Null? ==> |deps| == 0
  {
    DepEntriesKeys(deps, versions);
    if |deps| > 0 {
      assert deps[0] in DepEntries(deps, versions);
    }
  }

  /**
   * `scripts` ends up holding each script the answers call for, with its
   * command, when it was absent or an object.
   */
  lemma MergedScriptAt(json: Members, o: Options, deps: seq<string>, versions: seq<string>, r: Members, s: Script)
    requires |versions| == |deps|
    requires Merged(json, o, deps, versions) == Success(r)
    requires Scripts !in json || json[Scripts].Obj?
    requires ScriptFor(o, s).Some?
    ensures r[Scripts].Obj? && Name(s) in r[Scripts].members
    ensures r[Scripts].members[Name(s)] == Str(ScriptFor(o, s).value)
  {
    ScriptsThroughAt(o, Test, s);
  }

  /**
   * Every earlier member of `scripts` that no rule writes is unchanged (an
   * existing `start` of a non-executable project survives); a string,
   * number, boolean or array there is left as it was, and it is never null.
   */
  lemma MergedScriptsKept(json: Members, o: Options, deps: seq<string>, versions: seq<string>, r: Members)
    requires |versions| == |deps|
    requires Merged(json, o, deps, versions) == Success(r)
    ensures Scripts !in json || json[Scripts].Obj? ==>
              r[Scripts].Obj?
              && r[Scripts].members.Keys == Prior(json, Scripts).Keys + ScriptEntries(o).Keys
              && forall key :: key in Prior(json, Scripts) && key !in ScriptEntries(o)
                   ==> r[Scripts].members[key] == Prior(json, Scripts)[key]
    ensures Scripts in json && !json[Scripts].Obj? ==> r[Scripts] == json[Scripts] && !json[Scripts].Null?
    ensures !o.executable && Name(Start) in Prior(json, Scripts) ==>
              r[Scripts].members[Name(Start)] == Prior(json, Scripts)[Name(Start)]
  {
    ScriptEntriesFor(o);
  }

  /** The merge has done all it does: merging its result again changes nothing. */
  lemma MergedIdempotent(json: Members, o: Options, deps: seq<string>, versions: seq<string>, r: Members)
    requires |versions| == |deps|
    requires Merged(json, o, deps, versions) == Success(r)
    ensures Merged(r, o, deps, versions) == Success(r)
  {
    var withDeps := MergeMember(json, DevDependencies, DepEntries(deps, versions)).value;
    MergeAgain(json, DevDependencies, DepEntries(deps, versions), withDeps);
    MergeAgain(withDeps, Scripts, ScriptEntries(o), r);
    MergeSettled(withDeps, DevDependencies, DepEntries(deps, versions), r);
  }

  /** Merging into an absent or object member writes every entry. */
  lemma MergedField(json: Members, key: string, entries: Members, r: Members, field: string)
    requires MergeMember(json, key, entries) == Success(r)
    requires key !in json || json[key].Obj?
    requires field in entries
    ensures key in r && r[key].Obj? && field in r[key].members && r[key].members[field] == entries[field]
  {
  }

  /** Merging under one key leaves every other member as it was. */
  lemma MergeLeavesOthers(json: Members, key: string, entries: Members, r: Members, other: string)
    requires MergeMember(json, key, entries) == Success(r)
    requires other != key && other in json
    ensures other in r && r[other] == json[other]
  {
  }

  /** Merging the same entries into a merge's result leaves it as it is. */
  lemma MergeAgain(json: Members, key: string, entries: Members, r: Members)
    requires MergeMember(json, key, entries) == Success(r)
    ensures MergeMember(r, key, entries) == Success(r)
  {
    if key !in json || json[key].Obj? {
      var m := Prior(json, key);
      assert m + entries + entries == m + entries;
      assert r[key] == Obj(m + entries + entries);
      assert r[key := r[key]] == r;
    } else {
      assert r[key := r[key]] == r;
    }
  }

  /** Whether merging under `key` changes anything depends on that member alone. */
  lemma MergeSettled(json: Members, key: string, entries: Members, other: Members)
    requires MergeMember(json, key, entries) == Success(json)
    requires key in json && key in other && other[key] == json[key]
    ensures MergeMember(other, key, entries) == Success(other)
  {
    if json[key].Obj? {
      assert json[key] == Obj(json[key].members + entries);
      assert other[key := other[key]] == other;
    }
  }
}
