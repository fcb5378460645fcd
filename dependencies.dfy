/**
 * Which development dependencies a project gets, and the version constraint
 * written for each (getVersions and version in newBabelProject.js).
 */
module Dependencies {
  import opened Outcomes
  import opened ProjectOptions
  import opened RuleTables

  /** The three packages every project gets, first and in this order. */
  const Base: seq<string> := ["babel-cli", "babel-preset-env", "rimraf"]

  /**
   * The rule table: every package the generator can ask for, in push order,
   * with the answers that make it push the package.
   */
  const DevDependencyTable: seq<Entry<string>> := [
    Entry("babel-cli", Always),
    Entry("babel-preset-env", Always),
    Entry("rimraf", Always),
    Entry("babel-preset-flow", When(Flow)),
    Entry("flow-bin", When(Flow)),
    Entry("flow-copy-source", WhenBoth(Flow, Publish)),
    Entry("eslint", When(Eslint)),
    Entry("eslint-plugin-flowtype", WhenBoth(Eslint, Flow)),
    Entry("babel-eslint", WhenBoth(Eslint, Flow)),
    Entry("mocha", When(Mocha)),
    Entry("chai", When(Mocha)),
    Entry("eslint-plugin-mocha", WhenBoth(Mocha, Eslint)),
    Entry("babel-plugin-add-module-exports", When(Publish)),
    Entry("babel-watch", When(Executable))
  ]

  /** The same table cut into the generator's `if` blocks. */
  const FlowBlock: seq<Entry<string>> := Nested(Flow, Publish, ["babel-preset-flow", "flow-bin"], ["flow-copy-source"])
  const EslintBlock: seq<Entry<string>> := Nested(Eslint, Flow, ["eslint"], ["eslint-plugin-flowtype", "babel-eslint"])
  const MochaBlock: seq<Entry<string>> := Nested(Mocha, Eslint, ["mocha", "chai"], ["eslint-plugin-mocha"])
  const PublishRows: seq<Entry<string>> := Rows(When(Publish), ["babel-plugin-add-module-exports"])
  const ExecutableRows: seq<Entry<string>> := Rows(When(Executable), ["babel-watch"])

  /**
   * The table is the always-present base followed by one block per `if` of
   * the generator, each block an outer push and the push nested inside it.
   */
  lemma TableInBlocks()
    ensures DevDependencyTable == Rows(Always, Base) + FlowBlock + EslintBlock + MochaBlock + PublishRows + ExecutableRows
  {
    assert Rows(Always, Base) == DevDependencyTable[..3];
    assert FlowBlock == DevDependencyTable[3..6];
    assert EslintBlock == DevDependencyTable[6..9];
    assert MochaBlock == DevDependencyTable[9..12];
    assert PublishRows == DevDependencyTable[12..13];
    assert ExecutableRows == DevDependencyTable[13..];
  }

  /** The dependency list for the given answers. */
  function Planned(o: Options): seq<string> {
    Select(o, DevDependencyTable)
  }

  /** Builds the dependency list by pushing onto it under nested conditions. */
  method PlanDependencies(o: Options) returns (deps: seq<string>)
    ensures deps == Planned(o)
  {
    deps := ["babel-cli", "babel-preset-env", "rimraf"];
    deps := PushNested(o, Flow, Publish, ["babel-preset-flow", "flow-bin"], ["flow-copy-source"], deps);
    deps := PushNested(o, Eslint, Flow, ["eslint"], ["eslint-plugin-flowtype", "babel-eslint"], deps);
    deps := PushNested(o, Mocha, Eslint, ["mocha", "chai"], ["eslint-plugin-mocha"], deps);
    deps := PushWhen(o, Publish, ["babel-plugin-add-module-exports"], deps);
    deps := PushWhen(o, Executable, ["babel-watch"], deps);
    PlannedByBlocks(o);
  }

  /** The table selects block by block. */
  lemma PlannedByBlocks(o: Options)
    ensures Planned(o) == Base + Select(o, FlowBlock) + Select(o, EslintBlock) + Select(o, MochaBlock)
                          + Select(o, PublishRows) + Select(o, ExecutableRows)
  {
    TableInBlocks();
    SelectRows(o, Always, Base);
    var a := Rows(Always, Base) + FlowBlock;
    var b := a + EslintBlock;
    var c := b + MochaBlock;
    var d := c + PublishRows;
    SelectAppend(o, Rows(Always, Base), FlowBlock);
    SelectAppend(o, a, EslintBlock);
    SelectAppend(o, b, MochaBlock);
    SelectAppend(o, c, PublishRows);
    SelectAppend(o, d, ExecutableRows);
  }

  /** The table lists every package once. */
  lemma TableItemsDistinct()
    ensures DistinctItems(DevDependencyTable)
  {
  }

  /** The list always opens with babel-cli, babel-preset-env and rimraf, in that order. */
  lemma PlannedStartsWithBase(o: Options)
    ensures |Planned(o)| >= 3 && Planned(o)[..3] == Base
  {
    PlannedByBlocks(o);
  }

  /** No package is listed twice, whatever the answers. */
  lemma PlannedDistinct(o: Options)
    ensures Distinct(Planned(o))
  {
    TableItemsDistinct();
    SelectDistinct(o, DevDependencyTable);
  }

  /** The three base packages are listed whatever the answers. */
  lemma PlannedBasePackages(o: Options)
    ensures "babel-cli" in Planned(o) && "babel-preset-env" in Planned(o) && "rimraf" in Planned(o)
  {
    TableItemsDistinct();
    SelectedAt(o, DevDependencyTable, 0);
    SelectedAt(o, DevDependencyTable, 1);
    SelectedAt(o, DevDependencyTable, 2);
  }

  /** The Flow block: the preset and flow-bin with Flow, flow-copy-source only when publishing too. */
  lemma PlannedFlowPackages(o: Options)
    ensures "babel-preset-flow" in Planned(o) <==> o.flow
    ensures "flow-bin" in Planned(o) <==> o.flow
    ensures "flow-copy-source" in Planned(o) <==> o.flow && o.publish
  {
    TableItemsDistinct();
    SelectedAt(o, DevDependencyTable, 3);
    SelectedAt(o, DevDependencyTable, 4);
    SelectedAt(o, DevDependencyTable, 5);
  }

  /** The ESLint block: eslint, and the Flow plugin and parser only when Flow is on too. */
  lemma PlannedEslintPackages(o: Options)
    ensures "eslint" in Planned(o) <==> o.eslint
    ensures "eslint-plugin-flowtype" in Planned(o) <==> o.eslint && o.flow
    ensures "babel-eslint" in Planned(o) <==> o.eslint && o.flow
  {
    TableItemsDistinct();
    SelectedAt(o, DevDependencyTable, 6);
    SelectedAt(o, DevDependencyTable, 7);
    SelectedAt(o, DevDependencyTable, 8);
  }

  /** The Mocha block: mocha and chai, and the ESLint plugin only when ESLint is on too. */
  lemma PlannedMochaPackages(o: Options)
    ensures "mocha" in Planned(o) <==> o.mocha
    ensures "chai" in Planned(o) <==> o.mocha
    ensures "eslint-plugin-mocha" in Planned(o) <==> o.mocha && o.eslint
  {
    TableItemsDistinct();
    SelectedAt(o, DevDependencyTable, 9);
    SelectedAt(o, DevDependencyTable, 10);
    SelectedAt(o, DevDependencyTable, 11);
  }

  /** The publish and executable packages follow their own answer alone. */
  lemma PlannedPublishAndWatch(o: Options)
    ensures "babel-plugin-add-module-exports" in Planned(o) <==> o.publish
    ensures "babel-watch" in Planned(o) <==> o.executable
  {
    TableItemsDistinct();
    SelectedAt(o, DevDependencyTable, 12);
    SelectedAt(o, DevDependencyTable, 13);
  }

  /** Nothing outside the table is ever listed. */
  lemma PlannedFromTable(o: Options, p: string)
    requires p in Planned(o)
    ensures exists i :: 0 <= i < |DevDependencyTable| && DevDependencyTable[i].item == p
  {
    SelectMember(o, DevDependencyTable, p);
  }

  /** The constraint written for a looked-up version: a caret, then the version. */
  function Caret(v: string): (r: string)
    ensures |r| == |v| + 1 && r[0] == '^' && r[1..] == v
  {
    "^" + v
  }

  /**
   * Looks every package up in `registry` (package to latest version) and
   * turns each version into a caret constraint, keeping the order of `deps`.
   * One package the registry does not know fails the whole resolution.
   */
  function ResolveVersions(deps: seq<string>, registry: map<string, string>): (r: Result<seq<string>, Error>)
    ensures r.Success? <==> forall i :: 0 <= i < |deps| ==> deps[i] in registry
    ensures r.Success? ==>
              |r.value| == |deps| && forall i :: 0 <= i < |deps| ==> r.value[i] == Caret(registry[deps[i]])
    ensures r.Failure? ==> r.error.LookupFailed? && r.error.package in deps && r.error.package !in registry
  {
    if |deps| == 0 then Success([])
    else if deps[0] !in registry then Failure(LookupFailed(deps[0]))
    else
      var rest :- ResolveVersions(deps[1..], registry);
      Success([Caret(registry[deps[0]])] + rest)
  }
}
