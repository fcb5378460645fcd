/**
 * The generated `.babelrc`, README.md and `src/main.js` contents
 * (babelrc, readme and mainjs in newBabelProject.js).
 */
module Templates {
  import opened Outcomes
  import opened ProjectOptions
  import opened RuleTables

  // ---------------------------------------------------------------- .babelrc

  /** A Babel preset: a bare name, or a name with a `targets.node` setting. */
  datatype Preset = Named(name: string) | Targeted(name: string, node: string)

  /** The `.babelrc` object; `plugins` is absent unless the project is published. */
  datatype Babelrc = Babelrc(presets: seq<Preset>, plugins: Option<seq<string>>)

  const EnvPreset: Preset := Targeted("env", "current")
  const FlowPreset: Preset := Named("flow")
  const ModuleExportsPlugin: string := "add-module-exports"

  /** The `.babelrc` the answers call for. */
  function BabelrcFor(o: Options): Babelrc {
    Babelrc(if o.flow then [FlowPreset, EnvPreset] else [EnvPreset],
            if o.publish then Some([ModuleExportsPlugin]) else None)
  }

  /**
   * Starts from the env preset alone, puts the flow preset in front of it
   * when Flow is on, and adds the plugin list when publishing.
   */
  method BuildBabelrc(o: Options) returns (cfg: Babelrc)
    ensures cfg == BabelrcFor(o)
  {
    cfg := Babelrc([EnvPreset], None);
    if o.flow {
      cfg := cfg.(presets := [FlowPreset] + cfg.presets);
    }
    if o.publish {
      cfg := cfg.(plugins := Some([ModuleExportsPlugin]));
    }
  }

  /**
   * The presets end with env and start with flow exactly when Flow is on;
   * the plugin list is there exactly when publishing.
   */
  lemma BabelrcShape(o: Options)
    ensures |BabelrcFor(o).presets| == if o.flow then 2 else 1
    ensures BabelrcFor(o).presets[|BabelrcFor(o).presets| - 1] == EnvPreset
    ensures FlowPreset in BabelrcFor(o).presets <==> o.flow
    ensures BabelrcFor(o).presets[0] == FlowPreset <==> o.flow
    ensures BabelrcFor(o).plugins.Some? <==> o.publish
    ensures o.publish ==> BabelrcFor(o).plugins.value == [ModuleExportsPlugin]
  {
  }

  /**
   * The npm package Babel loads for a preset. This is Babel's own naming
   * convention for short preset names, not something the generator computes.
   */
  function PresetPackage(p: Preset): string {
    "babel-preset-" + p.name
  }

  /** The npm package Babel loads for a plugin, by the same naming convention. */
  function PluginPackage(name: string): string {
    "babel-plugin-" + name
  }

  // ---------------------------------------------------------------- README.md

  /** The blocks appended after the heading, as the generator writes them. */
  const FlowText: string := "\n### Flow\n```bash\nnpm run flow -- init\n```"
  const EslintText: string := "\n### ESLint\n```bash\nnpm run lint -- --init\n```"
  const EslintFlowtypeText: string :=
    "\nEdit .eslintrc\n```json\n{\n  \"extends\": {\n    ...\n    \"plugin:flowtype/recommended\"\n  },\n  \"parser\": \"babel-eslint\",\n  \"plugins\": [\n    \"flowtype\"\n  ],\n  ...\n}\n```"
  const EslintMochaText: string :=
    "\nCreate test/.eslintrc\n```json\n{\n  ...\n  \"plugins\": [\n    \"mocha\"\n  ],\n  \"env\": {\n    \"mocha\": true\n  }\n}\n```"

  /** The heading block, named after the project directory. */
  function TitleText(name: string): (r: string)
    ensures |r| > |name| + 2 && r[..2] == "# " && r[2..|name| + 2] == name && r[|name| + 2] == '\n'
  {
    "# " + name + "\nDescription\n\n## Todo"
  }

  /** The parts' texts, one after another. */
  function Concat(parts: seq<string>): string {
    if |parts| == 0 then "" else Concat(parts[..|parts| - 1]) + parts[|parts| - 1]
  }

  lemma ConcatSingle(x: string)
    ensures Concat([x]) == x
  {
    assert [x][..0] == [];
  }

  lemma ConcatSnoc(parts: seq<string>, x: string)
    ensures Concat(parts + [x]) == Concat(parts) + x
  {
    assert (parts + [x])[..|parts|] == parts;
  }

  /** A prefix of the parts makes a prefix of the text. */
  lemma {:induction false} ConcatPrefix(parts: seq<string>, k: nat)
    requires k <= |parts|
    ensures Concat(parts[..k]) <= Concat(parts)
    decreases |parts|
  {
    if k < |parts| {
      assert parts[..|parts| - 1][..k] == parts[..k];
      ConcatPrefix(parts[..|parts| - 1], k);
    } else {
      assert parts[..k] == parts;
    }
  }

  /**
   * The README rule table: the heading always, the Flow setup with Flow, the
   * ESLint setup with ESLint, and its two sub-blocks only inside it.
   */
  function ReadmeTable(name: string): seq<Entry<string>> {
    [ Entry(TitleText(name), Always),
      Entry(FlowText, When(Flow)),
      Entry(EslintText, When(Eslint)),
      Entry(EslintFlowtypeText, WhenBoth(Eslint, Flow)),
      Entry(EslintMochaText, WhenBoth(Eslint, Mocha)) ]
  }

  /** The blocks the README gets for the given answers, in order. */
  function ReadmeParts(o: Options, name: string): seq<string> {
    Select(o, ReadmeTable(name))
  }

  /** The README text for the given answers and project name. */
  function Readme(o: Options, name: string): string {
    Concat(ReadmeParts(o, name))
  }

  /** The table's blocks are the heading followed by the blocks the answers switch on. */
  lemma ReadmeByBlocks(o: Options, name: string)
    ensures ReadmeParts(o, name)
         == [TitleText(name)] + (if o.flow then [FlowText] else []) + (if o.eslint then [EslintText] else [])
            + (if o.eslint && o.flow then [EslintFlowtypeText] else [])
            + (if o.eslint && o.mocha then [EslintMochaText] else [])
  {
    var t := ReadmeTable(name);
    SelectFive(o, t[0], t[1], t[2], t[3], t[4]);
    assert t == [t[0], t[1], t[2], t[3], t[4]];
  }

  /** Builds the README by appending blocks to the heading. */
  method BuildReadme(o: Options, name: string) returns (content: string)
    ensures content == Readme(o, name)
  {
    content := TitleText(name);
    if o.flow {
      content := content + FlowText;
    }
    if o.eslint {
      content := content + EslintText;
      if o.flow {
        content := content + EslintFlowtypeText;
      }
      if o.mocha {
        content := content + EslintMochaText;
      }
    }
    ghost var parts := [TitleText(name)];
    ConcatSingle(TitleText(name));
    ConcatMaybe(parts, FlowText, o.flow);
    parts := parts + (if o.flow then [FlowText] else []);
    ConcatMaybe(parts, EslintText, o.eslint);
    parts := parts + (if o.eslint then [EslintText] else []);
    ConcatMaybe(parts, EslintFlowtypeText, o.eslint && o.flow);
    parts := parts + (if o.eslint && o.flow then [EslintFlowtypeText] else []);
    ConcatMaybe(parts, EslintMochaText, o.eslint && o.mocha);
    parts := parts + (if o.eslint && o.mocha then [EslintMochaText] else []);
    ReadmeByBlocks(o, name);
  }

  /** Appending a part when `c` holds appends its text when `c` holds. */
  lemma ConcatMaybe(parts: seq<string>, x: string, c: bool)
    ensures Concat(parts + (if c then [x] else [])) == Concat(parts) + (if c then x else "")
  {
    if c {
      ConcatSnoc(parts, x);
    } else {
      assert parts + [] == parts;
      assert Concat(parts) + "" == Concat(parts);
    }
  }

  /** No block of the table repeats another, whatever the project is called. */
  lemma ReadmeTableDistinct(name: string)
    ensures DistinctItems(ReadmeTable(name))
  {
    var t := ReadmeTable(name);
    assert TitleText(name)[|TitleText(name)| - 1] == 'o';
    assert |FlowText| == 42 && FlowText[41] == '`';
    assert |EslintText| == 46 && EslintText[45] == '`';
    assert |EslintFlowtypeText| == 162 && EslintFlowtypeText[161] == '`';
    assert |EslintMochaText| == 109 && EslintMochaText[108] == '`';
  }

  /** The README opens with `# ` and the project name on a line of its own. */
  lemma ReadmeStartsWithName(o: Options, name: string)
    ensures |Readme(o, name)| > |name| + 2
    ensures Readme(o, name)[..2] == "# " && Readme(o, name)[2..|name| + 2] == name
    ensures Readme(o, name)[|name| + 2] == '\n'
  {
    ReadmeByBlocks(o, name);
    var parts := ReadmeParts(o, name);
    assert parts[..1] == [TitleText(name)];
    ConcatPrefix(parts, 1);
    ConcatSingle(TitleText(name));
  }

  /** Which blocks the README holds, for every combination of answers. */
  lemma ReadmeBlocksFor(o: Options, name: string)
    ensures TitleText(name) in ReadmeParts(o, name)
    ensures FlowText in ReadmeParts(o, name) <==> o.flow
    ensures EslintText in ReadmeParts(o, name) <==> o.eslint
    ensures EslintFlowtypeText in ReadmeParts(o, name) <==> o.eslint && o.flow
    ensures EslintMochaText in ReadmeParts(o, name) <==> o.eslint && o.mocha
  {
    var t := ReadmeTable(name);
    ReadmeTableDistinct(name);
    SelectedAt(o, t, 0);
    SelectedAt(o, t, 1);
    SelectedAt(o, t, 2);
    SelectedAt(o, t, 3);
    SelectedAt(o, t, 4);
  }

  /**
   * The Flow-type and test/.eslintrc blocks only ever follow the ESLint
   * setup block: nothing before it is one of them.
   */
  lemma ReadmeSubBlocksFollowEslint(o: Options, name: string)
    requires o.eslint
    ensures exists k :: 0 <= k < |ReadmeParts(o, name)| && ReadmeParts(o, name)[k] == EslintText
                     && EslintFlowtypeText !in ReadmeParts(o, name)[..k]
                     && EslintMochaText !in ReadmeParts(o, name)[..k]
  {
    ReadmeByBlocks(o, name);
    ReadmeTableDistinct(name);
    var t := ReadmeTable(name);
    var parts := ReadmeParts(o, name);
    var k := if o.flow then 2 else 1;
    assert parts[k] == EslintText;
    assert parts[..k] == if o.flow then [t[0].item, t[1].item] else [t[0].item];
  }

  // ---------------------------------------------------------------- src/main.js

  const MainJsText: string := "console.log('Hello world!');\n"

  /** `src/main.js` is written, with a hello-world line, exactly for executables. */
  function MainJs(o: Options): (r: Option<string>)
    ensures r.Some? <==> o.executable
    ensures r.Some? ==> r.value == MainJsText
  {
    if !o.executable then None else Some(MainJsText)
  }
}
