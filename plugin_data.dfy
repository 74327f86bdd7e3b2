/** The README generator (tools/generate_plugindata): it walks the four
    plugin category directories of an upstream checkout, pulls the
    description and sample configuration out of each plugin's README.md, and
    replaces `generated_data.go` with a Go file declaring the catalog, keeping
    the previous file as `generated_data.go.tmp` for the `--clean` run.

    A README is given as the top-level nodes the Markdown parser produces. */
module PluginData {
  import opened Common
  import opened Text
  import opened Walk
  import opened Files

  const FileName: string := "generated_data.go"
  const BackupName: string := "generated_data.go.tmp"
  const ReadmeName: string := "README.md"

  /** The two `go:generate` lines written at the head of the generated file. */
  const Header: seq<string> := [
    "//go:generate go run ../tools/generate_plugindata/main.go",
    "//go:generate go run ../tools/generate_plugindata/main.go --clean"
  ]

  /** A top-level Markdown node: a heading with the text of its first child
      (if it has one), a fenced code block with its info-string language and
      its line values, or anything else. */
  datatype Node =
    | Heading(firstChild: Option<string>)
    | FencedCode(language: string, lines: seq<string>)
    | Other

  // ---------------------------------------------------------------------
  // The section scan of one README

  /** The value `currentSection` holds when the scan reaches node `i`: the
      first-child text of the last heading before `i` that has a first child. */
  function SectionAt(nodes: seq<Node>, i: nat): string
    requires i <= |nodes|
  {
    if i == 0 then ""
    else
      match nodes[i - 1]
      case Heading(Some(t)) => t
      case _ => SectionAt(nodes, i - 1)
  }

  /** The current section is empty until the first heading with a first
      child, and afterwards the text of the last such heading before `i`. */
  lemma SectionIsHeading(nodes: seq<Node>, i: nat)
    requires i <= |nodes|
    ensures SectionAt(nodes, i) == "" || Heading(Some(SectionAt(nodes, i))) in nodes[..i]
    ensures SectionAt(nodes, i) != "" ==>
            exists k :: 0 <= k < i && nodes[k] == Heading(Some(SectionAt(nodes, i))) &&
                        forall j :: k < j < i ==> !(nodes[j].Heading? && nodes[j].firstChild.Some?)
  {
    var section := SectionAt(nodes, i);
    if section != "" {
      LastHeading(nodes, i);
      var k :| 0 <= k < i && nodes[k] == Heading(Some(section));
      assert nodes[..i][k] == nodes[k];
    }
  }

  /** A non-empty section comes from the last heading with a first child. */
  lemma {:induction false} LastHeading(nodes: seq<Node>, i: nat)
    requires i <= |nodes| && SectionAt(nodes, i) != ""
    ensures exists k :: 0 <= k < i && nodes[k] == Heading(Some(SectionAt(nodes, i))) &&
                        forall j :: k < j < i ==> !(nodes[j].Heading? && nodes[j].firstChild.Some?)
  {
    var section := SectionAt(nodes, i);
    if nodes[i - 1].Heading? && nodes[i - 1].firstChild.Some? {
      assert nodes[i - 1] == Heading(Some(section));
    } else {
      assert section == SectionAt(nodes, i - 1);
      LastHeading(nodes, i - 1);
      var k :| 0 <= k < i - 1 && nodes[k] == Heading(Some(section)) &&
               forall j :: k < j < i - 1 ==> !(nodes[j].Heading? && nodes[j].firstChild.Some?);
      assert forall j :: k < j < i ==> !(nodes[j].Heading? && nodes[j].firstChild.Some?);
    }
  }

  /** Node `i` is a `toml` fenced block inside the `Configuration` section. */
  predicate Qualifies(nodes: seq<Node>, i: nat)
    requires i < |nodes|
  {
    nodes[i].FencedCode? && SectionAt(nodes, i) == "Configuration" && nodes[i].language == "toml"
  }

  /** The last qualifying node before `n`, if any. */
  function LastQualifying(nodes: seq<Node>, n: nat): (r: Option<nat>)
    requires n <= |nodes|
    ensures r.Some? ==> r.value < n && Qualifies(nodes, r.value)
    ensures r.Some? ==> forall k :: r.value < k < n ==> !Qualifies(nodes, k)
    ensures r.None? ==> forall k :: 0 <= k < n ==> !Qualifies(nodes, k)
  {
    if n == 0 then None
    else if Qualifies(nodes, n - 1) then Some(n - 1)
    else LastQualifying(nodes, n - 1)
  }

  /** Some qualifying block before `n` has no lines, so reading its line 0 panics. */
  predicate PanicsBefore(nodes: seq<Node>, n: nat)
    requires n <= |nodes|
  {
    exists k :: 0 <= k < n && Qualifies(nodes, k) && |nodes[k].lines| == 0
  }

  /** The record a qualifying block gives: line 0 without one leading `#`
      and trimmed is the description, all line values together the sample. */
  function BlockRecord(name: string, lines: seq<string>): (p: Plugin)
    requires |lines| > 0
    ensures p.name == name
    ensures |p.description| <= |lines[0]|
    ensures lines[0] <= p.sampleConfig
  {
    Plugin(name, TrimSpace(TrimPrefix(lines[0], "#")), Concat(lines))
  }

  /** The record after the scan has passed the nodes before `n`. */
  function RecordAt(name: string, nodes: seq<Node>, n: nat): Plugin
    requires n <= |nodes| && !PanicsBefore(nodes, n)
  {
    match LastQualifying(nodes, n)
    case None => EmptyPlugin(name)
    case Some(j) => assert Qualifies(nodes, j); BlockRecord(name, nodes[j].lines)
  }

  /** What `parseReadme` returns for a README that was read: the record of
      the LAST qualifying block (the `break` leaves only the `switch`), or an
      empty record when no block qualifies. */
  function ReadmeRecord(name: string, nodes: seq<Node>): (r: Result<Plugin>)
    ensures r.Ok? ==> r.value.name == name
  {
    if PanicsBefore(nodes, |nodes|) then Err(EmptyFence(name)) else Ok(RecordAt(name, nodes, |nodes|))
  }

  /** Before the first node: no section, no panic, the empty record. */
  lemma ScanStart(name: string, nodes: seq<Node>)
    ensures SectionAt(nodes, 0) == "" && !PanicsBefore(nodes, 0)
    ensures RecordAt(name, nodes, 0) == EmptyPlugin(name)
  {
  }

  /** One step of the scan: how node `i` changes the current section, the
      panic flag and the record. */
  lemma ScanStep(name: string, nodes: seq<Node>, i: nat)
    requires i < |nodes| && !PanicsBefore(nodes, i)
    ensures SectionAt(nodes, i + 1) ==
            if nodes[i].Heading? && nodes[i].firstChild.Some? then nodes[i].firstChild.value else SectionAt(nodes, i)
    ensures PanicsBefore(nodes, i + 1) <==> Qualifies(nodes, i) && |nodes[i].lines| == 0
    ensures !PanicsBefore(nodes, i + 1) ==>
            RecordAt(name, nodes, i + 1) ==
            if Qualifies(nodes, i) then BlockRecord(name, nodes[i].lines) else RecordAt(name, nodes, i)
  {
  }

  /** The inner loop of a qualifying block: its line values, appended in order. */
  method ConcatLines(lines: seq<string>) returns (config: string)
    ensures config == Concat(lines)
  {
    config := "";
    var j := 0;
    while j < |lines|
      invariant 0 <= j <= |lines|
      invariant config == Concat(lines[..j])
    {
      ConcatAppend(lines[..j], lines[j]);
      assert lines[..j + 1] == lines[..j] + [lines[j]];
      config := config + lines[j];
      j := j + 1;
    }
    assert lines[..j] == lines;
  }

  method ParseReadme(pluginName: string, nodes: seq<Node>) returns (r: Result<Plugin>)
    ensures r == ReadmeRecord(pluginName, nodes)
  {
    var p := EmptyPlugin(pluginName);
    var currentSection := "";
    var i := 0;
    ScanStart(pluginName, nodes);
    while i < |nodes|
      invariant 0 <= i <= |nodes|
      invariant currentSection == SectionAt(nodes, i)
      invariant !PanicsBefore(nodes, i)
      invariant p == RecordAt(pluginName, nodes, i)
    {
      ScanStep(pluginName, nodes, i);
      match nodes[i] {
      case Heading(child) =>
        if child.Some? {
          currentSection := child.value;
        }
      case FencedCode(language, lines) =>
        if currentSection == "Configuration" && language == "toml" {
          if |lines| == 0 {
            return Err(EmptyFence(pluginName));
          }
          var description := lines[0];
          var config := ConcatLines(lines);
          p := Plugin(p.name, TrimSpace(TrimPrefix(description, "#")), config);
        }
      case Other =>
      }
      i := i + 1;
    }
    r := Ok(p);
  }

  // ---------------------------------------------------------------------
  // Properties of the section scan

  /** Nodes appended later do not change the section seen at an earlier node. */
  lemma {:induction false} SectionAtPrefix(nodes: seq<Node>, more: seq<Node>, i: nat)
    requires i <= |nodes|
    ensures SectionAt(nodes + more, i) == SectionAt(nodes, i)
  {
    if i > 0 {
      assert (nodes + more)[i - 1] == nodes[i - 1];
      SectionAtPrefix(nodes, more, i - 1);
    }
  }

  /** The current section changes only at a heading that has a first child,
      and then becomes that child's text. */
  lemma SectionStep(nodes: seq<Node>, n: Node)
    ensures SectionAt(nodes + [n], |nodes| + 1) ==
            if n.Heading? && n.firstChild.Some? then n.firstChild.value else SectionAt(nodes, |nodes|)
  {
    SectionAtPrefix(nodes, [n], |nodes|);
  }

  /** A README without a qualifying block gives a record with the plugin's
      name and an empty description and sample configuration. */
  lemma NoQualifyingBlock(name: string, nodes: seq<Node>)
    requires forall k :: 0 <= k < |nodes| ==> !Qualifies(nodes, k)
    ensures ReadmeRecord(name, nodes) == Ok(Plugin(name, "", ""))
  {
  }

  /** Parsing fails exactly when some `toml` block of the Configuration
      section has no lines, and then with that plugin's `EmptyFence` error. */
  lemma EmptyBlockFails(name: string, nodes: seq<Node>)
    ensures ReadmeRecord(name, nodes).Err? <==>
      exists k :: 0 <= k < |nodes| && nodes[k].FencedCode? && nodes[k].lines == [] &&
                  nodes[k].language == "toml" && SectionAt(nodes, k) == "Configuration"
    ensures ReadmeRecord(name, nodes).Err? ==> ReadmeRecord(name, nodes) == Err(EmptyFence(name))
  {
  }

  /** The last qualifying block decides the record, whatever came before it. */
  lemma LastBlockWins(name: string, nodes: seq<Node>, j: nat)
    requires j < |nodes| && Qualifies(nodes, j)
    requires forall k :: j < k < |nodes| ==> !Qualifies(nodes, k)
    requires !PanicsBefore(nodes, |nodes|)
    ensures |nodes[j].lines| > 0
    ensures ReadmeRecord(name, nodes) == Ok(BlockRecord(name, nodes[j].lines))
  {
    var r := LastQualifying(nodes, |nodes|);
    assert r.Some? && r.value == j;
  }

  /** Scanning does not stop at a qualifying block: a further `toml` block
      in the `Configuration` section replaces whatever an earlier one gave. */
  lemma LaterBlockOverrides(name: string, nodes: seq<Node>, lines: seq<string>)
    requires SectionAt(nodes, |nodes|) == "Configuration"
    requires |lines| > 0
    requires !PanicsBefore(nodes, |nodes|)
    ensures ReadmeRecord(name, nodes + [FencedCode("toml", lines)]) == Ok(BlockRecord(name, lines))
  {
    var all := nodes + [FencedCode("toml", lines)];
    SectionAtPrefix(nodes, [FencedCode("toml", lines)], |nodes|);
    assert Qualifies(all, |nodes|);
    forall k | 0 <= k < |nodes|
      ensures Qualifies(all, k) == Qualifies(nodes, k) && all[k] == nodes[k]
    {
      SectionAtPrefix(nodes, [FencedCode("toml", lines)], k);
    }
    assert !PanicsBefore(all, |all|);
  }

  // ---------------------------------------------------------------------
  // The walk over one category

  /** `extractReadme`: the records of one category, in walk order. */
  method ExtractReadme(walk: seq<WalkStep>, tree: map<string, seq<Node>>) returns (r: Result<seq<Plugin>>)
    requires WellFormedWalk(walk)
    ensures r == Extract(walk, tree, ReadmeName, ReadmeRecord)
  {
    var plugins: seq<Plugin> := [];
    var i := 0;
    assert walk[i..] == walk;
    ExtendNothing(Extract(walk, tree, ReadmeName, ReadmeRecord));
    while i < |walk|
      invariant 0 <= i <= |walk|
      invariant WellFormedWalk(walk[i..])
      invariant Extract(walk, tree, ReadmeName, ReadmeRecord)
             == Extend(plugins, Extract(walk[i..], tree, ReadmeName, ReadmeRecord))
    {
      assert walk[i..][1..] == walk[i + 1..];
      match walk[i] {
      case Failed(reason) =>
        return Err(WalkFailed(reason));
      case Visit(s) =>
        var name := ParentName(s);
        if name !in Exceptions && BaseName(s) == ReadmeName {
          if s !in tree {
            return Err(NotFound(s));
          }
          var p := ParseReadme(name, tree[s]);
          if p.Err? {
            return Err(p.error);
          }
          ExtendExtend(plugins, p.value, Extract(walk[i + 1..], tree, ReadmeName, ReadmeRecord));
          plugins := plugins + [p.value];
        }
      }
      i := i + 1;
    }
    assert walk[i..] == [];
    assert plugins + [] == plugins;
    r := Ok(plugins);
  }

  /** Every README record is named after its plugin directory, in walk order. */
  lemma ReadmeRecordsNamed(walk: seq<WalkStep>, tree: map<string, seq<Node>>)
    requires WellFormedWalk(walk)
    ensures Extract(walk, tree, ReadmeName, ReadmeRecord).Ok? ==>
      var ps := Extract(walk, tree, ReadmeName, ReadmeRecord).value;
      var sel := SelectedPaths(walk, ReadmeName);
      |ps| == |sel| && forall k :: 0 <= k < |ps| ==> ps[k].name == ParentName(sel[k])
  {
    ExtractNames(walk, tree, ReadmeName, ReadmeRecord);
  }

  // ---------------------------------------------------------------------
  // The generated file

  /** The composite literal written for one record. */
  function ToLiteral(p: Plugin): seq<Field>
  {
    [Field("Name", p.name), Field("Description", p.description), Field("SampleConfig", p.sampleConfig)]
  }

  /** The value of a key in a composite literal; a key the literal leaves out
      takes Go's zero value. */
  function FieldValue(lit: seq<Field>, key: string): string
  {
    if lit == [] then "" else if lit[0].key == key then lit[0].value else FieldValue(lit[1..], key)
  }

  /** The record a literal denotes once the generated code runs. */
  function Load(lit: seq<Field>): Plugin
  {
    Plugin(FieldValue(lit, "Name"), FieldValue(lit, "Description"), FieldValue(lit, "SampleConfig"))
  }

  function Literals(plugins: seq<Plugin>): (lits: seq<seq<Field>>)
    ensures |lits| == |plugins|
  {
    seq(|plugins|, k requires 0 <= k < |plugins| => ToLiteral(plugins[k]))
  }

  /** The records an accessor of the generated file returns. */
  function Loaded(values: seq<seq<Field>>): seq<Plugin>
  {
    seq(|values|, k requires 0 <= k < |values| => Load(values[k]))
  }

  /** The generated accessor returns exactly the records it was built from. */
  lemma LoadLiterals(plugins: seq<Plugin>)
    ensures Loaded(Literals(plugins)) == plugins
  {
    var l := Loaded(Literals(plugins));
    forall k | 0 <= k < |plugins|
      ensures l[k] == plugins[k]
    {
      var p := plugins[k];
      assert Literals(plugins)[k] == ToLiteral(p);
      var lit := ToLiteral(p);
      assert FieldValue(lit[1..][1..], "SampleConfig") == p.sampleConfig;
      assert FieldValue(lit[1..], "SampleConfig") == p.sampleConfig;
      assert FieldValue(lit[1..], "Description") == p.description;
    }
  }

  /** `functionContents`: one literal per record, in list order. */
  method FunctionContents(plugins: seq<Plugin>) returns (values: seq<seq<Field>>)
    ensures values == Literals(plugins)
    ensures Loaded(values) == plugins
  {
    values := [];
    var i := 0;
    while i < |plugins|
      invariant 0 <= i <= |plugins|
      invariant |values| == i
      invariant forall k :: 0 <= k < i ==> values[k] == ToLiteral(plugins[k])
    {
      values := values + [ToLiteral(plugins[i])];
      i := i + 1;
    }
    LoadLiterals(plugins);
  }

  /** The file `UpdateFile` renders. Processor and aggregator accessors are
      built from the `output` list, as the source does. */
  function Generate(input: seq<Plugin>, output: seq<Plugin>, processor: seq<Plugin>,
                    aggregator: seq<Plugin>): (f: GoFile)
    ensures f.packageName == "plugins" && f.header == Header
    ensures |f.accessors| == 4
    ensures forall k :: 0 <= k < 4 ==> |f.accessors[k].values| == if k == 0 then |input| else |output|
  {
    GoFile("plugins", Header, [
      Accessor("InputPlugins", Literals(input)),
      Accessor("OutputPlugins", Literals(output)),
      Accessor("ProcessorPlugins", Literals(output)),
      Accessor("AggregatorPlugins", Literals(output))
    ])
  }

  /** What calling the accessor `funcName` of a generated file returns. */
  function Lookup(f: GoFile, funcName: string): Option<seq<Plugin>>
  {
    LookupIn(f.accessors, funcName)
  }

  function LookupIn(accessors: seq<Accessor>, funcName: string): Option<seq<Plugin>>
  {
    if accessors == [] then None
    else if accessors[0].funcName == funcName then Some(Loaded(accessors[0].values))
    else LookupIn(accessors[1..], funcName)
  }

  /** The generated catalog: inputs from `input`, and outputs, processors and
      aggregators all from `output`. */
  lemma GeneratedCatalog(input: seq<Plugin>, output: seq<Plugin>, processor: seq<Plugin>,
                         aggregator: seq<Plugin>)
    ensures Lookup(Generate(input, output, processor, aggregator), "InputPlugins") == Some(input)
    ensures Lookup(Generate(input, output, processor, aggregator), "OutputPlugins") == Some(output)
    ensures Lookup(Generate(input, output, processor, aggregator), "ProcessorPlugins") == Some(output)
    ensures Lookup(Generate(input, output, processor, aggregator), "AggregatorPlugins") == Some(output)
  {
    LoadLiterals(input);
    LoadLiterals(output);
    var acc := Generate(input, output, processor, aggregator).accessors;
    assert LookupIn(acc[3..], "AggregatorPlugins") == Some(output);
    assert acc[2..][1..] == acc[3..];
    assert LookupIn(acc[2..], "AggregatorPlugins") == Some(output);
    assert LookupIn(acc[2..], "ProcessorPlugins") == Some(output);
    assert acc[1..][1..] == acc[2..];
    assert LookupIn(acc[1..], "AggregatorPlugins") == Some(output);
    assert LookupIn(acc[1..], "ProcessorPlugins") == Some(output);
    assert LookupIn(acc[1..], "OutputPlugins") == Some(output);
  }

  /** Processor records survive generation only when they equal the output
      records; likewise for aggregators. */
  lemma ProcessorsSurviveIff(input: seq<Plugin>, output: seq<Plugin>, processor: seq<Plugin>,
                             aggregator: seq<Plugin>)
    ensures Lookup(Generate(input, output, processor, aggregator), "ProcessorPlugins") == Some(processor)
            <==> processor == output
    ensures Lookup(Generate(input, output, processor, aggregator), "AggregatorPlugins") == Some(aggregator)
            <==> aggregator == output
  {
    GeneratedCatalog(input, output, processor, aggregator);
  }

  // ---------------------------------------------------------------------
  // Backup, generation and rollback

  /** `UpdateFile`: rename the current file to the backup name (stop if that
      fails), then write the generated file. */
  function UpdateFileEffect(files: map<string, FileData>, readOnly: set<string>, gen: GoFile): Effect
  {
    var moved := RenameEffect(files, FileName, BackupName);
    if moved.outcome.Fail? then moved else WriteEffect(moved.files, readOnly, FileName, Source(gen))
  }

  /** The `--clean` run: remove the file, then rename the backup back. */
  function CleanEffect(files: map<string, FileData>): (e: Effect)
    ensures e.outcome.Pass? <==> FileName in files && BackupName in files
    ensures e.outcome.Pass? ==>
      e.files.Keys == files.Keys - {BackupName} && e.files[FileName] == files[BackupName]
    ensures e.outcome.Fail? ==> e.files == files || e.files == files - {FileName}
  {
    var removed := RemoveEffect(files, FileName);
    if removed.outcome.Fail? then removed else RenameEffect(removed.files, BackupName, FileName)
  }

  /** `ExtractPluginData`: acquire the tree, extract the four categories in
      order (the first error stops the run), then update the file. */
  function ExtractPluginDataEffect(files: map<string, FileData>, readOnly: set<string>, acquire: Outcome,
                                   walks: Category -> seq<WalkStep>, tree: map<string, seq<Node>>): Effect
    requires forall c :: WellFormedWalk(walks(c))
  {
    if acquire.Fail? then Effect(acquire, files)
    else
      var input := Extract(walks(Inputs), tree, ReadmeName, ReadmeRecord);
      if input.Err? then Effect(Fail(input.error), files)
      else
        var output := Extract(walks(Outputs), tree, ReadmeName, ReadmeRecord);
        if output.Err? then Effect(Fail(output.error), files)
        else
          var processor := Extract(walks(Processors), tree, ReadmeName, ReadmeRecord);
          if processor.Err? then Effect(Fail(processor.error), files)
          else
            var aggregator := Extract(walks(Aggregators), tree, ReadmeName, ReadmeRecord);
            if aggregator.Err? then Effect(Fail(aggregator.error), files)
            else UpdateFileEffect(files, readOnly, Generate(input.value, output.value, processor.value, aggregator.value))
  }

  /** `main`: the clean run or the generating run. */
  function RunEffect(files: map<string, FileData>, readOnly: set<string>, clean: bool, acquire: Outcome,
                     walks: Category -> seq<WalkStep>, tree: map<string, seq<Node>>): Effect
    requires forall c :: WellFormedWalk(walks(c))
  {
    if clean then CleanEffect(files) else ExtractPluginDataEffect(files, readOnly, acquire, walks, tree)
  }

  /** The backup is taken by renaming before anything is written: with no
      current file nothing changes; otherwise the old contents sit under the
      backup name whether or not the new file could be written. */
  lemma UpdateKeepsBackup(files: map<string, FileData>, readOnly: set<string>, gen: GoFile)
    ensures FileName !in files ==> UpdateFileEffect(files, readOnly, gen) == Effect(Fail(NotFound(FileName)), files)
    ensures FileName in files ==>
      var e := UpdateFileEffect(files, readOnly, gen);
      && BackupName in e.files && e.files[BackupName] == files[FileName]
      && (e.outcome.Pass? <==> FileName !in readOnly)
      && (e.outcome.Pass? ==> e.files == Renamed(files, FileName, BackupName)[FileName := Source(gen)])
      && (e.outcome.Fail? ==> e.files == Renamed(files, FileName, BackupName))
  {
    if FileName in files {
      assert FileName != BackupName;
    }
  }

  /** Round trip: a successful update followed by a clean run gives back the
      original files, except that no backup file is left. */
  lemma RollbackRestores(files: map<string, FileData>, readOnly: set<string>, gen: GoFile)
    requires FileName in files && FileName !in readOnly
    ensures UpdateFileEffect(files, readOnly, gen).outcome == Pass
    ensures CleanEffect(UpdateFileEffect(files, readOnly, gen).files) == Effect(Pass, files - {BackupName})
  {
    assert FileName != BackupName;
    var m1 := Renamed(files, FileName, BackupName);
    var m2 := m1[FileName := Source(gen)];
    assert UpdateFileEffect(files, readOnly, gen) == Effect(Pass, m2);
    var m3 := m2 - {FileName};
    assert m3 == m1 - {FileName};
    var m4 := Renamed(m3, BackupName, FileName);
    assert m4.Keys == (files - {BackupName}).Keys;
    forall n | n in m4
      ensures m4[n] == (files - {BackupName})[n]
    {
    }
  }

  /** A generating run that fails leaves the previous file in place, or, when
      only the write was refused, under the backup name. */
  lemma FailedRunKeepsArtifact(files: map<string, FileData>, readOnly: set<string>, acquire: Outcome,
                               walks: Category -> seq<WalkStep>, tree: map<string, seq<Node>>)
    requires forall c :: WellFormedWalk(walks(c))
    ensures var e := RunEffect(files, readOnly, false, acquire, walks, tree);
            e.outcome.Fail? ==>
              e.files == files ||
              (FileName in files && FileName in readOnly && e.files == Renamed(files, FileName, BackupName))
  {
  }

  /** A generating run that succeeds followed by a clean run restores the
      original file and leaves no backup. */
  lemma RunThenCleanRestores(files: map<string, FileData>, readOnly: set<string>, acquire: Outcome,
                             walks: Category -> seq<WalkStep>, tree: map<string, seq<Node>>)
    requires forall c :: WellFormedWalk(walks(c))
    requires RunEffect(files, readOnly, false, acquire, walks, tree).outcome.Pass?
    ensures FileName in files
    ensures RunEffect(RunEffect(files, readOnly, false, acquire, walks, tree).files, readOnly, true, acquire, walks, tree)
         == Effect(Pass, files - {BackupName})
  {
    var input := Extract(walks(Inputs), tree, ReadmeName, ReadmeRecord);
    var output := Extract(walks(Outputs), tree, ReadmeName, ReadmeRecord);
    var processor := Extract(walks(Processors), tree, ReadmeName, ReadmeRecord);
    var aggregator := Extract(walks(Aggregators), tree, ReadmeName, ReadmeRecord);
    var gen := Generate(input.value, output.value, processor.value, aggregator.value);
    assert RunEffect(files, readOnly, false, acquire, walks, tree) == UpdateFileEffect(files, readOnly, gen);
    UpdateKeepsBackup(files, readOnly, gen);
    RollbackRestores(files, readOnly, gen);
  }

  /** A clean run without a backup deletes the current file and then fails. */
  lemma CleanWithoutBackup(files: map<string, FileData>)
    requires FileName in files && BackupName !in files
    ensures CleanEffect(files) == Effect(Fail(NotFound(BackupName)), files - {FileName})
  {
  }

  // ---------------------------------------------------------------------
  // The tool's operations on the file system

  method UpdateFile(fs: FileSystem, input: seq<Plugin>, output: seq<Plugin>, processor: seq<Plugin>,
                    aggregator: seq<Plugin>) returns (r: Outcome)
    modifies fs
    ensures Effect(r, fs.files) == UpdateFileEffect(old(fs.files), fs.readOnly, Generate(input, output, processor, aggregator))
  {
    r := fs.Rename(FileName, BackupName);
    if r.Fail? {
      return;
    }
    var inputValues := FunctionContents(input);
    var outputValues := FunctionContents(output);
    var processorValues := FunctionContents(output);
    var aggregatorValues := FunctionContents(output);
    var f := GoFile("plugins", Header, [
      Accessor("InputPlugins", inputValues),
      Accessor("OutputPlugins", outputValues),
      Accessor("ProcessorPlugins", processorValues),
      Accessor("AggregatorPlugins", aggregatorValues)
    ]);
    r := fs.WriteFile(FileName, Source(f));
  }

  method ExtractPluginData(fs: FileSystem, acquire: Outcome, walks: Category -> seq<WalkStep>,
                           tree: map<string, seq<Node>>) returns (r: Outcome)
    requires forall c :: WellFormedWalk(walks(c))
    modifies fs
    ensures Effect(r, fs.files) == ExtractPluginDataEffect(old(fs.files), fs.readOnly, acquire, walks, tree)
  {
    if acquire.Fail? {
      return acquire;
    }
    var input := ExtractReadme(walks(Inputs), tree);
    if input.Err? {
      return Fail(input.error);
    }
    var output := ExtractReadme(walks(Outputs), tree);
    if output.Err? {
      return Fail(output.error);
    }
    var processor := ExtractReadme(walks(Processors), tree);
    if processor.Err? {
      return Fail(processor.error);
    }
    var aggregator := ExtractReadme(walks(Aggregators), tree);
    if aggregator.Err? {
      return Fail(aggregator.error);
    }
    r := UpdateFile(fs, input.value, output.value, processor.value, aggregator.value);
  }

  /** `main`; an error that `main` passes to `log.Panic` is the failed outcome. */
  method Run(fs: FileSystem, clean: bool, acquire: Outcome, walks: Category -> seq<WalkStep>,
             tree: map<string, seq<Node>>) returns (r: Outcome)
    requires forall c :: WellFormedWalk(walks(c))
    modifies fs
    ensures Effect(r, fs.files) == RunEffect(old(fs.files), fs.readOnly, clean, acquire, walks, tree)
  {
    if clean {
      r := fs.Remove(FileName);
      if r.Fail? {
        return;
      }
      r := fs.Rename(BackupName, FileName);
    } else {
      r := ExtractPluginData(fs, acquire, walks, tree);
    }
  }
}
