/** Examples proved about the model on concrete inputs: a README and a
    sample file of each format, the exception list, and the README scan
    continuing past the first qualifying block. */
module Scenarios {
  import opened Common
  import opened Text
  import opened Walk
  import PluginData
  import SampleConf

  lemma TrimOneLeading(c: char, t: string)
    requires IsSpace(c) && t != [] && !IsSpace(t[0])
    ensures TrimLeft([c] + t) == t
  {
    assert ([c] + t)[1..] == t;
  }

  lemma TrimOneTrailing(t: string, c: char)
    requires IsSpace(c) && t != [] && !IsSpace(t[|t| - 1])
    ensures TrimRight(t + [c]) == t
  {
    assert (t + [c])[..|t|] == t;
  }

  /** The description of a README example line: one `#` and the surrounding
      white space, including the line's own newline, are removed. */
  lemma ReadmeDescription()
    ensures TrimSpace(TrimPrefix("# My Plugin Does X\n", "#")) == "My Plugin Does X"
  {
    var t := "My Plugin Does X";
    assert "# My Plugin Does X\n" == "#" + ([' '] + (t + ['\n']));
    TrimOneLeading(' ', t + ['\n']);
    TrimOneTrailing(t, '\n');
  }

  /** A README whose Configuration section holds one `toml` block gives
      that block's record. */
  lemma SingleBlock(name: string, lines: seq<string>)
    requires |lines| > 0
    ensures PluginData.ReadmeRecord(name, [PluginData.Heading(Some("Configuration")),
              PluginData.FencedCode("toml", lines)]) == Ok(PluginData.BlockRecord(name, lines))
  {
    var nodes := [PluginData.Heading(Some("Configuration")), PluginData.FencedCode("toml", lines)];
    assert PluginData.SectionAt(nodes, 1) == "Configuration";
    assert PluginData.Qualifies(nodes, 1);
    assert !PluginData.Qualifies(nodes, 0);
    assert !PluginData.PanicsBefore(nodes, 2);
    PluginData.LastBlockWins(name, nodes, 1);
  }

  lemma TwoLineBlock(name: string, a: string, b: string)
    ensures PluginData.BlockRecord(name, [a, b]) == Plugin(name, TrimSpace(TrimPrefix(a, "#")), a + b)
  {
    assert [a, b][1..] == [b];
    assert Concat([b]) == b + Concat([]);
  }

  /** A Configuration section holding `# My Plugin Does X` and a field line:
      the trimmed first line is the description, both lines the sample. */
  lemma ReadmeExample()
    ensures PluginData.ReadmeRecord("x", [PluginData.Heading(Some("Configuration")),
              PluginData.FencedCode("toml", ["# My Plugin Does X\n", "field = \"value\"\n"])])
         == Ok(Plugin("x", "My Plugin Does X", "# My Plugin Does X\n" + "field = \"value\"\n"))
  {
    SingleBlock("x", ["# My Plugin Does X\n", "field = \"value\"\n"]);
    TwoLineBlock("x", "# My Plugin Does X\n", "field = \"value\"\n");
    ReadmeDescription();
  }

  /** Two `toml` blocks in the Configuration section: the second one gives
      the record, because the scan does not stop at the first. */
  lemma SecondBlockWins(name: string, first: seq<string>, second: seq<string>)
    requires |first| > 0 && |second| > 0
    ensures PluginData.ReadmeRecord(name, [PluginData.Heading(Some("Configuration")),
              PluginData.FencedCode("toml", first), PluginData.FencedCode("toml", second)])
         == Ok(PluginData.BlockRecord(name, second))
  {
    var nodes := [PluginData.Heading(Some("Configuration")), PluginData.FencedCode("toml", first)];
    assert PluginData.SectionAt(nodes, 1) == "Configuration";
    assert PluginData.SectionAt(nodes, 2) == "Configuration";
    assert PluginData.Qualifies(nodes, 1);
    assert !PluginData.Qualifies(nodes, 0);
    assert !PluginData.PanicsBefore(nodes, 2);
    PluginData.LaterBlockOverrides(name, nodes, second);
    assert nodes + [PluginData.FencedCode("toml", second)]
        == [PluginData.Heading(Some("Configuration")), PluginData.FencedCode("toml", first),
            PluginData.FencedCode("toml", second)];
  }

  lemma ThreeLineSample(name: string, a: string, b: string, c: string)
    ensures SampleConf.SampleRecord(name, [a, b, c]) == Plugin(name, TrimPrefix(a, "#"), b + "\n" + c + "\n")
  {
    assert [a, b, c][1..] == [b, c];
    assert [b, c][1..] == [c];
    assert [c][1..] == [];
    assert JoinLines([c]) == c + "\n";
    assert JoinLines([b, c]) == b + "\n" + (c + "\n");
  }

  /** A plain sample file: the description keeps the space after `#`,
      and each later line is followed by a newline. */
  lemma SampleExample()
    ensures SampleConf.SampleRecord("x", ["# collects X metrics", "[[inputs.x]]", "  interval = \"10s\""])
         == Plugin("x", " collects X metrics", "[[inputs.x]]" + "\n" + "  interval = \"10s\"" + "\n")
  {
    ThreeLineSample("x", "# collects X metrics", "[[inputs.x]]", "  interval = \"10s\"");
    assert "# collects X metrics" == "#" + " collects X metrics";
  }

  /** The path of file `doc` of plugin `plugin` in category directory `dir`. */
  function PluginPath(dir: string, plugin: string, doc: string): string
  {
    Join([dir, plugin, doc], '/')
  }

  /** A category walk passing the excepted plugin between two others: the
      excepted one is skipped and the other two give records, in walk order,
      each named after its directory. */
  lemma ExceptedPluginSkipped(dir: string, a: string, b: string, files: map<string, seq<string>>)
    requires '/' !in dir && '/' !in a && '/' !in b
    requires a !in Exceptions && b !in Exceptions
    requires PluginPath(dir, a, SampleConf.SampleName) in files
    requires PluginPath(dir, b, SampleConf.SampleName) in files
    ensures var walk := [Visit(PluginPath(dir, a, SampleConf.SampleName)),
                         Visit(PluginPath(dir, "jolokia2", SampleConf.SampleName)),
                         Visit(PluginPath(dir, b, SampleConf.SampleName))];
      WellFormedWalk(walk) &&
      Extract(walk, files, SampleConf.SampleName, SampleConf.SampleResult)
        == Ok([SampleConf.SampleRecord(a, files[PluginPath(dir, a, SampleConf.SampleName)]),
               SampleConf.SampleRecord(b, files[PluginPath(dir, b, SampleConf.SampleName)])])
  {
    var doc := SampleConf.SampleName;
    assert '/' !in doc && '/' !in Exceptions[0];
    PathNames([dir, a, doc]);
    PathNames([dir, Exceptions[0], doc]);
    PathNames([dir, b, doc]);
    var pa, pj, pb := PluginPath(dir, a, doc), PluginPath(dir, "jolokia2", doc), PluginPath(dir, b, doc);
    var walk := [Visit(pa), Visit(pj), Visit(pb)];
    assert WellFormedWalk(walk);
    assert walk[1..] == [Visit(pj), Visit(pb)];
    assert walk[1..][1..] == [Visit(pb)];
    assert walk[1..][1..][1..] == [];
    assert Selects(pa, doc) && !Selects(pj, doc) && Selects(pb, doc);
    var last := Extract(walk[1..][1..], files, doc, SampleConf.SampleResult);
    assert Extract(walk[1..][1..][1..], files, doc, SampleConf.SampleResult) == Ok([]);
    assert [SampleConf.SampleRecord(b, files[pb])] + [] == [SampleConf.SampleRecord(b, files[pb])];
    assert last == Ok([SampleConf.SampleRecord(b, files[pb])]);
    assert Extract(walk[1..], files, doc, SampleConf.SampleResult) == last;
    var ra, rb := SampleConf.SampleRecord(a, files[pa]), SampleConf.SampleRecord(b, files[pb]);
    assert SampleConf.SampleResult(ParentName(pa), files[pa]) == Ok(ra);
    assert [ra] + [rb] == [ra, rb];
  }

  /** Only entries directly inside an excepted directory are skipped: a
      README one level further down is still picked up, under the name of
      its own parent directory. */
  lemma NestedUnderExceptedDirectory()
    ensures '/' in Join(["inputs", "jolokia2", "examples", "README.md"], '/')
    ensures Selects(Join(["inputs", "jolokia2", "examples", "README.md"], '/'), PluginData.ReadmeName)
    ensures ParentName(Join(["inputs", "jolokia2", "examples", "README.md"], '/')) == "examples"
  {
    PathNames(["inputs", "jolokia2", "examples", "README.md"]);
  }
}
