/** The sample-file synchroniser (tools/update_sampleconf): when the latest
    upstream release tag differs from the one recorded in
    `sampleconfigs/buildversion.txt`, it records the new tag, walks the four
    plugin category directories of an upstream checkout, turns each plugin's
    `sample.conf` into a record, and writes one catalog file per category.

    A `sample.conf` is given as the lines the line scanner yields; the release
    query and the clone are given as their results. */
module SampleConf {
  import opened Common
  import opened Text
  import opened Walk
  import opened Files

  const SampleName: string := "sample.conf"
  const MarkerPath: string := "sampleconfigs/buildversion.txt"

  /** `sampleconfigs/<category>.json`. */
  function CatalogPath(c: Category): string
  {
    "sampleconfigs/" + DirName(c) + ".json"
  }

  /** Each category has its own catalog file, and none is the marker file. */
  lemma CatalogPathsDistinct(c: Category, d: Category)
    ensures CatalogPath(c) != MarkerPath
    ensures c != d ==> CatalogPath(c) != CatalogPath(d)
  {
    assert CatalogPath(c)[14] == DirName(c)[0];
    assert CatalogPath(d)[14] == DirName(d)[0];
    assert MarkerPath[14] == 'b';
  }

  // ---------------------------------------------------------------------
  // One sample file

  /** The record of a sample file: the first line without one leading `#`
      (no trimming) is the description; every later line, each followed by a
      newline, is the sample configuration. */
  function SampleRecord(name: string, lines: seq<string>): (p: Plugin)
    ensures p.name == name
    ensures lines == [] ==> p.description == "" && p.sampleConfig == ""
    ensures lines != [] && "#" <= lines[0] ==> "#" + p.description == lines[0]
    ensures lines != [] && !("#" <= lines[0]) ==> p.description == lines[0]
    ensures |lines| <= 1 ==> p.sampleConfig == ""
  {
    if lines == [] then EmptyPlugin(name)
    else Plugin(name, TrimPrefix(lines[0], "#"), JoinLines(lines[1..]))
  }

  /** Reading a sample file that opened never fails. */
  function SampleResult(name: string, lines: seq<string>): Result<Plugin>
  {
    Ok(SampleRecord(name, lines))
  }

  /** The scanner loop of `extractSample`, with its `firstLine` flag. */
  method ParseSample(name: string, lines: seq<string>) returns (p: Plugin)
    ensures p == SampleRecord(name, lines)
  {
    p := EmptyPlugin(name);
    var buf := "";
    var firstLine := true;
    var i := 0;
    while i < |lines|
      invariant 0 <= i <= |lines|
      invariant firstLine <==> i == 0
      invariant i == 0 ==> p == EmptyPlugin(name) && buf == ""
      invariant i > 0 ==> p == Plugin(name, TrimPrefix(lines[0], "#"), "")
      invariant i > 0 ==> buf == JoinLines(lines[1..i])
    {
      var line := lines[i];
      i := i + 1;
      if firstLine {
        p := p.(description := TrimPrefix(line, "#"));
        firstLine := false;
        assert lines[1..i] == [];
        continue;
      }
      JoinLinesAppend(lines[1..i - 1], line);
      assert lines[1..i] == lines[1..i - 1] + [line];
      buf := buf + line + "\n";
    }
    assert i > 0 ==> lines[1..i] == lines[1..];
    p := p.(sampleConfig := buf);
  }

  /** Round trip: the lines after the first come back out of the sample
      configuration by splitting it at its newlines (the scanner's lines
      hold no newline). */
  lemma SampleConfigLines(name: string, lines: seq<string>)
    requires lines != []
    requires forall k :: 0 <= k < |lines| ==> '\n' !in lines[k]
    ensures Split(SampleRecord(name, lines).sampleConfig, '\n') == lines[1..] + [""]
  {
    SplitJoinLines(lines[1..]);
  }

  // ---------------------------------------------------------------------
  // The walk over one category

  /** `extractSample`: the records of one category, in walk order. */
  method ExtractSample(walk: seq<WalkStep>, tree: map<string, seq<string>>) returns (r: Result<seq<Plugin>>)
    requires WellFormedWalk(walk)
    ensures r == Extract(walk, tree, SampleName, SampleResult)
  {
    var allPlugins: seq<Plugin> := [];
    var i := 0;
    assert walk[i..] == walk;
    ExtendNothing(Extract(walk, tree, SampleName, SampleResult));
    while i < |walk|
      invariant 0 <= i <= |walk|
      invariant WellFormedWalk(walk[i..])
      invariant Extract(walk, tree, SampleName, SampleResult)
             == Extend(allPlugins, Extract(walk[i..], tree, SampleName, SampleResult))
    {
      assert walk[i..][1..] == walk[i + 1..];
      match walk[i] {
      case Failed(reason) =>
        return Err(WalkFailed(reason));
      case Visit(s) =>
        var name := ParentName(s);
        if name !in Exceptions && BaseName(s) == SampleName {
          if s !in tree {
            return Err(NotFound(s));
          }
          var p := ParseSample(name, tree[s]);
          ExtendExtend(allPlugins, p, Extract(walk[i + 1..], tree, SampleName, SampleResult));
          allPlugins := allPlugins + [p];
        }
      }
      i := i + 1;
    }
    assert walk[i..] == [];
    assert allPlugins + [] == allPlugins;
    r := Ok(allPlugins);
  }

  /** One record per selected `sample.conf`, in walk order, named after its
      plugin directory. */
  lemma SampleRecordsNamed(walk: seq<WalkStep>, tree: map<string, seq<string>>)
    requires WellFormedWalk(walk)
    ensures Extract(walk, tree, SampleName, SampleResult).Ok? ==>
      var ps := Extract(walk, tree, SampleName, SampleResult).value;
      var sel := SelectedPaths(walk, SampleName);
      |ps| == |sel| && forall k :: 0 <= k < |ps| ==> ps[k].name == ParentName(sel[k])
  {
    ExtractNames(walk, tree, SampleName, SampleResult);
  }

  // ---------------------------------------------------------------------
  // Category files and the version gate

  /** The records of category `c`. */
  function Records(c: Category, walks: Category -> seq<WalkStep>, tree: map<string, seq<string>>): Result<seq<Plugin>>
    requires WellFormedWalk(walks(c))
  {
    Extract(walks(c), tree, SampleName, SampleResult)
  }

  /** `updateFile`: extract one category and write its catalog file. */
  function CategoryEffect(files: map<string, FileData>, readOnly: set<string>, c: Category,
                          walks: Category -> seq<WalkStep>, tree: map<string, seq<string>>): Effect
    requires WellFormedWalk(walks(c))
  {
    match Records(c, walks, tree)
    case Err(e) => Effect(Fail(e), files)
    case Ok(ps) => WriteEffect(files, readOnly, CatalogPath(c), Catalog(ps))
  }

  /** The categories in order; the first failure stops the rest. */
  function WriteCategories(files: map<string, FileData>, readOnly: set<string>, cats: seq<Category>,
                           walks: Category -> seq<WalkStep>, tree: map<string, seq<string>>): Effect
    requires forall c :: WellFormedWalk(walks(c))
    decreases |cats|
  {
    if cats == [] then Effect(Pass, files)
    else
      var e := CategoryEffect(files, readOnly, cats[0], walks, tree);
      if e.outcome.Fail? then e else WriteCategories(e.files, readOnly, cats[1..], walks, tree)
  }

  /** The gate: the latest tag equals the recorded one, trimmed. */
  predicate MarkerMatches(marker: FileData, tag: string)
  {
    marker.Plain? && tag == TrimSpace(marker.text)
  }

  /** `UpdateSampleConfigs`. */
  function SyncEffect(files: map<string, FileData>, readOnly: set<string>, latest: Result<string>,
                      acquire: Outcome, walks: Category -> seq<WalkStep>, tree: map<string, seq<string>>): Effect
    requires forall c :: WellFormedWalk(walks(c))
  {
    if latest.Err? then Effect(Fail(latest.error), files)
    else if MarkerPath !in files then Effect(Fail(NotFound(MarkerPath)), files)
    else if MarkerMatches(files[MarkerPath], latest.value) then Effect(Pass, files)
    else
      var marked := WriteEffect(files, readOnly, MarkerPath, Plain(latest.value));
      if marked.outcome.Fail? then Effect(Pass, files)  // the write error is dropped
      else if acquire.Fail? then Effect(acquire, marked.files)
      else WriteCategories(marked.files, readOnly, Categories, walks, tree)
  }

  /** Writing category files changes nothing but those files. */
  lemma {:induction false} WriteCategoriesFrame(files: map<string, FileData>, readOnly: set<string>,
                                                cats: seq<Category>, walks: Category -> seq<WalkStep>,
                                                tree: map<string, seq<string>>, n: string)
    requires forall c :: WellFormedWalk(walks(c))
    requires forall k :: 0 <= k < |cats| ==> n != CatalogPath(cats[k])
    ensures var e := WriteCategories(files, readOnly, cats, walks, tree);
            (n in e.files <==> n in files) && (n in files ==> e.files[n] == files[n])
    decreases |cats|
  {
    if cats != [] {
      var e := CategoryEffect(files, readOnly, cats[0], walks, tree);
      WriteCategoriesFrame(e.files, readOnly, cats[1..], walks, tree, n);
    }
  }

  /** A category that can be extracted and whose file can be written. */
  predicate Succeeds(c: Category, readOnly: set<string>, walks: Category -> seq<WalkStep>,
                     tree: map<string, seq<string>>)
    requires WellFormedWalk(walks(c))
  {
    Records(c, walks, tree).Ok? && CatalogPath(c) !in readOnly
  }

  /** When the categories before `k` succeed and category `k` (if any) fails,
      the run fails exactly when `k` is a category; the files of the
      categories before `k` hold their records and the files of `k` and the
      categories after it are untouched. */
  lemma {:induction false} FirstFailureStops(files: map<string, FileData>, readOnly: set<string>,
                                             cats: seq<Category>, walks: Category -> seq<WalkStep>,
                                             tree: map<string, seq<string>>, k: nat)
    requires forall c :: WellFormedWalk(walks(c))
    requires forall i, j :: 0 <= i < j < |cats| ==> cats[i] != cats[j]
    requires k <= |cats|
    requires forall j :: 0 <= j < k ==> Succeeds(cats[j], readOnly, walks, tree)
    requires k < |cats| ==> !Succeeds(cats[k], readOnly, walks, tree)
    ensures var e := WriteCategories(files, readOnly, cats, walks, tree);
      && (e.outcome.Pass? <==> k == |cats|)
      && (forall j :: 0 <= j < k ==>
            Records(cats[j], walks, tree).Ok? && CatalogPath(cats[j]) in e.files &&
            e.files[CatalogPath(cats[j])] == Catalog(Records(cats[j], walks, tree).value))
      && (forall j :: k <= j < |cats| ==>
            (CatalogPath(cats[j]) in e.files <==> CatalogPath(cats[j]) in files) &&
            (CatalogPath(cats[j]) in files ==> e.files[CatalogPath(cats[j])] == files[CatalogPath(cats[j])]))
    decreases |cats|
  {
    if cats != [] {
      var c := cats[0];
      var e0 := CategoryEffect(files, readOnly, c, walks, tree);
      var e := WriteCategories(files, readOnly, cats, walks, tree);
      forall j | 0 < j < |cats|
        ensures CatalogPath(cats[j]) != CatalogPath(c)
      {
        CatalogPathsDistinct(cats[j], c);
      }
      if k == 0 {
        assert e == e0;
      } else {
        var rest := cats[1..];
        FirstFailureStops(e0.files, readOnly, rest, walks, tree, k - 1);
        assert e == WriteCategories(e0.files, readOnly, rest, walks, tree);
        forall i | 0 <= i < |rest|
          ensures CatalogPath(c) != CatalogPath(rest[i])
        {
          assert rest[i] == cats[i + 1];
        }
        WriteCategoriesFrame(e0.files, readOnly, rest, walks, tree, CatalogPath(c));
        forall j | 0 < j < |cats|
          ensures cats[j] == rest[j - 1]
        {
        }
      }
    }
  }

  /** The four categories are distinct. */
  lemma CategoriesDistinct()
    ensures forall i, j :: 0 <= i < j < |Categories| ==> Categories[i] != Categories[j]
  {
  }

  /** The early exits of the gate: a failed release query or an unreadable
      marker is an error, an unchanged tag or a refused marker write a success,
      and none of them changes a file. */
  lemma GateExits(files: map<string, FileData>, readOnly: set<string>, latest: Result<string>,
                  acquire: Outcome, walks: Category -> seq<WalkStep>, tree: map<string, seq<string>>)
    requires forall c :: WellFormedWalk(walks(c))
    ensures latest.Err? ==>
      SyncEffect(files, readOnly, latest, acquire, walks, tree) == Effect(Fail(latest.error), files)
    ensures latest.Ok? && MarkerPath !in files ==>
      SyncEffect(files, readOnly, latest, acquire, walks, tree) == Effect(Fail(NotFound(MarkerPath)), files)
    ensures latest.Ok? && MarkerPath in files && MarkerMatches(files[MarkerPath], latest.value) ==>
      SyncEffect(files, readOnly, latest, acquire, walks, tree) == Effect(Pass, files)
    ensures latest.Ok? && MarkerPath in files && MarkerPath in readOnly ==>
      SyncEffect(files, readOnly, latest, acquire, walks, tree) == Effect(Pass, files)
  {
  }

  /** The marker is rewritten before the checkout or any category: once the
      gate opens and the write succeeds, the new tag is recorded whether or
      not the rest of the run succeeds. */
  lemma MarkerWrittenFirst(files: map<string, FileData>, readOnly: set<string>, tag: string,
                           acquire: Outcome, walks: Category -> seq<WalkStep>, tree: map<string, seq<string>>)
    requires forall c :: WellFormedWalk(walks(c))
    requires MarkerPath in files && !MarkerMatches(files[MarkerPath], tag) && MarkerPath !in readOnly
    ensures var e := SyncEffect(files, readOnly, Ok(tag), acquire, walks, tree);
            MarkerPath in e.files && e.files[MarkerPath] == Plain(tag)
  {
    var marked := files[MarkerPath := Plain(tag)];
    if acquire.Pass? {
      forall k | 0 <= k < |Categories|
        ensures MarkerPath != CatalogPath(Categories[k])
      {
        CatalogPathsDistinct(Categories[k], Categories[k]);
      }
      WriteCategoriesFrame(marked, readOnly, Categories, walks, tree, MarkerPath);
    }
  }

  /** A run that gets past the gate and succeeds has written all four
      catalog files with the records of their categories. */
  lemma SyncWritesAll(files: map<string, FileData>, readOnly: set<string>, tag: string,
                      acquire: Outcome, walks: Category -> seq<WalkStep>, tree: map<string, seq<string>>)
    requires forall c :: WellFormedWalk(walks(c))
    requires MarkerPath in files && !MarkerMatches(files[MarkerPath], tag) && MarkerPath !in readOnly
    requires acquire.Pass?
    requires forall c :: Succeeds(c, readOnly, walks, tree)
    ensures var e := SyncEffect(files, readOnly, Ok(tag), acquire, walks, tree);
      && e.outcome == Pass
      && forall c :: Records(c, walks, tree).Ok? && CatalogPath(c) in e.files &&
                     e.files[CatalogPath(c)] == Catalog(Records(c, walks, tree).value)
  {
    var marked := files[MarkerPath := Plain(tag)];
    CategoriesDistinct();
    FirstFailureStops(marked, readOnly, Categories, walks, tree, 4);
    var e := SyncEffect(files, readOnly, Ok(tag), acquire, walks, tree);
    forall c
      ensures Records(c, walks, tree).Ok? && CatalogPath(c) in e.files && e.files[CatalogPath(c)] == Catalog(Records(c, walks, tree).value)
    {
      assert c == Categories[match c case Inputs => 0 case Outputs => 1 case Processors => 2 case Aggregators => 3];
    }
  }

  /** After a run with a trimmed tag the marker exists exactly when it did
      before, and then either it holds a text matching the tag or writing it
      is refused: the gate stays shut for that tag. */
  lemma GateClosedAfterRun(files: map<string, FileData>, readOnly: set<string>, tag: string,
                           acquire: Outcome, walks: Category -> seq<WalkStep>, tree: map<string, seq<string>>)
    requires forall c :: WellFormedWalk(walks(c))
    requires TrimSpace(tag) == tag
    ensures var m := SyncEffect(files, readOnly, Ok(tag), acquire, walks, tree).files;
            (MarkerPath in m <==> MarkerPath in files) &&
            (MarkerPath in m ==> MarkerMatches(m[MarkerPath], tag) || MarkerPath in readOnly)
  {
    var m := SyncEffect(files, readOnly, Ok(tag), acquire, walks, tree).files;
    GateExits(files, readOnly, Ok(tag), acquire, walks, tree);
    if MarkerPath in files && !MarkerMatches(files[MarkerPath], tag) && MarkerPath !in readOnly {
      MarkerWrittenFirst(files, readOnly, tag, acquire, walks, tree);
      assert m[MarkerPath] == Plain(tag);
    }
  }

  /** Idempotence: right after a run, a second run with the same tag (one
      without surrounding white space) changes no file, whatever its checkout
      and upstream tree, and whether or not the first run succeeded; when
      the marker file exists, the second run also succeeds. */
  lemma SecondRunDoesNothing(files: map<string, FileData>, readOnly: set<string>, tag: string,
                             acquire: Outcome, walks: Category -> seq<WalkStep>, tree: map<string, seq<string>>,
                             acquire2: Outcome, walks2: Category -> seq<WalkStep>, tree2: map<string, seq<string>>)
    requires forall c :: WellFormedWalk(walks(c))
    requires forall c :: WellFormedWalk(walks2(c))
    requires TrimSpace(tag) == tag
    ensures var first := SyncEffect(files, readOnly, Ok(tag), acquire, walks, tree);
            SyncEffect(first.files, readOnly, Ok(tag), acquire2, walks2, tree2).files == first.files
    ensures MarkerPath in files ==>
            var first := SyncEffect(files, readOnly, Ok(tag), acquire, walks, tree);
            SyncEffect(first.files, readOnly, Ok(tag), acquire2, walks2, tree2) == Effect(Pass, first.files)
  {
    var first := SyncEffect(files, readOnly, Ok(tag), acquire, walks, tree);
    GateClosedAfterRun(files, readOnly, tag, acquire, walks, tree);
    GateExits(first.files, readOnly, Ok(tag), acquire2, walks2, tree2);
  }

  /** A tag with white space at either end matches no marker, since the
      marker is trimmed before the comparison. */
  lemma UntrimmedTagNeverMatches(marker: FileData, tag: string)
    requires TrimSpace(tag) != tag
    ensures !MarkerMatches(marker, tag)
  {
    if marker.Plain? && tag == TrimSpace(marker.text) {
      TrimSpaceIdempotent(marker.text);
    }
  }

  /** A tag with white space at either end is written to the marker as it
      is, so the marker never settles: after a run that could write it, the
      next run's gate opens again and the whole synchronisation repeats. */
  lemma UntrimmedTagResyncs(files: map<string, FileData>, readOnly: set<string>, tag: string,
                            acquire: Outcome, walks: Category -> seq<WalkStep>, tree: map<string, seq<string>>)
    requires forall c :: WellFormedWalk(walks(c))
    requires MarkerPath in files && MarkerPath !in readOnly
    requires TrimSpace(tag) != tag
    ensures var first := SyncEffect(files, readOnly, Ok(tag), acquire, walks, tree);
            && MarkerPath in first.files
            && first.files[MarkerPath] == Plain(tag)
            && !MarkerMatches(first.files[MarkerPath], tag)
  {
    UntrimmedTagNeverMatches(files[MarkerPath], tag);
    MarkerWrittenFirst(files, readOnly, tag, acquire, walks, tree);
    UntrimmedTagNeverMatches(Plain(tag), tag);
  }

  // ---------------------------------------------------------------------
  // The tool's operations on the file system

  method UpdateFile(fs: FileSystem, c: Category, walks: Category -> seq<WalkStep>,
                    tree: map<string, seq<string>>) returns (r: Outcome)
    requires WellFormedWalk(walks(c))
    modifies fs
    ensures Effect(r, fs.files) == CategoryEffect(old(fs.files), fs.readOnly, c, walks, tree)
  {
    var allPlugins := ExtractSample(walks(c), tree);
    if allPlugins.Err? {
      return Fail(allPlugins.error);
    }
    r := fs.WriteFile(CatalogPath(c), Catalog(allPlugins.value));
  }

  method UpdateSampleConfigs(fs: FileSystem, latest: Result<string>, acquire: Outcome,
                             walks: Category -> seq<WalkStep>, tree: map<string, seq<string>>) returns (r: Outcome)
    requires forall c :: WellFormedWalk(walks(c))
    modifies fs
    ensures Effect(r, fs.files) == SyncEffect(old(fs.files), fs.readOnly, latest, acquire, walks, tree)
  {
    if latest.Err? {
      return Fail(latest.error);
    }
    var latestVersion := latest.value;
    var currentVersion := fs.ReadFile(MarkerPath);
    if currentVersion.Err? {
      return Fail(currentVersion.error);
    }
    if MarkerMatches(currentVersion.value, latestVersion) {
      return Pass;
    }
    var written := fs.WriteFile(MarkerPath, Plain(latestVersion));
    if written.Fail? {
      return Pass;
    }
    if acquire.Fail? {
      return acquire;
    }
    ghost var rest := Categories;
    assert SyncEffect(old(fs.files), fs.readOnly, latest, acquire, walks, tree)
        == WriteCategories(fs.files, fs.readOnly, rest, walks, tree);
    r := UpdateFile(fs, Inputs, walks, tree);
    if r.Fail? {
      return;
    }
    rest := rest[1..];
    assert rest == [Outputs, Processors, Aggregators];
    r := UpdateFile(fs, Outputs, walks, tree);
    if r.Fail? {
      return;
    }
    rest := rest[1..];
    assert rest == [Processors, Aggregators];
    r := UpdateFile(fs, Processors, walks, tree);
    if r.Fail? {
      return;
    }
    rest := rest[1..];
    assert rest == [Aggregators];
    r := UpdateFile(fs, Aggregators, walks, tree);
    assert rest[1..] == [];
  }
}
