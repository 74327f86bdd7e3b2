/** The directory walk both extractors run (`filepath.WalkDir` over one
    category directory) and the record list it produces. The walk itself is
    an input: the entries in the order WalkDir visits them, each a path or an
    error handed to the callback. The two tools differ only in the file name
    they look for and in how they turn that file into a record (`parse`). */
module Walk {
  import opened Common
  import opened Text

  datatype WalkStep = Visit(path: string) | Failed(reason: string)

  /** Plugin directories whose entries are skipped. */
  const Exceptions: seq<string> := ["jolokia2"]

  /** Every visited path has a directory part, so `parts[len(parts)-2]` exists.
      A walk rooted at `telegraf/plugins/<category>` always satisfies this. */
  predicate WellFormedWalk(walk: seq<WalkStep>)
  {
    forall st :: st in walk && st.Visit? ==> '/' in st.path
  }

  /** `parts[len(parts)-2]` for `parts := strings.Split(path, "/")`. */
  function ParentName(path: string): (name: string)
    requires '/' in path
    ensures '/' !in name
  {
    var parts := Split(path, '/');
    parts[|parts| - 2]
  }

  /** The last path element, which is what `d.Name()` reports for a walked
      entry (WalkDir joins clean paths, so there is no trailing slash). */
  function BaseName(path: string): (name: string)
    ensures '/' !in name
  {
    var parts := Split(path, '/');
    parts[|parts| - 1]
  }

  /** A path built from slash-free elements names its last element as the
      base name and the element before it as the plugin name. */
  lemma PathNames(parts: seq<string>)
    requires |parts| >= 2
    requires forall k :: 0 <= k < |parts| ==> '/' !in parts[k]
    ensures '/' in Join(parts, '/')
    ensures ParentName(Join(parts, '/')) == parts[|parts| - 2]
    ensures BaseName(Join(parts, '/')) == parts[|parts| - 1]
  {
    JoinSplit(parts, '/');
    SplitParent(Join(parts, '/'), parts);
    SplitBase(Join(parts, '/'), parts);
  }

  /** The plugin name of a path read off its parts. */
  lemma SplitParent(path: string, parts: seq<string>)
    requires Split(path, '/') == parts && |parts| >= 2
    ensures '/' in path && ParentName(path) == parts[|parts| - 2]
  {
    assert '/' in path;
  }

  /** The base name of a path read off its parts. */
  lemma SplitBase(path: string, parts: seq<string>)
    requires Split(path, '/') == parts
    ensures BaseName(path) == parts[|parts| - 1]
  {
  }

  /** The callback's filter: not an excepted plugin, and the wanted file. */
  predicate Selects(path: string, docName: string)
    requires '/' in path
  {
    ParentName(path) !in Exceptions && BaseName(path) == docName
  }

  /** The paths that yield a record, in walk order. */
  function SelectedPaths(walk: seq<WalkStep>, docName: string): (sel: seq<string>)
    requires WellFormedWalk(walk)
    ensures |sel| <= |walk|
    ensures forall k :: 0 <= k < |sel| ==> '/' in sel[k] && Selects(sel[k], docName)
  {
    if walk == [] then []
    else
      var rest := SelectedPaths(walk[1..], docName);
      match walk[0]
      case Failed(_) => rest
      case Visit(p) => if Selects(p, docName) then [p] + rest else rest
  }

  /** A path is selected exactly when the walk visits it and the filter
      accepts it. */
  lemma {:induction false} SelectedIff(walk: seq<WalkStep>, docName: string)
    requires WellFormedWalk(walk)
    ensures forall p :: p in SelectedPaths(walk, docName) <==>
                          Visit(p) in walk && '/' in p && Selects(p, docName)
  {
    if walk != [] {
      SelectedIff(walk[1..], docName);
      assert walk == [walk[0]] + walk[1..];
    }
  }

  /** Prepends what was collected so far to the outcome of the rest of the walk. */
  function Extend(acc: seq<Plugin>, r: Result<seq<Plugin>>): Result<seq<Plugin>>
  {
    match r
    case Ok(rest) => Ok(acc + rest)
    case Err(e) => Err(e)
  }

  lemma ExtendNothing(r: Result<seq<Plugin>>)
    ensures Extend([], r) == r
  {
    if r.Ok? {
      assert [] + r.value == r.value;
    }
  }

  lemma ExtendExtend(acc: seq<Plugin>, p: Plugin, r: Result<seq<Plugin>>)
    ensures Extend(acc, Extend([p], r)) == Extend(acc + [p], r)
  {
    if r.Ok? {
      assert acc + ([p] + r.value) == (acc + [p]) + r.value;
    }
  }

  /** The record list of a category: one record per selected entry, in walk
      order; the first walk error, missing file or parse error aborts. */
  function Extract<D>(walk: seq<WalkStep>, files: map<string, D>, docName: string,
                      parse: (string, D) -> Result<Plugin>): Result<seq<Plugin>>
    requires WellFormedWalk(walk)
  {
    if walk == [] then Ok([])
    else
      match walk[0]
      case Failed(reason) => Err(WalkFailed(reason))
      case Visit(p) =>
        if !Selects(p, docName) then Extract(walk[1..], files, docName, parse)
        else if p !in files then Err(NotFound(p))
        else
          match parse(ParentName(p), files[p])
          case Err(e) => Err(e)
          case Ok(rec) => Extend([rec], Extract(walk[1..], files, docName, parse))
  }

  /** A walk entry that stops the extraction when it is reached. */
  predicate StepFails<D>(st: WalkStep, files: map<string, D>, docName: string,
                         parse: (string, D) -> Result<Plugin>)
  {
    match st
    case Failed(_) => true
    case Visit(p) =>
      '/' in p && Selects(p, docName) && (p !in files || parse(ParentName(p), files[p]).Err?)
  }

  /** The error a failing entry stops the extraction with. */
  function StepError<D>(st: WalkStep, files: map<string, D>, docName: string,
                        parse: (string, D) -> Result<Plugin>): Error
    requires StepFails(st, files, docName, parse)
  {
    match st
    case Failed(reason) => WalkFailed(reason)
    case Visit(p) => if p !in files then NotFound(p) else parse(ParentName(p), files[p]).error
  }

  /** The extraction fails exactly when some entry fails, and then with the
      error of the first failing entry: no partial list is returned. */
  lemma {:induction false} ExtractFails<D>(walk: seq<WalkStep>, files: map<string, D>, docName: string,
                                           parse: (string, D) -> Result<Plugin>)
    requires WellFormedWalk(walk)
    ensures Extract(walk, files, docName, parse).Err? <==>
            exists i :: 0 <= i < |walk| && StepFails(walk[i], files, docName, parse)
    ensures forall i :: 0 <= i < |walk| && StepFails(walk[i], files, docName, parse) &&
                        (forall j :: 0 <= j < i ==> !StepFails(walk[j], files, docName, parse)) ==>
              Extract(walk, files, docName, parse) == Err(StepError(walk[i], files, docName, parse))
  {
    if walk != [] {
      var tail := walk[1..];
      ExtractFails(tail, files, docName, parse);
      forall i | 1 <= i < |walk|
        ensures walk[i] == tail[i - 1]
      {
      }
      if !StepFails(walk[0], files, docName, parse) {
        if (exists i :: 0 <= i < |tail| && StepFails(tail[i], files, docName, parse)) {
          var i :| 0 <= i < |tail| && StepFails(tail[i], files, docName, parse);
          assert StepFails(walk[i + 1], files, docName, parse);
        }
        forall i | 0 <= i < |walk| && StepFails(walk[i], files, docName, parse) &&
                   (forall j :: 0 <= j < i ==> !StepFails(walk[j], files, docName, parse))
          ensures Extract(walk, files, docName, parse) == Err(StepError(walk[i], files, docName, parse))
        {
          assert i >= 1;
          assert forall j :: 0 <= j < i - 1 ==> !StepFails(tail[j], files, docName, parse) by {
            forall j | 0 <= j < i - 1 ensures !StepFails(tail[j], files, docName, parse) {
              assert tail[j] == walk[j + 1];
            }
          }
        }
      }
    }
  }

  /** On success there is one record per selected entry, in walk order, each
      the parse of that entry's file: the list is never reordered. */
  lemma {:induction false} ExtractRecords<D>(walk: seq<WalkStep>, files: map<string, D>, docName: string,
                                             parse: (string, D) -> Result<Plugin>)
    requires WellFormedWalk(walk)
    ensures Extract(walk, files, docName, parse).Ok? ==>
      var ps := Extract(walk, files, docName, parse).value;
      var sel := SelectedPaths(walk, docName);
      |ps| == |sel| &&
      forall k :: 0 <= k < |ps| ==> sel[k] in files && parse(ParentName(sel[k]), files[sel[k]]) == Ok(ps[k])
  {
    if walk != [] {
      ExtractRecords(walk[1..], files, docName, parse);
    }
  }

  /** When the parser names every record after the plugin directory, so does
      the extraction: the k-th record is named after the k-th selected path. */
  lemma ExtractNames<D>(walk: seq<WalkStep>, files: map<string, D>, docName: string,
                        parse: (string, D) -> Result<Plugin>)
    requires WellFormedWalk(walk)
    requires forall n, d :: parse(n, d).Ok? ==> parse(n, d).value.name == n
    ensures Extract(walk, files, docName, parse).Ok? ==>
      var ps := Extract(walk, files, docName, parse).value;
      var sel := SelectedPaths(walk, docName);
      |ps| == |sel| && forall k :: 0 <= k < |ps| ==> ps[k].name == ParentName(sel[k])
  {
    ExtractRecords(walk, files, docName, parse);
  }
}
