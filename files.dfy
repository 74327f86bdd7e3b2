/** The part of the local file system the two tools touch: a map from file
    name to contents, plus the names whose writes the system refuses. The
    pure `...Effect` functions say what each call (`os.WriteFile`,
    `os.Rename`, `os.Remove`) does; the class performs them in place. */
module Files {
  import opened Common

  /** File contents. The tools only ever write a version tag, a record list
      (the JSON catalog of one category) or a generated Go file, so those
      are kept as values rather than rendered to bytes. */
  datatype FileData = Plain(text: string) | Catalog(records: seq<Plugin>) | Source(file: GoFile)

  /** The outcome of an operation together with the files afterwards. */
  datatype Effect = Effect(outcome: Outcome, files: map<string, FileData>)

  /** The files after `from` is renamed to `to` (an existing `to` is replaced). */
  function Renamed(m: map<string, FileData>, from: string, to: string): (r: map<string, FileData>)
    requires from in m
    ensures r.Keys == m.Keys - {from} + {to}
    ensures r[to] == m[from]
    ensures forall n :: n in m && n != from && n != to ==> r[n] == m[n]
  {
    (m - {from})[to := m[from]]
  }

  /** `os.WriteFile`: creates or truncates `name`, unless writing it is refused. */
  function WriteEffect(files: map<string, FileData>, readOnly: set<string>, name: string,
                       data: FileData): Effect
  {
    if name in readOnly then Effect(Fail(PermissionDenied(name)), files)
    else Effect(Pass, files[name := data])
  }

  /** `os.Rename`: fails when `from` does not exist. */
  function RenameEffect(files: map<string, FileData>, from: string, to: string): Effect
  {
    if from !in files then Effect(Fail(NotFound(from)), files)
    else Effect(Pass, Renamed(files, from, to))
  }

  /** `os.Remove`: fails when `name` does not exist. */
  function RemoveEffect(files: map<string, FileData>, name: string): Effect
  {
    if name !in files then Effect(Fail(NotFound(name)), files)
    else Effect(Pass, files - {name})
  }

  class FileSystem {
    var files: map<string, FileData>
    const readOnly: set<string>

    constructor (initial: map<string, FileData>, refused: set<string>)
      ensures files == initial && readOnly == refused
    {
      files := initial;
      readOnly := refused;
    }

    /** `os.ReadFile`. */
    method ReadFile(name: string) returns (r: Result<FileData>)
      ensures name in files ==> r == Ok(files[name])
      ensures name !in files ==> r == Err(NotFound(name))
    {
      if name in files {
        r := Ok(files[name]);
      } else {
        r := Err(NotFound(name));
      }
    }

    method WriteFile(name: string, data: FileData) returns (r: Outcome)
      modifies this
      ensures Effect(r, files) == WriteEffect(old(files), readOnly, name, data)
    {
      if name in readOnly {
        r := Fail(PermissionDenied(name));
      } else {
        files := files[name := data];
        r := Pass;
      }
    }

    method Rename(from: string, to: string) returns (r: Outcome)
      modifies this
      ensures Effect(r, files) == RenameEffect(old(files), from, to)
    {
      if from !in files {
        r := Fail(NotFound(from));
      } else {
        files := Renamed(files, from, to);
        r := Pass;
      }
    }

    method Remove(name: string) returns (r: Outcome)
      modifies this
      ensures Effect(r, files) == RemoveEffect(old(files), name)
    {
      if name !in files {
        r := Fail(NotFound(name));
      } else {
        files := files - {name};
        r := Pass;
      }
    }
  }
}
