/** Values shared by the two catalog generators: the plugin record, the
    error and outcome types, the four plugin categories, and the shape of the
    Go source file that the README generator emits. */
module Common {

  /** One catalog entry (the `Plugin` struct of the `plugins` package). */
  datatype Plugin = Plugin(name: string, description: string, sampleConfig: string)

  /** The record an extractor starts from before it has read anything. */
  function EmptyPlugin(name: string): Plugin
  {
    Plugin(name, "", "")
  }

  /** Everything that can stop a run. A Go panic that the tools provoke on
      malformed input is listed too, since it ends the run just like an
      error that is passed up to `log.Panic`. */
  datatype Error =
    | WalkFailed(reason: string)      // error handed to the WalkDir callback
    | NotFound(path: string)          // open, read, rename or remove of a missing file
    | PermissionDenied(path: string)  // write refused by the file system
    | EmptyFence(plugin: string)      // `Lines().At(0)` on a qualifying block with no lines
    | Upstream(reason: string)        // release query or clone failed

  datatype Result<T> = Ok(value: T) | Err(error: Error)

  datatype Outcome = Pass | Fail(error: Error)

  datatype Option<T> = None | Some(value: T)

  /** The four plugin categories, each a directory under `plugins/` upstream. */
  datatype Category = Inputs | Outputs | Processors | Aggregators

  function DirName(c: Category): string
  {
    match c
    case Inputs => "inputs"
    case Outputs => "outputs"
    case Processors => "processors"
    case Aggregators => "aggregators"
  }

  /** The order in which both tools visit the categories. */
  const Categories: seq<Category> := [Inputs, Outputs, Processors, Aggregators]

  /** One key of a Go composite literal, `Id(key): Lit(value)`. */
  datatype Field = Field(key: string, value: string)

  /** `func <name>() []Plugin { plugins := []Plugin{<values>}; return plugins }` */
  datatype Accessor = Accessor(funcName: string, values: seq<seq<Field>>)

  /** The generated Go file, as the four accessor functions it declares. */
  datatype GoFile = GoFile(packageName: string, header: seq<string>, accessors: seq<Accessor>)
}
