# telegraf-companion plugin catalog generators, in Dafny

telegraf-companion ships a catalog of Telegraf plugins: for each plugin, its
name, a one-line description and a sample configuration. Two generator tools
build this catalog from an upstream Telegraf checkout:

- `tools/generate_plugindata` walks the four category directories
  (`plugins/inputs`, `outputs`, `processors`, `aggregators`). It reads each
  plugin's `README.md`, finds the `toml` fenced code block in the
  *Configuration* section, and replaces `generated_data.go` with a Go file
  that declares four accessor functions (`InputPlugins`, …). The previous file
  is kept as `generated_data.go.tmp`, and a `--clean` run puts it back.
- `tools/update_sampleconf` compares the latest upstream release tag with the
  one recorded in `sampleconfigs/buildversion.txt`. When the two differ, it
  records the new tag, reads each plugin's `sample.conf`, and writes one
  `sampleconfigs/<category>.json` per category.

The model follows the code of both tools step by step:

- `text.dfy`: the Go string functions they use (`strings.TrimSpace`,
  `TrimPrefix`, `Split`) and the two ways a sample configuration is assembled.
- `walk.dfy`: the directory walk as the sequence of entries it visits, and
  `Extract`, the specification of the walk callback both tools share. The
  callback filters on the parent directory name and the file name, appends one
  record per selected file, and aborts on the first error.
- `files.dfy`: the file system as a map from name to contents, with a
  `FileSystem` class whose `WriteFile`, `Rename`, `Remove` and `ReadFile`
  change or read that map in place. Each mutating method is specified by a
  pure `…Effect` function.
- `plugin_data.dfy`: `parseReadme`, `extractReadme`, the generated file,
  `UpdateFile`, `ExtractPluginData` and `main`, as methods proved against
  specification functions.
- `sample_conf.dfy`: `extractSample` with its `firstLine` loop, `updateFile`
  and the version gate of `UpdateSampleConfigs`.
- `scenarios.dfy`: examples proved about the model on concrete inputs.

Behaviour of the code worth knowing, all of it stated by lemmas of the model:

- **Which block counts.** The `break` in `parseReadme` leaves only the
  `switch`, so the scan goes on. The last qualifying block decides the
  record, not the first.
- **Sample descriptions are not trimmed.** `extractSample` removes one `#`
  from the first line and does not trim, so `# collects X` gives the
  description ` collects X`.
- **A missing marker is fatal.** A marker file that cannot be read is an
  error. The run does not carry on as if the tag had changed.
- **Category writes are not all-or-nothing.** When a category fails, the
  catalog files of the categories before it stay written.
- **Processor and aggregator lists.** The generated `ProcessorPlugins` and
  `AggregatorPlugins` are filled from the `output` list.

Three hazards of the code as written, each shown by a lemma:

- A clean run with no backup deletes `generated_data.go` and then fails
  (`CleanWithoutBackup`).
- The exception list only skips entries whose immediate parent directory is
  `jolokia2`. A README deeper inside `jolokia2/` is still picked up, named
  after its own directory (`NestedUnderExceptedDirectory`).
- A tag with white space at either end never matches the marker. The gate
  compares the trimmed marker with the untrimmed tag and then writes the
  untrimmed tag, so such a tag is re-synchronised on every run
  (`UntrimmedTagNeverMatches`, `UntrimmedTagResyncs`). `SecondRunDoesNothing`
  therefore asks for a trimmed tag.

Panics are modelled as follows:

- **Path without `/`.** `parts[len(parts)-2]` on such a path would panic.
  The walk is instead required to visit only paths with a directory part
  (`WellFormedWalk`). Every walk rooted at `telegraf/plugins/<category>`
  has one.
- **Empty qualifying block.** `Lines().At(0)` on such a block panics. The
  model returns the error `EmptyFence(plugin)` there, which stops the run
  like any other error.
- **`log.Panic` in `main`.** The failed outcome that `Run` and
  `UpdateSampleConfigs` return stands for it.

## Model

| member | source | states |
|---|---|---|
| Text.TrimSpace | tools/generate_plugindata/main.go:65 | the result is no longer than the input and is empty or starts and ends with a non-space character (Go's `unicode.IsSpace` set) |
| Text.TrimSpaceSlice | tools/update_sampleconf/main.go:150 | `TrimSpace` removes only white space, and only at the two ends: the result is a slice of the input with spaces before and after it |
| Text.TrimSpaceIdempotent | tools/update_sampleconf/main.go:150 | trimming a trimmed string changes nothing |
| Text.TrimPrefix | tools/update_sampleconf/main.go:97 | when the input starts with the prefix, the prefix followed by the result is the input; otherwise the input comes back unchanged |
| Text.Split | tools/generate_plugindata/main.go:86 | there is at least one part, no part holds the separator, and there are two or more parts exactly when the input holds the separator |
| Text.SplitJoin | tools/generate_plugindata/main.go:86 | joining the parts of a split with the separator gives the input back |
| Text.JoinSplit | tools/generate_plugindata/main.go:86 | splitting separator-free parts joined by the separator gives the parts back |
| Text.ConcatAppend | tools/generate_plugindata/main.go:66-71 | appending one more line value to the block's config appends its text to the concatenation |
| Text.JoinLinesAppend | tools/update_sampleconf/main.go:101-108 | writing one more line and a newline into the buffer appends exactly that line and `\n` |
| Text.SplitJoinLines | tools/update_sampleconf/main.go:101-108 | splitting newline-terminated lines at `\n` gives the lines back, followed by the empty piece after the last newline |
| Walk.ParentName | tools/generate_plugindata/main.go:86-87 | the element before the last of the path split at `/`; it holds no `/` |
| Walk.BaseName | tools/generate_plugindata/main.go:94 | the last element of the path split at `/`, what `d.Name()` reports; it holds no `/` |
| Walk.Selects | tools/generate_plugindata/main.go:88-94 | the callback's filter: the parent directory is not on the exception list and the base name is the wanted file |
| Walk.PathNames | tools/generate_plugindata/main.go:86-87 | a path built from slash-free elements reports its second-to-last element as the plugin name and its last as the base name |
| Walk.SelectedPaths | tools/generate_plugindata/main.go:86-94 | every selected path has a parent directory that is not on the exception list and has the wanted base name, and there are no more selected paths than walk entries |
| Walk.SelectedIff | tools/generate_plugindata/main.go:86-94 | a path is selected if and only if the walk visits it and the name filter accepts it |
| Walk.ExtractFails | tools/generate_plugindata/main.go:82-105 | the extraction fails if and only if some entry fails (a walk error, a missing file or a parse error); the error is that of the first failing entry, and no partial list is returned |
| Walk.ExtractRecords | tools/generate_plugindata/main.go:81-106 | on success there is exactly one record per selected path, in walk order, each the parse of that path's file |
| Walk.ExtractNames | tools/update_sampleconf/main.go:73-83 | with a parser that names records after their plugin, the k-th record is named after the parent directory of the k-th selected path |
| Files.Renamed | tools/generate_plugindata/main.go:110 | after a rename the target holds the source's old contents, the source is gone and every other file is unchanged |
| Files.FileSystem.ReadFile | tools/update_sampleconf/main.go:145 | reads the contents of an existing file, or fails with `NotFound` |
| Files.FileSystem.WriteFile | tools/update_sampleconf/main.go:154 | creates or replaces the file unless writing it is refused, in which case nothing changes |
| Files.FileSystem.Rename | tools/generate_plugindata/main.go:110 | moves the file when it exists, otherwise fails with `NotFound` and changes nothing |
| Files.FileSystem.Remove | tools/generate_plugindata/main.go:200 | deletes the file when it exists, otherwise fails with `NotFound` and changes nothing |
| PluginData.SectionAt | tools/generate_plugindata/main.go:55-61 | the value of `currentSection` when the scan reaches node `i`: empty before any heading with a first child, then the text of the last such heading |
| PluginData.SectionIsHeading | tools/generate_plugindata/main.go:55-61 | `currentSection` at a node is empty, or the first-child text of an earlier heading with no heading with a first child after it |
| PluginData.Qualifies | tools/generate_plugindata/main.go:63 | a node is a fenced block with language `toml` while the current section is `Configuration` |
| PluginData.BlockRecord | tools/generate_plugindata/main.go:64-71 | the record of a qualifying block keeps the plugin name, its description is no longer than line 0, and its sample configuration starts with line 0 |
| PluginData.LastQualifying | tools/generate_plugindata/main.go:56-75 | finds the last `toml` block of the Configuration section before a position: it qualifies and no later node before that position does; `None` means no node there qualifies |
| PluginData.ReadmeRecord | tools/generate_plugindata/main.go:43-77 | a successful parse always names the record after the plugin |
| PluginData.ScanStep | tools/generate_plugindata/main.go:57-73 | one node of the scan: a heading with a first child sets the section; a qualifying block with no lines panics; a qualifying block replaces the record, any other node keeps it |
| PluginData.ConcatLines | tools/generate_plugindata/main.go:66-71 | the inner loop appends every line value of the block, in order, giving their concatenation |
| PluginData.ParseReadme | tools/generate_plugindata/main.go:43-77 | the node loop, tracking the current section and overwriting the record at each qualifying block, returns `ReadmeRecord` |
| PluginData.SectionAtPrefix | tools/generate_plugindata/main.go:55-61 | nodes further on do not change the section seen at an earlier node |
| PluginData.SectionStep | tools/generate_plugindata/main.go:58-61 | the section changes only at a heading with a first child, and becomes that child's text |
| PluginData.NoQualifyingBlock | tools/generate_plugindata/main.go:44-45 | a README without a qualifying block gives the plugin's name with an empty description and sample configuration |
| PluginData.EmptyBlockFails | tools/generate_plugindata/main.go:63-64 | parsing fails if and only if some `toml` block of the Configuration section has no lines, and then with `EmptyFence` for that plugin |
| PluginData.LastBlockWins | tools/generate_plugindata/main.go:56-75 | the last qualifying block gives the record: its first line without one `#`, trimmed, is the description, and all its lines in order are the sample configuration |
| PluginData.LaterBlockOverrides | tools/generate_plugindata/main.go:72 | a further `toml` block in the Configuration section replaces whatever earlier blocks gave: the scan does not stop at the first one |
| PluginData.ExtractReadme | tools/generate_plugindata/main.go:80-107 | the walk loop returns the category's `Extract` result: one README record per selected entry, in walk order, or the first error |
| PluginData.ReadmeRecordsNamed | tools/generate_plugindata/main.go:86-99 | each README record is named after the parent directory of its selected path, and there is one per selected path |
| PluginData.LoadLiterals | tools/generate_plugindata/main.go:119-129 | the composite literals written for a list of records denote that same list, with Name, Description and SampleConfig in order |
| PluginData.FunctionContents | tools/generate_plugindata/main.go:119-129 | builds one literal per record in list order, and those literals load back as the records |
| PluginData.GeneratedCatalog | tools/generate_plugindata/main.go:131-146 | in the generated file, `InputPlugins` returns the input records, and `OutputPlugins`, `ProcessorPlugins` and `AggregatorPlugins` all return the output records |
| PluginData.ProcessorsSurviveIff | tools/generate_plugindata/main.go:139-146 | `ProcessorPlugins` returns the processor records if and only if they equal the output records; likewise for aggregators |
| PluginData.Generate | tools/generate_plugindata/main.go:114-146 | the generated file is package `plugins` with the two `go:generate` header lines and four accessors; the first holds one literal per input record, the other three one per output record |
| PluginData.CleanEffect | tools/generate_plugindata/main.go:199-207 | the clean run succeeds exactly when both the file and its backup exist, and then the backup's contents are under the file name and no backup is left; on failure either nothing changed or the file was already removed |
| PluginData.UpdateKeepsBackup | tools/generate_plugindata/main.go:109-154 | with no current file the update fails and changes nothing; otherwise the old contents end up under the backup name, the new file is written exactly when the write is allowed, and nothing else changes |
| PluginData.RollbackRestores | tools/generate_plugindata/main.go:199-207 | a successful update followed by a clean run succeeds and restores the original files, less any backup file |
| PluginData.FailedRunKeepsArtifact | tools/generate_plugindata/main.go:157-193 | a failed generating run leaves the files unchanged, except when only the final write was refused; then the old file sits under the backup name |
| PluginData.RunThenCleanRestores | tools/generate_plugindata/main.go:195-213 | a successful generating run followed by a `--clean` run restores the original files and leaves no backup |
| PluginData.CleanWithoutBackup | tools/generate_plugindata/main.go:199-207 | a clean run with no backup deletes the current file and then fails with `NotFound` for the backup |
| PluginData.UpdateFile | tools/generate_plugindata/main.go:109-154 | renames the file to the backup (stopping if that fails), then writes the generated file; the new files and outcome are those of `UpdateFileEffect` |
| PluginData.ExtractPluginData | tools/generate_plugindata/main.go:157-193 | checkout, then the four categories in order, stopping at the first error, then the update; the effect is `ExtractPluginDataEffect` |
| PluginData.Run | tools/generate_plugindata/main.go:195-213 | `main`: the clean branch (remove, then rename the backup back) or the generating run; the effect is `RunEffect` |
| SampleConf.CatalogPathsDistinct | tools/update_sampleconf/main.go:133 | each category writes its own `sampleconfigs/<category>.json`, and none of them is the marker file |
| SampleConf.CatalogPath | tools/update_sampleconf/main.go:133 | `sampleconfigs/<category>.json` |
| SampleConf.SampleRecord | tools/update_sampleconf/main.go:92-111 | the record is named after the plugin; the description is the first line with at most one leading `#` removed and no trimming; an empty file gives empty fields, and a one-line file an empty configuration |
| SampleConf.ParseSample | tools/update_sampleconf/main.go:90-111 | the `firstLine` loop over the scanner's lines returns `SampleRecord` |
| SampleConf.SampleConfigLines | tools/update_sampleconf/main.go:101-108 | splitting the sample configuration at its newlines gives back every line after the first, then an empty piece |
| SampleConf.ExtractSample | tools/update_sampleconf/main.go:67-121 | the walk loop returns the category's `Extract` result: one sample record per selected entry, in walk order, or the first error |
| SampleConf.SampleRecordsNamed | tools/update_sampleconf/main.go:73-83 | each sample record is named after the parent directory of its selected path, one per selected path |
| SampleConf.MarkerMatches | tools/update_sampleconf/main.go:150 | the gate's test: the marker holds text whose trimmed form equals the latest tag |
| SampleConf.WriteCategories | tools/update_sampleconf/main.go:170-186 | the categories in order, each extracted and written; the first failure stops the rest |
| SampleConf.WriteCategoriesFrame | tools/update_sampleconf/main.go:170-186 | writing the category files changes no file other than those catalog files |
| SampleConf.FirstFailureStops | tools/update_sampleconf/main.go:170-186 | the categories run in order: the run succeeds exactly when none fails; the categories before the first failure have their records written; the failing one and those after it are untouched |
| SampleConf.GateExits | tools/update_sampleconf/main.go:139-157 | a failed release query or unreadable marker is an error; an unchanged tag or a refused marker write is a success; none of them changes a file |
| SampleConf.MarkerWrittenFirst | tools/update_sampleconf/main.go:154-162 | once the gate opens and the marker write is allowed, the new tag is recorded whatever happens to the checkout or the categories |
| SampleConf.SyncWritesAll | tools/update_sampleconf/main.go:170-187 | a run that passes the gate and whose categories all succeed returns success and writes all four catalog files with their records |
| SampleConf.GateClosedAfterRun | tools/update_sampleconf/main.go:150-157 | after a run with a trimmed tag the marker exists exactly when it did before, and then it matches the tag or its write is refused |
| SampleConf.SecondRunDoesNothing | tools/update_sampleconf/main.go:150-152 | right after any run with a trimmed tag, a second run with the same tag changes no file; when the marker file exists it also succeeds |
| SampleConf.UntrimmedTagNeverMatches | tools/update_sampleconf/main.go:150 | a tag with white space at either end matches no marker, whatever the marker holds |
| SampleConf.UntrimmedTagResyncs | tools/update_sampleconf/main.go:150-157 | with such a tag and a writable marker, a run records the tag as it is, and the recorded tag still does not match it, so the next run's gate opens again |
| SampleConf.UpdateFile | tools/update_sampleconf/main.go:123-135 | extracts one category and writes its catalog file; the effect is `CategoryEffect` |
| SampleConf.UpdateSampleConfigs | tools/update_sampleconf/main.go:138-188 | query result, marker read, gate, marker write, checkout, then the four categories; the effect is `SyncEffect` |
| Scenarios.ReadmeDescription | tools/generate_plugindata/main.go:65 | `# My Plugin Does X` followed by a newline gives the description `My Plugin Does X` |
| Scenarios.SingleBlock | tools/generate_plugindata/main.go:62-72 | a Configuration heading followed by one non-empty `toml` block gives that block's record |
| Scenarios.ReadmeExample | tools/generate_plugindata/main.go:62-72 | a concrete README gives the trimmed description and the two lines, concatenated, as the sample configuration |
| Scenarios.SecondBlockWins | tools/generate_plugindata/main.go:56-75 | of two `toml` blocks in the Configuration section, the second decides the record |
| Scenarios.ThreeLineSample | tools/update_sampleconf/main.go:94-111 | a three-line sample file gives its first line without `#` as the description and the other two lines, each followed by a newline, as the configuration |
| Scenarios.SampleExample | tools/update_sampleconf/main.go:94-111 | `# collects X metrics` gives the description ` collects X metrics`, keeping the leading space |
| Scenarios.ExceptedPluginSkipped | tools/update_sampleconf/main.go:73-83 | a walk passing `jolokia2` between two other plugins yields the other two records, in walk order, each named after its directory |
| Scenarios.NestedUnderExceptedDirectory | tools/generate_plugindata/main.go:86-94 | `inputs/jolokia2/examples/README.md` is still selected, and named `examples` |

## Left out

- Text: Go strings are byte strings, but the model's strings are sequences
  of characters. File contents are taken to be valid UTF-8 and modelled as
  their Unicode scalar values. On invalid UTF-8, `strings.TrimSpace` sees
  U+FFFD (not a space) while `TrimPrefix`, `Split` and the appends work on
  bytes; that byte-level behaviour is not modelled.
- The release query (`getLatestVersionTag`, an HTTP call plus JSON decoding)
  is a parameter `latest`, the tag or an error.
- The checkout (`cloneTelegraf`, `git.PlainClone`) is a parameter
  `acquire`, success or an error. Its "already cloned" shortcut is part of
  that parameter.
- The directory walk (`filepath.WalkDir`) is a given sequence of entries
  in visiting order. A README is the list of top-level nodes the goldmark
  parser yields. A `sample.conf` is the lines `bufio.Scanner` yields. The
  parser and the scanner themselves are not modelled, and neither are the
  scanner's dropped trailing `\r` or its silently ignored read errors.
- File contents are values: a version tag, a record list or a generated
  Go file. The JSON encoding (`json.MarshalIndent`) and the jennifer
  rendering (`fmt.Sprintf("%#v", f)`) are not modelled.
- `FileData` compares the marker as text. A marker file holding anything
  else never matches the tag.
- Files.FileSystem.WriteFile: a failed write is modelled as a refusal when
  the file is opened, which changes nothing. `os.WriteFile` truncates the
  file before writing, so a write or close error after the open can leave it
  empty or half-written; such partial writes are not modelled.
- PluginData.FailedRunKeepsArtifact: because of the above, it does not cover
  a failed write of `generated_data.go` that leaves a truncated file behind
  the backup.
- SampleConf.GateExits: likewise, the refused marker write is the open-time
  refusal only; a marker truncated by a failed write is not modelled.
- Only writes can be refused by the file system. Reads, renames and
  removes fail only on a missing file.
- `os.ReadFile` failing on the README itself is a missing file in the model.
- The deferred `os.RemoveAll` of the checkout and the `log.Panic` it may
  raise are process-level cleanup and are left out. So is `log.Panic` as
  such: a failed outcome stands for it.
- Flag parsing in `main` is the `clean` parameter of `Run`.
- `magefile.go` (build and release scripting), `cmd/main.go` (the UI entry
  point) and `plugins/sampleConfigs.go` (a JSON wrapper over the catalog
  files) are not part of this model.
