# Hermetic build normalisation engine, in Dafny

This project models the core of Meson's hermetic-build conversion
(`mesonbuild/hermeticbuild.py`). That code turns Meson build-graph targets into
flat records, which a Soong or Bazel emitter then renders:

- `HermeticStaticLibrary.convert_from_meson` fills a library record from a Meson
  library. `HermeticSharedLibrary` reuses it unchanged. It records the basename,
  the subdirectory, the source names, the `curdir/dir` include paths, the
  generated outputs split into headers and everything else, and the static link
  edges.
- `HermeticCustomTarget.convert_from_meson` fills a custom-target record. It
  copies the inputs (and fails on an input that is not a plain file) and the
  outputs. It detects a Python script, derives the tool name
  `<name>_<basename(script)>`, and exports the target's subdirectory.
- `emit_python_target` and `HermeticPythonTarget(custom_target)` derive a
  Python-binary record from a custom target that has a script.
- `HermeticState` aggregates all records of one run.

## Layout

- `paths.dfy`, module `Paths`: `str.endswith`, `os.path.basename` and
  `os.path.dirname`. A path is split at its last `/`.
- `meson_build.dfy`, module `MesonBuild`: the Meson target objects as
  datatypes. Only the attributes the conversion reads are modelled: `fname`,
  `curdir`/`incdirs`, the generated sources' `name`, the link targets by class,
  a custom target's inputs, outputs, command and subdir.
- `hermetic_build.dfy`, module `HermeticBuild`: the records and operations.
  - The records whose fields the code appends to are classes:
    `HermeticStaticLibrary` (with a `kind` of `Static` or `Shared`),
    `HermeticCustomTarget` and `HermeticState`.
  - Each `ConvertFromMeson` is a method. It calls one helper method per loop of
    the Python method, and each helper has its own frame and loop invariants.
  - Their postconditions tie every field they change to a specification
    function of the input and of the field's old value.
  - The Python-target derivation is pure, so it is written as functions
    (`EmitPythonTarget`, `NewPythonTarget`) that return a `PythonTarget`
    datatype value.
- `hermetic_properties.dfy`, module `HermeticProperties`: lemmas that connect
  the specification functions. Most of them specialise the conversion contracts
  to a freshly constructed record, where every list is empty.
- `scenarios.dfy`, module `HermeticScenarios`: two client methods, a static
  library `util` and a library with a shared link (which fails). They use the
  conversion's contract, unfolding the specification functions on the
  concrete inputs.

The library conversion replaces `srcs` and the name and subdirectory, and
appends to the other lists the record already holds. The custom-target
conversion replaces the name (and, when a script is found, the script and
its tool name) and appends to `srcs`, `out`, `tools` and the exported
directories.
Both behave this way in the Python code too. On a fresh record (the
constructors guarantee every list is empty), `old(...)` is `[]` and the
postconditions become the properties below.

### Behaviour of the code as written

- **Shared-library links.** The record has a Soong `shared_libs` list
  (`hermeticbuild.py:58`), but line 85 calls that list instead of appending to
  it. A `SharedLibrary` in `link_targets` therefore raises `TypeError` and is
  never recorded.
  - The model returns `Fail(ListNotCallable("shared_libs"))`.
  - `static_libs` then holds the static names that came before the shared
    entry. The whole-archive links are not processed.
- **Order of generated outputs.** The comment at `hermeticbuild.py:70` says
  the step removes duplicates; it does so through a Python `set` (line 71), so
  the outputs are classified in set iteration order, which the language leaves
  unspecified.
  - `ClassifyGenerated` picks each next name nondeterministically.
  - Its results are stated up to multiset equality.
- **The `.c`/`.cpp` duplicate check has no effect.** Its `else` branch
  (lines 78-79) appends in every case. So every non-header name is appended to
  the sources, and so is a `.h` name the headers already held.
- **`imports` keeps duplicates.** It is the dirname of every `.py` source, in
  order, with no de-duplication (`hermeticbuild.py:174`).
- **Script detection reuses the old value.** When no script is found, the
  record keeps the `python_script` it already had. A fresh record therefore has
  none.

## Model

| member | source | states |
|---|---|---|
| `Paths.LastSlash` | mesonbuild/hermeticbuild.py:138 | the split point of a path: a `/`, with no `/` after it; -1 when the path has none |
| `Paths.Basename` | mesonbuild/hermeticbuild.py:138 | the base name is a suffix of the path with no `/`; a path without `/` is its own base name |
| `Paths.Dirname` | mesonbuild/hermeticbuild.py:174 | dirname + `/` + basename rebuilds a path that has a `/`; the dirname is empty when the path has none |
| `Paths.BasenameKeepsSuffix` | mesonbuild/hermeticbuild.py:138 | a suffix without `/` (such as `.py`) survives taking the base name |
| `HermeticBuild.SourceNames` | mesonbuild/hermeticbuild.py:63 | one name per source, in order, each the source's `fname`, with no de-duplication |
| `HermeticBuild.JoinedPaths` | mesonbuild/hermeticbuild.py:67-68 | one path per sub-path of a descriptor |
| `HermeticBuild.IncludePaths` | mesonbuild/hermeticbuild.py:66-68 | the number of include paths is the sum of the descriptors' sub-path counts |
| `HermeticBuild.StaticNames` | mesonbuild/hermeticbuild.py:81-89 | at most one name per link target |
| `HermeticBuild.FirstShared` | mesonbuild/hermeticbuild.py:81-85 | the position of the first `SharedLibrary` link target, where conversion fails; no shared library comes before it |
| `HermeticBuild.LeadingFiles` | mesonbuild/hermeticbuild.py:117-122 | the position of the first input that is not a plain `File`, where conversion fails; only files come before it |
| `HermeticBuild.FileNames` | mesonbuild/hermeticbuild.py:117-119 | one name per file input, in order, each the input's `fname` |
| `HermeticBuild.FirstPythonFile` | mesonbuild/hermeticbuild.py:131-135 | the position of the first `.py` entry; no earlier entry ends in `.py` |
| `HermeticBuild.ToolName` | mesonbuild/hermeticbuild.py:138 | the tool name is the target name, then `_`, then the script's base name (a `/`-free suffix of the script path) |
| `HermeticBuild.PythonSources` | mesonbuild/hermeticbuild.py:173 | a source is kept iff it ends in `.py` |
| `HermeticBuild.Dirnames` | mesonbuild/hermeticbuild.py:174 | one import directory per Python source, the dirname of that source, with no de-duplication |
| `HermeticBuild.HermeticStaticLibrary.constructor` | mesonbuild/hermeticbuild.py:40-59 | a new library record has empty name and subdir and every list empty |
| `HermeticBuild.HermeticStaticLibrary.ConvertFromMeson` | mesonbuild/hermeticbuild.py:61-89 | name and subdir are copied and srcs are the source names; the include paths, headers, sources and static links are appended to the old lists; a shared link fails with static links recorded up to it; no other field changes |
| `HermeticBuild.HermeticStaticLibrary.AddIncludeDirs` | mesonbuild/hermeticbuild.py:66-68 | the nested loop appends exactly the include paths of all descriptors, in order |
| `HermeticBuild.HermeticStaticLibrary.ClassifyGenerated` | mesonbuild/hermeticbuild.py:70-79 | in any visiting order, each distinct `.h` name not already a header is appended once to the headers, and every other distinct name once to the sources |
| `HermeticBuild.HermeticStaticLibrary.AddLinks` | mesonbuild/hermeticbuild.py:81-85 | static names are appended in order; conversion fails iff a shared library is linked, and then only the names before it are appended |
| `HermeticBuild.HermeticStaticLibrary.AddWholeLinks` | mesonbuild/hermeticbuild.py:87-89 | only the whole-archive static libraries are appended, in order; other kinds are ignored |
| `HermeticBuild.HermeticCustomTarget.constructor` | mesonbuild/hermeticbuild.py:104-112 | a new custom-target record has every list empty and no script |
| `HermeticBuild.HermeticCustomTarget.ConvertFromMeson` | mesonbuild/hermeticbuild.py:114-141 | inputs fail at the first non-`File`, naming its type; on success the outputs are appended, the script is detected by precedence, its tool name is appended to `tools`, `subdir` is exported and the script's tool is listed |
| `HermeticBuild.HermeticCustomTarget.AddSources` | mesonbuild/hermeticbuild.py:117-122 | input file names are appended in order up to the first non-file input, which is the error reported |
| `HermeticBuild.HermeticCustomTarget.AddOutputs` | mesonbuild/hermeticbuild.py:124-125 | the outputs are appended in order |
| `HermeticBuild.HermeticCustomTarget.DetectScript` | mesonbuild/hermeticbuild.py:127-135 | the script is `command[0]` if it ends in `.py`, else the first `.py` among inputs then outputs, else the old value |
| `HermeticBuild.HermeticCustomTarget.EmitPythonTarget` | mesonbuild/hermeticbuild.py:143-152 | no Python target exactly when no script was detected; otherwise the target derived from this record |
| `HermeticBuild.NewPythonTarget` | mesonbuild/hermeticbuild.py:165-177 | main is the script and name is its tool name; srcs are the `.py` inputs filtered in order, duplicates kept (`PythonSources`); one import dirname per source, in the same order; outputs and exported dirs are copied; no tools and no script of its own |
| `HermeticBuild.HermeticState.constructor` | mesonbuild/hermeticbuild.py:15-26 | a new state has every record and flag list empty and empty language standards |
| `HermeticProperties.JoinedPathsAt` | mesonbuild/hermeticbuild.py:67-68 | the path for sub-path `j` of a descriptor is `curdir/dir`, at position `j` |
| `HermeticProperties.IncludePathsAt` | mesonbuild/hermeticbuild.py:66-68 | the path for sub-path `j` of descriptor `k` is `curdir/dir`, at position (number of pairs before `k`) + `j`: nested-loop order |
| `HermeticProperties.IncludePathsAppend` | mesonbuild/hermeticbuild.py:66-68 | the include paths of concatenated descriptor lists are the concatenation of their include paths |
| `HermeticProperties.FreshGeneratedPartition` | mesonbuild/hermeticbuild.py:70-79 | on a fresh record the headers are exactly the distinct `.h` names and the sources exactly the distinct other names; both lists are duplicate-free and disjoint |
| `HermeticProperties.StaticNamesAppend` | mesonbuild/hermeticbuild.py:81-89 | static names of ordinary then whole-archive links come out in list order, one list after the other |
| `HermeticProperties.StaticNamesMembers` | mesonbuild/hermeticbuild.py:81-89 | a name is recorded iff a `StaticLibrary` with that name is in the list; shared and other targets contribute nothing |
| `HermeticProperties.StaticNamesNone` | mesonbuild/hermeticbuild.py:87-89 | a link list without static libraries records nothing |
| `HermeticProperties.ScriptPrecedence` | mesonbuild/hermeticbuild.py:127-135 | on a fresh record a `.py` `command[0]` wins whatever the inputs and outputs; otherwise there is no script iff no input or output ends in `.py`, and else it is the first one |
| `HermeticProperties.ToolNameDeterminesBasename` | mesonbuild/hermeticbuild.py:138 | within one target, two scripts get the same tool name iff they have the same base name |
| `HermeticProperties.PythonSourcesAppend` | mesonbuild/hermeticbuild.py:173 | the Python sources keep the order of the inputs |
| `HermeticProperties.PythonSourcesKeepsAll` | mesonbuild/hermeticbuild.py:173 | when every input is a `.py` name, all are kept, duplicates included |
| `HermeticProperties.EmittedTargetIsListedTool` | mesonbuild/hermeticbuild.py:137-152 | when the script's tool is listed, the emitted Python target is named by a listed tool; no script gives no target |

## Left out

- `tools/hermetic/meson2hermetic.py` is not part of this model. It is command-line and I/O plumbing: argument parsing, TOML configuration, template rendering, running the Meson interpreter, printing.
- `mesonbuild/backend/hermeticbackend.py` is not part of this model. Its classes are empty and `generate` only prints and returns an empty dictionary.
- Flag collection, flag escaping and target extraction are not in the code. `conlyflags`, `cppflags`, `cstd` and `cpp_std` are only initialised, and `HermeticState.copts` has no behaviour (`pass`).
- The `__str__` formatting methods are not modelled. They only format text.
- The first `HermeticPythonTarget.__init__` is shadowed by the second, so it is dead code. Its `version` and `libs` fields therefore never exist and are not modelled.
- `HermeticPythonTarget(None)` is not modelled. That call returns a bare record, and the engine itself never makes it.
- Meson's target classes are reduced to the attributes the conversion reads. `get_basename()` becomes the field `basename`, and `type(src)` becomes the `typeName` of an `OtherSource`.
- The order in which Python iterates a `set` is left unspecified. `ClassifyGenerated` chooses each next name nondeterministically.
- Raised exceptions become `Fail` outcomes. The model says exactly what the record holds at the point of failure, and nothing is rolled back, as in Python.
- Paths.Dirname: splits at the last `/` only. It returns `""` instead of `"/"` for a path whose only `/` is the first character, and it does not strip repeated or trailing slashes as `os.path.dirname` does.
- Paths.Basename: splits at the last `/` only. It does not model other `os.path` separators or platforms.
- `EmitPythonTarget` and `NewPythonTarget` are functions, so they are deterministic and do not change the custom target. No separate lemma states this.
