/**
 * The hermetic-build normalisation engine: it turns Meson targets into flat
 * records (`HermeticStaticLibrary`, `HermeticCustomTarget`, `PythonTarget`)
 * that a Soong or Bazel emitter renders, and collects them in a
 * `HermeticState`.
 *
 * Both `ConvertFromMeson` methods append to the lists already held by the
 * record, exactly as the Python code does; on a freshly constructed record
 * (every list empty) their postconditions reduce to the properties proved in
 * module HermeticProperties.
 */
module HermeticBuild {
  import opened Paths
  import opened MesonBuild

  datatype Option<T> = None | Some(value: T)

  /** Why a conversion stops part-way. */
  datatype Error =
      /** A list attribute is called like a function (Python's `TypeError`). */
    | ListNotCallable(attribute: string)
      /** A custom-target input that is not a plain `File` (`MesonException`). */
    | UnhandledSourceType(typeName: string)

  datatype Outcome = Pass | Fail(error: Error)

  /** `HermeticSharedLibrary` differs from `HermeticStaticLibrary` only in its kind. */
  datatype LibraryKind = Static | Shared

  predicate NoDuplicates(s: seq<string>) {
    forall i, j :: 0 <= i < j < |s| ==> s[i] != s[j]
  }

  /*************************************************************************
   * Library conversion: specification functions
   *************************************************************************/

  /** `[s.fname for s in sources]` */
  function SourceNames(sources: seq<SourceFile>): (names: seq<string>)
    ensures |names| == |sources|
    ensures forall i :: 0 <= i < |sources| ==> names[i] == sources[i].fname
  {
    if sources == [] then []
    else SourceNames(sources[..|sources| - 1]) + [sources[|sources| - 1].fname]
  }

  /** The include paths one descriptor contributes: `curdir/dir` for each `dir`. */
  function JoinedPaths(curdir: string, dirs: seq<string>): (paths: seq<string>)
    ensures |paths| == |dirs|
  {
    if dirs == [] then []
    else JoinedPaths(curdir, dirs[..|dirs| - 1]) + [curdir + "/" + dirs[|dirs| - 1]]
  }

  /** The number of (descriptor, sub-path) pairs. */
  function IncdirCount(incs: seq<IncludeDirs>): nat {
    if incs == [] then 0
    else IncdirCount(incs[..|incs| - 1]) + |incs[|incs| - 1].incdirs|
  }

  /** The include paths of all descriptors, in nested-loop order. */
  function IncludePaths(incs: seq<IncludeDirs>): (paths: seq<string>)
    ensures |paths| == IncdirCount(incs)
  {
    if incs == [] then []
    else
      var last := incs[|incs| - 1];
      IncludePaths(incs[..|incs| - 1]) + JoinedPaths(last.curdir, last.incdirs)
  }

  lemma JoinedPathsPrefix(curdir: string, dirs: seq<string>, j: nat)
    requires j < |dirs|
    ensures JoinedPaths(curdir, dirs[..j + 1]) == JoinedPaths(curdir, dirs[..j]) + [curdir + "/" + dirs[j]]
  {
    assert dirs[..j + 1][..j] == dirs[..j];
  }

  lemma IncludePathsPrefix(incs: seq<IncludeDirs>, i: nat)
    requires i < |incs|
    ensures IncludePaths(incs[..i + 1]) == IncludePaths(incs[..i]) + JoinedPaths(incs[i].curdir, incs[i].incdirs)
  {
    assert incs[..i + 1][..i] == incs[..i];
  }

  predicate IsHeader(s: string) {
    EndsWith(s, ".h")
  }

  predicate IsCSource(s: string) {
    EndsWith(s, ".c") || EndsWith(s, ".cpp")
  }

  /** `set([source.name for source in ...])`: the de-duplicated generated names. */
  function GeneratedNames(generated: seq<GeneratedSource>): set<string> {
    set g | g in generated :: g.name
  }

  /**
   * The names that classification appends to `generated_headers`, given the
   * headers the record already held: headers not already present.
   */
  function AddedHeaders(names: set<string>, headers: seq<string>): set<string> {
    set s | s in names && IsHeader(s) && s !in headers
  }

  /** Every other name is appended to `generated_sources`. */
  function AddedSources(names: set<string>, headers: seq<string>): set<string> {
    names - AddedHeaders(names, headers)
  }

  /** `s` is `prefix` followed by each element of `added` exactly once, in some order. */
  predicate ExtendedBy(prefix: seq<string>, s: seq<string>, added: set<string>) {
    |prefix| <= |s| && s[..|prefix|] == prefix && multiset(s[|prefix|..]) == multiset(added)
  }

  lemma ExtendedByMember(prefix: seq<string>, s: seq<string>, added: set<string>, x: string)
    requires ExtendedBy(prefix, s, added)
    ensures x in s <==> x in prefix || x in added
  {
    assert s == prefix + s[|prefix|..];
    assert x in s[|prefix|..] <==> x in multiset(s[|prefix|..]);
  }

  lemma ExtendedBySnoc(prefix: seq<string>, s: seq<string>, added: set<string>, x: string)
    requires ExtendedBy(prefix, s, added)
    requires x !in added
    ensures ExtendedBy(prefix, s + [x], added + {x})
  {
    assert (s + [x])[..|prefix|] == prefix;
    assert (s + [x])[|prefix|..] == s[|prefix|..] + [x];
    assert multiset(added + {x}) == multiset(added) + multiset{x};
  }

  /** Visiting one more name adds it to exactly one of the two classes. */
  lemma AddedInsert(seen: set<string>, headers: seq<string>, x: string)
    requires x !in seen
    ensures IsHeader(x) && x !in headers ==>
              && AddedHeaders(seen + {x}, headers) == AddedHeaders(seen, headers) + {x}
              && AddedSources(seen + {x}, headers) == AddedSources(seen, headers)
    ensures !(IsHeader(x) && x !in headers) ==>
              && AddedHeaders(seen + {x}, headers) == AddedHeaders(seen, headers)
              && AddedSources(seen + {x}, headers) == AddedSources(seen, headers) + {x}
  {
  }

  /** The names of the `StaticLibrary` entries, in order. */
  function StaticNames(targets: seq<LinkTarget>): (names: seq<string>)
    ensures |names| <= |targets|
  {
    if targets == [] then []
    else
      var rest := StaticNames(targets[..|targets| - 1]);
      match targets[|targets| - 1]
      case StaticLibrary(n) => rest + [n]
      case _ => rest
  }

  lemma StaticNamesSnoc(targets: seq<LinkTarget>, t: LinkTarget)
    ensures StaticNames(targets + [t]) == StaticNames(targets) + (if t.StaticLibrary? then [t.name] else [])
  {
    assert (targets + [t])[..|targets|] == targets;
  }

  /** Index of the first `SharedLibrary` entry, or `|targets|` when there is none. */
  function FirstShared(targets: seq<LinkTarget>): (k: nat)
    ensures k <= |targets|
    ensures forall j :: 0 <= j < k ==> !targets[j].SharedLibrary?
    ensures k < |targets| ==> targets[k].SharedLibrary?
  {
    if targets == [] || targets[0].SharedLibrary? then 0
    else 1 + FirstShared(targets[1..])
  }

  /*************************************************************************
   * Custom-target conversion: specification functions
   *************************************************************************/

  /** Index of the first input that is not a plain `File`, or `|sources|`. */
  function LeadingFiles(sources: seq<CustomSource>): (k: nat)
    ensures k <= |sources|
    ensures forall j :: 0 <= j < k ==> sources[j].File?
    ensures k < |sources| ==> sources[k].OtherSource?
  {
    if sources == [] || sources[0].OtherSource? then 0
    else 1 + LeadingFiles(sources[1..])
  }

  /** The file names of inputs that are all plain files, in order. */
  function FileNames(sources: seq<CustomSource>): (names: seq<string>)
    requires forall i :: 0 <= i < |sources| ==> sources[i].File?
    ensures |names| == |sources|
    ensures forall i :: 0 <= i < |sources| ==> names[i] == sources[i].fname
  {
    if sources == [] then []
    else FileNames(sources[..|sources| - 1]) + [sources[|sources| - 1].fname]
  }

  /** Index of the first `.py` entry, or `|args|` when there is none. */
  function FirstPythonFile(args: seq<string>): (k: nat)
    ensures k <= |args|
    ensures forall j :: 0 <= j < k ==> !IsPythonFile(args[j])
    ensures k < |args| ==> IsPythonFile(args[k])
  {
    if args == [] || IsPythonFile(args[0]) then 0
    else 1 + FirstPythonFile(args[1..])
  }

  /**
   * The script the conversion records: the command's first token when it is a
   * `.py` name, otherwise the first `.py` entry of `args`, otherwise whatever
   * the record already held (`previous`).
   */
  function DetectedScript(command: seq<string>, args: seq<string>, previous: string): string {
    if |command| != 0 && IsPythonFile(command[0]) then command[0]
    else
      var k := FirstPythonFile(args);
      if k < |args| then args[k] else previous
  }

  /** The tool name of a script: `<target name>_<script basename>`. */
  function ToolName(targetName: string, script: string): (tool: string)
    ensures |tool| > |targetName| && tool[..|targetName|] == targetName
    ensures tool[|targetName|] == '_'
    ensures '/' !in tool[|targetName| + 1..]
    ensures EndsWith(script, tool[|targetName| + 1..])
    ensures tool[|targetName| + 1..] == Basename(script)
  {
    var tool := targetName + "_" + Basename(script);
    assert tool[|targetName| + 1..] == Basename(script);
    tool
  }

  /*************************************************************************
   * Python-target derivation: specification functions
   *************************************************************************/

  /** `[t for t in srcs if t.endswith('.py')]` */
  function PythonSources(srcs: seq<string>): (py: seq<string>)
    ensures |py| <= |srcs|
    ensures forall s :: s in py <==> s in srcs && IsPythonFile(s)
  {
    if srcs == [] then []
    else
      var rest := PythonSources(srcs[..|srcs| - 1]);
      var last := srcs[|srcs| - 1];
      assert srcs == srcs[..|srcs| - 1] + [last];
      if IsPythonFile(last) then rest + [last] else rest
  }

  /** `[os.path.dirname(t) for t in paths]` */
  function Dirnames(paths: seq<string>): (dirs: seq<string>)
    ensures |dirs| == |paths|
    ensures forall i :: 0 <= i < |paths| ==> dirs[i] == Dirname(paths[i])
  {
    if paths == [] then []
    else Dirnames(paths[..|paths| - 1]) + [Dirname(paths[|paths| - 1])]
  }

  /**
   * `HermeticPythonTarget`: the fields of a custom target it inherits, plus
   * its entry point `main` and its `imports`.
   */
  datatype PythonTarget = PythonTarget(
    name: string,
    srcs: seq<string>,
    out: seq<string>,
    tools: seq<string>,
    exportIncludeDirs: seq<string>,
    pythonScript: string,
    pythonScriptTargetName: string,
    main: string,
    imports: seq<string>)

  /*************************************************************************
   * Records
   *************************************************************************/

  /** `HermeticStaticLibrary`, and with `kind == Shared` `HermeticSharedLibrary`. */
  class HermeticStaticLibrary {
    const kind: LibraryKind
    var name: string
    var subdir: string
    var dirs: seq<string>
    var visibility: seq<string>
    var srcs: seq<string>
    var generatedHeaders: seq<string>
    var generatedSources: seq<string>
    var deps: seq<string>
    var targetCompatibleWith: seq<string>
    var localIncludeDirs: seq<string>
    var staticLibs: seq<string>
    var wholeStaticLibs: seq<string>
    var sharedLibs: seq<string>
    var headerLibs: seq<string>

    constructor (kind: LibraryKind)
      ensures this.kind == kind && name == "" && subdir == ""
      ensures dirs == [] && visibility == [] && srcs == []
      ensures generatedHeaders == [] && generatedSources == []
      ensures deps == [] && targetCompatibleWith == []
      ensures localIncludeDirs == [] && staticLibs == [] && wholeStaticLibs == []
      ensures sharedLibs == [] && headerLibs == []
    {
      this.kind := kind;
      name, subdir := "", "";
      dirs, visibility, srcs := [], [], [];
      generatedHeaders, generatedSources := [], [];
      deps, targetCompatibleWith := [], [];
      localIncludeDirs, staticLibs, wholeStaticLibs := [], [], [];
      sharedLibs, headerLibs := [], [];
    }

    /**
     * Fills the record from a Meson library. A `SharedLibrary` among the link
     * targets stops the conversion with an error, after the static libraries
     * before it have been recorded.
     */
    method ConvertFromMeson(lib: Library) returns (outcome: Outcome)
      modifies this`name, this`srcs, this`subdir, this`localIncludeDirs
      modifies this`generatedHeaders, this`generatedSources, this`staticLibs
      ensures name == lib.basename && subdir == lib.subdir
      ensures srcs == SourceNames(lib.sources)
      ensures localIncludeDirs == old(localIncludeDirs) + IncludePaths(lib.includeDirs)
      ensures ExtendedBy(old(generatedHeaders), generatedHeaders,
                         AddedHeaders(GeneratedNames(lib.generatedSources), old(generatedHeaders)))
      ensures ExtendedBy(old(generatedSources), generatedSources,
                         AddedSources(GeneratedNames(lib.generatedSources), old(generatedHeaders)))
      ensures var k := FirstShared(lib.linkTargets);
              outcome == (if k < |lib.linkTargets| then Fail(ListNotCallable("shared_libs")) else Pass)
      ensures staticLibs == old(staticLibs) +
                (if outcome.Pass? then StaticNames(lib.linkTargets) + StaticNames(lib.linkWholeTargets)
                 else StaticNames(lib.linkTargets[..FirstShared(lib.linkTargets)]))
    {
      name := lib.basename;
      srcs := SourceNames(lib.sources);
      subdir := lib.subdir;
      AddIncludeDirs(lib.includeDirs);
      ClassifyGenerated(GeneratedNames(lib.generatedSources));
      ghost var before := staticLibs;
      outcome := AddLinks(lib.linkTargets);
      if outcome.Pass? {
        assert lib.linkTargets[..|lib.linkTargets|] == lib.linkTargets;
        ghost var linked := staticLibs;
        assert linked == before + StaticNames(lib.linkTargets);
        AddWholeLinks(lib.linkWholeTargets);
        assert staticLibs == before + (StaticNames(lib.linkTargets) + StaticNames(lib.linkWholeTargets));
      }
    }

    /** The nested loop over include-directory descriptors and their sub-paths. */
    method AddIncludeDirs(includeDirs: seq<IncludeDirs>)
      modifies this`localIncludeDirs
      ensures localIncludeDirs == old(localIncludeDirs) + IncludePaths(includeDirs)
    {
      for i := 0 to |includeDirs|
        invariant localIncludeDirs == old(localIncludeDirs) + IncludePaths(includeDirs[..i])
      {
        var includeDir := includeDirs[i];
        ghost var before := localIncludeDirs;
        for j := 0 to |includeDir.incdirs|
          invariant localIncludeDirs == before + JoinedPaths(includeDir.curdir, includeDir.incdirs[..j])
        {
          JoinedPathsPrefix(includeDir.curdir, includeDir.incdirs, j);
          localIncludeDirs := localIncludeDirs + [includeDir.curdir + "/" + includeDir.incdirs[j]];
        }
        assert includeDir.incdirs[..|includeDir.incdirs|] == includeDir.incdirs;
        IncludePathsPrefix(includeDirs, i);
      }
      assert includeDirs[..|includeDirs|] == includeDirs;
    }

    /**
     * Classifies the de-duplicated generated names, visited in an unspecified
     * order (Python `set` iteration): a `.h` name not yet among the headers
     * goes to the headers, every other name to the sources.
     */
    method ClassifyGenerated(names: set<string>)
      modifies this`generatedHeaders, this`generatedSources
      ensures ExtendedBy(old(generatedHeaders), generatedHeaders, AddedHeaders(names, old(generatedHeaders)))
      ensures ExtendedBy(old(generatedSources), generatedSources, AddedSources(names, old(generatedHeaders)))
    {
      var pending := names;
      ghost var seen: set<string> := {};
      while pending != {}
        invariant pending !! seen && pending + seen == names
        invariant ExtendedBy(old(generatedHeaders), generatedHeaders, AddedHeaders(seen, old(generatedHeaders)))
        invariant ExtendedBy(old(generatedSources), generatedSources, AddedSources(seen, old(generatedHeaders)))
        decreases pending
      {
        var source :| source in pending;
        ghost var headers, sources := AddedHeaders(seen, old(generatedHeaders)), AddedSources(seen, old(generatedHeaders));
        ExtendedByMember(old(generatedHeaders), generatedHeaders, headers, source);
        AddedInsert(seen, old(generatedHeaders), source);
        if IsHeader(source) && source !in generatedHeaders {
          ExtendedBySnoc(old(generatedHeaders), generatedHeaders, headers, source);
          generatedHeaders := generatedHeaders + [source];
        } else {
          ExtendedBySnoc(old(generatedSources), generatedSources, sources, source);
          if IsCSource(source) && source !in generatedSources {
            generatedSources := generatedSources + [source];
          } else {
            generatedSources := generatedSources + [source];
          }
        }
        pending := pending - {source};
        seen := seen + {source};
      }
    }

    /**
     * The ordinary link edges: the `StaticLibrary` entries are appended in
     * order; a `SharedLibrary` fails, because the code calls the
     * `shared_libs` list instead of appending to it.
     */
    method AddLinks(linkTargets: seq<LinkTarget>) returns (outcome: Outcome)
      modifies this`staticLibs
      ensures var k := FirstShared(linkTargets);
              && outcome == (if k < |linkTargets| then Fail(ListNotCallable("shared_libs")) else Pass)
              && staticLibs == old(staticLibs) + StaticNames(linkTargets[..k])
    {
      for k := 0 to |linkTargets|
        invariant staticLibs == old(staticLibs) + StaticNames(linkTargets[..k])
        invariant forall j :: 0 <= j < k ==> !linkTargets[j].SharedLibrary?
      {
        var target := linkTargets[k];
        assert linkTargets[..k + 1] == linkTargets[..k] + [target];
        StaticNamesSnoc(linkTargets[..k], target);
        if target.StaticLibrary? {
          staticLibs := staticLibs + [target.name];
        } else if target.SharedLibrary? {
          assert FirstShared(linkTargets) == k;
          return Fail(ListNotCallable("shared_libs"));
        }
      }
      assert linkTargets[..|linkTargets|] == linkTargets;
      outcome := Pass;
    }

    /** The whole-archive link edges: only `StaticLibrary` entries are recorded. */
    method AddWholeLinks(linkWholeTargets: seq<LinkTarget>)
      modifies this`staticLibs
      ensures staticLibs == old(staticLibs) + StaticNames(linkWholeTargets)
    {
      for k := 0 to |linkWholeTargets|
        invariant staticLibs == old(staticLibs) + StaticNames(linkWholeTargets[..k])
      {
        var target := linkWholeTargets[k];
        assert linkWholeTargets[..k + 1] == linkWholeTargets[..k] + [target];
        StaticNamesSnoc(linkWholeTargets[..k], target);
        if target.StaticLibrary? {
          staticLibs := staticLibs + [target.name];
        }
      }
      assert linkWholeTargets[..|linkWholeTargets|] == linkWholeTargets;
    }
  }

  /** `HermeticCustomTarget` */
  class HermeticCustomTarget {
    var name: string
    var srcs: seq<string>
    var out: seq<string>
    var tools: seq<string>
    var exportIncludeDirs: seq<string>
    var pythonScript: string
    var pythonScriptTargetName: string

    constructor ()
      ensures name == "" && srcs == [] && out == [] && tools == [] && exportIncludeDirs == []
      ensures pythonScript == "" && pythonScriptTargetName == ""
    {
      name, srcs, out, tools, exportIncludeDirs := "", [], [], [], [];
      pythonScript, pythonScriptTargetName := "", "";
    }

    /** A detected script has its tool name among the record's tools. */
    predicate ScriptToolListed()
      reads this
    {
      pythonScript != "" ==> pythonScriptTargetName in tools
    }

    /**
     * Fills the record from a Meson custom target. An input that is not a
     * plain `File` stops the conversion with an error, after the inputs
     * before it have been recorded.
     */
    method ConvertFromMeson(target: CustomTarget) returns (outcome: Outcome)
      modifies this`name, this`srcs, this`out, this`tools, this`exportIncludeDirs
      modifies this`pythonScript, this`pythonScriptTargetName
      ensures name == target.name
      ensures var k := LeadingFiles(target.sources);
              && outcome == (if k < |target.sources| then Fail(UnhandledSourceType(target.sources[k].typeName)) else Pass)
              && srcs == old(srcs) + FileNames(target.sources[..k])
      ensures outcome.Fail? ==>
                && out == old(out) && tools == old(tools) && exportIncludeDirs == old(exportIncludeDirs)
                && pythonScript == old(pythonScript) && pythonScriptTargetName == old(pythonScriptTargetName)
      ensures outcome.Pass? ==>
                && out == old(out) + target.outputs
                && pythonScript == DetectedScript(target.command, srcs + out, old(pythonScript))
                && (if pythonScript != "" then
                      pythonScriptTargetName == ToolName(target.name, pythonScript)
                      && tools == old(tools) + [pythonScriptTargetName]
                    else
                      pythonScriptTargetName == old(pythonScriptTargetName) && tools == old(tools))
                && exportIncludeDirs == old(exportIncludeDirs) + [target.subdir]
                && ScriptToolListed()
    {
      name := target.name;
      outcome := AddSources(target.sources);
      if outcome.Fail? {
        return;
      }
      AddOutputs(target.outputs);
      DetectScript(target.command);
      if pythonScript != "" {
        pythonScriptTargetName := ToolName(name, pythonScript);
        tools := tools + [pythonScriptTargetName];
      }
      exportIncludeDirs := exportIncludeDirs + [target.subdir];
    }

    /** Records the file name of each input; any other kind of input fails. */
    method AddSources(sources: seq<CustomSource>) returns (outcome: Outcome)
      modifies this`srcs
      ensures var k := LeadingFiles(sources);
              && outcome == (if k < |sources| then Fail(UnhandledSourceType(sources[k].typeName)) else Pass)
              && srcs == old(srcs) + FileNames(sources[..k])
    {
      for k := 0 to |sources|
        invariant forall j :: 0 <= j < k ==> sources[j].File?
        invariant srcs == old(srcs) + FileNames(sources[..k])
      {
        assert sources[..k + 1][..k] == sources[..k];
        match sources[k]
        case File(fname) =>
          srcs := srcs + [fname];
        case OtherSource(typeName) =>
          return Fail(UnhandledSourceType(typeName));
      }
      assert sources[..|sources|] == sources;
      outcome := Pass;
    }

    /** Appends the declared outputs, in order. */
    method AddOutputs(outputs: seq<string>)
      modifies this`out
      ensures out == old(out) + outputs
    {
      for k := 0 to |outputs|
        invariant out == old(out) + outputs[..k]
      {
        assert outputs[..k + 1] == outputs[..k] + [outputs[k]];
        out := out + [outputs[k]];
      }
      assert outputs[..|outputs|] == outputs;
    }

    /**
     * Looks for the Python script: the command's first token if it is a `.py`
     * name, otherwise the first `.py` entry of the inputs followed by the
     * outputs. When neither exists the field keeps its value.
     */
    method DetectScript(command: seq<string>)
      modifies this`pythonScript
      ensures pythonScript == DetectedScript(command, srcs + out, old(pythonScript))
    {
      var programArgs := srcs + out;
      if |command| != 0 && IsPythonFile(command[0]) {
        pythonScript := command[0];
      } else {
        var k := 0;
        while k < |programArgs|
          invariant 0 <= k <= |programArgs|
          invariant forall j :: 0 <= j < k ==> !IsPythonFile(programArgs[j])
          invariant pythonScript == old(pythonScript)
        {
          if IsPythonFile(programArgs[k]) {
            pythonScript := programArgs[k];
            break;
          }
          k := k + 1;
        }
      }
    }

    /**
     * `emit_python_target`: no Python target without a detected script;
     * otherwise the target derived from this record.
     */
    function EmitPythonTarget(): (r: Option<PythonTarget>)
      reads this
      ensures r.None? <==> pythonScript == ""
      ensures r.Some? ==> r.value == NewPythonTarget(this)
    {
      if pythonScript == "" then None else Some(NewPythonTarget(this))
    }
  }

  /**
   * `HermeticPythonTarget(custom_target)`: a fresh custom-target record whose
   * entry point, name, Python sources, import directories, outputs and
   * exported include directories come from `ct`.
   */
  function NewPythonTarget(ct: HermeticCustomTarget): (p: PythonTarget)
    reads ct
    ensures p.main == ct.pythonScript && p.name == ct.pythonScriptTargetName
    ensures p.srcs == PythonSources(ct.srcs)
    ensures forall s :: s in p.srcs <==> s in ct.srcs && IsPythonFile(s)
    ensures |p.imports| == |p.srcs|
    ensures forall i :: 0 <= i < |p.srcs| ==> p.imports[i] == Dirname(p.srcs[i])
    ensures p.out == ct.out && p.exportIncludeDirs == ct.exportIncludeDirs
    ensures p.tools == [] && p.pythonScript == "" && p.pythonScriptTargetName == ""
  {
    var py := PythonSources(ct.srcs);
    PythonTarget(
      name := ct.pythonScriptTargetName,
      srcs := py,
      out := ct.out,
      tools := [],
      exportIncludeDirs := ct.exportIncludeDirs,
      pythonScript := "",
      pythonScriptTargetName := "",
      main := ct.pythonScript,
      imports := Dirnames(py))
  }

  /** `HermeticState`: every record and flag list of one conversion run. */
  class HermeticState {
    var sharedLibraries: seq<HermeticStaticLibrary>
    var staticLibraries: seq<HermeticStaticLibrary>
    var customTargets: seq<HermeticCustomTarget>
    var pythonTargets: seq<PythonTarget>
    var conlyflags: seq<string>
    var cppflags: seq<string>
    var cstd: string
    var cppStd: string

    constructor ()
      ensures sharedLibraries == [] && staticLibraries == [] && customTargets == [] && pythonTargets == []
      ensures conlyflags == [] && cppflags == [] && cstd == "" && cppStd == ""
    {
      sharedLibraries, staticLibraries, customTargets, pythonTargets := [], [], [], [];
      conlyflags, cppflags, cstd, cppStd := [], [], "", "";
    }
  }
}

