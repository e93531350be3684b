/**
 * The parts of Meson's build graph that the hermetic conversion reads.
 * Only the attributes the conversion touches are modelled; everything else
 * about Meson's target classes is outside this model.
 */
module MesonBuild {

  /** `mesonbuild.utils.universal.File`, as a library source: only `fname` is read. */
  datatype SourceFile = SourceFile(fname: string)

  /** `build.IncludeDirs`: a base directory and the sub-paths declared under it. */
  datatype IncludeDirs = IncludeDirs(curdir: string, incdirs: seq<string>)

  /** An entry of `get_generated_sources()`: only its `name` is read. */
  datatype GeneratedSource = GeneratedSource(name: string)

  /** An entry of `link_targets` / `link_whole_targets`, by concrete class. */
  datatype LinkTarget =
    | StaticLibrary(name: string)
    | SharedLibrary(name: string)
    | OtherTarget

  /** A `build.StaticLibrary` or `build.SharedLibrary` target. */
  datatype Library = Library(
    basename: string,
    subdir: string,
    sources: seq<SourceFile>,
    includeDirs: seq<IncludeDirs>,
    generatedSources: seq<GeneratedSource>,
    linkTargets: seq<LinkTarget>,
    linkWholeTargets: seq<LinkTarget>)

  /** An input of a custom target: a plain `File`, or some other Meson type. */
  datatype CustomSource =
    | File(fname: string)
    | OtherSource(typeName: string)

  /** A `build.CustomTarget`. */
  datatype CustomTarget = CustomTarget(
    name: string,
    sources: seq<CustomSource>,
    outputs: seq<string>,
    command: seq<string>,
    subdir: string)
}
