/**
 * Two clients of the library conversion: a static library `util`, and a
 * library with a shared link. They rely on the conversion's contract and
 * unfold the specification functions on the concrete inputs.
 */
module HermeticScenarios {
  import opened MesonBuild
  import opened HermeticBuild
  import opened HermeticProperties

  method UtilLibrary() {
    var record := new HermeticStaticLibrary(Static);
    var lib := Library(
      basename := "util",
      subdir := "lib",
      sources := [SourceFile("a.c"), SourceFile("b.c")],
      includeDirs := [IncludeDirs("lib", ["include", "private"])],
      generatedSources := UtilGenerated,
      linkTargets := [StaticLibrary("base")],
      linkWholeTargets := []);
    var outcome := record.ConvertFromMeson(lib);
    assert outcome == Pass;
    assert record.srcs == ["a.c", "b.c"];
    assert record.localIncludeDirs == ["lib/include", "lib/private"] by {
      var paths := JoinedPaths("lib", ["include", "private"]);
      assert paths[0] == "lib/include" && paths[1] == "lib/private";
      assert lib.includeDirs[..0] == [];
      assert IncludePaths(lib.includeDirs) == paths;
    }
    assert record.staticLibs == ["base"] && record.sharedLibs == [];

    UtilGeneratedOutputs(record.generatedHeaders, record.generatedSources);
    assert record.generatedHeaders == ["gen.h"] && record.generatedSources == ["gen.c"];
  }

  /** The generated outputs of `util`: a header listed twice and one C source. */
  const UtilGenerated := [GeneratedSource("gen.h"), GeneratedSource("gen.h"), GeneratedSource("gen.c")]

  /** Classifying `util`'s generated outputs on a fresh record gives one header and one source. */
  lemma UtilGeneratedOutputs(headers: seq<string>, sources: seq<string>)
    requires ExtendedBy([], headers, AddedHeaders(GeneratedNames(UtilGenerated), []))
    requires ExtendedBy([], sources, AddedSources(GeneratedNames(UtilGenerated), []))
    ensures headers == ["gen.h"] && sources == ["gen.c"]
  {
    FreshGeneratedPartition(UtilGenerated, headers, sources);
    assert UtilGenerated[0].name == "gen.h";
    OnlyElement(headers, "gen.h");
    assert UtilGenerated[2].name == "gen.c";
    forall x | x in sources ensures x == "gen.c" {
      assert x != "gen.h";
    }
    OnlyElement(sources, "gen.c");
  }

  /** A duplicate-free sequence that holds `x` and nothing else is `[x]`. */
  lemma OnlyElement(s: seq<string>, x: string)
    requires NoDuplicates(s) && x in s
    requires forall y :: y in s ==> y == x
    ensures s == [x]
  {
    forall j | 0 <= j < |s| ensures s[j] == x && j == 0 {
      assert s[j] in s && s[0] in s;
    }
    assert s[|s| - 1] == x;
  }

  method SharedLinkFails() {
    var record := new HermeticStaticLibrary(Shared);
    var lib := Library("app", "", [], [], [], [StaticLibrary("base"), SharedLibrary("z"), StaticLibrary("m")], []);
    var outcome := record.ConvertFromMeson(lib);
    assert outcome == Fail(ListNotCallable("shared_libs"));
    assert record.staticLibs == ["base"];
  }
}
