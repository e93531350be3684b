/**
 * Properties of the normalisation engine that relate several of its
 * specification functions, or that specialise the conversion contracts to a
 * freshly constructed record (every list empty, no script recorded).
 */
module HermeticProperties {
  import opened Paths
  import opened MesonBuild
  import opened HermeticBuild

  /*************************************************************************
   * Include directories
   *************************************************************************/

  /** Descriptor `curdir` with sub-path `dirs[j]` contributes `curdir + "/" + dirs[j]`, at position `j`. */
  lemma {:induction false} JoinedPathsAt(curdir: string, dirs: seq<string>, j: nat)
    requires j < |dirs|
    ensures JoinedPaths(curdir, dirs)[j] == curdir + "/" + dirs[j]
  {
    var init := dirs[..|dirs| - 1];
    if j < |dirs| - 1 {
      JoinedPathsAt(curdir, init, j);
    }
  }

  /** The number of pairs contributed by the first `k` descriptors. */
  lemma {:induction false} IncdirCountPrefix(incs: seq<IncludeDirs>, k: nat)
    requires k < |incs|
    ensures IncdirCount(incs[..k]) + |incs[k].incdirs| <= IncdirCount(incs)
  {
    var init := incs[..|incs| - 1];
    if k < |incs| - 1 {
      IncdirCountPrefix(init, k);
      assert init[..k] == incs[..k];
    } else {
      assert init == incs[..k];
    }
  }

  /**
   * Nested-loop order: the entry for sub-path `j` of descriptor `k` sits at
   * the number of pairs before descriptor `k`, plus `j`, and it is
   * `curdir + "/" + dir`.
   */
  lemma {:induction false} IncludePathsAt(incs: seq<IncludeDirs>, k: nat, j: nat)
    requires k < |incs| && j < |incs[k].incdirs|
    ensures IncdirCount(incs[..k]) + j < |IncludePaths(incs)|
    ensures IncludePaths(incs)[IncdirCount(incs[..k]) + j] == incs[k].curdir + "/" + incs[k].incdirs[j]
  {
    IncdirCountPrefix(incs, k);
    var init := incs[..|incs| - 1];
    var last := incs[|incs| - 1];
    assert IncludePaths(incs) == IncludePaths(init) + JoinedPaths(last.curdir, last.incdirs);
    if k < |incs| - 1 {
      IncludePathsAt(init, k, j);
      assert init[..k] == incs[..k];
    } else {
      assert init == incs[..k];
      JoinedPathsAt(last.curdir, last.incdirs, j);
    }
  }

  /** Conversion of several descriptor lists in turn is conversion of their concatenation. */
  lemma {:induction false} IncludePathsAppend(a: seq<IncludeDirs>, b: seq<IncludeDirs>)
    ensures IncludePaths(a + b) == IncludePaths(a) + IncludePaths(b)
    decreases |b|
  {
    if b != [] {
      var init := b[..|b| - 1];
      assert (a + b)[..|a + b| - 1] == a + init;
      IncludePathsAppend(a, init);
    } else {
      assert a + b == a;
    }
  }

  /*************************************************************************
   * Generated outputs
   *************************************************************************/

  /** A sequence holding each element of a set once has no duplicates and the set's members. */
  lemma MultisetOfSet(s: seq<string>, t: set<string>)
    requires multiset(s) == multiset(t)
    ensures NoDuplicates(s)
    ensures forall x :: x in s <==> x in t
  {
    forall x ensures x in s <==> x in t {
      assert x in s <==> x in multiset(s);
    }
    forall i, j | 0 <= i < j < |s| ensures s[i] != s[j] {
      assert s == s[..j] + s[j..];
      assert multiset(s) == multiset(s[..j]) + multiset(s[j..]);
      assert s[i] in multiset(s[..j]) && s[j] in multiset(s[j..]);
      assert multiset(s)[s[i]] <= 1;
    }
  }

  /**
   * On a fresh record, classification partitions the distinct generated
   * names: the headers are exactly the distinct `.h` names, the sources
   * exactly the distinct other names (extension-less ones included), neither
   * list repeats a name and no name is in both.
   */
  lemma FreshGeneratedPartition(generated: seq<GeneratedSource>, headers: seq<string>, sources: seq<string>)
    requires ExtendedBy([], headers, AddedHeaders(GeneratedNames(generated), []))
    requires ExtendedBy([], sources, AddedSources(GeneratedNames(generated), []))
    ensures NoDuplicates(headers) && NoDuplicates(sources)
    ensures forall x :: x in headers ==> x !in sources
    ensures forall x :: x in headers <==> (exists g :: g in generated && g.name == x) && IsHeader(x)
    ensures forall x :: x in sources <==> (exists g :: g in generated && g.name == x) && !IsHeader(x)
  {
    assert headers[0..] == headers && sources[0..] == sources;
    MultisetOfSet(headers, AddedHeaders(GeneratedNames(generated), []));
    MultisetOfSet(sources, AddedSources(GeneratedNames(generated), []));
  }

  /*************************************************************************
   * Link edges
   *************************************************************************/

  /** Link names of consecutive lists come out in list order. */
  lemma {:induction false} StaticNamesAppend(a: seq<LinkTarget>, b: seq<LinkTarget>)
    ensures StaticNames(a + b) == StaticNames(a) + StaticNames(b)
    decreases |b|
  {
    if b == [] {
      assert a + b == a;
    } else {
      var init, t := b[..|b| - 1], b[|b| - 1];
      assert a + b == (a + init) + [t];
      assert b == init + [t];
      StaticNamesSnoc(a + init, t);
      StaticNamesSnoc(init, t);
      StaticNamesAppend(a, init);
    }
  }

  /** A name is recorded iff a `StaticLibrary` of that name is linked. */
  lemma {:induction false} StaticNamesMembers(targets: seq<LinkTarget>)
    ensures forall n :: n in StaticNames(targets) <==> StaticLibrary(n) in targets
  {
    if targets != [] {
      var init, t := targets[..|targets| - 1], targets[|targets| - 1];
      assert targets == init + [t];
      StaticNamesMembers(init);
      StaticNamesSnoc(init, t);
    }
  }

  /** Without a `StaticLibrary` entry no name is recorded, whatever else the list holds. */
  lemma {:induction false} StaticNamesNone(targets: seq<LinkTarget>)
    requires forall i :: 0 <= i < |targets| ==> !targets[i].StaticLibrary?
    ensures StaticNames(targets) == []
  {
    if targets != [] {
      var init := targets[..|targets| - 1];
      assert targets == init + [targets[|targets| - 1]];
      StaticNamesNone(init);
      StaticNamesSnoc(init, targets[|targets| - 1]);
    }
  }

  /*************************************************************************
   * Script detection and tool names
   *************************************************************************/

  /**
   * On a fresh record the script is the command's first token when that is a
   * `.py` name, whatever the inputs and outputs; otherwise the first `.py`
   * entry of `args` (inputs followed by outputs); otherwise there is none.
   */
  lemma ScriptPrecedence(command: seq<string>, args: seq<string>)
    ensures |command| != 0 && IsPythonFile(command[0]) ==> DetectedScript(command, args, "") == command[0]
    ensures !(|command| != 0 && IsPythonFile(command[0])) ==>
              (DetectedScript(command, args, "") == "" <==> forall a :: a in args ==> !IsPythonFile(a))
    ensures !(|command| != 0 && IsPythonFile(command[0])) && DetectedScript(command, args, "") != "" ==>
              exists k :: 0 <= k < |args| && args[k] == DetectedScript(command, args, "")
                          && forall j :: 0 <= j < k ==> !IsPythonFile(args[j])
  {
    var k := FirstPythonFile(args);
    if k < |args| {
      assert args[k] != "";
    }
  }

  /**
   * Within one target, two scripts get the same tool name exactly when they
   * have the same base name: the directory part of a script never reaches
   * the tool name.
   */
  lemma ToolNameDeterminesBasename(targetName: string, a: string, b: string)
    ensures ToolName(targetName, a) == ToolName(targetName, b) <==> Basename(a) == Basename(b)
  {
    var ta, tb := ToolName(targetName, a), ToolName(targetName, b);
    if ta == tb {
      assert Basename(a) == ta[|targetName| + 1..] == tb[|targetName| + 1..] == Basename(b);
    }
  }

  /*************************************************************************
   * Python-target derivation
   *************************************************************************/

  /** The Python sources keep the order of the custom target's inputs. */
  lemma {:induction false} PythonSourcesAppend(a: seq<string>, b: seq<string>)
    ensures PythonSources(a + b) == PythonSources(a) + PythonSources(b)
    decreases |b|
  {
    if b == [] {
      assert a + b == a;
    } else {
      var init, t := b[..|b| - 1], b[|b| - 1];
      assert (a + b)[..|a + b| - 1] == a + init;
      assert b[..|b| - 1] == init;
      PythonSourcesAppend(a, init);
    }
  }

  /** Every `.py` input is kept, duplicates included, when all inputs are `.py` names. */
  lemma {:induction false} PythonSourcesKeepsAll(srcs: seq<string>)
    requires forall i :: 0 <= i < |srcs| ==> IsPythonFile(srcs[i])
    ensures PythonSources(srcs) == srcs
  {
    if srcs != [] {
      var init := srcs[..|srcs| - 1];
      assert srcs == init + [srcs[|srcs| - 1]];
      PythonSourcesKeepsAll(init);
    }
  }

  /**
   * A record with a detected script whose tool is listed yields a Python
   * target named by that tool; one without a script yields none.
   */
  lemma EmittedTargetIsListedTool(ct: HermeticCustomTarget)
    requires ct.ScriptToolListed()
    ensures ct.EmitPythonTarget().Some? ==> ct.EmitPythonTarget().value.name in ct.tools
    ensures ct.pythonScript == "" ==> ct.EmitPythonTarget() == None
  {
  }
}
