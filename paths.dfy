/**
 * The string and path helpers the normalisation engine relies on: Python's
 * `str.endswith` and `os.path.basename` / `os.path.dirname`, with a path
 * split at its last '/'.
 */
module Paths {

  /** `s.endswith(suffix)` */
  predicate EndsWith(s: string, suffix: string) {
    |suffix| <= |s| && s[|s| - |suffix|..] == suffix
  }

  /** A name the engine treats as an interpreted (Python) script. */
  predicate IsPythonFile(s: string) {
    EndsWith(s, ".py")
  }

  /** Index of the last '/' in `path`, or -1 when there is none. */
  function LastSlash(path: string): (i: int)
    ensures -1 <= i < |path|
    ensures 0 <= i ==> path[i] == '/'
    ensures forall j :: i < j < |path| ==> path[j] != '/'
  {
    if |path| == 0 then -1
    else if path[|path| - 1] == '/' then |path| - 1
    else LastSlash(path[..|path| - 1])
  }

  /** Nothing after position `i` is a '/', so the text after `i` holds none. */
  lemma NoSlashAfter(path: string, i: int)
    requires -1 <= i < |path|
    requires forall j :: i < j < |path| ==> path[j] != '/'
    ensures '/' !in path[i + 1..]
  {
    var after := path[i + 1..];
    forall k | 0 <= k < |after| ensures after[k] != '/' {
      assert after[k] == path[i + 1 + k];
    }
  }

  /** `os.path.basename`: everything after the last '/'. */
  function Basename(path: string): (base: string)
    ensures '/' !in base
    ensures |base| <= |path| && path[|path| - |base|..] == base
    ensures '/' !in path ==> base == path
  {
    var i := LastSlash(path);
    NoSlashAfter(path, i);
    path[i + 1..]
  }

  /** `os.path.dirname`: everything before the last '/'. */
  function Dirname(path: string): (dir: string)
    ensures '/' in path ==> dir + "/" + Basename(path) == path
    ensures '/' !in path ==> dir == ""
    ensures |dir| < |path| || path == ""
  {
    var i := LastSlash(path);
    if i < 0 then "" else path[..i]
  }

  /**
   * A suffix without '/' survives `Basename`: the base name of a `.py` path
   * is itself a `.py` name.
   */
  lemma BasenameKeepsSuffix(path: string, suffix: string)
    requires EndsWith(path, suffix)
    requires '/' !in suffix
    ensures EndsWith(Basename(path), suffix)
  {
    var start := |path| - |suffix|;
    assert Basename(path)[|Basename(path)| - |suffix|..] == path[start..];
  }
}
