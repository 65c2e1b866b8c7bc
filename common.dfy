/** Values shared by every part of the model: optional values, the fatal-error
    outcome of the tool's logger, and an abstract file system. */
module Common {

  datatype Option<+T> = None | Some(value: T)

  /** A computation that yields a value, or ends the whole tool through the
      logger's fatal path (an error message followed by a non-zero exit), or
      ends it with an uncaught Python exception of the named class. */
  datatype Result<+T> = Ok(value: T) | Fatal(message: string) | Raised(exception: string)

  /** The part of the file system the tool looks at: the directories that
      exist and the text of the regular files that exist. */
  datatype FileSystem = FileSystem(dirs: set<string>, files: map<string, string>)
  {
    /** `Path.exists()`: true for a directory as well as for a file. */
    predicate Exists(path: string) {
      path in dirs || path in files
    }
  }

  /** `base / segment` for a relative segment: the segment is appended after one
      separator. Path normalisation is not modelled. */
  function Join(base: string, segment: string): (r: string)
    ensures |r| == |base| + 1 + |segment|
    ensures r[..|base|] == base && r[|base|] == '/' && r[|base| + 1..] == segment
  {
    base + "/" + segment
  }

  /** The position just after the last separator of `path` (0 when there is none). */
  function AfterLastSeparator(path: string): (k: nat)
    ensures k <= |path|
    ensures '/' !in path[k..]
    ensures k > 0 ==> path[k - 1] == '/'
    decreases |path|
  {
    if path == [] then 0
    else if path[|path| - 1] == '/' then |path|
    else
      var k := AfterLastSeparator(path[..|path| - 1]);
      assert path[k..] == path[..|path| - 1][k..] + [path[|path| - 1]];
      k
  }

  /** `Path(p).name`: the text after the last separator (all of `p` when there is none). */
  function Basename(path: string): (r: string)
    ensures '/' !in r
    ensures |r| <= |path| && r == path[|path| - |r|..]
    ensures |r| < |path| ==> path[|path| - |r| - 1] == '/'
  {
    path[AfterLastSeparator(path)..]
  }

  /** Concatenation regroups freely. */
  lemma AppendAssoc<T>(a: seq<T>, b: seq<T>, c: seq<T>)
    ensures a + (b + c) == (a + b) + c
  {
  }
}
