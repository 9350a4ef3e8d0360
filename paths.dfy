/**
 * Absolute file-system paths as sequences of segments, the parts of Node's
 * `path` module the loader uses, and the file system as an abstract value:
 * the set of existing directories and the contents of every existing file.
 */
module Paths {

  /** An absolute, normalised path: `/a/b/c` is `["a", "b", "c"]`, the root is `[]`. */
  type Path = seq<string>

  /** `path.basename`: the last segment, or `""` for the root. */
  function Basename(p: Path): string
  {
    if p == [] then "" else p[|p| - 1]
  }

  /** `path.dirname`, which is also `path.resolve(p, '..')`: the root is its own parent. */
  function Dirname(p: Path): Path
  {
    if p == [] then [] else p[..|p| - 1]
  }

  /** What `fs.statSync` can see: a file (with its contents) or a directory. */
  datatype FileSystem = FileSystem(files: map<Path, string>, dirs: set<Path>)
  {
    /** `fileExists` (lib/plugin.js): the path names a regular file. */
    predicate IsFile(p: Path)
    {
      p in files
    }

    /** `dirExists` (lib/plugin.js): the path names a directory. */
    predicate IsDir(p: Path)
    {
      p in dirs
    }

    /** `fs.statSync(p)` does not throw: something exists at `p`. */
    predicate Exists(p: Path)
    {
      IsFile(p) || IsDir(p)
    }
  }
}
