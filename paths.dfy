/**
 * pathlib paths, as the test-tree builder uses them: an absolute path is the
 * sequence of its segments below the root, so `/a/b` is ["a", "b"] and the
 * root `/` is [].
 */
module Paths {

  import opened Wrappers

  type Path = seq<string>

  /** `Path.parent`: the root is its own parent, as in pathlib. */
  function Parent(p: Path): (r: Path)
    ensures p == [] ==> r == []
    ensures p != [] ==> |r| == |p| - 1 && StrictPrefix(r, p)
  {
    if p == [] then p else p[..|p| - 1]
  }

  /** `Path.name`: the last segment, or "" for the root. */
  function Name(p: Path): string
  {
    if p == [] then "" else p[|p| - 1]
  }

  /** `os.fspath(p)` / `str(p)` for an absolute POSIX path. */
  function PathStr(p: Path): (r: string)
    ensures |r| > 0 && r[0] == '/'
  {
    if p == [] then "/" else Slashed(p)
  }

  function Slashed(p: Path): (r: string)
    requires p != []
    ensures |r| > 0 && r[0] == '/'
  {
    if |p| == 1 then "/" + p[0] else Slashed(p[..|p| - 1]) + "/" + p[|p| - 1]
  }
}
