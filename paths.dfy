/** Filesystem paths as `str(path)` renders them, and the few path operations the pipeline uses. */
module Paths {

  type Path = string

  /** `dir / name` for a directory and a single path component. */
  function Join(dir: Path, name: string): Path
  {
    dir + "/" + name
  }

  /** `p` lies strictly inside the directory `dir`. */
  predicate Within(p: Path, dir: Path)
  {
    |dir| < |p| && p[..|dir|] == dir && p[|dir|] == '/'
  }

  /** A joined path lies inside its directory and names the component it was joined with. */
  lemma JoinIsWithin(dir: Path, name: string)
    ensures Within(Join(dir, name), dir)
    ensures Join(dir, name)[|dir| + 1..] == name
  {
  }

  /** Two components joined to the same directory give the same path only if they are equal. */
  lemma JoinInjective(dir: Path, a: string, b: string)
    ensures Join(dir, a) == Join(dir, b) <==> a == b
  {
    if Join(dir, a) == Join(dir, b) {
      assert a == Join(dir, a)[|dir| + 1..];
    }
  }

  /**
   * The files left after a directory tree is removed recursively, as the
   * `with tempfile.TemporaryDirectory()` block does on exit.
   */
  function RemoveTree(files: set<Path>, dir: Path): (r: set<Path>)
    ensures r <= files
    ensures dir !in r
    ensures forall p | p in r :: !Within(p, dir)
    ensures forall p | p in files && p != dir && !Within(p, dir) :: p in r
  {
    set p | p in files && p != dir && !Within(p, dir)
  }
}
