/**
 * What the pipeline can observe of the machine it runs on: the paths that exist, and
 * the log of external actions it has taken. External processes are not run; each is
 * given as the outcome it had.
 */
module Host {
  import opened Wrappers
  import opened Paths
  import opened Graph
  import opened Errors

  /** How an external process ended: not found on PATH, or exited with a code and combined output. */
  datatype Proc = NotOnPath | Exited(code: int, output: string, wrote: set<Path>)

  datatype Event =
    | MadeTempDir(dir: Path)
    | Exec(args: seq<string>)      // a launch attempted with this argument list
    | RanGraph(job: OutputNode)    // the filter graph handed to ffmpeg
    | RemovedTempDir(dir: Path)

  datatype World = World(files: set<Path>, log: seq<Event>)

  /** The world after a pipeline step, and the exception it raised, if any. */
  datatype StageResult = StageResult(world: World, err: Option<Error>)

  /** The files a process left behind. */
  function Wrote(p: Proc): set<Path>
  {
    if p.Exited? then p.wrote else {}
  }
}
