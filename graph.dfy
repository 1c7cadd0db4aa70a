/**
 * The ffmpeg-python filter graph as the reverb compiler builds it: audio streams that
 * name their upstream filters, and the terminal output node with its encoder options.
 * ffmpeg-python identifies nodes by their label, arguments and upstream edges, so two
 * equal terms denote the same node; `Nodes` collects the distinct nodes of a graph.
 */
module Graph {
  import opened Paths

  /** amix "weights": the first input's weight, then the second's. */
  datatype Weights = Weights(first: real, second: real)

  datatype Stream =
    | Input(file: Path)                                              // ffmpeg.input(file).audio
    | SplitOutput(splitter: Splitter, index: nat)                    // the index-th output of an asplit
    | Afir(main: Stream, impulse: Stream, dry: real, wet: real)      // afir over [main, impulse]
    | Amix(first: Stream, second: Stream, inputs: nat, weights: Weights)
    | Volume(source: Stream, gain: real)
    | Alimiter(source: Stream)

  /** `source.filter_multi_output("asplit", outputs)`. */
  datatype Splitter = ASplit(source: Stream, outputs: nat)

  /** `stream.output(path, **options)`, with `.overwrite_output()` recorded as `overwrite`. */
  datatype OutputNode = Output(source: Stream, path: Path, options: map<string, string>, overwrite: bool)

  /** A node of the graph: an input file, a splitter, or a single-output filter. */
  datatype Node = InputNode(file: Path) | SplitNode(splitter: Splitter) | FilterNode(stream: Stream)

  datatype Kind = KInput | KASplit | KAfir | KAmix | KVolume | KAlimiter

  function KindOf(n: Node): Kind
  {
    match n
    case InputNode(_) => KInput
    case SplitNode(_) => KASplit
    case FilterNode(s) =>
      match s
      case Input(_) => KInput
      case SplitOutput(_, _) => KASplit
      case Afir(_, _, _, _) => KAfir
      case Amix(_, _, _, _) => KAmix
      case Volume(_, _) => KVolume
      case Alimiter(_) => KAlimiter
  }

  /** The distinct nodes upstream of (and including) the filter producing `s`. */
  function Nodes(s: Stream): set<Node>
  {
    match s
    case Input(f) => {InputNode(f)}
    case SplitOutput(sp, _) => {SplitNode(sp)} + Nodes(sp.source)
    case Afir(m, ir, _, _) => {FilterNode(s)} + Nodes(m) + Nodes(ir)
    case Amix(a, b, _, _) => {FilterNode(s)} + Nodes(a) + Nodes(b)
    case Volume(src, _) => {FilterNode(s)} + Nodes(src)
    case Alimiter(src) => {FilterNode(s)} + Nodes(src)
  }

  /** The nodes of one kind. */
  function OfKind(ns: set<Node>, k: Kind): set<Node>
  {
    set n | n in ns && KindOf(n) == k
  }

  /** The files read by the graph; every stream is fed by at least one input file. */
  function Sources(s: Stream): (r: set<Path>)
    ensures r != {}
  {
    match s
    case Input(f) => {f}
    case SplitOutput(sp, _) => Sources(sp.source)
    case Afir(m, ir, _, _) => Sources(m) + Sources(ir)
    case Amix(a, b, _, _) => Sources(a) + Sources(b)
    case Volume(src, _) => Sources(src)
    case Alimiter(src) => Sources(src)
  }

  /** The source files are exactly the input nodes of the graph. */
  lemma {:induction false} SourcesAreInputNodes(s: Stream)
    ensures forall f :: f in Sources(s) <==> InputNode(f) in Nodes(s)
  {
    match s
    case Input(f) =>
    case SplitOutput(sp, _) =>
      SourcesAreInputNodes(sp.source);
    case Afir(m, ir, _, _) =>
      SourcesAreInputNodes(m);
      SourcesAreInputNodes(ir);
    case Amix(a, b, _, _) =>
      SourcesAreInputNodes(a);
      SourcesAreInputNodes(b);
    case Volume(src, _) =>
      SourcesAreInputNodes(src);
    case Alimiter(src) =>
      SourcesAreInputNodes(src);
  }

  /**
   * Every edge is connected as the filter expects: a splitter output exists, and an amix
   * declares as many inputs as it is given.
   */
  predicate WellFormed(s: Stream)
  {
    match s
    case Input(_) => true
    case SplitOutput(sp, i) => i < sp.outputs && WellFormed(sp.source)
    case Afir(m, ir, _, _) => WellFormed(m) && WellFormed(ir)
    case Amix(a, b, n, _) => n == 2 && WellFormed(a) && WellFormed(b)
    case Volume(src, _) => WellFormed(src)
    case Alimiter(src) => WellFormed(src)
  }
}
