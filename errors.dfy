/**
 * The exceptions the pipeline raises, the Python class each is raised as, and the text
 * of the messages the stage runners compose.
 */
module Errors {
  import opened Wrappers
  import opened Paths

  /** The two external converters run by the stage runners. */
  datatype Tool = Abc2Midi | Fluidsynth

  datatype ExceptionClass = FileNotFoundError | ValueError | RuntimeError | FfmpegError

  datatype Error =
    | AbcFileNotFound(path: Path)
    | MidiFileNotFound(path: Path)
    | SoundFontNotFound(path: Path)
    | DryWavNotFound(path: Path)
    | UnknownOutputPreset(name: string)
    | UnknownReverbType(rtype: Option<string>)
    | ImpulseNameMissing(preset: string)
    | ImpulseResponseNotFound(preset: string, path: Path)
    | ToolNotInstalled(tool: Tool)
    | ToolFailed(tool: Tool, command: seq<string>, exitCode: int, output: string)
    | EngineNotFound                  // ffmpeg itself is not on PATH
    | EngineFailed(exitCode: int)     // ffmpeg exited non-zero

  function ClassOf(e: Error): ExceptionClass
  {
    match e
    case AbcFileNotFound(_) => FileNotFoundError
    case MidiFileNotFound(_) => FileNotFoundError
    case SoundFontNotFound(_) => FileNotFoundError
    case DryWavNotFound(_) => FileNotFoundError
    case UnknownOutputPreset(_) => ValueError
    case UnknownReverbType(_) => ValueError
    case ImpulseNameMissing(_) => ValueError
    case ImpulseResponseNotFound(_, _) => FileNotFoundError
    case ToolNotInstalled(_) => RuntimeError
    case ToolFailed(_, _, _, _) => RuntimeError
    case EngineNotFound => FileNotFoundError
    case EngineFailed(_) => FfmpegError
  }

  /** The Debian package that provides a tool. */
  function Package(tool: Tool): string
  {
    match tool
    case Abc2Midi => "abcmidi"
    case Fluidsynth => "fluidsynth"
  }

  // ---------------------------------------------------------------------------
  // Decimal rendering of exit codes, as f"{code}" prints an int
  // ---------------------------------------------------------------------------

  predicate IsDigit(c: char)
  {
    '0' <= c <= '9'
  }

  predicate AllDigits(s: string)
  {
    forall i | 0 <= i < |s| :: IsDigit(s[i])
  }

  function DigitChar(d: nat): char
    requires d < 10
  {
    "0123456789"[d]
  }

  /** The decimal digits of `n`, most significant first, with no leading zero. */
  function NatDigits(n: nat): (s: string)
    ensures |s| > 0 && AllDigits(s)
    ensures |s| > 1 ==> s[0] != '0'
    decreases n
  {
    if n < 10 then [DigitChar(n)] else NatDigits(n / 10) + [DigitChar(n % 10)]
  }

  /** The number a string of digits denotes. */
  function DigitsValue(s: string): nat
    requires AllDigits(s)
  {
    if s == [] then 0 else DigitsValue(s[..|s| - 1]) * 10 + (s[|s| - 1] as int - '0' as int)
  }

  /** Python `str(n)` for an int. */
  function Decimal(n: int): string
  {
    if n < 0 then "-" + NatDigits(-n) else NatDigits(n)
  }

  /** Reads back a decimal integer with an optional leading minus sign. */
  function ParseDecimal(s: string): Option<int>
  {
    if |s| > 0 && s[0] == '-' then
      if |s| > 1 && AllDigits(s[1..]) then Some(0 - DigitsValue(s[1..])) else None
    else if |s| > 0 && AllDigits(s) then Some(DigitsValue(s) as int)
    else None
  }

  lemma {:induction false} NatDigitsValue(n: nat)
    ensures DigitsValue(NatDigits(n)) == n
    decreases n
  {
    var s := NatDigits(n);
    if n >= 10 {
      NatDigitsValue(n / 10);
      assert s[..|s| - 1] == NatDigits(n / 10);
    }
  }

  /** The exit code printed in a failure message reads back as exactly that code. */
  lemma DecimalRoundTrip(n: int)
    ensures ParseDecimal(Decimal(n)) == Some(n)
  {
    if n < 0 {
      var d := NatDigits(-n);
      NatDigitsValue(-n);
      assert Decimal(n) == "-" + d;
      assert ("-" + d)[1..] == d;
    } else {
      var d := NatDigits(n);
      NatDigitsValue(n);
      assert IsDigit(d[0]);
    }
  }

  // ---------------------------------------------------------------------------
  // Message text
  // ---------------------------------------------------------------------------

  /** Python `sep.join(parts)`. */
  function JoinWith(parts: seq<string>, sep: string): string
  {
    if |parts| == 0 then ""
    else if |parts| == 1 then parts[0]
    else parts[0] + sep + JoinWith(parts[1..], sep)
  }

  /** The first line of a stage-failure report. */
  function Headline(tool: Tool): string
  {
    match tool
    case Abc2Midi => "abc2midi failed while converting ABC to MIDI."
    case Fluidsynth => "fluidsynth failed while converting MIDI to WAV."
  }

  /** The RuntimeError text for a tool that exited non-zero. */
  function FailureReport(tool: Tool, command: seq<string>, exitCode: int, output: string): string
  {
    Headline(tool) + CommandPart(command) + ExitCodeAndOutput(exitCode, output)
  }

  /** The blank line and the command line of a failure report. */
  function CommandPart(command: seq<string>): string
  {
    "\n\nCommand: " + JoinWith(command, " ")
  }

  /** The last two parts of a failure report: the exit code line and the captured output. */
  function ExitCodeAndOutput(exitCode: int, output: string): string
  {
    "\nExit code: " + Decimal(exitCode) + "\nOutput:\n" + output
  }

  lemma ConcatParts<T>(a: seq<T>, b: seq<T>)
    ensures (a + b)[..|a|] == a && (a + b)[|a|..] == b
  {
  }

  lemma ConcatEnds<T>(a: seq<T>, b: seq<T>, c: seq<T>)
    ensures |a| <= |a + b + c| && (a + b + c)[..|a|] == a
    ensures |c| <= |a + b + c| && (a + b + c)[|a + b + c| - |c|..] == c
  {
    ConcatParts(a + b, c);
    ConcatParts(a, b + c);
    assert a + b + c == a + (b + c);
  }

  /**
   * A failure report begins with the tool's headline and ends with the exit-code line
   * followed by the captured output, verbatim.
   */
  lemma FailureReportCarriesDiagnostics(tool: Tool, command: seq<string>, exitCode: int, output: string)
    ensures var m := FailureReport(tool, command, exitCode, output);
      var head := Headline(tool);
      var tail := "\nExit code: " + Decimal(exitCode) + "\nOutput:\n" + output;
      && |head| <= |m| && m[..|head|] == head
      && |tail| <= |m| && m[|m| - |tail|..] == tail
  {
    ConcatEnds(Headline(tool), CommandPart(command), ExitCodeAndOutput(exitCode, output));
  }

  /** The first line of an install hint, naming the missing tool. */
  function NotInstalledLine(tool: Tool): string
  {
    match tool
    case Abc2Midi => "abc2midi (from the abcmidi package) is not installed or not on PATH.\n"
    case Fluidsynth => "fluidsynth is not installed or not on PATH.\n"
  }

  /** The RuntimeError text for a tool that is not on PATH. */
  function InstallHint(tool: Tool): string
  {
    NotInstalledLine(tool) + "On Debian/Ubuntu, install it with:\n\n    " + InstallCommand(tool)
  }

  function InstallCommand(tool: Tool): string
  {
    "sudo apt-get install " + Package(tool) + "\n"
  }

  /** The install hint ends with the command that installs the tool's package. */
  lemma InstallHintNamesPackage(tool: Tool)
    ensures var m := InstallHint(tool);
      var cmd := "sudo apt-get install " + Package(tool) + "\n";
      |cmd| <= |m| && m[|m| - |cmd|..] == cmd
  {
    ConcatParts(NotInstalledLine(tool) + "On Debian/Ubuntu, install it with:\n\n    ", InstallCommand(tool));
  }

  /** Errors whose text the pipeline composes itself (ffmpeg's own errors come from its library). */
  predicate ComposedByPipeline(e: Error)
  {
    !e.EngineNotFound? && !e.EngineFailed?
  }

  /** What the missing-SoundFont message tells the user to do, after the path. */
  const SOUNDFONT_ADVICE: string :=
    "\n\nMake sure the YDP Grand Piano SF2 has been downloaded "
    + "into the resources/ directory or bundled with the app."

  /** str(e) for each exception the pipeline raises. */
  function Message(e: Error): (m: string)
    requires ComposedByPipeline(e)
    ensures e.ToolNotInstalled? ==> m == InstallHint(e.tool)
    ensures e.ToolFailed? ==> m == FailureReport(e.tool, e.command, e.exitCode, e.output)
    ensures e.UnknownOutputPreset? ==> |e.name| <= |m| && m[|m| - |e.name|..] == e.name
    ensures e.SoundFontNotFound? ==>
      var head := "SoundFont not found: " + e.path;
      |head| <= |m| && m[..|head|] == head
  {
    match e
    case AbcFileNotFound(p) => "ABC file not found: " + p
    case MidiFileNotFound(p) => "MIDI file not found: " + p
    case SoundFontNotFound(p) => "SoundFont not found: " + p + SOUNDFONT_ADVICE
    case DryWavNotFound(p) => "Dry WAV not found: " + p
    case UnknownOutputPreset(n) => "Unknown output preset: " + n
    case UnknownReverbType(t) => "Unknown reverb preset type: " + (if t.None? then "None" else "'" + t.value + "'")
    case ImpulseNameMissing(n) => "AFIR preset '" + n + "' is missing 'impulse'"
    case ImpulseResponseNotFound(n, p) => "Impulse response not found for preset '" + n + "': " + p
    case ToolNotInstalled(tool) => InstallHint(tool)
    case ToolFailed(tool, cmd, code, out) => FailureReport(tool, cmd, code, out)
  }

  /** A missing-file message ends with the path that was not found. */
  lemma MissingFileMessageNamesPath(e: Error)
    requires e.AbcFileNotFound? || e.MidiFileNotFound? || e.DryWavNotFound? || e.ImpulseResponseNotFound?
    ensures var m := Message(e);
      |e.path| <= |m| && m[|m| - |e.path|..] == e.path
  {
  }
}
