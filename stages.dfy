/** The two stage runners: abc_to_midi and midi_to_wav. */
module Stages {
  import opened Wrappers
  import opened Paths
  import opened Errors
  import opened Host

  /** `abc2midi infile.abc -o outfile.mid`. */
  function Abc2MidiCommand(abc: Path, midi: Path): seq<string>
  {
    ["abc2midi", abc, "-o", midi]
  }

  /** fluidsynth rendering at 44100 Hz, gain 0.8, no shell, no MIDI device, WAV file type. */
  function FluidsynthCommand(midi: Path, wav: Path, soundFont: Path): seq<string>
  {
    ["fluidsynth", "-F", wav, "-r", "44100", "-g", "0.8", "-i", "-n", "-T", "wav", soundFont, midi]
  }

  /**
   * `subprocess.run(args, check=True, ...)` wrapped in the two except clauses every stage
   * uses: a missing executable becomes a RuntimeError with an install hint, a non-zero exit
   * a RuntimeError carrying the command, the exit code and the captured output.
   */
  function RunTool(w: World, tool: Tool, args: seq<string>, p: Proc): (r: StageResult)
    ensures r.world == World(w.files + Wrote(p), w.log + [Exec(args)])
    ensures p.NotOnPath? ==> r.err == Some(ToolNotInstalled(tool))
    ensures p.Exited? ==> (r.err.None? <==> p.code == 0)
    ensures p.Exited? && p.code != 0 ==> r.err == Some(ToolFailed(tool, args, p.code, p.output))
    ensures r.err.Some? ==> ClassOf(r.err.value) == RuntimeError
  {
    var w' := World(w.files + Wrote(p), w.log + [Exec(args)]);
    match p
    case NotOnPath => StageResult(w', Some(ToolNotInstalled(tool)))
    case Exited(code, output, _) =>
      if code == 0 then StageResult(w', None) else StageResult(w', Some(ToolFailed(tool, args, code, output)))
  }

  /** abc_to_midi: checks the ABC file before spawning abc2midi. */
  function AbcToMidi(w: World, abc: Path, midi: Path, p: Proc): (r: StageResult)
    ensures abc !in w.files ==> r == StageResult(w, Some(AbcFileNotFound(abc)))
    ensures abc in w.files ==> r == RunTool(w, Abc2Midi, ["abc2midi", abc, "-o", midi], p)
  {
    if abc !in w.files then StageResult(w, Some(AbcFileNotFound(abc)))
    else RunTool(w, Abc2Midi, Abc2MidiCommand(abc, midi), p)
  }

  /** midi_to_wav: checks the MIDI file, then the SoundFont, before spawning fluidsynth. */
  function MidiToWav(w: World, midi: Path, wav: Path, soundFont: Path, p: Proc): (r: StageResult)
    ensures midi !in w.files ==> r == StageResult(w, Some(MidiFileNotFound(midi)))
    ensures midi in w.files && soundFont !in w.files ==> r == StageResult(w, Some(SoundFontNotFound(soundFont)))
    ensures midi in w.files && soundFont in w.files ==>
              r == RunTool(w, Fluidsynth,
                           ["fluidsynth", "-F", wav, "-r", "44100", "-g", "0.8", "-i", "-n", "-T", "wav", soundFont, midi], p)
  {
    if midi !in w.files then StageResult(w, Some(MidiFileNotFound(midi)))
    else if soundFont !in w.files then StageResult(w, Some(SoundFontNotFound(soundFont)))
    else RunTool(w, Fluidsynth, FluidsynthCommand(midi, wav, soundFont), p)
  }

  /**
   * A stage spawns its tool exactly when its file checks pass: it leaves the world
   * unchanged precisely when it raises FileNotFoundError.
   */
  lemma SpawnsOnlyAfterChecks(w: World, abc: Path, midi: Path, wav: Path, soundFont: Path, p: Proc)
    ensures var r := AbcToMidi(w, abc, midi, p);
      r.world == w <==> r.err.Some? && ClassOf(r.err.value) == FileNotFoundError
    ensures var r := MidiToWav(w, midi, wav, soundFont, p);
      r.world == w <==> r.err.Some? && ClassOf(r.err.value) == FileNotFoundError
  {
    if abc in w.files {
      assert |AbcToMidi(w, abc, midi, p).world.log| == |w.log| + 1;
    }
    if midi in w.files && soundFont in w.files {
      assert |MidiToWav(w, midi, wav, soundFont, p).world.log| == |w.log| + 1;
    }
  }

  /** The failure report of a stage names its command line and reads back the exact exit code. */
  lemma StageFailureIsDiagnosable(w: World, abc: Path, midi: Path, p: Proc)
    requires abc in w.files && p.Exited? && p.code != 0
    ensures var e := AbcToMidi(w, abc, midi, p).err;
      && e == Some(ToolFailed(Abc2Midi, ["abc2midi", abc, "-o", midi], p.code, p.output))
      && Message(e.value) == FailureReport(Abc2Midi, ["abc2midi", abc, "-o", midi], p.code, p.output)
      && ParseDecimal(Decimal(e.value.exitCode)) == Some(p.code)
  {
    DecimalRoundTrip(p.code);
  }
}
