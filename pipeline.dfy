/**
 * export_abc_to_audio: ABC file -> temp.mid -> dry.wav -> final audio, inside a temporary
 * directory that is removed however the render ends.
 */
module Pipeline {
  import opened Wrappers
  import opened Paths
  import opened Presets
  import opened Tuning
  import opened Graph
  import opened Errors
  import opened Host
  import opened Stages
  import opened ReverbCompiler

  const TEMP_MIDI: string := "temp.mid"
  const DRY_WAV: string := "dry.wav"

  /** Entering the `with tempfile.TemporaryDirectory()` block: the directory `tmp` now exists. */
  function EnterScope(w: World, tmp: Path): World
  {
    World(w.files + {tmp}, w.log + [MadeTempDir(tmp)])
  }

  /** Leaving the block, normally or by an exception: the directory tree is removed. */
  function LeaveScope(w: World, tmp: Path): World
  {
    World(RemoveTree(w.files, tmp), w.log + [RemovedTempDir(tmp)])
  }

  /** The three stages inside the block; the first exception ends the block. */
  function RunStages(w: World, abc: Path, out: Path, table: map<string, Option<ReverbSpec>>,
                     reverbName: string, outputName: string, soundFont: Path,
                     advanced: Option<map<string, Value>>, root: Path, tmp: Path,
                     abcRun: Proc, synthRun: Proc, engine: Proc): StageResult
  {
    var midi := Join(tmp, TEMP_MIDI);
    var dry := Join(tmp, DRY_WAV);
    var r1 := AbcToMidi(w, abc, midi, abcRun);
    if r1.err.Some? then r1
    else
      var r2 := MidiToWav(r1.world, midi, dry, soundFont, synthRun);
      if r2.err.Some? then r2
      else FfmpegStage(r2.world, dry, out, table, reverbName, outputName, advanced, root, engine)
  }

  /** export_abc_to_audio as a whole. */
  function Export(w: World, abc: Path, out: Path, table: map<string, Option<ReverbSpec>>,
                  reverbName: string, outputName: string, soundFont: Path,
                  advanced: Option<map<string, Value>>, root: Path, tmp: Path,
                  abcRun: Proc, synthRun: Proc, engine: Proc): StageResult
  {
    var r := RunStages(EnterScope(w, tmp), abc, out, table, reverbName, outputName, soundFont, advanced, root, tmp,
                       abcRun, synthRun, engine);
    StageResult(LeaveScope(r.world, tmp), r.err)
  }

  /**
   * The render entry point. `tmp` is the directory the temporary-directory factory chose;
   * `abcRun`, `synthRun` and `engine` are how abc2midi, fluidsynth and ffmpeg ended.
   */
  method ExportAbcToAudio(w: World, abc: Path, out: Path, reverbName: string, outputName: string, soundFont: Path,
                          advanced: Option<map<string, Value>>, root: Path, tmp: Path,
                          abcRun: Proc, synthRun: Proc, engine: Proc) returns (r: StageResult)
    ensures r == Export(w, abc, out, ReverbPresets(), reverbName, outputName, soundFont,
                        advanced, root, tmp, abcRun, synthRun, engine)
  {
    var scope := EnterScope(w, tmp);
    var midiPath := Join(tmp, TEMP_MIDI);
    var dryWav := Join(tmp, DRY_WAV);

    r := AbcToMidi(scope, abc, midiPath, abcRun);
    if r.err.None? {
      r := MidiToWav(r.world, midiPath, dryWav, soundFont, synthRun);
      if r.err.None? {
        r := ProcessWithFfmpeg(r.world, dryWav, out, ReverbPresets(), reverbName, outputName, advanced, root, engine);
      }
    }
    r := StageResult(LeaveScope(r.world, tmp), r.err);
  }

  // ---------------------------------------------------------------------------
  // Properties
  // ---------------------------------------------------------------------------

  /** Which stage raises an exception: 1 for abc_to_midi, 2 for midi_to_wav, 3 for process_with_ffmpeg. */
  function StageOf(e: Error): nat
  {
    match e
    case AbcFileNotFound(_) => 1
    case MidiFileNotFound(_) => 2
    case SoundFontNotFound(_) => 2
    case ToolNotInstalled(tool) => if tool == Abc2Midi then 1 else 2
    case ToolFailed(tool, _, _, _) => if tool == Abc2Midi then 1 else 2
    case _ => 3
  }

  /** Exceptions raised once the stage had attempted to launch its external process. */
  predicate AfterSpawn(e: Error)
  {
    e.ToolNotInstalled? || e.ToolFailed? || e.EngineNotFound? || e.EngineFailed?
  }

  /**
   * The external actions of a render so far: abc2midi, then fluidsynth, then the ffmpeg
   * graph writing to `out`, in that order and each at most once.
   */
  predicate StagePrefix(steps: seq<Event>, abc: Path, out: Path, soundFont: Path, tmp: Path)
  {
    var midi := Join(tmp, TEMP_MIDI);
    var dry := Join(tmp, DRY_WAV);
    && |steps| <= 3
    && (|steps| >= 1 ==> steps[0] == Exec(Abc2MidiCommand(abc, midi)))
    && (|steps| >= 2 ==> steps[1] == Exec(FluidsynthCommand(midi, dry, soundFont)))
    && (|steps| == 3 ==> steps[2].RanGraph? && steps[2].job.path == out && steps[2].job.overwrite)
  }

  /** abc_to_midi logs its one process exactly when it got past its check; its errors belong to stage 1. */
  lemma AbcStageSteps(w: World, abc: Path, midi: Path, p: Proc)
    ensures var r := AbcToMidi(w, abc, midi, p);
      && r.world.log == w.log + (if abc in w.files then [Exec(Abc2MidiCommand(abc, midi))] else [])
      && (r.err.Some? ==> StageOf(r.err.value) == 1 && (AfterSpawn(r.err.value) <==> abc in w.files))
  {
  }

  /** midi_to_wav logs its one process exactly when it got past its checks; its errors belong to stage 2. */
  lemma SynthStageSteps(w: World, midi: Path, wav: Path, soundFont: Path, p: Proc)
    ensures var r := MidiToWav(w, midi, wav, soundFont, p);
      var spawned := midi in w.files && soundFont in w.files;
      && r.world.log == w.log + (if spawned then [Exec(FluidsynthCommand(midi, wav, soundFont))] else [])
      && (r.err.Some? ==> StageOf(r.err.value) == 2 && (AfterSpawn(r.err.value) <==> spawned))
  {
  }

  /** process_with_ffmpeg logs the graph exactly when it could build it; its errors belong to stage 3. */
  lemma FfmpegStageSteps(w: World, dry: Path, out: Path, table: map<string, Option<ReverbSpec>>,
                         reverbName: string, outputName: string,
                         advanced: Option<map<string, Value>>, root: Path, engine: Proc)
    ensures var job := FfmpegJob(w.files, dry, out, table, reverbName, outputName, advanced, root);
      var r := FfmpegStage(w, dry, out, table, reverbName, outputName, advanced, root, engine);
      && r.world.log == w.log + (if job.Success? then [RanGraph(job.value)] else [])
      && (job.Success? ==> job.value.path == out && job.value.overwrite)
      && (r.err.Some? ==> StageOf(r.err.value) == 3 && (AfterSpawn(r.err.value) <==> job.Success?))
  {
    var job := FfmpegJob(w.files, dry, out, table, reverbName, outputName, advanced, root);
    if job.Success? {
      EncoderBinding(w.files, dry, out, table, reverbName, outputName, advanced, root);
    } else {
      FailsBeforeRunning(w, dry, out, table, reverbName, outputName, advanced, root, engine);
    }
  }

  /**
   * `r` extends the log `before` by a prefix of the three stage actions that ends where the
   * first exception was raised: all three on success, and otherwise up to the raising
   * stage, whose own process ran only if the exception came from it.
   */
  predicate OrderedRun(before: seq<Event>, r: StageResult, abc: Path, out: Path, soundFont: Path, tmp: Path)
  {
    && |before| <= |r.world.log|
    && r.world.log[..|before|] == before
    && var steps := r.world.log[|before|..];
       && StagePrefix(steps, abc, out, soundFont, tmp)
       && (r.err.None? ==> |steps| == 3)
       && (r.err.Some? ==> |steps| == StageOf(r.err.value) - (if AfterSpawn(r.err.value) then 0 else 1))
  }

  lemma OrderedBySteps(before: seq<Event>, steps: seq<Event>, r: StageResult,
                       abc: Path, out: Path, soundFont: Path, tmp: Path)
    requires r.world.log == before + steps
    requires StagePrefix(steps, abc, out, soundFont, tmp)
    requires r.err.None? ==> |steps| == 3
    requires r.err.Some? ==> |steps| == StageOf(r.err.value) - (if AfterSpawn(r.err.value) then 0 else 1)
    ensures OrderedRun(before, r, abc, out, soundFont, tmp)
  {
    LogSuffix(before, steps);
  }

  /** A log extended by some events keeps its old events first and ends with the new ones. */
  lemma LogSuffix(log: seq<Event>, steps: seq<Event>)
    ensures |log| <= |log + steps|
    ensures (log + steps)[..|log|] == log && (log + steps)[|log|..] == steps
  {
  }

  /** Inside the block the stages run in order as a prefix, ending at the one that raised. */
  lemma RunStagesSteps(w: World, abc: Path, out: Path, table: map<string, Option<ReverbSpec>>,
                       reverbName: string, outputName: string, soundFont: Path,
                       advanced: Option<map<string, Value>>, root: Path, tmp: Path,
                       abcRun: Proc, synthRun: Proc, engine: Proc)
    ensures OrderedRun(w.log, RunStages(w, abc, out, table, reverbName, outputName, soundFont, advanced, root, tmp,
                                        abcRun, synthRun, engine),
                       abc, out, soundFont, tmp)
  {
    var midi := Join(tmp, TEMP_MIDI);
    var dry := Join(tmp, DRY_WAV);
    var r := RunStages(w, abc, out, table, reverbName, outputName, soundFont,
                       advanced, root, tmp, abcRun, synthRun, engine);
    var r1 := AbcToMidi(w, abc, midi, abcRun);
    AbcStageSteps(w, abc, midi, abcRun);
    var cmd1 := Exec(Abc2MidiCommand(abc, midi));
    if r1.err.Some? {
      assert r == r1;
      OrderedBySteps(w.log, if abc in w.files then [cmd1] else [], r1, abc, out, soundFont, tmp);
      return;
    }
    var r2 := MidiToWav(r1.world, midi, dry, soundFont, synthRun);
    SynthStageSteps(r1.world, midi, dry, soundFont, synthRun);
    var cmd2 := Exec(FluidsynthCommand(midi, dry, soundFont));
    var step2 := if midi in r1.world.files && soundFont in r1.world.files then [cmd2] else [];
    assert r1.world.log == w.log + [cmd1];
    if r2.err.Some? {
      assert r == r2;
      assert r2.world.log == w.log + ([cmd1] + step2);
      OrderedBySteps(w.log, [cmd1] + step2, r2, abc, out, soundFont, tmp);
      return;
    }
    assert r2.world.log == w.log + [cmd1, cmd2];
    var r3 := FfmpegStage(r2.world, dry, out, table, reverbName, outputName, advanced, root, engine);
    FfmpegStageSteps(r2.world, dry, out, table, reverbName, outputName, advanced, root, engine);
    var job := FfmpegJob(r2.world.files, dry, out, table, reverbName, outputName, advanced, root);
    var step3 := if job.Success? then [RanGraph(job.value)] else [];
    assert r == r3;
    assert r3.world.log == w.log + ([cmd1, cmd2] + step3);
    OrderedBySteps(w.log, [cmd1, cmd2] + step3, r3, abc, out, soundFont, tmp);
  }

  /**
   * A render creates its temporary directory first and removes it last, on every path,
   * and in between runs a prefix of the three stages. A successful render ran all three;
   * a failed one stopped at the stage that raised, having started that stage's process
   * only if the exception came from the process.
   */
  lemma ExportStageOrder(w: World, abc: Path, out: Path, table: map<string, Option<ReverbSpec>>,
                         reverbName: string, outputName: string, soundFont: Path,
                         advanced: Option<map<string, Value>>, root: Path, tmp: Path,
                         abcRun: Proc, synthRun: Proc, engine: Proc)
    ensures ScopedRun(w.log, Export(w, abc, out, table, reverbName, outputName, soundFont, advanced, root, tmp,
                                     abcRun, synthRun, engine),
                      abc, out, soundFont, tmp)
  {
    var w0 := EnterScope(w, tmp);
    RunStagesSteps(w0, abc, out, table, reverbName, outputName, soundFont,
                   advanced, root, tmp, abcRun, synthRun, engine);
    var rs := RunStages(w0, abc, out, table, reverbName, outputName, soundFont,
                        advanced, root, tmp, abcRun, synthRun, engine);
    LeavingKeepsOrder(w.log, rs, abc, out, soundFont, tmp);
  }

  /**
   * The log `before` extended by: making `tmp`, a prefix of the three stage actions ending
   * where the first exception was raised, and removing `tmp`.
   */
  predicate ScopedRun(before: seq<Event>, r: StageResult, abc: Path, out: Path, soundFont: Path, tmp: Path)
  {
    var n := |r.world.log|;
    && |before| + 2 <= n
    && r.world.log[..|before| + 1] == before + [MadeTempDir(tmp)]
    && r.world.log[n - 1] == RemovedTempDir(tmp)
    && var steps := r.world.log[|before| + 1..n - 1];
       && StagePrefix(steps, abc, out, soundFont, tmp)
       && (r.err.None? ==> |steps| == 3)
       && (r.err.Some? ==> |steps| == StageOf(r.err.value) - (if AfterSpawn(r.err.value) then 0 else 1))
  }

  /** Leaving the block after an ordered run of the stages gives a scoped run. */
  lemma LeavingKeepsOrder(before: seq<Event>, rs: StageResult, abc: Path, out: Path, soundFont: Path, tmp: Path)
    requires OrderedRun(before + [MadeTempDir(tmp)], rs, abc, out, soundFont, tmp)
    ensures ScopedRun(before, StageResult(LeaveScope(rs.world, tmp), rs.err), abc, out, soundFont, tmp)
  {
    var steps := rs.world.log[|before| + 1..];
    assert rs.world.log == before + [MadeTempDir(tmp)] + steps;
    ScopedLog(before, steps, tmp);
  }

  /** The log of a scoped block: the opening event, the block's own events, the closing event. */
  lemma ScopedLog(before: seq<Event>, steps: seq<Event>, tmp: Path)
    ensures var log := before + [MadeTempDir(tmp)] + steps + [RemovedTempDir(tmp)];
      && |log| == |before| + |steps| + 2
      && log[..|before| + 1] == before + [MadeTempDir(tmp)]
      && log[|log| - 1] == RemovedTempDir(tmp)
      && log[|before| + 1..|log| - 1] == steps
  {
    var log := before + [MadeTempDir(tmp)] + steps + [RemovedTempDir(tmp)];
    assert log[|before| + 1..|log| - 1] == steps;
  }

  /** The first exception propagates unchanged and no later stage runs. */
  lemma ExportPropagatesFirstError(w: World, abc: Path, out: Path, table: map<string, Option<ReverbSpec>>,
                                   reverbName: string, outputName: string,
                                   soundFont: Path, advanced: Option<map<string, Value>>, root: Path, tmp: Path,
                                   abcRun: Proc, synthRun: Proc, engine: Proc)
    ensures var r := Export(w, abc, out, table, reverbName, outputName, soundFont,
                            advanced, root, tmp, abcRun, synthRun, engine);
      var r1 := AbcToMidi(EnterScope(w, tmp), abc, Join(tmp, TEMP_MIDI), abcRun);
      var r2 := MidiToWav(r1.world, Join(tmp, TEMP_MIDI), Join(tmp, DRY_WAV), soundFont, synthRun);
      && (r1.err.Some? ==> r.err == r1.err && r.world == LeaveScope(r1.world, tmp))
      && (r1.err.None? && r2.err.Some? ==> r.err == r2.err && r.world == LeaveScope(r2.world, tmp))
      && (r1.err.None? && r2.err.None? ==>
            r.err == FfmpegStage(r2.world, Join(tmp, DRY_WAV), out, table, reverbName, outputName,
                                 advanced, root, engine).err)
  {
  }

  /** A successful render saw all three external processes exit with status 0. */
  lemma ExportSuccessNeedsAllStages(w: World, abc: Path, out: Path, table: map<string, Option<ReverbSpec>>,
                                    reverbName: string, outputName: string,
                                    soundFont: Path, advanced: Option<map<string, Value>>, root: Path, tmp: Path,
                                    abcRun: Proc, synthRun: Proc, engine: Proc)
    requires Export(w, abc, out, table, reverbName, outputName, soundFont,
                    advanced, root, tmp, abcRun, synthRun, engine).err.None?
    ensures abcRun.Exited? && abcRun.code == 0
    ensures synthRun.Exited? && synthRun.code == 0
    ensures engine.Exited? && engine.code == 0
  {
    var w0 := EnterScope(w, tmp);
    var r1 := AbcToMidi(w0, abc, Join(tmp, TEMP_MIDI), abcRun);
    var r2 := MidiToWav(r1.world, Join(tmp, TEMP_MIDI), Join(tmp, DRY_WAV), soundFont, synthRun);
    FailsBeforeRunning(r2.world, Join(tmp, DRY_WAV), out, table, reverbName, outputName, advanced, root, engine);
  }

  /**
   * The temporary directory and everything in it are gone after every render, and no file
   * outside it is removed; every file that exists afterwards existed before or was written
   * by one of the three processes.
   */
  lemma ExportCleansUp(w: World, abc: Path, out: Path, table: map<string, Option<ReverbSpec>>,
                       reverbName: string, outputName: string, soundFont: Path,
                       advanced: Option<map<string, Value>>, root: Path, tmp: Path,
                       abcRun: Proc, synthRun: Proc, engine: Proc)
    ensures var r := Export(w, abc, out, table, reverbName, outputName, soundFont,
                            advanced, root, tmp, abcRun, synthRun, engine);
      && tmp !in r.world.files
      && (forall p | p in r.world.files :: !Within(p, tmp))
      && (forall p | p in w.files && p != tmp && !Within(p, tmp) :: p in r.world.files)
      && r.world.files <= w.files + Wrote(abcRun) + Wrote(synthRun) + Wrote(engine)
  {
    var w0 := EnterScope(w, tmp);
    var rs := RunStages(w0, abc, out, table, reverbName, outputName, soundFont,
                        advanced, root, tmp, abcRun, synthRun, engine);
    assert w0.files <= rs.world.files <= w0.files + Wrote(abcRun) + Wrote(synthRun) + Wrote(engine);
  }

  /**
   * The intermediate files live inside the render's own temporary directory, are distinct,
   * and two renders with different directories never share one.
   */
  lemma IntermediatesBelongToScope(tmp: Path, other: Path)
    ensures Within(Join(tmp, TEMP_MIDI), tmp) && Within(Join(tmp, DRY_WAV), tmp)
    ensures Join(tmp, TEMP_MIDI) != Join(tmp, DRY_WAV)
    ensures tmp != other ==>
      Join(tmp, TEMP_MIDI) != Join(other, TEMP_MIDI) && Join(tmp, DRY_WAV) != Join(other, DRY_WAV)
  {
    JoinIsWithin(tmp, TEMP_MIDI);
    JoinIsWithin(tmp, DRY_WAV);
    JoinInjective(tmp, TEMP_MIDI, DRY_WAV);
    if Join(tmp, TEMP_MIDI) == Join(other, TEMP_MIDI) {
      assert tmp == Join(tmp, TEMP_MIDI)[..|tmp|];
    }
    if Join(tmp, DRY_WAV) == Join(other, DRY_WAV) {
      assert tmp == Join(tmp, DRY_WAV)[..|tmp|];
    }
  }

  /**
   * There is no fallback to differently named MIDI output: when abc2midi succeeds but
   * writes temp1.mid instead of temp.mid, midi_to_wav raises FileNotFoundError for temp.mid
   * and fluidsynth never starts.
   */
  lemma NoNumberedMidiFallback(w: World, abc: Path, out: Path, table: map<string, Option<ReverbSpec>>,
                               reverbName: string, outputName: string,
                               soundFont: Path, advanced: Option<map<string, Value>>, root: Path, tmp: Path,
                               output: string, synthRun: Proc, engine: Proc)
    requires abc in w.files
    requires tmp !in w.files && forall p | p in w.files :: !Within(p, tmp)
    ensures var r := Export(w, abc, out, table, reverbName, outputName, soundFont, advanced, root, tmp,
                            Exited(0, output, {Join(tmp, "temp1.mid")}), synthRun, engine);
      && r.err == Some(MidiFileNotFound(Join(tmp, TEMP_MIDI)))
      && r.world.log
         == w.log + [MadeTempDir(tmp), Exec(["abc2midi", abc, "-o", Join(tmp, TEMP_MIDI)]), RemovedTempDir(tmp)]
  {
    var midi := Join(tmp, TEMP_MIDI);
    JoinIsWithin(tmp, TEMP_MIDI);
    JoinInjective(tmp, TEMP_MIDI, "temp1.mid");
    assert midi !in w.files;
    assert midi != tmp;
  }
}
