/**
 * process_with_ffmpeg: validates its inputs, compiles the reverb preset and tuning into
 * a filter graph (a dry pass-through, or split -> afir -> amix -> volume -> optional
 * alimiter), binds the output encoder and hands the graph to ffmpeg.
 */
module ReverbCompiler {
  import opened Wrappers
  import opened Paths
  import opened Presets
  import opened Tuning
  import opened Graph
  import opened Errors
  import opened Host

  /** The parallel dry/wet topology for an AFIR preset whose impulse response is `ir`. */
  function ReverbGraph(dry: Path, ir: Path, t: Tuning): (g: Stream)
    ensures g.Alimiter? <==> t.useLimiter
    ensures var gained := if t.useLimiter then g.source else g;
      && gained.Volume? && gained.gain == t.postVolume
      && gained.source.Amix? && gained.source.second.Afir?
      && 0.0 <= gained.source.second.dry <= MAX_AFIR_GAIN && 0.0 <= gained.source.second.wet <= MAX_AFIR_GAIN
  {
    var split := ASplit(Input(dry), 2);
    var wet := Afir(SplitOutput(split, 0), Input(ir), Clamp(t.dry), Clamp(t.wet));
    var mixed := Amix(SplitOutput(split, 1), wet, 2, Weights(t.mixDry, t.mixWet));
    var gained := Volume(mixed, t.postVolume);
    if t.useLimiter then Alimiter(gained) else gained
  }

  /**
   * The audio stream for a looked-up reverb preset, or the error the preset raises:
   * no preset is a pass-through; otherwise the type, the impulse name and the impulse
   * file are checked in that order.
   */
  function CompileReverb(files: set<Path>, dry: Path, name: string, spec: Option<ReverbSpec>,
                         advanced: Option<map<string, Value>>, root: Path): (r: Result<Stream, Error>)
    ensures spec.None? ==> r == Success(Input(dry))
    ensures r.Success? <==>
      || spec.None?
      || (&& spec.value.rtype == Some(AFIR)
          && spec.value.impulse.Some? && spec.value.impulse.value != ""
          && ImpulseResponsePath(root, spec.value.impulse.value) in files)
    ensures r.Failure? ==> ClassOf(r.error) in {FileNotFoundError, ValueError}
  {
    if spec.None? then Success(Input(dry))
    else
      var t := Resolve(advanced);
      var rtype := spec.value.rtype;
      var impulse := spec.value.impulse;
      if rtype != Some(AFIR) then Failure(UnknownReverbType(rtype))
      else if impulse.None? || impulse.value == "" then Failure(ImpulseNameMissing(name))
      else
        var ir := ImpulseResponsePath(root, impulse.value);
        if ir !in files then Failure(ImpulseResponseNotFound(name, ir))
        else Success(ReverbGraph(dry, ir, t))
  }

  /** The keyword arguments of `.output(...)`: the codec, and the bitrate only when the preset has one. */
  function EncoderOptions(preset: OutputPreset): map<string, string>
  {
    if preset.bitrate.None? then map["acodec" := preset.codec]
    else map["acodec" := preset.codec, "audio_bitrate" := preset.bitrate.value]
  }

  /** Everything process_with_ffmpeg does before `.run()`: the output node, or the exception raised. */
  function FfmpegJob(files: set<Path>, dry: Path, out: Path, reverbTable: map<string, Option<ReverbSpec>>,
                     reverbName: string, outputName: string, advanced: Option<map<string, Value>>,
                     root: Path): Result<OutputNode, Error>
  {
    if dry !in files then Failure(DryWavNotFound(dry))
    else if outputName !in OutputPresets() then Failure(UnknownOutputPreset(outputName))
    else
      match CompileReverb(files, dry, reverbName, LookupReverb(reverbTable, reverbName), advanced, root)
      case Failure(e) => Failure(e)
      case Success(stream) => Success(Output(stream, out, EncoderOptions(OutputPresets()[outputName]), true))
  }

  /**
   * `.run()`: ffmpeg executes the graph. A missing ffmpeg surfaces as FileNotFoundError and
   * a non-zero exit as ffmpeg.Error; neither is wrapped.
   */
  function RunGraph(w: World, job: OutputNode, engine: Proc): (r: StageResult)
    ensures r.world == World(w.files + Wrote(engine), w.log + [RanGraph(job)])
    ensures r.err.None? <==> engine.Exited? && engine.code == 0
    ensures engine.NotOnPath? ==> r.err == Some(EngineNotFound)
    ensures engine.Exited? && engine.code != 0 ==> r.err == Some(EngineFailed(engine.code))
  {
    var w' := World(w.files + Wrote(engine), w.log + [RanGraph(job)]);
    match engine
    case NotOnPath => StageResult(w', Some(EngineNotFound))
    case Exited(code, _, _) => if code == 0 then StageResult(w', None) else StageResult(w', Some(EngineFailed(code)))
  }

  /** process_with_ffmpeg as a whole: the job is run only if it could be built. */
  function FfmpegStage(w: World, dry: Path, out: Path, reverbTable: map<string, Option<ReverbSpec>>,
                       reverbName: string, outputName: string, advanced: Option<map<string, Value>>,
                       root: Path, engine: Proc): StageResult
  {
    match FfmpegJob(w.files, dry, out, reverbTable, reverbName, outputName, advanced, root)
    case Failure(e) => StageResult(w, Some(e))
    case Success(job) => RunGraph(w, job, engine)
  }

  /**
   * process_with_ffmpeg, step by step: the checks, the conditional rebinding of the audio
   * stream, and the encoder options dictionary filled in place.
   */
  method ProcessWithFfmpeg(w: World, dryWav: Path, outPath: Path, reverbTable: map<string, Option<ReverbSpec>>,
                           reverbName: string, outputName: string, advanced: Option<map<string, Value>>,
                           root: Path, engine: Proc) returns (r: StageResult)
    ensures r == FfmpegStage(w, dryWav, outPath, reverbTable, reverbName, outputName, advanced, root, engine)
  {
    if dryWav !in w.files {
      return StageResult(w, Some(DryWavNotFound(dryWav)));
    }
    if outputName !in OutputPresets() {
      return StageResult(w, Some(UnknownOutputPreset(outputName)));
    }
    var preset := OutputPresets()[outputName];
    var codec := preset.codec;
    var bitrate := preset.bitrate;

    var reverbSpec := LookupReverb(reverbTable, reverbName);
    var audioStream: Stream;
    if reverbSpec.None? {
      audioStream := Input(dryWav);
    } else {
      var advancedReverb := advanced;
      if advancedReverb.None? {
        advancedReverb := Some(map[]);
      }
      var d := advancedReverb.value;
      var dryGain := AsFloat(Get(d, "dry", Real(DEFAULT_DRY)));
      var wetGain := AsFloat(Get(d, "wet", Real(DEFAULT_WET)));
      var postVolume := AsFloat(Get(d, "post_volume", Real(DEFAULT_POST_VOLUME)));
      var mixDry := AsFloat(Get(d, "mix_dry", Real(DEFAULT_MIX_DRY)));
      var mixWet := AsFloat(Get(d, "mix_wet", Real(DEFAULT_MIX_WET)));
      var useLimiter := AsBool(Get(d, "use_limiter", Bool(DEFAULT_USE_LIMITER)));

      var rtype := reverbSpec.value.rtype;
      if rtype != Some(AFIR) {
        return StageResult(w, Some(UnknownReverbType(rtype)));
      }
      var impulseName := reverbSpec.value.impulse;
      if impulseName.None? || impulseName.value == "" {
        return StageResult(w, Some(ImpulseNameMissing(reverbName)));
      }
      var irPath := ImpulseResponsePath(root, impulseName.value);
      if irPath !in w.files {
        return StageResult(w, Some(ImpulseResponseNotFound(reverbName, irPath)));
      }

      var baseIn := Input(dryWav);
      var irIn := Input(irPath);
      var split := ASplit(baseIn, 2);
      var dryForConv := SplitOutput(split, 0);
      var dryForMix := SplitOutput(split, 1);
      var wet := Afir(dryForConv, irIn, PyMax(0.0, PyMin(10.0, dryGain)), PyMax(0.0, PyMin(10.0, wetGain)));
      var mixed := Amix(dryForMix, wet, 2, Weights(mixDry, mixWet));
      audioStream := Volume(mixed, postVolume);
      if useLimiter {
        audioStream := Alimiter(audioStream);
      }
    }

    var kwargs := map["acodec" := codec];
    if bitrate.Some? {
      kwargs := kwargs["audio_bitrate" := bitrate.value];
    }
    var job := Output(audioStream, outPath, kwargs, true);
    r := RunGraph(w, job, engine);
  }

  // ---------------------------------------------------------------------------
  // Bypass
  // ---------------------------------------------------------------------------

  /**
   * A label with no preset (the "None" label, or any label missing from the table) gives
   * the dry input alone, whatever the tuning, the resource root or the impulse files.
   */
  lemma BypassPassesDryThrough(files: set<Path>, dry: Path, out: Path, table: map<string, Option<ReverbSpec>>,
                               name: string, outputName: string, advanced: Option<map<string, Value>>,
                               root: Path, advanced': Option<map<string, Value>>, root': Path)
    requires LookupReverb(table, name).None?
    requires dry in files && outputName in OutputPresets()
    ensures FfmpegJob(files, dry, out, table, name, outputName, advanced, root)
            == Success(Output(Input(dry), out, EncoderOptions(OutputPresets()[outputName]), true))
    ensures FfmpegJob(files, dry, out, table, name, outputName, advanced, root)
            == FfmpegJob(files, dry, out, table, name, outputName, advanced', root')
    ensures Nodes(Input(dry)) == {InputNode(dry)}
  {
  }

  // ---------------------------------------------------------------------------
  // Topology of the AFIR graph
  // ---------------------------------------------------------------------------

  /** The distinct nodes of the AFIR graph. */
  lemma ReverbGraphNodes(dry: Path, ir: Path, t: Tuning)
    ensures var split := ASplit(Input(dry), 2);
      var wet := Afir(SplitOutput(split, 0), Input(ir), Clamp(t.dry), Clamp(t.wet));
      var mixed := Amix(SplitOutput(split, 1), wet, 2, Weights(t.mixDry, t.mixWet));
      var gained := Volume(mixed, t.postVolume);
      Nodes(ReverbGraph(dry, ir, t))
        == {InputNode(dry), InputNode(ir), SplitNode(split), FilterNode(wet), FilterNode(mixed), FilterNode(gained)}
           + (if t.useLimiter then {FilterNode(Alimiter(gained))} else {})
  {
    var split := ASplit(Input(dry), 2);
    var wet := Afir(SplitOutput(split, 0), Input(ir), Clamp(t.dry), Clamp(t.wet));
    var mixed := Amix(SplitOutput(split, 1), wet, 2, Weights(t.mixDry, t.mixWet));
    var gained := Volume(mixed, t.postVolume);
    assert Nodes(SplitOutput(split, 0)) == {SplitNode(split), InputNode(dry)};
    assert Nodes(SplitOutput(split, 1)) == {SplitNode(split), InputNode(dry)};
    assert Nodes(wet) == {FilterNode(wet), SplitNode(split), InputNode(dry), InputNode(ir)};
    assert Nodes(mixed) == {FilterNode(mixed), SplitNode(split), InputNode(dry), FilterNode(wet), InputNode(ir)};
    assert Nodes(gained) == {FilterNode(gained)} + Nodes(mixed);
  }

  /**
   * For an AFIR preset the graph has two inputs, exactly one asplit, one afir, one amix
   * and one volume node, and an alimiter if and only if the limiter is enabled.
   */
  lemma ReverbGraphCounts(dry: Path, ir: Path, t: Tuning)
    requires dry != ir
    ensures var ns := Nodes(ReverbGraph(dry, ir, t));
      && |OfKind(ns, KInput)| == 2
      && |OfKind(ns, KASplit)| == 1
      && |OfKind(ns, KAfir)| == 1
      && |OfKind(ns, KAmix)| == 1
      && |OfKind(ns, KVolume)| == 1
      && |OfKind(ns, KAlimiter)| == (if t.useLimiter then 1 else 0)
  {
    var split := ASplit(Input(dry), 2);
    var wet := Afir(SplitOutput(split, 0), Input(ir), Clamp(t.dry), Clamp(t.wet));
    var mixed := Amix(SplitOutput(split, 1), wet, 2, Weights(t.mixDry, t.mixWet));
    var gained := Volume(mixed, t.postVolume);
    ReverbGraphNodes(dry, ir, t);
    KindCounts(dry, ir, split, wet, mixed, gained, t.useLimiter);
  }

  /** The kind counts of a node set shaped like the AFIR graph's. */
  lemma KindCounts(dry: Path, ir: Path, split: Splitter, wet: Stream, mixed: Stream, gained: Stream, limiter: bool)
    requires dry != ir && wet.Afir? && mixed.Amix? && gained.Volume?
    ensures var ns := {InputNode(dry), InputNode(ir), SplitNode(split), FilterNode(wet), FilterNode(mixed), FilterNode(gained)}
                      + (if limiter then {FilterNode(Alimiter(gained))} else {});
      && |OfKind(ns, KInput)| == 2
      && |OfKind(ns, KASplit)| == 1
      && |OfKind(ns, KAfir)| == 1
      && |OfKind(ns, KAmix)| == 1
      && |OfKind(ns, KVolume)| == 1
      && |OfKind(ns, KAlimiter)| == (if limiter then 1 else 0)
  {
    var ns := {InputNode(dry), InputNode(ir), SplitNode(split), FilterNode(wet), FilterNode(mixed), FilterNode(gained)}
              + (if limiter then {FilterNode(Alimiter(gained))} else {});
    assert OfKind(ns, KInput) == {InputNode(dry), InputNode(ir)};
    assert OfKind(ns, KASplit) == {SplitNode(split)};
    assert OfKind(ns, KAfir) == {FilterNode(wet)};
    assert OfKind(ns, KAmix) == {FilterNode(mixed)};
    assert OfKind(ns, KVolume) == {FilterNode(gained)};
    assert OfKind(ns, KAlimiter) == if limiter then {FilterNode(Alimiter(gained))} else {};
  }

  /** The AFIR graph reads exactly the dry WAV and the impulse response. */
  lemma ReverbGraphSources(dry: Path, ir: Path, t: Tuning)
    ensures Sources(ReverbGraph(dry, ir, t)) == {dry, ir}
  {
    var g := ReverbGraph(dry, ir, t);
    ReverbGraphNodes(dry, ir, t);
    SourcesAreInputNodes(g);
    assert forall f :: f in Sources(g) <==> f == dry || f == ir;
  }

  /** Every edge of the AFIR graph is connected as its filter expects. */
  lemma ReverbGraphWellFormed(dry: Path, ir: Path, t: Tuning)
    ensures WellFormed(ReverbGraph(dry, ir, t))
  {
    var split := ASplit(Input(dry), 2);
    var wet := Afir(SplitOutput(split, 0), Input(ir), Clamp(t.dry), Clamp(t.wet));
    var mixed := Amix(SplitOutput(split, 1), wet, 2, Weights(t.mixDry, t.mixWet));
    assert WellFormed(Input(ir)) && WellFormed(Input(dry));
    assert WellFormed(SplitOutput(split, 0)) && WellFormed(SplitOutput(split, 1));
    assert WellFormed(wet);
    assert WellFormed(mixed);
  }

  /**
   * How the AFIR graph is wired: the asplit has two outputs; output 0 and the impulse
   * response feed afir with the clamped gains; amix takes two inputs, the dry branch
   * (output 1) first and the afir output second, weighted in that order; volume follows
   * amix; alimiter follows volume; the graph ends in alimiter exactly when the limiter is on.
   */
  lemma ReverbGraphWiring(dry: Path, ir: Path, t: Tuning)
    ensures var ns := Nodes(ReverbGraph(dry, ir, t));
      var split := ASplit(Input(dry), 2);
      && (forall sp :: SplitNode(sp) in ns ==> sp == split)
      && (forall s :: FilterNode(s) in ns && s.Afir? ==>
            s.main == SplitOutput(split, 0) && s.impulse == Input(ir) && s.dry == Clamp(t.dry) && s.wet == Clamp(t.wet))
      && (forall s :: FilterNode(s) in ns && s.Amix? ==>
            s.inputs == 2 && s.first == SplitOutput(split, 1) && s.second.Afir? &&
            s.weights == Weights(t.mixDry, t.mixWet))
      && (forall s :: FilterNode(s) in ns && s.Volume? ==> s.source.Amix? && s.gain == t.postVolume)
      && (forall s :: FilterNode(s) in ns && s.Alimiter? ==> s.source.Volume?)
    ensures ReverbGraph(dry, ir, t).Alimiter? == t.useLimiter
    ensures !t.useLimiter ==> ReverbGraph(dry, ir, t).Volume?
  {
    ReverbGraphNodes(dry, ir, t);
  }

  // ---------------------------------------------------------------------------
  // The job built from the request
  // ---------------------------------------------------------------------------

  /**
   * A job built for an AFIR preset carries the AFIR graph over the dry WAV and the preset's
   * impulse response, tuned by the supplied dictionary; its afir gains lie in [0, 10].
   */
  lemma ReverbJob(files: set<Path>, dry: Path, out: Path, table: map<string, Option<ReverbSpec>>,
                  name: string, outputName: string, advanced: Option<map<string, Value>>, root: Path)
    requires LookupReverb(table, name).Some?
    requires FfmpegJob(files, dry, out, table, name, outputName, advanced, root).Success?
    ensures var spec := LookupReverb(table, name).value;
      var job := FfmpegJob(files, dry, out, table, name, outputName, advanced, root).value;
      && spec.impulse.Some?
      && ImpulseResponsePath(root, spec.impulse.value) in files
      && job.source == ReverbGraph(dry, ImpulseResponsePath(root, spec.impulse.value), Resolve(advanced))
    ensures var job := FfmpegJob(files, dry, out, table, name, outputName, advanced, root).value;
      forall s :: FilterNode(s) in Nodes(job.source) && s.Afir? ==>
        0.0 <= s.dry <= 10.0 && 0.0 <= s.wet <= 10.0
  {
    var spec := LookupReverb(table, name).value;
    ReverbGraphWiring(dry, ImpulseResponsePath(root, spec.impulse.value), Resolve(advanced));
  }

  /** The preset's own "options" entry is never read. */
  lemma PresetOptionsIgnored(files: set<Path>, dry: Path, name: string, spec: ReverbSpec,
                             options: map<string, real>, advanced: Option<map<string, Value>>, root: Path)
    ensures CompileReverb(files, dry, name, Some(spec), advanced, root)
            == CompileReverb(files, dry, name, Some(spec.(options := options)), advanced, root)
  {
  }

  // ---------------------------------------------------------------------------
  // Encoding
  // ---------------------------------------------------------------------------

  /**
   * The output node writes to the requested path with overwriting enabled, with the
   * preset's codec, and with a bitrate exactly when the preset has one.
   */
  lemma EncoderBinding(files: set<Path>, dry: Path, out: Path, table: map<string, Option<ReverbSpec>>,
                       name: string, outputName: string, advanced: Option<map<string, Value>>, root: Path)
    requires FfmpegJob(files, dry, out, table, name, outputName, advanced, root).Success?
    ensures outputName in OutputPresets()
    ensures var job := FfmpegJob(files, dry, out, table, name, outputName, advanced, root).value;
      var preset := OutputPresets()[outputName];
      && job.path == out && job.overwrite
      && job.options.Keys <= {"acodec", "audio_bitrate"}
      && "acodec" in job.options && job.options["acodec"] == preset.codec
      && ("audio_bitrate" in job.options <==> preset.bitrate.Some?)
      && ("audio_bitrate" in job.options ==> job.options["audio_bitrate"] == preset.bitrate.value)
  {
  }

  /** The three shipped output presets: WAV has no bitrate, MP3 is 192k, Opus is 96k. */
  lemma ShippedEncoders()
    ensures EncoderOptions(OutputPresets()["WAV (44.1 kHz)"]) == map["acodec" := "pcm_s16le"]
    ensures EncoderOptions(OutputPresets()["MP3 192 kbps"]) == map["acodec" := "libmp3lame", "audio_bitrate" := "192k"]
    ensures EncoderOptions(OutputPresets()["Opus 96 kbps"]) == map["acodec" := "libopus", "audio_bitrate" := "96k"]
  {
  }

  // ---------------------------------------------------------------------------
  // Validation order
  // ---------------------------------------------------------------------------

  /** The dry WAV is checked first, then the output preset, whatever the other arguments. */
  lemma CheckedBeforeReverb(files: set<Path>, dry: Path, out: Path, table: map<string, Option<ReverbSpec>>,
                            name: string, outputName: string, advanced: Option<map<string, Value>>, root: Path)
    ensures dry !in files ==>
      FfmpegJob(files, dry, out, table, name, outputName, advanced, root) == Failure(DryWavNotFound(dry))
    ensures dry in files && outputName !in OutputPresets() ==>
      FfmpegJob(files, dry, out, table, name, outputName, advanced, root) == Failure(UnknownOutputPreset(outputName))
  {
  }

  /**
   * For a preset, the type is checked before the impulse name, and the impulse name
   * before the impulse file.
   */
  lemma ReverbChecksInOrder(files: set<Path>, dry: Path, name: string, spec: ReverbSpec,
                            advanced: Option<map<string, Value>>, root: Path)
    ensures spec.rtype != Some(AFIR) ==>
      CompileReverb(files, dry, name, Some(spec), advanced, root) == Failure(UnknownReverbType(spec.rtype))
    ensures spec.rtype == Some(AFIR) && (spec.impulse.None? || spec.impulse.value == "") ==>
      CompileReverb(files, dry, name, Some(spec), advanced, root) == Failure(ImpulseNameMissing(name))
    ensures spec.rtype == Some(AFIR) && spec.impulse.Some? && spec.impulse.value != "" ==>
      var ir := ImpulseResponsePath(root, spec.impulse.value);
      (ir !in files ==> CompileReverb(files, dry, name, Some(spec), advanced, root) == Failure(ImpulseResponseNotFound(name, ir)))
      && (ir in files ==> CompileReverb(files, dry, name, Some(spec), advanced, root).Success?)
  {
  }

  /**
   * Every validation failure is a FileNotFoundError or a ValueError raised before ffmpeg
   * runs: the world is left untouched.
   */
  lemma FailsBeforeRunning(w: World, dry: Path, out: Path, table: map<string, Option<ReverbSpec>>,
                           name: string, outputName: string, advanced: Option<map<string, Value>>,
                           root: Path, engine: Proc)
    ensures var job := FfmpegJob(w.files, dry, out, table, name, outputName, advanced, root);
      job.Failure? ==>
        && ClassOf(job.error) in {FileNotFoundError, ValueError}
        && FfmpegStage(w, dry, out, table, name, outputName, advanced, root, engine) == StageResult(w, Some(job.error))
    ensures var job := FfmpegJob(w.files, dry, out, table, name, outputName, advanced, root);
      job.Success? ==>
        FfmpegStage(w, dry, out, table, name, outputName, advanced, root, engine).world.log == w.log + [RanGraph(job.value)]
  {
  }

  /** With the shipped reverb table, the type and impulse-name errors cannot occur. */
  lemma ShippedPresetsWellFormed(files: set<Path>, dry: Path, out: Path, name: string, outputName: string,
                                 advanced: Option<map<string, Value>>, root: Path)
    ensures var job := FfmpegJob(files, dry, out, ReverbPresets(), name, outputName, advanced, root);
      job.Failure? ==> !job.error.UnknownReverbType? && !job.error.ImpulseNameMissing?
  {
  }
}
