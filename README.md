# abc2piano render pipeline in Dafny

abc2piano turns an ABC music notation file into piano audio in three stages:

1. `abc2midi` converts the ABC file to a temporary MIDI file.
2. `fluidsynth` renders the MIDI file to a dry WAV file with a piano SoundFont.
3. `process_with_ffmpeg` builds an ffmpeg filter graph and runs it. The graph either passes
   the dry audio through unchanged or adds convolution reverb. Reverb means an `asplit` into an
   `afir` with an impulse response, mixed back with the dry branch by `amix`, followed by
   `volume` and an optional `alimiter`. The graph then encodes the result as WAV, MP3 or Opus.

This project models that core:

- the two preset tables and the resource paths;
- the precondition checks and argument lists of the two command-line stages and how their
  failures become exceptions;
- the construction of the filter graph and of the output encoder options, together with the
  order in which `process_with_ffmpeg` validates its request;
- the sequencing of the three stages inside a temporary directory by `export_abc_to_audio`.

The world is modelled as follows:

- **Files:** the file system is a set of existing paths. Paths are strings, and joining puts
  a `/` between a directory and a name (`Paths`).
- **Processes:** each external process is an oracle value (`Host.Proc`). Either the program
  is not on PATH, or it exits with a code and captured output after writing some files.
- **Log:** a render appends events to a log: temporary directory made, command launch attempted,
  filter graph run, temporary directory removed. Properties about order and about "nothing
  ran" are stated against this log.
- **Graph:** the ffmpeg graph is a tree of streams (`Graph.Stream`). Nodes are identified
  structurally, as ffmpeg-python identifies them by hashing. So the `asplit` shared by its two
  outputs counts once in `Graph.Nodes`.
- **Exceptions:** Python exceptions are values of `Errors.Error`, and `Errors.ClassOf` gives
  their Python class.

Modules:

- `Wrappers`: `Option` and `Result`.
- `Paths`: path joining, containment and removal of a directory tree.
- `Presets`: the reverb and output preset tables, the SoundFont file name and the
  impulse-response path.
- `Tuning`: the advanced-tuning dictionary, its defaults, and the clamping of the afir gains.
- `Graph`: streams, filter nodes, and node and source sets.
- `Errors`: the exceptions and the text of their messages.
- `Host`: processes, world and log.
- `Stages`: `abc_to_midi` and `midi_to_wav`.
- `ReverbCompiler`: `process_with_ffmpeg`.
- `Pipeline`: `export_abc_to_audio`.

`process_with_ffmpeg` and `export_abc_to_audio` work step by step, so each is a method:

- `ReverbCompiler.ProcessWithFfmpeg` rebinds the tuning dictionary, reassigns the audio
  stream when the limiter is on, and inserts the bitrate into the encoder options.
- `Pipeline.ExportAbcToAudio` enters the temporary directory, runs the stages and leaves the
  directory.

Each method is proved equal to a specification function (`FfmpegStage`, `Export`), and the
lemmas state the source's promises about those functions. The reverb table is a parameter of
both specification functions, so that the "unknown type" and "missing impulse" branches can be
reached. `ReverbCompiler.ProcessWithFfmpeg` turns the global `REVERB_PRESETS` it reads into
this parameter, and `Pipeline.ExportAbcToAudio` passes it the shipped table (`ReverbPresets()`).
`ReverbCompiler.ShippedPresetsWellFormed` shows that those two errors never arise with the
shipped table.

## Model

| member | source | states |
|---|---|---|
| Presets.ReverbPresets | abc2piano_gui.py:42-75 | The table maps "None" to no reverb. Every other entry is an `afir` preset with a non-empty impulse file name. |
| Presets.OutputPresets | abc2piano_gui.py:76-92 | An output preset has no bitrate exactly when its codec is `pcm_s16le`. |
| Presets.LookupReverb | abc2piano_gui.py:250 | `.get` finds a preset exactly when the label is in the table and maps to a preset. The preset found is the table's entry. |
| Presets.ShippedBypassLabels | abc2piano_gui.py:42-43 | With the shipped table, a label gives no reverb exactly when it is "None" or not in the table. |
| Presets.DefaultSoundFontPath | abc2piano_gui.py:111-112 | The default SoundFont lies directly inside the resource directory, under the fixed SF2 file name. |
| Presets.ImpulseResponsePath | abc2piano_gui.py:114-119 | An impulse response path lies inside `resources/impulses` and ends with the given file name. |
| Presets.ImpulseResponsePathInjective | abc2piano_gui.py:114-119 | Different file names give different impulse response paths. |
| Paths.RemoveTree | abc2piano_gui.py:341 | Leaving the `with` block removes the directory and everything inside it, and nothing else. |
| Tuning.Resolve | abc2piano_gui.py:257-266 | Each tuning key present in the dictionary is coerced with float() or bool(). Each missing key takes its default: dry 4.0, wet 1.0, post_volume 3.0, mix_dry 1.0, mix_wet 1.0, use_limiter True. |
| Tuning.DefaultsWhenAbsent | abc2piano_gui.py:258-266 | No dictionary and an empty dictionary both give exactly the six defaults. |
| Tuning.OtherKeysIgnored | abc2piano_gui.py:261-266 | Keys other than the six tuning keys do not affect the tuning. |
| Tuning.Clamp | abc2piano_gui.py:296-300 | `max(0, min(10, g))` lies in [0, 10]. It leaves in-range gains unchanged, sends negative gains to 0 and sends gains above 10 to 10. |
| Tuning.ClampIdempotent | abc2piano_gui.py:296-300 | Clamping twice is the same as clamping once. |
| Graph.Sources | abc2piano_gui.py:285-286 | Every stream reads at least one input file. |
| Graph.SourcesAreInputNodes | abc2piano_gui.py:285-286 | The files a stream reads are exactly the files of its input nodes. |
| Errors.NatDigitsValue | abc2piano_gui.py:157 | The decimal digits of a natural number read back as that number. |
| Errors.DecimalRoundTrip | abc2piano_gui.py:157 | The exit code printed in a failure report parses back to the same integer, negative codes included. |
| Errors.FailureReportCarriesDiagnostics | abc2piano_gui.py:153-159 | A failure report starts with the tool's headline and ends with the exit-code line followed by the captured output, verbatim. |
| Errors.InstallHintNamesPackage | abc2piano_gui.py:147-152 | The install hint ends with the `apt-get install` command for the tool's package. |
| Errors.MissingFileMessageNamesPath | abc2piano_gui.py:133-134 | The messages for a missing ABC file, MIDI file, dry WAV or impulse response end with the path that was not found. The SoundFont message is not covered, because it ends with advice text. |
| Errors.Message | abc2piano_gui.py:133-282 | The text of each exception the pipeline raises. A missing tool gives the install hint. A failed tool gives the failure report. An unknown output preset message ends with the preset name. The SoundFont message starts with "SoundFont not found: " and the path. |
| Stages.RunTool | abc2piano_gui.py:136-159 | Running a tool logs exactly its argument list and adds the files it wrote. A tool that is not on PATH raises the install hint. The stage succeeds exactly when the exit code is 0. A non-zero exit raises a failure carrying the command, exit code and output. Every failure is a RuntimeError. |
| Stages.AbcToMidi | abc2piano_gui.py:126-159 | A missing ABC file raises FileNotFoundError and leaves the world unchanged. Otherwise the stage runs exactly `abc2midi <abc> -o <midi>`. |
| Stages.MidiToWav | abc2piano_gui.py:161-213 | The MIDI file is checked first, then the SoundFont. Otherwise the stage runs exactly `fluidsynth -F wav -r 44100 -g 0.8 -i -n -T wav sf2 midi`. |
| Stages.SpawnsOnlyAfterChecks | abc2piano_gui.py:133-134 | A stage leaves the world unchanged exactly when it raises FileNotFoundError. |
| Stages.StageFailureIsDiagnosable | abc2piano_gui.py:153-159 | A non-zero abc2midi exit raises a RuntimeError whose text is the failure report for its command. The exit code in the report reads back as the process's code. |
| ReverbCompiler.RunGraph | abc2piano_gui.py:323-328 | Running the graph logs the job and adds the engine's files. It succeeds exactly when ffmpeg exits with status 0. A missing ffmpeg raises `EngineNotFound` (a FileNotFoundError), and a non-zero exit raises `EngineFailed` with that exit code (an ffmpeg.Error). |
| ReverbCompiler.ReverbGraph | abc2piano_gui.py:285-316 | The AFIR graph ends in alimiter exactly when use_limiter holds. Below that sits volume(post_volume) over an amix whose second input is afir, with both afir gains in [0, 10]. |
| ReverbCompiler.CompileReverb | abc2piano_gui.py:250-316 | No preset gives the dry input alone. A preset compiles exactly when its type is afir, its impulse name is non-empty and the impulse file exists. Every failure is a FileNotFoundError or a ValueError. |
| ReverbCompiler.ProcessWithFfmpeg | abc2piano_gui.py:215-328 | The step-by-step procedure gives exactly the result of the specification `FfmpegStage`. |
| ReverbCompiler.BypassPassesDryThrough | abc2piano_gui.py:250-254 | A label with no preset yields the dry input alone, encoded with the preset's options. The result does not depend on the tuning or the resource root, and the graph has a single input node. |
| ReverbCompiler.ReverbGraphNodes | abc2piano_gui.py:285-316 | The AFIR graph's nodes are two inputs, the asplit, afir, amix, volume and, when the limiter is on, alimiter. |
| ReverbCompiler.ReverbGraphCounts | abc2piano_gui.py:285-316 | The graph has exactly two inputs, one asplit and one each of afir, amix and volume. It has one alimiter if the limiter is on and none otherwise. |
| ReverbCompiler.ReverbGraphSources | abc2piano_gui.py:285-286 | The graph reads exactly the dry WAV and the impulse response. |
| ReverbCompiler.ReverbGraphWellFormed | abc2piano_gui.py:291-311 | Every split output index is below the split's output count. Every amix has as many inputs as it mixes. |
| ReverbCompiler.ReverbGraphWiring | abc2piano_gui.py:288-316 | Split output 0 and the impulse response feed afir with clamped gains. amix takes split output 1 first and afir second, with inputs=2 and weights (mix_dry, mix_wet). volume(post_volume) follows amix. alimiter is appended exactly when use_limiter holds. |
| ReverbCompiler.ReverbJob | abc2piano_gui.py:272-316 | A job built for an AFIR preset uses the AFIR graph over the dry WAV and the existing impulse response of the preset, tuned by the supplied dictionary. Every afir gain in it lies in [0, 10]. |
| ReverbCompiler.PresetOptionsIgnored | abc2piano_gui.py:48 | The preset's own "options" entry never affects the result. |
| ReverbCompiler.EncoderBinding | abc2piano_gui.py:319-326 | The output goes to the requested path with overwrite enabled. `acodec` is the preset's codec. `audio_bitrate` is present exactly when the preset has a bitrate, and then equals it. No other option is set. |
| ReverbCompiler.ShippedEncoders | abc2piano_gui.py:76-92 | WAV gets no bitrate, MP3 gets libmp3lame at 192k, and Opus gets libopus at 96k. |
| ReverbCompiler.CheckedBeforeReverb | abc2piano_gui.py:240-244 | A missing dry WAV raises FileNotFoundError first. An unknown output preset then raises ValueError, whatever the reverb request. |
| ReverbCompiler.ReverbChecksInOrder | abc2piano_gui.py:268-282 | A type other than afir raises ValueError, then a missing or empty impulse name raises ValueError, then a missing impulse file raises FileNotFoundError. Otherwise the graph is built. |
| ReverbCompiler.FailsBeforeRunning | abc2piano_gui.py:240-328 | Every validation failure is a FileNotFoundError or ValueError raised before ffmpeg runs, with the world unchanged. A valid request runs exactly its graph. |
| ReverbCompiler.ShippedPresetsWellFormed | abc2piano_gui.py:42-75 | With the shipped reverb table, the unknown-type and missing-impulse errors never occur. |
| Pipeline.ExportAbcToAudio | abc2piano_gui.py:330-354 | The step-by-step procedure gives exactly the result of the specification `Export`. |
| Pipeline.AbcStageSteps | abc2piano_gui.py:346 | abc_to_midi logs its command exactly when it got past its check. Its errors belong to stage 1. |
| Pipeline.SynthStageSteps | abc2piano_gui.py:347 | midi_to_wav logs its command exactly when it got past its checks. Its errors belong to stage 2. |
| Pipeline.FfmpegStageSteps | abc2piano_gui.py:348-354 | process_with_ffmpeg logs the graph exactly when it could build one. That graph writes to the output path with overwrite. Its errors belong to stage 3. |
| Pipeline.RunStagesSteps | abc2piano_gui.py:346-354 | Inside the block, the stages log abc2midi, then fluidsynth, then the ffmpeg graph. Each runs at most once, and none runs after the first error. |
| Pipeline.ExportStageOrder | abc2piano_gui.py:341-354 | A render logs making the temporary directory, then a prefix of the three stage actions, then removing the directory. A successful render logs all three actions. A failed render stops at the failing stage. |
| Pipeline.ExportPropagatesFirstError | abc2piano_gui.py:346-354 | The first exception propagates unchanged, and the directory is then removed. |
| Pipeline.ExportSuccessNeedsAllStages | abc2piano_gui.py:346-354 | A successful render saw abc2midi, fluidsynth and ffmpeg all exit with status 0. |
| Pipeline.ExportCleansUp | abc2piano_gui.py:341 | After every render, the temporary directory and its contents are gone. No file outside it was removed, and every remaining file existed before or was written by one of the three processes. |
| Pipeline.IntermediatesBelongToScope | abc2piano_gui.py:342-344 | `temp.mid` and `dry.wav` lie inside the render's temporary directory and are distinct. Renders with different directories never share an intermediate file. |
| Pipeline.NoNumberedMidiFallback | abc2piano_gui.py:343-347 | If abc2midi succeeds but writes `temp1.mid`, the render raises FileNotFoundError for `temp.mid`, fluidsynth never starts, and the directory is removed. |

## Left out

- The Tk `App` class and `main` (abc2piano_gui.py:361-600): user interface only. They call the pipeline with the values from the widgets.
- Actual execution of `abc2midi`, `fluidsynth` and the ffmpeg graph: each is an oracle parameter (`Host.Proc`) giving "not on PATH" or an exit code, its output and the files it wrote. The audio itself is not modelled.
- The text of the ffmpeg library's own exceptions: a missing ffmpeg is `EngineNotFound` and a non-zero exit is `EngineFailed(code)`, and `Errors.Message` is only defined for the exceptions the pipeline composes itself.
- The frozen-bundle detection in `get_resource_dir` (abc2piano_gui.py:106-108): it inspects the running interpreter. The resource root is a parameter instead.
- The choice of temporary directory name by `tempfile`: it is a parameter (`tmp`).
- pathlib normalisation (`resolve()`, `.`/`..`, repeated separators): paths are plain strings joined with `/`.
- Presets.ImpulseResponsePath: pathlib's `/` drops its left operand when the right one is absolute, so `get_impulse_response_path("/x.wav")` is `/x.wav`. The model always joins, so it and its `Within` promise match the source only for relative file names. All shipped impulse names are relative.
- The string formatting of the amix weights (`f"{mix_dry} {mix_wet}"`): the weights are an ordered pair of reals.
- Python's `float()`/`bool()` on arbitrary objects, including strings, NaN and infinities: tuning values are reals or booleans, with the two coercions between them.
- Errors.Message: the `!r` rendering of an unknown reverb type quotes the string with single quotes and does not reproduce Python's escaping of quotes and control characters.
- Real file-system errors such as permissions or a full disk, concurrency between renders, and floating-point rounding: gains are exact reals.
- `export_abc_to_audio` has no fallback to numbered MIDI outputs such as `temp1.mid`, and `abc_to_midi` checks the ABC file only inside the temporary directory's scope (abc2piano_gui.py:133, 341-347). The model follows this; see `Pipeline.NoNumberedMidiFallback`.
