/**
 * The two fixed preset tables (reverb and output) and the bundled-resource paths.
 * The resource root, which the program finds by inspecting how it was started, is a parameter.
 */
module Presets {
  import opened Wrappers
  import opened Paths

  /**
   * A reverb preset entry: a dictionary with optional "type" and "impulse" keys
   * and an "options" dictionary of suggested AFIR gains.
   */
  datatype ReverbSpec = ReverbSpec(rtype: Option<string>, impulse: Option<string>, options: map<string, real>)

  /** An output preset: file extension, ffmpeg audio codec, and bitrate (None for PCM). */
  datatype OutputPreset = OutputPreset(ext: string, codec: string, bitrate: Option<string>)

  const NO_REVERB: string := "None"
  const AFIR: string := "afir"
  const SF2_FILENAME: string := "YDP-GrandPiano-20160804.sf2"
  const PCM_CODEC: string := "pcm_s16le"

  function AfirPreset(impulse: string, dry: real, wet: real): ReverbSpec
  {
    ReverbSpec(Some(AFIR), Some(impulse), map["dry" := dry, "wet" := wet])
  }

  /** REVERB_PRESETS: label to preset, where None means no reverb. */
  function ReverbPresets(): (table: map<string, Option<ReverbSpec>>)
    ensures NO_REVERB in table && table[NO_REVERB] == None
    ensures forall name | name in table && table[name].Some? ::
              table[name].value.rtype == Some(AFIR) &&
              table[name].value.impulse.Some? && table[name].value.impulse.value != ""
  {
    map[
      NO_REVERB := None,
      "Dry studio" := Some(AfirPreset("IRx125_01A_dry-studio.wav", 1.2, 0.6)),
      "Small room" := Some(AfirPreset("IRx250_01A_small-room.wav", 1.0, 0.9)),
      "Concert hall" := Some(AfirPreset("IRx500_01A_concert-hall.wav", 4.0, 1.0)),
      "Wide hall" := Some(AfirPreset("IRx500_02A_wide-hall.wav", 0.9, 1.2)),
      "Grand hall" := Some(AfirPreset("IRx1000_01A_grand-hall.wav", 0.8, 1.3)),
      "Cinematic hall" := Some(AfirPreset("IRx1000_02A_cinematic-hall.wav", 0.7, 1.4))
    ]
  }

  /** OUTPUT_PRESETS: label to output format. */
  function OutputPresets(): (table: map<string, OutputPreset>)
    ensures forall name | name in table :: table[name].bitrate.None? <==> table[name].codec == PCM_CODEC
  {
    map[
      "WAV (44.1 kHz)" := OutputPreset(".wav", PCM_CODEC, None),
      "MP3 192 kbps" := OutputPreset(".mp3", "libmp3lame", Some("192k")),
      "Opus 96 kbps" := OutputPreset(".opus", "libopus", Some("96k"))
    ]
  }

  /**
   * `table.get(name)`: the preset for a label, None both for a label mapped to None
   * and for a label the table does not contain.
   */
  function LookupReverb(table: map<string, Option<ReverbSpec>>, name: string): (r: Option<ReverbSpec>)
    ensures r.Some? <==> name in table && table[name].Some?
    ensures r.Some? ==> r == table[name]
  {
    if name in table then table[name] else None
  }

  /** In the shipped table, only the "None" label and unknown labels give no reverb. */
  lemma ShippedBypassLabels(name: string)
    ensures LookupReverb(ReverbPresets(), name).None? <==> name == NO_REVERB || name !in ReverbPresets()
  {
  }

  /** get_default_soundfont_path: the SoundFont bundled directly under the resource root. */
  function DefaultSoundFontPath(root: Path): (p: Path)
    ensures Within(p, root) && p[|root| + 1..] == SF2_FILENAME
  {
    JoinIsWithin(root, SF2_FILENAME);
    Join(root, SF2_FILENAME)
  }

  /** get_impulse_response_path: `filename` under the resources' impulses/ directory. */
  function ImpulseResponsePath(root: Path, filename: string): (p: Path)
    ensures Within(p, Join(root, "impulses"))
    ensures p[|Join(root, "impulses")| + 1..] == filename
  {
    JoinIsWithin(Join(root, "impulses"), filename);
    Join(Join(root, "impulses"), filename)
  }

  /** Different impulse file names resolve to different paths. */
  lemma ImpulseResponsePathInjective(root: Path, a: string, b: string)
    ensures ImpulseResponsePath(root, a) == ImpulseResponsePath(root, b) <==> a == b
  {
    JoinInjective(Join(root, "impulses"), a, b);
  }
}
