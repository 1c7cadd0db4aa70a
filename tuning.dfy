/**
 * The advanced reverb tuning: the optional dictionary a caller passes, the defaults used
 * for missing keys, and the clamp applied to the AFIR gains.
 */
module Tuning {
  import opened Wrappers

  /** A value stored in the advanced-tuning dictionary: a Python float or bool. */
  datatype Value = Real(r: real) | Bool(b: bool)

  /** Python `float(v)`: True is 1.0 and False is 0.0. */
  function AsFloat(v: Value): real
  {
    match v
    case Real(r) => r
    case Bool(b) => if b then 1.0 else 0.0
  }

  /** Python `bool(v)`: a float is true exactly when it is non-zero. */
  function AsBool(v: Value): bool
  {
    match v
    case Real(r) => r != 0.0
    case Bool(b) => b
  }

  /** Python `d.get(key, default)`. */
  function Get(d: map<string, Value>, key: string, default: Value): Value
  {
    if key in d then d[key] else default
  }

  const DEFAULT_DRY: real := 4.0
  const DEFAULT_WET: real := 1.0
  const DEFAULT_POST_VOLUME: real := 3.0
  const DEFAULT_MIX_DRY: real := 1.0
  const DEFAULT_MIX_WET: real := 1.0
  const DEFAULT_USE_LIMITER: bool := true

  /** The six tuning values in effect for an AFIR render. */
  datatype Tuning = Tuning(dry: real, wet: real, postVolume: real, mixDry: real, mixWet: real, useLimiter: bool)

  /** The dictionary actually consulted: an absent `advanced_reverb` is replaced by `{}`. */
  function Supplied(advanced: Option<map<string, Value>>): map<string, Value>
  {
    if advanced.None? then map[] else advanced.value
  }

  /**
   * The tuning for a render: each key present in the supplied dictionary is coerced with
   * float() or bool(); each missing key takes its fixed default.
   */
  function Resolve(advanced: Option<map<string, Value>>): (t: Tuning)
    ensures var d := Supplied(advanced);
      && (if "dry" in d then t.dry == AsFloat(d["dry"]) else t.dry == DEFAULT_DRY)
      && (if "wet" in d then t.wet == AsFloat(d["wet"]) else t.wet == DEFAULT_WET)
      && (if "post_volume" in d then t.postVolume == AsFloat(d["post_volume"]) else t.postVolume == DEFAULT_POST_VOLUME)
      && (if "mix_dry" in d then t.mixDry == AsFloat(d["mix_dry"]) else t.mixDry == DEFAULT_MIX_DRY)
      && (if "mix_wet" in d then t.mixWet == AsFloat(d["mix_wet"]) else t.mixWet == DEFAULT_MIX_WET)
      && (if "use_limiter" in d then t.useLimiter == AsBool(d["use_limiter"]) else t.useLimiter == DEFAULT_USE_LIMITER)
  {
    var d := Supplied(advanced);
    Tuning(
      AsFloat(Get(d, "dry", Real(DEFAULT_DRY))),
      AsFloat(Get(d, "wet", Real(DEFAULT_WET))),
      AsFloat(Get(d, "post_volume", Real(DEFAULT_POST_VOLUME))),
      AsFloat(Get(d, "mix_dry", Real(DEFAULT_MIX_DRY))),
      AsFloat(Get(d, "mix_wet", Real(DEFAULT_MIX_WET))),
      AsBool(Get(d, "use_limiter", Bool(DEFAULT_USE_LIMITER))))
  }

  /** No dictionary and an empty dictionary both give the defaults. */
  lemma DefaultsWhenAbsent()
    ensures Resolve(None) == Resolve(Some(map[]))
    ensures Resolve(None) == Tuning(4.0, 1.0, 3.0, 1.0, 1.0, true)
  {
  }

  /** Keys other than the six tuning keys are never read. */
  lemma OtherKeysIgnored(d: map<string, Value>, key: string, v: Value)
    requires key !in {"dry", "wet", "post_volume", "mix_dry", "mix_wet", "use_limiter"}
    ensures Resolve(Some(d[key := v])) == Resolve(Some(d))
  {
  }

  /** Python `min(a, b)`: `a` unless `b` is strictly smaller. */
  function PyMin(a: real, b: real): real
  {
    if b < a then b else a
  }

  /** Python `max(a, b)`: `a` unless `b` is strictly larger. */
  function PyMax(a: real, b: real): real
  {
    if b > a then b else a
  }

  const MAX_AFIR_GAIN: real := 10.0

  /** `max(0.0, min(10.0, g))`: the AFIR dry/wet gain actually passed to ffmpeg. */
  function Clamp(g: real): (r: real)
    ensures 0.0 <= r <= MAX_AFIR_GAIN
    ensures 0.0 <= g <= MAX_AFIR_GAIN ==> r == g
    ensures g < 0.0 ==> r == 0.0
    ensures g > MAX_AFIR_GAIN ==> r == MAX_AFIR_GAIN
  {
    PyMax(0.0, PyMin(MAX_AFIR_GAIN, g))
  }

  /** Clamping twice is clamping once. */
  lemma ClampIdempotent(g: real)
    ensures Clamp(Clamp(g)) == Clamp(g)
  {
  }
}
