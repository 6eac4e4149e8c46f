/**
 * The calibration overlay: user settings saved as `calibration_*` strings
 * are laid over the audio and LLM configuration sections. Each overlay
 * returns a new dict; a missing, blank or unparsable setting leaves the
 * configured value, a parsed one is clamped, and an exception raised by the
 * settings store abandons the rest of the overlay but keeps what was
 * already applied.
 */
module ConfigOverlay {
  import opened Wrappers
  import opened Text
  import opened Values

  /** What `settings_repo.get(key)` does: returns a string, returns None, or raises. */
  datatype Lookup = Found(s: string) | Missing | Raises

  type SettingsRepo = string -> Lookup

  const SensitivityKey := "calibration_sensitivity"
  const ChunkKey := "calibration_chunk_duration_sec"
  const MinLengthKey := "calibration_min_transcription_length"

  /** The setting carries a value: not None and not blank after stripping. */
  predicate Given(v: Lookup) {
    v.Found? && !Blank(v.s)
  }

  /**
   * One float setting laid over `key`: a given value that `float()` accepts
   * is clamped to `[lo, hi]`; anything else leaves the dict as it was.
   */
  function OverlayReal(d: Dict, key: string, v: Lookup, parseFloat: string -> Option<real>, lo: real, hi: real): (r: Dict)
    requires lo <= hi
    ensures r.Keys == d.Keys + (if r == d then {} else {key})
    ensures forall k :: k in d && k != key ==> r[k] == d[k]
    ensures Given(v) && parseFloat(v.s).Some? ==> r == d[key := Real(ClampR(parseFloat(v.s).value, lo, hi))]
    ensures !Given(v) || parseFloat(v.s).None? ==> r == d
  {
    if Given(v) then
      match parseFloat(v.s)
      case Some(x) => d[key := Real(ClampR(x, lo, hi))]
      case None => d
    else d
  }

  /** `apply_calibration_overlay`: sensitivity clamped to [0.5, 10], chunk duration to [4, 15] seconds. */
  function AudioOverlay(audio: Dict, repo: Option<SettingsRepo>, parseFloat: string -> Option<real>): (out: Dict)
    ensures repo.None? ==> out == audio
    ensures audio.Keys <= out.Keys <= audio.Keys + {"sensitivity", "chunk_duration_sec"}
    ensures forall k :: k in audio && k != "sensitivity" && k != "chunk_duration_sec" ==> out[k] == audio[k]
    ensures "sensitivity" in out && ("sensitivity" !in audio || out["sensitivity"] != audio["sensitivity"]) ==>
      out["sensitivity"].Real? && 0.5 <= out["sensitivity"].r <= 10.0
    ensures "chunk_duration_sec" in out && ("chunk_duration_sec" !in audio || out["chunk_duration_sec"] != audio["chunk_duration_sec"]) ==>
      out["chunk_duration_sec"].Real? && 4.0 <= out["chunk_duration_sec"].r <= 15.0
  {
    if repo.None? then audio
    else
      var sens := repo.value(SensitivityKey);
      if sens.Raises? then audio
      else
        var afterSens := OverlayReal(audio, "sensitivity", sens, parseFloat, 0.5, 10.0);
        var chunk := repo.value(ChunkKey);
        if chunk.Raises? then afterSens
        else OverlayReal(afterSens, "chunk_duration_sec", chunk, parseFloat, 4.0, 15.0)
  }

  /** A store that holds neither setting, or only blank ones, gives back an equal dict. */
  lemma AudioOverlayWithoutSettings(audio: Dict, repo: SettingsRepo, parseFloat: string -> Option<real>)
    requires !Given(repo(SensitivityKey)) && !Given(repo(ChunkKey))
    ensures AudioOverlay(audio, Some(repo), parseFloat) == audio
  {
  }

  /** Two parsed settings both land, clamped, and nothing else changes. */
  lemma AudioOverlayApplies(audio: Dict, repo: SettingsRepo, parseFloat: string -> Option<real>, s: real, c: real)
    requires Given(repo(SensitivityKey)) && parseFloat(repo(SensitivityKey).s) == Some(s)
    requires Given(repo(ChunkKey)) && parseFloat(repo(ChunkKey).s) == Some(c)
    ensures AudioOverlay(audio, Some(repo), parseFloat) ==
      audio["sensitivity" := Real(ClampR(s, 0.5, 10.0))]["chunk_duration_sec" := Real(ClampR(c, 4.0, 15.0))]
  {
  }

  /** The overlay is idempotent: laying the same settings over its own result changes nothing. */
  lemma AudioOverlayIdempotent(audio: Dict, repo: Option<SettingsRepo>, parseFloat: string -> Option<real>)
    ensures AudioOverlay(AudioOverlay(audio, repo, parseFloat), repo, parseFloat) == AudioOverlay(audio, repo, parseFloat)
  {
    if repo.Some? && !repo.value(SensitivityKey).Raises? {
      var sens := repo.value(SensitivityKey);
      var chunk := repo.value(ChunkKey);
      var once := AudioOverlay(audio, repo, parseFloat);
      var a1 := OverlayReal(audio, "sensitivity", sens, parseFloat, 0.5, 10.0);
      var b1 := OverlayReal(once, "sensitivity", sens, parseFloat, 0.5, 10.0);
      if chunk.Raises? {
        assert once == a1;
        assert b1 == a1;
      } else {
        assert b1 == once;
      }
    }
  }

  /** `apply_llm_calibration_overlay`: the minimum transcription length, never below 0. */
  function LlmOverlay(llm: Dict, repo: Option<SettingsRepo>): (out: Dict)
    ensures repo.None? ==> out == llm
    ensures llm.Keys <= out.Keys <= llm.Keys + {"min_transcription_length"}
    ensures forall k :: k in llm && k != "min_transcription_length" ==> out[k] == llm[k]
    ensures ("min_transcription_length" in out &&
             ("min_transcription_length" !in llm || out["min_transcription_length"] != llm["min_transcription_length"])) ==>
        out["min_transcription_length"].Int? && out["min_transcription_length"].i >= 0
  {
    if repo.None? then llm
    else
      var v := repo.value(MinLengthKey);
      if Given(v) then
        match ParseInt(v.s)
        case Some(n) => llm["min_transcription_length" := Int(Max(0, n))]
        case None => llm
      else llm
  }

  /**
   * A stored length printed from a number is read back: the number itself
   * when it is not negative, 0 when it is.
   */
  lemma LlmOverlayReadsPrinted(llm: Dict, repo: SettingsRepo, n: int)
    requires repo(MinLengthKey) == Found(IntToString(n))
    ensures LlmOverlay(llm, Some(repo)) == llm["min_transcription_length" := Int(if n >= 0 then n else 0)]
  {
    ParseIntToString(n);
    StripBlank(IntToString(n));
  }

  /** A setting that is absent, blank or not an integer leaves the section as it was. */
  lemma LlmOverlayIgnoresInvalid(llm: Dict, repo: SettingsRepo)
    requires !Given(repo(MinLengthKey)) || ParseInt(repo(MinLengthKey).s).None?
    ensures LlmOverlay(llm, Some(repo)) == llm
  {
  }
}
