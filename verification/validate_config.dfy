/**
 * The pure checks `validate_config` runs on the loaded configuration
 * before it contacts Ollama: a non-empty config, a positive integer sample
 * rate, a positive chunk duration, a sensitivity in [0.1, 10] and a
 * non-blank model name, each with its documented default. The checks run
 * in order and the first one that fails names the error.
 */
module ValidateConfig {
  import opened Wrappers
  import opened Text
  import opened Values

  const EmptyMessage := "Config is empty"
  const SampleRateNotInt := "config.audio.sample_rate must be a positive integer"
  const SampleRateNotPositive := "config.audio.sample_rate must be positive"
  const ChunkNotNumber := "config.audio.chunk_duration_sec must be a positive number"
  const ChunkNotPositive := "config.audio.chunk_duration_sec must be positive"
  const SensitivityNotNumber := "config.audio.sensitivity must be a number"
  const SensitivityOutOfRange := "config.audio.sensitivity must be between 0.1 and 10.0"
  const ModelNameBlank := "config.ollama.model_name must be non-empty"

  /** The configuration passed the checks, or the exception they raise. */
  datatype Verdict = Valid | Invalid(error: PyError)

  function SampleRate(audio: Dict): Result<int, PyError> {
    PyInt(Get(audio, "sample_rate", Int(16000)))
  }

  function ChunkDuration(audio: Dict, py: Builtins): Result<real, PyError> {
    PyFloat(Get(audio, "chunk_duration_sec", Real(5.0)), py)
  }

  function Sensitivity(audio: Dict, py: Builtins): Result<real, PyError> {
    PyFloat(Get(audio, "sensitivity", Real(2.5)), py)
  }

  /** `not model or not str(model).strip()`. */
  predicate BlankModel(ollama: Dict, py: Builtins) {
    var model := Get(ollama, "model_name", Str("mistral"));
    !Truthy(model) || Blank(PyStr(model, py))
  }

  /** The checks on the audio section, given that it is a dict. */
  function CheckAudio(audio: Dict, py: Builtins): (v: Verdict)
    ensures v.Invalid? ==> v.error.ValueError?
    ensures v == Valid <==>
      && SampleRate(audio).Ok? && SampleRate(audio).value > 0
      && ChunkDuration(audio, py).Ok? && ChunkDuration(audio, py).value > 0.0
      && Sensitivity(audio, py).Ok? && 0.1 <= Sensitivity(audio, py).value <= 10.0
    ensures SampleRate(audio).Err? ==> v == Invalid(ValueError(SampleRateNotInt))
    ensures SampleRate(audio).Ok? && SampleRate(audio).value <= 0 ==> v == Invalid(ValueError(SampleRateNotPositive))
    ensures SampleRate(audio).Ok? && SampleRate(audio).value > 0 ==>
      && (ChunkDuration(audio, py).Err? ==> v == Invalid(ValueError(ChunkNotNumber)))
      && (ChunkDuration(audio, py).Ok? && ChunkDuration(audio, py).value <= 0.0 ==> v == Invalid(ValueError(ChunkNotPositive)))
      && (ChunkDuration(audio, py).Ok? && ChunkDuration(audio, py).value > 0.0 ==>
            && (Sensitivity(audio, py).Err? ==> v == Invalid(ValueError(SensitivityNotNumber)))
            && (Sensitivity(audio, py).Ok? && !(0.1 <= Sensitivity(audio, py).value <= 10.0) ==>
                  v == Invalid(ValueError(SensitivityOutOfRange))))
  {
    match SampleRate(audio)
    case Err(_) => Invalid(ValueError(SampleRateNotInt))
    case Ok(sr) =>
      if sr <= 0 then Invalid(ValueError(SampleRateNotPositive))
      else
        match ChunkDuration(audio, py)
        case Err(_) => Invalid(ValueError(ChunkNotNumber))
        case Ok(chunk) =>
          if chunk <= 0.0 then Invalid(ValueError(ChunkNotPositive))
          else
            match Sensitivity(audio, py)
            case Err(_) => Invalid(ValueError(SensitivityNotNumber))
            case Ok(sens) =>
              if !(0.1 <= sens <= 10.0) then Invalid(ValueError(SensitivityOutOfRange))
              else Valid
  }

  /**
   * `validate_config` up to the Ollama checks. A truthy "audio" or
   * "ollama" value that is not a dict raises AttributeError at its `.get`.
   */
  function Validate(config: Dict, py: Builtins): (v: Verdict)
    ensures config == map[] ==> v == Invalid(ValueError(EmptyMessage))
    ensures v == Valid <==>
      && config != map[]
      && SectionOrEmpty(config, "audio").Ok? && CheckAudio(SectionOrEmpty(config, "audio").value, py) == Valid
      && SectionOrEmpty(config, "ollama").Ok? && !BlankModel(SectionOrEmpty(config, "ollama").value, py)
    ensures config != map[] && SectionOrEmpty(config, "audio").Err? ==> v == Invalid(AttributeError)
    ensures config != map[] && SectionOrEmpty(config, "audio").Ok? ==>
      var audioVerdict := CheckAudio(SectionOrEmpty(config, "audio").value, py);
      && (audioVerdict.Invalid? ==> v == audioVerdict)
      && (audioVerdict == Valid && SectionOrEmpty(config, "ollama").Err? ==> v == Invalid(AttributeError))
      && ((audioVerdict == Valid && SectionOrEmpty(config, "ollama").Ok? &&
           BlankModel(SectionOrEmpty(config, "ollama").value, py)) ==> v == Invalid(ValueError(ModelNameBlank)))
  {
    if config == map[] then Invalid(ValueError(EmptyMessage))
    else
      match SectionOrEmpty(config, "audio")
      case Err(e) => Invalid(e)
      case Ok(audio) =>
        match CheckAudio(audio, py)
        case Invalid(e) => Invalid(e)
        case Valid =>
          match SectionOrEmpty(config, "ollama")
          case Err(e) => Invalid(e)
          case Ok(ollama) =>
            if BlankModel(ollama, py) then Invalid(ValueError(ModelNameBlank)) else Valid
  }

  /**
   * Without "audio" and "ollama" sections the defaults apply, and they pass:
   * 16000, 5.0, 2.5 and "mistral".
   */
  lemma DefaultsAreValid(config: Dict, py: Builtins)
    requires config != map[] && "audio" !in config && "ollama" !in config
    ensures Validate(config, py) == Valid
  {
    assert !Blank("mistral") by {
      assert !IsSpace("mistral"[0]);
    }
  }

  /** A sample rate of 0 is rejected as not positive whatever follows it. */
  lemma ZeroSampleRateRejected(config: Dict, audio: Dict, py: Builtins)
    requires "audio" in config && config["audio"] == Obj(audio)
    requires "sample_rate" in audio && audio["sample_rate"] == Int(0)
    ensures Validate(config, py) == Invalid(ValueError(SampleRateNotPositive))
  {
  }

  /** An empty model name is rejected once the audio checks pass. */
  lemma EmptyModelRejected(config: Dict, ollama: Dict, py: Builtins)
    requires config != map[] && "audio" !in config
    requires "ollama" in config && config["ollama"] == Obj(ollama)
    requires "model_name" in ollama && ollama["model_name"] == Str("")
    ensures Validate(config, py) == Invalid(ValueError(ModelNameBlank))
  {
  }
}
