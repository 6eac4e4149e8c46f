/**
 * Normalised configuration sections for modules: the generic `get_section`
 * merge of a raw section over defaults with per-key validators, and the
 * RAG and browser getters, which clamp every number into its range and
 * replace blank or unusable values by defaults.
 */
module SdkConfig {
  import opened Wrappers
  import opened Text
  import opened Values

  /** A validator returns the value to store, or raises TypeError or ValueError (None). */
  type Validator = Value -> Option<Value>

  /** A value after its validator: a raised TypeError or ValueError keeps the value. */
  function Validated(v: Validator, x: Value): Value {
    match v(x)
    case Some(y) => y
    case None => x
  }

  /**
   * `dict(raw_config.get(section) or {})`: a falsy section is the empty dict;
   * a truthy value that is not a dict makes `dict()` raise.
   */
  function RawSection(raw: Dict, section: string): (r: Result<Dict, PyError>)
    ensures !Truthy(Get(raw, section, Null)) ==> r == Ok(map[])
    ensures section in raw && raw[section].Obj? ==> r == Ok(raw[section].fields)
    ensures r.Err? <==> section in raw && Truthy(raw[section]) && !raw[section].Obj?
  {
    var v := Get(raw, section, Null);
    if !Truthy(v) then Ok(map[])
    else if v.Obj? then Ok(v.fields)
    else Err(TypeError)
  }

  /** The raw section's values laid over the defaults, for the defaults' keys only. */
  method MergeOver(defaults: Dict, given: Dict) returns (out: Dict)
    ensures out.Keys == defaults.Keys
    ensures forall k :: k in defaults ==> out[k] == (if k in given then given[k] else defaults[k])
  {
    out := defaults;
    var todo := given.Keys;
    while todo != {}
      invariant todo <= given.Keys
      invariant out.Keys == defaults.Keys
      invariant forall k :: k in defaults ==> out[k] == (if k in given && k !in todo then given[k] else defaults[k])
      decreases |todo|
    {
      var k :| k in todo;
      if k in defaults {
        out := out[k := given[k]];
      }
      todo := todo - {k};
    }
  }

  /** Each validated key replaced by its validator's answer; validators of absent keys do nothing. */
  method ApplyValidators(merged: Dict, validators: map<string, Validator>) returns (out: Dict)
    ensures out.Keys == merged.Keys
    ensures forall k :: k in merged ==>
      out[k] == (if k in validators then Validated(validators[k], merged[k]) else merged[k])
  {
    out := merged;
    var pending := validators.Keys;
    while pending != {}
      invariant pending <= validators.Keys
      invariant out.Keys == merged.Keys
      invariant forall k :: k in merged ==>
        out[k] == (if k in validators && k !in pending then Validated(validators[k], merged[k]) else merged[k])
      decreases |pending|
    {
      var k :| k in pending;
      if k in out {
        out := out[k := Validated(validators[k], out[k])];
      }
      pending := pending - {k};
    }
  }

  /**
   * `get_section`: the defaults, each overridden by the raw section's value
   * when it has one, then passed through that key's validator. The loops
   * visit the raw section's keys and the validators in some order; the
   * result does not depend on it.
   */
  method GetSection(raw: Dict, section: string, defaults: Dict, validators: map<string, Validator>)
    returns (r: Result<Dict, PyError>)
    ensures r.Err? <==> RawSection(raw, section).Err?
    ensures r.Ok? ==> r.value.Keys == defaults.Keys
    ensures r.Ok? ==> forall k :: k in defaults ==>
      r.value[k] == (if k in validators then Validated(validators[k], MergedValue(RawSection(raw, section).value, defaults, k))
                     else MergedValue(RawSection(raw, section).value, defaults, k))
  {
    var sec := RawSection(raw, section);
    if sec.Err? {
      return Err(sec.error);
    }
    var merged := MergeOver(defaults, sec.value);
    var out := ApplyValidators(merged, validators);
    return Ok(out);
  }

  /** The value a key of the defaults takes before validation. */
  function MergedValue(given: Dict, defaults: Dict, k: string): Value
    requires k in defaults
  {
    if k in given then given[k] else defaults[k]
  }

  /** The normalised RAG section. */
  datatype RagSection = RagSection(
    embeddingModel: string,
    baseUrl: string,
    vectorDbPath: string,
    chromaHost: Option<string>,
    chromaPort: int,
    topK: int,
    documentQaTopK: int,
    chunkSize: int,
    chunkOverlap: int,
    minQueryLength: int)

  const DefaultEmbeddingModel := "nomic-embed-text"
  const DefaultOllamaUrl := "http://localhost:11434"
  const DefaultVectorDbPath := "data/rag_chroma"

  /** `int(section.get(key, default))`. */
  function IntField(sec: Dict, key: string, default: int): Result<int, PyError> {
    PyInt(Get(sec, key, Int(default)))
  }

  /** A `str(x).strip() or default` field. */
  function TextField(sec: Dict, key: string, default: string, py: Builtins): (r: string)
    ensures (r != "" && Trimmed(r)) || r == default
    ensures Blank(PyStr(Get(sec, key, Str(default)), py)) ==> r == default
    ensures !Blank(PyStr(Get(sec, key, Str(default)), py)) ==> r == Strip(PyStr(Get(sec, key, Str(default)), py))
  {
    var s := Strip(PyStr(Get(sec, key, Str(default)), py));
    StripBlank(PyStr(Get(sec, key, Str(default)), py));
    if s == "" then default else s
  }

  /** `chroma_host`: the stripped text, or None when missing or blank. */
  function ChromaHost(sec: Dict, py: Builtins): (h: Option<string>)
    ensures h.Some? ==> h.value != "" && Trimmed(h.value)
    ensures Get(sec, "chroma_host", Null).Null? ==> h.None?
    ensures Get(sec, "chroma_host", Null).Str? ==>
      h == (if Blank(sec["chroma_host"].s) then None else Some(Strip(sec["chroma_host"].s)))
  {
    var v := Get(sec, "chroma_host", Null);
    if v.Null? then None
    else
      var s := Strip(PyStr(v, py));
      StripBlank(PyStr(v, py));
      if s == "" then None else Some(s)
  }

  /** `chroma_port`: clamped into [1, 65535], or 8000 when missing or not an integer. */
  function ChromaPort(sec: Dict): (p: int)
    ensures 1 <= p <= 65535
    ensures Get(sec, "chroma_port", Null).Null? ==> p == 8000
    ensures !Get(sec, "chroma_port", Null).Null? && PyInt(sec["chroma_port"]).Err? ==> p == 8000
    ensures !Get(sec, "chroma_port", Null).Null? && PyInt(sec["chroma_port"]).Ok? ==>
      p == Clamp(PyInt(sec["chroma_port"]).value, 1, 65535)
  {
    var v := Get(sec, "chroma_port", Null);
    if v.Null? then 8000
    else
      match PyInt(v)
      case Ok(n) => Clamp(n, 1, 65535)
      case Err(_) => 8000
  }

  /** Every `int()` the RAG getter does not guard succeeds. */
  predicate RagIntsConvertible(r: Dict) {
    && IntField(r, "top_k", 5).Ok? && IntField(r, "document_qa_top_k", 8).Ok?
    && IntField(r, "chunk_size", 500).Ok? && IntField(r, "chunk_overlap", 100).Ok?
    && IntField(r, "min_query_length", 3).Ok?
  }

  /** What every section the RAG getter returns satisfies. */
  predicate RagNormal(s: RagSection) {
    && s.embeddingModel != "" && Trimmed(s.embeddingModel)
    && (s.baseUrl != "" ==> s.baseUrl[|s.baseUrl| - 1] != '/')
    && (s.chromaHost.Some? ==> s.chromaHost.value != "" && Trimmed(s.chromaHost.value))
    && 1 <= s.chromaPort <= 65535
    && 1 <= s.topK <= 20 && 1 <= s.documentQaTopK <= 20
    && 100 <= s.chunkSize <= 2000 && 0 <= s.chunkOverlap <= 500
    && s.minQueryLength >= 0
  }

  lemma DefaultEmbeddingModelStripped()
    ensures Trimmed(DefaultEmbeddingModel) && Strip(DefaultEmbeddingModel) == DefaultEmbeddingModel
  {
    StripTrimmed(DefaultEmbeddingModel);
  }

  /** The body of `get_rag_section` once both sections are known to be dicts. */
  function RagFrom(r: Dict, ollama: Dict, py: Builtins): (res: Result<RagSection, PyError>)
    ensures res.Ok? <==> RagIntsConvertible(r)
    ensures res.Ok? ==> RagNormal(res.value)
    ensures res.Ok? ==>
      && res.value.embeddingModel == TextField(r, "embedding_model", DefaultEmbeddingModel, py)
      && res.value.baseUrl == RStripChar(PyStr(Get(ollama, "base_url", Str(DefaultOllamaUrl)), py), '/')
      && res.value.vectorDbPath == PyStr(Get(r, "vector_db_path", Str(DefaultVectorDbPath)), py)
      && res.value.chromaHost == ChromaHost(r, py)
      && res.value.chromaPort == ChromaPort(r)
      && res.value.topK == Clamp(IntField(r, "top_k", 5).value, 1, 20)
      && res.value.documentQaTopK == Clamp(IntField(r, "document_qa_top_k", 8).value, 1, 20)
      && res.value.chunkSize == Clamp(IntField(r, "chunk_size", 500).value, 100, 2000)
      && res.value.chunkOverlap == Clamp(IntField(r, "chunk_overlap", 100).value, 0, 500)
      && res.value.minQueryLength == Max(0, IntField(r, "min_query_length", 3).value)
  {
    DefaultEmbeddingModelStripped();
    if !RagIntsConvertible(r) then Err(FirstIntError(r))
    else Ok(RagFields(r, ollama, py))
  }

  /** The section's fields, read in the order of the dict literal. */
  function RagFields(r: Dict, ollama: Dict, py: Builtins): RagSection
    requires RagIntsConvertible(r)
  {
    RagSection(
      TextField(r, "embedding_model", DefaultEmbeddingModel, py),
      RStripChar(PyStr(Get(ollama, "base_url", Str(DefaultOllamaUrl)), py), '/'),
      PyStr(Get(r, "vector_db_path", Str(DefaultVectorDbPath)), py),
      ChromaHost(r, py),
      ChromaPort(r),
      Clamp(IntField(r, "top_k", 5).value, 1, 20),
      Clamp(IntField(r, "document_qa_top_k", 8).value, 1, 20),
      Clamp(IntField(r, "chunk_size", 500).value, 100, 2000),
      Clamp(IntField(r, "chunk_overlap", 100).value, 0, 500),
      Max(0, IntField(r, "min_query_length", 3).value))
  }

  /** The exception of the first unguarded `int()` that raises, in the order the dict literal evaluates them. */
  function FirstIntError(r: Dict): PyError
    requires !RagIntsConvertible(r)
  {
    if IntField(r, "top_k", 5).Err? then IntField(r, "top_k", 5).error
    else if IntField(r, "document_qa_top_k", 8).Err? then IntField(r, "document_qa_top_k", 8).error
    else if IntField(r, "chunk_size", 500).Err? then IntField(r, "chunk_size", 500).error
    else if IntField(r, "chunk_overlap", 100).Err? then IntField(r, "chunk_overlap", 100).error
    else IntField(r, "min_query_length", 3).error
  }

  /**
   * `get_rag_section`: fails when "rag" or "ollama" is a truthy non-dict or
   * an unguarded `int()` raises; otherwise every field is in its range.
   */
  function RagSectionOf(raw: Dict, py: Builtins): (res: Result<RagSection, PyError>)
    ensures res.Ok? <==>
      SectionOrEmpty(raw, "rag").Ok? && SectionOrEmpty(raw, "ollama").Ok? &&
      RagIntsConvertible(SectionOrEmpty(raw, "rag").value)
    ensures res.Ok? ==> RagNormal(res.value)
    ensures res.Ok? ==> res == RagFrom(SectionOrEmpty(raw, "rag").value, SectionOrEmpty(raw, "ollama").value, py)
  {
    match SectionOrEmpty(raw, "rag")
    case Err(e) => Err(e)
    case Ok(r) =>
      match SectionOrEmpty(raw, "ollama")
      case Err(e) => Err(e)
      case Ok(ollama) => RagFrom(r, ollama, py)
  }

  /** The section written back as configuration, `chroma_host` None as a null. */
  function RagConfig(s: RagSection): Dict {
    map[
      "rag" := Obj(map[
        "embedding_model" := Str(s.embeddingModel),
        "vector_db_path" := Str(s.vectorDbPath),
        "chroma_host" := (if s.chromaHost.Some? then Str(s.chromaHost.value) else Null),
        "chroma_port" := Int(s.chromaPort),
        "top_k" := Int(s.topK),
        "document_qa_top_k" := Int(s.documentQaTopK),
        "chunk_size" := Int(s.chunkSize),
        "chunk_overlap" := Int(s.chunkOverlap),
        "min_query_length" := Int(s.minQueryLength)]),
      "ollama" := Obj(map["base_url" := Str(s.baseUrl)])]
  }

  lemma ChromaHostStable(r: Dict, py: Builtins, h: Option<string>)
    requires h.Some? ==> h.value != "" && Trimmed(h.value)
    requires Get(r, "chroma_host", Null) == (if h.Some? then Str(h.value) else Null)
    ensures ChromaHost(r, py) == h
  {
    if h.Some? {
      StripBlank(h.value);
      StripTrimmed(h.value);
    }
  }

  lemma RagFromStable(s: RagSection, r: Dict, ollama: Dict, py: Builtins)
    requires RagNormal(s)
    requires Get(r, "embedding_model", Str(DefaultEmbeddingModel)) == Str(s.embeddingModel)
    requires Get(r, "vector_db_path", Str(DefaultVectorDbPath)) == Str(s.vectorDbPath)
    requires Get(r, "chroma_host", Null) == (if s.chromaHost.Some? then Str(s.chromaHost.value) else Null)
    requires Get(r, "chroma_port", Null) == Int(s.chromaPort)
    requires Get(r, "top_k", Int(5)) == Int(s.topK)
    requires Get(r, "document_qa_top_k", Int(8)) == Int(s.documentQaTopK)
    requires Get(r, "chunk_size", Int(500)) == Int(s.chunkSize)
    requires Get(r, "chunk_overlap", Int(100)) == Int(s.chunkOverlap)
    requires Get(r, "min_query_length", Int(3)) == Int(s.minQueryLength)
    requires Get(ollama, "base_url", Str(DefaultOllamaUrl)) == Str(s.baseUrl)
    ensures RagFrom(r, ollama, py) == Ok(s)
  {
    RagIntsStable(s, r);
    assert RagIntsConvertible(r);
    RagFieldsStable(s, r, ollama, py);
  }

  lemma RagFieldsStable(s: RagSection, r: Dict, ollama: Dict, py: Builtins)
    requires RagNormal(s) && RagIntsConvertible(r)
    requires Get(r, "embedding_model", Str(DefaultEmbeddingModel)) == Str(s.embeddingModel)
    requires Get(r, "vector_db_path", Str(DefaultVectorDbPath)) == Str(s.vectorDbPath)
    requires Get(r, "chroma_host", Null) == (if s.chromaHost.Some? then Str(s.chromaHost.value) else Null)
    requires Get(r, "chroma_port", Null) == Int(s.chromaPort)
    requires Get(r, "top_k", Int(5)) == Int(s.topK)
    requires Get(r, "document_qa_top_k", Int(8)) == Int(s.documentQaTopK)
    requires Get(r, "chunk_size", Int(500)) == Int(s.chunkSize)
    requires Get(r, "chunk_overlap", Int(100)) == Int(s.chunkOverlap)
    requires Get(r, "min_query_length", Int(3)) == Int(s.minQueryLength)
    requires Get(ollama, "base_url", Str(DefaultOllamaUrl)) == Str(s.baseUrl)
    ensures RagFields(r, ollama, py) == s
  {
    TextFieldStable(r, "embedding_model", DefaultEmbeddingModel, py, s.embeddingModel);
    ChromaHostStable(r, py, s.chromaHost);
    RagIntsStable(s, r);
    assert PyStr(Get(ollama, "base_url", Str(DefaultOllamaUrl)), py) == s.baseUrl;
    assert RStripChar(s.baseUrl, '/') == s.baseUrl;
  }

  lemma RagIntsStable(s: RagSection, r: Dict)
    requires RagNormal(s)
    requires Get(r, "chroma_port", Null) == Int(s.chromaPort)
    requires Get(r, "top_k", Int(5)) == Int(s.topK)
    requires Get(r, "document_qa_top_k", Int(8)) == Int(s.documentQaTopK)
    requires Get(r, "chunk_size", Int(500)) == Int(s.chunkSize)
    requires Get(r, "chunk_overlap", Int(100)) == Int(s.chunkOverlap)
    requires Get(r, "min_query_length", Int(3)) == Int(s.minQueryLength)
    ensures ChromaPort(r) == s.chromaPort
    ensures IntField(r, "top_k", 5) == Ok(s.topK) && IntField(r, "document_qa_top_k", 8) == Ok(s.documentQaTopK)
    ensures IntField(r, "chunk_size", 500) == Ok(s.chunkSize) && IntField(r, "chunk_overlap", 100) == Ok(s.chunkOverlap)
    ensures IntField(r, "min_query_length", 3) == Ok(s.minQueryLength)
  {
  }

  lemma TextFieldStable(sec: Dict, key: string, default: string, py: Builtins, t: string)
    requires t != "" && Trimmed(t)
    requires Get(sec, key, Str(default)) == Str(t)
    ensures TextField(sec, key, default, py) == t
  {
    StripBlank(t);
    StripTrimmed(t);
  }

  /** Normalisation is stable: a normalised section read back from configuration is itself. */
  lemma RagSectionStable(s: RagSection, py: Builtins)
    requires RagNormal(s)
    ensures RagSectionOf(RagConfig(s), py) == Ok(s)
  {
    var raw := RagConfig(s);
    var r := raw["rag"].fields;
    var ollama := raw["ollama"].fields;
    assert SectionOrEmpty(raw, "rag") == Ok(r);
    assert SectionOrEmpty(raw, "ollama") == Ok(ollama);
    RagConfigText(s);
    RagConfigInts(s);
    RagFromStable(s, r, ollama, py);
    assert RagSectionOf(raw, py) == RagFrom(r, ollama, py);
  }

  lemma RagConfigText(s: RagSection)
    ensures var r := RagConfig(s)["rag"].fields;
      && Get(r, "embedding_model", Str(DefaultEmbeddingModel)) == Str(s.embeddingModel)
      && Get(r, "vector_db_path", Str(DefaultVectorDbPath)) == Str(s.vectorDbPath)
      && Get(r, "chroma_host", Null) == (if s.chromaHost.Some? then Str(s.chromaHost.value) else Null)
      && Get(RagConfig(s)["ollama"].fields, "base_url", Str(DefaultOllamaUrl)) == Str(s.baseUrl)
  {
  }

  lemma RagConfigInts(s: RagSection)
    ensures var r := RagConfig(s)["rag"].fields;
      && Get(r, "chroma_port", Null) == Int(s.chromaPort)
      && Get(r, "top_k", Int(5)) == Int(s.topK)
      && Get(r, "document_qa_top_k", Int(8)) == Int(s.documentQaTopK)
      && Get(r, "chunk_size", Int(500)) == Int(s.chunkSize)
      && Get(r, "chunk_overlap", Int(100)) == Int(s.chunkOverlap)
      && Get(r, "min_query_length", Int(3)) == Int(s.minQueryLength)
  {
  }

  lemma RagFromDefaults(r: Dict, ollama: Dict, py: Builtins)
    requires "embedding_model" !in r && "vector_db_path" !in r && "chroma_host" !in r && "chroma_port" !in r
    requires "top_k" !in r && "document_qa_top_k" !in r && "chunk_size" !in r && "chunk_overlap" !in r
    requires "min_query_length" !in r && "base_url" !in ollama
    ensures RagFrom(r, ollama, py) ==
      Ok(RagSection(DefaultEmbeddingModel, DefaultOllamaUrl, DefaultVectorDbPath, None, 8000, 5, 8, 500, 100, 3))
  {
    RagTextDefaults(r, ollama, py);
    RagIntsDefault(r);
  }

  lemma RagTextDefaults(r: Dict, ollama: Dict, py: Builtins)
    requires "embedding_model" !in r && "vector_db_path" !in r && "chroma_host" !in r && "base_url" !in ollama
    ensures TextField(r, "embedding_model", DefaultEmbeddingModel, py) == DefaultEmbeddingModel
    ensures RStripChar(PyStr(Get(ollama, "base_url", Str(DefaultOllamaUrl)), py), '/') == DefaultOllamaUrl
    ensures PyStr(Get(r, "vector_db_path", Str(DefaultVectorDbPath)), py) == DefaultVectorDbPath
    ensures ChromaHost(r, py) == None
  {
    DefaultEmbeddingModelStripped();
    TextFieldStable(r, "embedding_model", DefaultEmbeddingModel, py, DefaultEmbeddingModel);
    DefaultOllamaUrlKept();
  }

  lemma DefaultOllamaUrlKept()
    ensures RStripChar(DefaultOllamaUrl, '/') == DefaultOllamaUrl
  {
  }

  lemma RagIntsDefault(r: Dict)
    requires "chroma_port" !in r && "top_k" !in r && "document_qa_top_k" !in r && "chunk_size" !in r
    requires "chunk_overlap" !in r && "min_query_length" !in r
    ensures ChromaPort(r) == 8000
    ensures IntField(r, "top_k", 5) == Ok(5) && IntField(r, "document_qa_top_k", 8) == Ok(8)
    ensures IntField(r, "chunk_size", 500) == Ok(500) && IntField(r, "chunk_overlap", 100) == Ok(100)
    ensures IntField(r, "min_query_length", 3) == Ok(3)
  {
  }

  /** Without "rag" and "ollama" sections every field takes its documented default. */
  lemma RagSectionDefaults(raw: Dict, py: Builtins)
    requires "rag" !in raw && "ollama" !in raw
    ensures RagSectionOf(raw, py) ==
      Ok(RagSection(DefaultEmbeddingModel, DefaultOllamaUrl, DefaultVectorDbPath, None, 8000, 5, 8, 500, 100, 3))
  {
    RagFromDefaults(map[], map[], py);
  }

  /** The normalised browser section. */
  datatype BrowserSection = BrowserSection(
    enabled: bool,
    chromeAppName: string,
    fetchTimeoutSec: int,
    fetchMaxRetries: int,
    searchEngineUrl: string,
    cooldownSec: real,
    demoDelaySec: real)

  const DefaultChromeApp := "Google Chrome"
  const DefaultSearchUrl := "https://duckduckgo.com/?q={query}"
  const QueryPlaceholder := "{query}"

  lemma DefaultSearchUrlHasPlaceholder()
    ensures Contains(DefaultSearchUrl, QueryPlaceholder)
  {
    assert DefaultSearchUrl[26..33] == QueryPlaceholder;
    ContainsAt(DefaultSearchUrl, QueryPlaceholder, 26);
  }

  lemma DefaultChromeAppStripped()
    ensures Trimmed(DefaultChromeApp) && Strip(DefaultChromeApp) == DefaultChromeApp
  {
    StripTrimmed(DefaultChromeApp);
  }

  /** An integer setting: clamped into [lo, hi]; missing or not an integer gives the default. */
  function GuardedInt(sec: Dict, key: string, lo: int, hi: int, default: int): (n: int)
    requires lo <= default <= hi
    ensures lo <= n <= hi
    ensures Get(sec, key, Null).Null? || PyInt(sec[key]).Err? ==> n == default
    ensures !Get(sec, key, Null).Null? && PyInt(sec[key]).Ok? ==> n == Clamp(PyInt(sec[key]).value, lo, hi)
  {
    var v := Get(sec, key, Null);
    if v.Null? then default
    else
      match PyInt(v)
      case Ok(x) => Clamp(x, lo, hi)
      case Err(_) => default
  }

  /** A float setting with a floor: missing or not a number gives the default. */
  function GuardedReal(sec: Dict, key: string, lo: real, default: real, py: Builtins): (x: real)
    requires lo <= default
    ensures lo <= x
    ensures Get(sec, key, Null).Null? || PyFloat(sec[key], py).Err? ==> x == default
    ensures !Get(sec, key, Null).Null? && PyFloat(sec[key], py).Ok? ==> x == MaxR(lo, PyFloat(sec[key], py).value)
  {
    var v := Get(sec, key, Null);
    if v.Null? then default
    else
      match PyFloat(v, py)
      case Ok(y) => MaxR(lo, y)
      case Err(_) => default
  }

  /**
   * `(b.get("search_engine_url") or "").strip()` kept only when it holds the
   * placeholder; a truthy value that is not a string has no `strip`.
   */
  function SearchUrl(sec: Dict): (r: Result<string, PyError>)
    ensures r.Ok? ==> Contains(r.value, QueryPlaceholder) && Trimmed(r.value)
    ensures r.Err? <==> Truthy(Get(sec, "search_engine_url", Null)) && !sec["search_engine_url"].Str?
    ensures r.Ok? && r.value != DefaultSearchUrl ==>
      "search_engine_url" in sec && sec["search_engine_url"].Str? && r.value == Strip(sec["search_engine_url"].s)
  {
    DefaultSearchUrlHasPlaceholder();
    assert Trimmed(DefaultSearchUrl);
    var v := Get(sec, "search_engine_url", Null);
    if !Truthy(v) then Ok(DefaultSearchUrl)
    else if !v.Str? then Err(AttributeError)
    else
      var s := Strip(v.s);
      if s == "" || !Contains(s, QueryPlaceholder) then Ok(DefaultSearchUrl) else Ok(s)
  }

  /** What every section the browser getter returns satisfies. */
  predicate BrowserNormal(s: BrowserSection) {
    && s.chromeAppName != "" && Trimmed(s.chromeAppName)
    && 5 <= s.fetchTimeoutSec <= 120
    && 0 <= s.fetchMaxRetries <= 5
    && Contains(s.searchEngineUrl, QueryPlaceholder) && Trimmed(s.searchEngineUrl)
    && s.cooldownSec >= 0.0
    && s.demoDelaySec >= 1.0
  }

  /** The body of `get_browser_section` once the section is known to be a dict. */
  function BrowserFrom(b: Dict, py: Builtins): (res: Result<BrowserSection, PyError>)
    ensures res.Err? <==> SearchUrl(b).Err?
    ensures res.Ok? ==> BrowserNormal(res.value)
    ensures res.Ok? ==>
      && res.value.enabled == Truthy(Get(b, "enabled", Bool(true)))
      && res.value.chromeAppName == TextField(b, "chrome_app_name", DefaultChromeApp, py)
      && res.value.fetchTimeoutSec == GuardedInt(b, "fetch_timeout_sec", 5, 120, 20)
      && res.value.fetchMaxRetries == GuardedInt(b, "fetch_max_retries", 0, 5, 2)
      && res.value.searchEngineUrl == SearchUrl(b).value
      && res.value.cooldownSec == GuardedReal(b, "cooldown_sec", 0.0, 2.0, py)
      && res.value.demoDelaySec == GuardedReal(b, "demo_delay_between_scenarios_sec", 1.0, 4.0, py)
  {
    match SearchUrl(b)
    case Err(e) => Err(e)
    case Ok(url) =>
      DefaultChromeAppStripped();
      Ok(BrowserSection(
        Truthy(Get(b, "enabled", Bool(true))),
        TextField(b, "chrome_app_name", DefaultChromeApp, py),
        GuardedInt(b, "fetch_timeout_sec", 5, 120, 20),
        GuardedInt(b, "fetch_max_retries", 0, 5, 2),
        url,
        GuardedReal(b, "cooldown_sec", 0.0, 2.0, py),
        GuardedReal(b, "demo_delay_between_scenarios_sec", 1.0, 4.0, py)))
  }

  /**
   * `get_browser_section`: fails only when the section is a truthy non-dict
   * or the search URL is a truthy non-string.
   */
  function BrowserSectionOf(raw: Dict, py: Builtins): (res: Result<BrowserSection, PyError>)
    ensures res.Err? <==> SectionOrEmpty(raw, "browser").Err? || SearchUrl(SectionOrEmpty(raw, "browser").value).Err?
    ensures res.Ok? ==> BrowserNormal(res.value)
    ensures res.Ok? ==> res == BrowserFrom(SectionOrEmpty(raw, "browser").value, py)
  {
    match SectionOrEmpty(raw, "browser")
    case Err(e) => Err(e)
    case Ok(b) => BrowserFrom(b, py)
  }

  function BrowserConfig(s: BrowserSection): Dict {
    map["browser" := Obj(map[
      "enabled" := Bool(s.enabled),
      "chrome_app_name" := Str(s.chromeAppName),
      "fetch_timeout_sec" := Int(s.fetchTimeoutSec),
      "fetch_max_retries" := Int(s.fetchMaxRetries),
      "search_engine_url" := Str(s.searchEngineUrl),
      "cooldown_sec" := Real(s.cooldownSec),
      "demo_delay_between_scenarios_sec" := Real(s.demoDelaySec)])]
  }

  lemma BrowserFromStable(s: BrowserSection, b: Dict, py: Builtins)
    requires BrowserNormal(s)
    requires Get(b, "enabled", Bool(true)) == Bool(s.enabled)
    requires Get(b, "chrome_app_name", Str(DefaultChromeApp)) == Str(s.chromeAppName)
    requires Get(b, "fetch_timeout_sec", Null) == Int(s.fetchTimeoutSec)
    requires Get(b, "fetch_max_retries", Null) == Int(s.fetchMaxRetries)
    requires Get(b, "search_engine_url", Null) == Str(s.searchEngineUrl)
    requires Get(b, "cooldown_sec", Null) == Real(s.cooldownSec)
    requires Get(b, "demo_delay_between_scenarios_sec", Null) == Real(s.demoDelaySec)
    ensures BrowserFrom(b, py) == Ok(s)
  {
    TextFieldStable(b, "chrome_app_name", DefaultChromeApp, py, s.chromeAppName);
    SearchUrlStable(b, s.searchEngineUrl);
    BrowserScalarsStable(s, b, py);
  }

  lemma SearchUrlStable(b: Dict, url: string)
    requires Contains(url, QueryPlaceholder) && Trimmed(url)
    requires Get(b, "search_engine_url", Null) == Str(url)
    ensures SearchUrl(b) == Ok(url)
  {
    assert OccursAt(url, QueryPlaceholder, IndexOf(url, QueryPlaceholder).value);
    StripTrimmed(url);
  }

  lemma BrowserScalarsStable(s: BrowserSection, b: Dict, py: Builtins)
    requires BrowserNormal(s)
    requires Get(b, "enabled", Bool(true)) == Bool(s.enabled)
    requires Get(b, "fetch_timeout_sec", Null) == Int(s.fetchTimeoutSec)
    requires Get(b, "fetch_max_retries", Null) == Int(s.fetchMaxRetries)
    requires Get(b, "cooldown_sec", Null) == Real(s.cooldownSec)
    requires Get(b, "demo_delay_between_scenarios_sec", Null) == Real(s.demoDelaySec)
    ensures Truthy(Get(b, "enabled", Bool(true))) == s.enabled
    ensures GuardedInt(b, "fetch_timeout_sec", 5, 120, 20) == s.fetchTimeoutSec
    ensures GuardedInt(b, "fetch_max_retries", 0, 5, 2) == s.fetchMaxRetries
    ensures GuardedReal(b, "cooldown_sec", 0.0, 2.0, py) == s.cooldownSec
    ensures GuardedReal(b, "demo_delay_between_scenarios_sec", 1.0, 4.0, py) == s.demoDelaySec
  {
  }

  /** Normalisation is stable: a normalised browser section read back from configuration is itself. */
  lemma BrowserSectionStable(s: BrowserSection, py: Builtins)
    requires BrowserNormal(s)
    ensures BrowserSectionOf(BrowserConfig(s), py) == Ok(s)
  {
    var raw := BrowserConfig(s);
    assert SectionOrEmpty(raw, "browser") == Ok(raw["browser"].fields);
    BrowserFromStable(s, raw["browser"].fields, py);
  }

  lemma BrowserFromDefaults(b: Dict, py: Builtins)
    requires "enabled" !in b && "chrome_app_name" !in b && "fetch_timeout_sec" !in b && "fetch_max_retries" !in b
    requires "search_engine_url" !in b && "cooldown_sec" !in b && "demo_delay_between_scenarios_sec" !in b
    ensures BrowserFrom(b, py) == Ok(BrowserSection(true, DefaultChromeApp, 20, 2, DefaultSearchUrl, 2.0, 4.0))
  {
    DefaultChromeAppStripped();
    assert SearchUrl(b) == Ok(DefaultSearchUrl);
  }

  /** Without a "browser" section every field takes its documented default. */
  lemma BrowserSectionDefaults(raw: Dict, py: Builtins)
    requires "browser" !in raw
    ensures BrowserSectionOf(raw, py) == Ok(BrowserSection(true, DefaultChromeApp, 20, 2, DefaultSearchUrl, 2.0, 4.0))
  {
    BrowserFromDefaults(map[], py);
  }
}
