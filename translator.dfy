/**
 * The `Translator` adapter: it resolves which pretrained model to use, the cloud
 * token and the device argument, builds its translation pipeline lazily, and
 * decides whether a text goes to the pipeline whole or split into sentences.
 *
 * The tokenizer, the model configuration, the two sentence segmenters and the
 * pipelines themselves belong to foreign libraries; they appear here as
 * function-valued parameters (`Foreign`), that is, as pure functions: each is
 * deterministic and always returns, so calling the pipeline never raises.
 */
module Translation {
  import opened Wrappers
  import Text

  /** A keyword-argument value; the adapter itself only ever writes None or a string. */
  datatype Value = PyNone | Str(s: string) | Other(tag: nat)

  /** The keyword dictionary forwarded to the local pipeline. */
  type Kwargs = map<string, Value>

  /** One element of the pipeline's output list: its "translation_text" entry. */
  datatype Record = Record(translationText: string)

  /** What the pipeline is applied to: the whole text, or the list of its sentences. */
  datatype Input = Whole(text: string) | Sentences(parts: seq<string>)

  /** How a pipeline was built: a local pipeline over the model, or the cloud inference client. */
  datatype PipelineKind = Local(model: string, kw: Kwargs) | Cloud(model: string, token: string)

  /** The two ValueErrors the constructor raises. */
  datatype InitError = ModelNotFound(src: string, dest: string) | TokenNotFound

  /** The foreign pieces, as pure functions: deterministic, and never raising. */
  datatype Foreign = Foreign(
    // AutoTokenizer for a model; applied to a text it gives the length of its input ids, None if it raises
    loadTokenizer: string -> (string -> Option<nat>),
    // AutoConfig for a model: its max_position_embeddings, None if reading it raises
    loadMaxPositions: string -> Option<int>,
    segmentEnglish: string -> seq<string>,
    segmentBangla: string -> seq<string>,
    // applying a pipeline of the given kind to an input with the call's keyword arguments
    run: (PipelineKind, Input, Kwargs) -> seq<Record>)

  const EnBnModel := "shhossain/opus-mt-en-to-bn"
  const BnEnModel := "Helsinki-NLP/opus-mt-bn-en"

  /** The built-in `model_config` table: known maximum lengths per model. */
  const ModelConfig: map<string, int> := map[EnBnModel := 128, BnEnModel := 512]

  /** The default model for each "src-dest" pair when the caller supplies no mapping. */
  const BuiltinDefaultModels: map<string, string> := map["en-bn" := EnBnModel, "bn-en" := BnEnModel]

  /** Maximum length used when neither the caller, the table nor the config gives one. */
  const FallbackMaxLength := 128

  /** Token length assumed when the tokenizer fails. */
  const UnknownTokenLength := 1024

  /** The keyword defaults of `Translator(...)` and of `translate(...)`. */
  const DefaultSrc := "en"
  const DefaultDest := "bn"
  const DefaultUseGpu := true
  const DefaultUseCloud := false
  const DefaultDelimiter := "\n"

  // ---------------------------------------------------------------------------
  // Model resolution

  /** The key of the defaults table for a language pair. */
  function PairKey(src: string, dest: string): string
  {
    src + "-" + dest
  }

  /** `default_models or {...}`: a missing or empty mapping gives way to the built-in one. */
  function EffectiveDefaults(defaultModels: Option<map<string, string>>): (r: map<string, string>)
    ensures |r| > 0
    ensures defaultModels.Some? && |defaultModels.value| > 0 ==> r == defaultModels.value
    ensures defaultModels.None? || |defaultModels.value| == 0 ==> r == BuiltinDefaultModels
  {
    if defaultModels.Some? && |defaultModels.value| > 0 then defaultModels.value else BuiltinDefaultModels
  }

  /**
   * `model or default_models[f"{src}-{dest}"]`, with the KeyError turned into
   * "model not found". An empty model name counts as absent, as in Python.
   */
  function ResolveModel(src: string, dest: string, model: Option<string>,
                        defaultModels: Option<map<string, string>>): (r: Result<string, InitError>)
    ensures model.Some? && model.value != "" ==> r == Success(model.value)
    ensures (model.None? || model.value == "") ==>
              (r.Success? <==> PairKey(src, dest) in EffectiveDefaults(defaultModels))
    ensures (model.None? || model.value == "") && r.Success? ==>
              r.value == EffectiveDefaults(defaultModels)[PairKey(src, dest)]
    ensures r.Failure? ==> r.error == ModelNotFound(src, dest)
  {
    if model.Some? && model.value != "" then Success(model.value)
    else
      var table := EffectiveDefaults(defaultModels);
      var key := PairKey(src, dest);
      if key in table then Success(table[key]) else Failure(ModelNotFound(src, dest))
  }

  /** For language codes without a hyphen, the table key determines the pair. */
  lemma KeyInjective(src: string, dest: string, src': string, dest': string)
    requires '-' !in src && '-' !in src'
    requires PairKey(src, dest) == PairKey(src', dest')
    ensures src == src' && dest == dest'
  {
    var k := PairKey(src, dest);
    assert k[|src|] == '-' && k[|src'|] == '-';
    assert src == k[..|src|] == src';
    assert dest == k[|src| + 1..] == dest';
  }

  /**
   * With no explicit model and no caller mapping, English to Bangla and Bangla to
   * English get the two built-in models, and a same-language pair is refused.
   */
  lemma BuiltinResolution()
    ensures ResolveModel("en", "bn", None, None) == Success(EnBnModel)
    ensures ResolveModel("bn", "en", None, None) == Success(BnEnModel)
    ensures ResolveModel("en", "en", None, None) == Failure(ModelNotFound("en", "en"))
    ensures ResolveModel("bn", "bn", None, None) == Failure(ModelNotFound("bn", "bn"))
  {
    assert PairKey("en", "bn") == "en-bn";
    assert PairKey("bn", "en") == "bn-en";
    assert PairKey("en", "en") == "en-en";
    assert PairKey("bn", "bn") == "bn-bn";
    assert "en-en" !in BuiltinDefaultModels;
    assert "bn-bn" !in BuiltinDefaultModels;
  }

  /** A caller's non-empty mapping replaces the built-in one entirely: a pair it lacks is refused. */
  lemma CallerDefaultsReplaceBuiltin(src: string, dest: string, defaults: map<string, string>)
    requires |defaults| > 0 && PairKey(src, dest) !in defaults
    ensures ResolveModel(src, dest, None, Some(defaults)) == Failure(ModelNotFound(src, dest))
  {
  }

  // ---------------------------------------------------------------------------
  // Token and device

  /** `huggingface_token or env`: an absent or empty explicit token gives way to the environment's. */
  function ResolveToken(explicit: Option<string>, env: Option<string>): (r: Option<string>)
    ensures explicit.Some? && explicit.value != "" ==> r == explicit
    ensures explicit.None? || explicit.value == "" ==> r == env
  {
    if explicit.Some? && explicit.value != "" then explicit else env
  }

  /** The device chosen from `use_gpu`: "cpu" without a GPU, None (the library's choice) otherwise. */
  function DeviceFor(useGpu: bool): (r: Value)
    ensures r == PyNone <==> useGpu
    ensures !useGpu ==> r == Str("cpu")
  {
    if useGpu then PyNone else Str("cpu")
  }

  /**
   * The device entry of the keyword dictionary: it is (re)set unless both "device"
   * and "device_map" are already present; no other key changes.
   */
  function FillDevice(kw: Kwargs, device: Value): (r: Kwargs)
    ensures r.Keys == kw.Keys + {"device"}
    ensures "device" in kw && "device_map" in kw ==> r == kw
    ensures !("device" in kw && "device_map" in kw) ==> r["device"] == device
    ensures forall k :: k in kw && k != "device" ==> r[k] == kw[k]
  {
    if "device" !in kw || "device_map" !in kw then kw["device" := device] else kw
  }

  /** Filling the device twice changes nothing more than filling it once. */
  lemma FillDeviceIdempotent(kw: Kwargs, device: Value)
    ensures FillDevice(FillDevice(kw, device), device) == FillDevice(kw, device)
  {
  }

  /** A caller's own "device" entry, given without "device_map", is overwritten. */
  lemma LoneDeviceOverwritten(kw: Kwargs, useGpu: bool)
    requires "device" in kw && "device_map" !in kw
    ensures FillDevice(kw, DeviceFor(useGpu))["device"] == (if useGpu then PyNone else Str("cpu"))
  {
  }

  // ---------------------------------------------------------------------------
  // Bangla detection

  /** A code point of the Unicode Bengali block, U+0980 to U+09FF. */
  predicate IsBengaliChar(c: char)
  {
    0x0980 <= c as int <= 0x09FF
  }

  /** `is_bangla`: some character of the text lies in the Bengali block. */
  function IsBangla(text: string): (r: bool)
    ensures r <==> exists i :: 0 <= i < |text| && IsBengaliChar(text[i])
  {
    if |text| == 0 then false
    else
      assert forall i :: 0 < i < |text| ==> text[i] == text[1..][i - 1];
      IsBengaliChar(text[0]) || IsBangla(text[1..])
  }

  /** A concatenation is Bangla iff one of its halves is. */
  lemma {:induction false} IsBanglaConcat(a: string, b: string)
    ensures IsBangla(a + b) == (IsBangla(a) || IsBangla(b))
  {
    if IsBangla(a) {
      var i :| 0 <= i < |a| && IsBengaliChar(a[i]);
      assert (a + b)[i] == a[i];
    }
    if IsBangla(b) {
      var i :| 0 <= i < |b| && IsBengaliChar(b[i]);
      assert (a + b)[|a| + i] == b[i];
    }
    if IsBangla(a + b) {
      var i :| 0 <= i < |a + b| && IsBengaliChar((a + b)[i]);
      if i < |a| {
        assert a[i] == (a + b)[i];
      } else {
        assert b[i - |a|] == (a + b)[i];
      }
    }
  }

  // ---------------------------------------------------------------------------
  // Maximum length

  /**
   * `get_max_length`: the caller's value, else the built-in table's entry for the
   * model, else the model config's max_position_embeddings, else 128.
   */
  function MaxLength(maxModelLength: Option<int>, model: string, configMaxPositions: Option<int>): (r: int)
    ensures maxModelLength.Some? ==> r == maxModelLength.value
    ensures maxModelLength.None? && model in ModelConfig ==> r == ModelConfig[model]
    ensures maxModelLength.None? && model !in ModelConfig && configMaxPositions.Some? ==>
              r == configMaxPositions.value
    ensures maxModelLength.None? && model !in ModelConfig && configMaxPositions.None? ==>
              r == FallbackMaxLength
  {
    if maxModelLength.Some? then maxModelLength.value
    else if model in ModelConfig then ModelConfig[model]
    else if configMaxPositions.Some? then configMaxPositions.value
    else FallbackMaxLength
  }

  /** For the two built-in models the config is never consulted: 128 and 512. */
  lemma BuiltinMaxLengths(config: Option<int>)
    ensures MaxLength(None, EnBnModel, config) == 128
    ensures MaxLength(None, BnEnModel, config) == 512
  {
  }

  // ---------------------------------------------------------------------------
  // Chunking decision and reassembly

  /** The token length used by `generate`: the tokenizer's count, 1024 if it failed. */
  function TokenLength(tokens: Option<nat>): (r: nat)
    ensures tokens.Some? ==> r == tokens.value
    ensures tokens.None? ==> r == UnknownTokenLength
  {
    tokens.GetOr(UnknownTokenLength)
  }

  /**
   * What `generate` hands to the pipeline: the whole text when its token length
   * fits the maximum, else its sentences from the Bangla segmenter for Bangla text
   * and from the English segmenter otherwise.
   */
  function PlanInput(tokenLength: nat, maxLength: int, text: string,
                     segmentEnglish: string -> seq<string>,
                     segmentBangla: string -> seq<string>): (r: Input)
    ensures r.Whole? <==> tokenLength <= maxLength
    ensures r.Whole? ==> r.text == text
    ensures r.Sentences? && IsBangla(text) ==> r.parts == segmentBangla(text)
    ensures r.Sentences? && !IsBangla(text) ==> r.parts == segmentEnglish(text)
  {
    if tokenLength > maxLength then
      Sentences(if IsBangla(text) then segmentBangla(text) else segmentEnglish(text))
    else Whole(text)
  }

  /** A text sent whole under some maximum is sent whole under every larger one. */
  lemma PlanMonotone(n: nat, m: int, m': int, text: string,
                     en: string -> seq<string>, bn: string -> seq<string>)
    requires m <= m' && PlanInput(n, m, text, en, bn).Whole?
    ensures PlanInput(n, m', text, en, bn) == Whole(text)
  {
  }

  /** When tokenization fails, a text is segmented exactly when the maximum is below 1024. */
  lemma UntokenizableText(m: int, text: string, en: string -> seq<string>, bn: string -> seq<string>)
    ensures PlanInput(TokenLength(None), m, text, en, bn).Sentences? <==> m < 1024
  {
  }

  /** The "translation_text" of each record, in order. */
  function Texts(results: seq<Record>): (r: seq<string>)
    ensures |r| == |results|
    ensures forall i :: 0 <= i < |results| ==> r[i] == results[i].translationText
  {
    seq(|results|, i requires 0 <= i < |results| => results[i].translationText)
  }

  /**
   * `translate`'s reassembly: a single result verbatim, otherwise all results
   * joined with the delimiter. The single case agrees with the join, so the
   * output is always the join.
   */
  function Reassemble(results: seq<Record>, delimiter: string): (r: string)
    ensures |results| == 0 ==> r == ""
    ensures |results| == 1 ==> r == results[0].translationText
    ensures r == Text.Join(Texts(results), delimiter)
  {
    if |results| == 1 then results[0].translationText
    else Text.Join(Texts(results), delimiter)
  }

  /**
   * With a one-character delimiter that no translation contains, the individual
   * translations can be recovered by splitting the reassembled text.
   */
  lemma ReassembleSplit(results: seq<Record>, c: char)
    requires |results| >= 1
    requires forall i :: 0 <= i < |results| ==> c !in results[i].translationText
    ensures Text.SplitOn(Reassemble(results, [c]), c) == Texts(results)
  {
    Text.SplitJoin(Texts(results), c);
  }

  /** The default delimiter "\n" is one character, so the split round trip applies to it. */
  lemma DefaultDelimiterSplit(results: seq<Record>)
    requires |results| >= 1
    requires forall i :: 0 <= i < |results| ==> '\n' !in results[i].translationText
    ensures DefaultDelimiter == ['\n']
    ensures Text.SplitOn(Reassemble(results, DefaultDelimiter), '\n') == Texts(results)
  {
    assert DefaultDelimiter == ['\n'];
    ReassembleSplit(results, '\n');
  }

  /**
   * `Translator()` with all defaults (as the test suite constructs it, English to
   * Bangla): the built-in English-to-Bangla model, whose limit is 128, and a
   * device entry of None unless the caller gave both "device" and "device_map".
   */
  lemma DefaultSettings(kw: Kwargs, config: Option<int>)
    ensures ResolveModel(DefaultSrc, DefaultDest, None, None) == Success(EnBnModel)
    ensures MaxLength(None, EnBnModel, config) == 128
    ensures !("device" in kw && "device_map" in kw) ==> FillDevice(kw, DeviceFor(DefaultUseGpu))["device"] == PyNone
    ensures !DefaultUseCloud
  {
    BuiltinResolution();
  }

  // ---------------------------------------------------------------------------
  // The objects

  /** A built pipeline; its identity is what the translator caches. */
  class Pipeline {
    const kind: PipelineKind

    constructor (kind: PipelineKind)
      ensures this.kind == kind
    {
      this.kind := kind;
    }
  }

  class Translator {
    const defaultModels: map<string, string>
    const model: string
    const maxModelLength: Option<int>
    const useCloud: bool
    const huggingfaceToken: Option<string>
    const kw: Kwargs
    const tokenizer: string -> Option<nat>
    const configMaxPositions: Option<int>
    const foreign: Foreign
    /** The lazily built pipeline (`_pipeline`), null until first use. */
    var cachedPipeline: Pipeline?
    /** How many pipelines this translator has built. */
    ghost var builds: nat

    /** A cloud translator has a token, and the cache holds the one pipeline ever built, if any. */
    ghost predicate Valid()
      reads this
    {
      (useCloud ==> huggingfaceToken.Some?) &&
      builds == (if cachedPipeline == null then 0 else 1) &&
      (cachedPipeline != null ==> cachedPipeline.kind == PipelineKindFor())
    }

    /** The pipeline this translator builds: the cloud client iff `use_cloud`. */
    function PipelineKindFor(): (k: PipelineKind)
      requires useCloud ==> huggingfaceToken.Some?
      ensures k.Cloud? <==> useCloud
      ensures k.model == model
      ensures k.Cloud? ==> k.token == huggingfaceToken.value
      ensures k.Local? ==> k.kw == kw
    {
      if useCloud then Cloud(model, huggingfaceToken.value) else Local(model, kw)
    }

    /** The maximum length of this translator's model. */
    function GetMaxLength(): (r: int)
      ensures maxModelLength.Some? ==> r == maxModelLength.value
      ensures maxModelLength.None? && model in ModelConfig ==> r == ModelConfig[model]
      ensures maxModelLength.None? && model !in ModelConfig ==> r == configMaxPositions.GetOr(FallbackMaxLength)
    {
      MaxLength(maxModelLength, model, configMaxPositions)
    }

    /** What `generate` hands to the pipeline for `text`. */
    function InputFor(text: string): (r: Input)
      ensures r.Whole? <==> TokenLength(tokenizer(text)) <= GetMaxLength()
      ensures r.Whole? ==> r.text == text
      ensures r.Sentences? ==>
                r.parts == if IsBangla(text) then foreign.segmentBangla(text) else foreign.segmentEnglish(text)
    {
      PlanInput(TokenLength(tokenizer(text)), GetMaxLength(), text, foreign.segmentEnglish, foreign.segmentBangla)
    }

    /** Assigns the already resolved settings; no pipeline is built yet. */
    constructor (defaultModels: map<string, string>, model: string, maxModelLength: Option<int>,
                 useCloud: bool, huggingfaceToken: Option<string>, kw: Kwargs,
                 tokenizer: string -> Option<nat>, configMaxPositions: Option<int>, foreign: Foreign)
      requires useCloud ==> huggingfaceToken.Some?
      ensures Valid() && cachedPipeline == null && builds == 0
      ensures this.defaultModels == defaultModels && this.model == model
      ensures this.maxModelLength == maxModelLength && this.useCloud == useCloud
      ensures this.huggingfaceToken == huggingfaceToken && this.kw == kw
      ensures this.tokenizer == tokenizer && this.configMaxPositions == configMaxPositions
      ensures this.foreign == foreign
    {
      this.defaultModels := defaultModels;
      this.model := model;
      this.maxModelLength := maxModelLength;
      this.useCloud := useCloud;
      this.huggingfaceToken := huggingfaceToken;
      this.kw := kw;
      this.tokenizer := tokenizer;
      this.configMaxPositions := configMaxPositions;
      this.foreign := foreign;
      cachedPipeline := null;
      builds := 0;
    }

    /**
     * The `pipeline` property: builds the pipeline on first use and returns the
     * same object on every later use.
     */
    method GetPipeline() returns (p: Pipeline)
      requires Valid()
      modifies this
      ensures Valid() && p == cachedPipeline && p.kind == PipelineKindFor()
      ensures old(cachedPipeline) != null ==> p == old(cachedPipeline) && builds == old(builds)
      ensures old(cachedPipeline) == null ==> fresh(p) && builds == old(builds) + 1
    {
      if cachedPipeline == null {
        if useCloud {
          cachedPipeline := new Pipeline(Cloud(model, huggingfaceToken.value));
        } else {
          cachedPipeline := new Pipeline(Local(model, kw));
        }
        builds := builds + 1;
      }
      p := cachedPipeline;
    }

    /**
     * `generate`: measures the text with the tokenizer (1024 tokens if that fails)
     * and applies the pipeline to the whole text or to its sentences.
     */
    method Generate(text: string, callKw: Kwargs) returns (results: seq<Record>)
      requires Valid()
      modifies this
      ensures Valid() && cachedPipeline != null
      ensures old(cachedPipeline) != null ==> cachedPipeline == old(cachedPipeline)
      ensures results == foreign.run(PipelineKindFor(), InputFor(text), callKw)
    {
      var tokenLength := UnknownTokenLength;
      var ids := tokenizer(text);
      if ids.Some? {
        tokenLength := ids.value;
      }
      if tokenLength > GetMaxLength() {
        var segment := foreign.segmentEnglish;
        if IsBangla(text) {
          segment := foreign.segmentBangla;
        }
        var p := GetPipeline();
        results := foreign.run(p.kind, Sentences(segment(text)), callKw);
      } else {
        var p := GetPipeline();
        results := foreign.run(p.kind, Whole(text), callKw);
      }
    }

    /** `translate`: generates and reassembles the results with the delimiter. */
    method Translate(text: string, delimiter: string, callKw: Kwargs) returns (out: string)
      requires Valid()
      modifies this
      ensures Valid() && cachedPipeline != null
      ensures old(cachedPipeline) != null ==> cachedPipeline == old(cachedPipeline)
      ensures out == Reassemble(foreign.run(PipelineKindFor(), InputFor(text), callKw), delimiter)
    {
      var results := Generate(text, callKw);
      out := Reassemble(results, delimiter);
    }
  }

  /**
   * `Translator.__init__`: resolves the model, then the token (failing for a cloud
   * translator without one), then fills in the device entry of the keyword
   * dictionary, loads the tokenizer and config, and leaves the pipeline unbuilt.
   */
  method New(src: string, dest: string, model: Option<string>, useGpu: bool, maxLength: Option<int>,
             defaultModels: Option<map<string, string>>, useCloud: bool,
             huggingfaceToken: Option<string>, envToken: Option<string>, kw: Kwargs, foreign: Foreign)
    returns (r: Result<Translator, InitError>)
    ensures r.Failure? <==>
              ResolveModel(src, dest, model, defaultModels).Failure? ||
              (useCloud && ResolveToken(huggingfaceToken, envToken).None?)
    ensures r.Failure? && ResolveModel(src, dest, model, defaultModels).Failure? ==>
              r.error == ModelNotFound(src, dest)
    ensures r.Failure? && ResolveModel(src, dest, model, defaultModels).Success? ==>
              r.error == TokenNotFound
    ensures r.Success? ==>
              var t := r.value;
              fresh(t) && t.Valid() && t.cachedPipeline == null &&
              t.defaultModels == EffectiveDefaults(defaultModels) &&
              t.model == ResolveModel(src, dest, model, defaultModels).value &&
              t.maxModelLength == maxLength && t.useCloud == useCloud &&
              t.huggingfaceToken == ResolveToken(huggingfaceToken, envToken) &&
              t.kw == FillDevice(kw, DeviceFor(useGpu)) &&
              t.tokenizer == foreign.loadTokenizer(t.model) &&
              t.configMaxPositions == foreign.loadMaxPositions(t.model) &&
              t.foreign == foreign
  {
    var table := EffectiveDefaults(defaultModels);
    var resolved := ResolveModel(src, dest, model, defaultModels);
    if resolved.Failure? {
      return Failure(resolved.error);
    }
    var token := ResolveToken(huggingfaceToken, envToken);
    if token.None? && useCloud {
      return Failure(TokenNotFound);
    }
    var device := PyNone;
    if !useGpu {
      device := Str("cpu");
    }
    var args := kw;
    if "device" !in args || "device_map" !in args {
      args := args["device" := device];
    }
    var t := new Translator(table, resolved.value, maxLength, useCloud, token, args,
                            foreign.loadTokenizer(resolved.value), foreign.loadMaxPositions(resolved.value), foreign);
    r := Success(t);
  }
}
