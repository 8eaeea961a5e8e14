# bntrans — a Dafny model of the translation adapter

`bntrans` wraps a pretrained English↔Bangla translation model. Its `Translator`
picks the model for a language pair, resolves the inference-API token and the
device argument, builds a translation pipeline lazily on first use, and decides
whether a text goes to that pipeline whole or, when it is longer than the model's
token budget, split into sentences by an English or a Bangla segmenter; the
per-sentence translations are joined back with a delimiter. The test suite's
`match_percentage` helper scores a translation against an expected string.

The model consists of:

- `wrappers.dfy` (module `Wrappers`): `Option` for Python's `None`, `Result` for
  raised exceptions.
- `text.dfy` (module `Text`): `Join`, Python's `delimiter.join`, and its inverse
  `SplitOn` for a one-character delimiter, with the split-after-join round trip.
- `translator.dfy` (module `Translation`): the resolution rules as functions
  (`ResolveModel`, `ResolveToken`, `FillDevice`, `IsBangla`, `MaxLength`,
  `PlanInput`, `Reassemble`) with lemmas about them. The object itself is the class
  `Translator`: its settings are fixed at construction, and its pipeline cache is a
  mutable field with a ghost build counter. `GetPipeline` is the lazy `pipeline`
  property, `Generate` and `Translate` are the two methods, and `New` is
  `__init__`, which either returns a fresh translator or the `ValueError` it raises.
- `match_percentage.dfy` (module `MatchPercentage`): the helper method with its
  truncation and division (the division-by-zero case is an error result); its
  counting loop is the method `CountMatches`.

The foreign pieces stand in the `Foreign` datatype as pure functions. Each is
deterministic and always returns, so calling the pipeline never raises. Nothing
else is assumed about them: the tokenizer loaded for a model (text → token count,
or none when it raises), the model config's `max_position_embeddings` (none for
"raises"), the two sentence segmenters (text → list of sentences) and the
pipeline itself (pipeline kind, input, call keywords → list of records). The
`HUGGINGFACE_TOKEN` environment variable is the `envToken` parameter of `New`.

Python truthiness is kept where the source relies on `or`: an empty model name, an
empty explicit token or an empty `default_models` dictionary falls through exactly
like `None`. The `device` rule is modelled as written (`"device" not in kw or
"device_map" not in kw`). So a caller's own `device` entry given without
`device_map` is overwritten (`LoneDeviceOverwritten`).

## Model

| member | source | states |
|---|---|---|
| `Translation.ResolveModel` | bntrans/translator.py:96-106 | a non-empty explicit model is used as is; otherwise the result succeeds iff "src-dest" is a key of the caller's non-empty mapping (else of the built-in one) and is then that entry; every failure is "model not found" for the pair |
| `Translation.KeyInjective` | bntrans/translator.py:102 | for language codes without a hyphen, the "src-dest" key determines the pair |
| `Translation.BuiltinResolution` | bntrans/translator.py:96-106 | with no model and no mapping, en→bn gives shhossain/opus-mt-en-to-bn, bn→en gives Helsinki-NLP/opus-mt-bn-en, and en→en or bn→bn fail |
| `Translation.CallerDefaultsReplaceBuiltin` | bntrans/translator.py:96-99 | a caller's non-empty mapping replaces the built-in one: a pair it lacks fails even when the built-in map has it |
| `Translation.EffectiveDefaults` | bntrans/translator.py:96-99 | a caller's non-empty mapping is used as given; a missing or empty one gives the built-in en-bn/bn-en map; never empty |
| `Translation.ResolveToken` | bntrans/translator.py:110 | a non-empty explicit token wins; otherwise the environment's value (possibly none) is used |
| `Translation.DeviceFor` | bntrans/translator.py:117-119 | the device is None exactly when a GPU may be used, and "cpu" otherwise |
| `Translation.FillDevice` | bntrans/translator.py:117-121 | the keys become the old keys plus "device"; the dictionary is unchanged when both "device" and "device_map" are present, otherwise "device" is set; no other key changes |
| `Translation.FillDeviceIdempotent` | bntrans/translator.py:120-121 | filling the device entry a second time changes nothing |
| `Translation.LoneDeviceOverwritten` | bntrans/translator.py:117-121 | a caller's "device" given without "device_map" is replaced by None with a GPU and by "cpu" without one |
| `Translation.IsBangla` | bntrans/translator.py:139-140 | true iff some character has a code point in U+0980–U+09FF (so the empty text is not Bangla) |
| `Translation.IsBanglaConcat` | bntrans/translator.py:139-140 | a concatenation is Bangla iff one of its parts is |
| `Translation.MaxLength` | bntrans/translator.py:142-158 | precedence: the explicit maximum, else the built-in table entry, else the config's max_position_embeddings, else 128 |
| `Translation.BuiltinMaxLengths` | bntrans/translator.py:9-16 | whatever the config says, the en-bn model's limit is 128 and the bn-en model's is 512 |
| `Translation.TokenLength` | bntrans/translator.py:161-164 | the tokenizer's count when tokenization succeeds, 1024 when it raises |
| `Translation.PlanInput` | bntrans/translator.py:169-177 | the pipeline receives the whole text iff the token length is at most the maximum; otherwise the sentences of the Bangla segmenter for Bangla text and of the English segmenter for any other text |
| `Translation.PlanMonotone` | bntrans/translator.py:169 | a text sent whole under some maximum is sent whole under every larger maximum |
| `Translation.UntokenizableText` | bntrans/translator.py:161-169 | when tokenization fails (length 1024), the text is segmented iff the maximum is below 1024 |
| `Translation.Texts` | bntrans/translator.py:205 | the translation texts of the records, in order and one per record |
| `Translation.Reassemble` | bntrans/translator.py:202-205 | no results give "", one result gives its text verbatim, and in every case the output equals the delimiter join of all texts |
| `Translation.ReassembleSplit` | bntrans/translator.py:205 | with a one-character delimiter no translation contains, splitting the output recovers the translations in order |
| `Translation.DefaultDelimiterSplit` | bntrans/translator.py:179-205 | the default delimiter "\n" is one character, so splitting the default output on it recovers translations that contain no newline |
| `Translation.DefaultSettings` | bntrans/translator.py:52-121 | with the constructor's defaults (en to bn, GPU allowed, local, no model or mapping) the model is the en-bn one with limit 128, and the device entry is None unless both device keys were given |
| `Text.Join` | bntrans/translator.py:205 | "" for no parts, the part itself for one part, the first part as prefix, and length equal to the parts' total plus (n−1) delimiters |
| `Text.SplitOn` | bntrans/translator.py:205 | Python's `s.split(c)` on one character, which undoes the join; it always yields at least one piece |
| `Text.SplitOnPlain` | bntrans/translator.py:205 | a string without the separator splits into itself alone |
| `Text.SplitOnCons` | bntrans/translator.py:205 | splitting x + c + y yields x followed by the pieces of y when x has no c |
| `Text.SplitJoin` | bntrans/translator.py:205 | splitting the join of n ≥ 1 parts on a one-character delimiter none of them contains gives the parts back |
| `Translation.Pipeline.constructor` | bntrans/translator.py:132-135 | a pipeline object records how it was built |
| `Translation.Translator.PipelineKindFor` | bntrans/translator.py:132-135 | the pipeline is the cloud client (with the token) iff use_cloud, otherwise a local pipeline over the model and the keyword dictionary |
| `Translation.Translator.GetMaxLength` | bntrans/translator.py:142-158 | `get_max_length` on the translator's own fields: the explicit maximum, else the model's table entry, else the config value, else 128 |
| `Translation.Translator.InputFor` | bntrans/translator.py:160-177 | for this translator's tokenizer, limit and segmenters: the whole text iff its token length fits the limit, else the Bangla or English sentences as `is_bangla` decides |
| `Translation.Translator.constructor` | bntrans/translator.py:108-127 | assigns the resolved settings and leaves the pipeline cache empty |
| `Translation.Translator.GetPipeline` | bntrans/translator.py:129-137 | the first use builds a fresh pipeline of the right kind; every later use returns that same object; at most one pipeline is ever built |
| `Translation.Translator.Generate` | bntrans/translator.py:160-177 | the result is the pipeline applied to the planned input (whole text or sentences) with the call's keywords; the cached pipeline is kept |
| `Translation.Translator.Translate` | bntrans/translator.py:179-205 | the output is the reassembly of what generate returns, joined with the delimiter |
| `Translation.New` | bntrans/translator.py:52-127 | fails with "model not found" when model resolution fails, else with "token not found" iff the translator is cloud-backed and has no token; otherwise a fresh valid translator with the resolved model, token, defaults and device-filled keywords and no pipeline yet |
| `MatchPercentage.Agreements` | test/test.py:18-21 | the count of agreeing positions never exceeds the number of positions looked at |
| `MatchPercentage.AgreementsFull` | test/test.py:18-21 | the count equals n iff the first n characters of both strings are equal |
| `MatchPercentage.AgreementsPrefix` | test/test.py:15-16 | truncating a to the shorter length does not change the count |
| `MatchPercentage.Ratio` | test/test.py:23 | a count c ≤ n over n > 0 gives a real ratio in [0, 1] that equals 1 iff c = n |
| `MatchPercentage.CountMatches` | test/test.py:18-21 | after the loop the count is the number of indices i < len(a) with a[i] == b[i], given len(a) ≤ len(b) so every b[i] is in range |
| `MatchPercentage.MatchPercentage` | test/test.py:11-23 | fails (division by zero) iff a or b is empty; otherwise it returns the number of agreeing positions over min(len a, len b), a ratio in [0, 1] |
| `MatchPercentage.PerfectScore` | test/test.py:19-23 | for non-empty strings the score is 1 iff their prefixes of the shorter length are equal, so a string scores 1 against itself |

## Left out

- `CloudPipeline`: the HTTP request to the inference API, the JSON decoding, and the sleep-and-retry while the model is "currently loading" are network I/O. A cloud pipeline is only the `Cloud(model, token)` kind passed to the foreign `run`.
- The `transformers` calls (`AutoTokenizer`, `AutoConfig`, `pipeline`): these are foreign. They are the function fields of `Foreign`, and the model assumes loading them does not raise.
- Translation.Translator.Generate: the foreign pieces are pure functions, so the model assumes the tokenizer result, the segmenters and the pipeline call are deterministic. Two calls on the same text give the same results. A pipeline call that raises is not modelled: neither the cloud client's ValueError on an API error (bntrans/translator.py:33-38) nor an exception from a transformers pipeline. So `Generate` and `Translate` always return.
- Python's default arguments: Dafny parameters have no defaults, so callers of `New` and `Translator.Translate` pass every argument. The defaults `src="en"`, `dest="bn"`, `use_gpu=True`, `use_cloud=False` and `delimiter="\n"` are the constants `DefaultSrc`, `DefaultDest`, `DefaultUseGpu`, `DefaultUseCloud` and `DefaultDelimiter`. The `None` defaults are `None` arguments. Their consequences are stated by `DefaultSettings` and `DefaultDelimiterSplit`.
- The sentence segmenters in bntrans/tools/__init__.py (pysbd) are foreign: `segmentEnglish` and `segmentBangla` are opaque functions.
- bntrans/cli.py and setup.py are argument parsing, file reading, printing and packaging. bntrans/cli.py is not part of this model.
- The read of `os.environ` becomes the `envToken` parameter. The two `warnings.warn` calls are dropped because they do not change any result.
- Translation.MaxLength: a config whose `max_position_embeddings` exists but is None (which in Python would make the later `>` comparison raise) is not modelled. The config value is either an integer or absent.
- Translation.Texts: a pipeline record without a "translation_text" key (a KeyError in Python) is not modelled, because a `Record` always carries the text.
- Translation.Translator: the attributes are fixed after construction (Python would allow reassigning them). Only the pipeline cache changes.
- The translation-quality assertions of test/test.py:27-52 depend on model outputs.
- Python's float division in `match_percentage` is modelled as exact `real` division.
