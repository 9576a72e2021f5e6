/**
  Local model configurations (`src/model_configs.rs`): per run environment,
  a root folder and a list of model entries, each with a model path, a
  system prompt, a tool policy and three parameter lists (context, model,
  sampler) given as `param_id`/`param_value` pairs. A configuration also
  carries custom parameters set at run time under normalised keys.

  Reading the YAML file is not modelled: the file arrives as a record of
  YAML nodes, one list of entries per environment.
 */
module ModelConfiguration {
  import opened Wrappers
  import opened Text
  import opened Yaml
  import opened AiConfig
  import Collections

  const DefaultRootFolder := "models"
  const DefaultModelId := "default"
  const DefaultModelPath := "qwen3:latest"
  const UnknownParamId := "UNKNOWN"

  /** The model parameter that disables the GPU (`FRAMEWORK_MODEL_DISABLE_GPU`). */
  const DisableGpuParam := "disable_gpu"

  datatype ModelConfig = ModelConfig(
    rootFolder: string, modelPath: string, system: string, tools: SupportedFunctions,
    ctxParams: map<string, Yaml>, modelParams: map<string, Yaml>, samplerParams: map<string, Yaml>,
    customParams: map<string, string>)

  datatype ModelConfigs = ModelConfigs(models: map<string, ModelConfig>)

  /** One `param_id`/`param_value` entry of a parameter list. */
  datatype RawParam = RawParam(paramId: Yaml, paramValue: Yaml)

  /** One entry of an environment's `models` list, fields as YAML nodes (YBadValue when absent). */
  datatype RawModelConfig = RawModelConfig(
    modelId: Yaml, modelPath: Yaml, system: Yaml, tools: Yaml,
    ctxParams: seq<RawParam>, modelParams: seq<RawParam>, samplerParams: seq<RawParam>)

  datatype RawEnvironment = RawEnvironment(rootFolder: Yaml, models: seq<RawModelConfig>)

  datatype RawModelFile = RawModelFile(environments: map<string, RawEnvironment>)

  // ---------------------------------------------------------------------
  // Building

  function ParamId(p: RawParam): string {
    AsStr(p.paramId).GetOr(UnknownParamId)
  }

  function ParamPairs(ps: seq<RawParam>): (pairs: seq<(string, Yaml)>)
    ensures |pairs| == |ps|
    ensures forall i :: 0 <= i < |ps| ==> pairs[i] == (ParamId(ps[i]), ps[i].paramValue)
  {
    seq(|ps|, i requires 0 <= i < |ps| => (ParamId(ps[i]), ps[i].paramValue))
  }

  /** A parameter list as a map: one key per distinct id ("UNKNOWN" for an entry without one). */
  function ParamMap(ps: seq<RawParam>): (m: map<string, Yaml>)
    ensures m.Keys == set i | 0 <= i < |ps| :: ParamId(ps[i])
  {
    var pairs := ParamPairs(ps);
    assert forall i :: 0 <= i < |pairs| ==> pairs[i].0 == ParamId(ps[i]);
    Collections.FromPairs(pairs)
  }

  /** The value kept for an id is the one of its last entry. */
  lemma ParamMapLastWins(ps: seq<RawParam>, i: nat)
    requires i < |ps|
    requires forall j :: i < j < |ps| ==> ParamId(ps[j]) != ParamId(ps[i])
    ensures ParamId(ps[i]) in ParamMap(ps) && ParamMap(ps)[ParamId(ps[i])] == ps[i].paramValue
  {
    Collections.FromPairsLastWins(ParamPairs(ps), i);
  }

  function ConfigId(rm: RawModelConfig): string {
    AsStr(rm.modelId).GetOr(DefaultModelId)
  }

  /** One entry with its defaults: model path "qwen3:latest", empty system prompt, no custom parameters. */
  function BuildModelConfig(root: string, rm: RawModelConfig): (c: ModelConfig)
    ensures c.rootFolder == root
    ensures rm.modelPath.YString? ==> c.modelPath == rm.modelPath.s
    ensures !rm.modelPath.YString? ==> c.modelPath == DefaultModelPath
    ensures rm.system.YString? ==> c.system == rm.system.s
    ensures !rm.system.YString? ==> c.system == ""
    ensures c.tools == FromYaml(rm.tools)
    ensures c.ctxParams.Keys == set i | 0 <= i < |rm.ctxParams| :: ParamId(rm.ctxParams[i])
    ensures c.modelParams.Keys == set i | 0 <= i < |rm.modelParams| :: ParamId(rm.modelParams[i])
    ensures c.samplerParams.Keys == set i | 0 <= i < |rm.samplerParams| :: ParamId(rm.samplerParams[i])
    ensures c.customParams == map[]
  {
    ModelConfig(root, AsStr(rm.modelPath).GetOr(DefaultModelPath), AsStr(rm.system).GetOr(""),
                FromYaml(rm.tools), ParamMap(rm.ctxParams), ParamMap(rm.modelParams),
                ParamMap(rm.samplerParams), map[])
  }

  /** The settings of a run environment; an unknown environment has the default root and no entries. */
  function Environment(raw: RawModelFile, runEnv: string): RawEnvironment {
    if runEnv in raw.environments then raw.environments[runEnv] else RawEnvironment(YBadValue, [])
  }

  function RootFolder(env: RawEnvironment): string {
    AsStr(env.rootFolder).GetOr(DefaultRootFolder)
  }

  function ConfigPairs(root: string, rms: seq<RawModelConfig>): (ps: seq<(string, ModelConfig)>)
    ensures |ps| == |rms|
    ensures forall i :: 0 <= i < |rms| ==> ps[i] == (ConfigId(rms[i]), BuildModelConfig(root, rms[i]))
  {
    seq(|rms|, i requires 0 <= i < |rms| => (ConfigId(rms[i]), BuildModelConfig(root, rms[i])))
  }

  /** `ModelConfigs::new` after the file has been read: one configuration per distinct model id of the environment. */
  function NewModelConfigs(raw: RawModelFile, runEnv: string): (cfgs: ModelConfigs)
    ensures var rms := Environment(raw, runEnv).models;
            cfgs.models.Keys == set i | 0 <= i < |rms| :: ConfigId(rms[i])
  {
    var env := Environment(raw, runEnv);
    var pairs := ConfigPairs(RootFolder(env), env.models);
    assert forall i :: 0 <= i < |pairs| ==> pairs[i].0 == ConfigId(env.models[i]);
    ModelConfigs(Collections.FromPairs(pairs))
  }

  /** The configuration of a model id is built from the last entry with that id. */
  lemma NewModelConfigsEntry(raw: RawModelFile, runEnv: string, i: nat)
    requires i < |Environment(raw, runEnv).models|
    requires var rms := Environment(raw, runEnv).models;
             forall j :: i < j < |rms| ==> ConfigId(rms[j]) != ConfigId(rms[i])
    ensures var env := Environment(raw, runEnv);
            var rm := env.models[i];
            ConfigId(rm) in NewModelConfigs(raw, runEnv).models
            && NewModelConfigs(raw, runEnv).models[ConfigId(rm)] == BuildModelConfig(RootFolder(env), rm)
  {
    var env := Environment(raw, runEnv);
    Collections.FromPairsLastWins(ConfigPairs(RootFolder(env), env.models), i);
  }

  /** Freshly built configurations share the environment's root folder and carry no custom parameter. */
  lemma NewModelConfigsFresh(raw: RawModelFile, runEnv: string, id: string)
    requires id in NewModelConfigs(raw, runEnv).models
    ensures var c := NewModelConfigs(raw, runEnv).models[id];
            c.rootFolder == RootFolder(Environment(raw, runEnv)) && c.customParams == map[]
  {
    var env := Environment(raw, runEnv);
    var pairs := ConfigPairs(RootFolder(env), env.models);
    Collections.FromPairsValueFrom(pairs, id);
  }

  /** `get_model_configs`: the configuration of a known id, None for an unknown one. */
  function GetModelConfigs(cfgs: ModelConfigs, modelId: string): (r: Option<ModelConfig>)
    ensures r.Some? <==> modelId in cfgs.models
    ensures r.Some? ==> r.value == cfgs.models[modelId]
  {
    if modelId in cfgs.models then Some(cfgs.models[modelId]) else None
  }

  // ---------------------------------------------------------------------
  // Custom parameters

  /** The key a custom parameter is stored under: trimmed, then lower-cased. */
  function NormalKey(key: string): (k: string)
    ensures IsTrimmed(k)
  {
    var t := Trim(key);
    ToLowerKeepsTrimmed(t);
    ToLower(t)
  }

  /** A stored key has no upper-case ASCII letter. */
  lemma NormalKeyLower(key: string)
    ensures forall i :: 0 <= i < |NormalKey(key)| ==> !('A' <= NormalKey(key)[i] <= 'Z')
  {
    ToLowerIdempotent(Trim(key));
  }

  /** Normalising a normalised key changes nothing. */
  lemma NormalKeyIdempotent(key: string)
    ensures NormalKey(NormalKey(key)) == NormalKey(key)
  {
    var k := NormalKey(key);
    TrimIdentity(k);
    ToLowerIdempotent(Trim(key));
  }

  /**
    The stored key is the lower-cased slice of `key` left after dropping a
    run of leading and a run of trailing whitespace.
   */
  lemma NormalKeyOfKey(key: string)
    ensures exists i, j :: 0 <= i <= j <= |key| && NormalKey(key) == ToLower(key[i..j])
                           && (forall n :: 0 <= n < i ==> IsSpace(key[n]))
                           && (forall n :: j <= n < |key| ==> IsSpace(key[n]))
  {
    TrimIsSlice(key);
  }

  /** A key already trimmed and lower-case is stored as given. */
  lemma NormalKeyOfNormal(key: string)
    requires IsTrimmed(key)
    requires forall i :: 0 <= i < |key| ==> !('A' <= key[i] <= 'Z')
    ensures NormalKey(key) == key
  {
    TrimIdentity(key);
    ToLowerOfLower(key);
  }

  /** Every custom key is in normal form, as `SetCustomParam` keeps it. */
  predicate NormalisedKeys(cfg: ModelConfig) {
    forall k :: k in cfg.customParams ==> NormalKey(k) == k
  }

  /**
    `set_custom_model_cfg_param`: stores the value under the normalised key
    and returns the value that key held before, if any; nothing else changes.
   */
  function SetCustomParam(cfg: ModelConfig, key: string, value: string): (r: (ModelConfig, Option<string>))
    ensures var k := NormalKey(key);
            && r.0.customParams.Keys == cfg.customParams.Keys + {k}
            && r.0.customParams[k] == value
            && (forall other :: other in cfg.customParams && other != k ==> r.0.customParams[other] == cfg.customParams[other])
            && (r.1.Some? <==> k in cfg.customParams)
            && (r.1.Some? ==> r.1.value == cfg.customParams[k])
    ensures r.0 == cfg.(customParams := r.0.customParams)
  {
    var k := NormalKey(key);
    var previous := if k in cfg.customParams then Some(cfg.customParams[k]) else None;
    (cfg.(customParams := cfg.customParams[k := value]), previous)
  }

  /** `get_custom_model_cfg_param`: a verbatim lookup; the key is not normalised. */
  function GetCustomParam(cfg: ModelConfig, key: string): (r: Option<string>)
    ensures r.Some? <==> key in cfg.customParams
    ensures r.Some? ==> r.value == cfg.customParams[key]
  {
    if key in cfg.customParams then Some(cfg.customParams[key]) else None
  }

  /** Setting keeps every key normalised. */
  lemma SetKeepsNormalised(cfg: ModelConfig, key: string, value: string)
    requires NormalisedKeys(cfg)
    ensures NormalisedKeys(SetCustomParam(cfg, key, value).0)
  {
    NormalKeyIdempotent(key);
  }

  /** A value set under a key is read back under the normalised key; other keys read as before. */
  lemma GetAfterSet(cfg: ModelConfig, key: string, value: string, other: string)
    ensures GetCustomParam(SetCustomParam(cfg, key, value).0, NormalKey(key)) == Some(value)
    ensures other != NormalKey(key) ==>
              GetCustomParam(SetCustomParam(cfg, key, value).0, other) == GetCustomParam(cfg, other)
  {
  }

  /** With normalised keys, a lookup under a key not in normal form always misses. */
  lemma GetUnnormalisedMisses(cfg: ModelConfig, key: string)
    requires NormalisedKeys(cfg)
    requires NormalKey(key) != key
    ensures GetCustomParam(cfg, key).None?
  {
  }

  /** Setting twice under keys with the same normal form returns the first value and keeps the second. */
  lemma SetTwice(cfg: ModelConfig, key1: string, key2: string, v1: string, v2: string)
    requires NormalKey(key1) == NormalKey(key2)
    ensures var c1 := SetCustomParam(cfg, key1, v1).0;
            var r2 := SetCustomParam(c1, key2, v2);
            r2.1 == Some(v1) && GetCustomParam(r2.0, NormalKey(key1)) == Some(v2)
  {
  }

  // ---------------------------------------------------------------------
  // Accessors

  /** `get_model_file_path`: the root folder and the model path joined by one '/'. */
  function GetModelFilePath(cfg: ModelConfig): (p: string)
    ensures |p| == |cfg.rootFolder| + 1 + |cfg.modelPath|
    ensures p[..|cfg.rootFolder|] == cfg.rootFolder
    ensures p[|cfg.rootFolder|] == '/'
    ensures p[|cfg.rootFolder| + 1..] == cfg.modelPath
  {
    cfg.rootFolder + "/" + cfg.modelPath
  }

  /** Within one root folder, the file path determines the model path. */
  lemma FilePathDeterminesModel(c1: ModelConfig, c2: ModelConfig)
    requires c1.rootFolder == c2.rootFolder
    requires GetModelFilePath(c1) == GetModelFilePath(c2)
    ensures c1.modelPath == c2.modelPath
  {
    var n := |c1.rootFolder| + 1;
    assert c1.modelPath == GetModelFilePath(c1)[n..];
  }

  function GetPath(cfg: ModelConfig): string {
    cfg.modelPath
  }

  /** `get_system`: always Some. */
  function GetSystem(cfg: ModelConfig): (r: Option<string>)
    ensures r.Some? && r.value == cfg.system
  {
    Some(cfg.system)
  }

  function GetCtxParameters(cfg: ModelConfig): (r: Option<map<string, Yaml>>)
    ensures r == Some(cfg.ctxParams)
  {
    Some(cfg.ctxParams)
  }

  function GetModelParameters(cfg: ModelConfig): (r: Option<map<string, Yaml>>)
    ensures r == Some(cfg.modelParams)
  {
    Some(cfg.modelParams)
  }

  function GetSamplerParameters(cfg: ModelConfig): (r: Option<map<string, Yaml>>)
    ensures r == Some(cfg.samplerParams)
  {
    Some(cfg.samplerParams)
  }

  /** A parameter lookup: the stored node of a known id, None for an unknown one. */
  function Lookup(params: map<string, Yaml>, id: string): (r: Option<Yaml>)
    ensures r.Some? <==> id in params
    ensures r.Some? ==> r.value == params[id]
  {
    if id in params then Some(params[id]) else None
  }

  function GetCtxParam(cfg: ModelConfig, id: string): (r: Option<Yaml>)
    ensures r.Some? <==> id in cfg.ctxParams
    ensures r.Some? ==> r.value == cfg.ctxParams[id]
  {
    Lookup(cfg.ctxParams, id)
  }

  function GetModelParam(cfg: ModelConfig, id: string): (r: Option<Yaml>)
    ensures r.Some? <==> id in cfg.modelParams
    ensures r.Some? ==> r.value == cfg.modelParams[id]
  {
    Lookup(cfg.modelParams, id)
  }

  function GetSamplerParam(cfg: ModelConfig, id: string): (r: Option<Yaml>)
    ensures r.Some? <==> id in cfg.samplerParams
    ensures r.Some? ==> r.value == cfg.samplerParams[id]
  {
    Lookup(cfg.samplerParams, id)
  }

  /** `get_model_disbale_gpu`: true only when the model parameter "disable_gpu" is the boolean true. */
  function GetModelDisableGpu(cfg: ModelConfig): (r: bool)
    ensures r <==> DisableGpuParam in cfg.modelParams && cfg.modelParams[DisableGpuParam] == YBool(true)
  {
    match GetModelParam(cfg, DisableGpuParam)
    case Some(v) => AsBool(v).GetOr(false)
    case None => false
  }

  /** For a built entry, the GPU switch is the boolean of its last "disable_gpu" parameter. */
  lemma DisableGpuOfEntry(root: string, rm: RawModelConfig, i: nat, b: bool)
    requires i < |rm.modelParams| && rm.modelParams[i] == RawParam(YString(DisableGpuParam), YBool(b))
    requires forall j :: i < j < |rm.modelParams| ==> ParamId(rm.modelParams[j]) != DisableGpuParam
    ensures GetModelDisableGpu(BuildModelConfig(root, rm)) == b
  {
    ParamMapLastWins(rm.modelParams, i);
  }

  /** An entry without a "disable_gpu" parameter keeps the GPU enabled. */
  lemma DisableGpuDefault(root: string, rm: RawModelConfig)
    requires forall j :: 0 <= j < |rm.modelParams| ==> ParamId(rm.modelParams[j]) != DisableGpuParam
    ensures !GetModelDisableGpu(BuildModelConfig(root, rm))
  {
  }
}

/** Custom-parameter normalisation and entry defaults on concrete keys and entries. */
module ModelConfigExamples {
  import opened Wrappers
  import opened Text
  import opened Yaml
  import opened ModelConfiguration

  /** Trimming a word with one space on each side gives the word. */
  lemma TrimPadded(w: string)
    requires |w| > 0 && IsTrimmed(w)
    ensures Trim([' '] + w + [' ']) == w
  {
    var s := [' '] + w + [' '];
    assert s[1..] == w + [' '];
    TrimStartOfTrimmed(w + [' ']);
    assert (w + [' '])[..|w|] == w;
    TrimEndOfTrimmed(w);
  }

  lemma LowerFoo()
    ensures ToLower("Foo") == "foo"
  {
    var l := ToLower("Foo");
    assert |l| == 3 && l[0] == 'f' && l[1] == 'o' && l[2] == 'o';
  }

  lemma FooKey()
    ensures NormalKey(" Foo ") == "foo"
  {
    var w := "Foo";
    assert " Foo " == [' '] + w + [' '];
    TrimPadded(w);
    LowerFoo();
  }

  /** After setting " Foo ", "foo" finds the value and " Foo " does not. */
  lemma CustomKeyIsNormalised(cfg: ModelConfig, value: string)
    requires NormalisedKeys(cfg)
    ensures var c := SetCustomParam(cfg, " Foo ", value).0;
            GetCustomParam(c, "foo") == Some(value) && GetCustomParam(c, " Foo ").None?
  {
    FooKey();
    SetKeepsNormalised(cfg, " Foo ", value);
    GetUnnormalisedMisses(SetCustomParam(cfg, " Foo ", value).0, " Foo ");
  }

  /** An entry with no fields gets the id "default", the model path "qwen3:latest" and an empty prompt. */
  lemma EmptyEntry()
    ensures var rm := RawModelConfig(YBadValue, YBadValue, YBadValue, YBadValue, [], [], []);
            var c := BuildModelConfig(DefaultRootFolder, rm);
            && ConfigId(rm) == "default"
            && GetModelFilePath(c) == "models/qwen3:latest"
            && GetSystem(c) == Some("")
            && !GetModelDisableGpu(c)
  {
    EmptyEntryPath();
  }

  lemma EmptyEntryPath()
    ensures GetModelFilePath(BuildModelConfig(DefaultRootFolder, RawModelConfig(YBadValue, YBadValue, YBadValue, YBadValue, [], [], [])))
            == "models/qwen3:latest"
  {
    var c := BuildModelConfig(DefaultRootFolder, RawModelConfig(YBadValue, YBadValue, YBadValue, YBadValue, [], [], []));
    assert c.rootFolder == "models" && c.modelPath == "qwen3:latest";
    DefaultPathSpelling();
  }

  // Splits a literal concatenation off for the verifier; no model content.
  lemma DefaultPathSpelling()
    ensures "models" + "/" + "qwen3:latest" == "models/qwen3:latest"
  {
  }
}
