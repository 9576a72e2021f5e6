/**
  Platform configuration (`src/ai_config.rs`): the tool-selection policy
  `SupportedFunctions`, the per-platform defaulting done while reading the
  configuration, the assembled base URL and the accessors with their fixed
  fallbacks for unknown platforms.

  Reading the YAML file is not modelled: `NewConfig` starts from the
  already-loaded document, whose fields are `Yaml` nodes (a missing key is
  `YBadValue`).
 */
module AiConfig {
  import opened Wrappers
  import opened Text
  import opened Yaml
  import Collections

  const DefaultName: string := "BachuetechAI"
  const DefaultPort: nat := 11434
  const DefaultMaxCtxSize: nat := 5
  const MaxPort: nat := 65535

  // ---------------------------------------------------------------------
  // SupportedFunctions

  /** Which catalog tools a model may use: all, none, or those named. */
  datatype SupportedFunctions = ALL | NONE | Functions(names: seq<string>)

  /** `from_str_list`: the comma-separated pieces of `s`, each trimmed, in order, duplicates kept. */
  function FromStrList(s: string): (sf: SupportedFunctions)
    ensures sf.Functions?
    ensures |sf.names| == Count(s, ',') + 1
    ensures forall i :: 0 <= i < |sf.names| ==> sf.names[i] == Trim(Split(s, ',')[i])
    ensures forall i :: 0 <= i < |sf.names| ==> IsTrimmed(sf.names[i]) && ',' !in sf.names[i]
  {
    var parts := Split(s, ',');
    var names := seq(|parts|, i requires 0 <= i < |parts| => Trim(parts[i]));
    assert forall i :: 0 <= i < |names| ==> ',' !in names[i] by {
      forall i | 0 <= i < |names|
        ensures ',' !in names[i]
      {
        TrimIsSlice(parts[i]);
        var a, b :| 0 <= a <= b <= |parts[i]| && names[i] == parts[i][a..b];
        assert forall k :: 0 <= k < |names[i]| ==> names[i][k] == parts[i][a + k];
      }
    }
    Functions(names)
  }

  /** `s` spells `word` (given in upper case) up to ASCII case. */
  predicate EqualsIgnoreCase(s: string, word: string) {
    |s| == |word| && forall i :: 0 <= i < |s| ==> s[i] == word[i] || s[i] == ToLowerChar(word[i])
  }

  /** `From<String>`: "ALL" and "NONE" in any letter case; anything else is a list of names. */
  function FromString(s: string): (sf: SupportedFunctions)
    ensures sf == ALL <==> EqualsIgnoreCase(s, "ALL")
    ensures sf == NONE <==> EqualsIgnoreCase(s, "NONE")
    ensures sf.Functions? ==> sf == FromStrList(s)
  {
    UpperIsWord(s, "ALL");
    UpperIsWord(s, "NONE");
    var u := ToUpper(s);
    if u == "ALL" then ALL
    else if u == "NONE" then NONE
    else FromStrList(s)
  }

  predicate IsUpperWord(word: string) {
    forall i :: 0 <= i < |word| ==> 'A' <= word[i] <= 'Z'
  }

  lemma UpperIsWord(s: string, word: string)
    requires IsUpperWord(word)
    ensures ToUpper(s) == word <==> EqualsIgnoreCase(s, word)
  {
    if EqualsIgnoreCase(s, word) {
      assert forall i :: 0 <= i < |s| ==> ToUpper(s)[i] == word[i];
    }
    if ToUpper(s) == word {
      forall i | 0 <= i < |s|
        ensures s[i] == word[i] || s[i] == ToLowerChar(word[i])
      {
        assert ToUpperChar(s[i]) == word[i];
      }
    }
  }

  /** `From<Yaml>`: only the exact strings "ALL" and "NONE" select the two policies; anything else lists names. */
  function FromYaml(y: Yaml): (sf: SupportedFunctions)
    ensures sf == ALL <==> y == YString("ALL")
    ensures sf == NONE <==> y == YString("NONE")
    ensures sf.Functions? ==> sf.names == StringList(y)
  {
    match AsStr(y)
    case Some(s) =>
      if s == "ALL" then ALL else if s == "NONE" then NONE else Functions(StringList(y))
    case None => Functions(StringList(y))
  }

  /** Names without surrounding whitespace or commas, written comma-separated, are read back unchanged. */
  lemma {:induction false} FromStrListJoin(names: seq<string>)
    requires |names| >= 1
    requires forall i :: 0 <= i < |names| ==> IsTrimmed(names[i]) && ',' !in names[i]
    ensures FromStrList(Join(names, ',')) == Functions(names)
  {
    SplitJoin(names, ',');
    var sf := FromStrList(Join(names, ','));
    forall i | 0 <= i < |names|
      ensures sf.names[i] == names[i]
    {
      TrimIdentity(names[i]);
    }
  }

  // ---------------------------------------------------------------------
  // Field defaulting

  /** The server port: an integer in 0..65535 is kept, anything else (missing, not an integer, out of range) is 11434. */
  function ResolvePort(y: Yaml): (port: nat)
    ensures port <= MaxPort
    ensures y.YInt? && 0 <= y.i <= MaxPort ==> port == y.i
    ensures !(y.YInt? && 0 <= y.i <= MaxPort) ==> port == DefaultPort
  {
    match AsI64(y)
    case Some(pn) => if pn < 0 || pn > MaxPort then DefaultPort else pn
    case None => DefaultPort
  }

  /** The context size: a positive integer is kept, anything else is 5; so it is never below 1. */
  function ResolveCtxMax(y: Yaml): (ctx: nat)
    ensures ctx >= 1
    ensures y.YInt? && y.i > 0 ==> ctx == y.i
    ensures !(y.YInt? && y.i > 0) ==> ctx == DefaultMaxCtxSize
  {
    match AsI64(y)
    case Some(cm) => if cm <= 0 then DefaultMaxCtxSize else cm
    case None => DefaultMaxCtxSize
  }

  function Scheme(secure: bool): string {
    if secure then "https://" else "http://"
  }

  /** `scheme://host:port/path/`, the prefix of every endpoint of a platform. */
  function BaseUrl(host: string, port: nat, secure: bool, path: string): (url: string)
    ensures |url| > 0 && url[|url| - 1] == '/'
  {
    Scheme(secure) + Authority(host, port, path)
  }

  /** `host:port/path/`, the part of a base URL after the scheme. */
  function Authority(host: string, port: nat, path: string): string {
    host + [':'] + (NatToDecimal(port) + ['/'] + (path + ['/']))
  }

  // ---------------------------------------------------------------------
  // Reading a base URL back (the partner of BaseUrl)

  datatype UrlParts = UrlParts(secure: bool, host: string, port: nat, path: string)

  /** Position of the first `c` in `s`, or |s| when there is none. */
  function IndexOf(s: string, c: char): (i: nat)
    ensures i <= |s|
    ensures i < |s| ==> s[i] == c
    ensures forall k :: 0 <= k < i ==> s[k] != c
  {
    if |s| == 0 then 0 else if s[0] == c then 0 else 1 + IndexOf(s[1..], c)
  }

  lemma IndexOfAfter(a: string, c: char, b: string)
    requires c !in a
    ensures IndexOf(a + [c] + b, c) == |a|
  {
    if |a| > 0 {
      IndexOfAfter(a[1..], c, b);
      assert (a + [c] + b)[1..] == a[1..] + [c] + b;
    }
  }

  predicate AllDigits(s: string) {
    forall k :: 0 <= k < |s| ==> IsDigit(s[k])
  }

  /** Splits `scheme://host:port/path/` back into its parts; None for text of any other shape. */
  function ParseBaseUrl(url: string): Option<UrlParts> {
    if StartsWith(url, Scheme(true)) then ParseAuthority(true, url[|Scheme(true)|..])
    else if StartsWith(url, Scheme(false)) then ParseAuthority(false, url[|Scheme(false)|..])
    else None
  }

  predicate StartsWith(s: string, prefix: string) {
    |prefix| <= |s| && s[..|prefix|] == prefix
  }

  lemma SchemeOf(secure: bool, rest: string)
    ensures StartsWith(Scheme(secure) + rest, Scheme(secure))
    ensures (Scheme(secure) + rest)[|Scheme(secure)|..] == rest
    ensures !secure ==> !StartsWith(Scheme(secure) + rest, Scheme(true))
  {
    var url := Scheme(secure) + rest;
    assert url[..|Scheme(secure)|] == Scheme(secure);
    if !secure && |url| >= 8 {
      assert url[..8][4] == ':' != Scheme(true)[4];
    }
  }

  /** The text before and after the first `c`; None when `c` does not occur. */
  function SplitOnce(s: string, c: char): (r: Option<(string, string)>)
    ensures r.Some? ==> s == r.value.0 + [c] + r.value.1 && c !in r.value.0
  {
    var i := IndexOf(s, c);
    if i == |s| then None
    else
      assert s == s[..i] + [c] + s[i + 1..];
      Some((s[..i], s[i + 1..]))
  }

  lemma SplitOnceAt(a: string, c: char, b: string)
    requires c !in a
    ensures SplitOnce(a + [c] + b, c) == Some((a, b))
  {
    IndexOfAfter(a, c, b);
    assert (a + [c] + b)[..|a|] == a;
    assert (a + [c] + b)[|a| + 1..] == b;
  }

  /** `host:port/path/`, the part after the scheme. */
  function ParseAuthority(secure: bool, rest: string): (r: Option<UrlParts>)
    ensures r.Some? ==> r.value.secure == secure
  {
    match SplitOnce(rest, ':')
    case None => None
    case Some((host, after)) =>
      match SplitOnce(after, '/')
      case None => None
      case Some((digits, tail)) =>
        if |digits| == 0 || !AllDigits(digits) || |tail| == 0 || tail[|tail| - 1] != '/' then None
        else Some(UrlParts(secure, host, DecimalValue(digits), tail[..|tail| - 1]))
  }

  lemma ParseAuthorityRoundTrip(secure: bool, host: string, port: nat, path: string)
    requires ':' !in host
    ensures ParseAuthority(secure, Authority(host, port, path)) == Some(UrlParts(secure, host, port, path))
  {
    var digits := NatToDecimal(port);
    var tail := path + ['/'];
    SplitOnceAt(host, ':', digits + ['/'] + tail);
    assert '/' !in digits by {
      assert forall k :: 0 <= k < |digits| ==> IsDigit(digits[k]);
    }
    SplitOnceAt(digits, '/', tail);
    assert tail[..|tail| - 1] == path;
    DecimalRoundTrip(port);
  }

  /** For a host without ':', the base URL is read back into exactly the host, port, scheme and path it was built from. */
  lemma BaseUrlRoundTrip(host: string, port: nat, secure: bool, path: string)
    requires ':' !in host
    ensures ParseBaseUrl(BaseUrl(host, port, secure, path)) == Some(UrlParts(secure, host, port, path))
  {
    SchemeOf(secure, Authority(host, port, path));
    ParseAuthorityRoundTrip(secure, host, port, path);
  }

  // ---------------------------------------------------------------------
  // The configuration as read

  /** A platform entry of the loaded document. */
  datatype RawPlatform = RawPlatform(
    name: Yaml, host: Yaml, port: Yaml, secure: Yaml,
    ctxMax: Yaml, path: Yaml, chat: Yaml, generate: Yaml, models: Yaml,
    modelEntries: seq<RawModel>)

  /** A model entry under a platform of the loaded document. */
  datatype RawModel = RawModel(modelId: Yaml, model: Yaml, toolSupport: Yaml, system: Yaml, tools: Yaml)

  /** The loaded document: its name and, per run environment, the list of platform entries. */
  datatype RawConfig = RawConfig(name: Yaml, environments: map<string, seq<RawPlatform>>)

  datatype Apis = Apis(ctxMax: nat, path: string, chat: string, generate: string, models: string)

  datatype Model = Model(model: string, toolSupport: bool, system: string, tools: SupportedFunctions)

  datatype Platform = Platform(api: Apis, aiUrl: string, models: map<string, Model>)

  datatype Config = Config(name: string, platforms: map<string, Platform>)

  datatype InteractionType = Chat | Generate | Models

  /** What every configuration built by `NewConfig` satisfies. */
  predicate Valid(cfg: Config) {
    forall n :: n in cfg.platforms ==> ValidPlatform(cfg.platforms[n])
  }

  predicate ValidPlatform(p: Platform) {
    p.api.ctxMax >= 1 && |p.aiUrl| > 0 && p.aiUrl[|p.aiUrl| - 1] == '/'
  }

  function ModelId(rm: RawModel): string {
    AsStr(rm.modelId).GetOr("default")
  }

  function PlatformName(rp: RawPlatform): string {
    AsStr(rp.name).GetOr("default")
  }

  /** A model entry with its defaults: name = id, no tool support, a generic assistant prompt. */
  function BuildModel(rm: RawModel): (m: Model)
    ensures rm.model.YString? ==> m.model == rm.model.s
    ensures !rm.model.YString? ==> m.model == ModelId(rm)
    ensures m.toolSupport == (rm.toolSupport == YBool(true))
    ensures rm.system.YString? ==> m.system == rm.system.s
    ensures !rm.system.YString? ==> m.system == "You are an AI assistance"
    ensures m.tools == FromYaml(rm.tools)
  {
    Model(
      AsStr(rm.model).GetOr(ModelId(rm)),
      AsBool(rm.toolSupport).GetOr(false),
      AsStr(rm.system).GetOr("You are an AI assistance"),
      FromYaml(rm.tools))
  }

  function ModelPairs(rms: seq<RawModel>): (ps: seq<(string, Model)>)
    ensures |ps| == |rms|
    ensures forall i :: 0 <= i < |rms| ==> ps[i] == (ModelId(rms[i]), BuildModel(rms[i]))
  {
    seq(|rms|, i requires 0 <= i < |rms| => (ModelId(rms[i]), BuildModel(rms[i])))
  }

  function Endpoint(p: Platform, kind: InteractionType): string {
    match kind
    case Chat => p.api.chat
    case Generate => p.api.generate
    case Models => p.api.models
  }

  /** One platform with every field defaulted and its base URL assembled. */
  function BuildPlatform(rp: RawPlatform): (p: Platform)
    ensures ValidPlatform(p)
    ensures p.aiUrl == BaseUrl(AsStr(rp.host).GetOr("localhost"), ResolvePort(rp.port),
                               AsBool(rp.secure).GetOr(true), p.api.path)
    ensures rp.path.YString? ==> p.api.path == rp.path.s
    ensures !rp.path.YString? ==> p.api.path == "api"
    ensures p.api.chat == AsStr(rp.chat).GetOr("chat")
    ensures p.api.generate == AsStr(rp.generate).GetOr("generate")
    ensures p.api.models == AsStr(rp.models).GetOr("models")
    ensures p.api.ctxMax == ResolveCtxMax(rp.ctxMax)
    ensures p.models.Keys == set i | 0 <= i < |rp.modelEntries| :: ModelId(rp.modelEntries[i])
  {
    var host := AsStr(rp.host).GetOr("localhost");
    var port := ResolvePort(rp.port);
    var secure := AsBool(rp.secure).GetOr(true);
    var api := Apis(ResolveCtxMax(rp.ctxMax), AsStr(rp.path).GetOr("api"), AsStr(rp.chat).GetOr("chat"),
                    AsStr(rp.generate).GetOr("generate"), AsStr(rp.models).GetOr("models"));
    var pairs := ModelPairs(rp.modelEntries);
    var models := Collections.FromPairs(pairs);
    assert models.Keys == set i | 0 <= i < |rp.modelEntries| :: ModelId(rp.modelEntries[i]) by {
      assert forall i :: 0 <= i < |pairs| ==> pairs[i].0 == ModelId(rp.modelEntries[i]);
    }
    Platform(api, BaseUrl(host, port, secure, api.path), models)
  }

  /** A model id listed several times in a platform keeps the model built from its last entry. */
  lemma BuildPlatformModel(rp: RawPlatform, i: nat)
    requires i < |rp.modelEntries|
    requires forall j :: i < j < |rp.modelEntries| ==> ModelId(rp.modelEntries[j]) != ModelId(rp.modelEntries[i])
    ensures ModelId(rp.modelEntries[i]) in BuildPlatform(rp).models
    ensures BuildPlatform(rp).models[ModelId(rp.modelEntries[i])] == BuildModel(rp.modelEntries[i])
  {
    Collections.FromPairsLastWins(ModelPairs(rp.modelEntries), i);
  }

  function PlatformPairs(rps: seq<RawPlatform>): (ps: seq<(string, Platform)>)
    ensures |ps| == |rps|
    ensures forall i :: 0 <= i < |rps| ==> ps[i] == (PlatformName(rps[i]), BuildPlatform(rps[i]))
    ensures forall i :: 0 <= i < |ps| ==> ValidPlatform(ps[i].1)
  {
    seq(|rps|, i requires 0 <= i < |rps| => (PlatformName(rps[i]), BuildPlatform(rps[i])))
  }

  /** The platform entries of a run environment; an unknown environment has none. */
  function EnvironmentPlatforms(raw: RawConfig, runEnv: string): seq<RawPlatform> {
    if runEnv in raw.environments then raw.environments[runEnv] else []
  }

  /** Platforms by name, a later entry replacing an earlier one of the same name. */
  function BuildPlatforms(rps: seq<RawPlatform>): (m: map<string, Platform>)
    ensures m.Keys == set i | 0 <= i < |rps| :: PlatformName(rps[i])
  {
    var pairs := PlatformPairs(rps);
    assert forall i :: 0 <= i < |pairs| ==> pairs[i].0 == PlatformName(rps[i]);
    Collections.FromPairs(pairs)
  }

  /** Every platform stored was built by `BuildPlatform`, so it has a positive context size and a '/'-terminated base URL. */
  lemma BuildPlatformsValid(rps: seq<RawPlatform>)
    ensures Valid(Config("", BuildPlatforms(rps)))
  {
    var pairs := PlatformPairs(rps);
    var m := Collections.FromPairs(pairs);
    assert m == BuildPlatforms(rps);
    forall n | n in m
      ensures ValidPlatform(m[n])
    {
      BuiltPlatformValid(pairs, n);
    }
  }

  lemma BuiltPlatformValid(pairs: seq<(string, Platform)>, n: string)
    requires forall i :: 0 <= i < |pairs| ==> ValidPlatform(pairs[i].1)
    requires n in Collections.FromPairs(pairs)
    ensures ValidPlatform(Collections.FromPairs(pairs)[n])
  {
    Collections.FromPairsValueFrom(pairs, n);
  }

  /**
    `AIConfig::new` after the file has been read: the name (default
    "BachuetechAI") and one platform per distinct platform name of the run
    environment; a name listed twice keeps its last entry.
   */
  function NewConfig(raw: RawConfig, runEnv: string): (cfg: Config)
    ensures Valid(cfg)
    ensures raw.name.YString? ==> cfg.name == raw.name.s
    ensures !raw.name.YString? ==> cfg.name == DefaultName
    ensures var rps := EnvironmentPlatforms(raw, runEnv);
            cfg.platforms.Keys == set i | 0 <= i < |rps| :: PlatformName(rps[i])
  {
    var rps := EnvironmentPlatforms(raw, runEnv);
    BuildPlatformsValid(rps);
    var platforms := BuildPlatforms(rps);
    Config(AsStr(raw.name).GetOr(DefaultName), platforms)
  }

  /** The platform built from the last entry of its name. */
  lemma NewConfigPlatform(raw: RawConfig, runEnv: string, i: nat)
    requires i < |EnvironmentPlatforms(raw, runEnv)|
    requires var rps := EnvironmentPlatforms(raw, runEnv);
             forall j :: i < j < |rps| ==> PlatformName(rps[j]) != PlatformName(rps[i])
    ensures var rp := EnvironmentPlatforms(raw, runEnv)[i];
            PlatformName(rp) in NewConfig(raw, runEnv).platforms
            && NewConfig(raw, runEnv).platforms[PlatformName(rp)] == BuildPlatform(rp)
  {
    var pairs := PlatformPairs(EnvironmentPlatforms(raw, runEnv));
    Collections.FromPairsLastWins(pairs, i);
  }

  // ---------------------------------------------------------------------
  // Accessors

  function GetName(cfg: Config): string {
    cfg.name
  }

  /** `get_platform_list`: the platform names (hash order is not modelled, so a set). */
  function GetPlatformList(cfg: Config): (names: set<string>)
    ensures forall n :: n in names <==> n in cfg.platforms
  {
    cfg.platforms.Keys
  }

  /**
    `get_url`: base URL + endpoint segment for a known platform; for an
    unknown one a fixed `http://localhost/default/...` literal per kind.
   */
  function GetUrl(cfg: Config, platformName: string, kind: InteractionType): (url: string)
    ensures platformName in cfg.platforms ==>
              url == cfg.platforms[platformName].aiUrl + Endpoint(cfg.platforms[platformName], kind)
    ensures platformName !in cfg.platforms && kind == Chat ==> url == "http://localhost/default/chat"
    ensures platformName !in cfg.platforms && kind == Generate ==> url == "http://localhost/default/generate"
    ensures platformName !in cfg.platforms && kind == Models ==> url == "http://localhost/default/models"
  {
    if platformName in cfg.platforms then
      var p := cfg.platforms[platformName];
      match kind
      case Chat => p.aiUrl + p.api.chat
      case Generate => p.aiUrl + p.api.generate
      case Models => p.aiUrl + p.api.models
    else
      match kind
      case Chat => "http://localhost/default/chat"
      case Generate => "http://localhost/default/generate"
      case Models => "http://localhost/default/models"
  }

  /** `get_models`: the model map of a known platform, None for an unknown one. */
  function GetModels(cfg: Config, platformName: string): (r: Option<map<string, Model>>)
    ensures r.Some? <==> platformName in cfg.platforms
    ensures r.Some? ==> r.value == cfg.platforms[platformName].models
  {
    if platformName in cfg.platforms then Some(cfg.platforms[platformName].models) else None
  }

  /** `get_max_ctx_size`: the platform's ctx_max, or 1 for an unknown platform; never 0 for a built configuration. */
  function GetMaxCtxSize(cfg: Config, platformName: string): (n: nat)
    ensures platformName !in cfg.platforms ==> n == 1
    ensures platformName in cfg.platforms ==> n == cfg.platforms[platformName].api.ctxMax
    ensures Valid(cfg) ==> n >= 1
  {
    if platformName in cfg.platforms then
      var p := cfg.platforms[platformName];
      p.api.ctxMax
    else 1
  }

  /**
    End to end: the URL of an endpoint of a configured platform is the base
    URL built from that platform's last entry followed by the entry's
    segment for that endpoint (each with its default when not given).
   */
  lemma GetUrlOfEntry(raw: RawConfig, runEnv: string, i: nat, kind: InteractionType)
    requires i < |EnvironmentPlatforms(raw, runEnv)|
    requires var rps := EnvironmentPlatforms(raw, runEnv);
             forall j :: i < j < |rps| ==> PlatformName(rps[j]) != PlatformName(rps[i])
    ensures var rp := EnvironmentPlatforms(raw, runEnv)[i];
            var p := BuildPlatform(rp);
            GetUrl(NewConfig(raw, runEnv), PlatformName(rp), kind) == p.aiUrl + Endpoint(p, kind)
  {
    NewConfigPlatform(raw, runEnv, i);
  }
}

/** The configuration behaviour exercised by the crate's own unit tests, on a configuration of the same shape. */
module AiConfigExamples {
  import opened Yaml
  import opened AiConfig

  lemma AllInAnyCase()
    ensures FromString("All") == ALL
  {
    assert EqualsIgnoreCase("All", "ALL");
  }

  lemma NoneInAnyCase()
    ensures FromString("None") == NONE
  {
    assert EqualsIgnoreCase("None", "NONE");
  }

  lemma SingleFunctionName()
    ensures FromString("Fake_func") == Functions(["Fake_func"])
  {
    FromStrListJoin(["Fake_func"]);
  }

  /** A local Ollama server: plain HTTP on localhost:11434, context size 20, the model list under `tags`. */
  function OllamaLocal(): RawPlatform {
    RawPlatform(YString("OLLAMALOCAL"), YString("localhost"), YInt(11434), YBool(false),
                YInt(20), YBadValue, YBadValue, YBadValue, YString("tags"), [])
  }

  /** An entry giving only a name, an address and the `tags` segment. */
  function Wrong(): RawPlatform {
    RawPlatform(YString("wrong"), YString("127.0.0.1"), YBadValue, YBool(false),
                YBadValue, YBadValue, YBadValue, YBadValue, YString("tags"), [])
  }

  lemma DecimalPort()
    ensures Text.NatToDecimal(11434) == "11434"
  {
  }

  lemma OllamaLocalBuilt()
    ensures var p := BuildPlatform(OllamaLocal());
            && p.aiUrl + Endpoint(p, Chat) == "http://localhost:11434/api/chat"
            && p.aiUrl + Endpoint(p, Models) == "http://localhost:11434/api/tags"
            && p.api.ctxMax == 20
  {
    OllamaLocalBase();
  }

  lemma OllamaLocalBase()
    ensures BuildPlatform(OllamaLocal()).aiUrl == "http://localhost:11434/api/"
    ensures BuildPlatform(OllamaLocal()).api == Apis(20, "api", "chat", "generate", "tags")
  {
    OllamaLocalUrl();
  }

  lemma OllamaLocalUrl()
    ensures BuildPlatform(OllamaLocal()).aiUrl == "http://localhost:11434/api/"
  {
    LocalhostSpelling();
    LiteralBaseUrl("localhost", "http://localhost:11434/api/");
  }

  // Splits a literal concatenation off for the verifier; no model content.
  lemma LocalhostSpelling()
    ensures "http://" + "localhost" + ":11434/api/" == "http://localhost:11434/api/"
  {
  }

  /** The base URL of a plain-HTTP host on the default port with the default path, spelt out. */
  lemma LiteralBaseUrl(host: string, url: string)
    requires url == "http://" + host + ":11434/api/"
    ensures BaseUrl(host, 11434, false, "api") == url
  {
    DecimalPort();
    assert Authority(host, 11434, "api") == host + ":11434/api/";
  }

  lemma WrongBuilt()
    ensures var p := BuildPlatform(Wrong());
            && p.aiUrl + Endpoint(p, Chat) == "http://127.0.0.1:11434/api/chat"
            && p.api.ctxMax == 5
            && p.models == map[]
  {
    WrongBase();
  }

  lemma WrongBase()
    ensures BuildPlatform(Wrong()).aiUrl == "http://127.0.0.1:11434/api/"
    ensures BuildPlatform(Wrong()).api == Apis(5, "api", "chat", "generate", "tags")
  {
    WrongUrl();
  }

  lemma WrongUrl()
    ensures BuildPlatform(Wrong()).aiUrl == "http://127.0.0.1:11434/api/"
  {
    LoopbackSpelling();
    LiteralBaseUrl("127.0.0.1", "http://127.0.0.1:11434/api/");
  }

  // Splits a literal concatenation off for the verifier; no model content.
  lemma LoopbackSpelling()
    ensures "http://" + "127.0.0.1" + ":11434/api/" == "http://127.0.0.1:11434/api/"
  {
  }

  /** The two platforms above, listed for the run environment `env`. */
  predicate DevShaped(raw: RawConfig, env: string) {
    env in raw.environments && raw.environments[env] == [OllamaLocal(), Wrong()]
  }

  lemma KnownPlatformUrls(raw: RawConfig, env: string)
    requires DevShaped(raw, env)
    ensures GetUrl(NewConfig(raw, env), "OLLAMALOCAL", Chat) == "http://localhost:11434/api/chat"
    ensures GetUrl(NewConfig(raw, env), "OLLAMALOCAL", Models) == "http://localhost:11434/api/tags"
    ensures GetMaxCtxSize(NewConfig(raw, env), "OLLAMALOCAL") == 20
  {
    NewConfigPlatform(raw, env, 0);
    OllamaLocalBuilt();
  }

  lemma DefaultedPlatformUrls(raw: RawConfig, env: string)
    requires DevShaped(raw, env)
    ensures GetUrl(NewConfig(raw, env), "wrong", Chat) == "http://127.0.0.1:11434/api/chat"
    ensures GetMaxCtxSize(NewConfig(raw, env), "wrong") == 5
    ensures GetModels(NewConfig(raw, env), "wrong") == Wrappers.Some(map[])
  {
    NewConfigPlatform(raw, env, 1);
    WrongBuilt();
  }

  /** A run environment the document does not list: no platforms, and the fixed fallbacks. */
  lemma UnknownEnvironment(raw: RawConfig, env: string)
    requires env !in raw.environments
    ensures GetPlatformList(NewConfig(raw, env)) == {}
    ensures GetUrl(NewConfig(raw, env), "UNKNOWN", Models) == "http://localhost/default/models"
    ensures GetMaxCtxSize(NewConfig(raw, env), "UNKNOWN") == 1
    ensures GetModels(NewConfig(raw, env), "UNKNOWN").None?
  {
  }
}
