/** Provider and model resolution of the retrieval configuration: per-provider
    defaults, the API key from the environment, the client settings handed to
    the OpenAI-compatible client, and overrides read from the environment.
    The environment is a map from variable names to values. */
module RetrievalConfig {
  import opened Common
  import KbTools

  type Env = map<string, string>

  /** `os.getenv(name)`. */
  function GetEnv(env: Env, name: string): (r: Option<string>)
    ensures r.Some? <==> name in env
    ensures r.Some? ==> r.value == env[name]
  {
    if name in env then Some(env[name]) else None
  }

  datatype ProviderDefaults = ProviderDefaults(model: string, baseUrl: string)

  /** `PROVIDER_DEFAULTS`, keyed by lower-case provider name. */
  const Defaults: map<string, ProviderDefaults> := map[
    "siliconflow" := ProviderDefaults("Qwen/Qwen3-235B-A22B-Thinking-2507", "https://api.siliconflow.cn/v1"),
    "doubao" := ProviderDefaults("doubao-seed-1-6-thinking-250715", "https://ark.cn-beijing.volces.com/api/v3"),
    "kimi" := ProviderDefaults("kimi-k2-0905-preview", "https://api.moonshot.cn/v1"),
    "moonshot" := ProviderDefaults("kimi-k2-0905-preview", "https://api.moonshot.cn/v1"),
    "openrouter" := ProviderDefaults("openai/gpt-4o-2024-11-20", "https://openrouter.ai/api/v1"),
    "openai" := ProviderDefaults("gpt-4o-2024-11-20", "https://api.openai.com/v1"),
    "groq" := ProviderDefaults("llama-3.3-70b-versatile", "https://api.groq.com/openai/v1"),
    "together" := ProviderDefaults("meta-llama/Llama-3.3-70B-Instruct-Turbo", "https://api.together.xyz"),
    "deepseek" := ProviderDefaults("deepseek-reasoner", "https://api.deepseek.com/v1")]

  /** The environment variable holding each provider's key; kimi and
      moonshot share one. */
  const EnvKeys: map<string, string> := map[
    "siliconflow" := "SILICONFLOW_API_KEY",
    "doubao" := "ARK_API_KEY",
    "kimi" := "MOONSHOT_API_KEY",
    "moonshot" := "MOONSHOT_API_KEY",
    "openrouter" := "OPENROUTER_API_KEY",
    "openai" := "OPENAI_API_KEY",
    "groq" := "GROQ_API_KEY",
    "together" := "TOGETHER_API_KEY",
    "deepseek" := "DEEPSEEK_API_KEY"]

  /** The providers with defaults are exactly those with a key variable. */
  lemma ProvidersAgree()
    ensures Defaults.Keys == EnvKeys.Keys
  {
  }

  /** `LLMConfig.get_api_key`: the provider's variable, looked up by the
      lower-cased name; an unknown provider looks up the empty name. */
  function GetApiKey(env: Env, provider: string): (r: Option<string>)
    ensures Lower(provider) in EnvKeys ==> r == GetEnv(env, EnvKeys[Lower(provider)])
    ensures Lower(provider) !in EnvKeys ==> r == GetEnv(env, "")
  {
    GetEnv(env, if Lower(provider) in EnvKeys then EnvKeys[Lower(provider)] else "")
  }

  /** The fields of `LLMConfig` the resolution reads. */
  datatype LlmConfig = LlmConfig(provider: string, model: Option<string>, apiKey: Option<string>, stream: bool)

  const DefaultLlm := LlmConfig("kimi", None, None, true)

  /** Python truthiness of an optional string. */
  predicate Set(s: Option<string>) {
    s.Some? && s.value != ""
  }

  /** `get_client_config`: the client settings (never holding "model") and
      the model, or the ValueError text. */
  datatype ClientConfig = ClientConfig(settings: map<string, string>, model: Option<string>) | ValueError(message: string)

  function GetClientConfig(c: LlmConfig, env: Env): (r: ClientConfig)
  {
    var p := Lower(c.provider);
    var apiKey := if Set(c.apiKey) then c.apiKey else GetApiKey(env, p);
    if !Set(apiKey) then ValueError("API key required for provider '" + p + "'")
    else
      var model := if Set(c.model) then c.model else if p in Defaults then Some(Defaults[p].model) else None;
      var settings := map["api_key" := apiKey.value];
      ClientConfig(if p in Defaults then settings["base_url" := Defaults[p].baseUrl] else settings, model)
  }

  /** The resolution fails exactly when neither the explicit key nor the
      provider's variable is set, and an explicit key wins over the
      environment. */
  lemma ClientConfigKey(c: LlmConfig, env: Env)
    ensures GetClientConfig(c, env).ValueError? <==> !Set(c.apiKey) && !Set(GetApiKey(env, c.provider))
    ensures Set(c.apiKey) ==> GetClientConfig(c, env).settings["api_key"] == c.apiKey.value
    ensures !Set(c.apiKey) && Set(GetApiKey(env, c.provider)) ==>
      GetClientConfig(c, env).settings["api_key"] == GetApiKey(env, c.provider).value
  {
    LowerIdempotent(c.provider);
  }

  /** The model is the configured one if set, else the provider default,
      else none; the settings hold the key, and the base URL exactly when
      the provider has defaults, and never the model. */
  lemma ClientConfigShape(c: LlmConfig, env: Env)
    requires GetClientConfig(c, env).ClientConfig?
    ensures var r := GetClientConfig(c, env);
      && r.model == (if Set(c.model) then c.model
                     else if Lower(c.provider) in Defaults then Some(Defaults[Lower(c.provider)].model) else None)
      && "model" !in r.settings
      && "api_key" in r.settings
      && ("base_url" in r.settings <==> Lower(c.provider) in Defaults)
      && r.settings.Keys <= {"api_key", "base_url"}
  {
  }

  /** Provider names are matched without regard to ASCII case. */
  lemma ClientConfigCaseInsensitive(c: LlmConfig, provider: string, env: Env)
    requires Lower(provider) == Lower(c.provider)
    ensures GetClientConfig(c.(provider := provider), env) == GetClientConfig(c, env)
  {
  }

  lemma LowerIdempotent(s: string)
    ensures Lower(Lower(s)) == Lower(s)
  {
  }

  /** `KnowledgeBaseType(value)`: the member with that value, or a ValueError. */
  function ParseKbType(s: string): (r: Option<KbTools.KbType>)
    ensures r.Some? ==> KbTypeValue(r.value) == s
    ensures r.None? ==> forall t: KbTools.KbType :: KbTypeValue(t) != s
  {
    if s == "local" then Some(KbTools.Local)
    else if s == "dify" then Some(KbTools.Dify)
    else if s == "raptor" then Some(KbTools.Raptor)
    else if s == "graphrag" then Some(KbTools.GraphRag)
    else None
  }

  function KbTypeValue(t: KbTools.KbType): string {
    match t
    case Local => "local"
    case Dify => "dify"
    case Raptor => "raptor"
    case GraphRag => "graphrag"
  }

  /** The parts of `Config` the environment can change, with the agent
      limits the RAG agent reads. */
  datatype Config = Config(llm: LlmConfig, kbType: KbTools.KbType, maxIterations: int, historyLimit: int)

  const DefaultConfig := Config(DefaultLlm, KbTools.Local, 10, 20)

  datatype FromEnvResult = Loaded(config: Config) | InvalidKbType(value: string)

  /** `Config.from_env`: LLM_PROVIDER, LLM_MODEL and KB_TYPE override the
      defaults when set to a non-empty value; KB_TYPE is lower-cased and an
      unknown value raises ValueError. */
  function FromEnv(env: Env): (r: FromEnvResult)
  {
    var provider := GetEnv(env, "LLM_PROVIDER");
    var model := GetEnv(env, "LLM_MODEL");
    var kb := GetEnv(env, "KB_TYPE");
    var llm := DefaultLlm.(provider := if Set(provider) then provider.value else DefaultLlm.provider,
                           model := if Set(model) then model else DefaultLlm.model);
    if Set(kb) then
      match ParseKbType(Lower(kb.value))
      case None => InvalidKbType(Lower(kb.value))
      case Some(t) => Loaded(DefaultConfig.(llm := llm, kbType := t))
    else Loaded(DefaultConfig.(llm := llm))
  }

  /** Each variable overrides its field only when set, the other fields keep
      their defaults, and loading fails only for a KB_TYPE naming no
      backend. */
  lemma FromEnvOverrides(env: Env)
    ensures FromEnv(env).InvalidKbType? <==>
      Set(GetEnv(env, "KB_TYPE")) && ParseKbType(Lower(env["KB_TYPE"])).None?
    ensures FromEnv(env).Loaded? ==> var c := FromEnv(env).config;
      && (c.llm.provider == if Set(GetEnv(env, "LLM_PROVIDER")) then env["LLM_PROVIDER"] else "kimi")
      && (c.llm.model == if Set(GetEnv(env, "LLM_MODEL")) then Some(env["LLM_MODEL"]) else None)
      && (c.kbType == if Set(GetEnv(env, "KB_TYPE")) then ParseKbType(Lower(env["KB_TYPE"])).value else KbTools.Local)
      && c.llm.apiKey == None && c.maxIterations == 10 && c.historyLimit == 20
  {
  }

  /** Every backend name is accepted in any ASCII case. */
  lemma KbTypeAnyCase(t: KbTools.KbType, s: string)
    requires Lower(s) == KbTypeValue(t)
    ensures ParseKbType(Lower(s)) == Some(t)
  {
  }
}
