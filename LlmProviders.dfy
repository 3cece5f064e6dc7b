/** The chat-completion providers of the live-audio server: a factory that
    picks a provider class by name, the request headers and payload each
    class builds, and the shape of the result a completion call returns.
    The HTTP post is an oracle: it receives the request and answers with a
    response or an error. */
module LlmProviders {
  import opened Common

  /** An `LLM_PROVIDERS` entry; `apiKey` names the key in the global
      configuration. */
  datatype ProviderConfig = ProviderConfig(apiUrl: string, model: string, apiKey: string)

  /** The chat providers configured for the live-audio server. */
  const Configured: map<string, ProviderConfig> := map[
    "openai" := ProviderConfig("https://api.openai.com/v1/chat/completions", "gpt-4o", "OPENAI_API_KEY"),
    "openrouter-gpt4o" := ProviderConfig("https://openrouter.ai/api/v1/chat/completions", "openai/gpt-4o",
                                         "OPENROUTER_API_KEY"),
    "openrouter-gemini" := ProviderConfig("https://openrouter.ai/api/v1/chat/completions",
                                          "google/gemini-2.5-flash", "OPENROUTER_API_KEY"),
    "ark" := ProviderConfig("https://ark.cn-beijing.volces.com/api/v3/chat/completions",
                            "doubao-seed-1-6-flash-250615", "ARK_API_KEY")]

  /** The provider classes. */
  datatype Kind = OpenAi | OpenRouter | Ark

  /** A provider object: its class, its configuration entry and its key. */
  datatype Provider = Provider(kind: Kind, config: ProviderConfig, apiKey: string)

  /** What the factory does: build a provider or throw with a message. */
  datatype Created = Created(provider: Provider) | Thrown(message: string)

  /** The class a configured name maps to, if it is supported. */
  function KindOf(name: string): (r: Option<Kind>)
    ensures r == Some(OpenRouter) <==> name == "openrouter-gpt4o" || name == "openrouter-gemini"
    ensures r == Some(OpenAi) <==> name == "openai"
    ensures r == Some(Ark) <==> name == "ark"
  {
    if name == "openai" then Some(OpenAi)
    else if name == "openrouter-gpt4o" || name == "openrouter-gemini" then Some(OpenRouter)
    else if name == "ark" then Some(Ark)
    else None
  }

  /** `LLMProviderFactory.createProvider`: the name must be configured, the
      key it names must be set (non-empty) in the global configuration, and
      the name must be one of the supported ones. */
  function CreateProvider(name: string, providers: map<string, ProviderConfig>, global: map<string, string>): Created
  {
    if name !in providers then Thrown("LLM provider " + name + " not found in configuration")
    else
      var c := providers[name];
      if c.apiKey !in global || global[c.apiKey] == "" then
        Thrown("API key " + c.apiKey + " not found in configuration")
      else match KindOf(name)
        case Some(kind) => Created(Provider(kind, c, global[c.apiKey]))
        case None => Thrown("Unsupported LLM provider: " + name)
  }

  /** The factory builds a provider exactly for a configured, supported name
      whose key is set; the provider carries that entry and key, and the
      checks come in the source's order. */
  lemma CreateProviderOutcomes(name: string, providers: map<string, ProviderConfig>, global: map<string, string>)
    ensures var r := CreateProvider(name, providers, global);
      && (r.Created? <==> name in providers && providers[name].apiKey in global
                          && global[providers[name].apiKey] != "" && KindOf(name).Some?)
      && (r.Created? ==> r.provider.config == providers[name] && r.provider.apiKey == global[providers[name].apiKey]
                         && Some(r.provider.kind) == KindOf(name))
      && (name !in providers ==> r == Thrown("LLM provider " + name + " not found in configuration"))
      && (name in providers && (providers[name].apiKey !in global || global[providers[name].apiKey] == "") ==>
            r == Thrown("API key " + providers[name].apiKey + " not found in configuration"))
  {
  }

  /** Both OpenRouter names share one class; every configured name is
      supported. */
  lemma ConfiguredKinds()
    ensures KindOf("openrouter-gpt4o") == KindOf("openrouter-gemini") == Some(OpenRouter)
    ensures forall name :: name in Configured ==> KindOf(name).Some?
  {
  }

  /** `getHeaders`: a bearer token and the JSON content type; OpenRouter
      adds its referrer and title. */
  function Headers(p: Provider): (h: map<string, string>)
    ensures "Authorization" in h && h["Authorization"] == "Bearer " + p.apiKey
    ensures "Content-Type" in h && h["Content-Type"] == "application/json"
    ensures h.Keys == {"Authorization", "Content-Type"} + if p.kind == OpenRouter then {"HTTP-Referer", "X-Title"} else {}
  {
    var common := map["Authorization" := "Bearer " + p.apiKey, "Content-Type" := "application/json"];
    if p.kind == OpenRouter then
      common["HTTP-Referer" := "https://live-audio-chat.local"]["X-Title" := "Live Audio Chat"]
    else common
  }

  /** JavaScript truthiness of a value (`v || default`): arrays and objects
      are truthy even when empty. */
  predicate JsTruthy(j: Json) {
    match j
    case JNull => false
    case JBool(b) => b
    case JNum(n) => n != 0.0
    case JStr(s) => s != ""
    case JArr(_) => true
    case JObj(_) => true
  }

  /** `options.key || default`. */
  function OptionOr(options: map<string, Json>, key: string, default: Json): (r: Json)
    ensures key in options && JsTruthy(options[key]) ==> r == options[key]
    ensures !(key in options && JsTruthy(options[key])) ==> r == default
  {
    if key in options && JsTruthy(options[key]) then options[key] else default
  }

  /** `getRequestPayload`: model, messages, streaming on and 4096 tokens
      by default (ARK also temperature 0.7), then every option spread over
      them. */
  function Payload(p: Provider, messages: seq<Json>, options: map<string, Json>): map<string, Json> {
    var base := map[
      "model" := JStr(p.config.model),
      "messages" := JArr(messages),
      "stream" := JBool(true),
      "max_tokens" := OptionOr(options, "max_tokens", JNum(4096.0))];
    var defaults := if p.kind == Ark then base["temperature" := OptionOr(options, "temperature", JNum(0.7))] else base;
    defaults + options
  }

  /** Every option wins over the defaults, whatever its value; a default
      shows only where no option names its key, and nothing else is in the
      payload. */
  lemma PayloadFields(p: Provider, messages: seq<Json>, options: map<string, Json>)
    ensures var r := Payload(p, messages, options);
      && (forall k :: k in options ==> k in r && r[k] == options[k])
      && ("stream" !in options ==> r["stream"] == JBool(true))
      && ("max_tokens" !in options ==> r["max_tokens"] == JNum(4096.0))
      && ("model" !in options ==> r["model"] == JStr(p.config.model))
      && ("messages" !in options ==> r["messages"] == JArr(messages))
      && (p.kind == Ark && "temperature" !in options ==> r["temperature"] == JNum(0.7))
      && (p.kind != Ark ==> ("temperature" in r <==> "temperature" in options))
      && r.Keys == options.Keys + {"model", "messages", "stream", "max_tokens"}
                   + (if p.kind == Ark then {"temperature"} else {})
  {
  }

  /** An explicit temperature of 0 reaches ARK, even though `0 || 0.7`
      is 0.7: the spread of the options comes last. */
  lemma ArkKeepsZeroTemperature(p: Provider, messages: seq<Json>, options: map<string, Json>)
    requires p.kind == Ark && "temperature" in options && options["temperature"] == JNum(0.0)
    ensures OptionOr(options, "temperature", JNum(0.7)) == JNum(0.7)
    ensures Payload(p, messages, options)["temperature"] == JNum(0.0)
  {
  }

  /** The request a completion posts. */
  datatype Request = Request(url: string, headers: map<string, string>, payload: map<string, Json>)

  /** What the post answers: the streamed response, or an error with the
      message of the error body (if any) and the error's own message. */
  datatype PostOutcome = Posted(response: Json) | PostFailed(bodyMessage: Option<string>, message: string)

  /** The result of `createChatCompletion`. */
  datatype ChatResult = ChatResult(success: bool, response: Option<Json>, error: Option<string>, provider: string)

  /** The tag each class puts on its results. */
  function Tag(kind: Kind): string {
    match kind
    case OpenAi => "openai"
    case OpenRouter => "openrouter"
    case Ark => "ark"
  }

  /** `createChatCompletion`: the request built from the configuration,
      the headers and the payload is posted; a failure is caught and
      reported with the error body's message when it has a non-empty one. */
  function CreateChatCompletion(p: Provider, messages: seq<Json>, options: map<string, Json>,
                                post: Request -> PostOutcome): ChatResult
  {
    var request := Request(p.config.apiUrl, Headers(p), Payload(p, messages, options));
    match post(request)
    case Posted(response) => ChatResult(true, Some(response), None, Tag(p.kind))
    case PostFailed(body, message) =>
      var error := if body.Some? && body.value != "" then body.value else message;
      ChatResult(false, None, Some(error), Tag(p.kind))
  }

  /** A result has a response exactly when it succeeded and an error
      exactly when it failed; its tag names the provider class, and it
      succeeds exactly when the post of this provider's request did. */
  lemma ChatResultShape(p: Provider, messages: seq<Json>, options: map<string, Json>, post: Request -> PostOutcome)
    ensures var r := CreateChatCompletion(p, messages, options, post);
      var request := Request(p.config.apiUrl, Headers(p), Payload(p, messages, options));
      && (r.success <==> r.response.Some?)
      && (r.success <==> r.error.None?)
      && (r.success <==> post(request).Posted?)
      && (r.success ==> r.response == Some(post(request).response))
      && r.provider in {"openai", "openrouter", "ark"}
      && (r.provider == "openrouter" <==> p.kind == OpenRouter)
      && (!r.success && post(request).bodyMessage.Some? && post(request).bodyMessage.value != "" ==>
            r.error == post(request).bodyMessage)
      && (!r.success && (post(request).bodyMessage.None? || post(request).bodyMessage.value == "") ==>
            r.error == Some(post(request).message))
  {
  }
}
