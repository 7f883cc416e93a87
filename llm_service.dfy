/**
 * The LLM service's configuration logic: which provider the settings point
 * at, which key, base URL and model follow from that, and the guard paths of
 * `generate_json_plan`. The chat-completions client is an oracle.
 */
module LlmServices {
  import opened Wrappers
  import opened Strings

  datatype Provider = OpenAI | Zhipu | ModelScope | Ollama | Vllm | Custom

  /** The settings the service reads; `None` is an unset variable. */
  datatype LlmSettings = LlmSettings(
    modelId: Option<string>,
    apiKey: Option<string>,
    baseUrl: Option<string>,
    openaiApiKey: Option<string>,
    zhipuApiKey: Option<string>,
    modelscopeApiKey: Option<string>)

  /** Python truthiness of an optional string. */
  predicate Given(s: Option<string>) {
    s.Some? && s.value != ""
  }

  /** `a or b` on optional strings. */
  function Or(a: Option<string>, b: Option<string>): (r: Option<string>)
    ensures Given(a) ==> r == a
    ensures !Given(a) ==> r == b
  {
    if Given(a) then a else b
  }

  /** Which provider a base URL names, by substring, first match wins. */
  function ProviderOfUrl(url: string): Option<Provider> {
    if Contains(url, "api.openai.com") then Some(OpenAI)
    else if Contains(url, "open.bigmodel.cn") then Some(Zhipu)
    else if Contains(url, "api-inference.modelscope.cn") then Some(ModelScope)
    else if Contains(url, ":11434") then Some(Ollama)
    else if Contains(url, ":8000") then Some(Vllm)
    else None
  }

  /** `_auto_detect_provider`: the base URL, then the provider keys, then an "sk-" key. */
  function DetectProvider(s: LlmSettings): Provider {
    if Given(s.baseUrl) && ProviderOfUrl(s.baseUrl.value).Some? then ProviderOfUrl(s.baseUrl.value).value
    else if Given(s.openaiApiKey) then OpenAI
    else if Given(s.zhipuApiKey) then Zhipu
    else if Given(s.modelscopeApiKey) then ModelScope
    else if Given(s.apiKey) && StartsWith(s.apiKey.value, "sk-") then OpenAI
    else Custom
  }

  /** `getattr(settings, f"{provider.upper()}_API_KEY", None)`: only three such settings exist. */
  function ProviderKey(s: LlmSettings, p: Provider): (k: Option<string>)
    ensures p in {Ollama, Vllm, Custom} ==> k == None
  {
    match p
    case OpenAI => s.openaiApiKey
    case Zhipu => s.zhipuApiKey
    case ModelScope => s.modelscopeApiKey
    case _ => None
  }

  function DefaultBaseUrl(p: Provider): Option<string> {
    match p
    case OpenAI => Some("https://api.openai.com/v1")
    case Zhipu => Some("https://open.bigmodel.cn/api/paas/v4/")
    case ModelScope => Some("https://api-inference.modelscope.cn/v1")
    case _ => None
  }

  const DefaultModel: string := "gpt-4-turbo"

  datatype Credentials = Credentials(apiKey: Option<string>, baseUrl: Option<string>, model: string)

  /** `_resolve_credentials` for a detected provider. */
  function Resolve(s: LlmSettings, p: Provider): Credentials {
    Credentials(
      Or(ProviderKey(s, p), s.apiKey),
      if !Given(s.baseUrl) && DefaultBaseUrl(p).Some? then DefaultBaseUrl(p) else s.baseUrl,
      if Given(s.modelId) then s.modelId.value else DefaultModel)
  }

  /** A recognised base URL decides the provider whatever keys are set. */
  lemma BaseUrlFirst(s: LlmSettings, t: LlmSettings)
    requires Given(s.baseUrl) && ProviderOfUrl(s.baseUrl.value).Some? && t.baseUrl == s.baseUrl
    ensures DetectProvider(s) == DetectProvider(t) == ProviderOfUrl(s.baseUrl.value).value
  {
  }

  /** The five URL patterns are tried in order: one naming both openai and ":8000" is openai. */
  lemma UrlOrder()
    ensures ProviderOfUrl("https://api.openai.com:8000/v1") == Some(OpenAI)
  {
    NamesOpenAi();
  }

  lemma NamesOpenAi()
    ensures Contains("https://api.openai.com:8000/v1", "api.openai.com")
  {
    ContainsInConcat("https://", "api.openai.com", ":8000/v1");
    assert "https://" + "api.openai.com" + ":8000/v1" == "https://api.openai.com:8000/v1";
  }

  /** A URL naming none of the hosted services but port 11434 is Ollama. */
  lemma OllamaPort()
    ensures ProviderOfUrl("h:11434/") == Some(Ollama)
  {
    ContainsInConcat("h", ":11434", "/");
    assert "h" + ":11434" + "/" == "h:11434/";
    NotContains("h:11434/", "api.openai.com");
    NotContains("h:11434/", "open.bigmodel.cn");
    NotContains("h:11434/", "api-inference.modelscope.cn");
  }

  /** A pattern longer than the text does not occur in it. */
  lemma NotContains(s: string, sub: string)
    requires |sub| > |s|
    ensures !Contains(s, sub)
  {
  }

  /**
   * The detected provider is "custom" exactly when nothing identifies one:
   * no recognised URL, no provider key and no "sk-" key.
   */
  lemma CustomIffNothingMatches(s: LlmSettings)
    ensures DetectProvider(s) == Custom <==>
      && !(Given(s.baseUrl) && ProviderOfUrl(s.baseUrl.value).Some?)
      && !Given(s.openaiApiKey) && !Given(s.zhipuApiKey) && !Given(s.modelscopeApiKey)
      && !(Given(s.apiKey) && StartsWith(s.apiKey.value, "sk-"))
  {
  }

  /** Providers without a key setting of their own always use LLM_API_KEY. */
  lemma GenericKeyFallback(s: LlmSettings)
    requires DetectProvider(s) in {Ollama, Vllm, Custom}
    ensures Resolve(s, DetectProvider(s)).apiKey == s.apiKey
    ensures Resolve(s, DetectProvider(s)).baseUrl == s.baseUrl
  {
  }

  /**
   * With no base URL, a provider key alone selects that provider, its key
   * and its default URL.
   */
  lemma ProviderKeyAlone(s: LlmSettings)
    requires !Given(s.baseUrl) && Given(s.zhipuApiKey) && !Given(s.openaiApiKey)
    ensures DetectProvider(s) == Zhipu
    ensures Resolve(s, DetectProvider(s)) ==
      Credentials(s.zhipuApiKey, Some("https://open.bigmodel.cn/api/paas/v4/"),
        if Given(s.modelId) then s.modelId.value else DefaultModel)
  {
  }

  /** A set LLM_BASE_URL is always the resolved URL, whichever provider was detected. */
  lemma BaseUrlKept(s: LlmSettings, p: Provider)
    requires Given(s.baseUrl)
    ensures Resolve(s, p).baseUrl == s.baseUrl
  {
  }

  /** What the completions client answers: a content (possibly null) or an exception. */
  datatype Reply = Content(content: Option<string>) | Failed

  /** The chat-completions client; `requests` logs (model, prompt) for each call. */
  class ChatClient {
    const respond: (string, string) -> Reply
    var requests: seq<(string, string)>

    constructor (respond: (string, string) -> Reply)
      ensures this.respond == respond && requests == []
    {
      this.respond := respond;
      requests := [];
    }

    method Create(model: string, prompt: string) returns (r: Reply)
      modifies this
      ensures requests == old(requests) + [(model, prompt)]
      ensures r == respond(model, prompt)
    {
      requests := requests + [(model, prompt)];
      r := respond(model, prompt);
    }
  }

  /** The text `generate_json_plan` returns for a reply: `json_output or ""`, and "" on an exception. */
  function PlanText(r: Reply): (t: string)
    ensures r.Failed? || r.content.None? ==> t == ""
    ensures r.Content? && r.content.Some? ==> t == r.content.value
  {
    match r
    case Content(Some(c)) => c
    case _ => ""
  }

  class LlmService {
    const settings: LlmSettings
    var provider: Provider
    var apiKey: Option<string>
    var baseUrl: Option<string>
    var model: Option<string>

    /** `__init__`: start as "custom" with nothing resolved, then detect and resolve. */
    constructor (settings: LlmSettings)
      ensures this.settings == settings
      ensures provider == DetectProvider(settings)
      ensures model.Some? && Credentials(apiKey, baseUrl, model.value) == Resolve(settings, provider)
    {
      this.settings := settings;
      provider := Custom;
      apiKey, baseUrl, model := None, None, None;
      new;
      AutoDetectProvider();
      ResolveCredentials();
    }

    /** `_auto_detect_provider`: sets the provider on the first rule that applies, else leaves it. */
    method AutoDetectProvider()
      requires provider == Custom
      modifies this
      ensures provider == DetectProvider(settings)
      ensures apiKey == old(apiKey) && baseUrl == old(baseUrl) && model == old(model)
    {
      var url := settings.baseUrl;
      if Given(url) {
        if Contains(url.value, "api.openai.com") { provider := OpenAI; return; }
        if Contains(url.value, "open.bigmodel.cn") { provider := Zhipu; return; }
        if Contains(url.value, "api-inference.modelscope.cn") { provider := ModelScope; return; }
        if Contains(url.value, ":11434") { provider := Ollama; return; }
        if Contains(url.value, ":8000") { provider := Vllm; return; }
      }
      if Given(settings.openaiApiKey) { provider := OpenAI; return; }
      if Given(settings.zhipuApiKey) { provider := Zhipu; return; }
      if Given(settings.modelscopeApiKey) { provider := ModelScope; return; }
      var key := settings.apiKey;
      if Given(key) {
        if StartsWith(key.value, "sk-") { provider := OpenAI; return; }
      }
    }

    /** `_resolve_credentials`: key, then base URL, then model. */
    method ResolveCredentials()
      modifies this
      ensures provider == old(provider) && model.Some?
      ensures Credentials(apiKey, baseUrl, model.value) == Resolve(settings, provider)
    {
      apiKey := Or(ProviderKey(settings, provider), settings.apiKey);
      if provider == OpenAI && !Given(settings.baseUrl) {
        baseUrl := Some("https://api.openai.com/v1");
      } else if provider == Zhipu && !Given(settings.baseUrl) {
        baseUrl := Some("https://open.bigmodel.cn/api/paas/v4/");
      } else if provider == ModelScope && !Given(settings.baseUrl) {
        baseUrl := Some("https://api-inference.modelscope.cn/v1");
      } else {
        baseUrl := settings.baseUrl;
      }
      model := Some(if Given(settings.modelId) then settings.modelId.value else DefaultModel);
    }

    /**
     * `generate_json_plan(prompt)`: "" without a request when there is no
     * key; otherwise one request with the resolved model, and its content,
     * or "" for a null content or an exception.
     */
    method GenerateJsonPlan(client: ChatClient, prompt: string) returns (out: string)
      requires model.Some?
      modifies client
      ensures !Given(apiKey) ==> out == "" && client.requests == old(client.requests)
      ensures Given(apiKey) ==>
        && client.requests == old(client.requests) + [(model.value, prompt)]
        && out == PlanText(client.respond(model.value, prompt))
    {
      if !Given(apiKey) {
        return "";
      }
      var r := client.Create(model.value, prompt);
      out := PlanText(r);
    }
  }
}
