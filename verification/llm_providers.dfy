/**
 * The LLM back ends of src/llm_providers.py: choosing a provider by name, and
 * turning what the remote service does into the review text. The SDK and HTTP
 * calls are oracles: a function from the prompt sent to what happened.
 */
module LlmProviders {
  import opened Wrappers
  import opened Text

  /** Keyword arguments: a key mapped to None is an explicitly passed None. */
  type Kwargs = map<string, Option<string>>

  /** A constructed provider and the settings it keeps. */
  datatype Provider =
    | OpenAI(apiKey: Option<string>, model: Option<string>)
    | Anthropic(apiKey: Option<string>, model: Option<string>)
    | Gemini(apiKey: Option<string>, model: Option<string>)
    | Ollama(baseUrl: Option<string>, model: Option<string>)

  /** The name `get_provider` selects each variant by. */
  function Name(p: Provider): string {
    match p
    case OpenAI(_, _) => "openai"
    case Anthropic(_, _) => "claude"
    case Gemini(_, _) => "gemini"
    case Ollama(_, _) => "ollama"
  }

  const KnownNames := {"openai", "claude", "gemini", "ollama"}

  /** The model each provider uses when none is given. */
  function DefaultModel(name: string): string {
    if name == "openai" then "gpt-3.5-turbo"
    else if name == "claude" then "claude-3-opus-20240229"
    else if name == "gemini" then "gemini-1.5-pro-latest"
    else "llama3"
  }

  const DefaultOllamaUrl := "http://localhost:11434"

  /** `kwargs.get(key, default)`. */
  function Get(kwargs: Kwargs, key: string, default: Option<string>): (v: Option<string>)
    ensures key in kwargs ==> v == kwargs[key]
    ensures key !in kwargs ==> v == default
  {
    if key in kwargs then kwargs[key] else default
  }

  /**
   * `LLMFactory.get_provider`: the provider the name selects, with the
   * settings taken from the keyword arguments; an unknown name raises
   * ValueError (Err).
   */
  function GetProvider(name: string, kwargs: Kwargs): (r: Result<Provider, string>)
    ensures r.Err? <==> name !in KnownNames
    ensures r.Err? ==> r.error == "Unknown provider: " + name
    ensures r.Ok? ==> Name(r.value) == name
    ensures r.Ok? ==> r.value.model == Get(kwargs, "model", Some(DefaultModel(name)))
    ensures r.Ok? && !r.value.Ollama? ==> r.value.apiKey == Get(kwargs, "api_key", None)
    ensures r.Ok? && r.value.Ollama? ==> r.value.baseUrl == Get(kwargs, "base_url", Some(DefaultOllamaUrl))
  {
    var model := Get(kwargs, "model", Some(DefaultModel(name)));
    var key := Get(kwargs, "api_key", None);
    if name == "openai" then Ok(OpenAI(key, model))
    else if name == "claude" then Ok(Anthropic(key, model))
    else if name == "gemini" then Ok(Gemini(key, model))
    else if name == "ollama" then Ok(Ollama(Get(kwargs, "base_url", Some(DefaultOllamaUrl)), model))
    else Err("Unknown provider: " + name)
  }

  /** Every provider is reachable by its own name, with the settings it holds. */
  lemma GetProviderRoundTrip(p: Provider)
    ensures !p.Ollama? ==> GetProvider(Name(p), map["api_key" := p.apiKey, "model" := p.model]) == Ok(p)
    ensures p.Ollama? ==> GetProvider(Name(p), map["base_url" := p.baseUrl, "model" := p.model]) == Ok(p)
  {
  }

  /** The model setting is taken from the arguments whenever the key is present, even when its value is None. */
  lemma ExplicitModelKept(name: string, kwargs: Kwargs)
    requires name in KnownNames && "model" in kwargs
    ensures GetProvider(name, kwargs).value.model == kwargs["model"]
  {
  }

  /** What an SDK call (OpenAI, Anthropic, Gemini) does. */
  datatype SdkOutcome =
    | Returned(text: string)     // the reply text of the first choice / content block / response
    | Raised(reason: string)     // any exception, by its `str`

  /** What the HTTP POST to Ollama's `/api/generate` does. */
  datatype HttpOutcome =
    | Responded(status: int, body: string, json: Result<map<string, string>, string>)
    | ConnectionFailed(reason: string)   // `requests.post` raises

  /** The prefix each provider puts before the text of an exception. */
  function ErrorPrefix(p: Provider): string {
    match p
    case OpenAI(_, _) => "OpenAI Error: "
    case Anthropic(_, _) => "Anthropic Error: "
    case Gemini(_, _) => "Gemini Error: "
    case Ollama(_, _) => "Ollama Connection Error: "
  }

  const NoResponse := "No response"

  /** The reply text of an Ollama HTTP response. */
  function OllamaReply(o: HttpOutcome): (r: string)
    ensures o.ConnectionFailed? ==> r == ErrorPrefix(Ollama(None, None)) + o.reason
    ensures o.Responded? && o.status != 200 ==> r == "Ollama Error: " + IntString(o.status) + " - " + o.body
    ensures o.Responded? && o.status == 200 && o.json.Err? ==> r == ErrorPrefix(Ollama(None, None)) + o.json.error
    ensures o.Responded? && o.status == 200 && o.json.Ok? ==>
      r == (if "response" in o.json.value then o.json.value["response"] else NoResponse)
  {
    match o
    case ConnectionFailed(reason) => "Ollama Connection Error: " + reason
    case Responded(status, body, json) =>
      if status == 200 then
        match json
        case Ok(fields) => if "response" in fields then fields["response"] else NoResponse
        case Err(reason) => "Ollama Connection Error: " + reason
      else "Ollama Error: " + IntString(status) + " - " + body
  }

  /**
   * `generate_review`: the text the service returns, or the error folded into
   * a string; it never fails. `sdk` and `http` say what the remote call does
   * for a given prompt; the SDK providers use the first, Ollama the second.
   */
  function GenerateReview(p: Provider, prompt: string, sdk: string -> SdkOutcome, http: string -> HttpOutcome): (r: string)
    ensures !p.Ollama? && sdk(prompt).Returned? ==> r == sdk(prompt).text
    ensures !p.Ollama? && sdk(prompt).Raised? ==> r == ErrorPrefix(p) + sdk(prompt).reason
    ensures p.Ollama? ==> r == OllamaReply(http(prompt))
  {
    if p.Ollama? then OllamaReply(http(prompt))
    else
      match sdk(prompt)
      case Returned(text) => text
      case Raised(reason) => ErrorPrefix(p) + reason
  }

  /** Different providers' exceptions never read alike, whatever their text. */
  lemma ErrorsNameTheProvider(p: Provider, q: Provider, e1: string, e2: string)
    requires Name(p) != Name(q)
    ensures ErrorPrefix(p) + e1 != ErrorPrefix(q) + e2
  {
    var a, b := ErrorPrefix(p) + e1, ErrorPrefix(q) + e2;
    if p.Ollama? || q.Ollama? {
      assert a[0] != b[0] || a[1] != b[1];
    } else {
      assert a[0] != b[0];
    }
  }

  /** An Ollama error status and an Ollama connection failure never read alike. */
  lemma OllamaFailuresDistinct(status: int, body: string, reason: string)
    ensures "Ollama Error: " + IntString(status) + " - " + body != ErrorPrefix(Ollama(None, None)) + reason
  {
    var a, b := "Ollama Error: " + IntString(status) + " - " + body, ErrorPrefix(Ollama(None, None)) + reason;
    assert a[7] == 'E' && b[7] == 'C';
  }

  /** The status code in an Ollama error reads back as the number received. */
  lemma OllamaStatusReadable(status: nat, body: string)
    requires status != 200
    ensures var d := Decimal(status);
      OllamaReply(Responded(status, body, Err("")))[14..14 + |d|] == d && DigitsValue(d) == status
  {
    DecimalRoundTrip(status);
    var d := Decimal(status);
    var r := OllamaReply(Responded(status, body, Err("")));
    assert r == "Ollama Error: " + d + (" - " + body);
  }
}
