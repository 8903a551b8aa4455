/** The AI handler's configuration, the guard and routing in front of every
    call, and the four vendor adapters: the request each one sends and the
    field of the reply each one reads. The network is a parameter: a function
    from the request sent to the exchange that came back. */
module Gateway {
  import opened Wrappers
  import opened Json

  /** The handler's configuration. An empty string stands for a field that
      is unset (`null`) or otherwise falsy. */
  datatype Config = Config(provider: string, apiKey: string, model: string)

  /** The configuration of a newly constructed handler. */
  const UNCONFIGURED: Config := Config("", "", "")

  /** `configure`: all three fields are replaced together. */
  function Configure(c: Config, provider: string, apiKey: string, model: string): (r: Config)
    ensures r.provider == provider && r.apiKey == apiKey && r.model == model
  {
    c.(provider := provider, apiKey := apiKey, model := model)
  }

  /** Configuring forgets everything the handler was configured with before. */
  lemma ConfigureForgets(c1: Config, c2: Config, provider: string, apiKey: string, model: string)
    ensures Configure(c1, provider, apiKey, model) == Configure(c2, provider, apiKey, model)
  {
  }

  /** Whether every field needed for a call is truthy. */
  predicate Configured(c: Config) {
    c.apiKey != "" && c.provider != "" && c.model != ""
  }

  datatype Vendor = OpenAI | Anthropic | DeepSeek | Google

  /** The provider name the handler dispatches on. */
  function VendorName(v: Vendor): string {
    match v
    case OpenAI => "openai"
    case Anthropic => "anthropic"
    case DeepSeek => "deepseek"
    case Google => "google"
  }

  /** The `switch` over the provider name: the vendor it routes to, if any. */
  function VendorOf(provider: string): (r: Option<Vendor>)
    ensures r.Some? ==> VendorName(r.value) == provider
    ensures r.None? <==> forall v: Vendor :: VendorName(v) != provider
  {
    if provider == "openai" then Some(OpenAI)
    else if provider == "anthropic" then Some(Anthropic)
    else if provider == "deepseek" then Some(DeepSeek)
    else if provider == "google" then Some(Google)
    else None
  }

  /** The vendor's name as it appears in its error messages. */
  function VendorLabel(v: Vendor): string {
    match v
    case OpenAI => "OpenAI"
    case Anthropic => "Anthropic"
    case DeepSeek => "DeepSeek"
    case Google => "Google"
  }

  const OPENAI_URL: string := "https://api.openai.com/v1/chat/completions"
  const ANTHROPIC_URL: string := "https://api.anthropic.com/v1/messages"
  const DEEPSEEK_URL: string := "https://api.deepseek.com/v1/chat/completions"
  const GOOGLE_BASE: string := "https://generativelanguage.googleapis.com/v1beta/models"

  const ANTHROPIC_VERSION: string := "2023-06-01"
  const ANTHROPIC_JSON_SUFFIX: string := "\n\nPlease respond with valid JSON only."
  const GOOGLE_JSON_SUFFIX: string := "\n\nRespond with valid JSON only."

  /** The sampling temperature every request carries. It is only ever sent,
      never computed with. */
  const TEMPERATURE: Json := JNumber(0.7)
  const MAX_TOKENS: Json := JNumber(4096.0)

  /** A POST request: where it goes, its headers, and the JSON value whose
      serialisation is its body. */
  datatype Request = Request(url: string, headers: map<string, string>, body: Json)

  function ChatMessage(role: string, content: string): Json {
    JObject(map["role" := JString(role), "content" := JString(content)])
  }

  /** The request body of the two chat-completions vendors. */
  function ChatBody(c: Config, system: string, user: string): Json {
    JObject(map[
      "model" := JString(c.model),
      "messages" := JArray([ChatMessage("system", system), ChatMessage("user", user)]),
      "temperature" := TEMPERATURE])
  }

  function BearerHeaders(c: Config): map<string, string> {
    map["Content-Type" := "application/json", "Authorization" := "Bearer " + c.apiKey]
  }

  /** The Google endpoint for the configured model and key. */
  function GoogleUrl(c: Config): string {
    GOOGLE_BASE + "/" + c.model + ":generateContent?key=" + c.apiKey
  }

  /** The text of the single part Google is sent. */
  function GooglePrompt(system: string, user: string): string {
    system + "\n\n" + user + GOOGLE_JSON_SUFFIX
  }

  /** `_callOpenAI`, `_callAnthropic`, `_callDeepSeek` and `_callGoogle`: the
      request each vendor is sent. */
  function BuildRequest(v: Vendor, c: Config, system: string, user: string): Request {
    match v
    case OpenAI => Request(OPENAI_URL, BearerHeaders(c), ChatBody(c, system, user))
    case DeepSeek => Request(DEEPSEEK_URL, BearerHeaders(c), ChatBody(c, system, user))
    case Anthropic =>
      Request(ANTHROPIC_URL,
              map["Content-Type" := "application/json", "x-api-key" := c.apiKey, "anthropic-version" := ANTHROPIC_VERSION],
              JObject(map[
                "model" := JString(c.model),
                "system" := JString(system),
                "messages" := JArray([ChatMessage("user", user + ANTHROPIC_JSON_SUFFIX)]),
                "max_tokens" := MAX_TOKENS,
                "temperature" := TEMPERATURE]))
    case Google =>
      Request(GoogleUrl(c),
              map["Content-Type" := "application/json"],
              JObject(map[
                "contents" := JArray([JObject(map["parts" := JArray([JObject(map["text" := JString(GooglePrompt(system, user))])])])]),
                "generationConfig" := JObject(map["temperature" := TEMPERATURE, "maxOutputTokens" := MAX_TOKENS])]))
  }

  /** Reads a string-valued property path of a request body. */
  predicate ReadsText(body: Json, path: seq<Key>, text: string) {
    Follow(Defined(body), path) == Success(Defined(JString(text)))
  }

  /** The chat vendors are sent a system message and then a user message,
      with the key as a bearer token. */
  lemma ChatRequestCarriesPrompts(v: Vendor, c: Config, system: string, user: string)
    requires v == OpenAI || v == DeepSeek
    ensures var q := BuildRequest(v, c, system, user);
      && ReadsText(q.body, [Field("messages"), Index(0), Field("role")], "system")
      && ReadsText(q.body, [Field("messages"), Index(0), Field("content")], system)
      && ReadsText(q.body, [Field("messages"), Index(1), Field("role")], "user")
      && ReadsText(q.body, [Field("messages"), Index(1), Field("content")], user)
      && Follow(Defined(q.body), [Field("messages"), Field("length")]) == Success(Defined(JNumber(2.0)))
      && q.headers["Authorization"] == "Bearer " + c.apiKey
  {
    ChatPaths(c, system, user);
  }

  lemma ChatPaths(c: Config, system: string, user: string)
    ensures var body := ChatBody(c, system, user);
      && ReadsText(body, [Field("messages"), Index(0), Field("role")], "system")
      && ReadsText(body, [Field("messages"), Index(0), Field("content")], system)
      && ReadsText(body, [Field("messages"), Index(1), Field("role")], "user")
      && ReadsText(body, [Field("messages"), Index(1), Field("content")], user)
      && Follow(Defined(body), [Field("messages"), Field("length")]) == Success(Defined(JNumber(2.0)))
  {
    var body := ChatBody(c, system, user);
    var msgs := Defined(JArray([ChatMessage("system", system), ChatMessage("user", user)]));
    assert Get(Defined(body), Field("messages")) == Success(msgs);
    ReadPair(body, msgs, 0, "role", "system");
    ReadPair(body, msgs, 0, "content", system);
    ReadPair(body, msgs, 1, "role", "user");
    ReadPair(body, msgs, 1, "content", user);
    assert [Field("messages"), Field("length")][1..] == [Field("length")];
  }

  /** Reads `body.messages[i].name` through the messages array. */
  lemma ReadPair(body: Json, msgs: JsValue, i: nat, name: string, text: string)
    requires Get(Defined(body), Field("messages")) == Success(msgs)
    requires msgs.Defined? && msgs.json.JArray? && i < |msgs.json.items|
    requires Get(Defined(msgs.json.items[i]), Field(name)) == Success(Defined(JString(text)))
    ensures ReadsText(body, [Field("messages"), Index(i), Field(name)], text)
  {
    var p := [Field("messages"), Index(i), Field(name)];
    assert p[1..] == [Index(i), Field(name)] && p[1..][1..] == [Field(name)];
    assert Follow(Defined(msgs.json.items[i]), p[1..][1..]) == Success(Defined(JString(text)));
    assert Follow(msgs, p[1..]) == Success(Defined(JString(text)));
  }

  /** Anthropic is sent the system prompt at the top level, the user message
      with its JSON reminder appended, and a 4096-token cap, with the key in
      its own header next to the API version. */
  lemma AnthropicRequestCarriesPrompts(c: Config, system: string, user: string)
    ensures var q := BuildRequest(Anthropic, c, system, user);
      && ReadsText(q.body, [Field("system")], system)
      && ReadsText(q.body, [Field("messages"), Index(0), Field("content")], user + "\n\nPlease respond with valid JSON only.")
      && Follow(Defined(q.body), [Field("max_tokens")]) == Success(Defined(JNumber(4096.0)))
      && q.headers["x-api-key"] == c.apiKey && q.headers["anthropic-version"] == "2023-06-01"
  {
    var q := BuildRequest(Anthropic, c, system, user);
    var m := ChatMessage("user", user + ANTHROPIC_JSON_SUFFIX);
    var msgs := Defined(JArray([m]));
    assert Get(Defined(q.body), Field("messages")) == Success(msgs);
    ReadPair(q.body, msgs, 0, "content", user + ANTHROPIC_JSON_SUFFIX);
  }

  /** Google is sent one part holding both prompts and its own JSON reminder,
      at a URL that names the model and carries the key; no authorization
      header is sent. */
  lemma GoogleRequestCarriesPrompts(c: Config, system: string, user: string)
    ensures var q := BuildRequest(Google, c, system, user);
      && ReadsText(q.body, [Field("contents"), Index(0), Field("parts"), Index(0), Field("text")],
                   system + "\n\n" + user + GOOGLE_JSON_SUFFIX)
      && q.url == GOOGLE_BASE + "/" + c.model + ":generateContent?key=" + c.apiKey
      && q.headers.Keys == {"Content-Type"}
  {
    GooglePromptPath(BuildRequest(Google, c, system, user).body, GooglePrompt(system, user));
  }

  lemma GooglePromptPath(body: Json, text: string)
    requires body.JObject? && "contents" in body.fields
    requires body.fields["contents"] == JArray([JObject(map["parts" := JArray([JObject(map["text" := JString(text)])])])])
    ensures ReadsText(body, [Field("contents"), Index(0), Field("parts"), Index(0), Field("text")], text)
  {
    var leaf := JObject(map["text" := JString(text)]);
    var parts := JArray([leaf]);
    var content := JObject(map["parts" := parts]);
    var path := [Field("contents"), Index(0), Field("parts"), Index(0), Field("text")];
    assert path[1..] == [Index(0), Field("parts"), Index(0), Field("text")];
    assert path[1..][1..] == [Field("parts"), Index(0), Field("text")];
    assert path[1..][1..][1..] == [Index(0), Field("text")];
    assert path[1..][1..][1..][1..] == [Field("text")];
    assert Follow(Defined(leaf), path[1..][1..][1..][1..]) == Success(Defined(JString(text)));
    assert Follow(Defined(parts), path[1..][1..][1..]) == Success(Defined(JString(text)));
    assert Follow(Defined(content), path[1..][1..]) == Success(Defined(JString(text)));
    assert Follow(Defined(JArray([content])), path[1..]) == Success(Defined(JString(text)));
  }


  /** The two chat-completions vendors are sent the same body and differ
      only in where it goes. */
  lemma ChatVendorsAgree(c: Config, system: string, user: string)
    ensures BuildRequest(OpenAI, c, system, user).body == BuildRequest(DeepSeek, c, system, user).body
    ensures BuildRequest(OpenAI, c, system, user).headers == BuildRequest(DeepSeek, c, system, user).headers
    ensures BuildRequest(OpenAI, c, system, user).url != BuildRequest(DeepSeek, c, system, user).url
  {
    assert OPENAI_URL[12] != DEEPSEEK_URL[12];
  }

  /** The property path of the reply text in each vendor's response. */
  function ExtractPath(v: Vendor): seq<Key> {
    match v
    case OpenAI | DeepSeek => [Field("choices"), Index(0), Field("message"), Field("content")]
    case Anthropic => [Field("content"), Index(0), Field("text")]
    case Google => [Field("candidates"), Index(0), Field("content"), Field("parts"), Index(0), Field("text")]
  }

  /** The smallest response each vendor sends around a reply text. */
  function VendorReply(v: Vendor, text: string): Json {
    match v
    case OpenAI | DeepSeek =>
      JObject(map["choices" := JArray([JObject(map["message" := JObject(map["content" := JString(text)])])])])
    case Anthropic =>
      JObject(map["content" := JArray([JObject(map["text" := JString(text)])])])
    case Google =>
      JObject(map["candidates" := JArray([JObject(map["content" :=
        JObject(map["parts" := JArray([JObject(map["text" := JString(text)])])])])])])
  }

  /** Each vendor's extraction path reads the text back out of that vendor's
      response shape. */
  lemma ExtractReadsReply(v: Vendor, text: string)
    ensures Follow(Defined(VendorReply(v, text)), ExtractPath(v)) == Success(Defined(JString(text)))
  {
    match v
    case OpenAI =>
      ChatReadsReply(text);
    case DeepSeek =>
      ChatReadsReply(text);
    case Anthropic =>
      AnthropicReadsReply(text);
    case Google =>
      GoogleReadsReply(text);
  }

  lemma AnthropicReadsReply(text: string)
    ensures Follow(Defined(VendorReply(Anthropic, text)), ExtractPath(Anthropic)) == Success(Defined(JString(text)))
  {
    var p := ExtractPath(Anthropic);
    var t := Defined(JString(text));
    var leaf := JObject(map["text" := JString(text)]);
    assert p[1..] == [Index(0), Field("text")] && p[1..][1..] == [Field("text")];
    assert Follow(Defined(leaf), p[1..][1..]) == Success(t);
    assert Follow(Defined(JArray([leaf])), p[1..]) == Success(t);
  }

  lemma GoogleReadsReply(text: string)
    ensures Follow(Defined(VendorReply(Google, text)), ExtractPath(Google)) == Success(Defined(JString(text)))
  {
    var p := ExtractPath(Google);
    var t := Defined(JString(text));
    var leaf := JObject(map["text" := JString(text)]);
    var content := JObject(map["parts" := JArray([leaf])]);
    assert p[1..] == [Index(0), Field("content"), Field("parts"), Index(0), Field("text")];
    assert p[1..][1..] == [Field("content"), Field("parts"), Index(0), Field("text")];
    assert p[1..][1..][1..] == [Field("parts"), Index(0), Field("text")];
    assert p[1..][1..][1..][1..] == [Index(0), Field("text")];
    assert p[1..][1..][1..][1..][1..] == [Field("text")];
    assert Follow(Defined(leaf), p[1..][1..][1..][1..][1..]) == Success(t);
    assert Follow(Defined(JArray([leaf])), p[1..][1..][1..][1..]) == Success(t);
    assert Follow(Defined(content), p[1..][1..][1..]) == Success(t);
    assert Follow(Defined(JObject(map["content" := content])), p[1..][1..]) == Success(t);
    assert Follow(Defined(JArray([JObject(map["content" := content])])), p[1..]) == Success(t);
  }

  lemma ChatReadsReply(text: string)
    ensures Follow(Defined(VendorReply(OpenAI, text)), ExtractPath(OpenAI)) == Success(Defined(JString(text)))
  {
    var p := ExtractPath(OpenAI);
    var t := Defined(JString(text));
    var msg := JObject(map["content" := JString(text)]);
    var choice := JObject(map["message" := msg]);
    assert p[1..] == [Index(0), Field("message"), Field("content")];
    assert p[1..][1..] == [Field("message"), Field("content")];
    assert p[1..][1..][1..] == [Field("content")];
    assert Follow(Defined(msg), p[1..][1..][1..]) == Success(t);
    assert Follow(Defined(choice), p[1..][1..]) == Success(t);
    assert Follow(Defined(JArray([choice])), p[1..]) == Success(t);
  }

  /** What the network gave back: a response with its `ok` flag and body
      text, or a failure of `fetch` itself. */
  datatype Exchange = Response(ok: bool, text: string) | NetworkFailure

  /** The outside world a call depends on: the network, and `JSON.parse` and
      `JSON.stringify` (`parse` gives `None` where `JSON.parse` throws). */
  datatype Env = Env(net: Request -> Exchange, parse: string -> Option<Json>, stringify: Json -> string)

  /** Why a call was rejected. */
  datatype CallError =
    | NotConfigured
    | UnsupportedProvider(provider: string)
    | ApiError(vendor: Vendor, body: string)
    | NetworkError
    | BadBody
    | ReadError(key: Key)
    | NotText

  /** The message of the errors the handler raises itself. */
  function ErrorMessage(e: CallError): string
    requires e.NotConfigured? || e.UnsupportedProvider? || e.ApiError?
  {
    match e
    case NotConfigured => "AI Handler not configured"
    case UnsupportedProvider(p) => "Unsupported provider: " + p
    case ApiError(v, body) => VendorLabel(v) + " API error: " + body
  }

  /** What reading the reply path of a parsed body gives: the value found,
      or the error for the key whose read threw. */
  function ReadReply(v: Vendor, data: Json): Result<JsValue, CallError> {
    match Follow(Defined(data), ExtractPath(v))
    case Failure(k) => Failure(ReadError(k))
    case Success(reply) => Success(reply)
  }

  /** One vendor call: send the request; a response that is not ok is an API
      error carrying its body text; otherwise the body is parsed and, when
      `extract` is set, the vendor's reply path is read from it. */
  function Call(v: Vendor, c: Config, env: Env, system: string, user: string, extract: bool): (r: Result<JsValue, CallError>)
    ensures var x := env.net(BuildRequest(v, c, system, user));
      && (x.NetworkFailure? ==> r == Failure(NetworkError))
      && (x.Response? && !x.ok ==> r == Failure(ApiError(v, x.text)))
      && (x.Response? && x.ok && env.parse(x.text).None? ==> r == Failure(BadBody))
      && (x.Response? && x.ok && env.parse(x.text).Some? && !extract ==> r == Success(Defined(env.parse(x.text).value)))
      && (x.Response? && x.ok && env.parse(x.text).Some? && extract ==> r == ReadReply(v, env.parse(x.text).value))
    ensures r.Failure? && r.error.ApiError? ==> r.error.vendor == v
  {
    match env.net(BuildRequest(v, c, system, user))
    case NetworkFailure => Failure(NetworkError)
    case Response(ok, text) =>
      if !ok then Failure(ApiError(v, text))
      else
        match env.parse(text)
        case None => Failure(BadBody)
        case Some(data) =>
          if !extract then Success(Defined(data)) else ReadReply(v, data)
  }

  /** `_makeAPICall`: a missing key, provider or model is reported before the
      provider name is looked at; an unknown provider is reported next;
      otherwise the vendor is called. */
  function Dispatch(c: Config, env: Env, system: string, user: string, extract: bool): (r: Result<JsValue, CallError>)
    ensures r == Failure(NotConfigured) <==> !Configured(c)
    ensures r == Failure(UnsupportedProvider(c.provider)) <==> Configured(c) && VendorOf(c.provider).None?
    ensures Configured(c) && VendorOf(c.provider).Some? ==>
      r == Call(VendorOf(c.provider).value, c, env, system, user, extract)
    ensures r.Failure? && r.error.ApiError? ==> Configured(c) && VendorName(r.error.vendor) == c.provider
  {
    if !Configured(c) then Failure(NotConfigured)
    else
      match VendorOf(c.provider)
      case None => Failure(UnsupportedProvider(c.provider))
      case Some(v) => Call(v, c, env, system, user, extract)
  }

  /** A configured handler whose vendor answers ok with a body that parses
      hands back the parsed body whole without extraction, and with
      extraction whatever the vendor's reply path reads from it: the value
      there when every read succeeds, and otherwise the key whose read threw. */
  lemma DispatchReadsReply(c: Config, env: Env, system: string, user: string, body: string, data: Json)
    requires Configured(c) && VendorOf(c.provider).Some?
    requires env.net(BuildRequest(VendorOf(c.provider).value, c, system, user)) == Response(true, body)
    requires env.parse(body) == Some(data)
    ensures Dispatch(c, env, system, user, false) == Success(Defined(data))
    ensures var read := Follow(Defined(data), ExtractPath(VendorOf(c.provider).value));
      && (read.Success? ==> Dispatch(c, env, system, user, true) == Success(read.value))
      && (read.Failure? ==> Dispatch(c, env, system, user, true) == Failure(ReadError(read.error)))
  {
  }

  /** In particular, a body that is the vendor's usual response shape around
      a reply text hands back exactly that text. */
  lemma DispatchReadsVendorReply(c: Config, env: Env, system: string, user: string, body: string, text: string)
    requires Configured(c) && VendorOf(c.provider).Some?
    requires env.net(BuildRequest(VendorOf(c.provider).value, c, system, user)) == Response(true, body)
    requires env.parse(body) == Some(VendorReply(VendorOf(c.provider).value, text))
    ensures Dispatch(c, env, system, user, true) == Success(Defined(JString(text)))
  {
    ExtractReadsReply(VendorOf(c.provider).value, text);
    DispatchReadsReply(c, env, system, user, body, VendorReply(VendorOf(c.provider).value, text));
  }

  /** A response that is not ok is reported with the vendor's label and the
      response body. */
  lemma DispatchApiErrorMessage(c: Config, env: Env, system: string, user: string, extract: bool)
    requires Configured(c) && VendorOf(c.provider).Some?
    requires env.net(BuildRequest(VendorOf(c.provider).value, c, system, user)).Response?
    requires !env.net(BuildRequest(VendorOf(c.provider).value, c, system, user)).ok
    ensures var r := Dispatch(c, env, system, user, extract);
      var body := env.net(BuildRequest(VendorOf(c.provider).value, c, system, user)).text;
      && r.Failure? && r.error.ApiError?
      && ErrorMessage(r.error) == VendorLabel(VendorOf(c.provider).value) + " API error: " + body
  {
  }
}
