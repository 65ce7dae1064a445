/** The provider adapter: picks the credential for the configured provider,
    short-circuits to a demo text when there is none, sends one request to the
    vendor otherwise, pulls the generated text out of the vendor's own JSON
    shape, and turns every failure into a plain error string. */
module AiEngine {
  import opened Text
  import opened PyJson

  /** `config.DEFAULT_PROVIDER`. */
  const DefaultProvider: string := "openai"

  /** `config.MAX_TOKENS`. */
  const MaxTokens: int := 2000

  /** The credentials read from the configuration; `None` stands for a key set
      to Python's `None`. */
  datatype Config = Config(openAiKey: Option<string>, anthropicKey: Option<string>, googleKey: Option<string>)

  datatype Vendor = OpenAI | Anthropic | Google

  /** The placeholder each vendor's key holds until the user configures it. */
  function Placeholder(v: Vendor): string {
    match v
    case OpenAI => "your-openai-api-key-here"
    case Anthropic => "your-anthropic-api-key-here"
    case Google => "your-google-api-key-here"
  }

  /** The configuration as shipped: every key is still its placeholder. */
  const ShippedConfig: Config :=
    Config(Some(Placeholder(OpenAI)), Some(Placeholder(Anthropic)), Some(Placeholder(Google)))

  /** The provider name that selects each vendor. */
  function ProviderName(v: Vendor): string {
    match v
    case OpenAI => "openai"
    case Anthropic => "anthropic"
    case Google => "google"
  }

  /** The vendor a provider name selects, if any (`"local"` selects none). */
  function VendorOf(provider: string): (r: Option<Vendor>)
    ensures forall v :: r == Some(v) <==> provider == ProviderName(v)
  {
    if provider == "openai" then Some(OpenAI)
    else if provider == "anthropic" then Some(Anthropic)
    else if provider == "google" then Some(Google)
    else None
  }

  /** `provider or config.DEFAULT_PROVIDER`. */
  function ResolveProvider(provider: Option<string>): (r: string)
    ensures r != ""
    ensures provider.Some? && provider.value != "" ==> r == provider.value
    ensures provider.None? || provider.value == "" ==> r == DefaultProvider
  {
    if provider.Some? && provider.value != "" then provider.value else DefaultProvider
  }

  /** `_get_api_key`: each vendor's own configured key; every other provider,
      `"local"` included, has none. */
  function ApiKeyFor(config: Config, provider: string): (r: Option<string>)
    ensures VendorOf(provider) == Some(OpenAI) ==> r == config.openAiKey
    ensures VendorOf(provider) == Some(Anthropic) ==> r == config.anthropicKey
    ensures VendorOf(provider) == Some(Google) ==> r == config.googleKey
    ensures VendorOf(provider).None? ==> r.None?
  {
    if provider == "openai" then config.openAiKey
    else if provider == "anthropic" then config.anthropicKey
    else if provider == "google" then config.googleKey
    else None
  }

  /** `max_tokens or config.MAX_TOKENS`: `None` and `0` are falsy. */
  function EffectiveMaxTokens(maxTokens: Option<int>): (r: int)
    ensures r != 0
    ensures maxTokens.Some? && maxTokens.value != 0 ==> r == maxTokens.value
    ensures maxTokens.None? || maxTokens.value == 0 ==> r == MaxTokens
  {
    if maxTokens.Some? && maxTokens.value != 0 then maxTokens.value else MaxTokens
  }

  /** A key the vendor handler will use: present, non-empty and not the
      vendor's placeholder (`not self.api_key or self.api_key == "..."`
      sends the handler to the demo text instead). */
  predicate Usable(key: Option<string>, v: Vendor) {
    key.Some? && key.value != "" && key.value != Placeholder(v)
  }

  const InvalidProvider: string := "Error: Invalid AI provider selected."

  const UnexpectedGoogleFormat: string := "Error: Unexpected response format from Google API"

  const CatchAllPrefix: string := "Error generating story: "

  const CatchAllSuffix: string := "\n\nPlease check your API key in config.py"

  const GoogleErrorPrefix: string := "Google API Error: "

  const DemoHeader: string :=
    "[DEMO MODE - No API Key Configured]\n\n"
    + "This is a demonstration of how the story would appear. To generate real AI-powered stories, please:\n\n"
    + "1. Open config.py\n"
    + "2. Add your API key from OpenAI, Anthropic, or Google\n"
    + "3. The application will then generate creative stories using AI\n\n"
    + "Your prompt was:\n"

  const DemoFooter: string :=
    "\n\nTo get started:\n"
    + "- OpenAI: https://platform.openai.com/api-keys\n"
    + "- Anthropic: https://console.anthropic.com/\n"
    + "- Google AI: https://aistudio.google.com/app/apikey\n\n"
    + "Once configured, the AI will generate unique, creative stories based on your inputs!"

  /** `_generate_local`: the demo explanation with the prompt echoed inside it. */
  function DemoText(prompt: string): (r: string)
    ensures Contains(r, prompt)
    ensures DemoHeader <= r && |r| == |DemoHeader| + |prompt| + |DemoFooter|
  {
    var r := DemoHeader + prompt + DemoFooter;
    ContainsInfix(DemoHeader, prompt, DemoFooter);
    assert r[..|DemoHeader|] == DemoHeader;
    r
  }

  /** The demo text gives back its prompt: two different prompts never yield
      the same demo text. */
  lemma DemoTextEchoesPrompt(p: string, q: string)
    requires DemoText(p) == DemoText(q)
    ensures p == q
  {
    var n := |DemoHeader|;
    assert |p| == |q|;
    assert DemoText(p)[n..n + |p|] == p;
    assert DemoText(q)[n..n + |q|] == q;
  }

  /** One request to a vendor: who receives it, the key it carries, the
      prompt and the token budget (headers, URLs, model names and sampling
      parameters are left out). */
  datatype Request = Request(vendor: Vendor, apiKey: string, prompt: string, maxTokens: int)

  /** What `response.json()` makes of the body: a value, or the text of the
      decoding error it raises. */
  datatype Body = Parsed(json: Json) | Malformed(error: string)

  /** What `requests.post` gives back: it raised before any response
      (timeout, connection refused, DNS), or a response with its status, the
      text `str(e)` of the `HTTPError` that `raise_for_status` would raise, the
      raw body text, and the decoded body. */
  datatype Reply =
    | Unreachable(error: string)
    | Answered(status: int, httpError: string, text: string, body: Body)

  /** `raise_for_status` raises for a client or server error status. */
  predicate ErrorStatus(status: int) {
    400 <= status < 600
  }

  /** What `generate_story` does before any I/O: finish at once with a text,
      or send one request. */
  datatype Step = Done(text: string) | Send(request: Request)

  /** The dispatch of `generate_story` and the credential checks at the top
      of each vendor handler. */
  function Plan(provider: string, apiKey: Option<string>, prompt: string, maxTokens: Option<int>): (r: Step)
    ensures r.Send? <==> VendorOf(provider).Some? && Usable(apiKey, VendorOf(provider).value)
    ensures r.Send? ==>
      r.request == Request(VendorOf(provider).value, apiKey.value, prompt, EffectiveMaxTokens(maxTokens))
    ensures r.Done? && (VendorOf(provider).Some? || provider == "local") ==> r.text == DemoText(prompt)
    ensures VendorOf(provider).None? && provider != "local" ==> r == Done(InvalidProvider)
  {
    var tokens := EffectiveMaxTokens(maxTokens);
    if provider == "openai" then VendorStep(OpenAI, apiKey, prompt, tokens)
    else if provider == "anthropic" then VendorStep(Anthropic, apiKey, prompt, tokens)
    else if provider == "google" then VendorStep(Google, apiKey, prompt, tokens)
    else if provider == "local" then Done(DemoText(prompt))
    else Done(InvalidProvider)
  }

  function VendorStep(v: Vendor, apiKey: Option<string>, prompt: string, tokens: int): Step {
    if Usable(apiKey, v) then Send(Request(v, apiKey.value, prompt, tokens)) else Done(DemoText(prompt))
  }

  /** `candidate['content']['parts'][0]['text']` inside a Google candidate. */
  const GoogleCandidatePath: seq<Key> := [Name("content"), Name("parts"), Index(0), Name("text")]

  /** Where each vendor puts the generated text: `choices[0].message.content`,
      `content[0].text`, `candidates[0].content.parts[0].text`. */
  function VendorPath(v: Vendor): (p: seq<Key>)
    ensures NameAfterIndex(p) && p != [] && p[|p| - 1].Name?
  {
    match v
    case OpenAI => [Name("choices"), Index(0), Name("message"), Name("content")]
    case Anthropic => [Name("content"), Index(0), Name("text")]
    case Google => [Name("candidates"), Index(0)] + GoogleCandidatePath
  }

  /** The text at the vendor's documented path, when that path exists and
      leads to a string: the reference the extraction code is checked against. */
  function ExpectedText(v: Vendor, body: Json): Option<string> {
    match Path(body, VendorPath(v))
    case Some(JStr(s)) => Some(s)
    case _ => None
  }

  /** The body handling of `_generate_google`: the guards on `candidates`,
      then those on its first element. */
  function GoogleExtract(result: Json): Result<string> {
    var hasCandidates :- In("candidates", result);
    if !hasCandidates then Ok(UnexpectedGoogleFormat)
    else
      var candidates :- Subscript(result, Name("candidates"));
      var count :- Len(candidates);
      if count <= 0 then Ok(UnexpectedGoogleFormat)
      else
        var candidate :- Subscript(candidates, Index(0));
        GoogleCandidateText(candidate)
  }

  /** The part of `_generate_google` that works on `result['candidates'][0]`. */
  function GoogleCandidateText(candidate: Json): Result<string> {
    var hasContent :- In("content", candidate);
    if !hasContent then Ok(UnexpectedGoogleFormat)
    else
      var content :- Subscript(candidate, Name("content"));
      var hasParts :- In("parts", content);
      if !hasParts then Ok(UnexpectedGoogleFormat)
      else
        var text :- Walk(candidate, GoogleCandidatePath);
        StripValue(text)
  }

  /** What each vendor handler does with a decoded success body: subscript
      down the vendor's path and `.strip()` the result. */
  function Extract(v: Vendor, body: Json): Result<string> {
    match v
    case Google => GoogleExtract(body)
    case _ =>
      var text :- Walk(body, VendorPath(v));
      StripValue(text)
  }

  /** The extraction code succeeds exactly on bodies where the documented
      path leads to a string, and then yields that string stripped; on every
      other body it raises, or, for Google, returns the fixed format error. */
  lemma ExtractFollowsPath(v: Vendor, body: Json)
    ensures ExpectedText(v, body).Some? ==> Extract(v, body) == Ok(Strip(ExpectedText(v, body).value))
    ensures ExpectedText(v, body).None? ==>
      Extract(v, body).Raise? || (v == Google && Extract(v, body) == Ok(UnexpectedGoogleFormat))
  {
    if v == Google {
      GoogleExtractFollowsPath(body);
    } else {
      WalkIsPath(body, VendorPath(v));
    }
  }

  lemma GoogleExtractFollowsPath(body: Json)
    ensures ExpectedText(Google, body).Some? ==> GoogleExtract(body) == Ok(Strip(ExpectedText(Google, body).value))
    ensures ExpectedText(Google, body).None? ==>
      GoogleExtract(body).Raise? || GoogleExtract(body) == Ok(UnexpectedGoogleFormat)
  {
    GooglePathUnfold(body);
    GoogleExtractUnfold(body);
    if FirstCandidate(body).Some? {
      GoogleCandidateFollowsPath(FirstCandidate(body).value);
    }
  }

  /** `body.candidates[0]`, when `candidates` is a non-empty array. */
  function FirstCandidate(body: Json): Option<Json> {
    if body.JObj? && "candidates" in body.fields && body.fields["candidates"].JArr?
      && |body.fields["candidates"].items| > 0
    then Some(body.fields["candidates"].items[0])
    else None
  }

  lemma GooglePathUnfold(body: Json)
    ensures Path(body, VendorPath(Google)) ==
      if FirstCandidate(body).Some? then Path(FirstCandidate(body).value, GoogleCandidatePath) else None
  {
    var path := VendorPath(Google);
    assert path[1..] == [Index(0)] + GoogleCandidatePath;
    assert path[1..][1..] == GoogleCandidatePath;
  }

  lemma GoogleExtractUnfold(body: Json)
    ensures FirstCandidate(body).Some? ==> GoogleExtract(body) == GoogleCandidateText(FirstCandidate(body).value)
    ensures FirstCandidate(body).None? ==>
      GoogleExtract(body).Raise? || GoogleExtract(body) == Ok(UnexpectedGoogleFormat)
  {
    if body.JObj? && "candidates" in body.fields {
      var candidates := body.fields["candidates"];
      if candidates.JStr? && |candidates.s| > 0 {
        ShortStringLacks("content", [candidates.s[0]]);
      }
    }
  }

  /** A string shorter than `needle` does not contain it. */
  lemma ShortStringLacks(needle: string, s: string)
    requires |s| < |needle|
    ensures In(needle, JStr(s)) == Ok(false)
  {
  }

  lemma GoogleCandidateFollowsPath(candidate: Json)
    ensures (Path(candidate, GoogleCandidatePath).Some? && Path(candidate, GoogleCandidatePath).value.JStr?)
      ==> GoogleCandidateText(candidate) == Ok(Strip(Path(candidate, GoogleCandidatePath).value.s))
    ensures !(Path(candidate, GoogleCandidatePath).Some? && Path(candidate, GoogleCandidatePath).value.JStr?)
      ==> GoogleCandidateText(candidate).Raise? || GoogleCandidateText(candidate) == Ok(UnexpectedGoogleFormat)
  {
    var path := GoogleCandidatePath;
    WalkIsPath(candidate, path);
    assert path[1..] == [Name("parts"), Index(0), Name("text")];
    if candidate.JObj? && "content" in candidate.fields {
      var content := candidate.fields["content"];
      assert Path(candidate, path) == Path(content, path[1..]);
    }
  }

  /** Google's documented guards: no `candidates`, `candidates` of length
      zero, or a first candidate without `content` or whose `content` has no
      `parts` give exactly the format error. */
  lemma GoogleUnexpectedShapes(body: Json)
    requires body.JObj?
    ensures "candidates" !in body.fields ==> GoogleExtract(body) == Ok(UnexpectedGoogleFormat)
    ensures "candidates" in body.fields && Len(body.fields["candidates"]) == Ok(0) ==>
      GoogleExtract(body) == Ok(UnexpectedGoogleFormat)
    ensures FirstCandidate(body).Some? && FirstCandidate(body).value.JObj?
      && "content" !in FirstCandidate(body).value.fields
      ==> GoogleExtract(body) == Ok(UnexpectedGoogleFormat)
    ensures FirstCandidate(body).Some? && FirstCandidate(body).value.JObj?
      && "content" in FirstCandidate(body).value.fields
      && FirstCandidate(body).value.fields["content"].JObj?
      && "parts" !in FirstCandidate(body).value.fields["content"].fields
      ==> GoogleExtract(body) == Ok(UnexpectedGoogleFormat)
  {
    GoogleExtractUnfold(body);
  }

  /** A candidate whose `parts` list is empty passes the `content` and
      `parts` guards and then raises `IndexError` at `parts[0]`. */
  lemma GoogleCandidateEmptyParts(candidate: map<string, Json>, content: map<string, Json>)
    requires "content" in candidate && candidate["content"] == JObj(content)
    requires "parts" in content && content["parts"] == JArr([])
    ensures GoogleCandidateText(JObj(candidate)) == Raise(IndexError("list"))
  {
    assert Walk(JObj(candidate), GoogleCandidatePath) == Walk(JObj(content), GoogleCandidatePath[1..]);
    assert Walk(JObj(content), GoogleCandidatePath[1..]) == Walk(JArr([]), GoogleCandidatePath[2..]);
  }

  /** Such a candidate as the only one of a success body makes the engine
      return the catch-all report of that `IndexError`. */
  lemma GoogleEmptyPartsRaises(body: Json, candidate: map<string, Json>, content: map<string, Json>)
    requires body.JObj? && "candidates" in body.fields
    requires body.fields["candidates"] == JArr([JObj(candidate)])
    requires "content" in candidate && candidate["content"] == JObj(content)
    requires "parts" in content && content["parts"] == JArr([])
    ensures GoogleExtract(body) == Raise(IndexError("list"))
    ensures Finish(Google, Answered(200, "", "", Parsed(body)))
      == CatchAllPrefix + "list index out of range" + CatchAllSuffix
  {
    GoogleCandidateEmptyParts(candidate, content);
  }

  /** The `except requests.exceptions.HTTPError` block of `_generate_google`:
      the `message` of the body's `error` object when there is one, otherwise
      the generic text of the `HTTPError`. */
  function GoogleHttpError(httpError: string, text: string, body: Body): string {
    var fallback := GoogleErrorPrefix + httpError;
    if text == "" then fallback
    else match body
      case Malformed(_) => fallback
      case Parsed(data) =>
        match In("error", data)
        case Raise(_) => fallback
        case Ok(hasError) =>
          if !hasError then fallback
          else match Subscript(data, Name("error"))
            case Ok(JObj(error)) =>
              GoogleErrorPrefix + (if "message" in error then Display(error["message"]) else httpError)
            case _ => fallback
  }

  /** The error response has a body that decodes to `{"error": {"message": ...}}`. */
  predicate HasErrorMessage(text: string, body: Body) {
    && text != "" && body.Parsed? && body.json.JObj? && "error" in body.json.fields
    && body.json.fields["error"].JObj? && "message" in body.json.fields["error"].fields
  }

  /** Google's error envelope is preferred when it carries a message, and the
      generic text is used in every other case. */
  lemma GoogleHttpErrorPrefersMessage(httpError: string, text: string, body: Body)
    ensures GoogleErrorPrefix <= GoogleHttpError(httpError, text, body)
    ensures HasErrorMessage(text, body) ==>
      GoogleHttpError(httpError, text, body) == GoogleErrorPrefix + Display(body.json.fields["error"].fields["message"])
    ensures !HasErrorMessage(text, body) ==>
      GoogleHttpError(httpError, text, body) == GoogleErrorPrefix + httpError
  {
    var g := GoogleHttpError(httpError, text, body);
    var m := g[|GoogleErrorPrefix|..];
    assert g == GoogleErrorPrefix + m;
  }

  /** A vendor handler (`_generate_openai`, `_generate_anthropic`,
      `_generate_google`) after its request was sent: what it returns, or the
      exception that escapes it. */
  function Handler(v: Vendor, reply: Reply): Result<string> {
    match reply
    case Unreachable(error) => Raise(RequestsError(error))
    case Answered(status, httpError, text, body) =>
      if ErrorStatus(status) then
        if v == Google then Ok(GoogleHttpError(httpError, text, body))
        else Raise(RequestsError(httpError))
      else
        match body
        case Malformed(error) => Raise(RequestsError(error))
        case Parsed(json) => Extract(v, json)
  }

  /** The `except Exception` of `generate_story`. */
  function CatchAll(detail: string): string {
    CatchAllPrefix + detail + CatchAllSuffix
  }

  /** The text `generate_story` returns once the vendor has replied. */
  function Finish(v: Vendor, reply: Reply): string {
    match Handler(v, reply)
    case Ok(text) => text
    case Raise(e) => CatchAll(ErrorText(e))
  }

  /** The vendor answered with a success status and a body at whose
      documented path there is a string. */
  predicate Delivered(v: Vendor, reply: Reply) {
    reply.Answered? && !ErrorStatus(reply.status) && reply.body.Parsed?
    && ExpectedText(v, reply.body.json).Some?
  }

  /** An error report of the engine: the catch-all text, Google's format
      error, or a Google API error. */
  predicate IsErrorReport(s: string) {
    || (CatchAllPrefix <= s && |CatchAllPrefix| + |CatchAllSuffix| <= |s|
        && s[|s| - |CatchAllSuffix|..] == CatchAllSuffix)
    || s == UnexpectedGoogleFormat
    || GoogleErrorPrefix <= s
  }

  /** What a handler yields: the stripped generated text when the vendor
      delivered one; otherwise an exception, or for Google only the format
      error or a Google API error. */
  lemma HandlerOutcomes(v: Vendor, reply: Reply)
    ensures Delivered(v, reply) ==>
      Handler(v, reply) == Ok(Strip(ExpectedText(v, reply.body.json).value))
    ensures !Delivered(v, reply) ==>
      || Handler(v, reply).Raise?
      || (v == Google && Handler(v, reply) == Ok(UnexpectedGoogleFormat))
      || (v == Google && GoogleErrorPrefix <= Handler(v, reply).value)
  {
    if reply.Answered? {
      if ErrorStatus(reply.status) {
        if v == Google {
          GoogleHttpErrorPrefersMessage(reply.httpError, reply.text, reply.body);
        }
      } else if reply.body.Parsed? {
        ExtractFollowsPath(v, reply.body.json);
      }
    }
  }

  lemma CatchAllIsErrorReport(detail: string)
    ensures IsErrorReport(CatchAll(detail))
  {
    var s := CatchAll(detail);
    assert s[..|CatchAllPrefix|] == CatchAllPrefix;
    assert s[|s| - |CatchAllSuffix|..] == CatchAllSuffix;
  }

  /** Every reply ends in a string: the stripped generated text when the vendor
      delivered one, and an error report in every other case. OpenAI and
      Anthropic failures all go through the catch-all. */
  lemma FinishOutcomes(v: Vendor, reply: Reply)
    ensures Delivered(v, reply) ==>
      Finish(v, reply) == Strip(ExpectedText(v, reply.body.json).value)
    ensures !Delivered(v, reply) ==> IsErrorReport(Finish(v, reply))
    ensures !Delivered(v, reply) && v != Google ==>
      Handler(v, reply).Raise? && Finish(v, reply) == CatchAll(ErrorText(Handler(v, reply).error))
  {
    HandlerOutcomes(v, reply);
    var h := Handler(v, reply);
    if h.Raise? {
      CatchAllIsErrorReport(ErrorText(h.error));
    }
  }

  /** All of `generate_story`: the text returned to the caller, given how the
      network answers each request. */
  function Response(provider: string, apiKey: Option<string>, prompt: string, maxTokens: Option<int>,
                    respond: (seq<Request>, Request) -> Reply, history: seq<Request>): string {
    match Plan(provider, apiKey, prompt, maxTokens)
    case Done(text) => text
    case Send(request) => Finish(request.vendor, respond(history, request))
  }

  /** Without a usable key, or with an unknown provider, the result does not
      depend on the network at all. */
  lemma NoRequestNoNetwork(provider: string, apiKey: Option<string>, prompt: string, maxTokens: Option<int>,
                           respond: (seq<Request>, Request) -> Reply, history: seq<Request>,
                           respond': (seq<Request>, Request) -> Reply, history': seq<Request>)
    requires !(VendorOf(provider).Some? && Usable(apiKey, VendorOf(provider).value))
    ensures Response(provider, apiKey, prompt, maxTokens, respond, history)
      == Response(provider, apiKey, prompt, maxTokens, respond', history')
    ensures Response(provider, apiKey, prompt, maxTokens, respond, history) in {DemoText(prompt), InvalidProvider}
  {
  }

  /** With the keys as shipped no provider ever reaches the network. */
  lemma ShippedConfigNeverSends(provider: Option<string>, prompt: string, maxTokens: Option<int>)
    ensures Plan(ResolveProvider(provider), ApiKeyFor(ShippedConfig, ResolveProvider(provider)), prompt, maxTokens).Done?
  {
  }

  /** The network: `requests.post` answers each request through `respond`,
      given every request issued before it, and `sent` records those
      requests. The same request may thus be answered differently each time
      (sampling, transient failures). */
  class Network {
    const respond: (seq<Request>, Request) -> Reply
    var sent: seq<Request>

    constructor (respond: (seq<Request>, Request) -> Reply)
      ensures this.respond == respond && sent == []
    {
      this.respond := respond;
      sent := [];
    }

    method Post(request: Request) returns (reply: Reply)
      modifies this
      ensures sent == old(sent) + [request]
      ensures reply == respond(old(sent), request)
    {
      reply := respond(sent, request);
      sent := sent + [request];
    }
  }

  /** The requests a step issues. */
  function Sent(step: Step): seq<Request> {
    if step.Send? then [step.request] else []
  }

  class AIStoryEngine {
    const provider: string
    const apiKey: Option<string>

    constructor (provider: Option<string>, config: Config)
      ensures this.provider == ResolveProvider(provider)
      ensures apiKey == ApiKeyFor(config, this.provider)
    {
      this.provider := ResolveProvider(provider);
      apiKey := ApiKeyFor(config, ResolveProvider(provider));
    }

    /** `generate_story`: always a string, and a request is issued only on the
        vendor path with a usable key. */
    method GenerateStory(prompt: string, maxTokens: Option<int>, net: Network) returns (story: string)
      modifies net
      ensures story == Response(provider, apiKey, prompt, maxTokens, net.respond, old(net.sent))
      ensures net.sent == old(net.sent) + Sent(Plan(provider, apiKey, prompt, maxTokens))
    {
      var tokens := EffectiveMaxTokens(maxTokens);
      if provider == "openai" {
        story := GenerateWith(OpenAI, prompt, tokens, net);
      } else if provider == "anthropic" {
        story := GenerateWith(Anthropic, prompt, tokens, net);
      } else if provider == "google" {
        story := GenerateWith(Google, prompt, tokens, net);
      } else if provider == "local" {
        story := DemoText(prompt);
      } else {
        story := InvalidProvider;
      }
    }

    /** `_generate_openai`, `_generate_anthropic` and `_generate_google`, with
        the catch-all of `generate_story` around them. */
    method GenerateWith(v: Vendor, prompt: string, tokens: int, net: Network) returns (story: string)
      modifies net
      ensures Usable(apiKey, v) ==>
        story == Finish(v, net.respond(old(net.sent), Request(v, apiKey.value, prompt, tokens)))
        && net.sent == old(net.sent) + [Request(v, apiKey.value, prompt, tokens)]
      ensures !Usable(apiKey, v) ==> story == DemoText(prompt) && net.sent == old(net.sent)
    {
      if !Usable(apiKey, v) {
        story := DemoText(prompt);
        return;
      }
      var reply := net.Post(Request(v, apiKey.value, prompt, tokens));
      story := Finish(v, reply);
    }
  }
}
