/**
 * The OpenRouter client: the request it builds for a prompt and how it turns the
 * provider's reply into {text, input_tokens, output_tokens}. The HTTP exchange itself is
 * a function passed in; JSON serialisation of the payload is not modelled (the payload
 * is handed over as a value).
 */
module ApiClient {
  import opened Wrappers
  import opened JsonValue
  import opened Text

  /** The client's fields, all fixed by its constructor. */
  datatype OpenRouterClient = OpenRouterClient(apiKey: string, baseUrl: string, timeout: int)

  const DefaultTimeout := 120
  const CompletionsPath := "/chat/completions"
  const FailurePrefix := "API request failed: "
  const ResponseMarker := " Response: "

  /** What requests.post is given. */
  datatype HttpRequest = HttpRequest(url: string, headers: map<string, string>, payload: Json, timeout: int)

  /**
   * What requests.post gives back: a response (its status line, URL, body text and the
   * outcome of decoding the body as JSON), or a transport failure (connection, timeout).
   */
  datatype HttpReply =
    | HttpResponse(status: int, reason: string, url: string, text: string, body: Result<Json, string>)
    | TransportError(message: string)

  type Network = HttpRequest -> HttpReply

  /** send_request's result dict. */
  datatype Completion = Completion(text: Json, inputTokens: Json, outputTokens: Json)

  /**
   * The outcome of send_request: the result, the wrapped "API request failed" exception,
   * or the KeyError/IndexError/TypeError/AttributeError that a reply of the wrong shape
   * lets escape unwrapped (its text is not modelled).
   */
  datatype Outcome = Replied(completion: Completion) | RequestFailed(message: string) | Malformed

  /** The client as constructed without a timeout argument: 120 seconds. */
  function NewClient(apiKey: string, baseUrl: string): (c: OpenRouterClient)
    ensures c.apiKey == apiKey && c.baseUrl == baseUrl && c.timeout == DefaultTimeout
  {
    OpenRouterClient(apiKey, baseUrl, DefaultTimeout)
  }

  function Headers(c: OpenRouterClient): map<string, string>
  {
    map["Authorization" := "Bearer " + c.apiKey, "Content-Type" := "application/json"]
  }

  function Endpoint(c: OpenRouterClient): string
  {
    c.baseUrl + CompletionsPath
  }

  /** The request body: the model, one user message carrying the prompt, no streaming. */
  function Payload(model: string, prompt: string): Json
  {
    JObject([("model", JString(model)),
             ("messages", JArray([JObject([("role", JString("user")), ("content", JString(prompt))])])),
             ("stream", JBool(false))])
  }

  function BuildRequest(c: OpenRouterClient, model: string, prompt: string): (req: HttpRequest)
    ensures StartsWith(req.url, c.baseUrl) && EndsWith(req.url, CompletionsPath)
    ensures req.payload == Payload(model, prompt) && req.timeout == c.timeout
  {
    HttpRequest(Endpoint(c), Headers(c), Payload(model, prompt), c.timeout)
  }

  /** raise_for_status: the HTTPError text for a 4xx or 5xx status, nothing otherwise. */
  function StatusError(status: int, reason: string, url: string): (e: Option<string>)
    ensures e.Some? <==> 400 <= status < 600
    ensures e.Some? ==> StartsWith(e.value, Decimal(status)) && EndsWith(e.value, " for url: " + url)
  {
    if 400 <= status < 500 then Some(ErrorMessage(Decimal(status), " Client Error: ", reason, url))
    else if 500 <= status < 600 then Some(ErrorMessage(Decimal(status), " Server Error: ", reason, url))
    else None
  }

  /** The text of an HTTP error: the code, its kind and reason, then the url. */
  function ErrorMessage(code: string, kind: string, reason: string, url: string): (m: string)
    ensures StartsWith(m, code) && EndsWith(m, " for url: " + url)
  {
    FirstAndLast(code, kind, reason, " for url: " + url);
    code + kind + reason + " for url: " + url
  }

  /** `d.get(key, default)` on a value that must be a dict; a non-dict has no `get`. */
  function GetOr(v: Json, key: string, default: Json): Option<Json>
  {
    match v
    case JObject(members) => Some(match Lookup(members, key) case Some(x) => x case None => default)
    case _ => None
  }

  /** `choices[0]["message"]["content"]`, if the reply has that shape. */
  function Content(reply: Json): Option<Json>
  {
    match Field(reply, "choices")
    case Some(JArray(choices)) =>
      if |choices| == 0 then None
      else (match Field(choices[0], "message")
            case Some(message) => Field(message, "content")
            case None => None)
    case _ => None
  }

  /** The result dict built from a decoded reply: usage counts default to 0. */
  function Shape(reply: Json): (r: Outcome)
    ensures Content(reply).None? ==> r == Malformed
    ensures r.Replied? ==> Content(reply) == Some(r.completion.text)
    ensures !r.RequestFailed?
  {
    match Content(reply)
    case None => Malformed
    case Some(text) =>
      match GetOr(reply, "usage", JObject([]))
      case None => Malformed
      case Some(usage) =>
        match (GetOr(usage, "prompt_tokens", JInt(0)), GetOr(usage, "completion_tokens", JInt(0)))
        case (Some(input), Some(output)) => Replied(Completion(text, input, output))
        case _ => Malformed
  }

  /** send_request: one POST, no retry. */
  function SendRequest(c: OpenRouterClient, model: string, prompt: string, network: Network): (r: Outcome)
    ensures network(BuildRequest(c, model, prompt)).TransportError? ==> r.RequestFailed?
    ensures r.Replied? ==>
              var reply := network(BuildRequest(c, model, prompt));
              reply.HttpResponse? && !(400 <= reply.status < 600) && reply.body.Success?
              && r == Shape(reply.body.value)
  {
    match network(BuildRequest(c, model, prompt))
    case TransportError(m) => RequestFailed(FailurePrefix + m)
    case HttpResponse(status, reason, url, text, body) =>
      match StatusError(status, reason, url)
      case Some(e) => RequestFailed(FailurePrefix + e + ResponseMarker + text)
      case None =>
        match body
        case Failure(e) => RequestFailed(FailurePrefix + e)
        case Success(reply) => Shape(reply)
  }

  // ---------------------------------------------------------------- properties

  /**
   * The reply of a provider that answers `content`. Its "usage" entry, when there is one,
   * holds `usage`, whatever that value is.
   */
  function ProviderReply(content: Json, usage: Option<Json>): Json
  {
    var choices := ("choices", JArray([JObject([("message", JObject([("role", JString("assistant")), ("content", content)]))])]));
    match usage
    case Some(u) => JObject([choices, ("usage", u)])
    case None => JObject([choices])
  }

  /** A usage dict holding the counts that are present, and only those. */
  function UsageCounts(prompt: Option<Json>, completion: Option<Json>): Json
  {
    JObject((if prompt.Some? then [("prompt_tokens", prompt.value)] else [])
            + (if completion.Some? then [("completion_tokens", completion.value)] else []))
  }

  /** `.get(field, 0)`: the count when it is present, else 0. */
  function CountOrZero(count: Option<Json>): Json
  {
    if count.Some? then count.value else JInt(0)
  }

  /**
   * The message content comes back as the result text. Each usage count is the reply's
   * count, or 0 when the count or the whole "usage" entry is missing; a "usage" entry that
   * is not a dict (such as null) has no `get`, and the reply is malformed.
   */
  lemma ShapeRoundTrip(content: Json, prompt: Option<Json>, completion: Option<Json>, other: Json)
    requires !other.JObject?
    ensures Shape(ProviderReply(content, Some(UsageCounts(prompt, completion))))
            == Replied(Completion(content, CountOrZero(prompt), CountOrZero(completion)))
    ensures Shape(ProviderReply(content, None)) == Replied(Completion(content, JInt(0), JInt(0)))
    ensures Shape(ProviderReply(content, Some(other))) == Malformed
  {
    ShapeWithUsage(content, prompt, completion);
    ShapeWithoutUsage(content);
    ShapeUsageNotDict(content, other);
  }

  lemma ShapeWithUsage(content: Json, prompt: Option<Json>, completion: Option<Json>)
    ensures Shape(ProviderReply(content, Some(UsageCounts(prompt, completion))))
            == Replied(Completion(content, CountOrZero(prompt), CountOrZero(completion)))
  {
    var counts := UsageCounts(prompt, completion);
    var reply := ProviderReply(content, Some(counts));
    ProviderContent(content, Some(counts));
    LookupSecond("choices", reply.members[0].1, "usage", counts);
    assert GetOr(reply, "usage", JObject([])) == Some(counts);
    CountsFound(prompt, completion);
  }

  /** Each count of a usage dict is found, or defaults to 0. */
  lemma CountsFound(prompt: Option<Json>, completion: Option<Json>)
    ensures GetOr(UsageCounts(prompt, completion), "prompt_tokens", JInt(0)) == Some(CountOrZero(prompt))
    ensures GetOr(UsageCounts(prompt, completion), "completion_tokens", JInt(0)) == Some(CountOrZero(completion))
  {
    var members := UsageCounts(prompt, completion).members;
    if prompt.Some? && completion.Some? {
      LookupSecond("prompt_tokens", prompt.value, "completion_tokens", completion.value);
    } else if completion.Some? {
      assert members == [("completion_tokens", completion.value)];
      assert members[1..] == [];
    } else if prompt.Some? {
      assert members == [("prompt_tokens", prompt.value)];
      assert members[1..] == [];
    } else {
      assert members == [];
    }
  }

  lemma ShapeWithoutUsage(content: Json)
    ensures Shape(ProviderReply(content, None)) == Replied(Completion(content, JInt(0), JInt(0)))
  {
    var reply := ProviderReply(content, None);
    ProviderContent(content, None);
    assert GetOr(reply, "usage", JObject([])) == Some(JObject([]));
    assert GetOr(JObject([]), "prompt_tokens", JInt(0)) == Some(JInt(0));
    assert GetOr(JObject([]), "completion_tokens", JInt(0)) == Some(JInt(0));
  }

  /** A "usage" entry that is not a dict makes the `.get` chain raise. */
  lemma ShapeUsageNotDict(content: Json, other: Json)
    requires !other.JObject?
    ensures Shape(ProviderReply(content, Some(other))) == Malformed
  {
    var reply := ProviderReply(content, Some(other));
    ProviderContent(content, Some(other));
    LookupSecond("choices", reply.members[0].1, "usage", other);
    assert GetOr(reply, "usage", JObject([])) == Some(other);
  }

  /** Every such reply carries the content where send_request looks for it. */
  lemma ProviderContent(content: Json, usage: Option<Json>)
    ensures Content(ProviderReply(content, usage)) == Some(content)
  {
    LookupSecond("role", JString("assistant"), "content", content);
  }

  /** The payload carries the model and the prompt verbatim, in a single user message, not streamed. */
  lemma PayloadCarriesPrompt(model: string, prompt: string)
    ensures Field(Payload(model, prompt), "model") == Some(JString(model))
    ensures Field(Payload(model, prompt), "stream") == Some(JBool(false))
    ensures match Field(Payload(model, prompt), "messages")
            case Some(JArray(messages)) =>
              |messages| == 1 && Field(messages[0], "role") == Some(JString("user"))
              && Field(messages[0], "content") == Some(JString(prompt))
            case _ => false
  {
    var members := Payload(model, prompt).members;
    assert members[1..][1..] == [("stream", JBool(false))];
    assert Lookup(members, "stream") == Lookup(members[1..], "stream") == Lookup(members[1..][1..], "stream");
    var message := [("role", JString("user")), ("content", JString(prompt))];
    assert message[1..] == [("content", JString(prompt))];
    assert Lookup(message, "content") == Lookup(message[1..], "content");
    assert Lookup(members, "messages") == Lookup(members[1..], "messages");
  }

  /** A client built without a timeout sends its requests with the 120-second timeout and its own key. */
  lemma DefaultClientRequest(apiKey: string, baseUrl: string, model: string, prompt: string)
    ensures BuildRequest(NewClient(apiKey, baseUrl), model, prompt).timeout == 120
    ensures BuildRequest(NewClient(apiKey, baseUrl), model, prompt).url == baseUrl + "/chat/completions"
    ensures BuildRequest(NewClient(apiKey, baseUrl), model, prompt).headers["Authorization"] == "Bearer " + apiKey
  {
  }

  /** The request goes to the base URL followed by /chat/completions, with a bearer token. */
  lemma RequestShape(c: OpenRouterClient, model: string, prompt: string)
    ensures StartsWith(BuildRequest(c, model, prompt).url, c.baseUrl)
    ensures EndsWith(BuildRequest(c, model, prompt).url, CompletionsPath)
    ensures BuildRequest(c, model, prompt).headers["Authorization"] == "Bearer " + c.apiKey
    ensures BuildRequest(c, model, prompt).headers["Content-Type"] == "application/json"
    ensures BuildRequest(c, model, prompt).timeout == c.timeout
  {
    var url := BuildRequest(c, model, prompt).url;
    assert url[..|c.baseUrl|] == c.baseUrl;
    assert url[|url| - |CompletionsPath|..] == CompletionsPath;
  }

  /**
   * Every wrapped failure says "API request failed: "; the response text is appended
   * exactly for an error status (a decoding or transport failure has no response).
   */
  lemma FailureMessages(c: OpenRouterClient, model: string, prompt: string, network: Network)
    ensures var o := SendRequest(c, model, prompt, network);
            o.RequestFailed? ==> StartsWith(o.message, FailurePrefix)
    ensures var reply := network(BuildRequest(c, model, prompt));
            reply.HttpResponse? && StatusError(reply.status, reply.reason, reply.url).Some? ==>
              SendRequest(c, model, prompt, network).RequestFailed?
              && EndsWith(SendRequest(c, model, prompt, network).message, ResponseMarker + reply.text)
  {
    var o := SendRequest(c, model, prompt, network);
    if o.RequestFailed? {
      assert o.message[..|FailurePrefix|] == FailurePrefix;
    }
    var reply := network(BuildRequest(c, model, prompt));
    if reply.HttpResponse? && StatusError(reply.status, reply.reason, reply.url).Some? {
      var m := o.message;
      var tail := ResponseMarker + reply.text;
      assert m == FailurePrefix + StatusError(reply.status, reply.reason, reply.url).value + tail;
      assert m[|m| - |tail|..] == tail;
    }
  }

  /** A successful exchange hands the decoded reply to the shaping step, unchanged. */
  lemma SuccessIsShaped(c: OpenRouterClient, model: string, prompt: string, network: Network, reply: Json)
    requires network(BuildRequest(c, model, prompt)).HttpResponse?
    requires network(BuildRequest(c, model, prompt)).status < 400
    requires network(BuildRequest(c, model, prompt)).body == Success(reply)
    ensures SendRequest(c, model, prompt, network) == Shape(reply)
  {
  }
}
