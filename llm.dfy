/**
 * The language-model fallback of the chat service: choosing a provider from the
 * environment, assembling the two-message prompt, the request each provider is sent,
 * reading the reply out of the provider's response, and the fixed offline reply.
 * The HTTP exchange itself is the parameter `post`.
 */
module Llm {
  import opened Optional
  import opened Strings
  import opened Catalog

  /** The system prompt, one literal per line. Its first and last characters are literals of
      their own, so that the prompt is seen to start and end with a non-space character. */
  const SYSTEM_PROMPT: string :=
    PROMPT_FIRST_LINE + "\n"
    + "Provide concise, friendly, and factual answers.\n"
    + "You can help with:\n"
    + "- Order status lookup\n"
    + "- Return and refund policies\n"
    + "- Product recommendations\n"
    + "- Shipping and delivery questions\n"
    + "- FAQs about payments, delivery, and support hours\n"
    + "\n"
    + PROMPT_LAST_LINE
  const PROMPT_FIRST_LINE: string := "Y" + "ou are the AI Customer Support Assistant for shopywiz, an e-commerce platform."
  const PROMPT_LAST_LINE: string := "Always guide the user to share an order ID (e.g., ORD12345) for tracking" + "."

  const OPENAI_URL: string := "https://api.openai.com/v1/chat/completions"
  const GROQ_URL: string := "https://api.groq.com/openai/v1/chat/completions"
  const DEFAULT_OLLAMA_URL: string := "http://localhost:11434"
  const DEFAULT_OPENAI_MODEL: string := "gpt-4o-mini"
  const DEFAULT_GROQ_MODEL: string := "llama-3.1-8b-instant"
  const DEFAULT_OLLAMA_MODEL: string := "llama3"
  const NO_RESPONSE: string := "I could not generate a response right now."

  datatype Provider = OpenAI | Groq | Ollama | Fallback

  /** The environment variables the service reads. The empty string stands for an unset
      variable: the source tests each with JavaScript truthiness, where both are false. */
  datatype Config = Config(
    openAiKey: string,
    openAiModel: string,
    groqKey: string,
    groqModel: string,
    ollamaBaseUrl: string,
    ollamaModel: string)

  /** Provider `p` has the settings it needs; the offline fallback needs none. */
  predicate Configured(cfg: Config, p: Provider) {
    match p
    case OpenAI => cfg.openAiKey != ""
    case Groq => cfg.groqKey != ""
    case Ollama => cfg.ollamaBaseUrl != "" || cfg.ollamaModel != ""
    case Fallback => true
  }

  /** The place of a provider in the order of preference. */
  function Rank(p: Provider): nat {
    match p
    case OpenAI => 0
    case Groq => 1
    case Ollama => 2
    case Fallback => 3
  }

  /** `detectProvider`: the most preferred provider that is configured. */
  function DetectProvider(cfg: Config): (p: Provider)
    ensures Configured(cfg, p)
    ensures forall q :: Rank(q) < Rank(p) ==> !Configured(cfg, q)
  {
    if cfg.openAiKey != "" then OpenAI
    else if cfg.groqKey != "" then Groq
    else if cfg.ollamaBaseUrl != "" || cfg.ollamaModel != "" then Ollama
    else Fallback
  }

  datatype Role = System | User

  datatype Message = Message(role: Role, content: string)

  /** The optional context object; a missing field is `None`. */
  datatype Context = Context(orders: Option<seq<Order>>, products: Option<seq<Product>>, faqs: Option<seq<Faq>>)

  function OrderIds(orders: seq<Order>): seq<string> {
    seq(|orders|, k requires 0 <= k < |orders| => orders[k].orderId)
  }

  function ProductNames(products: seq<Product>): seq<string> {
    seq(|products|, k requires 0 <= k < |products| => products[k].name)
  }

  /** `xs?.join(', ') || 'N/A'`. */
  function JoinOrNA(xs: Option<seq<string>>): (r: string)
    ensures r != ""
    ensures xs.None? || xs.value == [] || xs.value == [""] ==> r == "N/A"
    ensures xs.Some? && xs.value != [] && xs.value != [""] ==> r == Join(xs.value, ", ")
  {
    match xs
    case None => "N/A"
    case Some(v) =>
      JoinEmptyIff(v, ", ");
      var j := Join(v, ", ");
      if j == "" then "N/A" else j
  }

  function MapOption<A, B>(x: Option<A>, f: A -> B): Option<B> {
    match x
    case None => None
    case Some(v) => Some(f(v))
  }

  /** The number of FAQ entries shown: `faqs?.length || 0`. */
  function FaqCount(faqs: Option<seq<Faq>>): nat {
    match faqs
    case None => 0
    case Some(fs) => |fs|
  }

  /** The context paragraph appended to the system prompt; empty when there is no context. */
  function ContextString(ctx: Option<Context>): (r: string)
    ensures r == "" <==> ctx.None?
    ensures IsTrimmed(r)
  {
    match ctx
    case None => ""
    case Some(c) =>
      var r := "Context:\nOrders: " + JoinOrNA(MapOption(c.orders, OrderIds))
        + "\nProducts: " + JoinOrNA(MapOption(c.products, ProductNames))
        + "\nFAQs: " + NatToString(FaqCount(c.faqs)) + " entries.";
      assert r[0] == 'C' && r[|r| - 1] == '.';
      r
  }

  lemma SystemPromptIsTrimmed()
    ensures SYSTEM_PROMPT != [] && IsTrimmed(SYSTEM_PROMPT)
  {
    assert PROMPT_FIRST_LINE[0] == 'Y';
    assert PROMPT_LAST_LINE[|PROMPT_LAST_LINE| - 1] == '.';
  }

  /** `buildMessages`: the system message (prompt, newline and context, trimmed) followed by the
      user's message unchanged. */
  function BuildMessages(userMessage: string, ctx: Option<Context>): (ms: seq<Message>)
    ensures |ms| == 2
    ensures ms[0].role == System && ms[1] == Message(User, userMessage)
    ensures ctx.None? ==> ms[0].content == SYSTEM_PROMPT
    ensures ctx.Some? ==> ms[0].content == SYSTEM_PROMPT + "\n" + ContextString(ctx)
  {
    SystemContentTrim(ctx);
    [Message(System, Trim(SYSTEM_PROMPT + "\n" + ContextString(ctx))), Message(User, userMessage)]
  }

  /** Trimming the joined system content removes only the newline left dangling by an empty context. */
  lemma SystemContentTrim(ctx: Option<Context>)
    ensures ctx.None? ==> Trim(SYSTEM_PROMPT + "\n" + ContextString(ctx)) == SYSTEM_PROMPT
    ensures ctx.Some? ==> Trim(SYSTEM_PROMPT + "\n" + ContextString(ctx)) == SYSTEM_PROMPT + "\n" + ContextString(ctx)
  {
    var context := ContextString(ctx);
    SystemPromptIsTrimmed();
    if ctx.None? {
      TrimDropsTrailingNewline(SYSTEM_PROMPT);
      assert SYSTEM_PROMPT + "\n" + context == SYSTEM_PROMPT + "\n";
    } else {
      var whole := SYSTEM_PROMPT + "\n" + context;
      assert whole[0] == SYSTEM_PROMPT[0] && whole[|whole| - 1] == context[|context| - 1];
      TrimOfTrimmed(whole);
    }
  }

  /** `baseUrl` in `callOllama`: the configured URL or the local default, with one trailing
      slash removed if there is one. */
  function OllamaBaseUrl(cfg: Config): (url: string)
    ensures var base := if cfg.ollamaBaseUrl == "" then DEFAULT_OLLAMA_URL else cfg.ollamaBaseUrl;
            if base != [] && base[|base| - 1] == '/' then url + "/" == base else url == base
  {
    var base := if cfg.ollamaBaseUrl == "" then DEFAULT_OLLAMA_URL else cfg.ollamaBaseUrl;
    if base != [] && base[|base| - 1] == '/' then base[..|base| - 1] else base
  }

  /** What a provider is sent. */
  datatype Request = Request(
    url: string,
    model: string,
    messages: seq<Message>,
    bearer: Option<string>,
    temperature: Option<real>,
    maxTokens: Option<nat>)

  /** The parts of a response body the service reads: `choices[0].message` (None when that path
      does not exist, so that reading its `content` throws; otherwise its `content`, None when
      undefined or null), and Ollama's `message.content` and `messages[*].content` (None when the
      field is missing or `messages` is not an array). */
  datatype ResponseData = ResponseData(
    choiceMessage: Option<Option<string>>,
    messageContent: Option<string>,
    messages: Option<seq<Option<string>>>)

  /** An HTTP exchange: it fails (throws) or yields a body. */
  datatype HttpResult = Failed | Received(data: ResponseData)

  /** A present, non-empty string: JavaScript truthiness of an optional string. */
  predicate Truthy(s: Option<string>) {
    s.Some? && s.value != ""
  }

  /** The reply `callOllama` extracts: `message.content` when truthy, else the last entry's
      `content` of a `messages` array when truthy, else the fixed "could not generate" text. */
  function OllamaReply(d: ResponseData): (r: string)
    ensures r != ""
    ensures Truthy(d.messageContent) ==> r == d.messageContent.value
    ensures !Truthy(d.messageContent) && d.messages.Some? && d.messages.value != []
            && Truthy(d.messages.value[|d.messages.value| - 1])
            ==> r == d.messages.value[|d.messages.value| - 1].value
    ensures r != NO_RESPONSE ==>
              Truthy(d.messageContent)
              || (d.messages.Some? && d.messages.value != [] && Truthy(d.messages.value[|d.messages.value| - 1]))
  {
    if Truthy(d.messageContent) then d.messageContent.value
    else match d.messages
      case None => NO_RESPONSE
      case Some(ms) =>
        if ms != [] && Truthy(ms[|ms| - 1]) then ms[|ms| - 1].value else NO_RESPONSE
  }

  /** The request sent to a networked provider. */
  function ProviderRequest(cfg: Config, p: Provider, messages: seq<Message>): (q: Request)
    requires p != Fallback
    ensures q.messages == messages
    ensures p == Ollama ==> q.url == OllamaBaseUrl(cfg) + "/api/chat" && q.bearer.None?
    ensures p == OpenAI ==> q.bearer == Some(cfg.openAiKey) && q.url == OPENAI_URL
    ensures p == Groq ==> q.bearer == Some(cfg.groqKey) && q.url == GROQ_URL
  {
    match p
    case OpenAI =>
      Request(OPENAI_URL, if cfg.openAiModel == "" then DEFAULT_OPENAI_MODEL else cfg.openAiModel,
              messages, Some(cfg.openAiKey), Some(0.4), Some(500))
    case Groq =>
      Request(GROQ_URL, if cfg.groqModel == "" then DEFAULT_GROQ_MODEL else cfg.groqModel,
              messages, Some(cfg.groqKey), Some(0.4), Some(500))
    case Ollama =>
      Request(OllamaBaseUrl(cfg) + "/api/chat", if cfg.ollamaModel == "" then DEFAULT_OLLAMA_MODEL else cfg.ollamaModel,
              messages, None, None, None)
  }

  const FALLBACK_LEAD: string := "I understand you're asking about "
  const FALLBACK_TAIL: string := ". I can help with order tracking (share your order ID), returns, shipping times, or recommend products. What would you like to know?"

  /** The fixed reply used when no provider is configured or the provider call throws: the
      user's message in double quotes, after the fixed lead. */
  function FallbackReply(userMessage: string): (r: string)
    ensures OccursAt(r, "\"" + userMessage + "\"", |FALLBACK_LEAD|)
  {
    var quoted := "\"" + userMessage + "\"";
    var r := FALLBACK_LEAD + quoted + FALLBACK_TAIL;
    assert r[|FALLBACK_LEAD|..|FALLBACK_LEAD| + |quoted|] == quoted;
    r
  }

  /** The fixed reply quotes the user's message. */
  lemma FallbackReplyQuotes(userMessage: string)
    ensures Contains(FallbackReply(userMessage), "\"" + userMessage + "\"")
  {
    assert OccursAt(FallbackReply(userMessage), "\"" + userMessage + "\"", |FALLBACK_LEAD|);
  }

  /** The reply taken from a provider's HTTP result. A failed exchange, or a body without
      `choices[0].message` (reading `content` then throws), gives the fallback reply; an
      undefined or null `content` is passed on as no reply at all (None). */
  function ProviderReply(p: Provider, result: HttpResult, userMessage: string): (r: Option<string>)
    requires p != Fallback
    ensures result.Failed? ==> r == Some(FallbackReply(userMessage))
    ensures result.Received? && p == Ollama ==> r == Some(OllamaReply(result.data)) && r.value != ""
    ensures result.Received? && p != Ollama && result.data.choiceMessage.None? ==> r == Some(FallbackReply(userMessage))
    ensures result.Received? && p != Ollama && result.data.choiceMessage.Some? ==>
              r == result.data.choiceMessage.value
    ensures r.None? <==> result.Received? && p != Ollama && result.data.choiceMessage == Some(None)
  {
    match result
    case Failed => Some(FallbackReply(userMessage))
    case Received(d) =>
      if p == Ollama then Some(OllamaReply(d))
      else match d.choiceMessage
        case None => Some(FallbackReply(userMessage))
        case Some(content) => content
  }

  /** `generateLLMResponse`: the configured provider's reply, or the fallback reply when no
      provider is configured or the call fails. */
  function GenerateLlmResponse(cfg: Config, post: Request -> HttpResult, userMessage: string, ctx: Option<Context>): (r: Option<string>)
    ensures DetectProvider(cfg) == Fallback ==> r == Some(FallbackReply(userMessage))
    ensures DetectProvider(cfg) != Fallback
            && post(ProviderRequest(cfg, DetectProvider(cfg), BuildMessages(userMessage, ctx))).Failed?
            ==> r == Some(FallbackReply(userMessage))
    ensures DetectProvider(cfg) == Ollama ==> r.Some? && r.value != ""
    ensures DetectProvider(cfg) != Fallback ==>
              r == ProviderReply(DetectProvider(cfg), post(ProviderRequest(cfg, DetectProvider(cfg), BuildMessages(userMessage, ctx))), userMessage)
    ensures r.None? ==> DetectProvider(cfg) == OpenAI || DetectProvider(cfg) == Groq
  {
    var provider := DetectProvider(cfg);
    if provider == Fallback then Some(FallbackReply(userMessage))
    else ProviderReply(provider, post(ProviderRequest(cfg, provider, BuildMessages(userMessage, ctx))), userMessage)
  }

  /** Without a configured provider, or when every provider call fails, the user gets the
      fixed reply quoting their message. */
  lemma FallbackWhenUnavailable(cfg: Config, post: Request -> HttpResult, userMessage: string, ctx: Option<Context>)
    requires DetectProvider(cfg) == Fallback || forall q :: post(q).Failed?
    ensures GenerateLlmResponse(cfg, post, userMessage, ctx) == Some(FallbackReply(userMessage))
    ensures Contains(GenerateLlmResponse(cfg, post, userMessage, ctx).value, "\"" + userMessage + "\"")
  {
    FallbackReplyQuotes(userMessage);
  }
}
