/**
 * The chat route: pulling an order id out of a message, classifying the message,
 * answering order-status and FAQ questions, and the POST handler that chains the
 * answers with the fixed texts and the language-model fallback.
 */
module Chat {
  import opened Optional
  import opened Strings
  import opened Catalog
  import Arrays
  import Llm
  import Recommendations

  const RETURN_POLICY: string := "Return Policy:\n"
    + "\U{2022} Returns allowed within 14 days from delivery\n"
    + "\U{2022} Product must be unused and in original packaging\n"
    + "\U{2022} Refunds take 5\U{2013}7 business days after inspection\n"
    + "\U{2022} Contact support@shopease.com for return authorization"

  const SHIPPING_INFO: string := "Shipping Information:\n"
    + "\U{2022} Standard shipping: 3-5 business days\n"
    + "\U{2022} Express shipping: 1-2 business days (additional fee)\n"
    + "\U{2022} Free shipping on orders over Rs. 10,000\n"
    + "\U{2022} Tracking information sent via email"

  const EMPTY_MESSAGE_REPLY: string := "Please provide a message."
  const ERROR_REPLY: string := "I apologize, but I encountered an error. Please try again."
  const ORDER_ID_PROMPT: string := "I can help track your order. Please share your order ID (e.g., ORD12345)."

  // ---------------------------------------------------------------- order ids

  /** `/ORD\d+/i` can start matching at `i`: `ORD` in any ASCII case, then a digit. */
  predicate OrdAt(s: string, i: int) {
    && 0 <= i && i + 4 <= |s|
    && ToLowerChar(s[i]) == 'o' && ToLowerChar(s[i + 1]) == 'r' && ToLowerChar(s[i + 2]) == 'd'
    && IsDigit(s[i + 3])
  }

  /** The leftmost match start at or after `from`. */
  function FirstOrdFrom(s: string, from: nat): (r: Option<nat>)
    requires from <= |s|
    ensures r.Some? ==> from <= r.value && OrdAt(s, r.value) && forall j :: from <= j < r.value ==> !OrdAt(s, j)
    ensures r.None? ==> forall j :: from <= j ==> !OrdAt(s, j)
    decreases |s| - from
  {
    if from + 4 > |s| then None
    else if OrdAt(s, from) then Some(from)
    else FirstOrdFrom(s, from + 1)
  }

  /** The end of the run of digits starting at `j`: where the greedy `\d+` stops. */
  function DigitsEnd(s: string, j: nat): (e: nat)
    requires j <= |s|
    ensures j <= e <= |s|
    ensures forall k :: j <= k < e ==> IsDigit(s[k])
    ensures e == |s| || !IsDigit(s[e])
    decreases |s| - j
  {
    if j < |s| && IsDigit(s[j]) then DigitsEnd(s, j + 1) else j
  }

  /** A normalised order id: `ORD` followed by one or more digits. */
  predicate IsOrderId(id: string) {
    |id| >= 4 && id[..3] == "ORD" && forall k :: 3 <= k < |id| ==> IsDigit(id[k])
  }

  /** `id` is the upper-cased text of the leftmost match of `/ORD\d+/i` in `s`, which starts at `i`. */
  predicate MatchedAt(s: string, i: int, id: string) {
    && OrdAt(s, i)
    && (forall j :: 0 <= j < i ==> !OrdAt(s, j))
    && i + |id| <= |s|
    && Upper(s[i..i + |id|]) == id
    && (i + |id| == |s| || !IsDigit(s[i + |id|]))
  }

  /** `extractOrderId`: the first case-insensitive match of `ORD` and one or more digits,
      upper-cased; nothing when the message has no match. */
  function ExtractOrderId(message: string): (r: Option<string>)
    ensures r.None? <==> forall i :: !OrdAt(message, i)
    ensures r.Some? ==> IsOrderId(r.value) && exists i :: MatchedAt(message, i, r.value)
  {
    match FirstOrdFrom(message, 0)
    case None => None
    case Some(i) =>
      var e := DigitsEnd(message, i + 3);
      var id := Upper(message[i..e]);
      assert id[..3] == "ORD";
      assert MatchedAt(message, i, id);
      Some(id)
  }

  /** An extracted id is already in normal form. */
  lemma ExtractedIdIsUpperCase(message: string)
    requires ExtractOrderId(message).Some?
    ensures Upper(ExtractOrderId(message).value) == ExtractOrderId(message).value
  {
    var id := ExtractOrderId(message).value;
    assert forall k :: 0 <= k < |id| ==> Upper(id)[k] == id[k];
  }

  /** `/ord\d+/i.test(message)`. */
  predicate HasOrderId(message: string) {
    FirstOrdFrom(message, 0).Some?
  }

  // ---------------------------------------------------------------- intents

  datatype Intent = OrderIntent | ReturnIntent | RecommendationIntent | FaqIntent | GeneralIntent

  /** The tag the handler sends back. */
  function IntentTag(t: Intent): string {
    match t
    case OrderIntent => "order"
    case ReturnIntent => "return"
    case RecommendationIntent => "recommendation"
    case FaqIntent => "faq"
    case GeneralIntent => "general"
  }

  /** The order in which the checks run. */
  function Rank(t: Intent): nat {
    match t
    case OrderIntent => 0
    case ReturnIntent => 1
    case RecommendationIntent => 2
    case FaqIntent => 3
    case GeneralIntent => 4
  }

  /** The phrases that signal each intent, as a table. */
  function Cues(t: Intent): seq<string> {
    match t
    case OrderIntent => ["order status", "where is my order", "track"]
    case ReturnIntent => ["return", "refund", "exchange"]
    case RecommendationIntent => ["recommend", "suggest", "best", "product"]
    case FaqIntent => ["faq", "delivery", "shipping", "payment", "cash on delivery"]
    case GeneralIntent => []
  }

  /** The message carries a cue for `t` (for `order`, an order id also counts). */
  predicate Signals(message: string, t: Intent) {
    || (t == OrderIntent && HasOrderId(message))
    || exists c :: c in Cues(t) && Contains(Lower(message), c)
  }

  /** `detectIntent`: the first intent, in the fixed order order, return, recommendation, faq,
      whose cue the message carries; `general` when there is none. */
  function DetectIntent(message: string): (t: Intent)
    ensures t == GeneralIntent || Signals(message, t)
    ensures forall u :: Rank(u) < Rank(t) ==> !Signals(message, u)
  {
    if Signals(message, OrderIntent) then OrderIntent
    else if Signals(message, ReturnIntent) then ReturnIntent
    else if Signals(message, RecommendationIntent) then RecommendationIntent
    else if Signals(message, FaqIntent) then FaqIntent
    else GeneralIntent
  }

  /** Classification ignores ASCII case: the cues are matched against the lower-cased
      message and the order-id pattern is case-insensitive. */
  lemma DetectIntentIgnoresCase(message: string)
    ensures DetectIntent(Lower(message)) == DetectIntent(message)
  {
    var low := Lower(message);
    LowerIdempotent(message);
    forall i
      ensures OrdAt(low, i) <==> OrdAt(message, i)
    {
    }
    assert HasOrderId(low) <==> HasOrderId(message);
    forall t
      ensures Signals(low, t) <==> Signals(message, t)
    {
    }
  }

  /** A message from which an order id can be extracted is always an order question. */
  lemma OrderIdMeansOrderIntent(message: string)
    requires ExtractOrderId(message).Some?
    ensures DetectIntent(message) == OrderIntent
  {
    assert Signals(message, OrderIntent);
  }

  // ---------------------------------------------------------------- order status

  /** The status text of a found order: its id, status, expected delivery and items. */
  function OrderStatusBlock(o: Order): (r: string)
    ensures StartsWith(r, "Order " + o.orderId + ":")
    ensures |Join(o.items, ", ")| <= |r| && r[|r| - |Join(o.items, ", ")|..] == Join(o.items, ", ")
  {
    "Order " + o.orderId + ":\nStatus: " + o.status + "\nExpected Delivery: " + o.expectedDelivery
    + "\nItems: " + Join(o.items, ", ")
  }

  const NOT_FOUND_LEAD: string := "I couldn't find order "
  const NOT_FOUND_TAIL: string := ". Please confirm your order ID (e.g., ORD12345) or double-check your email confirmation."

  function OrderNotFoundReply(id: string): string {
    NOT_FOUND_LEAD + id + NOT_FOUND_TAIL
  }

  /** The "couldn't find" text names the id it was given. */
  lemma NotFoundReplyNamesId(id: string)
    ensures Contains(OrderNotFoundReply(id), id)
  {
    var r := OrderNotFoundReply(id);
    assert r[|NOT_FOUND_LEAD|..|NOT_FOUND_LEAD| + |id|] == id;
    assert OccursAt(r, id, |NOT_FOUND_LEAD|);
  }

  /** `checkOrderStatus`: nothing when the message holds no order id; otherwise the status block
      of the first order whose upper-cased id is the extracted id, or a "couldn't find" text
      naming the normalised id. */
  function CheckOrderStatus(message: string, orders: seq<Order>): (r: Option<string>)
    ensures r.None? <==> ExtractOrderId(message).None?
    ensures r.Some? ==> r.value != ""
    ensures r.Some? ==>
              var id := ExtractOrderId(message).value;
              match FindOrder(orders, id)
              case Some(o) => r.value == OrderStatusBlock(o)
              case None => r.value == OrderNotFoundReply(id)
  {
    match ExtractOrderId(message)
    case None => None
    case Some(id) =>
      match FindOrder(orders, id)
      case Some(o) => Some(OrderStatusBlock(o))
      case None => Some(OrderNotFoundReply(id))
  }

  // ---------------------------------------------------------------- FAQ

  /** Some keyword of the entry, lower-cased, occurs in the message, or the lower-cased question does. */
  predicate FaqMatches(lowerMessage: string, faq: Faq) {
    || (exists kw :: kw in faq.keywords && Contains(lowerMessage, Lower(kw)))
    || Contains(lowerMessage, Lower(faq.question))
  }

  /** `getFaqResponse`: question and answer of the first entry, in collection order, that matches. */
  function GetFaqResponse(message: string, faqs: seq<Faq>): (r: Option<string>)
    ensures r.None? <==> forall k :: 0 <= k < |faqs| ==> !FaqMatches(Lower(message), faqs[k])
    ensures r.Some? ==> r.value != ""
    ensures r.Some? ==> exists k :: && 0 <= k < |faqs| && FaqMatches(Lower(message), faqs[k])
                                    && (forall j :: 0 <= j < k ==> !FaqMatches(Lower(message), faqs[j]))
                                    && r.value == faqs[k].question + "\n" + faqs[k].answer
  {
    var lower := Lower(message);
    match Arrays.Find(faqs, f => FaqMatches(lower, f))
    case None => None
    case Some(f) => Some(f.question + "\n" + f.answer)
  }

  // ---------------------------------------------------------------- the POST handler

  /** The `message` field of the request body: missing, a string, or some other JSON value
      (with its truthiness). */
  datatype MessageField = Absent | Text(text: string) | NonText(truthy: bool)

  /** The status code and JSON body the handler sends. `reply` is None when the language model
      passed on an undefined or null `content`; `intent` is absent from error replies. */
  datatype ChatResponse = ChatResponse(status: nat, reply: Option<string>, intent: Option<string>)

  /** What the handler calls out to: the locale price formatter, the LLM settings and the
      HTTP transport to the provider. */
  datatype Services = Services(formatPrice: real -> string, llm: Llm.Config, post: Llm.Request -> Llm.HttpResult)

  predicate MentionsShipping(message: string) {
    Contains(Lower(message), "shipping") || Contains(Lower(message), "delivery")
  }

  /** The context object the handler passes to the language model: all three collections. */
  function LlmContext(orders: seq<Order>, products: seq<Product>, faqs: seq<Faq>): Option<Llm.Context> {
    Some(Llm.Context(Some(orders), Some(products), Some(faqs)))
  }

  /** The answer of the intent's own branch, if it gives one; an answer is never empty. */
  function IntentReply(message: string, intent: Intent, orders: seq<Order>, products: seq<Product>,
                       formatPrice: real -> string): (r: Option<string>)
    ensures r.Some? ==> r.value != ""
    ensures r.None? <==> (intent == RecommendationIntent && products == []) || intent == FaqIntent || intent == GeneralIntent
  {
    match intent
    case OrderIntent => Some(CheckOrderStatus(message, orders).GetOr(ORDER_ID_PROMPT))
    case ReturnIntent => Some(RETURN_POLICY)
    case RecommendationIntent => Recommendations.RecommendationReply(message, products, formatPrice)
    case _ => None
  }

  /** The rule-based answer: the first of the intent's branch, the FAQ match and the shipping
      notice that gives one. */
  function RuleReply(message: string, intent: Intent, orders: seq<Order>, products: seq<Product>,
                     faqs: seq<Faq>, formatPrice: real -> string): (r: Option<string>)
    ensures r.Some? ==> r.value != ""
    ensures r.None? <==> && IntentReply(message, intent, orders, products, formatPrice).None?
                         && GetFaqResponse(message, faqs).None?
                         && !MentionsShipping(message)
    ensures IntentReply(message, intent, orders, products, formatPrice).Some? ==>
              r == IntentReply(message, intent, orders, products, formatPrice)
  {
    var primary := IntentReply(message, intent, orders, products, formatPrice);
    if primary.Some? then primary
    else if GetFaqResponse(message, faqs).Some? then GetFaqResponse(message, faqs)
    else if MentionsShipping(message) then Some(SHIPPING_INFO)
    else None
  }

  /** The answer to a non-blank message with the given intent: the intent's own branch when it
      answers, else the FAQ match, else the shipping notice when shipping or delivery is
      mentioned, else the language model. Only the language model can leave it without text. */
  function Answer(message: string, intent: Intent, orders: seq<Order>, products: seq<Product>,
                  faqs: seq<Faq>, services: Services): (r: Option<string>)
    ensures var primary := IntentReply(message, intent, orders, products, services.formatPrice);
            primary.Some? ==> r == primary
    ensures var primary := IntentReply(message, intent, orders, products, services.formatPrice);
            var faq := GetFaqResponse(message, faqs);
            primary.None? && faq.Some? ==> r == faq
    ensures var primary := IntentReply(message, intent, orders, products, services.formatPrice);
            var faq := GetFaqResponse(message, faqs);
            primary.None? && faq.None? && MentionsShipping(message) ==> r == Some(SHIPPING_INFO)
    ensures var primary := IntentReply(message, intent, orders, products, services.formatPrice);
            var faq := GetFaqResponse(message, faqs);
            primary.None? && faq.None? && !MentionsShipping(message) ==>
              r == Llm.GenerateLlmResponse(services.llm, services.post, message, LlmContext(orders, products, faqs))
  {
    match RuleReply(message, intent, orders, products, faqs, services.formatPrice)
    case Some(r) => Some(r)
    case None => Llm.GenerateLlmResponse(services.llm, services.post, message, LlmContext(orders, products, faqs))
  }

  /** The blank-message check of the handler: `!message || !message.trim()` for a string or
      a falsy value. */
  predicate IsBlank(field: MessageField) {
    match field
    case Absent => true
    case Text(s) => Trim(s) == ""
    case NonText(truthy) => !truthy
  }

  /** The response of the chat endpoint: 400 for a blank message, 500 when `trim` is applied
      to a non-string, otherwise 200 with the answer and the detected intent. */
  function ChatOutcome(field: MessageField, orders: seq<Order>, products: seq<Product>, faqs: seq<Faq>,
                       services: Services): (resp: ChatResponse)
    ensures IsBlank(field) <==> resp == ChatResponse(400, Some(EMPTY_MESSAGE_REPLY), None)
    ensures resp.status == 500 <==> resp == ChatResponse(500, Some(ERROR_REPLY), None) && field == NonText(true)
    ensures resp.status == 200 <==> field.Text? && Trim(field.text) != ""
    ensures resp.status == 200 ==> resp.intent == Some(IntentTag(DetectIntent(Trim(field.text))))
  {
    match field
    case Absent => ChatResponse(400, Some(EMPTY_MESSAGE_REPLY), None)
    case NonText(truthy) =>
      if truthy then ChatResponse(500, Some(ERROR_REPLY), None) else ChatResponse(400, Some(EMPTY_MESSAGE_REPLY), None)
    case Text(s) =>
      var m := Trim(s);
      if m == "" then ChatResponse(400, Some(EMPTY_MESSAGE_REPLY), None)
      else
        var intent := DetectIntent(m);
        ChatResponse(200, Answer(m, intent, orders, products, faqs, services), Some(IntentTag(intent)))
  }

  /** The `switch (intent)` of the handler. A `null` from a branch is modelled as the empty
      string, the other falsy value `reply` can hold. */
  method IntentStage(userMessage: string, intent: Intent, orders: seq<Order>, products: seq<Product>,
                     formatPrice: real -> string) returns (reply: string)
    ensures reply == IntentReply(userMessage, intent, orders, products, formatPrice).GetOr("")
  {
    reply := "";
    if intent == OrderIntent {
      reply := CheckOrderStatus(userMessage, orders).GetOr("");
      if reply == "" {
        reply := ORDER_ID_PROMPT;
      }
    } else if intent == ReturnIntent {
      reply := RETURN_POLICY;
    } else if intent == RecommendationIntent {
      var recommendation := Recommendations.GetRecommendations(userMessage, products, formatPrice);
      reply := recommendation.GetOr("");
    }
  }

  /** The `if (!reply)` chain after the switch: each stage runs only while the reply text is
      still empty, and the language model's answer is passed on as it comes. */
  method AnswerStage(userMessage: string, intent: Intent, orders: seq<Order>, products: seq<Product>,
                     faqs: seq<Faq>, services: Services) returns (reply: Option<string>)
    ensures reply == Answer(userMessage, intent, orders, products, faqs, services)
  {
    var text := IntentStage(userMessage, intent, orders, products, services.formatPrice);

    if text == "" {
      var faqAnswer := GetFaqResponse(userMessage, faqs);
      if faqAnswer.Some? {
        text := faqAnswer.value;
      }
    }

    if text == "" && (Contains(Lower(userMessage), "shipping") || Contains(Lower(userMessage), "delivery")) {
      text := SHIPPING_INFO;
    }

    if text == "" {
      reply := Llm.GenerateLlmResponse(services.llm, services.post, userMessage, LlmContext(orders, products, faqs));
    } else {
      reply := Some(text);
    }
  }

  /** The `router.post('/')` handler. */
  method HandleChat(field: MessageField, orders: seq<Order>, products: seq<Product>, faqs: seq<Faq>,
                    services: Services) returns (resp: ChatResponse)
    ensures resp == ChatOutcome(field, orders, products, faqs, services)
  {
    if IsBlank(field) {
      return ChatResponse(400, Some(EMPTY_MESSAGE_REPLY), None);
    }
    if field.NonText? {
      // `message.trim` is not a function: the catch block answers.
      return ChatResponse(500, Some(ERROR_REPLY), None);
    }

    var userMessage := Trim(field.text);
    var intent := DetectIntent(userMessage);
    var reply := AnswerStage(userMessage, intent, orders, products, faqs, services);
    return ChatResponse(200, reply, Some(IntentTag(intent)));
  }

  /** An order question is answered by the order lookup, or by the prompt for an order id when
      the message holds none; the FAQ entries and the language model are never consulted. */
  lemma OrderIntentAnswer(s: string, orders: seq<Order>, products: seq<Product>, faqs: seq<Faq>,
                          services: Services, faqs': seq<Faq>, services': Services)
    requires Trim(s) != "" && DetectIntent(Trim(s)) == OrderIntent
    ensures var resp := ChatOutcome(Text(s), orders, products, faqs, services);
            && resp.reply == Some(CheckOrderStatus(Trim(s), orders).GetOr(ORDER_ID_PROMPT))
            && resp.reply.value != ""
            && resp == ChatOutcome(Text(s), orders, products, faqs', services')
  {
  }

  /** A recommendation question, with products in the catalog, is answered by the
      recommendation text; the FAQ entries, the shipping notice and the language model are
      never consulted. */
  lemma RecommendationIntentAnswer(s: string, orders: seq<Order>, products: seq<Product>, faqs: seq<Faq>,
                                   services: Services)
    requires Trim(s) != "" && DetectIntent(Trim(s)) == RecommendationIntent && products != []
    ensures ChatOutcome(Text(s), orders, products, faqs, services).reply
            == Recommendations.RecommendationReply(Trim(s), products, services.formatPrice)
  {
    RecommendationAnswer(Trim(s), orders, products, faqs, services);
  }

  /** With products in the catalog, the staged answer to a recommendation question is the
      recommendation text. */
  lemma RecommendationAnswer(m: string, orders: seq<Order>, products: seq<Product>, faqs: seq<Faq>,
                             services: Services)
    requires products != []
    ensures Answer(m, RecommendationIntent, orders, products, faqs, services)
            == Recommendations.RecommendationReply(m, products, services.formatPrice)
  {
    var rec := Recommendations.RecommendationReply(m, products, services.formatPrice);
    assert IntentReply(m, RecommendationIntent, orders, products, services.formatPrice) == rec;
  }

  /** A return question gets the return policy, word for word. */
  lemma ReturnIntentAnswer(s: string, orders: seq<Order>, products: seq<Product>, faqs: seq<Faq>, services: Services)
    requires Trim(s) != "" && DetectIntent(Trim(s)) == ReturnIntent
    ensures ChatOutcome(Text(s), orders, products, faqs, services).reply == Some(RETURN_POLICY)
  {
  }

  /** Past the intent's own branch, the FAQ answer comes first, then the shipping notice when
      the message mentions shipping or delivery, then the language model. */
  lemma FallbackChain(s: string, orders: seq<Order>, products: seq<Product>, faqs: seq<Faq>, services: Services)
    requires Trim(s) != ""
    requires var intent := DetectIntent(Trim(s));
             intent != OrderIntent && intent != ReturnIntent && (intent == RecommendationIntent ==> products == [])
    ensures var m := Trim(s);
            var reply := ChatOutcome(Text(s), orders, products, faqs, services).reply;
            if GetFaqResponse(m, faqs).Some? then reply == GetFaqResponse(m, faqs)
            else if MentionsShipping(m) then reply == Some(SHIPPING_INFO)
            else reply == Llm.GenerateLlmResponse(services.llm, services.post, m, LlmContext(orders, products, faqs))
  {
  }

  /** With every collection unreadable (empty), a non-blank message still gets a 200 answer. */
  lemma LoadFailureStillAnswers(s: string, services: Services)
    requires Trim(s) != ""
    ensures ChatOutcome(Text(s), [], [], [], services).status == 200
  {
  }
}
