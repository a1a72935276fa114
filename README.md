# ShopyWiz chatbot core, modelled in Dafny

ShopyWiz is an e-commerce support chatbot. Its Express backend answers `POST /api/chat`:
it trims the user's message, classifies it into an intent (order, return, recommendation,
faq, general) and tries a fixed chain of rule-based answers: the order-status lookup, the
return policy, keyword-scored product recommendations, the FAQ match, and the shipping
notice. When none of these answers, it asks a language model (OpenAI, Groq or a local
Ollama server, picked from the environment) and falls back to a fixed reply quoting the
message when no provider is configured or the call fails. The backend also serves
case-insensitive order lookup and a category filter over the product catalog. The React
front end shows a grid of featured products.

This project models those rules on values and proves what they promise:

- `Strings`, `Arrays`: the JavaScript operations the code relies on (ASCII `toLowerCase`
  and `toUpperCase`, `includes`, `trim`, `join`, `split(/\s+/)`, `find`, `filter`,
  `slice(0, n)`).
- `Catalog`: orders, products, FAQ entries, and the case-insensitive order search that
  both routes share.
- `Llm`: `backend/services/llmService.js`.
- `Recommendations`: `getRecommendations` in `backend/routes/chat.js`. It is an imperative
  method, proved equal to a reference function. The ranking lemmas are proved about that
  function, and any stable descending sort is proved to give the same list.
- `Chat`: the rest of `backend/routes/chat.js`. The POST handler is an imperative method
  with the source's `let reply` guards, proved equal to a reference function over the
  stages.
- `OrdersRoute`, `ProductsRoute`: `backend/routes/orders.js`, `backend/routes/products.js`.
- `FeaturedProducts`: `frontend/src/components/FeaturedProducts.jsx`.

Each collection read from JSON arrives as an input sequence; one that fails to load is the
empty sequence. The environment variables arrive as a `Config` record, where the empty
string stands for an unset variable (both are falsy in the source's tests). The HTTP call to
the provider is a function parameter `post`. `toLocaleString` and `encodeURIComponent` are
function parameters too.

FAQ keywords are lower-cased before they are matched against the lower-cased message
(`backend/routes/chat.js:144`).

## Model

| member | source | states |
|---|---|---|
| Strings.Trim | backend/routes/chat.js:154-158 | `trim` removes only leading and trailing white space: the result is a contiguous block of the input with nothing but white space before and after it, and no white space at either end; it is empty exactly when the input is all white space |
| Strings.TrimDropsOnlySpace | backend/routes/chat.js:154-158 | stripping the front and then the back leaves a block of the input with only white space around it |
| Strings.TrimOfTrimmed | backend/routes/chat.js:158 | trimming a string with no white space at either end leaves it unchanged, so `trim` is idempotent |
| Strings.Words | backend/routes/chat.js:93 | the pieces of `split(/\s+/)` are non-empty and free of white space |
| Strings.WordsOccur | backend/routes/chat.js:93 | each piece of `split(/\s+/)` occurs in the message |
| Strings.WordsOfWord | backend/routes/chat.js:93 | a non-empty string without white space splits into itself alone |
| Strings.WordsOfSpace | backend/routes/chat.js:93 | a string of white space only splits into no pieces |
| Strings.WordsSplit | backend/routes/chat.js:93 | a white-space character splits the string into the pieces of what precedes it followed by the pieces of what follows it |
| Strings.JoinEmptyIff | backend/services/llmService.js:30 | a `join(', ')` is empty exactly when it joins nothing or a single empty string, which is when `\|\| 'N/A'` applies |
| Strings.UpperIdempotent | backend/routes/orders.js:24-26 | upper-casing twice is upper-casing once |
| Strings.UpperOfLower | backend/routes/orders.js:24-26 | upper-casing a lower-cased id gives the upper-cased id |
| Strings.LowerOfUpper | backend/routes/products.js:34-36 | lower-casing an upper-cased category gives the lower-cased category |
| Strings.LowerIdempotent | backend/routes/products.js:34-36 | lower-casing twice is lower-casing once |
| Strings.NatToString | backend/routes/chat.js:122 | the list number is a non-empty run of decimal digits with no leading zero whose decimal value is the number |
| Arrays.Find | backend/routes/orders.js:26 | `find` gives the element at the first index satisfying the predicate, and nothing exactly when no element does |
| Arrays.Filter | backend/routes/products.js:34-36 | `filter` keeps only elements that satisfy the predicate and come from the input |
| Arrays.FilterCounts | backend/routes/products.js:34-36 | `filter` keeps every copy of each satisfying element and no copy of any other |
| Arrays.FilterIsSubsequence | backend/routes/products.js:34-36 | `filter` keeps the surviving elements in their original order |
| Arrays.SubsequenceShorter | backend/routes/products.js:34-36 | a selection in order from a list is never longer than the list |
| Arrays.Take | frontend/src/components/FeaturedProducts.jsx:16 | `slice(0, n)` is the prefix of length min(n, length) |
| Catalog.FindOrder | backend/routes/chat.js:79 | the order found is the first whose upper-cased id equals the key; nothing is found exactly when no id matches |
| Chat.ExtractOrderId | backend/routes/chat.js:49-53 | nothing exactly when `ORD` (any case) followed by a digit occurs nowhere; otherwise an `ORD` + digits id matched at some position of the message |
| Chat.ExtractedIdIsUpperCase | backend/routes/chat.js:52 | the extracted id is already upper case, so normalising it again changes nothing |
| Chat.DetectIntent | backend/routes/chat.js:55-71 | the intent's cues occur in the message, or it is `general`; no intent of higher priority has its cues present |
| Chat.DetectIntentIgnoresCase | backend/routes/chat.js:56-58 | classifying the lower-cased message gives the same intent: cues are matched in lower case and the order-id test ignores case |
| Chat.OrderIdMeansOrderIntent | backend/routes/chat.js:58 | every message from which an order id is extracted is classified `order` |
| Chat.NotFoundReplyNamesId | backend/routes/chat.js:88 | the "couldn't find order" text names the normalised id |
| Chat.OrderStatusBlock | backend/routes/chat.js:82-85 | the status block starts with `Order <id>:` and ends with the order's items joined by `, ` |
| Chat.CheckOrderStatus | backend/routes/chat.js:73-89 | nothing exactly when no id is extractable; otherwise the first matching order's status block, or the not-found text naming the id |
| Chat.GetFaqResponse | backend/routes/chat.js:141-148 | nothing exactly when no entry matches; otherwise question, newline and answer of the first entry in collection order whose lower-cased keyword or question occurs in the lower-cased message |
| Chat.IntentReply | backend/routes/chat.js:169-178 | the intent's branch answers for `order` and `return` always, for `recommendation` exactly when the catalog is non-empty, and never for `faq` or `general`; an answer is never empty |
| Chat.RuleReply | backend/routes/chat.js:169-189 | the intent branch's answer, when it gives one, is the rule-based answer; the chain gives no answer exactly when the intent branch, the FAQ match and the shipping mention all give none; an answer is never empty |
| Chat.Answer | backend/routes/chat.js:167-193 | the intent branch's answer when it gives one; otherwise the FAQ answer when one matches; otherwise the shipping notice when shipping or delivery is mentioned; otherwise the language model's reply |
| Chat.ChatOutcome | backend/routes/chat.js:150-200 | a blank, missing or falsy message gets the fixed 400 reply with no intent; a truthy non-string message gets the fixed 500 reply; every other message gets 200 with its detected intent's tag |
| Chat.IntentStage | backend/routes/chat.js:167-178 | the `switch` on the intent leaves in `reply` the branch's answer, or the empty string when it gives none |
| Chat.AnswerStage | backend/routes/chat.js:167-193 | the guarded `if (!reply)` chain computes the staged answer |
| Chat.HandleChat | backend/routes/chat.js:150-200 | the handler responds with exactly the staged outcome: status, reply and intent |
| Chat.OrderIntentAnswer | backend/routes/chat.js:169-173 | an order question gets a non-empty reply: the lookup result, or the prompt for an id; the FAQ entries and the language model do not affect it |
| Chat.RecommendationIntentAnswer | backend/routes/chat.js:176-193 | a recommendation question, with a non-empty catalog, gets the recommendation text; the FAQ match, the shipping notice and the language model are not reached |
| Chat.RecommendationAnswer | backend/routes/chat.js:176-177 | with a non-empty catalog, the staged answer to a recommendation question is the recommendation reply |
| Chat.ReturnIntentAnswer | backend/routes/chat.js:174-175 | a return question gets the return policy verbatim |
| Chat.FallbackChain | backend/routes/chat.js:180-193 | past the intent branch, the FAQ answer comes first, then the shipping notice, then the language model |
| Chat.LoadFailureStillAnswers | backend/routes/chat.js:161-195 | with all three collections empty, a non-blank message still gets status 200 |
| Llm.DetectProvider | backend/services/llmService.js:21-26 | the chosen provider is configured and no provider of higher priority is |
| Llm.JoinOrNA | backend/services/llmService.js:30 | the context line is never empty: "N/A" when the list is missing or joins to nothing, the joined list otherwise |
| Llm.ContextString | backend/services/llmService.js:29-31 | the context paragraph is empty exactly when no context is given, and has no white space at either end |
| Llm.SystemPromptIsTrimmed | backend/services/llmService.js:3-12 | the system prompt is non-empty and has no white space at either end |
| Llm.SystemContentTrim | backend/services/llmService.js:34 | trimming the joined system content removes only the newline that an empty context leaves dangling |
| Llm.BuildMessages | backend/services/llmService.js:28-37 | exactly two messages: the system message (the prompt alone, or prompt, newline and context), then the user's message unchanged |
| Llm.OllamaBaseUrl | backend/services/llmService.js:80 | the configured URL or `http://localhost:11434`, with one trailing slash removed if present |
| Llm.OllamaReply | backend/services/llmService.js:84-89 | `message.content` when present, else the last `messages` entry's content when present, else the fixed "could not generate" text, which is returned only then |
| Llm.ProviderRequest | backend/services/llmService.js:39-83 | each provider is sent the built messages at its own URL; OpenAI and Groq with their key as bearer token, Ollama at `<base>/api/chat` without one |
| Llm.FallbackReplyQuotes | backend/services/llmService.js:104 | the fixed reply quotes the user's message |
| Llm.FallbackReply | backend/services/llmService.js:104 | the fixed reply holds the user's message in double quotes right after its fixed lead |
| Llm.ProviderReply | backend/services/llmService.js:56-102 | a failed call, or an OpenAI or Groq body without `choices[0].message`, gives the fallback reply; an Ollama body gives its extracted reply, never empty; otherwise `choices[0].message.content` is passed on as it is, and there is no reply text exactly when that content is undefined or null |
| Llm.GenerateLlmResponse | backend/services/llmService.js:92-105 | with a configured provider, the reply that provider's exchange gives for the request built from the messages; the fallback reply when no provider is configured or the call fails; a non-empty reply from Ollama; only OpenAI or Groq can leave the reply without text |
| Llm.FallbackWhenUnavailable | backend/services/llmService.js:96-104 | with no provider, or with every call failing, the answer is the fixed reply and it quotes the user's message |
| Recommendations.KeywordsAreLongWords | backend/routes/chat.js:92-93 | the keywords are exactly the words of the message longer than three characters: each such word as often as it occurs, no other word, in message order |
| Recommendations.Keywords | backend/routes/chat.js:93 | every keyword is longer than three characters |
| Recommendations.Score | backend/routes/chat.js:97-109 | a product's score is at most 5 for the category plus 3 per keyword |
| Recommendations.TagHits | backend/routes/chat.js:105-109 | the tag bonus counts at most one hit per keyword |
| Recommendations.TagHitsPositive | backend/routes/chat.js:105-109 | some tag bonus is earned exactly when some keyword occurs in some lower-cased tag |
| Recommendations.ScorePositiveIff | backend/routes/chat.js:96-111 | a product scores exactly when a keyword occurs in its lower-cased category or in one of its lower-cased tags; the score is at most 5 + 3 per keyword |
| Recommendations.ScoreAll | backend/routes/chat.js:96-114 | every kept entry is a catalog product with its own positive score |
| Recommendations.ScoreAllIsFilter | backend/routes/chat.js:111-113 | the kept products are exactly the catalog filtered by "scores", in catalog order |
| Recommendations.WithScoreMembers | backend/routes/chat.js:116 | the entries of one score are taken from the list and carry that score |
| Recommendations.WithScoreAppend | backend/routes/chat.js:116 | selecting one score distributes over concatenation |
| Recommendations.InsertMultiset | backend/routes/chat.js:116 | insertion adds exactly the inserted entry |
| Recommendations.InsertSorted | backend/routes/chat.js:116 | insertion into a score-descending list keeps it score-descending |
| Recommendations.InsertWithScore | backend/routes/chat.js:116 | insertion places an entry after every entry of equal score |
| Recommendations.SortByScore | backend/routes/chat.js:116 | the sort rearranges the entries without adding or dropping any |
| Recommendations.SortByScoreSorted | backend/routes/chat.js:116 | the sort leaves the entries in non-increasing score order |
| Recommendations.SortByScoreKeepsTies | backend/routes/chat.js:116 | the entries of each score keep their original relative order |
| Recommendations.SortByScoreStable | backend/routes/chat.js:116 | the sort is score-descending, a permutation, and keeps equal scores in their original order |
| Recommendations.StableSortUnique | backend/routes/chat.js:116 | two score-descending lists with the same entries of each score, in the same order, are equal: every stable sort gives the modelled order |
| Recommendations.TopRecommendationsRanked | backend/routes/chat.js:116-117 | at most three recommendations, score-descending, ties in catalog order, and nothing left out scores higher than anything kept |
| Recommendations.TopRecommendationsScored | backend/routes/chat.js:111-117 | there are at most three recommendations; each is a catalog product, and its entry carries that product's own positive score |
| Recommendations.TopRecommendations | backend/routes/chat.js:116-117 | at most three recommendations, each a catalog product with a positive score |
| Recommendations.NothingScores | backend/routes/chat.js:111-113 | the scoring loop keeps nothing exactly when every product scores zero |
| Recommendations.RecommendationReply | backend/routes/chat.js:119-138 | there is no reply exactly when the catalog is empty; any reply is non-empty |
| Recommendations.FeaturedWhenNothingScores | backend/routes/chat.js:130-135 | a non-empty catalog where nothing scores gets the featured list of its first three products, in catalog order |
| Recommendations.SomethingScores | backend/routes/chat.js:111-127 | when some catalog product scores, there is at least one recommendation and the reply is the recommendation header followed by the numbered top recommendations |
| Recommendations.ScoreProduct | backend/routes/chat.js:97-109 | the loop body computes the product's score |
| Recommendations.ListRecommendations | backend/routes/chat.js:120-127 | the `response +=` loop builds the header and the numbered recommendation entries |
| Recommendations.ListFeatured | backend/routes/chat.js:131-135 | the `response +=` loop builds the header and the numbered featured entries |
| Recommendations.GetRecommendations | backend/routes/chat.js:91-139 | the scoring loop, sort, slice and text building give exactly the reference reply |
| OrdersRoute.NotFoundNamesId | backend/routes/orders.js:31 | the 404 message names the normalised id |
| OrdersRoute.ListOrders | backend/routes/orders.js:45-46 | the list endpoint returns the loaded orders unchanged |
| OrdersRoute.GetOrder | backend/routes/orders.js:17-40 | found exactly when some stored id equals the parameter ignoring case; the first such order is returned unchanged; otherwise "Order not found" with a message naming the upper-cased id |
| OrdersRoute.GetOrderIgnoresCase | backend/routes/orders.js:24-26 | lower-casing or upper-casing the requested id does not change the response |
| OrdersRoute.ListedOrdersAreFound | backend/routes/orders.js:43-51 | every listed order can be looked up by its own id, and the lookup returns a listed order with the same id |
| OrdersRoute.LoadFailureNotFound | backend/routes/orders.js:7-14 | with the collection unreadable, every lookup is a 404 |
| OrdersRoute.ChatAgreesWithLookup | backend/routes/chat.js:73-89 | the chat shows the status of exactly the order the orders endpoint returns for the extracted id, and says it cannot find it exactly when the endpoint answers 404 |
| ProductsRoute.FilterByCategory | backend/routes/products.js:28-43 | exactly the products whose category equals the parameter ignoring case, each as often as in the catalog, in catalog order |
| ProductsRoute.ListProducts | backend/routes/products.js:20-21 | the list endpoint returns the loaded products unchanged |
| ProductsRoute.FilterIgnoresCase | backend/routes/products.js:34-36 | upper-casing or lower-casing the category parameter does not change the result |
| ProductsRoute.FilteredAreListed | backend/routes/products.js:17-36 | the filtered products are a selection, in order, from what the list endpoint returns |
| ProductsRoute.LoadFailureEmpty | backend/routes/products.js:7-15 | with the catalog unreadable, every category is empty |
| FeaturedProducts.StripLeadingSlash | frontend/src/components/FeaturedProducts.jsx:9 | the result is a suffix of the path at most one character shorter, and it differs from the path exactly when the path starts with `/` |
| FeaturedProducts.RootedPathIsTrimmed | frontend/src/components/FeaturedProducts.jsx:7-9 | a trimmed path made rooted starts with `/`, keeps the path after its dropped slash, and has no white space at either end |
| FeaturedProducts.ResolveImage | frontend/src/components/FeaturedProducts.jsx:5-12 | nothing exactly when the image is missing or empty; an http(s) URL (any case) is returned trimmed; anything else becomes `/` plus the trimmed path with one leading slash dropped |
| FeaturedProducts.ResolveImageIdempotent | frontend/src/components/FeaturedProducts.jsx:5-12 | resolving a resolved image gives it back unchanged |
| FeaturedProducts.ImageSource | frontend/src/components/FeaturedProducts.jsx:26-27 | the resolved image when there is one, else the placeholder URL with the encoded product name; never empty |
| FeaturedProducts.Description | frontend/src/components/FeaturedProducts.jsx:54 | the product's description when present and non-empty, else "Premium quality product" |
| FeaturedProducts.Featured | frontend/src/components/FeaturedProducts.jsx:16 | the first six products, in order (all of them when fewer) |
| FeaturedProducts.ShownTags | frontend/src/components/FeaturedProducts.jsx:64-66 | the first three tags, in order (all of them when fewer) |
| FeaturedProducts.Cards | frontend/src/components/FeaturedProducts.jsx:16-27 | one card per featured product, in catalog order |
| FeaturedProducts.CardsAreComplete | frontend/src/components/FeaturedProducts.jsx:25-66 | every card has a description, an image and at most three tags |

The predicates and small functions without a row (`Chat.IsBlank`, `Chat.MentionsShipping`,
`Chat.FaqMatches`, `Recommendations.RecommendationEntry`, `Recommendations.FeaturedEntry`,
`Llm.FaqCount`, `FeaturedProducts.IsHttpUrl`, and `Strings.Lower`, `Upper`, `Contains` and
`Join`) are shared vocabulary: each models one source expression and is covered by the rows of
the members that use it.

## Left out

- Reading and parsing the JSON data files (`loadOrders`, `loadProducts`, `loadFaqs`) is I/O. Each collection is an input, and a failed load is the empty sequence.
- Express routing, `req`/`res` and `console.error` logging are transport and logging. Responses are values carrying their status code.
- `Promise.all` over the three loads is concurrency. The loads do not depend on each other, so the model receives the three results together.
- The axios requests and the language model's output are network calls. The exchange is the parameter `post`, which either fails or yields the fields of the response body that the code reads.
- `process.env` is read as a `Config` record. An unset variable and an empty one are both the empty string.
- `Number.prototype.toLocaleString` (price text) and `encodeURIComponent` (placeholder URL) are locale-dependent or opaque. They are the parameters `formatPrice` and `encode`.
- Case mapping covers ASCII letters only. Non-ASCII letters are left unchanged, whereas JavaScript's `toLowerCase`/`toUpperCase` map them. String lengths count code points, not UTF-16 code units; this matters only for the "longer than three characters" keyword test on non-BMP text.
- Records are well formed: the model's orders, products and FAQ entries always have every field. In the source, a missing `orderId`, `items`, `category`, `tags` or `price`, or a missing FAQ `keywords` or `question`, makes the handler throw (500). A missing `status`, `expectedDelivery`, product `name` or FAQ `answer` does not throw: it is rendered as the text `undefined` in the replies, or as "" in the model-context join. The order endpoints return such records unchanged.
- Llm.ProviderReply: an undefined and a null `content` are both "no reply text" (None). The source then sends a 200 body whose `reply` field is missing (undefined) or `null`, a difference in JSON serialisation the model does not keep. A `content` that is neither a string nor undefined nor null is not modelled.
- Chat.IntentStage: a `null` from a branch is the empty string. Both are falsy in the `if (!reply)` guards, so the chain is unchanged.
- FeaturedProducts.ResolveImage: `String(product.image)` of a non-string image value is not modelled; images are strings or absent.
- The React rendering of `FeaturedProducts.jsx` (JSX, `useMemo`, CSS, the `onError` image swap and the "Loading products..." note) is user-interface code and is not modelled. The price label uses `product.price || 0`; the model's prices are always numbers.
- `frontend/src/App.jsx` (data fetching and its fallback data), `frontend/src/components/Navbar.jsx` (static markup) and `backend/server.js` (middleware and `listen`) are not part of this model.
