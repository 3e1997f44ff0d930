# Product search: endpoint, state container and dashboard logic

A Dafny model of the three pieces of the product search application that contain
decision logic:

- **The search endpoint** `GET /api/products?category=<term>` (module `ProductSearch`).
  It trims and lower-cases the parameter and rejects an absent or empty term with 400.
  For a valid term it matches each product on a five-field case-insensitive OR,
  keeps the first 20 matches in collection order, and answers 404 when there are none
  and 200 with the products otherwise. A store fault gives 500. The endpoint is a pure
  function from the raw parameter, the collection (a `seq` in store order) and a
  store-fault flag to a `Response`.
- **The product state container** (module `ProductSlice`). It has two fields,
  `products` and `searchQuery`, and two mutations, each replacing one field. `Reduce`
  is the reducer on state values. `ProductStore` is the object whose fields the
  reducers assign in place; its methods are specified by `Reduce`.
- **The dashboard** (module `Dashboard`). It holds the draft query, the loading flag
  and the store. The step functions (`StartFetch`, `FinishFetch`, `FetchStep`,
  `SearchStep`, `KeywordClickStep`, `EffectStep`) say what `fetchProducts`, the two
  handlers and the effect do to the view state. The `Dashboard` class performs these
  steps on its fields and on the shared `ProductStore`. `Render`, `VisibleKeywords`
  and `CardOf` choose what the page shows. A fetch's network round trip is an abstract
  `FetchOutcome`: delivered data, a non-ok status, or an exception. `OutcomeOf` is the
  outcome the endpoint's response produces.

Supporting modules: `Text`, with the `trim()` whitespace set, ASCII lower-casing and
substring containment, and `Catalog`, with `Option` and the `Product` record.

One consequence proved here is not obvious from the code. A failed or 404 search
leaves the previous products in the store. The page then shows the old grid under the
new query (`StaleResultsPersist`, `StaleResultsAfterNotFound`). More generally, the
products shown are always the data of the last successful response to a request the
run actually issued, or those at the start when there was none (`RunShowsLastDelivery`).

The two triggers that fetch treat an empty query differently. The effect only fetches
a non-empty committed query, but `handleSearch` fetches whatever the draft holds. So
submitting an empty search box sends `category=` and draws a 400, which leaves the
products as they were (`EmptySubmissionIsRejected`).

Because the endpoint is a pure function of the parameter and the collection, it is
read-only. Asking twice with the same term gives the same answer, and nothing
accumulates between requests.

## Model

| member | source | states |
|---|---|---|
| Text.TrimStart | src/app/api/products/route.ts:8 | cutting leading whitespace leaves the suffix of the string that starts at its first non-whitespace character; everything cut is whitespace |
| Text.TrimEnd | src/app/api/products/route.ts:8 | cutting trailing whitespace leaves the prefix of the string that ends at its last non-whitespace character; everything cut is whitespace |
| Text.Trim | src/app/api/products/route.ts:8 | the trimmed term is the parameter with a whitespace-only prefix and a whitespace-only suffix cut off; it neither starts nor ends with whitespace, and is empty exactly when the parameter is whitespace only |
| Text.TrimUnique | src/app/api/products/route.ts:8 | any stretch of the parameter cut out between whitespace-only ends that itself neither starts nor ends with whitespace is the trimmed term, so the contract of `Trim` determines its value |
| Text.Lower | src/app/api/products/route.ts:8 | lower-casing keeps the length and lower-cases each character in place |
| Text.Contains | src/app/api/products/route.ts:18-22 | containment holds exactly when the needle occurs at some position of the haystack |
| Text.TrimPadded | src/app/api/products/route.ts:8 | whitespace added before and after a string is removed again by trimming |
| Text.LowerTrimCommute | src/app/api/products/route.ts:8 | trimming then lower-casing equals lower-casing then trimming |
| ProductSearch.NormalizeTerm | src/app/api/products/route.ts:8-10 | the term is absent exactly when the parameter is absent or whitespace only; a present term is the lower-cased stretch of the parameter left after cutting whitespace from both ends, so it is non-empty, has no whitespace at either end and no upper-case letter |
| ProductSearch.FieldMatches | src/app/api/products/route.ts:18-22 | one `$regex` condition with the `i` option: the lower-cased field contains the lower-cased term, read literally (specified through `Text.Contains`) |
| ProductSearch.SearchFields | src/app/api/products/route.ts:17-23 | the five fields of the `$or` in query order: category, sub-category, title, description, brand (`MatchesSomeField` states them) |
| ProductSearch.Matches | src/app/api/products/route.ts:16-24 | a record matches the query; `MatchesSomeField` states it as the five-way disjunction and `DisjunctOrderIrrelevant` shows the order of the disjuncts does not matter |
| ProductSearch.AnyFieldMatches | src/app/api/products/route.ts:16-24 | the left-to-right `$or` holds exactly when some listed field contains the term case-insensitively |
| ProductSearch.MatchesSomeField | src/app/api/products/route.ts:16-24 | a product matches iff its category, sub-category, title, description or brand contains the term case-insensitively |
| ProductSearch.DisjunctOrderIrrelevant | src/app/api/products/route.ts:16-24 | any reordering of the disjuncts yields the same match result |
| ProductSearch.Filter | src/app/api/products/route.ts:36 | the result holds every matching record of the collection with its multiplicity, no other record, in collection order |
| ProductSearch.Limit | src/app/api/products/route.ts:36 | the limit keeps a prefix of at most n elements: exactly n when there are at least n, all of them otherwise |
| ProductSearch.Get | src/app/api/products/route.ts:5-49 | 400 exactly for an invalid term; 500 exactly for a valid term with a store fault; a 200 holds between 1 and 20 products, each matching the term |
| ProductSearch.InvalidTermIsBadRequest | src/app/api/products/route.ts:8-12 | an absent, empty or whitespace-only parameter gets 400 with the error body, for every collection and fault flag |
| ProductSearch.SameTermSameResponse | src/app/api/products/route.ts:8 | two parameters with the same normalised term get the same response |
| ProductSearch.CaseInsensitiveParameter | src/app/api/products/route.ts:8 | parameters differing only in letter case get the same response |
| ProductSearch.PaddedParameter | src/app/api/products/route.ts:8 | surrounding whitespace does not change the response |
| ProductSearch.OkHoldsLeadingMatches | src/app/api/products/route.ts:36 | a 200 holds a subsequence of the collection: exactly the first 20 matches when there are at least 20, all matches otherwise |
| ProductSearch.NotFoundIffNoMatch | src/app/api/products/route.ts:40-44 | with a valid term and a healthy store: 404 with the message body iff no record matches, 200 iff some record matches; the 404 body is not an error body |
| ProductSearch.StoreFaultIsServerError | src/app/api/products/route.ts:45-48 | a store fault for a valid term gives 500 with the generic error and no products |
| ProductSlice.Reduce | src/store/productSlice.ts:26-31 | the reducer; `ActionFrames` gives its whole result for each action, and `ActionIdempotent`, `LastWriteWins` and `ActionsCommute` how actions combine |
| ProductSlice.ReduceAll | src/store/productSlice.ts:22-36 | dispatching a sequence of actions in order; `LatestMutationWins` ties it to the independent last-writer definition |
| ProductSlice.InitialStateIsEmpty | src/store/productSlice.ts:17-20 | the initial state has no products and an empty query |
| ProductSlice.ActionFrames | src/store/productSlice.ts:26-31 | setProducts writes only products; setSearchQuery writes only searchQuery |
| ProductSlice.ActionIdempotent | src/store/productSlice.ts:26-31 | dispatching an action twice equals dispatching it once |
| ProductSlice.LastWriteWins | src/store/productSlice.ts:26-31 | of two writes to the same field, the later payload is what remains |
| ProductSlice.ActionsCommute | src/store/productSlice.ts:26-31 | setProducts and setSearchQuery commute |
| ProductSlice.LatestMutationWins | src/store/productSlice.ts:22-31 | after any sequence of dispatches each field holds the payload of the latest action that wrote it, or its earlier value |
| ProductSlice.ProductStore.constructor | src/store/productSlice.ts:17-20 | a new store is in the initial state |
| ProductSlice.ProductStore.SetProducts | src/store/productSlice.ts:26-28 | products becomes the payload; searchQuery is unchanged |
| ProductSlice.ProductStore.SetSearchQuery | src/store/productSlice.ts:29-31 | searchQuery becomes the payload; products are unchanged |
| Dashboard.OutcomeOf | src/components/ui/Dashboard.tsx:58-64 | the client sees delivered data exactly for a 200, with the endpoint's products; any other status is a non-ok outcome carrying that status |
| Dashboard.TypeDraft | src/components/ui/Dashboard.tsx:147 | typing replaces the draft and nothing else; performed by `Dashboard.Dashboard.SetLocalSearchQuery`, and `KeywordClickIsTypeThenSearch` uses it |
| Dashboard.CommitQuery | src/components/ui/Dashboard.tsx:77-83 | dispatching `setSearchQuery`; `SearchCommitsDraft` and `KeywordClickIsTypeThenSearch` state the committed query it leaves |
| Dashboard.StartFetch | src/components/ui/Dashboard.tsx:57 | raising the loading flag; `FetchLoadingBracket` shows the spinner is then on screen |
| Dashboard.FinishFetch | src/components/ui/Dashboard.tsx:59-72 | the part of a fetch after the response; `FetchReplacesOnlyOnSuccess` states the products it leaves and `FetchLoadingBracket` that loading ends off |
| Dashboard.FetchStep | src/components/ui/Dashboard.tsx:55-73 | `fetchProducts`; `FetchLoadingBracket` and `FetchReplacesOnlyOnSuccess` state its request, loading flag and products |
| Dashboard.SearchStep | src/components/ui/Dashboard.tsx:75-79 | `handleSearch`; `SearchCommitsDraft`, `StaleResultsPersist`, `SearchShowsEndpointResults` and `EmptySubmissionIsRejected` state its effect |
| Dashboard.KeywordClickStep | src/components/ui/Dashboard.tsx:81-85 | `handleKeywordClick`; `KeywordClickIsTypeThenSearch` shows it equals typing the keyword and submitting |
| Dashboard.EffectStep | src/components/ui/Dashboard.tsx:91-95 | the effect on `searchQuery`; `EffectGuard` and `TriggersAgree` state when it requests and what |
| Dashboard.Render | src/components/ui/Dashboard.tsx:167-221 | the conditional rendering; `RenderCases` states its four branches as iffs over the state |
| Dashboard.VisibleKeywords | src/components/ui/Dashboard.tsx:150-163 | the keyword badges; `KeywordsShownIffNoQuery` states they are shown exactly when no query is committed |
| Dashboard.CardOf | src/components/ui/Dashboard.tsx:174-216 | one product card; `CardRules` states its details, image and price rules |
| Dashboard.FetchLoadingBracket | src/components/ui/Dashboard.tsx:55-73 | while a fetch waits the spinner shows; afterwards loading is off for every outcome, the request carries the given term, and query and draft are untouched |
| Dashboard.FetchReplacesOnlyOnSuccess | src/components/ui/Dashboard.tsx:58-72 | products become the response data on an ok response and stay as they were on a non-ok response or an exception |
| Dashboard.StaleResultsPersist | src/components/ui/Dashboard.tsx:55-79 | a search that fails or finds nothing keeps the old products and shows them as a grid under the new query |
| Dashboard.StaleResultsAfterNotFound | src/components/ui/Dashboard.tsx:55-79 | a 404 or 500 from the endpoint for a new draft leaves the old cards on the page |
| Dashboard.SearchShowsEndpointResults | src/components/ui/Dashboard.tsx:171-173 | after an ok search the grid shows one card per returned product, at most 20, each product matching the normalised draft |
| Dashboard.SearchCommitsDraft | src/components/ui/Dashboard.tsx:75-79 | handleSearch commits the draft and requests that same string, ending with loading off |
| Dashboard.KeywordClickIsTypeThenSearch | src/components/ui/Dashboard.tsx:75-85 | clicking a keyword equals typing it and submitting; draft, committed query and request are all the keyword |
| Dashboard.EffectGuard | src/components/ui/Dashboard.tsx:91-95 | the effect requests exactly when the committed query is non-empty, and requests that query; otherwise the state is unchanged |
| Dashboard.TriggersAgree | src/components/ui/Dashboard.tsx:75-95 | after a submit, the effect would request the same term as the submit did; for an empty draft only the submit requests |
| Dashboard.EmptySubmissionIsRejected | src/components/ui/Dashboard.tsx:75-79 | submitting an empty draft requests an empty category, which the endpoint rejects with 400; products are kept, no result section shows and the keywords reappear |
| Dashboard.RenderCases | src/components/ui/Dashboard.tsx:167-221 | spinner iff loading; grid iff not loading with a query and products; empty message iff not loading with a query and no products; nothing iff not loading without a query |
| Dashboard.KeywordsShownIffNoQuery | src/components/ui/Dashboard.tsx:150 | the five suggested keywords are shown iff no query is committed |
| Dashboard.SuggestedKeywordsAreValidTerms | src/components/ui/Dashboard.tsx:25-31 | every suggested keyword normalises to a valid term, so clicking one never draws a 400 |
| Dashboard.CardImage | src/components/ui/Dashboard.tsx:180-187 | a card has an image iff the product has images, and it is the first one |
| Dashboard.Cards | src/components/ui/Dashboard.tsx:173 | the grid has one card per product, in product order |
| Dashboard.CardRules | src/components/ui/Dashboard.tsx:180-210 | a card lists the first min(3, n) detail entries, shows the first image only when there is one, and prefixes both prices with the rupee sign |
| Dashboard.StepOf | src/components/ui/Dashboard.tsx:75-95 | the handler an event triggers, with its request; `SearchCommitsDraft`, `KeywordClickIsTypeThenSearch` and `EffectGuard` state each case |
| Dashboard.Received | src/components/ui/Dashboard.tsx:58-67 | the outcomes of the requests a run issued, in order; `GuardedEffectReceivesNothing` shows an effect whose guard fails receives nothing |
| Dashboard.GuardedEffectReceivesNothing | src/components/ui/Dashboard.tsx:91-95 | an effect that runs with no committed query sends no request, receives no outcome and leaves the state unchanged |
| Dashboard.RunShowsLastDelivery | src/components/ui/Dashboard.tsx:55-95 | across any run of events, loading is off between events, and the products are exactly the data of the last successful response to a request the run issued, or the initial ones when there was none |
| Dashboard.InitialScreen | src/components/ui/Dashboard.tsx:50-53 | the freshly mounted page shows neither spinner nor results and offers the keywords |
| Dashboard.Dashboard.constructor | src/components/ui/Dashboard.tsx:49-53 | the component starts with an empty draft and loading off, over the given store |
| Dashboard.Dashboard.SetLocalSearchQuery | src/components/ui/Dashboard.tsx:147 | typing replaces the draft and nothing else |
| Dashboard.Dashboard.BeginFetch | src/components/ui/Dashboard.tsx:57-58 | raises the loading flag and issues the request for the term |
| Dashboard.Dashboard.CompleteFetch | src/components/ui/Dashboard.tsx:59-72 | dispatches setProducts only for delivered data, then lowers the loading flag |
| Dashboard.Dashboard.FetchProducts | src/components/ui/Dashboard.tsx:55-73 | performs exactly FetchStep on the component and store state |
| Dashboard.Dashboard.HandleSearch | src/components/ui/Dashboard.tsx:75-79 | performs exactly SearchStep |
| Dashboard.Dashboard.HandleKeywordClick | src/components/ui/Dashboard.tsx:81-85 | performs exactly KeywordClickStep |
| Dashboard.Dashboard.RunEffect | src/components/ui/Dashboard.tsx:91-95 | performs exactly EffectStep |

## Left out

- scraper.py: retailer HTTP requests, HTML parsing and a bulk insert into the database are all I/O. Its record-shaping function copies a dictionary and has no logic worth stating.
- MongoDB client, database and collection wiring (route.ts:28-34): this is a foreign library and network access. The collection is an in-memory sequence in natural order, and any fault is the `storeFault` flag.
- ProductSearch.FieldMatches: treats the term literally, as a case-insensitive substring. It equals the `$regex` match only for terms without regular-expression metacharacters. A term that is not a valid pattern, such as `(`, makes the query fail and the endpoint answer 500 (route.ts:45-47); the model instead answers 404 or 200 from the substring test.
- Text.Lower: lower-cases ASCII letters only. The source's `toLowerCase` also folds non-ASCII letters. The `trim()` whitespace set is modelled in full.
- Request URL handling: `new URL(request.url)` throwing is not modelled. On the client, `encodeURIComponent` and the server's parameter decoding are assumed to give back the draft unchanged.
- Documents whose searchable fields are missing or not strings: the model gives every product all its fields as strings. Likewise a product without `product_details` (which would make the card throw) is not modelled, and missing `images` is an empty list.
- React and Next.js scheduling: async interleaving, and the effect re-running after a handler has already fetched (a duplicate request). Races between superseded fetches are left out too. Each handler and fetch is one sequential step; `TriggersAgree` only shows that both triggers ask for the same term.
- JSX markup, styling, the Image, Link, Card and Dropdown components, `logout` and `username`: these are presentation, and the user slice is not part of this model.
- `console.log` and `console.error` diagnostics in both TypeScript files.
- The two differing `Product` interfaces (productSlice.ts:3-10 and Dashboard.tsx:33-46): one `Product` record carries the fields the predicate and the card read, and the store holds those records.
