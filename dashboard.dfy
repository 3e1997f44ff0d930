/** The dashboard's non-markup logic: the draft query, the loading flag,
    the fetch and its two handlers, the effect that fetches when the
    committed query changes, and the choice of what the page shows.

    The view state is `ViewState`; the step functions below say what each
    handler does to it, and the `Dashboard` class performs those steps in
    place on its own fields and on the shared `ProductStore`. A network
    round trip is an abstract `FetchOutcome` handed to the step; every
    handler and fetch runs to completion as one sequential step. */
module Dashboard {
  import opened Text
  import opened Catalog
  import opened ProductSlice
  import opened ProductSearch

  const SuggestedKeywords: seq<string> := ["Trackpants", "T-shirts", "Wool", "Socks", "Orange"]

  /** How many `productDetails` entries a card lists. */
  const MaxCardDetails: nat := 3

  const Currency := "₹"

  /** What `fetch` and `response.json()` produce: a 2xx response with its
      product array, a response whose status is not 2xx, or an exception
      (network failure, unparsable body). */
  datatype FetchOutcome = Delivered(data: seq<Product>) | Rejected(status: int) | Thrown

  /** The outcome the dashboard sees when the endpoint answers `r`. */
  function OutcomeOf(r: Response): (o: FetchOutcome)
    ensures o.Delivered? <==> r.Status() == 200
    ensures o.Delivered? ==> o.data == r.products
    ensures o.Rejected? ==> o.status == r.Status()
    ensures !o.Thrown?
  {
    if r.Ok? then Delivered(r.products) else Rejected(r.Status())
  }

  /** The store's product state, the draft in the search box
      (`localSearchQuery`) and `isLoading`. */
  datatype ViewState = ViewState(store: ProductState, draft: string, isLoading: bool)

  const InitialView := ViewState(InitialState, "", false)

  /** A handler's new state and the `category` value of the request it
      issued, if any. */
  datatype Step = Step(after: ViewState, request: Option<string>)

  /** Typing in the search box. */
  function TypeDraft(v: ViewState, text: string): ViewState {
    v.(draft := text)
  }

  /** Dispatching `setSearchQuery(q)`. */
  function CommitQuery(v: ViewState, q: string): ViewState {
    v.(store := Reduce(v.store, SetSearchQuery(q)))
  }

  /** `fetchProducts` up to its `await`: the loading flag is raised. */
  function StartFetch(v: ViewState): ViewState {
    v.(isLoading := true)
  }

  /** `fetchProducts` after its `await`: the products are replaced only
      when the response is ok, and the `finally` clause lowers the flag. */
  function FinishFetch(v: ViewState, outcome: FetchOutcome): ViewState {
    var store := if outcome.Delivered? then Reduce(v.store, SetProducts(outcome.data)) else v.store;
    v.(store := store, isLoading := false)
  }

  function FetchStep(v: ViewState, term: string, outcome: FetchOutcome): Step {
    Step(FinishFetch(StartFetch(v), outcome), Some(term))
  }

  /** `handleSearch`: commit the draft, then fetch it. */
  function SearchStep(v: ViewState, outcome: FetchOutcome): Step {
    FetchStep(CommitQuery(v, v.draft), v.draft, outcome)
  }

  /** `handleKeywordClick(keyword)`: put the keyword in the box, commit it,
      then fetch it. */
  function KeywordClickStep(v: ViewState, keyword: string, outcome: FetchOutcome): Step {
    FetchStep(CommitQuery(TypeDraft(v, keyword), keyword), keyword, outcome)
  }

  /** The effect on `searchQuery`: it fetches only a non-empty query. */
  function EffectStep(v: ViewState, outcome: FetchOutcome): Step {
    if v.store.searchQuery != "" then FetchStep(v, v.store.searchQuery, outcome) else Step(v, None)
  }

  // ---------------------------------------------------------------------
  // What the page shows

  datatype Card = Card(
    title: string,
    image: Option<string>,
    brand: string,
    category: string,
    details: seq<map<string, string>>,
    price: string,
    originalPrice: string,
    discount: string,
    link: string)

  datatype Screen = Spinner | Grid(cards: seq<Card>) | NoProducts | Nothing

  /** The first image, when there is one. */
  function CardImage(p: Product): (image: Option<string>)
    ensures image.Some? <==> p.images != []
    ensures image.Some? ==> image.value == p.images[0]
  {
    if |p.images| > 0 then Some(p.images[0]) else None
  }

  function CardOf(p: Product): Card {
    Card(p.title, CardImage(p), p.brand, p.category, Limit(p.productDetails, MaxCardDetails),
         Currency + p.sellingPrice, Currency + p.actualPrice, "(" + p.discount + ")", p.url)
  }

  /** One card per product, in order. */
  function Cards(products: seq<Product>): (cards: seq<Card>)
    ensures |cards| == |products|
    ensures forall k :: 0 <= k < |products| ==> cards[k] == CardOf(products[k])
  {
    if products == [] then [] else [CardOf(products[0])] + Cards(products[1..])
  }

  /** The conditional rendering below the search form. */
  function Render(v: ViewState): Screen {
    if v.isLoading then Spinner
    else if v.store.searchQuery != "" && |v.store.products| > 0 then Grid(Cards(v.store.products))
    else if v.store.searchQuery != "" then NoProducts
    else Nothing
  }

  /** The keyword badges under the search box. */
  function VisibleKeywords(v: ViewState): seq<string> {
    if v.store.searchQuery == "" then SuggestedKeywords else []
  }

  // ---------------------------------------------------------------------
  // Properties of the transitions

  /** A fetch shows the spinner while it waits and always ends with the
      flag lowered, whatever the outcome; it issues the request it was
      given and does not touch the query or the draft. */
  lemma FetchLoadingBracket(v: ViewState, term: string, outcome: FetchOutcome)
    ensures Render(StartFetch(v)) == Spinner
    ensures var s := FetchStep(v, term, outcome);
            !s.after.isLoading && s.request == Some(term) &&
            s.after.store.searchQuery == v.store.searchQuery && s.after.draft == v.draft
  {
  }

  /** Products are replaced by the response data only when the response is
      ok; after a non-ok response or an exception they are what they were. */
  lemma FetchReplacesOnlyOnSuccess(v: ViewState, term: string, outcome: FetchOutcome)
    ensures FetchStep(v, term, outcome).after.store.products ==
            if outcome.Delivered? then outcome.data else v.store.products
  {
  }

  /** Stale results persist: when a search for a new non-empty query fails
      or finds nothing, the grid keeps showing the previous query's
      products, now under the new query. */
  lemma StaleResultsPersist(v: ViewState, outcome: FetchOutcome)
    requires v.draft != "" && v.store.products != [] && !outcome.Delivered?
    ensures var after := SearchStep(v, outcome).after;
            after.store.searchQuery == v.draft && after.store.products == v.store.products &&
            Render(after) == Grid(Cards(v.store.products))
  {
  }

  /** The same, end to end: a 404 or 500 from the endpoint for the new
      draft leaves the old cards on the page. */
  lemma {:induction false} StaleResultsAfterNotFound(v: ViewState, collection: seq<Product>, storeFault: bool)
    requires v.store.products != []
    requires Get(Some(v.draft), collection, storeFault).NotFound? || Get(Some(v.draft), collection, storeFault).ServerError?
    ensures var after := SearchStep(v, OutcomeOf(Get(Some(v.draft), collection, storeFault))).after;
            after.store.products == v.store.products && Render(after) == Grid(Cards(v.store.products))
  {
    assert v.draft != "" by {
      assert NormalizeTerm(Some(v.draft)).Some?;
    }
    StaleResultsPersist(v, OutcomeOf(Get(Some(v.draft), collection, storeFault)));
  }

  /** A search whose response is ok shows one card per returned product:
      at most twenty, each of them a match for the normalised draft. */
  lemma SearchShowsEndpointResults(v: ViewState, collection: seq<Product>, storeFault: bool)
    requires Get(Some(v.draft), collection, storeFault).Ok?
    ensures var found := Get(Some(v.draft), collection, storeFault).products;
            var screen := Render(SearchStep(v, OutcomeOf(Get(Some(v.draft), collection, storeFault))).after);
            screen == Grid(Cards(found)) && |screen.cards| <= ResultLimit &&
            forall k :: 0 <= k < |found| ==> Matches(found[k], NormalizeTerm(Some(v.draft)).value)
  {
    assert v.draft != "" by {
      assert NormalizeTerm(Some(v.draft)).Some?;
    }
  }

  /** `handleSearch` commits the draft and fetches that same string. */
  lemma SearchCommitsDraft(v: ViewState, outcome: FetchOutcome)
    ensures var s := SearchStep(v, outcome);
            s.after.store.searchQuery == v.draft && s.request == Some(v.draft) &&
            s.after.draft == v.draft && !s.after.isLoading
  {
  }

  /** Clicking a keyword is typing it and submitting: the same request,
      the same committed query, the same final state. */
  lemma KeywordClickIsTypeThenSearch(v: ViewState, keyword: string, outcome: FetchOutcome)
    ensures KeywordClickStep(v, keyword, outcome) == SearchStep(TypeDraft(v, keyword), outcome)
    ensures var s := KeywordClickStep(v, keyword, outcome);
            s.after.draft == keyword && s.after.store.searchQuery == keyword && s.request == Some(keyword)
  {
  }

  /** The effect fetches exactly when the committed query is non-empty, and
      then it fetches that query; otherwise nothing changes. */
  lemma EffectGuard(v: ViewState, outcome: FetchOutcome)
    ensures EffectStep(v, outcome).request.Some? <==> v.store.searchQuery != ""
    ensures EffectStep(v, outcome).request.Some? ==> EffectStep(v, outcome).request == Some(v.store.searchQuery)
    ensures EffectStep(v, outcome).request.None? ==> EffectStep(v, outcome).after == v
  {
  }

  /** After a submit, the effect that reacts to the new query asks for the
      same term as the submit did, unless the draft was empty, in which
      case only the submit issued a request. */
  lemma TriggersAgree(v: ViewState, outcome: FetchOutcome, later: FetchOutcome)
    ensures var s := SearchStep(v, outcome);
            (v.draft != "" ==> EffectStep(s.after, later).request == s.request) &&
            (v.draft == "" ==> EffectStep(s.after, later).request.None?)
  {
  }

  /** Submitting an empty draft still issues a request, with an empty
      `category`; the endpoint answers 400, the products are left as they
      were, and the page shows no result section and the keywords. */
  lemma EmptySubmissionIsRejected(v: ViewState, collection: seq<Product>, storeFault: bool)
    requires v.draft == ""
    ensures Get(Some(v.draft), collection, storeFault) == BadRequest(InvalidTermError)
    ensures var s := SearchStep(v, OutcomeOf(Get(Some(v.draft), collection, storeFault)));
            s.request == Some("") && s.after.store.products == v.store.products &&
            Render(s.after) == Nothing && VisibleKeywords(s.after) == SuggestedKeywords
  {
  }

  /** The four screens: the spinner whenever loading; otherwise the grid for
      a non-empty query with products, the empty message for a non-empty
      query without products, and nothing before any query. Exactly one of
      them applies to every state. */
  lemma RenderCases(v: ViewState)
    ensures Render(v) == Spinner <==> v.isLoading
    ensures Render(v).Grid? <==> !v.isLoading && v.store.searchQuery != "" && v.store.products != []
    ensures Render(v).Grid? ==> Render(v).cards == Cards(v.store.products)
    ensures Render(v) == NoProducts <==> !v.isLoading && v.store.searchQuery != "" && v.store.products == []
    ensures Render(v) == Nothing <==> !v.isLoading && v.store.searchQuery == ""
  {
  }

  /** The five suggested keywords are shown exactly when no query is
      committed. */
  lemma KeywordsShownIffNoQuery(v: ViewState)
    ensures VisibleKeywords(v) == SuggestedKeywords <==> v.store.searchQuery == ""
    ensures v.store.searchQuery != "" ==> VisibleKeywords(v) == []
  {
  }

  /** Every suggested keyword is a valid search term: clicking one never
      draws a 400. */
  lemma {:induction false} SuggestedKeywordsAreValidTerms(k: string)
    requires k in SuggestedKeywords
    ensures NormalizeTerm(Some(k)).Some?
  {
    assert !IsWhitespace(k[0]);
  }

  /** A card lists at most the first three detail entries, shows the first
      image only when there is one, and prefixes both prices with the rupee
      sign. */
  lemma CardRules(p: Product)
    ensures var c := CardOf(p);
            |c.details| <= MaxCardDetails && c.details == p.productDetails[..|c.details|] &&
            (|p.productDetails| >= MaxCardDetails ==> |c.details| == MaxCardDetails) &&
            (|p.productDetails| < MaxCardDetails ==> c.details == p.productDetails) &&
            (c.image.Some? <==> p.images != []) && (c.image.Some? ==> c.image.value == p.images[0]) &&
            c.price == Currency + p.sellingPrice && c.originalPrice == Currency + p.actualPrice
  {
  }

  // ---------------------------------------------------------------------
  // Runs of user events

  /** What the user (and the effect) can do, each with the outcome of the
      fetch it triggers. */
  datatype Event =
    | Type(text: string)
    | Submit(outcome: FetchOutcome)
    | ClickKeyword(keyword: string, outcome: FetchOutcome)
    | EffectRuns(outcome: FetchOutcome)

  /** What handling `e` does: the new state and the request it issued. */
  function StepOf(v: ViewState, e: Event): Step {
    match e
    case Type(text) => Step(TypeDraft(v, text), None)
    case Submit(o) => SearchStep(v, o)
    case ClickKeyword(k, o) => KeywordClickStep(v, k, o)
    case EffectRuns(o) => EffectStep(v, o)
  }

  function Apply(v: ViewState, e: Event): ViewState {
    StepOf(v, e).after
  }

  function Run(v: ViewState, events: seq<Event>): ViewState
    decreases |events|
  {
    if events == [] then v else Run(Apply(v, events[0]), events[1..])
  }

  /** The outcomes of the requests the run actually issued, in order: an
      event's outcome is received only when handling it sent a request, so
      an effect whose guard failed receives nothing. */
  function Received(v: ViewState, events: seq<Event>): seq<FetchOutcome>
    decreases |events|
  {
    if events == [] then []
    else
      (if !events[0].Type? && StepOf(v, events[0]).request.Some? then [events[0].outcome] else []) +
      Received(Apply(v, events[0]), events[1..])
  }

  /** The data of the last `Delivered` outcome in `outcomes`, or `current`
      when there is none. */
  function LastDelivered(outcomes: seq<FetchOutcome>, current: seq<Product>): seq<Product> {
    if outcomes == [] then current
    else if outcomes[|outcomes| - 1].Delivered? then outcomes[|outcomes| - 1].data
    else LastDelivered(outcomes[..|outcomes| - 1], current)
  }

  lemma {:induction false} LastDeliveredConcat(a: seq<FetchOutcome>, b: seq<FetchOutcome>, current: seq<Product>)
    ensures LastDelivered(a + b, current) == LastDelivered(b, LastDelivered(a, current))
    decreases |b|
  {
    if b == [] {
      assert a + b == a;
    } else {
      var n := |b| - 1;
      assert (a + b)[..|a + b| - 1] == a + b[..n];
      assert (a + b)[|a + b| - 1] == b[n];
      LastDeliveredConcat(a, b[..n], current);
    }
  }

  /** The last delivered data is the starting data or the data of one of
      the outcomes. */
  lemma {:induction false} LastDeliveredIsReceived(outcomes: seq<FetchOutcome>, current: seq<Product>)
    ensures LastDelivered(outcomes, current) == current ||
            Delivered(LastDelivered(outcomes, current)) in outcomes
    decreases |outcomes|
  {
    if outcomes != [] {
      var init := outcomes[..|outcomes| - 1];
      if !outcomes[|outcomes| - 1].Delivered? {
        LastDeliveredIsReceived(init, current);
        if LastDelivered(init, current) != current {
          var x := Delivered(LastDelivered(init, current));
          assert x in init;
          var j :| 0 <= j < |init| && init[j] == x;
          assert outcomes[j] == x;
        }
      }
    }
  }

  /** An effect that runs while no query is committed sends no request,
      so its outcome is not received and the products stay as they were. */
  lemma GuardedEffectReceivesNothing(v: ViewState, outcome: FetchOutcome)
    requires v.store.searchQuery == ""
    ensures Received(v, [EffectRuns(outcome)]) == []
    ensures Run(v, [EffectRuns(outcome)]) == v
  {
    assert [EffectRuns(outcome)][1..] == [];
  }

  /** One event, when the spinner is off before it: the spinner is off
      after it, and the products are the last data delivered to it. */
  lemma ApplyShowsLastDelivery(v: ViewState, e: Event)
    requires !v.isLoading
    ensures var u := Apply(v, e);
            var got := if !e.Type? && StepOf(v, e).request.Some? then [e.outcome] else [];
            !u.isLoading && u.store.products == LastDelivered(got, v.store.products)
  {
  }

  /** Between events the spinner is never up, and the products on display
      are the data of the last successful response to a request the run
      issued, or those the run started with when no such response came:
      nothing else ever reaches the grid. */
  lemma {:induction false} RunShowsLastDelivery(v: ViewState, events: seq<Event>)
    requires !v.isLoading
    ensures var w := Run(v, events);
            !w.isLoading && w.store.products == LastDelivered(Received(v, events), v.store.products)
    ensures var w := Run(v, events);
            w.store.products == v.store.products || Delivered(w.store.products) in Received(v, events)
    decreases |events|
  {
    if events != [] {
      var e := events[0];
      var u := Apply(v, e);
      var got := if !e.Type? && StepOf(v, e).request.Some? then [e.outcome] else [];
      ApplyShowsLastDelivery(v, e);
      RunShowsLastDelivery(u, events[1..]);
      assert Received(v, events) == got + Received(u, events[1..]);
      LastDeliveredConcat(got, Received(u, events[1..]), v.store.products);
    }
    LastDeliveredIsReceived(Received(v, events), v.store.products);
  }

  /** The page as mounted: no query, no products, so neither spinner nor
      results, and the keywords are offered. */
  lemma InitialScreen()
    ensures Render(InitialView) == Nothing && VisibleKeywords(InitialView) == SuggestedKeywords
  {
  }

  // ---------------------------------------------------------------------
  // The component

  class Dashboard {
    /** The shared store the component reads and dispatches to. */
    const store: ProductStore
    /** `localSearchQuery`. */
    var draft: string
    var isLoading: bool

    function View(): ViewState
      reads this, store
    {
      ViewState(store.State(), draft, isLoading)
    }

    constructor (store: ProductStore)
      ensures this.store == store
      ensures View() == ViewState(store.State(), "", false)
    {
      this.store := store;
      draft := "";
      isLoading := false;
    }

    /** The search box's `onChange`. */
    method SetLocalSearchQuery(text: string)
      modifies this
      ensures View() == TypeDraft(old(View()), text)
    {
      draft := text;
    }

    /** The part of `fetchProducts` before the response arrives. */
    method BeginFetch(term: string) returns (request: string)
      modifies this
      ensures View() == StartFetch(old(View())) && request == term
    {
      isLoading := true;
      request := term;
    }

    /** The part of `fetchProducts` after the response arrives. */
    method CompleteFetch(outcome: FetchOutcome)
      modifies this, store
      ensures View() == FinishFetch(old(View()), outcome)
    {
      if outcome.Delivered? {
        store.SetProducts(outcome.data);
      }
      isLoading := false;
    }

    method FetchProducts(term: string, outcome: FetchOutcome) returns (request: string)
      modifies this, store
      ensures Step(View(), Some(request)) == FetchStep(old(View()), term, outcome)
    {
      request := BeginFetch(term);
      CompleteFetch(outcome);
    }

    method HandleSearch(outcome: FetchOutcome) returns (request: string)
      modifies this, store
      ensures Step(View(), Some(request)) == SearchStep(old(View()), outcome)
    {
      store.SetSearchQuery(draft);
      request := FetchProducts(draft, outcome);
    }

    method HandleKeywordClick(keyword: string, outcome: FetchOutcome) returns (request: string)
      modifies this, store
      ensures Step(View(), Some(request)) == KeywordClickStep(old(View()), keyword, outcome)
    {
      draft := keyword;
      store.SetSearchQuery(keyword);
      request := FetchProducts(keyword, outcome);
    }

    /** The `useEffect` on `searchQuery`. */
    method RunEffect(outcome: FetchOutcome) returns (request: Option<string>)
      modifies this, store
      ensures Step(View(), request) == EffectStep(old(View()), outcome)
    {
      if store.searchQuery != "" {
        var term := FetchProducts(store.searchQuery, outcome);
        request := Some(term);
      } else {
        request := None;
      }
    }
  }
}
