/** The client-side product state container: two fields, `products` and
    `searchQuery`, and exactly two mutations, each replacing one field.

    `Reduce` is the reducer as a function on state values; `ProductStore`
    is the store object whose fields the reducers assign in place, and its
    two methods are specified by `Reduce`. */
module ProductSlice {
  import opened Catalog

  datatype ProductState = ProductState(products: seq<Product>, searchQuery: string)

  /** The two actions the slice exports. */
  datatype Action = SetProducts(payload: seq<Product>) | SetSearchQuery(query: string)

  const InitialState := ProductState([], "")

  function Reduce(s: ProductState, a: Action): ProductState {
    match a
    case SetProducts(p) => s.(products := p)
    case SetSearchQuery(q) => s.(searchQuery := q)
  }

  /** The state after dispatching `actions` one after the other. */
  function ReduceAll(s: ProductState, actions: seq<Action>): ProductState
    decreases |actions|
  {
    if actions == [] then s else ReduceAll(Reduce(s, actions[0]), actions[1..])
  }

  /** The payload of the last `SetProducts` in `actions`, or `current` when
      there is none. */
  function LastProducts(actions: seq<Action>, current: seq<Product>): seq<Product> {
    if actions == [] then current
    else match actions[|actions| - 1]
      case SetProducts(p) => p
      case SetSearchQuery(_) => LastProducts(actions[..|actions| - 1], current)
  }

  /** The payload of the last `SetSearchQuery` in `actions`, or `current`
      when there is none. */
  function LastQuery(actions: seq<Action>, current: string): string {
    if actions == [] then current
    else match actions[|actions| - 1]
      case SetSearchQuery(q) => q
      case SetProducts(_) => LastQuery(actions[..|actions| - 1], current)
  }

  // ---------------------------------------------------------------------
  // Properties of the reducer

  /** The initial state holds no products and an empty query. */
  lemma InitialStateIsEmpty()
    ensures InitialState.products == [] && InitialState.searchQuery == ""
  {
  }

  /** Each action writes its own field and leaves the other one alone. */
  lemma ActionFrames(s: ProductState, p: seq<Product>, q: string)
    ensures Reduce(s, SetProducts(p)) == ProductState(p, s.searchQuery)
    ensures Reduce(s, SetSearchQuery(q)) == ProductState(s.products, q)
  {
  }

  /** Applying the same action twice is applying it once. */
  lemma ActionIdempotent(s: ProductState, a: Action)
    ensures Reduce(Reduce(s, a), a) == Reduce(s, a)
  {
  }

  /** Of two writes to the same field, the later one wins. */
  lemma LastWriteWins(s: ProductState, p1: seq<Product>, p2: seq<Product>, q1: string, q2: string)
    ensures Reduce(Reduce(s, SetProducts(p1)), SetProducts(p2)) == Reduce(s, SetProducts(p2))
    ensures Reduce(Reduce(s, SetSearchQuery(q1)), SetSearchQuery(q2)) == Reduce(s, SetSearchQuery(q2))
  {
  }

  /** The two actions write disjoint fields, so they commute. */
  lemma ActionsCommute(s: ProductState, p: seq<Product>, q: string)
    ensures Reduce(Reduce(s, SetProducts(p)), SetSearchQuery(q)) ==
            Reduce(Reduce(s, SetSearchQuery(q)), SetProducts(p))
  {
  }

  lemma {:induction false} ReduceAllSnoc(s: ProductState, actions: seq<Action>, a: Action)
    ensures ReduceAll(s, actions + [a]) == Reduce(ReduceAll(s, actions), a)
    decreases |actions|
  {
    if actions != [] {
      assert (actions + [a])[1..] == actions[1..] + [a];
      ReduceAllSnoc(Reduce(s, actions[0]), actions[1..], a);
    }
  }

  /** After any sequence of dispatches every field holds the payload of the
      latest action that wrote it: reads always reflect the latest
      mutation, and nothing else influences the state. */
  lemma {:induction false} LatestMutationWins(s: ProductState, actions: seq<Action>)
    ensures ReduceAll(s, actions) == ProductState(LastProducts(actions, s.products), LastQuery(actions, s.searchQuery))
    decreases |actions|
  {
    if actions != [] {
      var init := actions[..|actions| - 1];
      assert actions == init + [actions[|actions| - 1]];
      ReduceAllSnoc(s, init, actions[|actions| - 1]);
      LatestMutationWins(s, init);
    }
  }

  /** The store object. */
  class ProductStore {
    var products: seq<Product>
    var searchQuery: string

    function State(): ProductState
      reads this
    {
      ProductState(products, searchQuery)
    }

    constructor ()
      ensures State() == InitialState
    {
      products := [];
      searchQuery := "";
    }

    method SetProducts(payload: seq<Product>)
      modifies this
      ensures products == payload && searchQuery == old(searchQuery)
      ensures State() == Reduce(old(State()), Action.SetProducts(payload))
    {
      products := payload;
    }

    method SetSearchQuery(query: string)
      modifies this
      ensures searchQuery == query && products == old(products)
      ensures State() == Reduce(old(State()), Action.SetSearchQuery(query))
    {
      searchQuery := query;
    }
  }
}
