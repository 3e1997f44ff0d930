/** The `GET /api/products?category=<term>` endpoint: normalise the term,
    reject an empty one, match it against five text fields of every product,
    keep at most twenty matches, and map the outcome to a status code.

    The document store is an in-memory sequence in its natural order, and a
    fault anywhere in reaching or querying it (connection, query, cursor) is
    the flag `storeFault`. */
module ProductSearch {
  import opened Text
  import opened Catalog

  const ResultLimit: nat := 20
  const InvalidTermError := "Invalid search term"
  const NoProductsMessage := "No products found"
  const FetchFailedError := "Failed to fetch products"

  /** The four JSON responses the endpoint sends. */
  datatype Response =
    | BadRequest(error: string)
    | NotFound(message: string)
    | Ok(products: seq<Product>)
    | ServerError(error: string)
  {
    function Status(): int {
      match this
      case BadRequest(_) => 400
      case NotFound(_) => 404
      case Ok(_) => 200
      case ServerError(_) => 500
    }

    /** The body is an `{ error }` object (as opposed to `{ message }` or a
        product array). */
    predicate HasErrorBody() {
      BadRequest? || ServerError?
    }
  }

  /** `searchParams.get('category')?.trim().toLowerCase()` followed by the
      falsiness test: an absent parameter and an empty result are both
      `None`, anything else is the term used for matching. */
  function NormalizeTerm(raw: Option<string>): (t: Option<string>)
    ensures t.None? <==> raw.None? || AllWhitespace(raw.value)
    ensures t.Some? ==> t.value != [] && !IsWhitespace(t.value[0]) && !IsWhitespace(t.value[|t.value| - 1])
    ensures t.Some? ==> forall k :: 0 <= k < |t.value| ==> !IsUpper(t.value[k])
    ensures t.Some? ==> exists u, i :: StrippedAt(raw.value, u, i) && t.value == Lower(u)
  {
    match raw
    case None => None
    case Some(s) =>
      var term := Lower(Trim(s));
      if term == [] then None else Some(term)
  }

  /** `{ field: { $regex: term, $options: 'i' } }`. The term is read as a
      literal string, so this is case-insensitive substring containment
      for every term; it agrees with the regular-expression match only for
      terms without regular-expression metacharacters. */
  predicate FieldMatches(field: string, term: string) {
    Contains(Lower(field), Lower(term))
  }

  /** The five fields of the `$or`, in the order the query lists them. */
  function SearchFields(p: Product): seq<string> {
    [p.category, p.subCategory, p.title, p.description, p.brand]
  }

  /** The `$or` over a list of fields, evaluated left to right. */
  function AnyFieldMatches(fields: seq<string>, term: string): (b: bool)
    ensures b <==> exists k :: 0 <= k < |fields| && FieldMatches(fields[k], term)
  {
    if fields == [] then false
    else FieldMatches(fields[0], term) || AnyFieldMatches(fields[1..], term)
  }

  predicate Matches(p: Product, term: string) {
    AnyFieldMatches(SearchFields(p), term)
  }

  predicate IsSubsequence<T(==)>(a: seq<T>, b: seq<T>) {
    a == [] || (b != [] && ((a[0] == b[0] && IsSubsequence(a[1..], b[1..])) || IsSubsequence(a, b[1..])))
  }

  /** `collection.find(query)`: the matching documents, each with its
      multiplicity, and no others, in collection order. */
  function Filter(collection: seq<Product>, term: string): (r: seq<Product>)
    ensures forall k :: 0 <= k < |r| ==> Matches(r[k], term)
    ensures forall p :: multiset(r)[p] == if Matches(p, term) then multiset(collection)[p] else 0
    ensures IsSubsequence(r, collection)
  {
    if collection == [] then []
    else
      assert collection == [collection[0]] + collection[1..];
      if Matches(collection[0], term) then [collection[0]] + Filter(collection[1..], term)
      else Filter(collection[1..], term)
  }

  /** `.limit(n)`: the first `n` elements, or all of them when there are
      fewer. */
  function Limit<T>(s: seq<T>, n: nat): (r: seq<T>)
    ensures |r| <= n && |r| <= |s| && r == s[..|r|]
    ensures |s| >= n ==> |r| == n
    ensures |s| < n ==> r == s
  {
    if |s| <= n then s else s[..n]
  }

  /** The endpoint. */
  function Get(raw: Option<string>, collection: seq<Product>, storeFault: bool): (r: Response)
    ensures r.BadRequest? <==> NormalizeTerm(raw).None?
    ensures r.ServerError? <==> NormalizeTerm(raw).Some? && storeFault
    ensures r.Ok? ==> 0 < |r.products| <= ResultLimit
    ensures r.Ok? ==> forall k :: 0 <= k < |r.products| ==> Matches(r.products[k], NormalizeTerm(raw).value)
  {
    match NormalizeTerm(raw)
    case None => BadRequest(InvalidTermError)
    case Some(term) =>
      if storeFault then ServerError(FetchFailedError)
      else
        var found := Limit(Filter(collection, term), ResultLimit);
        if |found| == 0 then NotFound(NoProductsMessage) else Ok(found)
  }

  // ---------------------------------------------------------------------
  // Properties of the endpoint

  /** An absent, empty or whitespace-only parameter is answered with 400 and
      the error body, whatever the collection holds and whether or not the
      store would fault: the store is never consulted. */
  lemma InvalidTermIsBadRequest(raw: Option<string>, collection: seq<Product>, storeFault: bool)
    requires raw.None? || AllWhitespace(raw.value)
    ensures Get(raw, collection, storeFault) == BadRequest(InvalidTermError)
    ensures Get(raw, collection, storeFault).Status() == 400 && Get(raw, collection, storeFault).HasErrorBody()
  {
  }

  /** The answer depends on the parameter only through the normalised term. */
  lemma SameTermSameResponse(a: Option<string>, b: Option<string>, collection: seq<Product>, storeFault: bool)
    requires NormalizeTerm(a) == NormalizeTerm(b)
    ensures Get(a, collection, storeFault) == Get(b, collection, storeFault)
  {
  }

  lemma {:induction false} NormalizeIgnoresCase(a: string, b: string)
    requires Lower(a) == Lower(b)
    ensures NormalizeTerm(Some(a)) == NormalizeTerm(Some(b))
  {
    LowerTrimCommute(a);
    LowerTrimCommute(b);
  }

  /** Two parameters that differ only in letter case get the same answer. */
  lemma {:induction false} CaseInsensitiveParameter(a: string, b: string, collection: seq<Product>, storeFault: bool)
    requires Lower(a) == Lower(b)
    ensures Get(Some(a), collection, storeFault) == Get(Some(b), collection, storeFault)
  {
    NormalizeIgnoresCase(a, b);
    SameTermSameResponse(Some(a), Some(b), collection, storeFault);
  }

  /** Whitespace around the parameter does not change the answer. */
  lemma {:induction false} PaddedParameter(pre: string, s: string, post: string, collection: seq<Product>, storeFault: bool)
    requires AllWhitespace(pre) && AllWhitespace(post)
    ensures Get(Some(pre + s + post), collection, storeFault) == Get(Some(s), collection, storeFault)
  {
    TrimPadded(pre, s, post);
    SameTermSameResponse(Some(pre + s + post), Some(s), collection, storeFault);
  }

  /** A product matches iff one of its five searchable fields contains the
      term, ignoring case. */
  lemma MatchesSomeField(p: Product, term: string)
    ensures Matches(p, term) <==>
      FieldMatches(p.category, term) || FieldMatches(p.subCategory, term) ||
      FieldMatches(p.title, term) || FieldMatches(p.description, term) ||
      FieldMatches(p.brand, term)
  {
    var fs := SearchFields(p);
    assert fs[0] == p.category && fs[1] == p.subCategory && fs[2] == p.title;
    assert fs[3] == p.description && fs[4] == p.brand;
  }

  /** Reordering the disjuncts of the `$or` does not change the outcome. */
  lemma {:induction false} DisjunctOrderIrrelevant(fields: seq<string>, reordered: seq<string>, term: string)
    requires multiset(fields) == multiset(reordered)
    ensures AnyFieldMatches(fields, term) == AnyFieldMatches(reordered, term)
  {
    forall f | f in fields ensures f in reordered {
      assert f in multiset(fields);
    }
    forall f | f in reordered ensures f in fields {
      assert f in multiset(reordered);
    }
    if AnyFieldMatches(fields, term) {
      var k :| 0 <= k < |fields| && FieldMatches(fields[k], term);
      assert fields[k] in fields;
      var j :| 0 <= j < |reordered| && reordered[j] == fields[k];
    }
    if AnyFieldMatches(reordered, term) {
      var k :| 0 <= k < |reordered| && FieldMatches(reordered[k], term);
      assert reordered[k] in reordered;
      var j :| 0 <= j < |fields| && fields[j] == reordered[k];
    }
  }

  lemma {:induction false} SubsequencePrefix<T>(a: seq<T>, b: seq<T>, n: nat)
    requires IsSubsequence(a, b) && n <= |a|
    ensures IsSubsequence(a[..n], b)
    decreases |b|
  {
    if n > 0 {
      assert a != [] && b != [];
      if a[0] == b[0] && IsSubsequence(a[1..], b[1..]) {
        SubsequencePrefix(a[1..], b[1..], n - 1);
        assert a[..n][1..] == a[1..][..n - 1];
      } else {
        SubsequencePrefix(a, b[1..], n);
      }
    }
  }

  /** A 200 answer holds the matches in collection order: exactly the first
      twenty when there are at least twenty, all of them otherwise. */
  lemma {:induction false} OkHoldsLeadingMatches(raw: Option<string>, collection: seq<Product>, storeFault: bool)
    requires Get(raw, collection, storeFault).Ok?
    ensures var found := Get(raw, collection, storeFault).products;
            var matches := Filter(collection, NormalizeTerm(raw).value);
            IsSubsequence(found, collection) &&
            (|matches| >= ResultLimit ==> |found| == ResultLimit && found == matches[..ResultLimit]) &&
            (|matches| < ResultLimit ==> found == matches)
  {
    var matches := Filter(collection, NormalizeTerm(raw).value);
    var found := Get(raw, collection, storeFault).products;
    SubsequencePrefix(matches, collection, |found|);
  }

  lemma {:induction false} NoMatchesIffEmptyFilter(collection: seq<Product>, term: string)
    ensures Filter(collection, term) == [] <==> forall k :: 0 <= k < |collection| ==> !Matches(collection[k], term)
  {
    if k :| 0 <= k < |collection| && Matches(collection[k], term) {
      var p := collection[k];
      assert p in multiset(collection);
      assert multiset(Filter(collection, term))[p] > 0;
    }
  }

  /** For a valid term and a healthy store: no match at all gives 404 with
      the informational `{ message }` body; at least one match gives 200. */
  lemma {:induction false} NotFoundIffNoMatch(raw: Option<string>, collection: seq<Product>)
    requires NormalizeTerm(raw).Some?
    ensures var r := Get(raw, collection, false);
            (r == NotFound(NoProductsMessage) <==>
               forall k :: 0 <= k < |collection| ==> !Matches(collection[k], NormalizeTerm(raw).value)) &&
            (r.Ok? <==> exists k :: 0 <= k < |collection| && Matches(collection[k], NormalizeTerm(raw).value)) &&
            (r.NotFound? ==> r.Status() == 404 && !r.HasErrorBody())
  {
    NoMatchesIffEmptyFilter(collection, NormalizeTerm(raw).value);
  }

  /** A store fault for a valid term gives 500 with the generic error body
      and no products. */
  lemma StoreFaultIsServerError(raw: Option<string>, collection: seq<Product>)
    requires NormalizeTerm(raw).Some?
    ensures Get(raw, collection, true) == ServerError(FetchFailedError)
    ensures Get(raw, collection, true).Status() == 500
  {
  }
}
