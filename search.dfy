/** The search handler (src/controllers/search.ts): a guard on the query
    text, a `limit` read with `parseInt`, a case-insensitive substring
    search over product titles and over active kits' titles and
    descriptions, and absolute image URLs built from fixed media folders. */
module Search {
  import opened Wrappers
  import opened Strings
  import opened JsNumbers
  import Sorting
  import opened Products
  import opened Kits

  datatype SearchProduct = SearchProduct(id: int, title: string, price: real, image: Option<string>)

  datatype SearchKitProduct = SearchKitProduct(id: int, title: string, price: real, quantity: int, image: Option<string>)

  datatype SearchKit = SearchKit(
    id: int,
    slug: string,
    title: string,
    price: real,
    originalPrice: real,
    discount: real,
    image: Option<string>,
    products: seq<SearchKitProduct>)

  datatype SearchResult = SearchResult(products: seq<SearchProduct>, kits: seq<SearchKit>, total: int)

  const DefaultLimit: int := 10
  const ProductMediaFolder: string := "media/products/"
  const KitMediaFolder: string := "media/kits/"

  /** `parseInt(req.query.limit) || 10`: `NaN` (an absent or non-numeric
      parameter) and `0` fall back to 10; any other integer, negative ones
      included, is used as it is. */
  function SearchLimit(limit: Option<string>): (n: int)
    ensures n != 0
    ensures limit.None? ==> n == DefaultLimit
    ensures limit.Some? && (ParseInt(limit.value).None? || ParseInt(limit.value) == Some(0)) ==> n == DefaultLimit
    ensures limit.Some? && ParseInt(limit.value).Some? && ParseInt(limit.value).value != 0 ==>
      n == ParseInt(limit.value).value
  {
    match limit
    case None => DefaultLimit
    case Some(text) =>
      match ParseInt(text)
      case None => DefaultLimit
      case Some(v) => if v == 0 then DefaultLimit else v
  }

  /** A limit written as a positive integer is read back as that integer. */
  lemma SearchLimitOfNumber(k: nat)
    requires k > 0
    ensures SearchLimit(Some(NatToString(k))) == k
  {
    ParseNatToString(k);
  }

  /** `getAbsoluteImgUrl(path)`: the server's base URL, a slash, the path. */
  function AbsoluteImgUrl(baseUrl: string, path: string): string {
    baseUrl + "/" + path
  }

  /** `images: { take: 1 }` with no order, then `images[0]?.url ? … : null`:
      the first image in table order, when its name is not empty. */
  function FirstImageUrl(images: seq<Image>, baseUrl: string): (r: Option<string>)
    ensures r.Some? <==> |images| > 0 && images[0].url != ""
    ensures r.Some? ==> r.value == baseUrl + "/" + ProductMediaFolder + images[0].url
  {
    if |images| > 0 && images[0].url != "" then Some(AbsoluteImgUrl(baseUrl, ProductMediaFolder + images[0].url))
    else None
  }

  /** Kit images: the kit's own image name under the kit folder, when not empty. */
  function KitImageUrl(kit: Kit, baseUrl: string): (r: Option<string>)
    ensures r.Some? <==> kit.image.Some? && kit.image.value != ""
    ensures r.Some? ==> r.value == baseUrl + "/" + KitMediaFolder + kit.image.value
  {
    match kit.image
    case Some(name) => if name != "" then Some(AbsoluteImgUrl(baseUrl, KitMediaFolder + name)) else None
    case None => None
  }

  /** `contains: term, mode: "insensitive"` on one column. */
  predicate ContainsInsensitive(text: string, term: string) {
    Contains(Lower(text), Lower(term))
  }

  predicate ProductMatches(p: Product, term: string) {
    ContainsInsensitive(p.title, term)
  }

  predicate KitMatches(k: Kit, term: string) {
    && k.active
    && (ContainsInsensitive(k.title, term) || (k.description.Some? && ContainsInsensitive(k.description.value, term)))
  }

  function SalesRank(): Product -> real {
    ProductRank(SalesDesc)
  }

  /** The products whose title contains `term`, in table order. */
  function MatchingProducts(products: seq<Product>, term: string): seq<Product> {
    Sorting.Filter(products, (p: Product) => ProductMatches(p, term))
  }

  /** The kits that match `term`, in table order. */
  function MatchingKits(kits: seq<Kit>, term: string): seq<Kit> {
    Sorting.Filter(kits, (k: Kit) => KitMatches(k, term))
  }

  /** The product rows found for `term`: matching titles, best selling first, `take: limit`. */
  function FoundProducts(products: seq<Product>, term: string, limit: int): seq<Product> {
    Sorting.TakeSigned(Sorting.SortBy(MatchingProducts(products, term), SalesRank()), limit)
  }

  /** The kit rows found for `term`, in table order, `take: limit`. */
  function FoundKits(kits: seq<Kit>, term: string, limit: int): seq<Kit> {
    Sorting.TakeSigned(MatchingKits(kits, term), limit)
  }

  function SearchProductOf(p: Product, baseUrl: string): SearchProduct {
    SearchProduct(p.id, p.title, p.price, FirstImageUrl(p.images, baseUrl))
  }

  function SearchKitProductOf(kp: KitProduct, baseUrl: string): SearchKitProduct {
    SearchKitProduct(kp.product.id, kp.product.title, kp.product.price, kp.quantity, FirstImageUrl(kp.product.images, baseUrl))
  }

  function SearchKitOf(k: Kit, baseUrl: string): SearchKit {
    SearchKit(k.id, k.slug, k.title, k.price, k.originalPrice, k.discount, KitImageUrl(k, baseUrl),
      seq(|k.products|, i requires 0 <= i < |k.products| => SearchKitProductOf(k.products[i], baseUrl)))
  }

  /** The search handler's JSON response: empty for a missing query or one
      shorter than two characters once trimmed; otherwise the products and
      kits found for the trimmed, lower-cased query, each shaped, and their
      total count. */
  function SearchHandler(q: Option<string>, limitParam: Option<string>, products: seq<Product>, kits: seq<Kit>, baseUrl: string)
    : (r: SearchResult)
    ensures q.None? || |Trim(q.value)| < 2 ==> r == SearchResult([], [], 0)
    ensures r.total == |r.products| + |r.kits|
    ensures q.Some? && |Trim(q.value)| >= 2 ==>
      var ps := FoundProducts(products, Lower(Trim(q.value)), SearchLimit(limitParam));
      && |r.products| == |ps|
      && forall i | 0 <= i < |ps| :: r.products[i] == SearchProductOf(ps[i], baseUrl)
    ensures q.Some? && |Trim(q.value)| >= 2 ==>
      var ks := FoundKits(kits, Lower(Trim(q.value)), SearchLimit(limitParam));
      && |r.kits| == |ks|
      && forall i | 0 <= i < |ks| :: r.kits[i] == SearchKitOf(ks[i], baseUrl)
  {
    if q.None? || q.value == "" || |Trim(q.value)| < 2 then SearchResult([], [], 0)
    else
      var term := Lower(Trim(q.value));
      var limit := SearchLimit(limitParam);
      ShapedResult(FoundProducts(products, term, limit), FoundKits(kits, term, limit), baseUrl)
  }

  /** The response for the rows found: each row shaped, in order, and the count. */
  function ShapedResult(ps: seq<Product>, ks: seq<Kit>, baseUrl: string): (r: SearchResult)
    ensures |r.products| == |ps| && forall i | 0 <= i < |ps| :: r.products[i] == SearchProductOf(ps[i], baseUrl)
    ensures |r.kits| == |ks| && forall i | 0 <= i < |ks| :: r.kits[i] == SearchKitOf(ks[i], baseUrl)
    ensures r.total == |ps| + |ks|
  {
    var shapedProducts := seq(|ps|, i requires 0 <= i < |ps| => SearchProductOf(ps[i], baseUrl));
    var shapedKits := seq(|ks|, i requires 0 <= i < |ks| => SearchKitOf(ks[i], baseUrl));
    SearchResult(shapedProducts, shapedKits, |shapedProducts| + |shapedKits|)
  }

  /** Products found are title matches, best selling first: as many as the
      limit's magnitude allows or as match, all of them when they fit; a
      positive limit keeps the best sellers, a negative one the worst. */
  lemma FoundProductsSpec(products: seq<Product>, term: string, limit: int)
    ensures var r := FoundProducts(products, term, limit);
      var all := MatchingProducts(products, term);
      && (forall p | p in r :: p in products && ProductMatches(p, term))
      && |r| == (if |all| <= Sorting.Magnitude(limit) then |all| else Sorting.Magnitude(limit))
      && (|all| <= Sorting.Magnitude(limit) ==> forall p | p in products && ProductMatches(p, term) :: p in r)
      && (limit >= 0 ==> forall p, q | p in products && ProductMatches(p, term) && p !in r && q in r ::
            q.salesCount >= p.salesCount)
      && (limit < 0 ==> forall p, q | p in products && ProductMatches(p, term) && p !in r && q in r ::
            p.salesCount >= q.salesCount)
      && OrderedBy(r, SalesDesc)
  {
    var all := MatchingProducts(products, term);
    var sorted := Sorting.SortBy(all, SalesRank());
    var r := Sorting.TakeSigned(sorted, limit);
    Sorting.TakeSignedSubsequence(sorted, limit, SalesRank());
    forall p | p in r
      ensures p in products && ProductMatches(p, term)
    {
      assert p in multiset(sorted);
    }
    FoundProductsTake(products, term, limit);
    SortedByRank(r, SalesDesc);
  }

  /** How many products `take` keeps, and which. */
  lemma FoundProductsTake(products: seq<Product>, term: string, limit: int)
    ensures var r := FoundProducts(products, term, limit);
      var all := MatchingProducts(products, term);
      && |r| == (if |all| <= Sorting.Magnitude(limit) then |all| else Sorting.Magnitude(limit))
      && (|all| <= Sorting.Magnitude(limit) ==> forall p | p in products && ProductMatches(p, term) :: p in r)
      && (limit >= 0 ==> forall p, q | p in products && ProductMatches(p, term) && p !in r && q in r ::
            q.salesCount >= p.salesCount)
      && (limit < 0 ==> forall p, q | p in products && ProductMatches(p, term) && p !in r && q in r ::
            p.salesCount >= q.salesCount)
  {
    var all := MatchingProducts(products, term);
    var r := Sorting.TakeSigned(Sorting.SortBy(all, SalesRank()), limit);
    Sorting.SortedTakeMembers(all, SalesRank(), limit);
    Sorting.SortedTakeRanks(all, SalesRank(), limit);
    forall p | p in products && ProductMatches(p, term)
      ensures p in all
    {
    }
    forall p, q | p in products && ProductMatches(p, term) && p !in r && q in r
      ensures limit >= 0 ==> q.salesCount >= p.salesCount
      ensures limit < 0 ==> p.salesCount >= q.salesCount
    {
      assert p in all;
      if limit >= 0 {
        assert SalesRank()(q) <= SalesRank()(p);
        RankComesFirst(q, p, SalesDesc);
      } else {
        assert SalesRank()(p) <= SalesRank()(q);
        RankComesFirst(p, q, SalesDesc);
      }
    }
  }

  /** Kits found are active and match on title or description, in table
      order: as many as the limit's magnitude allows or as match, the first
      ones for a positive limit and the last ones for a negative one, all of
      them when they fit. */
  lemma FoundKitsSpec(kits: seq<Kit>, term: string, limit: int)
    ensures var r := FoundKits(kits, term, limit);
      var all := MatchingKits(kits, term);
      && (forall k | k in r :: k in kits && k.active
            && (ContainsInsensitive(k.title, term) || (k.description.Some? && ContainsInsensitive(k.description.value, term))))
      && |r| == (if |all| <= Sorting.Magnitude(limit) then |all| else Sorting.Magnitude(limit))
      && (limit >= 0 ==> r == all[..|r|])
      && (limit < 0 ==> r == all[|all| - |r|..])
      && (|all| <= Sorting.Magnitude(limit) ==> forall k | k in kits && KitMatches(k, term) :: k in r)
  {
    var all := MatchingKits(kits, term);
    Sorting.TakeSignedSubsequence(all, limit, (k: Kit) => 0.0);
    forall k | k in kits && KitMatches(k, term)
      ensures k in all
    {
    }
  }

  /** With a valid query, every product in the response is shaped from a
      product whose title contains the trimmed, lower-cased query. */
  lemma SearchProductsMatch(q: string, limitParam: Option<string>, products: seq<Product>, kits: seq<Kit>, baseUrl: string, k: nat)
    requires |Trim(q)| >= 2
    requires k < |SearchHandler(Some(q), limitParam, products, kits, baseUrl).products|
    ensures exists p | p in products ::
      && ContainsInsensitive(p.title, Lower(Trim(q)))
      && SearchHandler(Some(q), limitParam, products, kits, baseUrl).products[k] == SearchProductOf(p, baseUrl)
  {
    var term := Lower(Trim(q));
    var ps := FoundProducts(products, term, SearchLimit(limitParam));
    FoundProductsSpec(products, term, SearchLimit(limitParam));
    assert ps[k] in ps;
  }
}
