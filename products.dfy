/** The product catalogue service (src/services/product.ts). The product
    table is a sequence of rows in table order; each Prisma query is a
    filter, a sort and a take over it, and the results are shaped into list
    items or details whose image names carry the product-image path prefix. */
module Products {
  import opened Wrappers
  import opened Strings
  import opened JsValues
  import Sorting

  datatype Image = Image(id: int, url: string)

  /** One (category metadata, value) pair attached to a product. */
  datatype ProductMetadata = ProductMetadata(categoryMetadataId: string, metadataValueId: string)

  datatype Product = Product(
    id: int,
    title: string,
    price: real,
    description: Option<string>,
    categoryId: int,
    images: seq<Image>,
    viewsCount: int,
    salesCount: int,
    metadata: seq<ProductMetadata>)

  datatype Category = Category(id: int, name: string, slug: string)

  /** A row of a product listing: the first image (lowest image id) as a path, or none. */
  datatype ListItem = ListItem(id: int, title: string, price: real, image: Option<string>)

  datatype ProductDetail = ProductDetail(
    id: int,
    title: string,
    price: real,
    description: Option<string>,
    categoryId: int,
    images: seq<string>)

  datatype ProductWithCategory = ProductWithCategory(product: ProductDetail, category: Option<Category>)

  ghost predicate UniqueIds(rows: seq<Product>) {
    forall i, j | 0 <= i < |rows| && 0 <= j < |rows| :: rows[i].id == rows[j].id ==> i == j
  }

  /** `findUnique({ where: { id } })`. */
  function FindProduct(rows: seq<Product>, id: int): (r: Option<Product>)
    ensures r.Some? ==> r.value in rows && r.value.id == id
    ensures r.None? <==> forall i | 0 <= i < |rows| :: rows[i].id != id
  {
    if rows == [] then None
    else if rows[0].id == id then Some(rows[0])
    else FindProduct(rows[1..], id)
  }

  /** With unique ids, the row found is the one at the index holding that id. */
  lemma {:induction false} FindProductAt(rows: seq<Product>, k: nat)
    requires UniqueIds(rows) && k < |rows|
    ensures FindProduct(rows, rows[k].id) == Some(rows[k])
  {
    if k > 0 {
      assert rows[0].id != rows[k].id;
      var tail := rows[1..];
      assert UniqueIds(tail) by {
        forall i, j | 0 <= i < |tail| && 0 <= j < |tail| && tail[i].id == tail[j].id
          ensures i == j
        {
          assert rows[i + 1].id == rows[j + 1].id;
        }
      }
      FindProductAt(tail, k - 1);
    }
  }

  // ---------------------------------------------------------------- ordering

  datatype ProductOrder = ViewsDesc | SalesDesc | PriceAsc

  /** The `switch (filters.order)` of getAllProducts. */
  function ProductOrderOf(order: Option<string>): (o: ProductOrder)
    ensures o == SalesDesc <==> order == Some("selling")
    ensures o == PriceAsc <==> order == Some("price")
    ensures o == ViewsDesc <==> order != Some("selling") && order != Some("price")
  {
    if order == Some("views") then ViewsDesc
    else if order == Some("selling") then SalesDesc
    else if order == Some("price") then PriceAsc
    else ViewsDesc
  }

  /** The sort key of an order, ascending (a descending key is negated). */
  function ProductRank(o: ProductOrder): Product -> real {
    match o
    case ViewsDesc => (p: Product) => -(p.viewsCount as real)
    case SalesDesc => (p: Product) => -(p.salesCount as real)
    case PriceAsc => (p: Product) => p.price
  }

  /** What it means for `r` to be in the order `o`. */
  ghost predicate OrderedBy(r: seq<Product>, o: ProductOrder) {
    match o
    case ViewsDesc => forall i, j | 0 <= i < j < |r| :: r[i].viewsCount >= r[j].viewsCount
    case SalesDesc => forall i, j | 0 <= i < j < |r| :: r[i].salesCount >= r[j].salesCount
    case PriceAsc => forall i, j | 0 <= i < j < |r| :: r[i].price <= r[j].price
  }

  /** `a` may be listed before `b` in the order `o`. */
  predicate ComesFirst(a: Product, b: Product, o: ProductOrder) {
    match o
    case ViewsDesc => a.viewsCount >= b.viewsCount
    case SalesDesc => a.salesCount >= b.salesCount
    case PriceAsc => a.price <= b.price
  }

  /** A row left out of a sorted `take` never comes before a row kept. */
  lemma TakenComeFirst(s: seq<Product>, o: ProductOrder, n: nat)
    ensures var r := Sorting.TakeSigned(Sorting.SortBy(s, ProductRank(o)), n);
      forall x, y | x in s && x !in r && y in r :: ComesFirst(y, x, o)
  {
    var r := Sorting.TakeSigned(Sorting.SortBy(s, ProductRank(o)), n);
    Sorting.SortedTakeRanks(s, ProductRank(o), n);
    forall x, y | x in s && x !in r && y in r
      ensures ComesFirst(y, x, o)
    {
      RankComesFirst(y, x, o);
    }
  }

  lemma RankComesFirst(a: Product, b: Product, o: ProductOrder)
    requires ProductRank(o)(a) <= ProductRank(o)(b)
    ensures ComesFirst(a, b, o)
  {
  }

  lemma SortedByRank(r: seq<Product>, o: ProductOrder)
    requires Sorting.SortedBy(r, ProductRank(o))
    ensures OrderedBy(r, o)
  {
    forall i, j | 0 <= i < j < |r|
      ensures ProductRank(o)(r[i]) <= ProductRank(o)(r[j])
    {
    }
  }

  // -------------------------------------------------------- metadata filters

  /** `{ metadata: { some: { categoryMetadataId, metadataValueId: { in: valueIds } } } }`. */
  datatype MetaFilter = MetaFilter(categoryMetadataId: string, valueIds: seq<string>)

  function TrimAll(parts: seq<string>): (r: seq<string>)
    ensures |r| == |parts|
  {
    seq(|parts|, i requires 0 <= i < |parts| => Trim(parts[i]))
  }

  /** `value.split("|").map((v) => v.trim()).filter(Boolean)`. */
  function SplitValues(value: string): (ids: seq<string>)
    ensures forall x :: x in ids <==> x != "" && x in TrimAll(Split(value, '|'))
  {
    Sorting.Filter(TrimAll(Split(value, '|')), (x: string) => x != "")
  }

  /** Every value id is non-empty, has no `|` and no surrounding whitespace. */
  lemma SplitValuesClean(value: string, x: string)
    requires x in SplitValues(value)
    ensures x != "" && '|' !in x && Trim(x) == x
  {
    var parts := Split(value, '|');
    var j :| 0 <= j < |parts| && x == TrimAll(parts)[j];
    TrimProperties(parts[j]);
    TrimIdempotent(parts[j]);
    var k: nat :| OccursAt(x, parts[j], k);
  }

  /** A value with no separator yields its trimmed self, or nothing when blank. */
  lemma SplitValuesSingle(value: string)
    requires '|' !in value
    ensures SplitValues(value) == if Trim(value) == "" then [] else [Trim(value)]
  {
    SplitWithoutSeparator(value, '|');
    var t := Trim(value);
    assert TrimAll([value]) == [t];
    var keep := (x: string) => x != "";
    assert [t][1..] == [];
    assert Sorting.Filter([t], keep) == if t != "" then [t] else [];
  }

  /** The filter one `for..in` entry contributes: none for a non-string value
      or a value with no ids. */
  function FilterFor(entry: (string, JsValue)): (r: seq<MetaFilter>)
    ensures |r| <= 1
  {
    match entry.1
    case JsString(v) =>
      var ids := SplitValues(v);
      if |ids| == 0 then [] else [MetaFilter(entry.0, ids)]
    case _ => []
  }

  /** The filters built from a sequence of metadata entries, in entry order. */
  function FiltersOfEntries(entries: seq<(string, JsValue)>): (r: seq<MetaFilter>)
    ensures |r| <= |entries|
  {
    if entries == [] then []
    else FiltersOfEntries(entries[..|entries| - 1]) + FilterFor(entries[|entries| - 1])
  }

  /** Only a plain object is read; `null`, arrays and scalars add no filter. */
  function MetaFiltersOf(metadata: Option<JsValue>): seq<MetaFilter> {
    match metadata
    case Some(JsObject(entries)) => FiltersOfEntries(entries)
    case _ => []
  }

  /** Each built filter comes from a string-valued entry with that key and has
      exactly that entry's non-empty ids, so none is ever empty. */
  lemma {:induction false} FiltersOfEntriesSound(entries: seq<(string, JsValue)>, f: MetaFilter)
    requires f in FiltersOfEntries(entries)
    ensures |f.valueIds| > 0
    ensures exists e | e in entries :: e.0 == f.categoryMetadataId && e.1.JsString? && f.valueIds == SplitValues(e.1.s)
  {
    var last := entries[|entries| - 1];
    var init := entries[..|entries| - 1];
    if f in FilterFor(last) {
      assert last in entries;
    } else {
      FiltersOfEntriesSound(init, f);
      var e :| e in init && e.0 == f.categoryMetadataId && e.1.JsString? && f.valueIds == SplitValues(e.1.s);
      assert e in entries;
    }
  }

  /** Every string-valued entry with at least one id contributes its filter. */
  lemma {:induction false} FiltersOfEntriesComplete(entries: seq<(string, JsValue)>, k: nat)
    requires k < |entries| && entries[k].1.JsString? && |SplitValues(entries[k].1.s)| > 0
    ensures MetaFilter(entries[k].0, SplitValues(entries[k].1.s)) in FiltersOfEntries(entries)
  {
    if k < |entries| - 1 {
      var init := entries[..|entries| - 1];
      FiltersOfEntriesComplete(init, k);
    }
  }

  /** One more entry adds its filter, if any, at the end. */
  lemma FiltersOfEntriesStep(entries: seq<(string, JsValue)>, i: nat)
    requires i < |entries|
    ensures FiltersOfEntries(entries[..i + 1]) == FiltersOfEntries(entries[..i]) + FilterFor(entries[i])
  {
    assert entries[..i + 1][..i] == entries[..i];
  }

  /** The `for..in` loop of getAllProducts that collects `metaFilters`. */
  method BuildMetaFilters(metadata: Option<JsValue>) returns (filters: seq<MetaFilter>)
    ensures filters == MetaFiltersOf(metadata)
  {
    filters := [];
    if metadata.Some? && metadata.value.JsObject? {
      var entries := metadata.value.entries;
      var i := 0;
      while i < |entries|
        invariant 0 <= i <= |entries|
        invariant filters == FiltersOfEntries(entries[..i])
      {
        FiltersOfEntriesStep(entries, i);
        var (key, value) := entries[i];
        if value.JsString? {
          var ids := SplitValues(value.s);
          if |ids| != 0 {
            assert FilterFor(entries[i]) == [MetaFilter(key, ids)];
            filters := filters + [MetaFilter(key, ids)];
          } else {
            assert FilterFor(entries[i]) == [];
            assert filters + [] == filters;
          }
        } else {
          assert FilterFor(entries[i]) == [];
          assert filters + [] == filters;
        }
        i := i + 1;
      }
      assert entries[..|entries|] == entries;
    }
  }

  predicate HasMetadata(p: Product, f: MetaFilter) {
    exists m | m in p.metadata :: m.categoryMetadataId == f.categoryMetadataId && m.metadataValueId in f.valueIds
  }

  /** `where.AND = metaFilters`; an empty list puts no restriction. */
  predicate MatchesAll(p: Product, filters: seq<MetaFilter>) {
    forall f | f in filters :: HasMetadata(p, f)
  }

  // ---------------------------------------------------------------- listing

  /** `images: { take: 1, orderBy: { id: "asc" } }`: the image with the lowest id. */
  function LowestIdImage(images: seq<Image>): (r: Option<Image>)
    ensures r.None? <==> images == []
    ensures r.Some? ==> r.value in images && forall i | 0 <= i < |images| :: r.value.id <= images[i].id
  {
    if images == [] then None
    else
      match LowestIdImage(images[1..])
      case None => Some(images[0])
      case Some(best) => if best.id < images[0].id then Some(best) else Some(images[0])
  }

  function ListItemOf(p: Product, imagePath: string): ListItem {
    ListItem(p.id, p.title, p.price,
      match LowestIdImage(p.images)
      case Some(img) => Some(imagePath + img.url)
      case None => None)
  }

  function ShapeList(rows: seq<Product>, imagePath: string): (r: seq<ListItem>)
    ensures |r| == |rows|
  {
    seq(|rows|, i requires 0 <= i < |rows| => ListItemOf(rows[i], imagePath))
  }

  /** The rows `where` selects, in table order. */
  function MatchingRows(rows: seq<Product>, filters: seq<MetaFilter>): seq<Product> {
    Sorting.Filter(rows, (p: Product) => MatchesAll(p, filters))
  }

  /** The rows `findMany` returns for getAllProducts. */
  function ProductQuery(rows: seq<Product>, filters: seq<MetaFilter>, order: ProductOrder, limit: Option<nat>): seq<Product> {
    Sorting.TakeLimit(Sorting.SortBy(MatchingRows(rows, filters), ProductRank(order)), limit)
  }

  /** With a limit, the query returns as many matching rows as the limit
      allows or as there are, and no matching row it leaves out comes before
      one it returns. */
  lemma ProductQueryTakesBest(rows: seq<Product>, filters: seq<MetaFilter>, order: ProductOrder, n: nat)
    ensures var r := ProductQuery(rows, filters, order, Some(n));
      && |r| == (if n < |MatchingRows(rows, filters)| then n else |MatchingRows(rows, filters)|)
      && forall p, q | p in rows && MatchesAll(p, filters) && p !in r && q in r :: ComesFirst(q, p, order)
  {
    var matching := MatchingRows(rows, filters);
    var sorted := Sorting.SortBy(matching, ProductRank(order));
    assert Sorting.TakeLimit(sorted, Some(n)) == Sorting.TakeSigned(sorted, n);
    Sorting.SortedTakeMembers(matching, ProductRank(order), n);
    TakenComeFirst(matching, order, n);
  }

  /** A row is returned only if it satisfies every filter, in the requested
      order; with a limit, as many rows as the limit allows or as match, and
      none left out comes before one returned; without a limit every
      matching row is returned, as often as it occurs. */
  lemma ProductQuerySpec(rows: seq<Product>, filters: seq<MetaFilter>, order: ProductOrder, limit: Option<nat>)
    ensures var r := ProductQuery(rows, filters, order, limit);
      && (forall p | p in r :: p in rows && MatchesAll(p, filters))
      && (limit.Some? ==> |r| <= limit.value)
      && (limit.Some? ==> |r| == (if limit.value < |MatchingRows(rows, filters)| then limit.value
                                  else |MatchingRows(rows, filters)|))
      && (limit.Some? ==> forall p, q | p in rows && MatchesAll(p, filters) && p !in r && q in r :: ComesFirst(q, p, order))
      && OrderedBy(r, order)
      && (limit.None? ==> forall p :: multiset(r)[p] == if MatchesAll(p, filters) then multiset(rows)[p] else 0)
  {
    if limit.Some? {
      ProductQueryTakesBest(rows, filters, order, limit.value);
    }
    var keep := (p: Product) => MatchesAll(p, filters);
    var matching := MatchingRows(rows, filters);
    var sorted := Sorting.SortBy(matching, ProductRank(order));
    var r := Sorting.TakeLimit(sorted, limit);
    forall p | p in r
      ensures p in rows && MatchesAll(p, filters)
    {
      assert p in multiset(sorted);
    }
    assert Sorting.SortedBy(r, ProductRank(order));
    SortedByRank(r, order);
    Sorting.FilterMultiset(rows, keep);
  }

  /** getAllProducts: builds the metadata filters, runs the query and shapes each row. */
  method GetAllProducts(rows: seq<Product>, metadata: Option<JsValue>, order: Option<string>, limit: Option<nat>, imagePath: string)
    returns (items: seq<ListItem>)
    ensures items == ShapeList(ProductQuery(rows, MetaFiltersOf(metadata), ProductOrderOf(order), limit), imagePath)
    ensures limit.Some? ==> |items| <= limit.value
  {
    var filters := BuildMetaFilters(metadata);
    var found := ProductQuery(rows, filters, ProductOrderOf(order), limit);
    ProductQuerySpec(rows, filters, ProductOrderOf(order), limit);
    items := ShapeList(found, imagePath);
  }

  /** A list item's image is the prefixed URL of the product's lowest-id image, or none. */
  lemma ListItemImage(p: Product, imagePath: string)
    ensures ListItemOf(p, imagePath).image.None? <==> p.images == []
    ensures ListItemOf(p, imagePath).image.Some? ==>
      exists img | img in p.images ::
        ListItemOf(p, imagePath).image.value == imagePath + img.url
        && forall other | other in p.images :: img.id <= other.id
  {
    var best := LowestIdImage(p.images);
    if best.Some? {
      var img := best.value;
      forall other | other in p.images
        ensures img.id <= other.id
      {
        var i :| 0 <= i < |p.images| && p.images[i] == other;
      }
    }
  }

  // ---------------------------------------------------------------- details

  function PrefixAll(imagePath: string, images: seq<Image>): (r: seq<string>)
    ensures |r| == |images|
    ensures forall i | 0 <= i < |images| :: r[i] == imagePath + images[i].url
  {
    seq(|images|, i requires 0 <= i < |images| => imagePath + images[i].url)
  }

  function DetailOf(p: Product, imagePath: string): ProductDetail {
    ProductDetail(p.id, p.title, p.price, p.description, p.categoryId, PrefixAll(imagePath, p.images))
  }

  /** getProduct: none for an unknown id; otherwise the row with that id, every
      image prefixed, in table order. */
  function GetProduct(rows: seq<Product>, id: int, imagePath: string): (r: Option<ProductDetail>)
    ensures r.None? <==> forall i | 0 <= i < |rows| :: rows[i].id != id
    ensures r.Some? ==> exists p | p in rows ::
      && p.id == id && r.value.id == id
      && r.value.title == p.title && r.value.price == p.price
      && r.value.description == p.description && r.value.categoryId == p.categoryId
      && |r.value.images| == |p.images|
      && forall i | 0 <= i < |p.images| :: r.value.images[i] == imagePath + p.images[i].url
  {
    match FindProduct(rows, id)
    case None => None
    case Some(p) => Some(DetailOf(p, imagePath))
  }

  function FindCategory(categories: seq<Category>, id: int): (r: Option<Category>)
    ensures r.Some? ==> r.value in categories && r.value.id == id
    ensures r.None? <==> forall i | 0 <= i < |categories| :: categories[i].id != id
  {
    if categories == [] then None
    else if categories[0].id == id then Some(categories[0])
    else FindCategory(categories[1..], id)
  }

  /** getProductWithCategory: the same detail as getProduct, plus the product's category. */
  function GetProductWithCategory(rows: seq<Product>, categories: seq<Category>, id: int, imagePath: string)
    : (r: Option<ProductWithCategory>)
    ensures r.None? <==> GetProduct(rows, id, imagePath).None?
    ensures r.Some? ==> (r.value.product == GetProduct(rows, id, imagePath).value
      && r.value.category == FindCategory(categories, r.value.product.categoryId))
  {
    match FindProduct(rows, id)
    case None => None
    case Some(p) => Some(ProductWithCategory(DetailOf(p, imagePath), FindCategory(categories, p.categoryId)))
  }

  // ------------------------------------------------------- related products

  function ViewsRank(): Product -> real {
    ProductRank(ViewsDesc)
  }

  /** The other products of a category, in table order. */
  function SameCategoryOthers(rows: seq<Product>, id: int, categoryId: int): seq<Product> {
    Sorting.Filter(rows, (q: Product) => q.categoryId == categoryId && q.id != id)
  }

  /** getProductsFromSameCategory: none for an unknown id; otherwise up to
      `limit` other products of its category, most viewed first. */
  function GetProductsFromSameCategory(rows: seq<Product>, id: int, limit: nat): seq<Product> {
    match FindProduct(rows, id)
    case None => []
    case Some(p) => Sorting.TakeSigned(Sorting.SortBy(SameCategoryOthers(rows, id, p.categoryId), ViewsRank()), limit)
  }

  /** For a known product, as many related products as the limit allows or
      as there are, and none left out has more views than one returned. */
  lemma RelatedProductsTakeBest(rows: seq<Product>, id: int, limit: nat)
    requires FindProduct(rows, id).Some?
    ensures var c := FindProduct(rows, id).value.categoryId;
      var r := GetProductsFromSameCategory(rows, id, limit);
      && |r| == (if limit < |SameCategoryOthers(rows, id, c)| then limit else |SameCategoryOthers(rows, id, c)|)
      && forall x, y | x in rows && x.categoryId == c && x.id != id && x !in r && y in r :: y.viewsCount >= x.viewsCount
  {
    var c := FindProduct(rows, id).value.categoryId;
    var same := SameCategoryOthers(rows, id, c);
    var r := Sorting.TakeSigned(Sorting.SortBy(same, ViewsRank()), limit);
    assert GetProductsFromSameCategory(rows, id, limit) == r;
    Sorting.SortedTakeMembers(same, ViewsRank(), limit);
    TakenComeFirst(same, ViewsDesc, limit);
    forall x, y | x in rows && x.categoryId == c && x.id != id && x !in r && y in r
      ensures y.viewsCount >= x.viewsCount
    {
      assert x in same;
      assert ComesFirst(y, x, ViewsDesc);
    }
  }

  /** Related products are other products of the same category, most viewed
      first; there are as many as the limit allows or as exist, and none
      left out has more views than one returned. */
  lemma RelatedProductsSpec(rows: seq<Product>, id: int, limit: nat)
    ensures var r := GetProductsFromSameCategory(rows, id, limit);
      && (FindProduct(rows, id).None? ==> r == [])
      && |r| <= limit
      && OrderedBy(r, ViewsDesc)
      && (forall q | q in r :: q in rows && q.id != id && q.categoryId == FindProduct(rows, id).value.categoryId)
      && (FindProduct(rows, id).Some? ==>
            var c := FindProduct(rows, id).value.categoryId;
            && |r| == (if limit < |SameCategoryOthers(rows, id, c)| then limit else |SameCategoryOthers(rows, id, c)|)
            && forall x, y | x in rows && x.categoryId == c && x.id != id && x !in r && y in r ::
                 y.viewsCount >= x.viewsCount)
  {
    var r := GetProductsFromSameCategory(rows, id, limit);
    match FindProduct(rows, id)
    case None =>
    case Some(p) =>
      RelatedProductsTakeBest(rows, id, limit);
      var sorted := Sorting.SortBy(SameCategoryOthers(rows, id, p.categoryId), ViewsRank());
      forall q | q in r
        ensures q in rows && q.id != id && q.categoryId == p.categoryId
      {
        assert q in multiset(sorted);
      }
      SortedByRank(r, ViewsDesc);
  }

  function RelatedListing(rows: seq<Product>, id: int, limit: nat, imagePath: string): seq<ListItem> {
    ShapeList(GetProductsFromSameCategory(rows, id, limit), imagePath)
  }

  // ----------------------------------------------------------- view counter

  /** The table after `update({ where: { id }, data: { viewsCount: { increment: 1 } } })`. */
  function WithViewIncremented(rows: seq<Product>, id: int): (r: seq<Product>)
    ensures |r| == |rows|
    ensures forall i | 0 <= i < |rows| ::
      r[i].viewsCount == rows[i].viewsCount + (if rows[i].id == id then 1 else 0)
    ensures forall i | 0 <= i < |rows| :: r[i] == rows[i].(viewsCount := r[i].viewsCount)
  {
    seq(|rows|, i requires 0 <= i < |rows| =>
      if rows[i].id == id then rows[i].(viewsCount := rows[i].viewsCount + 1) else rows[i])
  }

  /** The increment touches nothing a detail or listing shows: every product
      reads the same before and after. */
  lemma {:induction false} IncrementKeepsDetails(rows: seq<Product>, id: int, k: int, imagePath: string)
    ensures GetProduct(WithViewIncremented(rows, id), k, imagePath) == GetProduct(rows, k, imagePath)
  {
    if rows != [] {
      var r := WithViewIncremented(rows, id);
      assert r[1..] == WithViewIncremented(rows[1..], id);
      IncrementKeepsDetails(rows[1..], id, k, imagePath);
      assert r[0].id == rows[0].id;
      assert DetailOf(r[0], imagePath) == DetailOf(rows[0], imagePath);
    }
  }

  /** The product table, updated in place by incrementProductView. */
  class ProductTable {
    var rows: seq<Product>

    ghost predicate Valid()
      reads this
    {
      UniqueIds(rows)
    }

    constructor (initial: seq<Product>)
      requires UniqueIds(initial)
      ensures Valid() && rows == initial
    {
      rows := initial;
    }

    /** incrementProductView: raises the view count of product `id` by one
        and changes nothing else. `updated` is false when there is no such
        row (Prisma's update then throws "record not found"). */
    method IncrementProductView(id: int) returns (updated: bool)
      requires Valid()
      modifies this
      ensures Valid()
      ensures updated <==> exists i | 0 <= i < |old(rows)| :: old(rows)[i].id == id
      ensures rows == WithViewIncremented(old(rows), id)
      ensures forall i | 0 <= i < |rows| ::
        && rows[i].viewsCount == old(rows)[i].viewsCount + (if old(rows)[i].id == id then 1 else 0)
        && rows[i].(viewsCount := 0) == old(rows)[i].(viewsCount := 0)
    {
      updated := exists i | 0 <= i < |rows| :: rows[i].id == id;
      rows := WithViewIncremented(rows, id);
    }
  }
}
