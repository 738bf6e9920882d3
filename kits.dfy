/** The kit (product bundle) service (src/services/kits.ts): the active-kit
    listing with its order switch, and the lookups by id and by slug, each
    shaping kit and product images into prefixed paths. */
module Kits {
  import opened Wrappers
  import Sorting
  import opened Products

  /** A row of the kit-product join: how many of the product the kit holds. */
  datatype KitProduct = KitProduct(quantity: int, product: Product)

  datatype Kit = Kit(
    id: int,
    slug: string,
    title: string,
    description: Option<string>,
    price: real,
    originalPrice: real,
    discount: real,
    image: Option<string>,
    active: bool,
    createdAt: int,
    products: seq<KitProduct>)

  datatype KitProductSummary = KitProductSummary(id: int, title: string, price: real, quantity: int, image: Option<string>)

  datatype KitSummary = KitSummary(
    id: int,
    slug: string,
    title: string,
    description: Option<string>,
    price: real,
    originalPrice: real,
    discount: real,
    image: Option<string>,
    products: seq<KitProductSummary>)

  datatype KitProductDetail = KitProductDetail(
    id: int,
    title: string,
    price: real,
    description: Option<string>,
    quantity: int,
    image: Option<string>,
    images: seq<string>,
    category: Option<Category>)

  datatype KitDetail = KitDetail(
    id: int,
    slug: string,
    title: string,
    description: Option<string>,
    price: real,
    originalPrice: real,
    discount: real,
    image: Option<string>,
    products: seq<KitProductDetail>)

  // ---------------------------------------------------------------- ordering

  datatype KitOrder = CheapestFirst | DiscountDesc | NewestFirst

  /** The `switch (filters.orderBy)` of getAllKits. */
  function KitOrderOf(orderBy: Option<string>): (o: KitOrder)
    ensures o == CheapestFirst <==> orderBy == Some("price")
    ensures o == NewestFirst <==> orderBy == Some("newest")
    ensures o == DiscountDesc <==> orderBy != Some("price") && orderBy != Some("newest")
  {
    if orderBy == Some("price") then CheapestFirst
    else if orderBy == Some("discount") then DiscountDesc
    else if orderBy == Some("newest") then NewestFirst
    else DiscountDesc
  }

  function KitRank(o: KitOrder): Kit -> real {
    match o
    case CheapestFirst => (k: Kit) => k.price
    case DiscountDesc => (k: Kit) => -k.discount
    case NewestFirst => (k: Kit) => -(k.createdAt as real)
  }

  ghost predicate KitsOrderedBy(r: seq<Kit>, o: KitOrder) {
    match o
    case CheapestFirst => forall i, j | 0 <= i < j < |r| :: r[i].price <= r[j].price
    case DiscountDesc => forall i, j | 0 <= i < j < |r| :: r[i].discount >= r[j].discount
    case NewestFirst => forall i, j | 0 <= i < j < |r| :: r[i].createdAt >= r[j].createdAt
  }

  // ---------------------------------------------------------------- shaping

  /** `kit.image ? KIT_IMAGE_PATH + kit.image : null`: an empty name counts as none. */
  function KitImage(kit: Kit, kitImagePath: string): (r: Option<string>)
    ensures r.Some? <==> kit.image.Some? && kit.image.value != ""
    ensures r.Some? ==> r.value == kitImagePath + kit.image.value
  {
    match kit.image
    case Some(name) => if name != "" then Some(kitImagePath + name) else None
    case None => None
  }

  function KitProductSummaryOf(kp: KitProduct, productImagePath: string): KitProductSummary {
    var item := ListItemOf(kp.product, productImagePath);
    KitProductSummary(item.id, item.title, item.price, kp.quantity, item.image)
  }

  function KitSummaryOf(kit: Kit, kitImagePath: string, productImagePath: string): KitSummary {
    KitSummary(kit.id, kit.slug, kit.title, kit.description, kit.price, kit.originalPrice, kit.discount,
      KitImage(kit, kitImagePath),
      seq(|kit.products|, i requires 0 <= i < |kit.products| => KitProductSummaryOf(kit.products[i], productImagePath)))
  }

  /** `images: { orderBy: { id: "asc" } }`. */
  function ImagesById(images: seq<Image>): seq<Image> {
    Sorting.SortBy(images, (img: Image) => img.id as real)
  }

  function KitProductDetailOf(kp: KitProduct, categories: seq<Category>, productImagePath: string): KitProductDetail {
    var p := kp.product;
    var images := ImagesById(p.images);
    KitProductDetail(p.id, p.title, p.price, p.description, kp.quantity,
      if |images| > 0 then Some(productImagePath + images[0].url) else None,
      PrefixAll(productImagePath, images),
      FindCategory(categories, p.categoryId))
  }

  function KitDetailOf(kit: Kit, categories: seq<Category>, kitImagePath: string, productImagePath: string): KitDetail {
    KitDetail(kit.id, kit.slug, kit.title, kit.description, kit.price, kit.originalPrice, kit.discount,
      KitImage(kit, kitImagePath),
      seq(|kit.products|, i requires 0 <= i < |kit.products| =>
        KitProductDetailOf(kit.products[i], categories, productImagePath)))
  }

  // ---------------------------------------------------------------- queries

  function IsActive(k: Kit): bool {
    k.active
  }

  /** The active kits, in table order. */
  function ActiveKits(kits: seq<Kit>): seq<Kit> {
    Sorting.Filter(kits, IsActive)
  }

  /** The rows `findMany({ where: { active: true }, orderBy, take })` returns. */
  function KitQuery(kits: seq<Kit>, order: KitOrder, limit: Option<nat>): seq<Kit> {
    Sorting.TakeLimit(Sorting.SortBy(ActiveKits(kits), KitRank(order)), limit)
  }

  /** `a` may be listed before `b` in the order `o`. */
  predicate KitComesFirst(a: Kit, b: Kit, o: KitOrder) {
    match o
    case CheapestFirst => a.price <= b.price
    case DiscountDesc => a.discount >= b.discount
    case NewestFirst => a.createdAt >= b.createdAt
  }

  lemma KitRankComesFirst(a: Kit, b: Kit, o: KitOrder)
    requires KitRank(o)(a) <= KitRank(o)(b)
    ensures KitComesFirst(a, b, o)
  {
  }

  /** With a limit, as many active kits as the limit allows or as there are,
      and no active kit left out comes before one listed. */
  lemma KitQueryTakesBest(kits: seq<Kit>, order: KitOrder, n: nat)
    ensures var r := KitQuery(kits, order, Some(n));
      && |r| == (if n < |ActiveKits(kits)| then n else |ActiveKits(kits)|)
      && forall k, l | k in kits && k.active && k !in r && l in r :: KitComesFirst(l, k, order)
  {
    var active := ActiveKits(kits);
    var sorted := Sorting.SortBy(active, KitRank(order));
    var r := Sorting.TakeSigned(sorted, n);
    assert KitQuery(kits, order, Some(n)) == r;
    Sorting.SortedTakeMembers(active, KitRank(order), n);
    Sorting.SortedTakeRanks(active, KitRank(order), n);
    forall k, l | k in kits && k.active && k !in r && l in r
      ensures KitComesFirst(l, k, order)
    {
      assert k in active;
      KitRankComesFirst(l, k, order);
    }
  }

  /** getAllKits. */
  function GetAllKits(kits: seq<Kit>, orderBy: Option<string>, limit: Option<nat>, kitImagePath: string, productImagePath: string)
    : seq<KitSummary>
  {
    var rows := KitQuery(kits, KitOrderOf(orderBy), limit);
    seq(|rows|, i requires 0 <= i < |rows| => KitSummaryOf(rows[i], kitImagePath, productImagePath))
  }

  /** Only active kits are listed, in the requested order; with a limit, as
      many as the limit allows or as there are, and none left out comes
      before one listed; without a limit every active kit is listed. */
  lemma KitQuerySpec(kits: seq<Kit>, order: KitOrder, limit: Option<nat>)
    ensures var r := KitQuery(kits, order, limit);
      && (forall k | k in r :: k in kits && k.active)
      && (limit.Some? ==> |r| <= limit.value)
      && (limit.Some? ==> |r| == (if limit.value < |ActiveKits(kits)| then limit.value else |ActiveKits(kits)|))
      && (limit.Some? ==> forall k, l | k in kits && k.active && k !in r && l in r :: KitComesFirst(l, k, order))
      && KitsOrderedBy(r, order)
      && (limit.None? ==> forall k :: multiset(r)[k] == if k.active then multiset(kits)[k] else 0)
  {
    if limit.Some? {
      KitQueryTakesBest(kits, order, limit.value);
    }
    var active := ActiveKits(kits);
    var sorted := Sorting.SortBy(active, KitRank(order));
    var r := Sorting.TakeLimit(sorted, limit);
    forall k | k in r
      ensures k in kits && k.active
    {
      assert k in multiset(sorted);
    }
    RankedIsOrdered(r, order);
    Sorting.FilterMultiset(kits, IsActive);
  }

  /** Ascending rank is the order each `orderBy` asks for. */
  lemma RankedIsOrdered(r: seq<Kit>, order: KitOrder)
    requires Sorting.SortedBy(r, KitRank(order))
    ensures KitsOrderedBy(r, order)
  {
    forall i, j | 0 <= i < j < |r|
      ensures KitRank(order)(r[i]) <= KitRank(order)(r[j])
    {
    }
  }

  /** What a kit summary promises about the kit it was shaped from. */
  ghost predicate ShapedSummary(s: KitSummary, k: Kit, kitImagePath: string, productImagePath: string) {
    && s.id == k.id && s.slug == k.slug && s.image == KitImage(k, kitImagePath)
    && |s.products| == |k.products|
    && forall i | 0 <= i < |k.products| ::
      && s.products[i].id == k.products[i].product.id
      && s.products[i].quantity == k.products[i].quantity
      && s.products[i].image == ListItemOf(k.products[i].product, productImagePath).image
  }

  lemma SummaryShape(k: Kit, kitImagePath: string, productImagePath: string)
    ensures ShapedSummary(KitSummaryOf(k, kitImagePath, productImagePath), k, kitImagePath, productImagePath)
  {
  }

  lemma KitQueryMembers(kits: seq<Kit>, order: KitOrder, limit: Option<nat>)
    ensures forall k | k in KitQuery(kits, order, limit) :: k in kits && k.active
    ensures limit.Some? ==> |KitQuery(kits, order, limit)| <= limit.value
  {
    KitQuerySpec(kits, order, limit);
  }

  /** The listing is the query's kits one for one and in order, each shaped:
      its image rule, and each of its products with the kit-product quantity
      and the lowest-id image; so each is shaped from an active kit. */
  lemma GetAllKitsSpec(kits: seq<Kit>, orderBy: Option<string>, limit: Option<nat>, kitImagePath: string, productImagePath: string)
    ensures var r := GetAllKits(kits, orderBy, limit, kitImagePath, productImagePath);
      var rows := KitQuery(kits, KitOrderOf(orderBy), limit);
      && |r| == |rows|
      && (forall i | 0 <= i < |r| :: ShapedSummary(r[i], rows[i], kitImagePath, productImagePath))
      && (limit.Some? ==> |r| <= limit.value)
      && forall s | s in r :: exists k | k in kits :: k.active && ShapedSummary(s, k, kitImagePath, productImagePath)
  {
    var rows := KitQuery(kits, KitOrderOf(orderBy), limit);
    KitQueryMembers(kits, KitOrderOf(orderBy), limit);
    var r := GetAllKits(kits, orderBy, limit, kitImagePath, productImagePath);
    forall i | 0 <= i < |r|
      ensures ShapedSummary(r[i], rows[i], kitImagePath, productImagePath)
    {
      SummaryShape(rows[i], kitImagePath, productImagePath);
    }
    forall s | s in r
      ensures exists k | k in kits :: k.active && ShapedSummary(s, k, kitImagePath, productImagePath)
    {
      var n :| 0 <= n < |r| && r[n] == s;
      var k := rows[n];
      assert k in rows;
      SummaryShape(k, kitImagePath, productImagePath);
    }
  }

  /** The first kit in table order that satisfies `match` (`findUnique` on a unique column). */
  function FindKit(kits: seq<Kit>, id: Option<int>, slug: Option<string>): (r: Option<Kit>)
    ensures r.Some? ==> (r.value in kits && r.value.active
      && (id.Some? ==> r.value.id == id.value) && (slug.Some? ==> r.value.slug == slug.value))
    ensures r.None? <==> forall i | 0 <= i < |kits| ::
      !(kits[i].active && (id.Some? ==> kits[i].id == id.value) && (slug.Some? ==> kits[i].slug == slug.value))
  {
    if kits == [] then None
    else
      var k := kits[0];
      if k.active && (id.Some? ==> k.id == id.value) && (slug.Some? ==> k.slug == slug.value) then Some(k)
      else FindKit(kits[1..], id, slug)
  }

  /** getKitById: `findUnique({ where: { id, active: true } })`, shaped. */
  function GetKitById(kits: seq<Kit>, categories: seq<Category>, id: int, kitImagePath: string, productImagePath: string)
    : Option<KitDetail>
  {
    match FindKit(kits, Some(id), None)
    case None => None
    case Some(k) => Some(KitDetailOf(k, categories, kitImagePath, productImagePath))
  }

  /** getKitBySlug: `findUnique({ where: { slug, active: true } })`, shaped. */
  function GetKitBySlug(kits: seq<Kit>, categories: seq<Category>, slug: string, kitImagePath: string, productImagePath: string)
    : Option<KitDetail>
  {
    match FindKit(kits, None, Some(slug))
    case None => None
    case Some(k) => Some(KitDetailOf(k, categories, kitImagePath, productImagePath))
  }

  /** What a kit detail promises about the kit it was shaped from: its image
      rule, and for each product the quantity, every image prefixed in
      ascending image-id order, and the first of them as the main image. */
  ghost predicate ShapedDetail(d: KitDetail, k: Kit, kitImagePath: string, productImagePath: string) {
    && d.id == k.id && d.slug == k.slug && d.image == KitImage(k, kitImagePath)
    && |d.products| == |k.products|
    && forall i | 0 <= i < |k.products| ::
      var p := k.products[i].product;
      var images := d.products[i].images;
      var sorted := ImagesById(p.images);
      && d.products[i].id == p.id
      && d.products[i].quantity == k.products[i].quantity
      && |images| == |sorted| == |p.images|
      && multiset(sorted) == multiset(p.images)
      && (forall a, b | 0 <= a < b < |sorted| :: sorted[a].id <= sorted[b].id)
      && (forall a | 0 <= a < |sorted| :: images[a] == productImagePath + sorted[a].url)
      && (d.products[i].image.Some? <==> |images| > 0)
      && (d.products[i].image.Some? ==> d.products[i].image.value == images[0])
  }

  lemma DetailShape(k: Kit, categories: seq<Category>, kitImagePath: string, productImagePath: string)
    ensures ShapedDetail(KitDetailOf(k, categories, kitImagePath, productImagePath), k, kitImagePath, productImagePath)
  {
    var d := KitDetailOf(k, categories, kitImagePath, productImagePath);
    forall i | 0 <= i < |k.products|
      ensures var p := k.products[i].product;
        && |ImagesById(p.images)| == |p.images|
        && multiset(ImagesById(p.images)) == multiset(p.images)
        && forall a, b | 0 <= a < b < |ImagesById(p.images)| :: ImagesById(p.images)[a].id <= ImagesById(p.images)[b].id
    {
      var p := k.products[i].product;
      var sorted := ImagesById(p.images);
      assert |sorted| == |p.images| by {
        assert |multiset(sorted)| == |multiset(p.images)|;
      }
      forall a, b | 0 <= a < b < |sorted|
        ensures sorted[a].id <= sorted[b].id
      {
        assert (sorted[a].id as real) <= (sorted[b].id as real);
      }
    }
  }

  /** The lookups return nothing exactly when no active kit has that id (slug),
      and otherwise a detail shaped from an active kit with that id (slug). */
  lemma KitLookupSpec(kits: seq<Kit>, categories: seq<Category>, id: int, slug: string, kitImagePath: string, productImagePath: string)
    ensures GetKitById(kits, categories, id, kitImagePath, productImagePath).None?
      <==> forall i | 0 <= i < |kits| :: !(kits[i].active && kits[i].id == id)
    ensures GetKitBySlug(kits, categories, slug, kitImagePath, productImagePath).None?
      <==> forall i | 0 <= i < |kits| :: !(kits[i].active && kits[i].slug == slug)
    ensures match GetKitById(kits, categories, id, kitImagePath, productImagePath)
      case None => true
      case Some(d) => exists k | k in kits :: k.active && k.id == id && ShapedDetail(d, k, kitImagePath, productImagePath)
    ensures match GetKitBySlug(kits, categories, slug, kitImagePath, productImagePath)
      case None => true
      case Some(d) => exists k | k in kits :: k.active && k.slug == slug && ShapedDetail(d, k, kitImagePath, productImagePath)
  {
    var byId := FindKit(kits, Some(id), None);
    if byId.Some? {
      DetailShape(byId.value, categories, kitImagePath, productImagePath);
    }
    var bySlug := FindKit(kits, None, Some(slug));
    if bySlug.Some? {
      DetailShape(bySlug.value, categories, kitImagePath, productImagePath);
    }
  }
}
