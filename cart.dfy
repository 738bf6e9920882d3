/** The cart endpoints (src/controllers/cart.ts): `cartMount` looks up each
    requested id and keeps the products that exist; the shipping endpoint
    answers a fixed quote. The request schemas are not part of this model:
    a body or query they reject arrives here as `None`. */
module Cart {
  import opened Wrappers
  import opened Products
  import Search
  import Shipping

  datatype MountedProduct = MountedProduct(id: int, title: string, price: real, image: Option<string>)

  datatype CartMountResponse = CartMountInvalid(status: int, error: string) | CartMounted(products: seq<MountedProduct>)

  datatype ShippingResponse = ShippingInvalid(status: int, error: string) | ShippingQuote(zipcode: string, cost: int, days: int)

  /** `product.images[0] ? getAbsoluteImgUrl(product.images[0]) : null`, on
      the already prefixed image paths `getProduct` returns. */
  function MountedImage(images: seq<string>, baseUrl: string): (r: Option<string>)
    ensures r.Some? <==> |images| > 0 && images[0] != ""
    ensures r.Some? ==> r.value == baseUrl + "/" + images[0]
  {
    if |images| > 0 && images[0] != "" then Some(Search.AbsoluteImgUrl(baseUrl, images[0])) else None
  }

  /** What one id contributes: its product, or nothing when there is none.
      The lookup is the one `getProduct` makes: the row search, then the
      detail with its prefixed images. */
  function MountOne(rows: seq<Product>, id: int, imagePath: string, baseUrl: string): (r: seq<MountedProduct>)
    ensures |r| <= 1
    ensures r == [] <==> forall i | 0 <= i < |rows| :: rows[i].id != id
  {
    match FindProduct(rows, id)
    case None => []
    case Some(p) =>
      var detail := DetailOf(p, imagePath);
      [MountedProduct(detail.id, detail.title, detail.price, MountedImage(detail.images, baseUrl))]
  }

  /** The products the loop collects, in the order of the ids. */
  function MountedProducts(rows: seq<Product>, ids: seq<int>, imagePath: string, baseUrl: string)
    : (r: seq<MountedProduct>)
    ensures |r| <= |ids|
  {
    if ids == [] then []
    else MountedProducts(rows, ids[..|ids| - 1], imagePath, baseUrl) + MountOne(rows, ids[|ids| - 1], imagePath, baseUrl)
  }

  /** Mounting works id by id, so order and repetitions of the ids are kept. */
  lemma {:induction false} MountedProductsAppend(rows: seq<Product>, a: seq<int>, b: seq<int>, imagePath: string, baseUrl: string)
    ensures MountedProducts(rows, a + b, imagePath, baseUrl)
      == MountedProducts(rows, a, imagePath, baseUrl) + MountedProducts(rows, b, imagePath, baseUrl)
  {
    if b == [] {
      assert a + b == a;
    } else {
      var b' := b[..|b| - 1];
      assert (a + b)[..|a + b| - 1] == a + b';
      assert (a + b)[|a + b| - 1] == b[|b| - 1];
      MountedProductsAppend(rows, a, b', imagePath, baseUrl);
    }
  }

  /** Every mounted product is a stored product that was asked for, with its
      own name and price. */
  lemma {:induction false} MountedProductsExist(rows: seq<Product>, ids: seq<int>, imagePath: string, baseUrl: string,
                                                m: MountedProduct)
    requires m in MountedProducts(rows, ids, imagePath, baseUrl)
    ensures m.id in ids
    ensures exists p | p in rows :: p.id == m.id && p.title == m.title && p.price == m.price
  {
    var front := ids[..|ids| - 1];
    if m in MountedProducts(rows, front, imagePath, baseUrl) {
      MountedProductsExist(rows, front, imagePath, baseUrl, m);
      assert forall x | x in front :: x in ids;
    }
  }

  /** An id with a product is mounted as that product; one without is skipped. */
  lemma MountSingle(rows: seq<Product>, id: int, imagePath: string, baseUrl: string)
    ensures MountedProducts(rows, [id], imagePath, baseUrl) == []
      <==> forall i | 0 <= i < |rows| :: rows[i].id != id
    ensures MountedProducts(rows, [id], imagePath, baseUrl) != [] ==>
      var detail := GetProduct(rows, id, imagePath).value;
      MountedProducts(rows, [id], imagePath, baseUrl)
        == [MountedProduct(id, detail.title, detail.price, MountedImage(detail.images, baseUrl))]
  {
    assert [id][..0] == [];
  }

  /** `cartMount`: 400 for a body the schema rejects, otherwise the loop over the ids. */
  method CartMount(rows: seq<Product>, ids: Option<seq<int>>, imagePath: string, baseUrl: string)
    returns (response: CartMountResponse)
    ensures ids.None? ==> response == CartMountInvalid(400, "Invalid parameters")
    ensures ids.Some? ==> response == CartMounted(MountedProducts(rows, ids.value, imagePath, baseUrl))
  {
    if ids.None? {
      return CartMountInvalid(400, "Invalid parameters");
    }
    var requested := ids.value;
    var products: seq<MountedProduct> := [];
    var i := 0;
    while i < |requested|
      invariant 0 <= i <= |requested|
      invariant products == MountedProducts(rows, requested[..i], imagePath, baseUrl)
    {
      assert requested[..i + 1][..i] == requested[..i];
      var product := GetProduct(rows, requested[i], imagePath);
      if product.Some? {
        var p := product.value;
        products := products + [MountedProduct(p.id, p.title, p.price, MountedImage(p.images, baseUrl))];
      }
      i := i + 1;
    }
    assert requested[..|requested|] == requested;
    response := CartMounted(products);
  }

  /** `calculateShipping` of the cart routes: 400 for a query the schema
      rejects, otherwise the zipcode echoed with a fixed cost of 7 and 3 days. */
  function CalculateShippingEndpoint(zipcode: Option<string>): (r: ShippingResponse)
    ensures r.ShippingInvalid? <==> zipcode.None?
    ensures r.ShippingInvalid? ==> r.status == 400 && r.error == "Invalid parameters"
    ensures r.ShippingQuote? ==> r.zipcode == zipcode.value && r.cost == 7 && r.days == 3
  {
    match zipcode
    case None => ShippingInvalid(400, "Invalid parameters")
    case Some(z) => ShippingQuote(z, 7, 3)
  }

  /** The fixed quote is the Southeast rate of the shipping service, and it
      differs from what the service would quote for any address outside that
      zone: the route never asks the service. */
  lemma FixedQuoteIsSoutheastRate(zipcode: string, viaCep: Shipping.ViaCep)
    ensures var q := CalculateShippingEndpoint(Some(zipcode));
      && q == ShippingQuote(zipcode, q.cost, q.days)
      && Shipping.Rate(q.cost, q.days) == Shipping.RateOf(Shipping.Zone1)
      && (Shipping.CalculateShipping(zipcode, viaCep).Some? ==>
            var service := Shipping.CalculateShipping(zipcode, viaCep).value;
            (service.cost == q.cost <==> Shipping.GetShippingZone(service.state) == Shipping.Zone1))
  {
  }
}
