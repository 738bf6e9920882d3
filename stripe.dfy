/** Checkout sessions (src/lib/stripe.ts): the line items sent to the
    payment provider, one per cart line priced in centavos, an optional
    shipping line, the order id in the session metadata, and the webhook
    signature check that yields no event instead of throwing. The provider
    itself is not modelled: this module builds the session request, and the
    signature check is a parameter. */
module StripeCheckout {
  import opened Wrappers
  import opened JsNumbers
  import opened Products
  import opened Orders

  datatype LineItem = LineItem(name: string, currency: string, unitAmount: int, quantity: int)

  /** What `stripe.checkout.sessions.create` is asked for. */
  datatype SessionRequest = SessionRequest(
    lineItems: seq<LineItem>,
    mode: string,
    metadataOrderId: string,
    successUrl: string,
    cancelUrl: string)

  /** A verified webhook event: its type and the session's `metadata.orderId`, if any. */
  datatype StripeEvent = StripeEvent(eventType: string, metadataOrderId: Option<string>)

  const Currency: string := "BRL"
  const ShippingLineName: string := "Frete"

  predicate ProductExists(rows: seq<Product>, id: int) {
    exists i | 0 <= i < |rows| :: rows[i].id == id
  }

  function MissingProductMessage(id: int): string {
    "Product with ID " + IntToString(id) + " not found"
  }

  /** `Math.round(amount * 100)`: a price in reais as whole centavos. */
  function Centavos(amount: real): (c: int)
    ensures amount * 100.0 - 0.5 < c as real <= amount * 100.0 + 0.5
  {
    Round(amount * 100.0)
  }

  function LineFor(product: ProductDetail, line: CartItem): LineItem {
    LineItem(product.title, Currency, Centavos(product.price), line.quantity)
  }

  /** The product lines, or the error thrown for the first cart line whose
      product is missing. Each lookup is the one `getProduct` makes: the row
      search, then the row's detail. */
  function ProductLines(rows: seq<Product>, cart: seq<CartItem>, imagePath: string): Result<seq<LineItem>, string> {
    if cart == [] then Ok([])
    else
      match ProductLines(rows, cart[..|cart| - 1], imagePath)
      case Err(e) => Err(e)
      case Ok(lines) =>
        var line := cart[|cart| - 1];
        match FindProduct(rows, line.productId)
        case None => Err(MissingProductMessage(line.productId))
        case Some(product) => Ok(lines + [LineFor(DetailOf(product, imagePath), line)])
  }

  /** The shipping line, present only for a positive shipping cost. */
  function ShippingLines(shippingCost: real): (r: seq<LineItem>)
    ensures |r| == if shippingCost > 0.0 then 1 else 0
  {
    if shippingCost > 0.0 then [LineItem(ShippingLineName, Currency, Centavos(shippingCost), 1)] else []
  }

  function CheckoutLineItems(rows: seq<Product>, cart: seq<CartItem>, shippingCost: real, imagePath: string)
    : Result<seq<LineItem>, string>
  {
    match ProductLines(rows, cart, imagePath)
    case Err(e) => Err(e)
    case Ok(lines) => Ok(lines + ShippingLines(shippingCost))
  }

  /** Once a prefix of the cart has failed, the whole cart fails with the same error. */
  lemma {:induction false} ProductLinesFailureSticks(rows: seq<Product>, cart: seq<CartItem>, n: nat, imagePath: string)
    requires n <= |cart| && ProductLines(rows, cart[..n], imagePath).Err?
    ensures ProductLines(rows, cart, imagePath) == ProductLines(rows, cart[..n], imagePath)
    decreases |cart| - n
  {
    if n < |cart| {
      var front := cart[..|cart| - 1];
      assert front[..n] == cart[..n];
      ProductLinesFailureSticks(rows, front, n, imagePath);
    } else {
      assert cart[..n] == cart;
    }
  }

  /** The product lines succeed exactly when every product exists. */
  lemma {:induction false} ProductLinesOkIff(rows: seq<Product>, cart: seq<CartItem>, imagePath: string)
    ensures ProductLines(rows, cart, imagePath).Ok? <==> forall k | 0 <= k < |cart| :: ProductExists(rows, cart[k].productId)
  {
    if cart != [] {
      var front := cart[..|cart| - 1];
      var line := cart[|cart| - 1];
      ProductLinesOkIff(rows, front, imagePath);
      assert forall k | 0 <= k < |front| :: front[k] == cart[k];
      if FindProduct(rows, line.productId).None? {
        assert !ProductExists(rows, cart[|front|].productId);
      }
    }
  }

  /** On success there is one line per cart line, in cart order, with the
      product's name, its price in centavos and the cart quantity. */
  lemma {:induction false} ProductLinesValues(rows: seq<Product>, cart: seq<CartItem>, imagePath: string)
    requires ProductLines(rows, cart, imagePath).Ok?
    ensures var lines := ProductLines(rows, cart, imagePath).value;
      && |lines| == |cart|
      && forall k | 0 <= k < |cart| :: exists p | p in rows && p.id == cart[k].productId ::
           lines[k] == LineItem(p.title, Currency, Centavos(p.price), cart[k].quantity)
  {
    if cart != [] {
      var front := cart[..|cart| - 1];
      var line := cart[|cart| - 1];
      var before := ProductLines(rows, front, imagePath).value;
      ProductLinesValues(rows, front, imagePath);
      var product := FindProduct(rows, line.productId).value;
      var lines := ProductLines(rows, cart, imagePath).value;
      assert lines == before + [LineFor(DetailOf(product, imagePath), line)];
      forall k | 0 <= k < |cart|
        ensures exists p | p in rows && p.id == cart[k].productId ::
          lines[k] == LineItem(p.title, Currency, Centavos(p.price), cart[k].quantity)
      {
        if k < |front| {
          assert lines[k] == before[k] && cart[k] == front[k];
        } else {
          assert lines[k] == LineItem(product.title, Currency, Centavos(product.price), cart[k].quantity);
        }
      }
    }
  }

  /** A failure names the first cart line whose product is missing. */
  lemma {:induction false} ProductLinesFailure(rows: seq<Product>, cart: seq<CartItem>, imagePath: string)
    ensures var r := ProductLines(rows, cart, imagePath);
      r.Err? ==> exists k | 0 <= k < |cart| ::
        && !ProductExists(rows, cart[k].productId)
        && (forall j | 0 <= j < k :: ProductExists(rows, cart[j].productId))
        && r.error == MissingProductMessage(cart[k].productId)
  {
    if cart != [] {
      var front := cart[..|cart| - 1];
      var line := cart[|cart| - 1];
      ProductLinesFailure(rows, front, imagePath);
      ProductLinesOkIff(rows, front, imagePath);
      assert forall k | 0 <= k < |front| :: front[k] == cart[k];
      match ProductLines(rows, front, imagePath)
      case Err(e) =>
        var k :| 0 <= k < |front| && !ProductExists(rows, front[k].productId)
          && (forall j | 0 <= j < k :: ProductExists(rows, front[j].productId))
          && e == MissingProductMessage(front[k].productId);
        assert cart[k] == front[k];
      case Ok(lines) =>
        if FindProduct(rows, line.productId).None? {
          assert !ProductExists(rows, cart[|front|].productId);
        }
    }
  }

  /** Both halves together: success exactly when every product exists, with
      one line per cart line; otherwise the error of the first missing one. */
  lemma ProductLinesSpec(rows: seq<Product>, cart: seq<CartItem>, imagePath: string)
    ensures var r := ProductLines(rows, cart, imagePath);
      && (r.Ok? <==> forall k | 0 <= k < |cart| :: ProductExists(rows, cart[k].productId))
      && (r.Ok? ==> (
            && |r.value| == |cart|
            && forall k | 0 <= k < |cart| :: exists p | p in rows && p.id == cart[k].productId ::
                 r.value[k] == LineItem(p.title, Currency, Centavos(p.price), cart[k].quantity)))
      && (r.Err? ==> exists k | 0 <= k < |cart| ::
            && !ProductExists(rows, cart[k].productId)
            && (forall j | 0 <= j < k :: ProductExists(rows, cart[j].productId))
            && r.error == MissingProductMessage(cart[k].productId))
  {
    ProductLinesOkIff(rows, cart, imagePath);
    if ProductLines(rows, cart, imagePath).Ok? {
      ProductLinesValues(rows, cart, imagePath);
    }
    ProductLinesFailure(rows, cart, imagePath);
  }

  /** The line count is the cart length plus one when shipping is charged,
      and the shipping line is last, with quantity 1. */
  lemma CheckoutLineItemsShape(rows: seq<Product>, cart: seq<CartItem>, shippingCost: real, imagePath: string)
    requires CheckoutLineItems(rows, cart, shippingCost, imagePath).Ok?
    ensures var lines := CheckoutLineItems(rows, cart, shippingCost, imagePath).value;
      && |lines| == |cart| + (if shippingCost > 0.0 then 1 else 0)
      && lines[..|cart|] == ProductLines(rows, cart, imagePath).value
      && (shippingCost > 0.0 ==> lines[|cart|] == LineItem("Frete", "BRL", Centavos(shippingCost), 1))
  {
    ProductLinesSpec(rows, cart, imagePath);
  }

  /** The loop of `createStripeCheckoutSession`, stopping at the first missing product. */
  method BuildLineItems(rows: seq<Product>, cart: seq<CartItem>, shippingCost: real, imagePath: string)
    returns (r: Result<seq<LineItem>, string>)
    ensures r == CheckoutLineItems(rows, cart, shippingCost, imagePath)
  {
    var lines: seq<LineItem> := [];
    var i := 0;
    while i < |cart|
      invariant 0 <= i <= |cart|
      invariant ProductLines(rows, cart[..i], imagePath) == Ok(lines)
    {
      var item := cart[i];
      assert cart[..i + 1][..i] == cart[..i];
      var product := GetProduct(rows, item.productId, imagePath);
      if product.None? {
        r := Err(MissingProductMessage(item.productId));
        assert cart[..i + 1][i] == item;
        assert ProductLines(rows, cart[..i + 1], imagePath) == r;
        ProductLinesFailureSticks(rows, cart, i + 1, imagePath);
        assert ProductLines(rows, cart, imagePath) == r;
        return;
      }
      lines := lines + [LineFor(product.value, item)];
      i := i + 1;
    }
    assert cart[..|cart|] == cart;
    assert ProductLines(rows, cart, imagePath) == Ok(lines);
    ghost var productLines := lines;
    if shippingCost > 0.0 {
      lines := lines + [LineItem(ShippingLineName, Currency, Centavos(shippingCost), 1)];
    }
    assert lines == productLines + ShippingLines(shippingCost);
    r := Ok(lines);
  }

  /** `createStripeCheckoutSession`, up to the provider call: a payment-mode
      session with the line items, the order id as a decimal string, and the
      frontend's success and cancel pages. */
  method CreateStripeCheckoutSession(rows: seq<Product>, cart: seq<CartItem>, shippingCost: real, orderId: int,
                                     frontendUrl: string, imagePath: string)
    returns (r: Result<SessionRequest, string>)
    ensures r.Err? <==> CheckoutLineItems(rows, cart, shippingCost, imagePath).Err?
    ensures r.Err? ==> r.error == CheckoutLineItems(rows, cart, shippingCost, imagePath).error
    ensures r.Ok? ==>
      && r.value.lineItems == CheckoutLineItems(rows, cart, shippingCost, imagePath).value
      && r.value.mode == "payment"
      && r.value.metadataOrderId == IntToString(orderId)
      && r.value.successUrl == frontendUrl + "/cart/success?session_id={CHECKOUT_SESSION_ID}"
      && r.value.cancelUrl == frontendUrl + "/my-orders"
  {
    var lines := BuildLineItems(rows, cart, shippingCost, imagePath);
    match lines
    case Err(e) =>
      r := Err(e);
    case Ok(items) =>
      r := Ok(SessionRequest(items, "payment", IntToString(orderId),
        frontendUrl + "/cart/success?session_id={CHECKOUT_SESSION_ID}", frontendUrl + "/my-orders"));
  }

  /** `getConstructEvent`: the provider's signature check, with a failure
      turned into no event. */
  function GetConstructEvent(rawBody: string, sig: string, webhookKey: string,
                             constructEvent: (string, string, string) -> Result<StripeEvent, string>)
    : (r: Option<StripeEvent>)
    ensures r.None? <==> constructEvent(rawBody, sig, webhookKey).Err?
    ensures r.Some? ==> r.value == constructEvent(rawBody, sig, webhookKey).value
  {
    match constructEvent(rawBody, sig, webhookKey)
    case Err(_) => None
    case Ok(event) => Some(event)
  }
}
