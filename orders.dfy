/** Order creation (src/services/order.ts): a loop over the cart keeps the
    lines whose product exists, snapshots each price, adds up a subtotal,
    and one insert stores the order with the shipping address copied in.
    The order table is kept by `OrderStore`, which also carries the status
    update the payment webhook applies. */
module Orders {
  import opened Wrappers
  import opened Products

  datatype CartItem = CartItem(productId: int, quantity: int)

  datatype Address = Address(
    zipcode: string,
    street: string,
    number: string,
    city: string,
    state: string,
    country: string,
    complement: Option<string>)

  /** One `orderItems` row: the price is the product's price when the order was placed. */
  datatype OrderItem = OrderItem(productId: int, quantity: int, price: real)

  /** An order row. `status` is `None` until the webhook sets it: the column
      default comes from the database schema, which is not part of this model. */
  datatype Order = Order(
    id: nat,
    userId: int,
    status: Option<string>,
    total: real,
    shippingCost: real,
    shippingDays: int,
    shippingZipcode: string,
    shippingStreet: string,
    shippingNumber: string,
    shippingCity: string,
    shippingState: string,
    shippingCountry: string,
    shippingComplement: Option<string>,
    items: seq<OrderItem>)

  /** The order item for one cart line, or nothing when `getProduct` finds no
      product. Only the id and the price of the product are read, so the
      lookup is the row search `getProduct` starts with. */
  function ItemFor(rows: seq<Product>, line: CartItem): (r: seq<OrderItem>)
    ensures |r| <= 1
    ensures r == [] <==> forall i | 0 <= i < |rows| :: rows[i].id != line.productId
  {
    match FindProduct(rows, line.productId)
    case None => []
    case Some(product) => [OrderItem(product.id, line.quantity, product.price)]
  }

  /** The order items the loop collects, in cart order. */
  function KeptItems(rows: seq<Product>, cart: seq<CartItem>): (r: seq<OrderItem>)
    ensures |r| <= |cart|
  {
    if cart == [] then []
    else KeptItems(rows, cart[..|cart| - 1]) + ItemFor(rows, cart[|cart| - 1])
  }

  /** Σ price × quantity. */
  function Subtotal(items: seq<OrderItem>): real {
    if items == [] then 0.0
    else Subtotal(items[..|items| - 1]) + items[|items| - 1].price * items[|items| - 1].quantity as real
  }

  /** Collecting items works line by line: the items of two carts put together
      are the items of the first followed by those of the second. */
  lemma {:induction false} KeptItemsAppend(rows: seq<Product>, a: seq<CartItem>, b: seq<CartItem>)
    ensures KeptItems(rows, a + b) == KeptItems(rows, a) + KeptItems(rows, b)
  {
    if b == [] {
      assert a + b == a;
    } else {
      var b' := b[..|b| - 1];
      assert (a + b)[..|a + b| - 1] == a + b';
      assert (a + b)[|a + b| - 1] == b[|b| - 1];
      KeptItemsAppend(rows, a, b');
    }
  }

  /** A line is kept exactly when its product exists, and then it snapshots
      the product's price and the cart's quantity. */
  lemma KeptItemsSingle(rows: seq<Product>, line: CartItem)
    ensures KeptItems(rows, [line]) == []
      <==> forall i | 0 <= i < |rows| :: rows[i].id != line.productId
    ensures KeptItems(rows, [line]) != [] ==>
      exists p | p in rows && p.id == line.productId ::
        KeptItems(rows, [line]) == [OrderItem(p.id, line.quantity, p.price)]
  {
    assert [line][..0] == [];
  }

  /** Every item snapshots a cart line and the price of that line's product. */
  lemma {:induction false} KeptItemsSnapshot(rows: seq<Product>, cart: seq<CartItem>, item: OrderItem)
    requires item in KeptItems(rows, cart)
    ensures exists line, p | line in cart && p in rows ::
      && p.id == line.productId
      && item == OrderItem(p.id, line.quantity, p.price)
  {
    var front := cart[..|cart| - 1];
    var line := cart[|cart| - 1];
    if item in KeptItems(rows, front) {
      KeptItemsSnapshot(rows, front, item);
      assert forall x | x in front :: x in cart;
    } else {
      assert item in ItemFor(rows, line);
      var p := FindProduct(rows, line.productId).value;
      assert item == OrderItem(p.id, line.quantity, p.price);
    }
  }

  /** A cart none of whose products exists gives no items and a zero subtotal. */
  lemma {:induction false} AllMissingKeepsNothing(rows: seq<Product>, cart: seq<CartItem>)
    requires forall k, i | 0 <= k < |cart| && 0 <= i < |rows| :: rows[i].id != cart[k].productId
    ensures KeptItems(rows, cart) == []
    ensures Subtotal(KeptItems(rows, cart)) == 0.0
  {
    if cart != [] {
      AllMissingKeepsNothing(rows, cart[..|cart| - 1]);
    }
  }

  lemma {:induction false} SubtotalAppend(a: seq<OrderItem>, b: seq<OrderItem>)
    ensures Subtotal(a + b) == Subtotal(a) + Subtotal(b)
  {
    if b == [] {
      assert a + b == a;
    } else {
      var b' := b[..|b| - 1];
      assert (a + b)[..|a + b| - 1] == a + b';
      SubtotalAppend(a, b');
    }
  }

  /** One more cart line adds its item, if any, at the end. */
  lemma KeptItemsStep(rows: seq<Product>, cart: seq<CartItem>, i: nat)
    requires i < |cart|
    ensures KeptItems(rows, cart[..i + 1]) == KeptItems(rows, cart[..i]) + ItemFor(rows, cart[i])
  {
    assert cart[..i + 1][..i] == cart[..i];
  }

  /** One more item adds its price times its quantity. */
  lemma SubtotalStep(items: seq<OrderItem>, item: OrderItem)
    ensures Subtotal(items + [item]) == Subtotal(items) + item.price * item.quantity as real
  {
    assert (items + [item])[..|items|] == items;
  }

  /** The loop of `createOrder`: the items kept and their subtotal. */
  method CollectOrderItems(rows: seq<Product>, cart: seq<CartItem>)
    returns (items: seq<OrderItem>, subtotal: real)
    ensures items == KeptItems(rows, cart)
    ensures subtotal == Subtotal(items)
  {
    items := [];
    subtotal := 0.0;
    var i := 0;
    while i < |cart|
      invariant 0 <= i <= |cart|
      invariant items == KeptItems(rows, cart[..i])
      invariant subtotal == Subtotal(items)
    {
      KeptItemsStep(rows, cart, i);
      var kept := ItemFor(rows, cart[i]);
      if kept != [] {
        var item := kept[0];
        assert kept == [item];
        subtotal := subtotal + item.price * item.quantity as real;
        SubtotalStep(items, item);
        items := items + [item];
      } else {
        assert items + kept == items;
      }
      i := i + 1;
    }
    assert cart[..|cart|] == cart;
  }

  /** The row `createOrder` inserts: a new order with no status, for the
      user, whose total is the subtotal plus shipping, with the shipping
      terms, a copy of the address and the items. */
  function NewOrder(id: nat, userId: int, address: Address, shippingCost: real, shippingDays: int,
                    items: seq<OrderItem>, subtotal: real)
    : (o: Order)
    ensures o.id == id && o.userId == userId && o.status.None?
    ensures o.total == subtotal + shippingCost
    ensures o.shippingCost == shippingCost && o.shippingDays == shippingDays
    ensures && o.shippingZipcode == address.zipcode && o.shippingStreet == address.street
            && o.shippingNumber == address.number && o.shippingCity == address.city
            && o.shippingState == address.state && o.shippingCountry == address.country
            && o.shippingComplement == address.complement
    ensures o.items == items
  {
    Order(id, userId, None, subtotal + shippingCost, shippingCost, shippingDays,
      address.zipcode, address.street, address.number, address.city, address.state, address.country,
      address.complement, items)
  }

  /** `updateOrderStatus` (not part of this model's sources): an unconditional
      set on the order's status; an id with no order changes nothing. */
  function WithStatus(orders: map<nat, Order>, id: int, status: string): (r: map<nat, Order>)
    ensures r.Keys == orders.Keys
    ensures forall k | k in r && k != id :: r[k] == orders[k]
  {
    if id >= 0 && id as nat in orders then orders[id as nat := orders[id as nat].(status := Some(status))]
    else orders
  }

  /** Setting a status twice leaves what setting it once leaves, and the
      last of two sets wins. */
  lemma WithStatusIdempotent(orders: map<nat, Order>, id: int, first: string, second: string)
    ensures WithStatus(WithStatus(orders, id, second), id, second) == WithStatus(orders, id, second)
    ensures WithStatus(WithStatus(orders, id, first), id, second) == WithStatus(orders, id, second)
    ensures id >= 0 && id as nat in orders ==> WithStatus(orders, id, second)[id as nat].status == Some(second)
  {
  }

  /** Every order is stored under its own id, below the next id to hand out. */
  ghost predicate StoreInvariant(orders: map<nat, Order>, nextId: nat) {
    forall id | id in orders :: orders[id].id == id && id < nextId
  }

  /** Inserting the order that carries the next id keeps the invariant, and
      that id was free. */
  lemma InsertKeepsInvariant(orders: map<nat, Order>, nextId: nat, order: Order)
    requires StoreInvariant(orders, nextId)
    requires order.id == nextId
    ensures nextId !in orders
    ensures StoreInvariant(orders[nextId := order], nextId + 1)
  {
  }

  class OrderStore {
    var orders: map<nat, Order>
    var nextId: nat

    /** Every order is stored under its own id, and ids are handed out upwards. */
    ghost predicate Valid()
      reads this
    {
      StoreInvariant(orders, nextId)
    }

    constructor ()
      ensures Valid() && orders == map[] && nextId == 1
    {
      orders := map[];
      nextId := 1;
    }

    /** `createOrder`: inserts one order and returns its id. An order is
        created even when no cart line is kept; its total is then the
        shipping cost. */
    method CreateOrder(rows: seq<Product>, userId: int, address: Address, shippingCost: real, shippingDays: int,
                       cart: seq<CartItem>)
      returns (id: nat)
      requires Valid()
      modifies this
      ensures Valid()
      ensures id == old(nextId) && id !in old(orders)
      ensures nextId == old(nextId) + 1
      ensures orders == old(orders)[id := NewOrder(id, userId, address, shippingCost, shippingDays,
                                                    KeptItems(rows, cart), Subtotal(KeptItems(rows, cart)))]
    {
      var items, subtotal := CollectOrderItems(rows, cart);
      id := nextId;
      var order := NewOrder(id, userId, address, shippingCost, shippingDays, items, subtotal);
      InsertKeepsInvariant(orders, nextId, order);
      orders := orders[id := order];
      nextId := nextId + 1;
    }

    method UpdateOrderStatus(id: int, status: string)
      requires Valid()
      modifies this
      ensures Valid()
      ensures orders == WithStatus(old(orders), id, status)
      ensures nextId == old(nextId)
    {
      if id >= 0 && id as nat in orders {
        orders := orders[id as nat := orders[id as nat].(status := Some(status))];
      }
    }
  }
}
