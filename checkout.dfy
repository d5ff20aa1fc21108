/** Placing an order: the order the submit handler builds from the cart and the checkout form, how
    it reads the reply to `POST /api/orders`, and what that reply does to the cart. */
module Checkout {
  import opened Wrappers
  import opened Text
  import opened Catalog
  import opened Cart

  /** The three checkout fields as typed. */
  datatype CustomerForm = CustomerForm(name: string, phone: string, address: string)

  datatype Customer = Customer(name: string, phone: string, address: string)

  /** A position reported by the browser's geolocation service. */
  datatype Fix = Fix(lat: real, lng: real, accuracy: real)

  /** One order line: the product's fields copied next to the quantity. */
  datatype OrderItem = OrderItem(
    productId: string,
    name: string,
    category: string,
    price: nat,
    qty: int,
    img: string)

  datatype Order = Order(
    customer: Customer,
    paymentMethod: string,
    items: seq<OrderItem>,
    subtotal: int,
    deliveryFee: nat,
    total: int,
    location: Option<Fix>)

  /** One element of `items.map(...)`: the order line names the item's product and is worth what
      the item adds to the subtotal. */
  function ToOrderItem(it: Item): (o: OrderItem)
    ensures o.productId == it.product.id && o.qty == it.qty
    ensures o.price * o.qty == Amount(it)
  {
    var p := it.product;
    OrderItem(p.id, p.name, p.category, p.price, it.qty, p.img)
  }

  /** The order built before a position is asked for, or `None` when the cart is empty (the handler
      then only shows "Your cart is empty"). Its lines copy the cart lines in order, its total is the
      subtotal plus the delivery fee, the customer fields are trimmed and no location is set yet. */
  function BuildOrder(catalog: seq<Product>, lines: seq<CartLine>, form: CustomerForm, payment: string)
    : (r: Option<Order>)
    requires AllResolve(catalog, lines)
    ensures r.None? <==> lines == []
    ensures r.Some? ==>
              var o := r.value;
              && |o.items| == |lines|
              && (forall i :: 0 <= i < |lines| ==>
                    var p := FindProduct(catalog, lines[i].id).value;
                    o.items[i] == OrderItem(lines[i].id, p.name, p.category, p.price, lines[i].qty, p.img))
              && o.subtotal == CartTotals(catalog, lines).subtotal
              && o.deliveryFee == DELIVERY_FEE
              && o.total == o.subtotal + DELIVERY_FEE
              && o.location == None
              && o.customer == Customer(Trim(form.name), Trim(form.phone), Trim(form.address))
              && o.paymentMethod == payment
  {
    var t := CartTotals(catalog, lines);
    if t.items == [] then None
    else
      var customer := Customer(Trim(form.name), Trim(form.phone), Trim(form.address));
      var items := seq(|t.items|, i requires 0 <= i < |t.items| => ToOrderItem(t.items[i]));
      Some(Order(customer, payment, items, t.subtotal, DELIVERY_FEE, t.subtotal + DELIVERY_FEE, None))
  }

  /** The order total is the delivery fee plus price times quantity summed over the cart lines; for a
      cart that keeps its invariant it is at least the delivery fee. */
  lemma OrderTotal(catalog: seq<Product>, lines: seq<CartLine>, form: CustomerForm, payment: string)
    requires AllResolve(catalog, lines) && lines != []
    ensures BuildOrder(catalog, lines, form, payment).value.total
            == LinesAmount(catalog, lines) + DELIVERY_FEE
    ensures CartInvariant(lines) ==> BuildOrder(catalog, lines, form, payment).value.total >= DELIVERY_FEE
  {
    SubtotalIsLinesAmount(catalog, lines);
  }

  /** What came back from `POST /api/orders`, as far as the handler looks at it. */
  datatype Reply =
    | NoResponse(reason: string)                  // `fetch` itself rejected
    | BadBody(reason: string)                     // `res.json()` rejected
    | Response(ok: bool, error: Option<string>)   // `res.ok`, and `data.error` when it is a string

  /** `Placed`, or `Failed` with the message the handler logs. */
  datatype Outcome = Placed | Failed(logged: string)

  /** How the handler reads a reply: only an ok status with a readable body places the order; a
      rejected order reports the server's error text, or "Order failed" when there is none. */
  function Interpret(reply: Reply): (o: Outcome)
    ensures o.Placed? <==> reply.Response? && reply.ok
    ensures reply.Response? && !reply.ok ==> o.Failed? && o.logged != ""
    ensures reply.Response? && !reply.ok && reply.error.Some? && reply.error.value != "" ==>
              o == Failed(reply.error.value)
    ensures reply.Response? && !reply.ok && (reply.error.None? || reply.error.value == "") ==>
              o == Failed("Order failed")
  {
    match reply
    case NoResponse(reason) => Failed(reason)
    case BadBody(reason) => Failed(reason)
    case Response(ok, error) =>
      if ok then Placed
      else if error.Some? && error.value != "" then Failed(error.value)
      else Failed("Order failed")
  }

  datatype Submission = EmptyCart | Sent(order: Order, outcome: Outcome)

  /** The submit handler. An empty cart sends nothing. Otherwise the order goes out with the position
      `fix` (`None` when none was obtained) and the reply decides the cart: an accepted order empties
      it, anything else leaves it exactly as it was. */
  method SubmitOrder(store: CartStore, form: CustomerForm, payment: string, fix: Option<Fix>, reply: Reply)
    returns (s: Submission)
    requires AllResolve(store.catalog, store.lines)
    modifies store
    ensures old(store.lines) == [] ==> s == EmptyCart
    ensures old(store.lines) != [] ==>
              s == Sent(BuildOrder(store.catalog, old(store.lines), form, payment).value.(location := fix),
                        Interpret(reply))
    ensures s.Sent? && s.outcome.Placed? ==> store.lines == []
    ensures !(s.Sent? && s.outcome.Placed?) ==> store.lines == old(store.lines)
    ensures old(store.Valid()) ==> store.Valid()
  {
    var built := BuildOrder(store.catalog, store.lines, form, payment);
    if built.None? {
      return EmptyCart;
    }
    var order := built.value.(location := fix);
    var outcome := Interpret(reply);
    if outcome.Placed? {
      store.Clear();
    }
    s := Sent(order, outcome);
  }
}
