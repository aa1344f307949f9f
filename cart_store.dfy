/** The client's cart and order-history store (`useMockData`): the cart
    transforms handed to `setCart`, the price summary, and the checkout that
    sends the whole cart and clears it on success. */
module CartStore {
  import opened Options
  import opened ShopTypes
  import opened Sequences
  import Js

  /** `cart.find(i => i.product.id === id)`: the first entry of the product. */
  function FindProduct(cart: seq<CartItem>, id: string): (r: Option<CartItem>)
    ensures r.None? <==> forall k :: 0 <= k < |cart| ==> cart[k].product.id != id
    ensures r.Some? ==> r.value in cart && r.value.product.id == id
  {
    if |cart| == 0 then None
    else if cart[0].product.id == id then Some(cart[0])
    else FindProduct(cart[1..], id)
  }

  /** The cart transform of `addToCart`: an entry already holding the product
      gets `qty` more (keeping the product it was added with); otherwise the
      new entry goes first. */
  function AddedToCart(cart: seq<CartItem>, product: Product, qty: int): seq<CartItem> {
    if FindProduct(cart, product.id).Some? then
      seq(|cart|, k requires 0 <= k < |cart| =>
        if cart[k].product.id == product.id then cart[k].(quantity := cart[k].quantity + qty) else cart[k])
    else
      [CartItem(product, qty)] + cart
  }

  /** The cart transform of `updateQuantity`: every entry of the product takes
      exactly `quantity`, whatever it is. */
  function WithQuantity(cart: seq<CartItem>, productId: string, quantity: int): seq<CartItem> {
    seq(|cart|, k requires 0 <= k < |cart| =>
      if cart[k].product.id == productId then cart[k].(quantity := quantity) else cart[k])
  }

  /** The cart transform of `removeFromCart`. */
  function WithoutProduct(cart: seq<CartItem>, productId: string): seq<CartItem> {
    Filter(cart, (i: CartItem) => i.product.id != productId)
  }

  /** Each product appears in at most one cart entry. */
  ghost predicate UniqueIds(cart: seq<CartItem>) {
    forall i, j :: 0 <= i < j < |cart| ==> cart[i].product.id != cart[j].product.id
  }

  /** What one cart entry costs: unit price times quantity. */
  function LineCost(c: CartItem): real {
    c.product.price * c.quantity as real
  }

  /** `cart.reduce((s, c) => s + c.product.price * c.quantity, 0)`. */
  function Subtotal(cart: seq<CartItem>): real {
    if |cart| == 0 then 0.0
    else Subtotal(cart[..|cart| - 1]) + LineCost(cart[|cart| - 1])
  }

  datatype Summary = Summary(subtotal: real, shipping: real, tax: real, total: real)

  const FreeShippingAbove: real := 200.0
  const FlatShipping: real := 12.99
  const TaxRate: real := 0.08

  /** `cartSummary`. */
  function CartSummary(cart: seq<CartItem>): (r: Summary)
    ensures r.subtotal == Subtotal(cart)
    ensures r.shipping == 0.0 <==> r.subtotal > FreeShippingAbove
    ensures r.shipping != 0.0 ==> r.shipping == FlatShipping
    ensures r.tax == TaxRate * r.subtotal
    ensures r.total == r.subtotal + r.shipping + r.tax
  {
    var subtotal := Subtotal(cart);
    var shipping := if subtotal > FreeShippingAbove then 0.0 else FlatShipping;
    var tax := subtotal * TaxRate;
    Summary(subtotal, shipping, tax, subtotal + shipping + tax)
  }

  /** One line of the order request: the client's own price goes along. */
  datatype RequestLine = RequestLine(productId: string, quantity: int, price: real)

  /** The object `placeOrder` sends; shipping address and payment method are
      passed through as given. */
  datatype OrderRequest = OrderRequest(
    items: seq<RequestLine>,
    total: real,
    shippingAddress: Js.JsValue,
    paymentMethod: Js.JsValue)

  function RequestFor(cart: seq<CartItem>, shipping: Js.JsValue, payment: Js.JsValue): OrderRequest {
    OrderRequest(
      seq(|cart|, k requires 0 <= k < |cart| =>
        RequestLine(cart[k].product.id, cart[k].quantity, cart[k].product.price)),
      CartSummary(cart).total,
      shipping,
      payment)
  }

  /** What the order API answers: the created order, or the error it throws. */
  datatype PlaceResult = Placed(order: Order) | Failed(message: string)

  class MockData {
    var cart: seq<CartItem>
    var orders: seq<Order>

    constructor ()
      ensures cart == [] && orders == []
    {
      cart := [];
      orders := [];
    }

    method AddToCart(product: Product, qty: int)
      modifies this
      ensures cart == AddedToCart(old(cart), product, qty) && orders == old(orders)
    {
      var prev := cart;
      var existing := false;
      var k := 0;
      while k < |prev|
        invariant 0 <= k <= |prev|
        invariant existing <==> exists j :: 0 <= j < k && prev[j].product.id == product.id
      {
        if prev[k].product.id == product.id {
          existing := true;
        }
        k := k + 1;
      }
      if existing {
        cart := seq(|prev|, j requires 0 <= j < |prev| =>
          if prev[j].product.id == product.id then prev[j].(quantity := prev[j].quantity + qty) else prev[j]);
      } else {
        cart := [CartItem(product, qty)] + prev;
      }
    }

    method UpdateQuantity(productId: string, quantity: int)
      modifies this
      ensures cart == WithQuantity(old(cart), productId, quantity) && orders == old(orders)
    {
      cart := WithQuantity(cart, productId, quantity);
    }

    method RemoveFromCart(productId: string)
      modifies this
      ensures cart == WithoutProduct(old(cart), productId) && orders == old(orders)
    {
      cart := WithoutProduct(cart, productId);
    }

    /** The first half of `placeOrder`, up to the `await`: the request is
        built from the cart as it is now, with the summary total. Nothing
        changes yet. */
    method SendOrder(shipping: Js.JsValue, payment: Js.JsValue) returns (request: OrderRequest)
      ensures request == RequestFor(cart, shipping, payment)
    {
      request := RequestFor(cart, shipping, payment);
    }

    /** The second half, once the server has answered: on success the new
        order goes first in the history (`setOrders(prev => ...)`) and the
        cart is emptied outright (`setCart([])`), whatever it holds by then;
        on failure the error is rethrown and nothing changes. */
    method CompleteOrder(result: PlaceResult)
      modifies this
      ensures result.Placed? ==> orders == [result.order] + old(orders) && cart == []
      ensures result.Failed? ==> orders == old(orders) && cart == old(cart)
    {
      if result.Placed? {
        orders := [result.order] + orders;
        cart := [];
      }
    }

    /** `placeOrder` with nothing happening while the request is in flight. */
    method PlaceOrder(shipping: Js.JsValue, payment: Js.JsValue, server: OrderRequest -> PlaceResult)
      returns (request: OrderRequest, result: PlaceResult)
      modifies this
      ensures request == RequestFor(old(cart), shipping, payment)
      ensures result == server(request)
      ensures result.Placed? ==> orders == [result.order] + old(orders) && cart == []
      ensures result.Failed? ==> orders == old(orders) && cart == old(cart)
    {
      request := SendOrder(shipping, payment);
      result := server(request);
      CompleteOrder(result);
    }

    /** `placeOrder` with an `addToCart` while the request is in flight: the
        request holds only the cart of before, yet a successful answer empties
        the cart, so the product added in between is dropped unordered. A
        failed answer keeps it. */
    method PlaceOrderWhileAdding(shipping: Js.JsValue, payment: Js.JsValue, server: OrderRequest -> PlaceResult,
                                 product: Product, qty: int)
      returns (request: OrderRequest, result: PlaceResult)
      modifies this
      ensures request == RequestFor(old(cart), shipping, payment)
      ensures |request.items| == |old(cart)|
      ensures result == server(request)
      ensures result.Placed? ==> orders == [result.order] + old(orders) && cart == []
      ensures result.Failed? ==> orders == old(orders) && cart == AddedToCart(old(cart), product, qty)
    {
      request := SendOrder(shipping, payment);
      AddToCart(product, qty);
      result := server(request);
      CompleteOrder(result);
    }
  }

  // ---- Properties of the cart transforms ----

  /** Adding a product already in a cart of unique products raises that entry's
      quantity by `qty` in place; every other entry is unchanged. */
  lemma AddExisting(cart: seq<CartItem>, product: Product, qty: int, i: nat)
    requires UniqueIds(cart) && i < |cart| && cart[i].product.id == product.id
    ensures |AddedToCart(cart, product, qty)| == |cart|
    ensures AddedToCart(cart, product, qty)[i] == cart[i].(quantity := cart[i].quantity + qty)
    ensures forall k :: 0 <= k < |cart| && k != i ==> AddedToCart(cart, product, qty)[k] == cart[k]
  {
  }

  /** Adding a product not in the cart puts `{product, qty}` first. */
  lemma AddNew(cart: seq<CartItem>, product: Product, qty: int)
    requires forall k :: 0 <= k < |cart| ==> cart[k].product.id != product.id
    ensures AddedToCart(cart, product, qty) == [CartItem(product, qty)] + cart
    ensures |AddedToCart(cart, product, qty)| == |cart| + 1
  {
  }

  /** None of the three transforms ever puts a product in two entries. */
  lemma TransformsKeepIdsUnique(cart: seq<CartItem>, product: Product, qty: int, id: string, q: int)
    requires UniqueIds(cart)
    ensures UniqueIds(AddedToCart(cart, product, qty))
    ensures UniqueIds(WithQuantity(cart, id, q))
    ensures UniqueIds(WithoutProduct(cart, id))
  {
    var r := WithoutProduct(cart, id);
    FilterIsSubsequence(cart, (i: CartItem) => i.product.id != id);
    SubsequenceKeepsUnique(r, cart);
    var a := AddedToCart(cart, product, qty);
    if FindProduct(cart, product.id).None? {
      assert forall i, j :: 0 <= i < j < |a| ==> a[i].product.id != a[j].product.id by {
        forall i, j | 0 <= i < j < |a|
          ensures a[i].product.id != a[j].product.id
        {
          if i > 0 {
            assert a[i] == cart[i - 1] && a[j] == cart[j - 1];
          } else {
            assert a[j] == cart[j - 1];
          }
        }
      }
    }
  }

  lemma {:induction false} SubsequenceKeepsUnique(a: seq<CartItem>, b: seq<CartItem>)
    requires Subsequence(a, b) && UniqueIds(b)
    ensures UniqueIds(a)
    decreases |b|
  {
    if |a| > 0 {
      assert |b| > 0;
      if a[0] == b[0] {
        SubsequenceKeepsUnique(a[1..], b[1..]);
        SubsequenceElements(a[1..], b[1..]);
        forall j | 0 < j < |a| ensures a[0].product.id != a[j].product.id {
          assert a[j] == a[1..][j - 1];
          assert a[1..][j - 1] in a[1..];
          var m :| 0 <= m < |b[1..]| && b[1..][m] == a[j];
          assert b[m + 1] == a[j];
        }
      } else {
        SubsequenceKeepsUnique(a, b[1..]);
      }
    }
  }

  lemma {:induction false} SubsequenceElements<T>(a: seq<T>, b: seq<T>)
    requires Subsequence(a, b)
    ensures forall x :: x in a ==> x in b
    decreases |b|
  {
    if |a| > 0 {
      if a[0] == b[0] {
        SubsequenceElements(a[1..], b[1..]);
        assert forall x :: x in a ==> x == a[0] || x in a[1..];
      } else {
        SubsequenceElements(a, b[1..]);
      }
    }
  }

  /** `updateQuantity` changes exactly the quantity of the matching entries,
      with no clamping and no removal (0 and negative values are stored), and
      an unknown id leaves the cart as it was. */
  lemma UpdateExact(cart: seq<CartItem>, id: string, q: int)
    ensures |WithQuantity(cart, id, q)| == |cart|
    ensures forall k :: 0 <= k < |cart| && cart[k].product.id == id ==>
      WithQuantity(cart, id, q)[k] == CartItem(cart[k].product, q)
    ensures forall k :: 0 <= k < |cart| && cart[k].product.id != id ==> WithQuantity(cart, id, q)[k] == cart[k]
    ensures (forall k :: 0 <= k < |cart| ==> cart[k].product.id != id) ==> WithQuantity(cart, id, q) == cart
  {
  }

  /** `removeFromCart` on a cart of unique products drops exactly the entry of
      that product and keeps the others in order; removing twice is removing once. */
  lemma RemoveExact(cart: seq<CartItem>, id: string, i: nat)
    requires UniqueIds(cart) && i < |cart| && cart[i].product.id == id
    ensures WithoutProduct(cart, id) == cart[..i] + cart[i + 1..]
  {
    RemoveAround(cart, id, i);
    RemoveAbsent(cart[..i], id);
    RemoveAbsent(cart[i + 1..], id);
  }

  /** Removing a product the cart does not hold leaves the cart as it was. */
  lemma RemoveAbsent(cart: seq<CartItem>, id: string)
    requires forall k :: 0 <= k < |cart| ==> cart[k].product.id != id
    ensures WithoutProduct(cart, id) == cart
  {
    var keep := (x: CartItem) => x.product.id != id;
    forall x | x in cart ensures keep(x) {
      var k :| 0 <= k < |cart| && cart[k] == x;
    }
    FilterAll(cart, keep);
  }

  /** Removal around an entry of that product: the entry goes, both sides are filtered. */
  lemma RemoveAround(cart: seq<CartItem>, id: string, i: nat)
    requires i < |cart| && cart[i].product.id == id
    ensures WithoutProduct(cart, id) == WithoutProduct(cart[..i], id) + WithoutProduct(cart[i + 1..], id)
  {
    var keep := (x: CartItem) => x.product.id != id;
    var before, after := cart[..i], cart[i + 1..];
    assert cart == before + ([cart[i]] + after);
    FilterAppend(before, [cart[i]] + after, keep);
    FilterAppend([cart[i]], after, keep);
    assert Filter([cart[i]], keep) == [];
  }

  lemma RemoveIdempotent(cart: seq<CartItem>, id: string)
    ensures WithoutProduct(WithoutProduct(cart, id), id) == WithoutProduct(cart, id)
    ensures forall k :: 0 <= k < |WithoutProduct(cart, id)| ==> WithoutProduct(cart, id)[k].product.id != id
  {
    FilterIdempotent(cart, (i: CartItem) => i.product.id != id);
  }

  // ---- Properties of the summary ----

  /** The subtotal of a cart with one more entry in front. */
  lemma {:induction false} SubtotalCons(x: CartItem, cart: seq<CartItem>)
    ensures Subtotal([x] + cart) == LineCost(x) + Subtotal(cart)
    decreases |cart|
  {
    if |cart| > 0 {
      var c := [x] + cart;
      assert c[..|c| - 1] == [x] + cart[..|cart| - 1];
      SubtotalCons(x, cart[..|cart| - 1]);
    } else {
      assert [x] + cart == [x];
      assert ([x] + cart)[..0] == [];
    }
  }

  /** Adding `qty` more of a product already in the cart raises the subtotal
      by `qty` times the price that entry was first added with. */
  lemma AddExistingSubtotal(cart: seq<CartItem>, product: Product, qty: int, i: nat)
    requires UniqueIds(cart) && i < |cart| && cart[i].product.id == product.id
    ensures Subtotal(AddedToCart(cart, product, qty)) == Subtotal(cart) + cart[i].product.price * qty as real
  {
    AddExisting(cart, product, qty, i);
    SubtotalBump(cart, AddedToCart(cart, product, qty), i, qty);
  }

  /** Adding a new product raises the subtotal by its price times `qty`. */
  lemma AddNewSubtotal(cart: seq<CartItem>, product: Product, qty: int)
    requires FindProduct(cart, product.id).None?
    ensures Subtotal(AddedToCart(cart, product, qty)) == Subtotal(cart) + product.price * qty as real
  {
    SubtotalCons(CartItem(product, qty), cart);
  }

  lemma AddSubtotalStep(x: CartItem, cart: seq<CartItem>, a: seq<CartItem>)
    requires a == [x] + cart
    ensures Subtotal(a) == Subtotal(cart) + LineCost(x)
  {
    SubtotalCons(x, cart);
  }

  /** Two carts that differ only in the quantity of entry `i`, by `d`. */
  lemma {:induction false} SubtotalBump(c: seq<CartItem>, a: seq<CartItem>, i: nat, d: int)
    requires |a| == |c| && i < |c|
    requires a[i] == c[i].(quantity := c[i].quantity + d)
    requires forall k :: 0 <= k < |c| && k != i ==> a[k] == c[k]
    ensures Subtotal(a) == Subtotal(c) + c[i].product.price * d as real
    decreases |c|
  {
    var n := |c| - 1;
    if i == n {
      assert a[..n] == c[..n];
    } else {
      SubtotalBump(c[..n], a[..n], i, d);
    }
  }

  /** Shipping at exactly 200 is still charged; just above it is free. */
  lemma ShippingBoundary(cart: seq<CartItem>)
    ensures Subtotal(cart) == 200.0 ==> CartSummary(cart).shipping == 12.99
    ensures Subtotal(cart) == 200.01 ==> CartSummary(cart).shipping == 0.0
  {
  }

  /** The worked examples: 2 × 50 + 1 × 150 and 1 × 50. */
  lemma SummaryExamples(a: Product, b: Product)
    requires a.price == 50.0 && b.price == 150.0
    ensures CartSummary([CartItem(a, 2), CartItem(b, 1)]) == Summary(250.0, 0.0, 20.0, 270.0)
    ensures CartSummary([CartItem(a, 1)]) == Summary(50.0, 12.99, 4.0, 66.99)
  {
    var two := [CartItem(a, 2), CartItem(b, 1)];
    assert two[..1] == [CartItem(a, 2)];
    assert [CartItem(a, 2)][..0] == [];
    assert Subtotal([CartItem(a, 2)]) == 100.0;
    assert Subtotal(two) == 250.0;
    assert [CartItem(a, 1)][..0] == [];
    assert Subtotal([CartItem(a, 1)]) == 50.0;
  }

  /** The request has one line per cart entry with the client's own price and
      the summary total, and keeps the cart's order. */
  lemma RequestMirrorsCart(cart: seq<CartItem>, shipping: Js.JsValue, payment: Js.JsValue)
    ensures |RequestFor(cart, shipping, payment).items| == |cart|
    ensures forall k :: 0 <= k < |cart| ==>
      RequestFor(cart, shipping, payment).items[k] ==
        RequestLine(cart[k].product.id, cart[k].quantity, cart[k].product.price)
    ensures RequestFor(cart, shipping, payment).total == CartSummary(cart).total
  {
  }

  /** The cart screen's minus button: one less, but never below 1. */
  function Decremented(quantity: int): (r: int)
    ensures r >= 1
    ensures quantity >= 2 ==> r == quantity - 1
    ensures quantity <= 2 ==> r == 1
  {
    if quantity - 1 > 1 then quantity - 1 else 1
  }

  /** Every entry holds at least one unit. */
  ghost predicate AllPositive(cart: seq<CartItem>) {
    forall k :: 0 <= k < |cart| ==> cart[k].quantity >= 1
  }

  /** The screen's minus and plus buttons, which call `updateQuantity` with
      the clamped or incremented quantity of an entry, keep every quantity at
      least 1; the hook alone does not (`UpdateExact`). */
  lemma ButtonsKeepPositive(cart: seq<CartItem>, i: nat)
    requires AllPositive(cart) && i < |cart|
    ensures AllPositive(WithQuantity(cart, cart[i].product.id, Decremented(cart[i].quantity)))
    ensures AllPositive(WithQuantity(cart, cart[i].product.id, cart[i].quantity + 1))
  {
  }
}
