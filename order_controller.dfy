/** The order endpoints of the API (`placeOrder`, `getUserOrders`,
    `getOrderById`). The database is the product table as a map from id to
    product and the order table as a sequence in creation order; the request
    body is the JSON value the body parser produced, so every guard sees the
    values JavaScript would see. What the database itself decides (rejecting a
    malformed id, failing to create a row) is given as `Prisma`. */
module OrderController {
  import opened Options
  import opened Strings
  import opened Sequences
  import opened Js

  datatype Product = Product(id: int, name: string, price: real)

  /** A stored order line: the product's name and price at order time, the
      request's quantity as sent, and the line total computed from them. */
  datatype LineItem = LineItem(productId: int, productName: string, quantity: JsValue, price: real, total: Number)

  datatype Order = Order(id: int, userId: int, items: seq<LineItem>, total: Number, createdAt: int)

  datatype Body = Message(text: string) | OneOrder(order: Order) | OrderList(orders: seq<Order>)

  datatype Response = Response(status: int, body: Body)

  /** How the database answers the two calls whose failure the handler catches:
      the message of the validation error a non-integer id in `findMany`
      raises, and the error `order.create` throws, if any. */
  datatype Prisma = Prisma(invalidIdMessage: string, createFailure: Option<string>)

  const InvalidUser := "Invalid user ID"
  const NoItems := "Order must contain at least one item"
  const BadTotal := "Valid total amount is required"
  const MissingFields := "Each item must have productId, quantity, and price"
  const NotPositive := "Item quantity and price must be greater than 0"
  const PlaceFailed := "Failed to place order. Please try again."

  function Fail(status: int, text: string): Response {
    Response(status, Message(text))
  }

  /** The `catch` of `placeOrder`: an error whose message mentions an invalid
      product id or a product not found is a client error carrying that message;
      every other error is the generic server error. */
  function CatchResponse(message: string): (r: Response)
    ensures r.status == 400 <==> Includes(message, "Invalid productId") || Includes(message, "not found")
    ensures r.status == 400 ==> r.body == Message(message)
    ensures r.status != 400 ==> r == Fail(500, PlaceFailed)
  {
    if Includes(message, "Invalid productId") || Includes(message, "not found") then Fail(400, message)
    else Fail(500, PlaceFailed)
  }

  /** `parseInt(req.user)`. */
  function UserId(user: JsValue, eng: Engine): Option<int> {
    ParseInt(user, eng)
  }

  /** What the validation loop says about one item, if anything: reading a
      field of `null` throws; then all three fields must be truthy; then
      quantity and price must not compare `<= 0`. */
  function ItemProblem(item: JsValue, eng: Engine): Option<Response> {
    if item.Null? || item.Undefined? then Some(CatchResponse(eng.nullAccess))
    else if !Truthy(Get(item, "productId")) || !Truthy(Get(item, "quantity")) || !Truthy(Get(item, "price")) then
      Some(Fail(400, MissingFields))
    else if AtMostZero(Get(item, "quantity"), eng) || AtMostZero(Get(item, "price"), eng) then
      Some(Fail(400, NotPositive))
    else None
  }

  /** The validation loop over all items: the first item with a problem decides. */
  function FirstItemProblem(items: seq<JsValue>, eng: Engine): Option<Response> {
    match FirstIndex(items, (item: JsValue) => ItemProblem(item, eng).Some?)
    case None => None
    case Some(k) => ItemProblem(items[k], eng)
  }

  /** The id a request line names, after the `typeof … === 'string' ? parseInt(…) : …`
      conversion: a NaN (which the `map` callback throws on), an integer, or a
      value Prisma rejects as not an integer. */
  datatype Resolved = IdOf(id: int) | NotANumber | NotAnInt

  function ResolveId(productId: JsValue, eng: Engine): Resolved {
    if productId.Str? then
      match eng.parseInt(productId.s)
      case Some(i) => IdOf(i)
      case None => NotANumber
    else if IsNaN(productId, eng) then NotANumber
    else if productId.Num? && productId.n == productId.n.Floor as real then IdOf(productId.n.Floor)
    else NotAnInt
  }

  function Resolutions(items: seq<JsValue>, eng: Engine): (r: seq<Resolved>)
    ensures |r| == |items|
  {
    seq(|items|, k requires 0 <= k < |items| => ResolveId(Get(items[k], "productId"), eng))
  }

  /** The error the `map` callback throws for the first unusable id. */
  function InvalidIdMessage(item: JsValue, eng: Engine): string {
    "Invalid productId: " + ToString(Get(item, "productId"), eng)
  }

  datatype IdsResult = Ids(ids: seq<int>) | IdsFailed(response: Response)

  /** `productIds`, then the database's validation of the `in` list: the map
      throws on the first NaN before any query is made; an id that is a number
      but not an integer is rejected by the query. */
  function ResolveIds(items: seq<JsValue>, eng: Engine, prisma: Prisma): (r: IdsResult)
    ensures r.Ids? ==> |r.ids| == |items|
    ensures r.Ids? ==> forall k :: 0 <= k < |items| ==> Resolutions(items, eng)[k] == IdOf(r.ids[k])
  {
    var rs := Resolutions(items, eng);
    match FirstIndex(rs, (x: Resolved) => x.NotANumber?)
    case Some(k) => IdsFailed(CatchResponse(InvalidIdMessage(items[k], eng)))
    case None =>
      if exists k :: 0 <= k < |rs| && rs[k].NotAnInt? then IdsFailed(CatchResponse(prisma.invalidIdMessage))
      else Ids(seq(|rs|, k requires 0 <= k < |rs| => rs[k].id))
  }

  /** The distinct requested ids that are stored, in order of first request. */
  function FoundIds(db: map<int, Product>, ids: seq<int>): (r: seq<int>)
    ensures forall id :: id in r <==> id in ids && id in db
    ensures forall k :: 0 <= k < |r| ==> r[k] in db
  {
    Filter(Dedup(ids), (id: int) => id in db)
  }

  /** `prisma.product.findMany({ where: { id: { in: ids } } })`: every stored
      product whose id is requested, each once. The rows come in the order of
      first request; the handler only uses how many there are and `find`. */
  function FindMany(db: map<int, Product>, ids: seq<int>): (r: seq<Product>)
    ensures |r| == |FoundIds(db, ids)|
    ensures forall p :: p in r <==> exists id :: id in ids && id in db && p == db[id]
  {
    var found := FoundIds(db, ids);
    var r := seq(|found|, k requires 0 <= k < |found| => db[found[k]]);
    assert forall p :: p in r ==> exists id :: id in ids && id in db && p == db[id] by {
      forall p | p in r ensures exists id :: id in ids && id in db && p == db[id] {
        var k :| 0 <= k < |r| && r[k] == p;
        var id := found[k];
        assert found[k] in found && r[k] == db[id];
        assert id in ids && id in db && p == db[id];
      }
    }
    assert forall id :: id in ids && id in db ==> db[id] in r by {
      forall id | id in ids && id in db ensures db[id] in r {
        var k :| 0 <= k < |found| && found[k] == id;
        assert r[k] == db[id];
      }
    }
    r
  }

  /** `products.find(p => p.id === id)`. */
  function FindById(products: seq<Product>, id: int): (r: Option<Product>)
    ensures r.None? <==> forall k :: 0 <= k < |products| ==> products[k].id != id
    ensures r.Some? ==> r.value in products && r.value.id == id
  {
    if |products| == 0 then None
    else if products[0].id == id then Some(products[0])
    else FindById(products[1..], id)
  }

  /** `products.map(p => p.id)` and the ids of the request not among them, in request order. */
  function MissingIds(products: seq<Product>, ids: seq<int>): seq<int> {
    var foundIds := seq(|products|, k requires 0 <= k < |products| => products[k].id);
    Filter(ids, (id: int) => id !in foundIds)
  }

  function NotFoundMessage(missing: seq<int>): string {
    "Products not found: " + Join(seq(|missing|, k requires 0 <= k < |missing| => IntToString(missing[k])), ", ")
  }

  /** The order line built for a request line: name and price come from the
      product found, the quantity is the request's, and the total is
      `product.price * item.quantity`. */
  function LineFor(product: Product, id: int, item: JsValue, eng: Engine): LineItem {
    var quantity := Get(item, "quantity");
    LineItem(id, product.name, quantity, product.price, Mul(Real(product.price), ToNumber(quantity, eng)))
  }

  datatype Priced = Lines(lines: seq<LineItem>) | PriceThrows(message: string)

  /** `orderItems`: one line per request line, priced from the product `find`
      returns; the first id `find` misses throws "Product … not found". */
  function Reprice(products: seq<Product>, ids: seq<int>, items: seq<JsValue>, eng: Engine): (r: Priced)
    requires |ids| == |items|
    ensures r.PriceThrows? <==> exists k :: 0 <= k < |ids| && FindById(products, ids[k]).None?
    ensures r.Lines? ==> |r.lines| == |items| && forall k :: 0 <= k < |items| ==>
      FindById(products, ids[k]).Some? && r.lines[k] == LineFor(FindById(products, ids[k]).value, ids[k], items[k], eng)
  {
    match FirstIndex(ids, (id: int) => FindById(products, id).None?)
    case Some(k) => PriceThrows("Product " + IntToString(ids[k]) + " not found")
    case None =>
      Lines(seq(|items|, k requires 0 <= k < |items| => LineFor(FindById(products, ids[k]).value, ids[k], items[k], eng)))
  }

  /** `calculatedTotal`: the line totals added up from the first line on,
      starting at 0; a NaN line total makes the sum NaN. */
  function LinesTotal(lines: seq<LineItem>): Number {
    if |lines| == 0 then Real(0.0) else Add(LinesTotal(lines[..|lines| - 1]), lines[|lines| - 1].total)
  }

  datatype Decision = Reject(response: Response) | Accept(userId: int, lines: seq<LineItem>, total: Number)

  /** Everything `placeOrder` decides before it creates the order, in the
      order it decides it. */
  function Decide(user: JsValue, body: JsValue, eng: Engine, db: map<int, Product>, prisma: Prisma): Decision {
    // `const { items, total } = req.body` throws on a null or absent body.
    if body.Null? || body.Undefined? then Reject(CatchResponse(eng.nullAccess))
    else
      var items := Get(body, "items");
      var total := Get(body, "total");
      match UserId(user, eng)
      case None => Reject(Fail(400, InvalidUser))
      case Some(uid) =>
        if !Truthy(items) || !items.Arr? || |items.elems| == 0 then Reject(Fail(400, NoItems))
        else if !Truthy(total) || !IsNumber(total) || AtMostZero(total, eng) then Reject(Fail(400, BadTotal))
        else Checkout(uid, items.elems, eng, db, prisma)
  }

  /** The part after the body guards: the item loop, the id conversion, then
      the lookup. */
  function Checkout(uid: int, items: seq<JsValue>, eng: Engine, db: map<int, Product>, prisma: Prisma): Decision {
    match FirstItemProblem(items, eng)
    case Some(r) => Reject(r)
    case None =>
      match ResolveIds(items, eng, prisma)
      case IdsFailed(r) => Reject(r)
      case Ids(ids) => Lookup(uid, items, ids, eng, db)
  }

  /** The lookup, the length check with its 404, and the repricing. */
  function Lookup(uid: int, items: seq<JsValue>, ids: seq<int>, eng: Engine, db: map<int, Product>): Decision
    requires |ids| == |items|
  {
    var products := FindMany(db, ids);
    if |products| != |ids| then Reject(Fail(404, NotFoundMessage(MissingIds(products, ids))))
    else
      match Reprice(products, ids, items, eng)
      case PriceThrows(m) => Reject(CatchResponse(m))
      case Lines(lines) => Accept(uid, lines, LinesTotal(lines))
  }

  /** The product table keeps each product under its own id. */
  ghost predicate Keyed(db: map<int, Product>) {
    forall id :: id in db ==> db[id].id == id
  }

  // ---- The lookup ----

  /** `findMany` returns one row per requested id exactly when the ids are
      distinct and all stored; so a repeated id fails the length check even
      when every id exists. */
  lemma FindManyCount(db: map<int, Product>, ids: seq<int>)
    ensures |FindMany(db, ids)| == |ids| <==> NoDup(ids) && forall k :: 0 <= k < |ids| ==> ids[k] in db
  {
    var keep := (id: int) => id in db;
    var d := Dedup(ids);
    DedupKeepsLength(ids);
    FilterKeepsLength(d, keep);
    assert (forall k :: 0 <= k < |d| ==> keep(d[k])) <==> (forall k :: 0 <= k < |ids| ==> ids[k] in db) by {
      if forall k :: 0 <= k < |d| ==> keep(d[k]) {
        forall k | 0 <= k < |ids| ensures ids[k] in db {
          assert ids[k] in d;
        }
      }
      if forall k :: 0 <= k < |ids| ==> ids[k] in db {
        forall k | 0 <= k < |d| ensures keep(d[k]) {
          assert d[k] in ids;
        }
      }
    }
  }

  /** In a keyed table, `find` over the rows of `findMany` gives the stored
      product of every requested, stored id, and nothing for any other id. */
  lemma FindFound(db: map<int, Product>, ids: seq<int>, id: int)
    requires Keyed(db)
    ensures FindById(FindMany(db, ids), id) == if id in ids && id in db then Some(db[id]) else None
  {
    var products := FindMany(db, ids);
    if id in ids && id in db {
      assert db[id] in products;
      var k :| 0 <= k < |products| && products[k] == db[id];
      assert products[k].id == id;
      var p := FindById(products, id).value;
      var j :| j in ids && j in db && p == db[j];
    } else {
      forall k | 0 <= k < |products| ensures products[k].id != id {
        assert products[k] in products;
        var j :| j in ids && j in db && products[k] == db[j];
      }
    }
  }

  /** In a keyed table the "Product … not found" throw of the repricing can
      never happen once the length check has passed. */
  lemma RepriceNeverThrows(db: map<int, Product>, ids: seq<int>, items: seq<JsValue>, eng: Engine)
    requires Keyed(db) && |ids| == |items| && |FindMany(db, ids)| == |ids|
    ensures Reprice(FindMany(db, ids), ids, items, eng).Lines?
  {
    FindManyCount(db, ids);
    forall k | 0 <= k < |ids| ensures FindById(FindMany(db, ids), ids[k]).Some? {
      FindFound(db, ids, ids[k]);
    }
  }

  /** In a keyed table the missing ids are exactly the requested ids that are
      not stored, in request order and with repeats. */
  lemma MissingExact(db: map<int, Product>, ids: seq<int>)
    requires Keyed(db)
    ensures MissingIds(FindMany(db, ids), ids) == Filter(ids, (id: int) => id !in db)
  {
    var products := FindMany(db, ids);
    var foundIds := seq(|products|, k requires 0 <= k < |products| => products[k].id);
    forall id | id in ids ensures (id !in foundIds) == (id !in db) {
      FoundIdsExact(db, ids, id);
    }
    FilterAgree(ids, (id: int) => id !in foundIds, (id: int) => id !in db);
  }

  lemma FoundIdsExact(db: map<int, Product>, ids: seq<int>, id: int)
    requires Keyed(db) && id in ids
    ensures var products := FindMany(db, ids);
      id in seq(|products|, k requires 0 <= k < |products| => products[k].id) <==> id in db
  {
    var products := FindMany(db, ids);
    var foundIds := seq(|products|, k requires 0 <= k < |products| => products[k].id);
    FindFound(db, ids, id);
    if id in db {
      var k :| 0 <= k < |products| && products[k] == db[id];
      assert foundIds[k] == id;
    }
    if id in foundIds {
      var k :| 0 <= k < |foundIds| && foundIds[k] == id;
      assert products[k].id == id;
    }
  }

  /** Nothing is missing exactly when every requested id is stored. */
  lemma NoneMissing(db: map<int, Product>, ids: seq<int>)
    ensures Filter(ids, (id: int) => id !in db) == [] <==> forall k :: 0 <= k < |ids| ==> ids[k] in db
  {
    var missing := Filter(ids, (id: int) => id !in db);
    if missing == [] {
      forall k | 0 <= k < |ids| ensures ids[k] in db {
        assert ids[k] in ids;
      }
    }
  }

  /** A repeated id or an id with no stored product gives 404 listing the
      unstored ids in request order; a repeated stored id gives the message
      with an empty list. */
  lemma LookupNotFound(uid: int, items: seq<JsValue>, ids: seq<int>, eng: Engine, db: map<int, Product>)
    requires Keyed(db) && |ids| == |items|
    requires !NoDup(ids) || exists k :: 0 <= k < |ids| && ids[k] !in db
    ensures Lookup(uid, items, ids, eng, db) == Reject(Fail(404, NotFoundMessage(Filter(ids, (id: int) => id !in db))))
    ensures (forall k :: 0 <= k < |ids| ==> ids[k] in db) ==>
      Lookup(uid, items, ids, eng, db) == Reject(Fail(404, "Products not found: "))
  {
    FindManyCount(db, ids);
    MissingExact(db, ids);
    NoneMissing(db, ids);
    assert NotFoundMessage([]) == "Products not found: " by {
      assert Join([], ", ") == "";
    }
  }

  /** Distinct stored ids are accepted, and every line is a snapshot of the
      stored product: its name and price, never the request's price, with the
      request's quantity and the product of the two as line total. */
  lemma LookupAccepts(uid: int, items: seq<JsValue>, ids: seq<int>, eng: Engine, db: map<int, Product>)
    requires Keyed(db) && |ids| == |items|
    requires NoDup(ids) && forall k :: 0 <= k < |ids| ==> ids[k] in db
    ensures Lookup(uid, items, ids, eng, db).Accept?
    ensures var d := Lookup(uid, items, ids, eng, db);
      d.userId == uid && |d.lines| == |items| && d.total == LinesTotal(d.lines) &&
      forall k :: 0 <= k < |items| ==> d.lines[k] == LineFor(db[ids[k]], ids[k], items[k], eng)
  {
    FindManyCount(db, ids);
    RepriceNeverThrows(db, ids, items, eng);
    forall k | 0 <= k < |ids| ensures FindById(FindMany(db, ids), ids[k]) == Some(db[ids[k]]) {
      FindFound(db, ids, ids[k]);
    }
  }

  // ---- The decision ----

  /** The guards in their order: the body is destructured first, the user id
      is checked before anything in the body, then the item list, then the
      total (0, a string or a negative number are all refused), and only
      then the items themselves. */
  lemma GuardOrder(user: JsValue, body: JsValue, eng: Engine, db: map<int, Product>, prisma: Prisma)
    ensures body.Null? || body.Undefined? ==> Decide(user, body, eng, db, prisma) == Reject(CatchResponse(eng.nullAccess))
    ensures (!body.Null? && !body.Undefined? && UserId(user, eng).None?) ==>
      Decide(user, body, eng, db, prisma) == Reject(Fail(400, InvalidUser))
    ensures (!body.Null? && !body.Undefined? && UserId(user, eng).Some? &&
      (!Get(body, "items").Arr? || Get(body, "items") == Arr([]))) ==>
      Decide(user, body, eng, db, prisma) == Reject(Fail(400, NoItems))
    ensures (!body.Null? && !body.Undefined? && UserId(user, eng).Some? &&
      Get(body, "items").Arr? && |Get(body, "items").elems| > 0 &&
      !(Get(body, "total").Num? && Get(body, "total").n > 0.0)) ==>
      Decide(user, body, eng, db, prisma) == Reject(Fail(400, BadTotal))
    ensures (!body.Null? && !body.Undefined? && UserId(user, eng).Some? &&
      Get(body, "items").Arr? && |Get(body, "items").elems| > 0 &&
      Get(body, "total").Num? && Get(body, "total").n > 0.0) ==>
      Decide(user, body, eng, db, prisma) == Checkout(UserId(user, eng).value, Get(body, "items").elems, eng, db, prisma)
  {
  }

  /** The item loop returns at the first item with a problem, whatever the
      items after it hold. */
  lemma ItemLoopOrder(items: seq<JsValue>, eng: Engine, k: nat)
    requires k < |items| && forall j :: 0 <= j < k ==> ItemProblem(items[j], eng).None?
    ensures ItemProblem(items[k], eng).Some? ==> FirstItemProblem(items, eng) == ItemProblem(items[k], eng)
  {
    var first := FirstIndex(items, (item: JsValue) => ItemProblem(item, eng).Some?);
    if ItemProblem(items[k], eng).Some? {
      assert first.Some? && first.value == k;
    }
  }

  /** An id that is not a number names the first such item in the 400 message,
      even when a later item has another problem with its id. */
  lemma FirstInvalidIdWins(items: seq<JsValue>, eng: Engine, prisma: Prisma, k: nat)
    requires k < |items| && Resolutions(items, eng)[k].NotANumber?
    requires forall j :: 0 <= j < k ==> !Resolutions(items, eng)[j].NotANumber?
    ensures ResolveIds(items, eng, prisma) == IdsFailed(CatchResponse(InvalidIdMessage(items[k], eng)))
    ensures CatchResponse(InvalidIdMessage(items[k], eng)) == Fail(400, InvalidIdMessage(items[k], eng))
  {
    var rs := Resolutions(items, eng);
    var first := FirstIndex(rs, (x: Resolved) => x.NotANumber?);
    assert rs[k].NotANumber?;
    assert first.Some? && first.value == k;
    var m := InvalidIdMessage(items[k], eng);
    assert m[..|"Invalid productId"|] == "Invalid productId";
    IncludesAtStart(m, "Invalid productId");
  }

  lemma IncludesAtStart(s: string, sub: string)
    requires StartsWith(s, sub)
    ensures Includes(s, sub)
  {
  }

  /** Accepted orders do not depend on the client's prices or total: two
      item lists that agree on every item's productId and quantity, and that
      pass the item loop, are decided alike. */
  lemma ClientPriceIgnored(uid: int, a: seq<JsValue>, b: seq<JsValue>, eng: Engine, db: map<int, Product>, prisma: Prisma)
    requires |a| == |b|
    requires forall k :: 0 <= k < |a| ==> Get(a[k], "productId") == Get(b[k], "productId") && Get(a[k], "quantity") == Get(b[k], "quantity")
    requires FirstItemProblem(a, eng).None? && FirstItemProblem(b, eng).None?
    ensures Checkout(uid, a, eng, db, prisma) == Checkout(uid, b, eng, db, prisma)
  {
    SameIds(a, b, eng, prisma);
    match ResolveIds(a, eng, prisma)
    case IdsFailed(_) =>
    case Ids(ids) => SameLookup(uid, a, b, ids, eng, db);
  }

  lemma SameIds(a: seq<JsValue>, b: seq<JsValue>, eng: Engine, prisma: Prisma)
    requires |a| == |b|
    requires forall k :: 0 <= k < |a| ==> Get(a[k], "productId") == Get(b[k], "productId")
    ensures ResolveIds(a, eng, prisma) == ResolveIds(b, eng, prisma)
  {
    assert Resolutions(a, eng) == Resolutions(b, eng);
    assert forall k :: 0 <= k < |a| ==> InvalidIdMessage(a[k], eng) == InvalidIdMessage(b[k], eng);
  }

  lemma SameLookup(uid: int, a: seq<JsValue>, b: seq<JsValue>, ids: seq<int>, eng: Engine, db: map<int, Product>)
    requires |a| == |b| == |ids|
    requires forall k :: 0 <= k < |a| ==> Get(a[k], "quantity") == Get(b[k], "quantity")
    ensures Lookup(uid, a, ids, eng, db) == Lookup(uid, b, ids, eng, db)
  {
    var products := FindMany(db, ids);
    var ra, rb := Reprice(products, ids, a, eng), Reprice(products, ids, b, eng);
    if ra.Lines? {
      assert rb.Lines?;
      assert ra.lines == rb.lines;
    }
  }

  /** The sum of the line totals: NaN if a line's total is NaN, otherwise the
      plain sum, with nothing added for shipping or tax. */
  function PlainSum(lines: seq<LineItem>): real
    requires forall k :: 0 <= k < |lines| ==> lines[k].total.Real?
  {
    if |lines| == 0 then 0.0 else PlainSum(lines[..|lines| - 1]) + lines[|lines| - 1].total.r
  }

  lemma {:induction false} TotalIsSum(lines: seq<LineItem>)
    ensures (forall k :: 0 <= k < |lines| ==> lines[k].total.Real?) ==> LinesTotal(lines) == Real(PlainSum(lines))
    ensures (exists k :: 0 <= k < |lines| && lines[k].total.NaN?) ==> LinesTotal(lines) == NaN
  {
    if |lines| > 0 {
      var init := lines[..|lines| - 1];
      TotalIsSum(init);
      assert forall k :: 0 <= k < |init| ==> init[k] == lines[k];
      if exists k :: 0 <= k < |lines| && lines[k].total.NaN? {
        var k :| 0 <= k < |lines| && lines[k].total.NaN?;
        if k < |init| {
          assert init[k].total.NaN?;
        }
      }
    }
  }

  /** A line's total is the stored price times the quantity whenever the
      quantity is a number. */
  lemma LineTotal(p: Product, id: int, item: JsValue, eng: Engine)
    requires Get(item, "quantity").Num?
    ensures LineFor(p, id, item, eng).total == Real(p.price * Get(item, "quantity").n)
    ensures LineFor(p, id, item, eng).price == p.price && LineFor(p, id, item, eng).productName == p.name
  {
  }

  // ---- The loops of the handler ----

  /** `for (const item of items)`: returns the answer of the first item with a problem. */
  method CheckItems(items: seq<JsValue>, eng: Engine) returns (problem: Option<Response>)
    ensures problem == FirstItemProblem(items, eng)
  {
    var k := 0;
    while k < |items|
      invariant 0 <= k <= |items|
      invariant forall j :: 0 <= j < k ==> ItemProblem(items[j], eng).None?
    {
      var p := ItemProblem(items[k], eng);
      if p.Some? {
        ItemLoopOrder(items, eng, k);
        return p;
      }
      k := k + 1;
    }
    return None;
  }

  /** `productIds`: the callback throws at the first id that is NaN; the query
      then refuses any id that is a number but not an integer. */
  method ConvertIds(items: seq<JsValue>, eng: Engine, prisma: Prisma) returns (result: IdsResult)
    ensures result == ResolveIds(items, eng, prisma)
  {
    ghost var rs := Resolutions(items, eng);
    var ids: seq<int> := [];
    var notAnInt := false;
    var k := 0;
    while k < |items|
      invariant 0 <= k <= |items| && |ids| == k
      invariant forall j :: 0 <= j < k ==> !rs[j].NotANumber?
      invariant notAnInt <==> exists j :: 0 <= j < k && rs[j].NotAnInt?
      invariant forall j :: 0 <= j < k && rs[j].IdOf? ==> ids[j] == rs[j].id
    {
      var r := ResolveId(Get(items[k], "productId"), eng);
      assert r == rs[k];
      if r.NotANumber? {
        FirstInvalidIdWins(items, eng, prisma, k);
        return IdsFailed(CatchResponse(InvalidIdMessage(items[k], eng)));
      }
      notAnInt := notAnInt || r.NotAnInt?;
      ids := ids + [if r.IdOf? then r.id else 0];
      k := k + 1;
    }
    if notAnInt {
      return IdsFailed(CatchResponse(prisma.invalidIdMessage));
    }
    assert ids == seq(|rs|, k requires 0 <= k < |rs| => rs[k].id);
    return Ids(ids);
  }

  /** `orderItems`, with `calculatedTotal` accumulated line by line. */
  method PriceLines(products: seq<Product>, ids: seq<int>, items: seq<JsValue>, eng: Engine)
    returns (priced: Priced, calculatedTotal: Number)
    requires |ids| == |items|
    ensures priced == Reprice(products, ids, items, eng)
    ensures priced.Lines? ==> calculatedTotal == LinesTotal(priced.lines)
  {
    calculatedTotal := Real(0.0);
    var lines: seq<LineItem> := [];
    var k := 0;
    while k < |items|
      invariant 0 <= k <= |items| && |lines| == k
      invariant forall j :: 0 <= j < k ==>
        (FindById(products, ids[j]).Some? && lines[j] == LineFor(FindById(products, ids[j]).value, ids[j], items[j], eng))
      invariant calculatedTotal == LinesTotal(lines)
    {
      var product := FindById(products, ids[k]);
      if product.None? {
        RepriceThrowsAt(products, ids, items, eng, k);
        return PriceThrows("Product " + IntToString(ids[k]) + " not found"), calculatedTotal;
      }
      var quantity := Get(items[k], "quantity");
      var itemTotal := Mul(Real(product.value.price), ToNumber(quantity, eng));
      calculatedTotal := Add(calculatedTotal, itemTotal);
      var line := LineItem(ids[k], product.value.name, quantity, product.value.price, itemTotal);
      assert (lines + [line])[..k] == lines;
      lines := lines + [line];
      k := k + 1;
    }
    priced := Lines(lines);
  }

  lemma RepriceThrowsAt(products: seq<Product>, ids: seq<int>, items: seq<JsValue>, eng: Engine, k: nat)
    requires |ids| == |items| && k < |ids| && FindById(products, ids[k]).None?
    requires forall j :: 0 <= j < k ==> FindById(products, ids[j]).Some?
    ensures Reprice(products, ids, items, eng) == PriceThrows("Product " + IntToString(ids[k]) + " not found")
  {
    var first := FirstIndex(ids, (id: int) => FindById(products, id).None?);
    assert first.Some? && first.value == k;
  }

  /** The statements of `placeOrder` up to the `create` call, in their order. */
  method Evaluate(user: JsValue, body: JsValue, eng: Engine, db: map<int, Product>, prisma: Prisma)
    returns (decision: Decision)
    ensures decision == Decide(user, body, eng, db, prisma)
  {
    var userId := UserId(user, eng);
    if body.Null? || body.Undefined? {
      return Reject(CatchResponse(eng.nullAccess));
    }
    var items := Get(body, "items");
    var total := Get(body, "total");
    if userId.None? {
      return Reject(Fail(400, InvalidUser));
    }
    if !Truthy(items) || !items.Arr? || |items.elems| == 0 {
      return Reject(Fail(400, NoItems));
    }
    if !Truthy(total) || !IsNumber(total) || AtMostZero(total, eng) {
      return Reject(Fail(400, BadTotal));
    }
    decision := RunCheckout(userId.value, items.elems, eng, db, prisma);
  }

  /** The item loop, the id conversion, the lookup and the repricing. */
  method RunCheckout(uid: int, elems: seq<JsValue>, eng: Engine, db: map<int, Product>, prisma: Prisma)
    returns (decision: Decision)
    ensures decision == Checkout(uid, elems, eng, db, prisma)
  {
    var problem := CheckItems(elems, eng);
    if problem.Some? {
      return Reject(problem.value);
    }
    var resolved := ConvertIds(elems, eng, prisma);
    if resolved.IdsFailed? {
      return Reject(resolved.response);
    }
    var ids := resolved.ids;
    var found := FindMany(db, ids);
    if |found| != |ids| {
      return Reject(Fail(404, NotFoundMessage(MissingIds(found, ids))));
    }
    var priced, calculatedTotal := PriceLines(found, ids, elems, eng);
    if priced.PriceThrows? {
      return Reject(CatchResponse(priced.message));
    }
    return Accept(uid, priced.lines, calculatedTotal);
  }

  // ---- Reading orders back ----

  /** Each order is at least as recent as every later one. */
  ghost predicate NewestFirstOrder(s: seq<Order>) {
    forall i, j :: 0 <= i < j < |s| ==> s[i].createdAt >= s[j].createdAt
  }

  /** An order put before the first order of `s` that is not newer than it. */
  function InsertByDate(o: Order, s: seq<Order>): (r: seq<Order>)
    ensures multiset(r) == multiset(s) + multiset{o}
  {
    if |s| == 0 then [o]
    else if o.createdAt >= s[0].createdAt then [o] + s
    else
      assert s == [s[0]] + s[1..];
      [s[0]] + InsertByDate(o, s[1..])
  }

  /** Inserting an order no newer than `b` into orders no newer than `b`. */
  lemma {:induction false} InsertBounded(o: Order, s: seq<Order>, b: int)
    requires o.createdAt <= b
    requires forall k :: 0 <= k < |s| ==> s[k].createdAt <= b
    ensures forall k :: 0 <= k < |InsertByDate(o, s)| ==> InsertByDate(o, s)[k].createdAt <= b
  {
    if |s| > 0 && o.createdAt < s[0].createdAt {
      InsertBounded(o, s[1..], b);
    }
  }

  /** Inserting into a newest-first list keeps it newest first. */
  lemma {:induction false} InsertKeepsOrder(o: Order, s: seq<Order>)
    requires NewestFirstOrder(s)
    ensures NewestFirstOrder(InsertByDate(o, s))
  {
    if |s| > 0 && o.createdAt < s[0].createdAt {
      var tail := s[1..];
      assert NewestFirstOrder(tail) by {
        forall i, j | 0 <= i < j < |tail| ensures tail[i].createdAt >= tail[j].createdAt {
          assert tail[i] == s[i + 1] && tail[j] == s[j + 1];
        }
      }
      InsertKeepsOrder(o, tail);
      assert forall k :: 0 <= k < |tail| ==> tail[k].createdAt <= s[0].createdAt by {
        forall k | 0 <= k < |tail| ensures tail[k].createdAt <= s[0].createdAt {
          assert tail[k] == s[k + 1];
        }
      }
      InsertBounded(o, tail, s[0].createdAt);
      var rest := InsertByDate(o, tail);
      var r := [s[0]] + rest;
      assert r == InsertByDate(o, s);
      forall i, j | 0 <= i < j < |r| ensures r[i].createdAt >= r[j].createdAt {
        assert r[j] == rest[j - 1];
        if i > 0 {
          assert r[i] == rest[i - 1];
        }
      }
    }
  }

  /** `orderBy: { createdAt: "desc" }`: the same orders, by insertion sort. */
  function NewestFirst(s: seq<Order>): (r: seq<Order>)
    ensures multiset(r) == multiset(s)
  {
    if |s| == 0 then []
    else
      assert s == [s[0]] + s[1..];
      InsertByDate(s[0], NewestFirst(s[1..]))
  }

  /** The sorted orders are newest first. */
  lemma {:induction false} NewestFirstSorted(s: seq<Order>)
    ensures NewestFirstOrder(NewestFirst(s))
  {
    if |s| > 0 {
      NewestFirstSorted(s[1..]);
      InsertKeepsOrder(s[0], NewestFirst(s[1..]));
    }
  }

  /** `getUserOrders`: the orders of the user, newest first. */
  function GetUserOrders(orders: seq<Order>, user: JsValue, eng: Engine): (r: Response)
    ensures UserId(user, eng).None? <==> r == Fail(400, InvalidUser)
    ensures UserId(user, eng).Some? ==> (r.status == 200 && r.body.OrderList? &&
      multiset(r.body.orders) == multiset(Filter(orders, (o: Order) => o.userId == UserId(user, eng).value)))
  {
    match UserId(user, eng)
    case None => Fail(400, InvalidUser)
    case Some(uid) => Response(200, OrderList(NewestFirst(Filter(orders, (o: Order) => o.userId == uid))))
  }

  /** Only the user's orders come back, and all of them. */
  lemma UserOrdersExact(orders: seq<Order>, user: JsValue, eng: Engine, o: Order)
    requires UserId(user, eng).Some?
    ensures o in GetUserOrders(orders, user, eng).body.orders <==> o in orders && o.userId == UserId(user, eng).value
  {
    var uid := UserId(user, eng).value;
    var mine := Filter(orders, (x: Order) => x.userId == uid);
    var r := GetUserOrders(orders, user, eng).body.orders;
    assert o in r <==> o in multiset(r);
    assert o in mine <==> o in multiset(mine);
  }

  /** The user's orders come back newest first. */
  lemma UserOrdersNewestFirst(orders: seq<Order>, user: JsValue, eng: Engine)
    requires UserId(user, eng).Some?
    ensures NewestFirstOrder(GetUserOrders(orders, user, eng).body.orders)
  {
    NewestFirstSorted(Filter(orders, (o: Order) => o.userId == UserId(user, eng).value));
  }

  const OrderNotFound := "Order not found or access denied"

  /** `findFirst({ where: { id, userId } })`. */
  function FindOrder(orders: seq<Order>, id: int, uid: int): (r: Option<Order>)
    ensures r.None? <==> forall k :: 0 <= k < |orders| ==> !(orders[k].id == id && orders[k].userId == uid)
    ensures r.Some? ==> r.value in orders && r.value.id == id && r.value.userId == uid
  {
    if |orders| == 0 then None
    else if orders[0].id == id && orders[0].userId == uid then Some(orders[0])
    else FindOrder(orders[1..], id, uid)
  }

  /** `getOrderById`: the user id is checked before the order id, and an order
      of another user is answered exactly like an order that does not exist.
      `orderId` is the route parameter, always a string. */
  function GetOrderById(orders: seq<Order>, user: JsValue, orderId: string, eng: Engine): (r: Response)
    ensures UserId(user, eng).None? ==> r == Fail(400, InvalidUser)
    ensures UserId(user, eng).Some? && eng.parseInt(orderId).None? ==> r == Fail(400, "Invalid order ID")
    ensures r.status == 200 <==> (UserId(user, eng).Some? && eng.parseInt(orderId).Some? &&
      exists k :: 0 <= k < |orders| && orders[k].id == eng.parseInt(orderId).value && orders[k].userId == UserId(user, eng).value)
    ensures r.status == 200 ==> (r.body.OneOrder? && r.body.order in orders &&
      r.body.order.id == eng.parseInt(orderId).value && r.body.order.userId == UserId(user, eng).value)
    ensures r.status != 200 && UserId(user, eng).Some? && eng.parseInt(orderId).Some? ==> r == Fail(404, OrderNotFound)
  {
    match UserId(user, eng)
    case None => Fail(400, InvalidUser)
    case Some(uid) =>
      match eng.parseInt(orderId)
      case None => Fail(400, "Invalid order ID")
      case Some(id) =>
        match FindOrder(orders, id, uid)
        case None => Fail(404, OrderNotFound)
        case Some(o) => Response(200, OneOrder(o))
  }

  /** An order one user can open by id is one of the orders listed for that user. */
  lemma OpenedOrderIsListed(orders: seq<Order>, user: JsValue, orderId: string, eng: Engine)
    requires GetOrderById(orders, user, orderId, eng).status == 200
    ensures GetOrderById(orders, user, orderId, eng).body.order in GetUserOrders(orders, user, eng).body.orders
  {
    UserOrdersExact(orders, user, eng, GetOrderById(orders, user, orderId, eng).body.order);
  }

  // ---- The handler with its store ----

  /** The two tables `placeOrder` touches. */
  class OrderStore {
    var products: map<int, Product>
    var orders: seq<Order>
    var nextOrderId: int

    /** Products are stored under their ids; order ids are handed out in
        increasing order and stay below the next one. */
    ghost predicate Valid()
      reads this
    {
      && Keyed(products)
      && (forall k :: 0 <= k < |orders| ==> orders[k].id < nextOrderId)
      && (forall i, j :: 0 <= i < j < |orders| ==> orders[i].id < orders[j].id)
    }

    constructor (catalogue: map<int, Product>)
      requires Keyed(catalogue)
      ensures Valid() && products == catalogue && orders == [] && nextOrderId == 1
    {
      products := catalogue;
      orders := [];
      nextOrderId := 1;
    }

    /** `placeOrder`. A rejected request leaves both tables as they were; an
        accepted one is stored under the next order id with the repriced
        lines and their total, unless the database fails to create it. */
    method PlaceOrder(user: JsValue, body: JsValue, eng: Engine, prisma: Prisma, now: int) returns (response: Response)
      requires Valid()
      modifies this
      ensures Valid() && products == old(products)
      ensures match Decide(user, body, eng, old(products), prisma)
        case Reject(r) => response == r && orders == old(orders) && nextOrderId == old(nextOrderId)
        case Accept(uid, lines, total) =>
          if prisma.createFailure.Some? then
            response == CatchResponse(prisma.createFailure.value) && orders == old(orders) && nextOrderId == old(nextOrderId)
          else
            var o := Order(old(nextOrderId), uid, lines, total, now);
            response == Response(201, OneOrder(o)) && orders == old(orders) + [o] && nextOrderId == old(nextOrderId) + 1
    {
      var decision := Evaluate(user, body, eng, products, prisma);
      if decision.Reject? {
        return decision.response;
      }
      if prisma.createFailure.Some? {
        return CatchResponse(prisma.createFailure.value);
      }
      var order := Order(nextOrderId, decision.userId, decision.lines, decision.total, now);
      orders := orders + [order];
      nextOrderId := nextOrderId + 1;
      response := Response(201, OneOrder(order));
    }
  }
}
