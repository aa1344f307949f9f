/** The client's validators (`validators.ts`): form-field checks with a
    fixed order of messages, and run-time shape checks on products, cart items,
    order data and API responses. A result of `None` is the source's `null`
    (valid); `Some(message)` is the message shown. */
module Validators {
  import opened Options
  import opened Strings
  import opened Js
  import opened Sequences
  import ShopTypes
  import CartStore

  type ValidationResult = Option<string>

  // ---- The e-mail pattern ----

  /** A character of the class `[^\s@]`. */
  predicate PlainChar(c: char) {
    !IsWhitespace(c) && c != '@'
  }

  /** A non-empty run of `[^\s@]`. */
  predicate PlainRun(t: string) {
    |t| > 0 && forall k :: 0 <= k < |t| ==> PlainChar(t[k])
  }

  /** The regular expression `^[^\s@]+@[^\s@]+\.[^\s@]+$`, as written: three
      runs of `[^\s@]` divided by an `@` and then a `.`. The middle run may itself
      contain dots, so any dot after the `@` that leaves a non-empty run on
      each side will do. */
  ghost predicate EmailPattern(s: string) {
    exists i, j :: 0 < i < j < |s| - 1 && s[i] == '@' && s[j] == '.' &&
      PlainRun(s[..i]) && PlainRun(s[i + 1..j]) && PlainRun(s[j + 1..])
  }

  /** The same test, computed: split at the first `@`, check both sides, and
      look for a dot strictly inside the domain. */
  predicate EmailShaped(s: string) {
    match IndexOf(s, '@')
    case None => false
    case Some(i) =>
      var domain := s[i + 1..];
      PlainRun(s[..i]) && PlainRun(domain) && |domain| >= 3 && '.' in domain[1..|domain| - 1]
  }

  /** Every non-empty slice of a plain run is a plain run. */
  lemma PlainSlice(t: string, lo: int, hi: int)
    requires PlainRun(t) && 0 <= lo < hi <= |t|
    ensures PlainRun(t[lo..hi])
  {
    forall k | 0 <= k < hi - lo ensures PlainChar(t[lo..hi][k]) {
      assert t[lo..hi][k] == t[lo + k];
    }
  }

  /** Two plain runs around one more plain character make a plain run. */
  lemma PlainJoin(a: string, c: char, b: string)
    requires PlainRun(a) && PlainChar(c) && PlainRun(b)
    ensures PlainRun(a + [c] + b)
  {
    var t := a + [c] + b;
    forall k | 0 <= k < |t| ensures PlainChar(t[k]) {
      if k < |a| {
        assert t[k] == a[k];
      } else if k > |a| {
        assert t[k] == b[k - |a| - 1];
      }
    }
  }

  lemma ShapedMatches(s: string)
    requires EmailShaped(s)
    ensures EmailPattern(s)
  {
    var i := IndexOf(s, '@').value;
    var domain := s[i + 1..];
    var inner := domain[1..|domain| - 1];
    var m :| 0 <= m < |inner| && inner[m] == '.';
    var j := i + 2 + m;
    assert s[i + 1..j] == domain[..m + 1];
    assert s[j + 1..] == domain[m + 2..];
    PlainSlice(domain, 0, m + 1);
    PlainSlice(domain, m + 2, |domain|);
    assert s[i] == '@' && s[j] == '.';
  }

  lemma MatchesShaped(s: string, i: int, j: int)
    requires 0 < i < j < |s| - 1 && s[i] == '@' && s[j] == '.'
    requires PlainRun(s[..i]) && PlainRun(s[i + 1..j]) && PlainRun(s[j + 1..])
    ensures EmailShaped(s)
  {
    assert IndexOf(s, '@') == Some(i) by {
      assert s[i] in s;
      assert forall k :: 0 <= k < i ==> s[k] == s[..i][k] && s[k] != '@';
      assert '@' !in s[..i];
    }
    var domain := s[i + 1..];
    PlainJoin(s[i + 1..j], '.', s[j + 1..]);
    assert domain == s[i + 1..j] + ['.'] + s[j + 1..];
    assert domain[1..|domain| - 1][j - i - 2] == '.';
  }

  /** The computed test is the regular expression. */
  lemma EmailShapedIsPattern(s: string)
    ensures EmailShaped(s) <==> EmailPattern(s)
  {
    if EmailShaped(s) {
      ShapedMatches(s);
    }
    if EmailPattern(s) {
      var i, j :| 0 < i < j < |s| - 1 && s[i] == '@' && s[j] == '.' &&
        PlainRun(s[..i]) && PlainRun(s[i + 1..j]) && PlainRun(s[j + 1..]);
      MatchesShaped(s, i, j);
    }
  }

  // ---- Form fields ----

  const EmailRequired := "Email is required"
  const EmailInvalid := "Please enter a valid email address"
  const PasswordRequired := "Password is required"
  const PasswordShort := "Password must be at least 6 characters long"
  const NameRequired := "Name is required"
  const NameShort := "Name must be at least 2 characters long"

  /** `validators.email`: blank after trimming is missing; otherwise the
      untrimmed input must match the pattern. */
  function Email(email: string): (r: ValidationResult)
    ensures r == Some(EmailRequired) <==> Trim(email) == ""
    ensures r.None? <==> Trim(email) != "" && EmailPattern(email)
    ensures r.Some? ==> r.value == EmailRequired || r.value == EmailInvalid
  {
    EmailShapedIsPattern(email);
    if Trim(email) == "" then Some(EmailRequired)
    else if !EmailShaped(email) then Some(EmailInvalid)
    else None
  }

  /** Whitespace around an otherwise valid address is refused, not trimmed away. */
  lemma EmailKeepsSurroundingSpace(email: string)
    requires EmailPattern(email)
    ensures Email(" " + email) == Some(EmailInvalid)
  {
    var s := " " + email;
    EmailShapedIsPattern(email);
    var at := IndexOf(email, '@').value;
    assert PlainChar(email[..at][0]);
    assert !AllWhitespace(s) by {
      assert s[1] == email[0];
    }
    assert IndexOf(s, '@') == Some(at + 1) by {
      assert s[at + 1] == '@';
      assert s[..at + 1] == [' '] + email[..at];
    }
    assert s[..at + 1][0] == ' ';
    EmailShapedIsPattern(s);
  }

  /** `validators.password`: non-empty, then between 6 and 128 characters. */
  function Password(password: string): (r: ValidationResult)
    ensures r.None? <==> 6 <= |password| <= 128
    ensures r == Some(PasswordRequired) <==> password == ""
    ensures r == Some(PasswordShort) <==> 0 < |password| < 6
    ensures r == Some("Password must be less than 128 characters") <==> |password| > 128
  {
    if password == "" then Some(PasswordRequired)
    else if |password| < 6 then Some(PasswordShort)
    else if |password| > 128 then Some("Password must be less than 128 characters")
    else None
  }

  /** `validators.name`: every length test is on the trimmed name. */
  function Name(name: string): (r: ValidationResult)
    ensures r.None? <==> 2 <= |Trim(name)| <= 50
    ensures r == Some(NameRequired) <==> Trim(name) == ""
    ensures r == Some(NameShort) <==> |Trim(name)| == 1
    ensures r == Some("Name must be less than 50 characters") <==> |Trim(name)| > 50
  {
    if Trim(name) == "" then Some(NameRequired)
    else if |Trim(name)| < 2 then Some(NameShort)
    else if |Trim(name)| > 50 then Some("Name must be less than 50 characters")
    else None
  }

  /** `validators.required`: a blank value is missing, and the message names the field. */
  function Required(value: string, fieldName: string): (r: ValidationResult)
    ensures r.None? <==> !AllWhitespace(value)
    ensures r.Some? ==> r.value == fieldName + " is required"
  {
    if Trim(value) == "" then Some(fieldName + " is required") else None
  }

  /** `validators.minLength`: a value exactly `min` long passes. */
  function MinLength(value: string, min: int, fieldName: string): (r: ValidationResult)
    ensures r.None? <==> |value| >= min
    ensures r.Some? ==> StartsWith(r.value, fieldName + " must be at least ")
  {
    if |value| < min then Some(fieldName + " must be at least " + IntToString(min) + " characters")
    else None
  }

  /** `validators.maxLength`: a value exactly `max` long passes, although the
      message speaks of "less than". */
  function MaxLength(value: string, max: int, fieldName: string): (r: ValidationResult)
    ensures r.None? <==> |value| <= max
    ensures r.Some? ==> StartsWith(r.value, fieldName + " must be less than ")
  {
    if |value| > max then Some(fieldName + " must be less than " + IntToString(max) + " characters")
    else None
  }

  /** The boundaries of the length checks: both ends are accepted. */
  lemma LengthBoundaries(value: string, fieldName: string)
    ensures MinLength(value, |value|, fieldName).None? && MaxLength(value, |value|, fieldName).None?
    ensures MinLength(value, |value| + 1, fieldName).Some? && (|value| > 0 ==> MaxLength(value, |value| - 1, fieldName).Some?)
    ensures |value| == 128 ==> Password(value).None?
  {
  }

  // ---- Records received at run time ----

  /** `validateProduct`: an object whose five fields have the declared types and
      whose price is positive. */
  predicate ValidProduct(product: JsValue) {
    && Truthy(product)
    && Get(product, "id").Str?
    && Get(product, "name").Str?
    && IsNumber(Get(product, "price"))
    && Get(product, "category").Str?
    && Get(product, "image").Str?
    && Get(product, "price").n > 0.0
  }

  /** `validateCartItem`: a valid product and a positive numeric quantity. */
  predicate ValidCartItem(item: JsValue) {
    && Truthy(item)
    && ValidProduct(Get(item, "product"))
    && IsNumber(Get(item, "quantity"))
    && Get(item, "quantity").n > 0.0
  }

  /** A typed product as the JSON object it travels as. */
  function ProductJson(p: ShopTypes.Product): JsValue {
    Obj(map["id" := Str(p.id), "name" := Str(p.name), "price" := Num(p.price),
            "category" := Str(p.category), "image" := Str(p.image)])
  }

  /** A typed cart entry as the JSON object it travels as. */
  function CartItemJson(c: ShopTypes.CartItem): JsValue {
    Obj(map["product" := ProductJson(c.product), "quantity" := Num(c.quantity as real)])
  }

  /** The typed product a valid JSON product describes. */
  function ProductOf(v: JsValue): (p: ShopTypes.Product)
    requires ValidProduct(v)
    ensures p.price > 0.0
  {
    ShopTypes.Product(Get(v, "id").s, Get(v, "name").s, Get(v, "price").n, Get(v, "category").s, Get(v, "image").s)
  }

  /** Only objects can pass, and a typed product passes exactly when its price
      is positive; reading it back gives the same product. */
  lemma ProductRoundTrip(p: ShopTypes.Product, v: JsValue)
    ensures ValidProduct(v) ==> v.Obj?
    ensures ValidProduct(ProductJson(p)) <==> p.price > 0.0
    ensures p.price > 0.0 ==> ProductOf(ProductJson(p)) == p
  {
  }

  /** A typed cart entry passes exactly when its price and quantity are positive. */
  lemma CartItemRoundTrip(c: ShopTypes.CartItem)
    ensures ValidCartItem(CartItemJson(c)) <==> c.product.price > 0.0 && c.quantity > 0
  {
    ProductRoundTrip(c.product, ProductJson(c.product));
  }

  // ---- Order data ----

  const EmptyOrder := "Order must contain at least one item"
  const BadItem := "Invalid cart item found"
  const BadTotal := "Invalid order total"
  const TotalMismatch := "Order total does not match items"

  /** A number the source reads off a validated record (0 where there is none). */
  function NumOf(v: JsValue): real {
    if v.Num? then v.n else 0.0
  }

  /** `item.product.price * item.quantity`. */
  function ItemCost(item: JsValue): real {
    NumOf(Get(Get(item, "product"), "price")) * NumOf(Get(item, "quantity"))
  }

  /** `items.reduce((sum, item) => sum + item.product.price * item.quantity, 0)`. */
  function ItemsTotal(items: seq<JsValue>): real {
    if |items| == 0 then 0.0
    else ItemsTotal(items[..|items| - 1]) + ItemCost(items[|items| - 1])
  }

  /** `Math.abs(a - b) > 0.01`. */
  predicate FarApart(a: real, b: real) {
    a - b > 0.01 || b - a > 0.01
  }

  /** `validateOrderData`: a non-empty array, every item valid, a positive
      numeric total, and a total within 0.01 of the items' sum. */
  function OrderData(items: JsValue, total: JsValue): (r: ValidationResult)
    ensures r == Some(EmptyOrder) <==> !items.Arr? || |items.elems| == 0
    ensures r == Some(BadItem) <==> (items.Arr? && |items.elems| > 0 &&
      exists k :: 0 <= k < |items.elems| && !ValidCartItem(items.elems[k]))
    ensures r.None? <==> (items.Arr? && |items.elems| > 0 &&
      (forall k :: 0 <= k < |items.elems| ==> ValidCartItem(items.elems[k])) &&
      IsNumber(total) && total.n > 0.0 && !FarApart(ItemsTotal(items.elems), total.n))
    ensures r == Some(BadTotal) <==> (items.Arr? && |items.elems| > 0 &&
      (forall k :: 0 <= k < |items.elems| ==> ValidCartItem(items.elems[k])) &&
      !(IsNumber(total) && total.n > 0.0))
    ensures r == Some(TotalMismatch) <==> (items.Arr? && |items.elems| > 0 &&
      (forall k :: 0 <= k < |items.elems| ==> ValidCartItem(items.elems[k])) &&
      IsNumber(total) && total.n > 0.0 && FarApart(ItemsTotal(items.elems), total.n))
  {
    if !items.Arr? || |items.elems| == 0 then Some(EmptyOrder)
    else if exists k :: 0 <= k < |items.elems| && !ValidCartItem(items.elems[k]) then Some(BadItem)
    else if !IsNumber(total) || total.n <= 0.0 then Some(BadTotal)
    else if FarApart(ItemsTotal(items.elems), total.n) then Some(TotalMismatch)
    else None
  }

  /** A typed cart as the array it travels as. */
  function CartJson(cart: seq<ShopTypes.CartItem>): (r: seq<JsValue>)
    ensures |r| == |cart|
    ensures forall k :: 0 <= k < |cart| ==> r[k] == CartItemJson(cart[k])
  {
    seq(|cart|, k requires 0 <= k < |cart| => CartItemJson(cart[k]))
  }

  /** On a typed cart the validator's sum is the cart's subtotal. */
  lemma {:induction false} ItemsTotalIsSubtotal(cart: seq<ShopTypes.CartItem>)
    ensures ItemsTotal(CartJson(cart)) == CartStore.Subtotal(cart)
  {
    if |cart| > 0 {
      var front := cart[..|cart| - 1];
      ItemsTotalIsSubtotal(front);
      assert CartJson(cart)[..|cart| - 1] == CartJson(front);
      assert ItemCost(CartJson(cart)[|cart| - 1]) == CartStore.LineCost(cart[|cart| - 1]);
    }
  }

  /** Every entry of a cart of positive prices and quantities is a valid item. */
  lemma CartItemsValid(cart: seq<ShopTypes.CartItem>)
    requires forall k :: 0 <= k < |cart| ==> cart[k].product.price > 0.0 && cart[k].quantity > 0
    ensures forall k :: 0 <= k < |cart| ==> ValidCartItem(CartJson(cart)[k])
  {
    forall k | 0 <= k < |cart| ensures ValidCartItem(CartJson(cart)[k]) {
      CartItemRoundTrip(cart[k]);
    }
  }

  /** A cart of positive prices and quantities passes with its own subtotal. */
  lemma {:induction false} SubtotalAccepted(cart: seq<ShopTypes.CartItem>)
    requires |cart| > 0
    requires forall k :: 0 <= k < |cart| ==> cart[k].product.price > 0.0 && cart[k].quantity > 0
    ensures CartStore.Subtotal(cart) > 0.0
    ensures OrderData(Arr(CartJson(cart)), Num(CartStore.Subtotal(cart))).None?
  {
    CartItemsValid(cart);
    ItemsTotalIsSubtotal(cart);
    SubtotalPositive(cart);
  }

  lemma {:induction false} SubtotalPositive(cart: seq<ShopTypes.CartItem>)
    requires |cart| > 0
    requires forall k :: 0 <= k < |cart| ==> cart[k].product.price > 0.0 && cart[k].quantity > 0
    ensures CartStore.Subtotal(cart) > 0.0
  {
    var last := cart[|cart| - 1];
    assert CartStore.LineCost(last) > 0.0 by {
      var p, q := last.product.price, last.quantity as real;
      assert p > 0.0 && q >= 1.0;
      assert p * q >= p * 1.0;
    }
    if |cart| > 1 {
      SubtotalPositive(cart[..|cart| - 1]);
    }
  }

  /** The total the cart screen charges (subtotal with shipping and tax) never
      passes this check: it always exceeds the items' sum by more than 0.01. */
  lemma {:induction false} SummaryTotalRejected(cart: seq<ShopTypes.CartItem>)
    requires |cart| > 0
    requires forall k :: 0 <= k < |cart| ==> cart[k].product.price > 0.0 && cart[k].quantity > 0
    ensures OrderData(Arr(CartJson(cart)), Num(CartStore.CartSummary(cart).total)) == Some(TotalMismatch)
  {
    CartItemsValid(cart);
    ItemsTotalIsSubtotal(cart);
    SubtotalPositive(cart);
  }

  // ---- Responses ----

  /** `field in response` for an object or an array: an own property (an
      object's key; an array's `length` or an index), or one found on the
      prototype chain, which `inherited` says. */
  predicate HasProperty(v: JsValue, field: string, inherited: (JsValue, string) -> bool) {
    || (v.Obj? && field in v.props)
    || (v.Arr? && (field == "length" || exists k :: 0 <= k < |v.elems| && field == NatToString(k)))
    || inherited(v, field)
  }

  /** `validateApiResponse`: a non-null object, then the first expected field
      that is absent. */
  function ApiResponse(response: JsValue, expectedFields: seq<string>, inherited: (JsValue, string) -> bool): (r: ValidationResult)
    ensures r == Some("Invalid response format") <==> !(response.Obj? || response.Arr?)
    ensures r.None? <==> ((response.Obj? || response.Arr?) &&
      forall k :: 0 <= k < |expectedFields| ==> HasProperty(response, expectedFields[k], inherited))
    ensures (response.Obj? || response.Arr?) && r.Some? ==>
      exists k :: (0 <= k < |expectedFields| &&
        !HasProperty(response, expectedFields[k], inherited) && r.value == "Missing required field: " + expectedFields[k] &&
        forall m :: 0 <= m < k ==> HasProperty(response, expectedFields[m], inherited))
  {
    if !Truthy(response) || TypeOf(response) != "object" then Some("Invalid response format")
    else
      match FirstIndex(expectedFields, (f: string) => !HasProperty(response, f, inherited))
      case None => None
      case Some(k) => Some("Missing required field: " + expectedFields[k])
  }

  /** The part of a fetch `Response` the check reads. */
  datatype FetchResponse = FetchResponse(ok: bool, status: int, statusText: string)

  /** `validateNetworkResponse`: any response that is not `ok` is an error
      naming its status code and text. */
  function NetworkResponse(response: FetchResponse): (r: ValidationResult)
    ensures r.None? <==> response.ok
    ensures r.Some? ==> r.value == "Network error: " + IntToString(response.status) + " " + response.statusText
  {
    if !response.ok then Some("Network error: " + IntToString(response.status) + " " + response.statusText)
    else None
  }
}
