/** The order catalogue page: a map of pending quantities keyed by
    `code-variant`, a cart of lines that is only ever appended to, the cart
    total, the user-role lookup and the order sent on confirmation. */
module NewOrder {
  import opened Common
  import opened Text

  datatype Product = Product(id: int, code: string, name: string, price: int)

  datatype CartItem = CartItem(id: int, code: string, name: string, price: int, quantity: int, variant: string)

  /** The pending-quantity key of a product variant, `${code}-${variant}`. */
  function QuantityKey(code: string, variant: string): string
  {
    code + "-" + variant
  }

  /** The key is not injective: two different (code, variant) pairs can share it,
      and then they share one pending quantity. */
  lemma QuantityKeyCollides()
    ensures ("A-B", "C") != ("A", "B-C")
    ensures QuantityKey("A-B", "C") == QuantityKey("A", "B-C")
  {
  }

  /** `quantities[key] || 0`: a missing key reads as 0. */
  function Pending(quantities: map<string, int>, key: string): int
  {
    if key in quantities then quantities[key] else 0
  }

  function Max(a: int, b: int): int
  {
    if a >= b then a else b
  }

  /** `Math.max(0, (prev[key] || 0) + delta)` stored under `key`. */
  function Bumped(quantities: map<string, int>, key: string, delta: int): map<string, int>
  {
    quantities[key := Max(0, Pending(quantities, key) + delta)]
  }

  /** A quantity change never goes below zero and touches no other key. */
  lemma BumpedFacts(quantities: map<string, int>, key: string, delta: int)
    ensures Pending(Bumped(quantities, key, delta), key) >= 0
    ensures Pending(Bumped(quantities, key, delta), key) >= Pending(quantities, key) + delta
    ensures Pending(quantities, key) + delta >= 0
            ==> Pending(Bumped(quantities, key, delta), key) == Pending(quantities, key) + delta
    ensures Pending(quantities, key) + delta < 0 ==> Pending(Bumped(quantities, key, delta), key) == 0
    ensures forall k :: k != key ==> Pending(Bumped(quantities, key, delta), k) == Pending(quantities, k)
  {
  }

  /** A line matches when both its code and its variant match. */
  predicate IsLine(item: CartItem, code: string, variant: string)
  {
    item.code == code && item.variant == variant
  }

  /** `items.filter(item => !(item.code === code && item.variant === variant))`. */
  function WithoutLine(items: seq<CartItem>, code: string, variant: string): (r: seq<CartItem>)
    ensures |r| <= |items|
    ensures forall it :: it in r <==> it in items && !IsLine(it, code, variant)
  {
    if items == [] then []
    else (if IsLine(items[0], code, variant) then [] else [items[0]]) + WithoutLine(items[1..], code, variant)
  }

  /** Removal keeps the surviving lines in their order: it distributes over concatenation. */
  lemma {:induction false} WithoutLineConcat(a: seq<CartItem>, b: seq<CartItem>, code: string, variant: string)
    ensures WithoutLine(a + b, code, variant) == WithoutLine(a, code, variant) + WithoutLine(b, code, variant)
  {
    if a == [] {
      assert a + b == b;
    } else {
      assert (a + b)[1..] == a[1..] + b;
      WithoutLineConcat(a[1..], b, code, variant);
    }
  }

  /** Removal of a code and variant no line has changes nothing. */
  lemma {:induction false} WithoutLineNone(items: seq<CartItem>, code: string, variant: string)
    requires forall it :: it in items ==> !IsLine(it, code, variant)
    ensures WithoutLine(items, code, variant) == items
  {
    if items != [] {
      WithoutLineNone(items[1..], code, variant);
    }
  }

  /** `items.map(item => matches ? { ...item, quantity } : item)`. */
  function WithQuantity(items: seq<CartItem>, code: string, variant: string, quantity: int): (r: seq<CartItem>)
    ensures |r| == |items|
  {
    seq(|items|, i requires 0 <= i < |items| =>
      if IsLine(items[i], code, variant) then items[i].(quantity := quantity) else items[i])
  }

  /** A quantity update changes only the quantity of the matching lines. */
  lemma WithQuantityOnly(items: seq<CartItem>, code: string, variant: string, quantity: int, i: int)
    requires 0 <= i < |items|
    ensures var r := WithQuantity(items, code, variant, quantity);
      && r[i].(quantity := items[i].quantity) == items[i]
      && (IsLine(items[i], code, variant) ==> r[i].quantity == quantity)
      && (!IsLine(items[i], code, variant) ==> r[i] == items[i])
  {
  }

  /** `items.reduce((sum, item) => sum + item.price * item.quantity, 0)`. */
  function CartTotal(items: seq<CartItem>): int
  {
    if items == [] then 0
    else CartTotal(items[..|items| - 1]) + items[|items| - 1].price * items[|items| - 1].quantity
  }

  /** The total of two carts laid end to end is the sum of their totals. */
  lemma {:induction false} CartTotalConcat(a: seq<CartItem>, b: seq<CartItem>)
    ensures CartTotal(a + b) == CartTotal(a) + CartTotal(b)
  {
    if b == [] {
      assert a + b == a;
    } else {
      assert (a + b)[..|a + b| - 1] == a + b[..|b| - 1];
      assert (a + b)[|a + b| - 1] == b[|b| - 1];
      CartTotalConcat(a, b[..|b| - 1]);
    }
  }

  /** With non-negative prices and quantities the total is non-negative, and zero for an empty cart. */
  lemma {:induction false} CartTotalNonNegative(items: seq<CartItem>)
    requires forall it :: it in items ==> it.price >= 0 && it.quantity >= 0
    ensures CartTotal(items) >= 0
    ensures items == [] ==> CartTotal(items) == 0
  {
    if items != [] {
      assert items[|items| - 1] in items;
      assert forall it :: it in items[..|items| - 1] ==> it in items;
      CartTotalNonNegative(items[..|items| - 1]);
    }
  }

  // ---------------------------------------------------------------------------
  // Role and order

  datatype Role = Admin | Seller | Client

  /** getUserRoleFromLocalStorage. */
  function RoleOf(user: StoredUser): Role
  {
    match user
    case Parsed(_, Some(role)) =>
      if Lower(role) == "admin" then Admin
      else if Lower(role) == "vendedor" then Seller
      else Client
    case _ => Client
  }

  /** Admin and seller are recognised ignoring case; everything else is a client. */
  lemma RoleMapping(user: StoredUser)
    ensures RoleOf(user) == Admin <==> user.Parsed? && user.role.Some? && Lower(user.role.value) == "admin"
    ensures RoleOf(user) == Seller <==> user.Parsed? && user.role.Some? && Lower(user.role.value) == "vendedor"
    ensures !(user.Parsed? && user.role.Some?) ==> RoleOf(user) == Client
  {
  }

  /** Case does not matter: "ADMIN", "Admin" and "admin" give the same role. */
  lemma RoleIgnoresCase(username: Option<string>, role: string)
    ensures RoleOf(Parsed(username, Some(role))) == RoleOf(Parsed(username, Some(Lower(role))))
  {
    LowerIdempotent(role);
  }

  const OrderPlaced: string := "Pedido realizado con éxito"
  const OrderFailed: string := "Error al procesar el pedido"

  datatype OrderHeader = OrderHeader(clientId: int, sellerId: Option<int>, comments: string)
  datatype OrderDetail = OrderDetail(articleCode: string, variant: string, quantity: int)
  datatype Order = Order(header: OrderHeader, details: seq<OrderDetail>)

  /** The body of the order request built by confirmOrder. */
  function BuildOrder(role: Role, clientId: int, sellerId: int, items: seq<CartItem>): Order
  {
    Order(
      OrderHeader(clientId, if role == Client then None else Some(sellerId), "Pedido desde frontend"),
      seq(|items|, i requires 0 <= i < |items| => OrderDetail(items[i].code, items[i].variant, items[i].quantity)))
  }

  /** The seller is left out exactly for clients; every cart line becomes one detail, in order. */
  lemma BuildOrderFacts(role: Role, clientId: int, sellerId: int, items: seq<CartItem>)
    ensures var o := BuildOrder(role, clientId, sellerId, items);
      && (o.header.sellerId == None <==> role == Client)
      && (role != Client ==> o.header.sellerId == Some(sellerId))
      && o.header.clientId == clientId
      && |o.details| == |items|
      && forall i :: 0 <= i < |items| ==>
           o.details[i] == OrderDetail(items[i].code, items[i].variant, items[i].quantity)
  {
  }

  // ---------------------------------------------------------------------------
  // The page state

  class Cart {
    var quantities: map<string, int>
    var cartItems: seq<CartItem>

    /** No pending quantity is negative and every cart line holds a positive quantity. */
    ghost predicate Valid()
      reads this
    {
      && (forall k :: k in quantities ==> quantities[k] >= 0)
      && (forall it :: it in cartItems ==> it.quantity > 0)
    }

    constructor ()
      ensures Valid() && quantities == map[] && cartItems == []
    {
      quantities := map[];
      cartItems := [];
    }

    /** handleQuantityChange. */
    method QuantityChange(product: Product, variant: string, delta: int)
      requires Valid()
      modifies this
      ensures Valid()
      ensures quantities == Bumped(old(quantities), QuantityKey(product.code, variant), delta)
      ensures cartItems == old(cartItems)
    {
      var key := QuantityKey(product.code, variant);
      quantities := quantities[key := Max(0, Pending(quantities, key) + delta)];
    }

    /** handleAddToCart: a positive pending quantity becomes a new line at the end
        (never merged with an equal line) and the pending quantity goes back to 0. */
    method AddToCart(product: Product, variant: string)
      requires Valid()
      modifies this
      ensures Valid()
      ensures var key := QuantityKey(product.code, variant);
        var q := Pending(old(quantities), key);
        if q > 0 then
          && cartItems == old(cartItems) + [CartItem(product.id, product.code, product.name, product.price, q, variant)]
          && quantities == old(quantities)[key := 0]
        else
          cartItems == old(cartItems) && quantities == old(quantities)
    {
      var key := QuantityKey(product.code, variant);
      var quantity := Pending(quantities, key);
      if quantity > 0 {
        cartItems := cartItems + [CartItem(product.id, product.code, product.name, product.price, quantity, variant)];
        quantities := quantities[key := 0];
      }
    }

    /** removeFromCart. */
    method RemoveFromCart(code: string, variant: string)
      requires Valid()
      modifies this
      ensures Valid()
      ensures cartItems == WithoutLine(old(cartItems), code, variant)
      ensures quantities == old(quantities)
    {
      cartItems := WithoutLine(cartItems, code, variant);
    }

    /** updateCartItemQuantity: a quantity of zero or less removes the lines. */
    method UpdateCartItemQuantity(code: string, variant: string, newQuantity: int)
      requires Valid()
      modifies this
      ensures Valid()
      ensures newQuantity <= 0 ==> cartItems == WithoutLine(old(cartItems), code, variant)
      ensures newQuantity > 0 ==> cartItems == WithQuantity(old(cartItems), code, variant, newQuantity)
      ensures quantities == old(quantities)
    {
      if newQuantity <= 0 {
        RemoveFromCart(code, variant);
        return;
      }
      cartItems := WithQuantity(cartItems, code, variant, newQuantity);
    }

    /** confirmOrder: `sent` is the request body; a successful post empties the cart. */
    /** `postOk` false stands for a response that is not ok; the alert then
        shows the message of the error thrown for it. */
    method ConfirmOrder(role: Role, clientId: int, sellerId: int, postOk: bool) returns (sent: Order, alert: string)
      requires Valid()
      modifies this
      ensures Valid()
      ensures sent == BuildOrder(role, clientId, sellerId, old(cartItems))
      ensures cartItems == if postOk then [] else old(cartItems)
      ensures alert == if postOk then OrderPlaced else OrderFailed
      ensures quantities == old(quantities)
    {
      sent := BuildOrder(role, clientId, sellerId, cartItems);
      if postOk {
        alert := OrderPlaced;
        cartItems := [];
      } else {
        alert := OrderFailed;
      }
    }
  }
}
