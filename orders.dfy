/** The order list: each cart returned by the server becomes an order shown as
    pending, whose items copy code, name and price from the article and whose
    total is the worth of those items; and the table of status captions. */
module Orders {
  import opened Common

  datatype Article = Article(code: string, name: string, price: int)

  datatype CartDetail = CartDetail(id: int, article: Article, variant: string, quantity: int)

  /** A cart as the server sends it. */
  datatype RawOrder = RawOrder(id: int, clientId: string, createdAt: string, cartDetails: seq<CartDetail>)

  datatype OrderItem = OrderItem(id: int, code: string, name: string, variant: string, quantity: int, price: int)

  datatype Order = Order(id: int, clientId: string, date: string, status: string, items: seq<OrderItem>, total: int)

  function FormatItems(details: seq<CartDetail>): (r: seq<OrderItem>)
    ensures |r| == |details|
  {
    seq(|details|, i requires 0 <= i < |details| =>
      OrderItem(details[i].id, details[i].article.code, details[i].article.name, details[i].variant,
                details[i].quantity, details[i].article.price))
  }

  /** `cartDetails.reduce((sum, d) => sum + d.quantity * d.article.price, 0)`. */
  function DetailsTotal(details: seq<CartDetail>): int
  {
    if details == [] then 0
    else DetailsTotal(details[..|details| - 1])
         + details[|details| - 1].quantity * details[|details| - 1].article.price
  }

  /** The worth of the shown items, quantity times price. */
  function ItemsTotal(items: seq<OrderItem>): int
  {
    if items == [] then 0 else ItemsTotal(items[..|items| - 1]) + items[|items| - 1].quantity * items[|items| - 1].price
  }

  /** The total computed from the cart agrees with the items shown. */
  lemma {:induction false} DetailsTotalMatchesItems(details: seq<CartDetail>)
    ensures DetailsTotal(details) == ItemsTotal(FormatItems(details))
  {
    if details != [] {
      assert FormatItems(details)[..|details| - 1] == FormatItems(details[..|details| - 1]);
      DetailsTotalMatchesItems(details[..|details| - 1]);
    }
  }

  /** With non-negative quantities and prices no order has a negative total. */
  lemma {:induction false} ItemsTotalNonNegative(items: seq<OrderItem>)
    requires forall it :: it in items ==> it.quantity >= 0 && it.price >= 0
    ensures ItemsTotal(items) >= 0
  {
    if items != [] {
      assert items[|items| - 1] in items;
      assert forall it :: it in items[..|items| - 1] ==> it in items;
      ItemsTotalNonNegative(items[..|items| - 1]);
    }
  }

  /** One order of the `data.map(...)`; every order is shown as pending. */
  function FormatOrder(o: RawOrder): Order
  {
    Order(o.id, o.clientId, o.createdAt, "pending", FormatItems(o.cartDetails), DetailsTotal(o.cartDetails))
  }

  function FormatOrders(data: seq<RawOrder>): (r: seq<Order>)
    ensures |r| == |data|
  {
    seq(|data|, i requires 0 <= i < |data| => FormatOrder(data[i]))
  }

  /** Orders map one to one and in order from the carts; each is pending, its
      items copy code, name, variant, quantity and article price from the cart's
      details, and its total is the worth of those items (0 for an empty cart). */
  lemma FormatOrdersFacts(data: seq<RawOrder>)
    ensures var r := FormatOrders(data);
      forall i :: 0 <= i < |data| ==>
        && r[i].id == data[i].id && r[i].clientId == data[i].clientId && r[i].date == data[i].createdAt
        && r[i].status == "pending"
        && StatusLabel(r[i].status) == Some("Pendiente")
        && |r[i].items| == |data[i].cartDetails|
        && (forall j :: 0 <= j < |data[i].cartDetails| ==>
              var d := data[i].cartDetails[j];
              r[i].items[j] == OrderItem(d.id, d.article.code, d.article.name, d.variant, d.quantity, d.article.price))
        && r[i].total == ItemsTotal(r[i].items)
        && (data[i].cartDetails == [] ==> r[i].total == 0)
  {
    forall i | 0 <= i < |data|
      ensures FormatOrders(data)[i].total == ItemsTotal(FormatOrders(data)[i].items)
    {
      DetailsTotalMatchesItems(data[i].cartDetails);
    }
  }

  /** `labels[status]` over the table of the four statuses. */
  function StatusLabel(status: string): Option<string>
  {
    if status == "pending" then Some("Pendiente")
    else if status == "processing" then Some("En Proceso")
    else if status == "completed" then Some("Completado")
    else if status == "cancelled" then Some("Cancelado")
    else None
  }

  /** Exactly the four statuses have a caption, the captions are distinct, and
      so a caption determines the status it came from. */
  lemma StatusLabelTable(status: string, other: string)
    ensures StatusLabel(status).Some? <==> status in {"pending", "processing", "completed", "cancelled"}
    ensures StatusLabel(status).Some? && StatusLabel(status) == StatusLabel(other) ==> status == other
  {
  }
}
