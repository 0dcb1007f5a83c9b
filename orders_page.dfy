/**
 * The order history screen, src/pages/OrdersPage.tsx: for each order the
 * badge (label and colour of its status), its first item, the number of
 * pieces and the total. The orders are those the API's order list returns.
 */
module OrdersPage {
  import opened Common
  import opened Text
  import Orders
  import Tables

  type Order = Orders.FormattedOrder
  type Item = Orders.FormattedItem

  /** `statusColors`: the badge classes of the seven known statuses; any other status has none. */
  function StatusColor(status: string): Option<string>
  {
    match status
    case "pending" => Some("bg-warning text-warning-foreground")
    case "confirmed" => Some("bg-primary text-primary-foreground")
    case "processing" => Some("bg-primary text-primary-foreground")
    case "shipped" => Some("bg-primary text-primary-foreground")
    case "delivered" => Some("bg-success text-success-foreground")
    case "cancelled" => Some("bg-destructive text-destructive-foreground")
    case "refunded" => Some("bg-muted text-muted-foreground")
    case _ => None
  }

  /** The order statuses the client knows (`OrderStatus`). */
  const KnownStatuses: set<string> :=
    {"pending", "confirmed", "processing", "shipped", "delivered", "cancelled", "refunded"}

  /**
   * Exactly the known statuses have a colour; the statuses the server
   * itself writes, "pending" at checkout and "confirmed" on payment, are
   * among them.
   */
  lemma StatusColorSpec(status: string)
    ensures StatusColor(status).Some? <==> status in KnownStatuses
    ensures "pending" in KnownStatuses && "confirmed" in KnownStatuses
  {
  }

  /** `order.items.reduce((sum, item) => sum + item.quantity, 0)`. */
  function ItemCount(items: seq<Item>): int
  {
    if |items| == 0 then 0 else ItemCount(items[..|items| - 1]) + items[|items| - 1].quantity
  }

  /** With every quantity at least one, the count is at least the number of lines. */
  lemma {:induction false} ItemCountAtLeastLines(items: seq<Item>)
    requires forall i :: 0 <= i < |items| ==> items[i].quantity >= 1
    ensures ItemCount(items) >= |items|
  {
    if |items| > 0 {
      ItemCountAtLeastLines(items[..|items| - 1]);
    }
  }

  /** `` `${itemCount} ${itemCount === 1 ? 'item' : 'items'}` ``. */
  function CountText(n: int): (r: string)
    ensures n == 1 <==> r == "1 item"
  {
    IntToString(n) + " " + (if n == 1 then "item" else "items")
  }

  /** One order card. */
  datatype Card = Card(
    orderNumber: string, statusLabel: string, statusColor: Option<string>,
    image: string, productName: string, countText: string, total: real)

  /**
   * The card of an order: `order.items[0]` supplies the picture and name,
   * so an order without items has no card (the page fails on it).
   */
  function OrderCard(order: Order): (r: Option<Card>)
    ensures r.None? <==> |order.items| == 0
    ensures r.Some? ==>
      && r.value.orderNumber == order.orderNumber
      && r.value.image == order.items[0].productImage && r.value.productName == order.items[0].productName
      && r.value.statusLabel == Capitalize(order.status) && r.value.statusColor == StatusColor(order.status)
      && r.value.countText == CountText(ItemCount(order.items)) && r.value.total == order.total
  {
    if |order.items| == 0 then None
    else
      var first := order.items[0];
      Some(Card(order.orderNumber, Capitalize(order.status), StatusColor(order.status),
                first.productImage, first.productName, CountText(ItemCount(order.items)), order.total))
  }

  /** What the page shows: the empty state, or one card per order in order. */
  datatype View = NoOrders | Cards(cards: seq<Option<Card>>)

  function Page(orders: seq<Order>): (v: View)
    ensures v.NoOrders? <==> |orders| == 0
    ensures v.Cards? ==> |v.cards| == |orders| && forall i :: 0 <= i < |orders| ==> v.cards[i] == OrderCard(orders[i])
  {
    if |orders| == 0 then NoOrders
    else Cards(seq(|orders|, i requires 0 <= i < |orders| => OrderCard(orders[i])))
  }

  /**
   * An order the server formats with at least one item has a card, named
   * after its first item; an order whose status column is null shows
   * "Pending", with a colour.
   */
  lemma CardOfServerOrder(o: Tables.OrderRow, items: seq<Tables.OrderItemRow>)
    requires |items| > 0
    ensures var c := OrderCard(Orders.FormatOrder(o, items));
      && c.Some?
      && c.value.productName == items[0].productName
      && c.value.statusLabel == Capitalize(o.status.GetOr("pending"))
      && (o.status.None? ==> c.value.statusLabel == "Pending" && c.value.statusColor.Some?)
  {
    var f := Orders.FormatOrder(o, items);
    assert f.items[0] == Orders.FormatItem(items[0]);
  }
}
