/**
 * The client's order history: the status badge colour and what each order
 * row and the empty list show.
 */
module OrderHistory {
  import opened Types

  /**
   * `getStatusColor` for orders: completed green, in progress blue, pending
   * yellow, cancelled red. Its grey default is never reached.
   */
  function OrderStatusColor(status: OrderStatus): (c: Colour)
    ensures c == Green <==> status == Completed
    ensures c == Blue <==> status == InProgress
    ensures c == Yellow <==> status == OrderPending
    ensures c == Red <==> status == Cancelled
  {
    match status
    case Completed => Green
    case InProgress => Blue
    case OrderPending => Yellow
    case Cancelled => Red
  }

  /** What one order row shows. */
  datatype OrderRow = OrderRow(
    id: string,
    colour: Colour,
    showCompletedDate: bool,
    showNotes: bool,
    showReorder: bool)

  /**
   * The row of one order. `hasReorderHandler` says whether the optional
   * `onReorder` callback was passed; the dates and notes follow the
   * truthiness of the optional strings, not the status.
   */
  function OrderRowOf(o: Order, hasReorderHandler: bool): (row: OrderRow)
    ensures row.id == o.id && row.colour == OrderStatusColor(o.status)
    ensures row.showReorder <==> o.status == Completed && hasReorderHandler
    ensures row.showCompletedDate <==> o.completedAt.Some? && o.completedAt.value != ""
    ensures row.showNotes <==> o.notes.Some? && o.notes.value != ""
  {
    OrderRow(o.id, OrderStatusColor(o.status), Truthy(o.completedAt), Truthy(o.notes),
             o.status == Completed && hasReorderHandler)
  }

  /** `orders.map(...)`: one row per order, in input order. */
  function OrderRows(orders: seq<Order>, hasReorderHandler: bool): (rows: seq<OrderRow>)
    ensures |rows| == |orders|
    ensures forall i :: 0 <= i < |orders| ==> rows[i] == OrderRowOf(orders[i], hasReorderHandler)
    ensures forall i :: 0 <= i < |orders| ==> rows[i].id == orders[i].id
    ensures forall i :: 0 <= i < |orders| ==> rows[i].colour == OrderStatusColor(orders[i].status)
    ensures forall i :: 0 <= i < |orders| ==>
              (rows[i].showReorder <==> orders[i].status == Completed && hasReorderHandler)
    ensures forall i :: 0 <= i < |orders| ==>
              (rows[i].showCompletedDate <==> Truthy(orders[i].completedAt)) &&
              (rows[i].showNotes <==> Truthy(orders[i].notes))
  {
    seq(|orders|, i requires 0 <= i < |orders| => OrderRowOf(orders[i], hasReorderHandler))
  }

  /** The "no orders yet" message. */
  function ShowEmptyState(orders: seq<Order>): (show: bool)
    ensures show <==> OrderRows(orders, true) == []
  {
    |orders| == 0
  }
}
