/**
 * The administrator's dashboard: the four statistics cards, the badge and
 * owner shown on each payment and order row, and the "Mark Paid" action.
 */
module AdminDashboard {
  import opened Types
  import opened ArrayOps
  import opened Amounts
  import PaymentHistory
  import OrderHistory

  /**
   * `totalRevenue`: the amount received on paid payments. It is positive
   * exactly when some paid payment has a positive amount.
   */
  function TotalRevenue(payments: seq<Payment>): (revenue: nat)
    ensures revenue <= SumAmounts(payments)
    ensures revenue > 0 <==> exists i :: 0 <= i < |payments| && payments[i].status == Paid && payments[i].amount > 0
  {
    AmountWithStatusPositive(payments, Paid);
    AmountWithStatus(payments, Paid)
  }

  /**
   * `overdueAmount`: the amount owed on overdue payments. It never counts
   * money already in the revenue card, and it is positive exactly when some
   * overdue payment has a positive amount.
   */
  function OverdueAmount(payments: seq<Payment>): (overdue: nat)
    ensures TotalRevenue(payments) + overdue <= SumAmounts(payments)
    ensures overdue > 0 <==> exists i :: 0 <= i < |payments| && payments[i].status == Overdue && payments[i].amount > 0
  {
    StatusTotalsPartition(payments);
    AmountWithStatusPositive(payments, Overdue);
    AmountWithStatus(payments, Overdue)
  }

  /** An order still being worked on: pending or in progress. */
  predicate IsActive(o: Order) {
    o.status == OrderPending || o.status == InProgress
  }

  /** `pendingOrders`, the "Active Orders" card. */
  function ActiveOrders(orders: seq<Order>): (n: nat)
    ensures n <= |orders|
    ensures n == 0 <==> forall i :: 0 <= i < |orders| ==> !IsActive(orders[i])
  {
    var active := Filter(orders, IsActive);
    assert forall i :: 0 <= i < |orders| && IsActive(orders[i]) ==> orders[i] in active by {
      forall i | 0 <= i < |orders| && IsActive(orders[i]) ensures orders[i] in active {
        FilterMembership(orders, IsActive, orders[i]);
      }
    }
    assert (forall i :: 0 <= i < |orders| ==> !IsActive(orders[i])) ==> active == [] by {
      if forall i :: 0 <= i < |orders| ==> !IsActive(orders[i]) {
        FilterDropsAll(orders, IsActive);
      }
    }
    |active|
  }

  /** An order no longer being worked on: completed or cancelled. */
  predicate IsFinished(o: Order) {
    o.status == Completed || o.status == Cancelled
  }

  datatype Stats = Stats(totalClients: nat, totalRevenue: nat, overdueAmount: nat, activeOrders: nat)

  /**
   * The four statistics cards: the number of clients and the three totals
   * defined above.
   */
  function AdminStats(clients: seq<Client>, payments: seq<Payment>, orders: seq<Order>): (s: Stats)
    ensures s.totalClients == |clients|
    ensures s.totalRevenue == TotalRevenue(payments)
    ensures s.overdueAmount == OverdueAmount(payments)
    ensures s.activeOrders == ActiveOrders(orders)
    ensures s.totalRevenue + s.overdueAmount <= SumAmounts(payments)
    ensures s.activeOrders <= |orders|
    ensures payments == [] ==> s.totalRevenue == 0 && s.overdueAmount == 0
  {
    StatusTotalsPartition(payments);
    Stats(|clients|, TotalRevenue(payments), OverdueAmount(payments), ActiveOrders(orders))
  }

  /**
   * Every order is either active or finished (completed or cancelled), so
   * the active count plus the finished count is the number of orders.
   */
  lemma ActiveOrdersPartition(orders: seq<Order>)
    ensures ActiveOrders(orders) + |Filter(orders, IsFinished)| == |orders|
  {
    FilterComplementLength(orders, IsActive, IsFinished);
  }

  /** Revenue and the active count over two lists joined add up. */
  lemma StatsAppend(a: seq<Payment>, b: seq<Payment>, oa: seq<Order>, ob: seq<Order>)
    ensures TotalRevenue(a + b) == TotalRevenue(a) + TotalRevenue(b)
    ensures OverdueAmount(a + b) == OverdueAmount(a) + OverdueAmount(b)
    ensures ActiveOrders(oa + ob) == ActiveOrders(oa) + ActiveOrders(ob)
  {
    AmountWithStatusAppend(a, b, Paid);
    AmountWithStatusAppend(a, b, Overdue);
    FilterAppend(oa, ob, IsActive);
  }

  /**
   * `clients.find(c => c.id === clientId)`: the first client with that id,
   * or nothing when the id dangles; the lookup never fails.
   */
  function OwnerOf(clients: seq<Client>, clientId: string): (r: Option<Client>)
    ensures r.None? <==> forall i :: 0 <= i < |clients| ==> clients[i].id != clientId
    ensures r.Some? ==> exists i :: 0 <= i < |clients| && clients[i] == r.value &&
                                    r.value.id == clientId &&
                                    forall j :: 0 <= j < i ==> clients[j].id != clientId
  {
    Find(clients, (c: Client) => c.id == clientId)
  }

  /**
   * The inline badge colour of a payment row: paid green, pending yellow,
   * anything else red. It picks the colour the payment history's
   * `getStatusColor` picks.
   */
  function PaymentBadge(status: PaymentStatus): (c: Colour)
    ensures c == PaymentHistory.PaymentStatusColor(status)
  {
    if status == Paid then Green else if status == Pending then Yellow else Red
  }

  /**
   * The inline badge colour of an order row; it picks the colour the order
   * history's `getStatusColor` picks.
   */
  function OrderBadge(status: OrderStatus): (c: Colour)
    ensures c == OrderHistory.OrderStatusColor(status)
  {
    if status == Completed then Green
    else if status == InProgress then Blue
    else if status == OrderPending then Yellow
    else Red
  }

  /** The "Mark Paid" button: offered on every payment still pending or overdue. */
  function ShowMarkPaid(p: Payment): (show: bool)
    ensures show <==> p.status == Pending || p.status == Overdue
  {
    p.status != Paid
  }

  datatype AdminPaymentRow = AdminPaymentRow(id: string, badge: Colour, ownerName: Option<string>, markPaid: bool)

  datatype AdminOrderRow = AdminOrderRow(id: string, badge: Colour, ownerName: Option<string>)

  /**
   * The owner's name shown on a row: the name of the first client with the
   * record's `clientId`, or nothing when the id dangles.
   */
  function OwnerName(clients: seq<Client>, clientId: string): (r: Option<string>)
    ensures r.None? <==> forall i :: 0 <= i < |clients| ==> clients[i].id != clientId
    ensures r.Some? ==> exists i :: 0 <= i < |clients| && clients[i].id == clientId &&
                                    clients[i].name == r.value &&
                                    forall j :: 0 <= j < i ==> clients[j].id != clientId
  {
    match OwnerOf(clients, clientId)
    case None => None
    case Some(c) => Some(c.name)
  }

  /**
   * The payment tab: one row per payment in input order, naming its owner
   * when one exists and offering "Mark Paid" exactly when it is not paid.
   */
  function AdminPaymentRows(clients: seq<Client>, payments: seq<Payment>): (rows: seq<AdminPaymentRow>)
    ensures |rows| == |payments|
    ensures forall i :: 0 <= i < |payments| ==> rows[i].id == payments[i].id
    ensures forall i :: 0 <= i < |payments| ==> rows[i].badge == PaymentBadge(payments[i].status)
    ensures forall i :: 0 <= i < |payments| ==> rows[i].ownerName == OwnerName(clients, payments[i].clientId)
    ensures forall i :: 0 <= i < |payments| ==> (rows[i].markPaid <==> payments[i].status != Paid)
    ensures forall i :: 0 <= i < |payments| ==>
              (rows[i].ownerName.None? <==> forall j :: 0 <= j < |clients| ==> clients[j].id != payments[i].clientId)
  {
    seq(|payments|, i requires 0 <= i < |payments| =>
      AdminPaymentRow(payments[i].id, PaymentBadge(payments[i].status),
                      OwnerName(clients, payments[i].clientId), ShowMarkPaid(payments[i])))
  }

  /** The order tab: one row per order in input order, naming its owner when one exists. */
  function AdminOrderRows(clients: seq<Client>, orders: seq<Order>): (rows: seq<AdminOrderRow>)
    ensures |rows| == |orders|
    ensures forall i :: 0 <= i < |orders| ==> rows[i].id == orders[i].id
    ensures forall i :: 0 <= i < |orders| ==> rows[i].badge == OrderBadge(orders[i].status)
    ensures forall i :: 0 <= i < |orders| ==> rows[i].ownerName == OwnerName(clients, orders[i].clientId)
    ensures forall i :: 0 <= i < |orders| ==>
              (rows[i].ownerName.None? <==> forall j :: 0 <= j < |clients| ==> clients[j].id != orders[i].clientId)
  {
    seq(|orders|, i requires 0 <= i < |orders| =>
      AdminOrderRow(orders[i].id, OrderBadge(orders[i].status), OwnerName(clients, orders[i].clientId)))
  }
}
