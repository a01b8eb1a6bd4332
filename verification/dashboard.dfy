/**
 * The dashboard page: who sees what. No user sees nothing, an admin sees
 * every client, payment and order, and a client sees only the payments
 * and orders filed under its own client id, in their original order.
 */
module Dashboard {
  import opened Types
  import opened ArrayOps
  import opened Amounts
  import opened AdminDashboard
  import PaymentHistory

  datatype View =
    | NoView
    | AdminView(clients: seq<Client>, payments: seq<Payment>, orders: seq<Order>)
    | ClientView(payments: seq<Payment>, orders: seq<Order>)

  /**
   * `p.clientId === user.clientId`: an absent client id equals no record's
   * client id, because every record carries one.
   */
  function PaymentOf(clientId: Option<string>): Payment -> bool
  {
    (p: Payment) => clientId == Some(p.clientId)
  }

  function OrderOf(clientId: Option<string>): Order -> bool
  {
    (o: Order) => clientId == Some(o.clientId)
  }

  /**
   * `clientPayments`: the payments of the given client, an order-preserving
   * subsequence holding every matching payment and no other.
   */
  function ClientPayments(payments: seq<Payment>, clientId: Option<string>): (r: seq<Payment>)
    ensures IsSubsequence(r, payments)
    ensures forall i :: 0 <= i < |r| ==> clientId == Some(r[i].clientId)
    ensures forall p :: p in payments && clientId == Some(p.clientId) ==> p in r
  {
    var r := Filter(payments, PaymentOf(clientId));
    assert forall p :: p in payments && clientId == Some(p.clientId) ==> p in r by {
      forall p | p in payments && clientId == Some(p.clientId) ensures p in r {
        FilterMembership(payments, PaymentOf(clientId), p);
      }
    }
    r
  }

  /** `clientOrders`: the same contract as `ClientPayments`, over orders. */
  function ClientOrders(orders: seq<Order>, clientId: Option<string>): (r: seq<Order>)
    ensures IsSubsequence(r, orders)
    ensures forall i :: 0 <= i < |r| ==> clientId == Some(r[i].clientId)
    ensures forall o :: o in orders && clientId == Some(o.clientId) ==> o in r
  {
    var r := Filter(orders, OrderOf(clientId));
    assert forall o :: o in orders && clientId == Some(o.clientId) ==> o in r by {
      forall o | o in orders && clientId == Some(o.clientId) ensures o in r {
        FilterMembership(orders, OrderOf(clientId), o);
      }
    }
    r
  }

  /** Scoping twice to the same client gives what scoping once gives. */
  lemma ClientScopeIdempotent(payments: seq<Payment>, orders: seq<Order>, clientId: Option<string>)
    ensures ClientPayments(ClientPayments(payments, clientId), clientId) == ClientPayments(payments, clientId)
    ensures ClientOrders(ClientOrders(orders, clientId), clientId) == ClientOrders(orders, clientId)
  {
    FilterIdempotent(payments, PaymentOf(clientId));
    FilterIdempotent(orders, OrderOf(clientId));
  }

  /**
   * Scoping loses and duplicates nothing: a record of the client occurs in
   * the scoped list exactly as often as in the full list, and a record of
   * anyone else not at all.
   */
  lemma ClientScopeCounts(payments: seq<Payment>, orders: seq<Order>, clientId: Option<string>, p: Payment, o: Order)
    ensures multiset(ClientPayments(payments, clientId))[p] ==
            if clientId == Some(p.clientId) then multiset(payments)[p] else 0
    ensures multiset(ClientOrders(orders, clientId))[o] ==
            if clientId == Some(o.clientId) then multiset(orders)[o] else 0
  {
    FilterCount(payments, PaymentOf(clientId), p);
    FilterCount(orders, OrderOf(clientId), o);
  }

  /**
   * A client user without a client id, or with one that no record carries,
   * gets empty lists.
   */
  lemma UnknownClientSeesNothing(payments: seq<Payment>, orders: seq<Order>, clientId: Option<string>)
    requires forall i :: 0 <= i < |payments| ==> clientId != Some(payments[i].clientId)
    requires forall i :: 0 <= i < |orders| ==> clientId != Some(orders[i].clientId)
    ensures ClientPayments(payments, clientId) == []
    ensures ClientOrders(orders, clientId) == []
  {
    FilterDropsAll(payments, PaymentOf(clientId));
    FilterDropsAll(orders, OrderOf(clientId));
  }

  /**
   * The page for the signed-in user: nothing without a user, the full
   * lists for an admin, the client-scoped lists for a client.
   */
  function DashboardView(user: Option<User>, clients: seq<Client>, payments: seq<Payment>, orders: seq<Order>): (v: View)
    ensures v.NoView? <==> user.None?
    ensures v.AdminView? <==> user.Some? && user.value.role == AdminRole
    ensures v.AdminView? ==> v.clients == clients && v.payments == payments && v.orders == orders
    ensures v.ClientView? ==> forall i :: 0 <= i < |v.payments| ==> user.value.clientId == Some(v.payments[i].clientId)
    ensures v.ClientView? ==> forall i :: 0 <= i < |v.orders| ==> user.value.clientId == Some(v.orders[i].clientId)
    ensures v.ClientView? ==> IsSubsequence(v.payments, payments) && IsSubsequence(v.orders, orders)
    ensures v.ClientView? ==> forall p :: p in payments && user.value.clientId == Some(p.clientId) ==> p in v.payments
    ensures v.ClientView? ==> forall o :: o in orders && user.value.clientId == Some(o.clientId) ==> o in v.orders
  {
    match user
    case None => NoView
    case Some(u) =>
      if u.role == AdminRole then AdminView(clients, payments, orders)
      else ClientView(ClientPayments(payments, u.clientId), ClientOrders(orders, u.clientId))
  }

  /** The overdue totals the clients' payment histories show, added up over `clients`. */
  function ClientsOverdue(clients: seq<Client>, payments: seq<Payment>): nat
  {
    if clients == [] then 0
    else PaymentHistory.TotalOverdue(ClientPayments(payments, Some(clients[0].id))) +
         ClientsOverdue(clients[1..], payments)
  }

  /** How many clients carry the id `id`. */
  function MatchCount(clients: seq<Client>, id: string): nat
  {
    if clients == [] then 0
    else (if clients[0].id == id then 1 else 0) + MatchCount(clients[1..], id)
  }

  /** Client ids are distinct. */
  predicate DistinctIds(clients: seq<Client>) {
    forall i, j :: 0 <= i < j < |clients| ==> clients[i].id != clients[j].id
  }

  lemma {:induction false} NoMatch(clients: seq<Client>, id: string)
    requires forall i :: 0 <= i < |clients| ==> clients[i].id != id
    ensures MatchCount(clients, id) == 0
  {
    if clients != [] {
      NoMatch(clients[1..], id);
    }
  }

  /** With distinct ids, an id that some client carries is carried by exactly one. */
  lemma {:induction false} UniqueMatch(clients: seq<Client>, id: string)
    requires DistinctIds(clients)
    requires KnownClient(clients, id)
    ensures MatchCount(clients, id) == 1
  {
    var i :| 0 <= i < |clients| && clients[i].id == id;
    if i == 0 {
      NoMatch(clients[1..], id);
    } else {
      assert clients[1..][i - 1].id == id;
      UniqueMatch(clients[1..], id);
    }
  }

  /** Scoping a list with one more payment in front. */
  lemma ClientPaymentsCons(p: Payment, rest: seq<Payment>, clientId: Option<string>)
    ensures ClientPayments([p] + rest, clientId) ==
            (if clientId == Some(p.clientId) then [p] else []) + ClientPayments(rest, clientId)
  {
    assert ([p] + rest)[1..] == rest;
  }

  lemma {:induction false} ClientsOverdueNil(clients: seq<Client>)
    ensures ClientsOverdue(clients, []) == 0
  {
    if clients != [] {
      ClientsOverdueNil(clients[1..]);
    }
  }

  /**
   * One more payment in front adds its overdue amount once for every client
   * that carries its `clientId`.
   */
  lemma {:induction false} ClientsOverdueCons(clients: seq<Client>, p: Payment, rest: seq<Payment>)
    ensures ClientsOverdue(clients, [p] + rest) ==
            MatchCount(clients, p.clientId) * (if p.status == Overdue then p.amount else 0) +
            ClientsOverdue(clients, rest)
  {
    if clients != [] {
      var cid := Some(clients[0].id);
      var scoped := ClientPayments(rest, cid);
      ClientPaymentsCons(p, rest, cid);
      if cid == Some(p.clientId) {
        AmountWithStatusCons([p] + scoped, Overdue);
        assert ([p] + scoped)[1..] == scoped;
      }
      ClientsOverdueCons(clients[1..], p, rest);
      var v := if p.status == Overdue then p.amount else 0;
      var m := MatchCount(clients[1..], p.clientId);
      assert (m + 1) * v == m * v + v;
    }
  }

  /**
   * The admin's overdue card equals the overdue alerts of all clients added
   * up, when client ids are distinct and every payment belongs to a listed
   * client: each overdue payment is counted once, in its owner's history.
   */
  lemma OverdueSplitsByClient(clients: seq<Client>, payments: seq<Payment>)
    requires DistinctIds(clients)
    requires forall k :: 0 <= k < |payments| ==> KnownClient(clients, payments[k].clientId)
    ensures OverdueAmount(payments) == ClientsOverdue(clients, payments)
  {
    OverdueSplitsByClientSum(clients, payments);
  }

  /** Some client carries the id `id`. */
  predicate KnownClient(clients: seq<Client>, id: string) {
    exists i :: 0 <= i < |clients| && clients[i].id == id
  }

  /** `OverdueSplitsByClient` on the status total itself, by induction on the payments. */
  lemma {:induction false} OverdueSplitsByClientSum(clients: seq<Client>, payments: seq<Payment>)
    requires DistinctIds(clients)
    requires forall k :: 0 <= k < |payments| ==> KnownClient(clients, payments[k].clientId)
    ensures AmountWithStatus(payments, Overdue) == ClientsOverdue(clients, payments)
  {
    if payments == [] {
      ClientsOverdueNil(clients);
    } else {
      var p, rest := payments[0], payments[1..];
      assert payments == [p] + rest;
      AmountWithStatusCons(payments, Overdue);
      ClientsOverdueCons(clients, p, rest);
      UniqueMatch(clients, p.clientId);
      assert forall k :: 0 <= k < |rest| ==> KnownClient(clients, rest[k].clientId) by {
        forall k | 0 <= k < |rest| ensures KnownClient(clients, rest[k].clientId) {
          assert rest[k] == payments[k + 1];
        }
      }
      OverdueSplitsByClientSum(clients, rest);
      var v := if p.status == Overdue then p.amount else 0;
      assert ClientsOverdue(clients, payments) == 1 * v + ClientsOverdue(clients, rest);
    }
  }

  /** `handleReorder`'s lookup: the first order with that id, or nothing. */
  function ReorderTarget(orders: seq<Order>, orderId: string): (r: Option<Order>)
    ensures r.None? <==> forall i :: 0 <= i < |orders| ==> orders[i].id != orderId
    ensures r.Some? ==> exists i :: 0 <= i < |orders| && orders[i] == r.value &&
                                    r.value.id == orderId &&
                                    forall j :: 0 <= j < i ==> orders[j].id != orderId
  {
    Find(orders, (o: Order) => o.id == orderId)
  }

  /**
   * The reorder toast's text; a missing order renders as `undefined`, as
   * `order?.description` does in a template string.
   */
  function ReorderMessage(orders: seq<Order>, orderId: string): (msg: string)
    ensures |msg| >= 12 && msg[..12] == "Reordering: "
    ensures ReorderTarget(orders, orderId).Some? ==> msg[12..] == ReorderTarget(orders, orderId).value.description
    ensures ReorderTarget(orders, orderId).None? ==> msg[12..] == "undefined"
  {
    "Reordering: " + match ReorderTarget(orders, orderId)
                     case Some(o) => o.description
                     case None => "undefined"
  }

  // The page's fixed sample records; amounts are in satang.

  const MockClients: seq<Client> := [
    Client("client1", "สมชาย ใจดี", Some("1234567890123"), Some("somchai@email.com"), Some("081-234-5678"), "2024-01-15"),
    Client("client2", "John Smith", None, Some("john@email.com"), Some("+66-87-654-3210"), "2024-02-20"),
    Client("client3", "นิดา สวยงาม", Some("9876543210987"), None, Some("089-876-5432"), "2024-03-10")
  ]

  const MockPayments: seq<Payment> := [
    Payment("pay1", "client1", 250000, "2024-12-15", None, Overdue, "Custom Rose & Sandalwood Perfume"),
    Payment("pay2", "client1", 180000, "2024-12-25", None, Pending, "Jasmine Night Fragrance"),
    Payment("pay3", "client1", 320000, "2024-11-30", Some("2024-11-28"), Paid, "Citrus Fresh Collection"),
    Payment("pay4", "client2", 450000, "2024-12-20", None, Pending, "Signature Woody Blend"),
    Payment("pay5", "client2", 280000, "2024-11-15", Some("2024-11-14"), Paid, "Tropical Paradise Set")
  ]

  const MockOrders: seq<Order> := [
    Order("ord1", "client1", "Custom Rose & Sandalwood Perfume - 50ml", 250000, Completed, "2024-11-01",
          Some("2024-11-15"), Some("Extra rose essence, medium sandalwood base")),
    Order("ord2", "client1", "Jasmine Night Fragrance - 30ml", 180000, InProgress, "2024-12-01",
          None, Some("Evening wear, subtle jasmine")),
    Order("ord3", "client2", "Signature Woody Blend - 100ml", 450000, OrderPending, "2024-12-10",
          None, Some("Corporate signature scent")),
    Order("ord4", "client2", "Tropical Paradise Set - 3x30ml", 280000, Completed, "2024-10-15",
          Some("2024-11-01"), Some("Mango, coconut, frangipani blend"))
  ]

  /** The sum of `AmountWithStatus` on the sample payments, one payment at a time. */
  lemma SampleAmount(st: PaymentStatus)
    ensures AmountWithStatus(MockPayments, st) ==
            (if st == Overdue then 250000 else 0) + (if st == Pending then 180000 else 0) +
            (if st == Paid then 320000 else 0) + (if st == Pending then 450000 else 0) +
            (if st == Paid then 280000 else 0)
  {
    var ps := MockPayments;
    AmountWithStatusCons(ps, st);
    AmountWithStatusCons(ps[1..], st);
    AmountWithStatusCons(ps[2..], st);
    AmountWithStatusCons(ps[3..], st);
    AmountWithStatusCons(ps[4..], st);
  }

  /** On the sample records the admin sees 3 clients, 6000 baht revenue, 2500 baht overdue and 2 active orders. */
  lemma SampleAdminStats()
    ensures AdminStats(MockClients, MockPayments, MockOrders) == Stats(3, 600000, 250000, 2)
  {
    SampleAmount(Paid);
    SampleAmount(Overdue);
    var os := MockOrders;
    assert os == [os[0]] + os[1..3] + [os[3]];
    FilterAppend([os[0]] + os[1..3], [os[3]], IsActive);
    FilterAppend([os[0]], os[1..3], IsActive);
    FilterDropsAll([os[0]], IsActive);
    FilterKeepsAll(os[1..3], IsActive);
    FilterDropsAll([os[3]], IsActive);
  }

  /** On the sample records the first client sees its three payments and two orders. */
  lemma SampleClientView()
    ensures ClientPayments(MockPayments, Some("client1")) == MockPayments[..3]
    ensures ClientOrders(MockOrders, Some("client1")) == MockOrders[..2]
  {
    var ps, os := MockPayments, MockOrders;
    var pf, of := PaymentOf(Some("client1")), OrderOf(Some("client1"));
    assert ps == ps[..3] + ps[3..];
    FilterAppend(ps[..3], ps[3..], pf);
    FilterKeepsAll(ps[..3], pf);
    FilterDropsAll(ps[3..], pf);
    assert os == os[..2] + os[2..];
    FilterAppend(os[..2], os[2..], of);
    FilterKeepsAll(os[..2], of);
    FilterDropsAll(os[2..], of);
  }
}
