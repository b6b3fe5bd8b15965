/** The staff routes (staff or admin): order and bill lists with an optional
    status filter, whitelisted status updates, and the available-menu list. */
module Staff {
  import opened Base
  import opened Sessions
  import opened Store
  import opened Query

  /** GET /staff/orders: every order, only those with the queried status when
      one is given, newest first. */
  function ListOrders(s: SessionData, orders: seq<Row<Order>>, status: string): (r: Reply<seq<Row<Order>>>)
    ensures r.Ok? <==> Admits(RequireStaff, s)
    ensures !r.Ok? ==> r == Fail(403, STAFF_REQUIRED)
    ensures r.Ok? ==> forall o :: o in r.data <==> o in orders && (status == "" || o.val.status == status)
    ensures r.Ok? && IdsIncreasing(orders) ==> IdsDecreasing(r.data)
  {
    var verdict := ApiGuard(RequireStaff, s);
    if verdict.Reject? then Fail(verdict.status, verdict.message)
    else Ok(NewestFirst(Select(orders, (o: Row<Order>) => status == "" || o.val.status == status)))
  }

  /** PUT /staff/orders/:id. A status off the whitelist gives 400 and changes
      nothing; a whitelisted one is written as it is to that order alone, from
      whatever status it had (there is no transition order). An id with no row
      makes the single-row update fail: 500, nothing changed. */
  method UpdateOrderStatus(db: Database, s: SessionData, id: Id, status: string) returns (reply: Reply<Row<Order>>)
    requires db.Valid()
    modifies db`orders
    ensures db.Valid()
    ensures !reply.Ok? ==> db.orders == old(db.orders)
    ensures !Admits(RequireStaff, s) ==> reply == Fail(403, STAFF_REQUIRED)
    ensures Admits(RequireStaff, s) && status !in ORDER_STATUSES ==> reply == Fail(400, "Invalid status")
    ensures Admits(RequireStaff, s) && status in ORDER_STATUSES && IndexOf(old(db.orders), id).None? ==>
      reply == Fail(500, "Failed to update order")
    ensures reply.Ok? ==>
      && status in ORDER_STATUSES
      && exists k :: 0 <= k < |old(db.orders)| && old(db.orders)[k].id == id
                     && reply.data == Row(id, old(db.orders)[k].val.(status := status))
                     && db.orders == old(db.orders)[k := reply.data]
    ensures Admits(RequireStaff, s) && status in ORDER_STATUSES && IndexOf(old(db.orders), id).Some? ==> reply.Ok?
    ensures OrderStatusesWhitelisted(old(db.orders)) ==> OrderStatusesWhitelisted(db.orders)
  {
    var verdict := ApiGuard(RequireStaff, s);
    if verdict.Reject? {
      return Fail(verdict.status, verdict.message);
    }
    if status !in ORDER_STATUSES {
      return Fail(400, "Invalid status");
    }
    var found := IndexOf(db.orders, id);
    if found.None? {
      return Fail(500, "Failed to update order");
    }
    var k := found.value;
    var updated := Row(id, db.orders[k].val.(status := status));
    TableUpdate(db.orders, db.nextId, k, updated);
    db.orders := db.orders[k := updated];
    reply := Ok(updated);
  }

  /** GET /staff/bills: every bill, only those with the queried status when
      one is given, newest first. */
  function ListBills(s: SessionData, bills: seq<Row<Bill>>, status: string): (r: Reply<seq<Row<Bill>>>)
    ensures r.Ok? <==> Admits(RequireStaff, s)
    ensures !r.Ok? ==> r == Fail(403, STAFF_REQUIRED)
    ensures r.Ok? ==> forall b :: b in r.data <==> b in bills && (status == "" || b.val.status == status)
    ensures r.Ok? && IdsIncreasing(bills) ==> IdsDecreasing(r.data)
  {
    var verdict := ApiGuard(RequireStaff, s);
    if verdict.Reject? then Fail(verdict.status, verdict.message)
    else Ok(NewestFirst(Select(bills, (b: Row<Bill>) => status == "" || b.val.status == status)))
  }

  /** PUT /staff/bills/:id. A status other than unpaid or paid gives 400 and
      changes nothing. "paid" also stamps `paid_at` with `now`, even on a bill
      that is already paid; "unpaid" changes the status only and leaves
      `paid_at` as it was. */
  method UpdateBillStatus(db: Database, s: SessionData, id: Id, status: string, now: Instant)
    returns (reply: Reply<Row<Bill>>)
    requires db.Valid()
    modifies db`bills
    ensures db.Valid()
    ensures !reply.Ok? ==> db.bills == old(db.bills)
    ensures !Admits(RequireStaff, s) ==> reply == Fail(403, STAFF_REQUIRED)
    ensures Admits(RequireStaff, s) && status !in BILL_STATUSES ==> reply == Fail(400, "Invalid status")
    ensures Admits(RequireStaff, s) && status in BILL_STATUSES && IndexOf(old(db.bills), id).None? ==>
      reply == Fail(500, "Failed to update bill")
    ensures Admits(RequireStaff, s) && status in BILL_STATUSES && IndexOf(old(db.bills), id).Some? ==> reply.Ok?
    ensures reply.Ok? ==>
      && status in BILL_STATUSES
      && exists k :: 0 <= k < |old(db.bills)| && old(db.bills)[k].id == id
                     && reply.data.id == id
                     && reply.data.val == (if status == "paid" then old(db.bills)[k].val.(status := status, paidAt := Some(now))
                                           else old(db.bills)[k].val.(status := status))
                     && db.bills == old(db.bills)[k := reply.data]
  {
    var verdict := ApiGuard(RequireStaff, s);
    if verdict.Reject? {
      return Fail(verdict.status, verdict.message);
    }
    if status !in BILL_STATUSES {
      return Fail(400, "Invalid status");
    }
    var found := IndexOf(db.bills, id);
    if found.None? {
      return Fail(500, "Failed to update bill");
    }
    var k := found.value;
    var update := db.bills[k].val.(status := status);
    if status == "paid" {
      update := update.(paidAt := Some(now));
    }
    var updated := Row(id, update);
    TableUpdate(db.bills, db.nextId, k, updated);
    db.bills := db.bills[k := updated];
    reply := Ok(updated);
  }

  /** GET /staff/menus: the available items, by category ascending. */
  function ListMenus(s: SessionData, menus: seq<Row<MenuItem>>): (r: Reply<seq<Row<MenuItem>>>)
    ensures r.Ok? <==> Admits(RequireStaff, s)
    ensures !r.Ok? ==> r == Fail(403, STAFF_REQUIRED)
    ensures r.Ok? ==> forall m :: m in r.data <==> m in menus && m.val.available
    ensures r.Ok? ==> multiset(r.data) <= multiset(menus)
    ensures r.Ok? ==> forall i, j :: 0 <= i < j < |r.data| ==> LexLeq(r.data[i].val.category, r.data[j].val.category)
  {
    var verdict := ApiGuard(RequireStaff, s);
    if verdict.Reject? then Fail(verdict.status, verdict.message)
    else
      var shown := Select(menus, (m: Row<MenuItem>) => m.val.available);
      var items := SortAscending(shown, (m: Row<MenuItem>) => m.val.category);
      SelectSubMultiset(menus, (m: Row<MenuItem>) => m.val.available);
      assert forall m :: m in items <==> m in shown by {
        forall m ensures m in items <==> m in shown {
          assert m in items <==> m in multiset(items);
          assert m in shown <==> m in multiset(shown);
        }
      }
      Ok(items)
  }
}
