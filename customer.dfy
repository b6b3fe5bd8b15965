/** The customer routes: public menu browsing, and for a signed-in customer
    placing orders, creating and paying bills and leaving feedback, each list
    scoped to the customer's own rows. */
module Customer {
  import opened Base
  import opened Sessions
  import opened Store
  import opened Query

  /** GET /customer/menus (no guard): the available items, restricted to one
      category unless the query gives none or "all", by item name ascending. */
  function BrowseMenus(menus: seq<Row<MenuItem>>, category: string): (items: seq<Row<MenuItem>>)
    ensures forall m :: m in items <==>
      m in menus && m.val.available && (category == "" || category == "all" || m.val.category == category)
    ensures multiset(items) <= multiset(menus)
    ensures forall i, j :: 0 <= i < j < |items| ==> LexLeq(items[i].val.itemName, items[j].val.itemName)
  {
    var shown := Select(menus, (m: Row<MenuItem>) =>
      m.val.available && (category == "" || category == "all" || m.val.category == category));
    var items := SortAscending(shown, (m: Row<MenuItem>) => m.val.itemName);
    SelectSubMultiset(menus, (m: Row<MenuItem>) =>
      m.val.available && (category == "" || category == "all" || m.val.category == category));
    assert forall m :: m in items <==> m in shown by {
      forall m ensures m in items <==> m in shown {
        assert m in items <==> m in multiset(items);
        assert m in shown <==> m in multiset(shown);
      }
    }
    items
  }

  /** The validator chain of POST /customer/orders. */
  function ValidateOrder(itemId: string, itemName: string, quantity: Field<int>): (errs: seq<FieldError>)
    ensures ErrorFields(errs) ==
      Flag(itemId == "", "itemId")
      + Flag(IsBlank(itemName), "itemName")
      + Flag(!(quantity.Given? && quantity.value >= 1), "quantity")
    ensures errs == [] <==> itemId != "" && !IsBlank(itemName) && quantity.Given? && quantity.value >= 1
  {
    var errItemId := Check(itemId != "", "itemId", DEFAULT_MESSAGE);
    var errItemName := Check(Trim(itemName) != "", "itemName", DEFAULT_MESSAGE);
    var errQuantity := Check(quantity.Given? && quantity.value >= 1, "quantity", DEFAULT_MESSAGE);
    ErrorFieldsAppend(errItemId, errItemName);
    ErrorFieldsAppend(errItemId + errItemName, errQuantity);
    errItemId + errItemName + errQuantity
  }

  /** POST /customer/orders: a pending order for the session's customer. The
      customer's id and name come from the session, never from the body; the
      stored item name is the trimmed one. */
  method PlaceOrder(db: Database, s: SessionData, itemId: string, itemName: string, quantity: Field<int>)
    returns (reply: Reply<Row<Order>>)
    requires db.Valid()
    modifies db`orders, db`nextId
    ensures db.Valid()
    ensures !Admits(RequireCustomer, s) ==> reply == Fail(403, CUSTOMER_REQUIRED)
    ensures Admits(RequireCustomer, s) && ValidateOrder(itemId, itemName, quantity) != [] ==>
      reply == Invalid(ValidateOrder(itemId, itemName, quantity))
    ensures reply.Ok? <==> Admits(RequireCustomer, s) && ValidateOrder(itemId, itemName, quantity) == []
    ensures !reply.Ok? ==> db.orders == old(db.orders) && db.nextId == old(db.nextId)
    ensures reply.Ok? ==>
      && reply.data == Row(old(db.nextId), Order(s.userId.value, s.userName, itemId, Trim(itemName), quantity.value, "pending"))
      && db.orders == old(db.orders) + [reply.data]
    ensures OrderStatusesWhitelisted(old(db.orders)) ==> OrderStatusesWhitelisted(db.orders)
  {
    var verdict := ApiGuard(RequireCustomer, s);
    if verdict.Reject? {
      return Fail(verdict.status, verdict.message);
    }
    var errs := ValidateOrder(itemId, itemName, quantity);
    if errs != [] {
      return Invalid(errs);
    }
    var row := db.InsertOrder(Order(s.userId.value, s.userName, itemId, Trim(itemName), quantity.value, "pending"));
    reply := Ok(row);
  }

  /** GET /customer/orders: exactly the session customer's orders, newest first. */
  function ListOrders(s: SessionData, orders: seq<Row<Order>>): (r: Reply<seq<Row<Order>>>)
    ensures r.Ok? <==> Admits(RequireCustomer, s)
    ensures !r.Ok? ==> r == Fail(403, CUSTOMER_REQUIRED)
    ensures r.Ok? ==> forall o :: o in r.data <==> o in orders && o.val.customerId == s.userId.value
    ensures r.Ok? && IdsIncreasing(orders) ==> IdsDecreasing(r.data)
  {
    var verdict := ApiGuard(RequireCustomer, s);
    if verdict.Reject? then Fail(verdict.status, verdict.message)
    else
      var uid := s.userId.value;
      Ok(NewestFirst(Select(orders, (o: Row<Order>) => o.val.customerId == uid)))
  }

  /** The validator chain of POST /customer/bills. */
  function ValidateBill(orderId: string, itemName: string, totalPrice: Field<real>): (errs: seq<FieldError>)
    ensures ErrorFields(errs) ==
      Flag(orderId == "", "orderId")
      + Flag(IsBlank(itemName), "itemName")
      + Flag(!(totalPrice.Given? && totalPrice.value >= 0.0), "totalPrice")
    ensures errs == [] <==> orderId != "" && !IsBlank(itemName) && totalPrice.Given? && totalPrice.value >= 0.0
  {
    var errOrderId := Check(orderId != "", "orderId", DEFAULT_MESSAGE);
    var errItemName := Check(Trim(itemName) != "", "itemName", DEFAULT_MESSAGE);
    var errTotal := Check(totalPrice.Given? && totalPrice.value >= 0.0, "totalPrice", DEFAULT_MESSAGE);
    ErrorFieldsAppend(errOrderId, errItemName);
    ErrorFieldsAppend(errOrderId + errItemName, errTotal);
    errOrderId + errItemName + errTotal
  }

  /** POST /customer/bills: an unpaid bill owned by the session's customer. */
  method CreateBill(db: Database, s: SessionData, orderId: string, itemName: string, totalPrice: Field<real>)
    returns (reply: Reply<Row<Bill>>)
    requires db.Valid()
    modifies db`bills, db`nextId
    ensures db.Valid()
    ensures !Admits(RequireCustomer, s) ==> reply == Fail(403, CUSTOMER_REQUIRED)
    ensures Admits(RequireCustomer, s) && ValidateBill(orderId, itemName, totalPrice) != [] ==>
      reply == Invalid(ValidateBill(orderId, itemName, totalPrice))
    ensures reply.Ok? <==> Admits(RequireCustomer, s) && ValidateBill(orderId, itemName, totalPrice) == []
    ensures !reply.Ok? ==> db.bills == old(db.bills) && db.nextId == old(db.nextId)
    ensures reply.Ok? ==>
      && reply.data == Row(old(db.nextId), Bill(orderId, s.userId.value, Trim(itemName), totalPrice.value, "unpaid", None))
      && db.bills == old(db.bills) + [reply.data]
  {
    var verdict := ApiGuard(RequireCustomer, s);
    if verdict.Reject? {
      return Fail(verdict.status, verdict.message);
    }
    var errs := ValidateBill(orderId, itemName, totalPrice);
    if errs != [] {
      return Invalid(errs);
    }
    var row := db.InsertBill(Bill(orderId, s.userId.value, Trim(itemName), totalPrice.value, "unpaid", None));
    reply := Ok(row);
  }

  /** GET /customer/bills: exactly the session customer's bills, newest first. */
  function ListBills(s: SessionData, bills: seq<Row<Bill>>): (r: Reply<seq<Row<Bill>>>)
    ensures r.Ok? <==> Admits(RequireCustomer, s)
    ensures !r.Ok? ==> r == Fail(403, CUSTOMER_REQUIRED)
    ensures r.Ok? ==> forall b :: b in r.data <==> b in bills && b.val.customerId == s.userId.value
    ensures r.Ok? && IdsIncreasing(bills) ==> IdsDecreasing(r.data)
  {
    var verdict := ApiGuard(RequireCustomer, s);
    if verdict.Reject? then Fail(verdict.status, verdict.message)
    else
      var uid := s.userId.value;
      Ok(NewestFirst(Select(bills, (b: Row<Bill>) => b.val.customerId == uid)))
  }

  /** The bill with this id exists and belongs to this customer. */
  predicate OwnsBill(bills: seq<Row<Bill>>, id: Id, uid: Id) {
    exists k :: 0 <= k < |bills| && bills[k].id == id && bills[k].val.customerId == uid
  }

  /** PUT /customer/bills/:id/pay. A bill that is missing or someone else's
      gives 404, an already paid one 400, and in both cases nothing changes;
      otherwise that one bill becomes paid at `now` and no other row changes. */
  method PayBill(db: Database, s: SessionData, id: Id, now: Instant) returns (reply: Reply<Row<Bill>>)
    requires db.Valid()
    modifies db`bills
    ensures db.Valid()
    ensures !reply.Ok? ==> db.bills == old(db.bills)
    ensures !Admits(RequireCustomer, s) ==> reply == Fail(403, CUSTOMER_REQUIRED)
    ensures Admits(RequireCustomer, s) && !OwnsBill(old(db.bills), id, s.userId.value) ==>
      reply == Fail(404, "Bill not found")
    ensures forall k :: 0 <= k < |old(db.bills)| && old(db.bills)[k].id == id && Admits(RequireCustomer, s)
                        && old(db.bills)[k].val.customerId == s.userId.value ==>
      if old(db.bills)[k].val.status == "paid" then reply == Fail(400, "Bill already paid")
      else
        && reply == Ok(Row(id, old(db.bills)[k].val.(status := "paid", paidAt := Some(now))))
        && db.bills == old(db.bills)[k := reply.data]
  {
    var verdict := ApiGuard(RequireCustomer, s);
    if verdict.Reject? {
      return Fail(verdict.status, verdict.message);
    }
    var uid := s.userId.value;
    var found := IndexOf(db.bills, id);
    if found.None? || db.bills[found.value].val.customerId != uid {
      forall k | 0 <= k < |db.bills| && db.bills[k].id == id
        ensures db.bills[k].val.customerId != uid
      {
        IndexOfUnique(db.bills, id, k);
      }
      return Fail(404, "Bill not found");
    }
    var k := found.value;
    forall j | 0 <= j < |db.bills| && db.bills[j].id == id ensures j == k {
      IndexOfUnique(db.bills, id, j);
    }
    var bill := db.bills[k];
    if bill.val.status == "paid" {
      return Fail(400, "Bill already paid");
    }
    var paid := Row(id, bill.val.(status := "paid", paidAt := Some(now)));
    TableUpdate(db.bills, db.nextId, k, paid);
    db.bills := db.bills[k := paid];
    reply := Ok(paid);
  }

  /** The validator chain of POST /customer/feedbacks: a comment that is not
      blank, and a rating that, when sent at all, is an integer from 1 to 5. */
  function ValidateFeedback(comment: string, rating: Field<int>): (errs: seq<FieldError>)
    ensures ErrorFields(errs) ==
      Flag(IsBlank(comment), "comment") + Flag(!(rating.Absent? || (rating.Given? && 1 <= rating.value <= 5)), "rating")
    ensures errs == [] <==> !IsBlank(comment) && (rating.Absent? || (rating.Given? && 1 <= rating.value <= 5))
  {
    var errComment := Check(Trim(comment) != "", "comment", "Comment is required");
    var errRating := Check(rating.Absent? || (rating.Given? && 1 <= rating.value <= 5), "rating", DEFAULT_MESSAGE);
    ErrorFieldsAppend(errComment, errRating);
    errComment + errRating
  }

  /** POST /customer/feedbacks: the trimmed comment under the session's
      customer; a missing rating is stored as null. */
  method SubmitFeedback(db: Database, s: SessionData, comment: string, rating: Field<int>)
    returns (reply: Reply<Row<Feedback>>)
    requires db.Valid()
    modifies db`feedbacks, db`nextId
    ensures db.Valid()
    ensures !Admits(RequireCustomer, s) ==> reply == Fail(403, CUSTOMER_REQUIRED)
    ensures Admits(RequireCustomer, s) && ValidateFeedback(comment, rating) != [] ==>
      reply == Invalid(ValidateFeedback(comment, rating))
    ensures reply.Ok? <==> Admits(RequireCustomer, s) && ValidateFeedback(comment, rating) == []
    ensures !reply.Ok? ==> db.feedbacks == old(db.feedbacks) && db.nextId == old(db.nextId)
    ensures reply.Ok? ==>
      && reply.data == Row(old(db.nextId), Feedback(s.userId.value, s.userName, Trim(comment),
                                                    if rating.Given? then Some(rating.value) else None))
      && db.feedbacks == old(db.feedbacks) + [reply.data]
  {
    var verdict := ApiGuard(RequireCustomer, s);
    if verdict.Reject? {
      return Fail(verdict.status, verdict.message);
    }
    var errs := ValidateFeedback(comment, rating);
    if errs != [] {
      return Invalid(errs);
    }
    var stored := if rating.Given? then Some(rating.value) else None;
    TrimIdempotent(comment);
    var row := db.InsertFeedback(Feedback(s.userId.value, s.userName, Trim(comment), stored));
    reply := Ok(row);
  }

  /** GET /customer/feedbacks: exactly the session customer's feedback, newest first. */
  function ListFeedbacks(s: SessionData, feedbacks: seq<Row<Feedback>>): (r: Reply<seq<Row<Feedback>>>)
    ensures r.Ok? <==> Admits(RequireCustomer, s)
    ensures !r.Ok? ==> r == Fail(403, CUSTOMER_REQUIRED)
    ensures r.Ok? ==> forall f :: f in r.data <==> f in feedbacks && f.val.customerId == s.userId.value
    ensures r.Ok? && IdsIncreasing(feedbacks) ==> IdsDecreasing(r.data)
  {
    var verdict := ApiGuard(RequireCustomer, s);
    if verdict.Reject? then Fail(verdict.status, verdict.message)
    else
      var uid := s.userId.value;
      Ok(NewestFirst(Select(feedbacks, (f: Row<Feedback>) => f.val.customerId == uid)))
  }
}
