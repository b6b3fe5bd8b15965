/** The relational store the routes query, held in memory: one table per
    entity, each a sequence of rows in insertion order (so a row's position is
    its `created_at` order), and one counter handing out fresh ids. */
module Store {
  import opened Base

  /** A stored row: its id and its columns. */
  datatype Row<+T> = Row(id: Id, val: T)

  datatype User = User(name: string, email: string, passwordHash: string, role: string)

  /** A user as the routes return it: every column but the password digest. */
  datatype PublicUser = PublicUser(id: Id, name: string, email: string, role: string)

  function Public(u: Row<User>): PublicUser {
    PublicUser(u.id, u.val.name, u.val.email, u.val.role)
  }

  datatype MenuItem = MenuItem(itemName: string, price: Option<real>, category: string, img: Option<string>, available: bool)

  datatype Order = Order(customerId: Id, customerName: string, itemId: string, itemName: string, quantity: int, status: string)

  datatype Bill = Bill(orderId: string, customerId: Id, itemName: string, totalPrice: real, status: string, paidAt: Option<Instant>)

  datatype Feedback = Feedback(customerId: Id, customerName: string, comment: string, rating: Option<int>)

  const ROLES: set<string> := {"admin", "staff", "customer"}
  const ORDER_STATUSES: set<string> := {"pending", "preparing", "ready", "completed", "cancelled"}
  const BILL_STATUSES: set<string> := {"unpaid", "paid"}

  /** Rows appear in the order of their ids, which is the order they were inserted. */
  predicate IdsIncreasing<T>(rows: seq<Row<T>>) {
    forall i, j :: 0 <= i < j < |rows| ==> rows[i].id < rows[j].id
  }

  /** Newest first. */
  predicate IdsDecreasing<T>(rows: seq<Row<T>>) {
    forall i, j :: 0 <= i < j < |rows| ==> rows[i].id > rows[j].id
  }

  predicate IdsBelow<T>(rows: seq<Row<T>>, bound: Id) {
    forall i :: 0 <= i < |rows| ==> 1 <= rows[i].id < bound
  }

  /** Ids are positive, below the next id to hand out, and in insertion order. */
  predicate TableOk<T>(rows: seq<Row<T>>, nextId: Id) {
    IdsIncreasing(rows) && IdsBelow(rows, nextId)
  }

  /** No two stored users share an e-mail. */
  predicate EmailsUnique(users: seq<Row<User>>) {
    forall u, v :: u in users && v in users && u.val.email == v.val.email ==> u == v
  }

  predicate EmailTaken(users: seq<Row<User>>, email: string) {
    exists u :: u in users && u.val.email == email
  }

  /** A bill's status is one of the two the routes write, and a paid bill
      carries its payment time. */
  predicate BillWellFormed(b: Bill) {
    b.status in BILL_STATUSES && (b.status == "paid" ==> b.paidAt.Some?) && b.totalPrice >= 0.0
  }

  predicate FeedbackWellFormed(f: Feedback) {
    !IsBlank(f.comment) && (f.rating.Some? ==> 1 <= f.rating.value <= 5)
  }

  /** Every order status is on the staff route's whitelist. This is NOT kept by
      the store: the admin order update writes any string. */
  predicate OrderStatusesWhitelisted(orders: seq<Row<Order>>) {
    forall i :: 0 <= i < |orders| ==> orders[i].val.status in ORDER_STATUSES
  }

  /** Appending the row with the next id keeps a table in order, and the
      counter moves past it. */
  lemma TableAppend<T>(rows: seq<Row<T>>, nextId: Id, row: Row<T>)
    requires TableOk(rows, nextId) && nextId >= 1 && row.id == nextId
    ensures TableOk(rows + [row], nextId + 1)
  {
  }

  /** Moving the counter on keeps a table's ids below it. */
  lemma TableBump<T>(rows: seq<Row<T>>, nextId: Id)
    requires TableOk(rows, nextId)
    ensures TableOk(rows, nextId + 1)
  {
  }

  /** Rewriting a row's columns in place, under the same id, keeps a table in order. */
  lemma TableUpdate<T>(rows: seq<Row<T>>, nextId: Id, k: nat, row: Row<T>)
    requires TableOk(rows, nextId) && k < |rows| && row.id == rows[k].id
    ensures TableOk(rows[k := row], nextId)
  {
  }

  lemma EmailsUniqueAppend(users: seq<Row<User>>, row: Row<User>)
    requires EmailsUnique(users) && !EmailTaken(users, row.val.email)
    ensures EmailsUnique(users + [row])
  {
  }

  class Database {
    var users: seq<Row<User>>
    var menus: seq<Row<MenuItem>>
    var orders: seq<Row<Order>>
    var bills: seq<Row<Bill>>
    var feedbacks: seq<Row<Feedback>>
    var nextId: Id

    /** The invariant every route keeps: ids are positive, fresh and in
        insertion order in every table; e-mails are unique; every user has one
        of the three roles; orders have a positive quantity; bills and
        feedbacks passed their validators. */
    ghost predicate Valid()
      reads this
    {
      && nextId >= 1
      && TableOk(users, nextId) && EmailsUnique(users) && (forall u :: u in users ==> u.val.role in ROLES)
      && TableOk(menus, nextId)
      && TableOk(orders, nextId) && (forall o :: o in orders ==> o.val.quantity >= 1)
      && TableOk(bills, nextId) && (forall b :: b in bills ==> BillWellFormed(b.val))
      && TableOk(feedbacks, nextId) && (forall f :: f in feedbacks ==> FeedbackWellFormed(f.val))
    }

    constructor ()
      ensures Valid()
      ensures users == [] && menus == [] && orders == [] && bills == [] && feedbacks == []
    {
      users, menus, orders, bills, feedbacks := [], [], [], [], [];
      nextId := 1;
    }

    /** Insert-returning-row on `users`. */
    method InsertUser(u: User) returns (row: Row<User>)
      requires Valid() && u.role in ROLES && !EmailTaken(users, u.email)
      modifies this`users, this`nextId
      ensures Valid()
      ensures row == Row(old(nextId), u) && users == old(users) + [row] && nextId == old(nextId) + 1
    {
      row := Row(nextId, u);
      TableAppend(users, nextId, row);
      TableBump(menus, nextId);
      TableBump(orders, nextId);
      TableBump(bills, nextId);
      TableBump(feedbacks, nextId);
      EmailsUniqueAppend(users, row);
      users := users + [row];
      nextId := nextId + 1;
    }

    method InsertMenu(m: MenuItem) returns (row: Row<MenuItem>)
      requires Valid()
      modifies this`menus, this`nextId
      ensures Valid()
      ensures row == Row(old(nextId), m) && menus == old(menus) + [row] && nextId == old(nextId) + 1
    {
      row := Row(nextId, m);
      TableAppend(menus, nextId, row);
      TableBump(users, nextId);
      TableBump(orders, nextId);
      TableBump(bills, nextId);
      TableBump(feedbacks, nextId);
      menus := menus + [row];
      nextId := nextId + 1;
    }

    method InsertOrder(o: Order) returns (row: Row<Order>)
      requires Valid() && o.quantity >= 1
      modifies this`orders, this`nextId
      ensures Valid()
      ensures row == Row(old(nextId), o) && orders == old(orders) + [row] && nextId == old(nextId) + 1
    {
      row := Row(nextId, o);
      TableAppend(orders, nextId, row);
      TableBump(users, nextId);
      TableBump(menus, nextId);
      TableBump(bills, nextId);
      TableBump(feedbacks, nextId);
      orders := orders + [row];
      nextId := nextId + 1;
    }

    method InsertBill(b: Bill) returns (row: Row<Bill>)
      requires Valid() && BillWellFormed(b)
      modifies this`bills, this`nextId
      ensures Valid()
      ensures row == Row(old(nextId), b) && bills == old(bills) + [row] && nextId == old(nextId) + 1
    {
      row := Row(nextId, b);
      TableAppend(bills, nextId, row);
      TableBump(users, nextId);
      TableBump(menus, nextId);
      TableBump(orders, nextId);
      TableBump(feedbacks, nextId);
      bills := bills + [row];
      nextId := nextId + 1;
    }

    method InsertFeedback(f: Feedback) returns (row: Row<Feedback>)
      requires Valid() && FeedbackWellFormed(f)
      modifies this`feedbacks, this`nextId
      ensures Valid()
      ensures row == Row(old(nextId), f) && feedbacks == old(feedbacks) + [row] && nextId == old(nextId) + 1
    {
      row := Row(nextId, f);
      TableAppend(feedbacks, nextId, row);
      TableBump(users, nextId);
      TableBump(menus, nextId);
      TableBump(orders, nextId);
      TableBump(bills, nextId);
      feedbacks := feedbacks + [row];
      nextId := nextId + 1;
    }
  }
}
