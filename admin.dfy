/** The admin routes: the user list and staff accounts, the menu (whose list
    any signed-in user may read), orders with an unrestricted status update,
    feedback and bills. */
module Admin {
  import opened Base
  import opened Sessions
  import opened Store
  import opened Query

  /** The user list's column selection: every column but the password digest. */
  function ProjectAll(rows: seq<Row<User>>): (r: seq<PublicUser>)
    ensures |r| == |rows|
    ensures forall i :: 0 <= i < |rows| ==> r[i] == Public(rows[i])
    ensures forall v :: v in r <==> exists u :: u in rows && v == Public(u)
  {
    if rows == [] then []
    else
      var rest := ProjectAll(rows[1..]);
      assert forall u :: u in rows <==> u == rows[0] || u in rows[1..];
      [Public(rows[0])] + rest
  }

  /** GET /admin/users: every user, or only those with the queried role when
      one is given, newest first, without the digest. */
  function ListUsers(s: SessionData, users: seq<Row<User>>, role: string): (r: Reply<seq<PublicUser>>)
    ensures r.Ok? <==> Admits(RequireAdmin, s)
    ensures !r.Ok? ==> r == Fail(403, ADMIN_REQUIRED)
    ensures r.Ok? ==> forall v :: v in r.data <==>
      exists u :: u in users && (role == "" || u.val.role == role) && v == Public(u)
    ensures r.Ok? && IdsIncreasing(users) ==> forall i, j :: 0 <= i < j < |r.data| ==> r.data[i].id > r.data[j].id
  {
    var verdict := ApiGuard(RequireAdmin, s);
    if verdict.Reject? then Fail(verdict.status, verdict.message)
    else
      var shown := NewestFirst(Select(users, (u: Row<User>) => role == "" || u.val.role == role));
      var views := ProjectAll(shown);
      assert forall u :: u in shown <==> u in users && (role == "" || u.val.role == role);
      Ok(views)
  }

  /** The validator chain of POST /admin/staff; every message is the default one. */
  function ValidateStaff(rules: EmailRules, name: string, email: string, password: string): (errs: seq<FieldError>)
    ensures ErrorFields(errs) ==
      Flag(IsBlank(name), "name")
      + Flag(!rules.isEmail(email), "email")
      + Flag(|password| < 6, "password")
    ensures errs == [] <==> !IsBlank(name) && rules.isEmail(email) && |password| >= 6
  {
    var errName := Check(Trim(name) != "", "name", DEFAULT_MESSAGE);
    var errEmail := Check(rules.isEmail(email), "email", DEFAULT_MESSAGE);
    var errPassword := Check(|password| >= 6, "password", DEFAULT_MESSAGE);
    ErrorFieldsAppend(errName, errEmail);
    ErrorFieldsAppend(errName + errEmail, errPassword);
    errName + errEmail + errPassword
  }

  /** POST /admin/staff. Invalid input gives 400 with the field errors and a
      taken e-mail 400; neither adds a row. Otherwise the account is stored
      with role "staff" whatever the body says, and the reply carries the whole
      stored row, digest included. The admin's session is not touched. */
  method AddStaff(db: Database, s: SessionData, rules: EmailRules, crypto: Crypto,
                  name: string, email: string, password: string)
    returns (reply: Reply<Row<User>>)
    requires db.Valid()
    modifies db`users, db`nextId
    ensures db.Valid()
    ensures !Admits(RequireAdmin, s) ==> reply == Fail(403, ADMIN_REQUIRED)
    ensures Admits(RequireAdmin, s) && ValidateStaff(rules, name, email, password) != [] ==>
      reply == Invalid(ValidateStaff(rules, name, email, password))
    ensures Admits(RequireAdmin, s) && ValidateStaff(rules, name, email, password) == []
            && EmailTaken(old(db.users), rules.normalize(email)) ==>
      reply == Fail(400, "Email already exists")
    ensures reply.Ok? <==>
      && Admits(RequireAdmin, s) && ValidateStaff(rules, name, email, password) == []
      && !EmailTaken(old(db.users), rules.normalize(email))
    ensures !reply.Ok? ==> db.users == old(db.users) && db.nextId == old(db.nextId)
    ensures reply.Ok? ==>
      && reply.data == Row(old(db.nextId), User(Trim(name), rules.normalize(email), crypto.hash(password), "staff"))
      && db.users == old(db.users) + [reply.data]
  {
    var verdict := ApiGuard(RequireAdmin, s);
    if verdict.Reject? {
      return Fail(verdict.status, verdict.message);
    }
    var errs := ValidateStaff(rules, name, email, password);
    if errs != [] {
      return Invalid(errs);
    }
    var normalized := rules.normalize(email);
    var existing := FindByEmail(db.users, normalized);
    if existing.Some? {
      return Fail(400, "Email already exists");
    }
    var digest := crypto.hash(password);
    var row := db.InsertUser(User(Trim(name), normalized, digest, "staff"));
    reply := Ok(row);
  }

  /** DELETE /admin/users/:id: every row with that id goes and all others
      stay, in order; an id no row has changes nothing and still succeeds. */
  method DeleteUser(db: Database, s: SessionData, id: Id) returns (reply: Reply<()>)
    requires db.Valid()
    modifies db`users
    ensures db.Valid()
    ensures !Admits(RequireAdmin, s) ==> reply == Fail(403, ADMIN_REQUIRED) && db.users == old(db.users)
    ensures Admits(RequireAdmin, s) ==> reply == Ok(())
    ensures forall u :: u in db.users <==> u in old(db.users) && (u.id != id || !reply.Ok?)
    ensures (forall u :: u in old(db.users) ==> u.id != id) ==> db.users == old(db.users)
  {
    var verdict := ApiGuard(RequireAdmin, s);
    if verdict.Reject? {
      return Fail(verdict.status, verdict.message);
    }
    if forall u :: u in db.users ==> u.id != id {
      SelectKeepsAll(db.users, (u: Row<User>) => u.id != id);
    }
    db.users := Select(db.users, (u: Row<User>) => u.id != id);
    reply := Ok(());
  }

  /** GET /admin/menus: every menu item, available or not, newest first. Any
      signed-in user passes; only a missing session user gives 401. */
  function ListMenus(s: SessionData, menus: seq<Row<MenuItem>>): (r: Reply<seq<Row<MenuItem>>>)
    ensures r.Ok? <==> SignedIn(s)
    ensures !r.Ok? ==> r == Fail(401, UNAUTHORIZED)
    ensures r.Ok? ==> |r.data| == |menus| && forall i :: 0 <= i < |menus| ==> r.data[i] == menus[|menus| - 1 - i]
    ensures r.Ok? && IdsIncreasing(menus) ==> IdsDecreasing(r.data)
  {
    var verdict := ApiGuard(RequireAuth, s);
    if verdict.Reject? then Fail(verdict.status, verdict.message)
    else Ok(NewestFirst(menus))
  }

  /** `parseFloat` of the body's price: a number when one parses, otherwise
      NaN, which reaches the store as null. */
  function ParsePrice(price: Field<real>): Option<real> {
    if price.Given? then Some(price.value) else None
  }

  /** The stored category: the one sent, or "general" when it is empty or missing. */
  function CategoryOrDefault(category: string): string {
    if category == "" then "general" else category
  }

  /** POST /admin/menus: a new, available item; the category defaults to
      "general" and the image is the uploaded file's name, or none. */
  method CreateMenu(db: Database, s: SessionData, itemName: string, price: Field<real>, category: string,
                    upload: Option<string>)
    returns (reply: Reply<Row<MenuItem>>)
    requires db.Valid()
    modifies db`menus, db`nextId
    ensures db.Valid()
    ensures reply.Ok? <==> Admits(RequireAdmin, s)
    ensures !reply.Ok? ==> reply == Fail(403, ADMIN_REQUIRED) && db.menus == old(db.menus) && db.nextId == old(db.nextId)
    ensures reply.Ok? ==>
      && reply.data == Row(old(db.nextId), MenuItem(itemName, ParsePrice(price), CategoryOrDefault(category), upload, true))
      && db.menus == old(db.menus) + [reply.data]
    ensures reply.Ok? ==>
      && (reply.data.val.price.None? <==> !price.Given?)
      && (price.Given? ==> reply.data.val.price == Some(price.value))
    ensures reply.Ok? ==>
      && (category == "" ==> reply.data.val.category == "general")
      && (category != "" ==> reply.data.val.category == category)
  {
    var verdict := ApiGuard(RequireAdmin, s);
    if verdict.Reject? {
      return Fail(verdict.status, verdict.message);
    }
    var row := db.InsertMenu(MenuItem(itemName, ParsePrice(price), CategoryOrDefault(category), upload, true));
    reply := Ok(row);
  }

  /** The `available` field of a menu update: text from a form, a JSON boolean,
      or missing. */
  datatype FormValue = Text(text: string) | Bool(flag: bool) | Missing

  /** Availability is set by the text `true` or the boolean true, and by nothing else. */
  predicate IsTrue(v: FormValue) {
    v == Text("true") || v == Bool(true)
  }

  /** PUT /admin/menus/:id: name, price, category (defaulted) and availability
      are written; the image only when a file was uploaded, else the old one
      stays. An id with no row makes the single-row update fail: 500, nothing
      changed. */
  method UpdateMenu(db: Database, s: SessionData, id: Id, itemName: string, price: Field<real>, category: string,
                    available: FormValue, upload: Option<string>)
    returns (reply: Reply<Row<MenuItem>>)
    requires db.Valid()
    modifies db`menus
    ensures db.Valid()
    ensures !reply.Ok? ==> db.menus == old(db.menus)
    ensures !Admits(RequireAdmin, s) ==> reply == Fail(403, ADMIN_REQUIRED)
    ensures Admits(RequireAdmin, s) && IndexOf(old(db.menus), id).None? ==> reply == Fail(500, "Failed to update menu item")
    ensures Admits(RequireAdmin, s) && IndexOf(old(db.menus), id).Some? ==> reply.Ok?
    ensures reply.Ok? ==>
      exists k :: 0 <= k < |old(db.menus)| && old(db.menus)[k].id == id
                  && reply.data == Row(id, MenuItem(itemName, ParsePrice(price), CategoryOrDefault(category),
                                                    if upload.Some? then upload else old(db.menus)[k].val.img,
                                                    IsTrue(available)))
                  && db.menus == old(db.menus)[k := reply.data]
    ensures reply.Ok? ==>
      && (reply.data.val.price.None? <==> !price.Given?)
      && (price.Given? ==> reply.data.val.price == Some(price.value))
    ensures reply.Ok? ==>
      && (category == "" ==> reply.data.val.category == "general")
      && (category != "" ==> reply.data.val.category == category)
  {
    var verdict := ApiGuard(RequireAdmin, s);
    if verdict.Reject? {
      return Fail(verdict.status, verdict.message);
    }
    var found := IndexOf(db.menus, id);
    if found.None? {
      return Fail(500, "Failed to update menu item");
    }
    var k := found.value;
    var img := db.menus[k].val.img;
    if upload.Some? {
      img := upload;
    }
    var updated := Row(id, MenuItem(itemName, ParsePrice(price), CategoryOrDefault(category), img, IsTrue(available)));
    TableUpdate(db.menus, db.nextId, k, updated);
    db.menus := db.menus[k := updated];
    reply := Ok(updated);
  }

  /** DELETE /admin/menus/:id: every row with that id goes and all others stay. */
  method DeleteMenu(db: Database, s: SessionData, id: Id) returns (reply: Reply<()>)
    requires db.Valid()
    modifies db`menus
    ensures db.Valid()
    ensures !Admits(RequireAdmin, s) ==> reply == Fail(403, ADMIN_REQUIRED) && db.menus == old(db.menus)
    ensures Admits(RequireAdmin, s) ==> reply == Ok(())
    ensures forall m :: m in db.menus <==> m in old(db.menus) && (m.id != id || !reply.Ok?)
    ensures (forall m :: m in old(db.menus) ==> m.id != id) ==> db.menus == old(db.menus)
  {
    var verdict := ApiGuard(RequireAdmin, s);
    if verdict.Reject? {
      return Fail(verdict.status, verdict.message);
    }
    if forall m :: m in db.menus ==> m.id != id {
      SelectKeepsAll(db.menus, (m: Row<MenuItem>) => m.id != id);
    }
    db.menus := Select(db.menus, (m: Row<MenuItem>) => m.id != id);
    reply := Ok(());
  }

  /** GET /admin/orders, /admin/feedbacks and /admin/bills: the whole table,
      newest first. */
  function ListTable<T(!new)>(s: SessionData, rows: seq<Row<T>>): (r: Reply<seq<Row<T>>>)
    ensures r.Ok? <==> Admits(RequireAdmin, s)
    ensures !r.Ok? ==> r == Fail(403, ADMIN_REQUIRED)
    ensures r.Ok? ==> |r.data| == |rows| && forall i :: 0 <= i < |rows| ==> r.data[i] == rows[|rows| - 1 - i]
    ensures r.Ok? && IdsIncreasing(rows) ==> IdsDecreasing(r.data)
  {
    var verdict := ApiGuard(RequireAdmin, s);
    if verdict.Reject? then Fail(verdict.status, verdict.message)
    else Ok(NewestFirst(rows))
  }

  /** PUT /admin/orders/:id: the body's status is written as it is, with no
      whitelist, to that order alone; so one call can take the orders table
      off the staff route's whitelist. A missing id gives 500. */
  method UpdateOrderStatus(db: Database, s: SessionData, id: Id, status: string) returns (reply: Reply<Row<Order>>)
    requires db.Valid()
    modifies db`orders
    ensures db.Valid()
    ensures !reply.Ok? ==> db.orders == old(db.orders)
    ensures !Admits(RequireAdmin, s) ==> reply == Fail(403, ADMIN_REQUIRED)
    ensures Admits(RequireAdmin, s) && IndexOf(old(db.orders), id).None? ==> reply == Fail(500, "Failed to update order")
    ensures Admits(RequireAdmin, s) && IndexOf(old(db.orders), id).Some? ==> reply.Ok?
    ensures reply.Ok? ==>
      exists k :: 0 <= k < |old(db.orders)| && old(db.orders)[k].id == id
                  && reply.data == Row(id, old(db.orders)[k].val.(status := status))
                  && db.orders == old(db.orders)[k := reply.data]
    ensures reply.Ok? && status !in ORDER_STATUSES ==> !OrderStatusesWhitelisted(db.orders)
  {
    var verdict := ApiGuard(RequireAdmin, s);
    if verdict.Reject? {
      return Fail(verdict.status, verdict.message);
    }
    var found := IndexOf(db.orders, id);
    if found.None? {
      return Fail(500, "Failed to update order");
    }
    var k := found.value;
    var updated := Row(id, db.orders[k].val.(status := status));
    TableUpdate(db.orders, db.nextId, k, updated);
    db.orders := db.orders[k := updated];
    assert db.orders[k].val.status == status;
    reply := Ok(updated);
  }

  /** DELETE /admin/feedbacks/:id: every row with that id goes and all others stay. */
  method DeleteFeedback(db: Database, s: SessionData, id: Id) returns (reply: Reply<()>)
    requires db.Valid()
    modifies db`feedbacks
    ensures db.Valid()
    ensures !Admits(RequireAdmin, s) ==> reply == Fail(403, ADMIN_REQUIRED) && db.feedbacks == old(db.feedbacks)
    ensures Admits(RequireAdmin, s) ==> reply == Ok(())
    ensures forall f :: f in db.feedbacks <==> f in old(db.feedbacks) && (f.id != id || !reply.Ok?)
    ensures (forall f :: f in old(db.feedbacks) ==> f.id != id) ==> db.feedbacks == old(db.feedbacks)
  {
    var verdict := ApiGuard(RequireAdmin, s);
    if verdict.Reject? {
      return Fail(verdict.status, verdict.message);
    }
    if forall f :: f in db.feedbacks ==> f.id != id {
      SelectKeepsAll(db.feedbacks, (f: Row<Feedback>) => f.id != id);
    }
    db.feedbacks := Select(db.feedbacks, (f: Row<Feedback>) => f.id != id);
    reply := Ok(());
  }
}
