/** The page router: each path serves one HTML view, some behind a page
    guard that redirects to `/` instead of serving; and the page logout. */
module Pages {
  import opened Base
  import opened Sessions

  /** Who may see a page: anyone, or the sessions a page guard admits. */
  datatype Access = Open | Behind(guard: Guard)

  /** The first path segment of a page: none, `admin`, `staff` or `customer`. */
  datatype Area = Top | AdminArea | StaffArea | CustomerArea

  /** A registered page: who may see it and the view it serves. */
  datatype Page = Page(access: Access, view: string)

  /** What the page router does with a GET: serve a view, redirect, or pass
      the request on to the routers mounted after it. */
  datatype PageResponse = SendFile(view: string) | Redirect(location: string) | NotHandled

  /** The guarded admin pages and their views. */
  function AdminView(page: string): Option<string> {
    if page == "dashboard" then Some("admin/dashboard.html")
    else if page == "users" then Some("admin/users.html")
    else if page == "users/staff" then Some("admin/staff-table.html")
    else if page == "users/customers" then Some("admin/customer-table.html")
    else if page == "users/add" then Some("admin/add-staff.html")
    else if page == "menus" then Some("admin/menus.html")
    else if page == "menus/view" then Some("admin/view-menu.html")
    else if page == "menus/add" then Some("admin/add-menu.html")
    else if page == "orders" then Some("admin/orders.html")
    else if page == "feedbacks" then Some("admin/feedbacks.html")
    else None
  }

  /** The guarded staff pages and their views. */
  function StaffView(page: string): Option<string> {
    if page == "dashboard" then Some("staff/dashboard.html")
    else if page == "orders" then Some("staff/orders.html")
    else if page == "bills" then Some("staff/bills.html")
    else None
  }

  /** The customer pages and their views. */
  function CustomerView(page: string): Option<string> {
    if page == "dashboard" then Some("customer/dashboard.html")
    else if page == "menus" then Some("customer/menus.html")
    else if page == "orders" then Some("customer/orders.html")
    else if page == "bills" then Some("customer/bills.html")
    else if page == "feedbacks" then Some("customer/feedbacks.html")
    else None
  }

  function Guarded(g: Guard, view: Option<string>): Option<Page> {
    if view.Some? then Some(Page(Behind(g), view.value)) else None
  }

  /** The page table: the page registered at the path made of the area's
      segment (none, `/admin/`, `/staff/` or `/customer/`) and `page`, if any. */
  function Route(area: Area, page: string): Option<Page> {
    match area
    case Top =>
      if page == "" || page == "home" then Some(Page(Open, "home.html"))
      else if page == "menu" then Some(Page(Open, "menu.html"))
      else if page == "order" then Some(Page(Open, "order.html"))
      else None
    case AdminArea =>
      if page == "login" then Some(Page(Open, "admin/login.html"))
      else Guarded(RequireAdmin, AdminView(page))
    case StaffArea =>
      if page == "login" then Some(Page(Open, "staff/login.html"))
      else if page == "register" then Some(Page(Open, "staff/register.html"))
      else Guarded(RequireStaff, StaffView(page))
    case CustomerArea =>
      Guarded(RequireCustomer, CustomerView(page))
  }

  /** The page guard in front of a page, if any. */
  function Gate(access: Access, s: SessionData): (v: PageVerdict)
    ensures v.Proceed? <==> access.Open? || Admits(access.guard, s)
    ensures v.RedirectTo? ==> v.location == "/"
  {
    match access
    case Open => Proceed
    case Behind(g) => PageGuard(g, s)
  }

  /** GET on the page router of the page `page` in `area`. A path it does not
      register passes on; a guarded page the session may not see redirects to
      `/`; otherwise the view is served. */
  function ServePage(area: Area, page: string, s: SessionData): (r: PageResponse)
    ensures r.NotHandled? <==> Route(area, page).None?
    ensures r.SendFile? ==>
      && Route(area, page).Some? && r.view == Route(area, page).value.view
      && (Route(area, page).value.access.Open? || Admits(Route(area, page).value.access.guard, s))
    ensures r.Redirect? ==>
      && r.location == "/" && Route(area, page).Some?
      && Route(area, page).value.access.Behind? && !Admits(Route(area, page).value.access.guard, s)
  {
    match Route(area, page)
    case None => NotHandled
    case Some(p) =>
      match Gate(p.access, s)
      case Proceed => SendFile(p.view)
      case RedirectTo(location) => Redirect(location)
  }

  /** A page of an area is only ever served to a session of that area's role:
      every admin page but the login page needs an admin, every staff page
      but login and register needs staff or an admin, and every customer page
      needs a customer. */
  lemma AreaPageServedOnlyToItsRole(area: Area, page: string, s: SessionData)
    requires ServePage(area, page, s).SendFile?
    ensures area == AdminArea && page != "login" ==> Admits(RequireAdmin, s)
    ensures area == StaffArea && page != "login" && page != "register" ==> Admits(RequireStaff, s)
    ensures area == CustomerArea ==> Admits(RequireCustomer, s)
  {
  }

  /** An anonymous client asking for any guarded page is sent to `/`. */
  lemma AnonymousRedirected(area: Area, page: string)
    requires Route(area, page).Some? && Route(area, page).value.access.Behind?
    ensures ServePage(area, page, ANONYMOUS) == Redirect("/")
  {
    AnonymousRefused(Route(area, page).value.access.guard);
  }

  /** `/` and `/home` serve the same view to every session. */
  lemma HomeAliases(s: SessionData)
    ensures ServePage(Top, "", s) == ServePage(Top, "home", s) == SendFile("home.html")
  {
  }

  /** The open pages are served whatever the session holds. */
  lemma OpenPagesServed(s: SessionData)
    ensures ServePage(Top, "menu", s) == SendFile("menu.html")
    ensures ServePage(Top, "order", s) == SendFile("order.html")
    ensures ServePage(AdminArea, "login", s) == SendFile("admin/login.html")
    ensures ServePage(StaffArea, "login", s) == SendFile("staff/login.html")
    ensures ServePage(StaffArea, "register", s) == SendFile("staff/register.html")
  {
  }

  /** GET /logout on the page router: the session is destroyed and the
      client is sent to `/`. */
  method PageLogout(session: Session) returns (r: PageResponse)
    modifies session
    ensures r == Redirect("/")
    ensures session.View() == ANONYMOUS
  {
    session.Destroy();
    r := Redirect("/");
  }
}
