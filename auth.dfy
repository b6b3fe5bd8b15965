/** The authentication routes: register, login, logout and the session probe.
    Register and login establish the session from the user row; the user they
    return carries id, name, e-mail and role only, never the password digest. */
module Auth {
  import opened Base
  import opened Sessions
  import opened Store
  import opened Query

  /** The user object of the session probe. */
  datatype SessionUser = SessionUser(id: Id, name: string, role: string)

  const INVALID_CREDENTIALS := "Invalid email or password"
  const NOT_AUTHENTICATED := "Not authenticated"

  /** What the register validators accept. */
  predicate RegisterInputOk(rules: EmailRules, name: string, email: string, password: string, role: Option<string>) {
    !IsBlank(name) && rules.isEmail(email) && |password| >= 6 && (role.None? || role.value in ROLES)
  }

  /** The validator chain of POST /register. */
  function ValidateRegister(rules: EmailRules, name: string, email: string, password: string, role: Option<string>)
    : (errs: seq<FieldError>)
    ensures ErrorFields(errs) ==
      Flag(IsBlank(name), "name")
      + Flag(!rules.isEmail(email), "email")
      + Flag(|password| < 6, "password")
      + Flag(role.Some? && role.value !in ROLES, "role")
    ensures errs == [] <==> RegisterInputOk(rules, name, email, password, role)
  {
    var errName := Check(Trim(name) != "", "name", "Name is required");
    var errEmail := Check(rules.isEmail(email), "email", "Valid email is required");
    var errPassword := Check(|password| >= 6, "password", "Password must be at least 6 characters");
    var errRole := Check(role.None? || role.value in ROLES, "role", "Invalid role");
    ErrorFieldsAppend(errName, errEmail);
    ErrorFieldsAppend(errName + errEmail, errPassword);
    ErrorFieldsAppend(errName + errEmail + errPassword, errRole);
    errName + errEmail + errPassword + errRole
  }

  /** Stores a new user and signs the session in as that user. */
  method Enroll(db: Database, session: Session, u: User) returns (row: Row<User>)
    requires db.Valid() && u.role in ROLES && !EmailTaken(db.users, u.email)
    modifies db`users, db`nextId, session
    ensures db.Valid()
    ensures row == Row(old(db.nextId), u) && db.users == old(db.users) + [row] && db.nextId == old(db.nextId) + 1
    ensures session.View() == SessionData(Some(row.id), u.role, u.name)
  {
    row := db.InsertUser(u);
    session.SignIn(row.id, u.role, u.name);
  }

  /** POST /register. Invalid input gives 400 with the field errors; an e-mail
      already registered gives 400; in both cases no row is added and the
      session is untouched. Otherwise the user is stored with the trimmed name,
      the normalised e-mail, the password digest and the requested role
      ("customer" when none is sent, and "admin" is accepted), and the session
      is established for that row. */
  method Register(db: Database, session: Session, rules: EmailRules, crypto: Crypto,
                  name: string, email: string, password: string, role: Option<string>)
    returns (reply: Reply<PublicUser>)
    requires db.Valid()
    modifies db`users, db`nextId, session
    ensures db.Valid()
    ensures ValidateRegister(rules, name, email, password, role) != [] ==>
      reply == Invalid(ValidateRegister(rules, name, email, password, role))
    ensures RegisterInputOk(rules, name, email, password, role) && EmailTaken(old(db.users), rules.normalize(email)) ==>
      reply == Fail(400, "Email already registered")
    ensures reply.Ok? <==>
      RegisterInputOk(rules, name, email, password, role) && !EmailTaken(old(db.users), rules.normalize(email))
    ensures !reply.Ok? ==>
      db.users == old(db.users) && db.nextId == old(db.nextId) && session.View() == old(session.View())
    ensures reply.Ok? ==>
      var row := Row(old(db.nextId), User(Trim(name), rules.normalize(email), crypto.hash(password), role.GetOr("customer")));
      && db.users == old(db.users) + [row]
      && reply.data == PublicUser(row.id, Trim(name), rules.normalize(email), role.GetOr("customer"))
      && session.View() == SessionData(Some(row.id), role.GetOr("customer"), Trim(name))
  {
    var errs := ValidateRegister(rules, name, email, password, role);
    if errs != [] {
      return Invalid(errs);
    }
    assert role.None? || role.value in ROLES;
    var normalized := rules.normalize(email);
    var existing := FindByEmail(db.users, normalized);
    if existing.Some? {
      return Fail(400, "Email already registered");
    }
    var digest := crypto.hash(password);
    var newUser := Enroll(db, session, User(Trim(name), normalized, digest, role.GetOr("customer")));
    reply := Ok(Public(newUser));
  }

  /** The session a registration establishes (see `Register`): the probe
      reports the new user; it is an admin session exactly when the body asked
      for the admin role, and a customer session when it named no role. */
  lemma RegisteredRole(id: Id, role: Option<string>, name: string)
    requires id >= 1
    ensures var s := SessionData(Some(id), role.GetOr("customer"), name);
      && SessionProbe(s) == Ok(SessionUser(id, name, role.GetOr("customer")))
      && (Admits(RequireAdmin, s) <==> role == Some("admin"))
      && (role.None? ==> Admits(RequireCustomer, s) && !Admits(RequireStaff, s))
  {
    assert "customer"[0] != "admin"[0] && "customer"[0] != "staff"[0];
  }

  /** The validator chain of POST /login. */
  function ValidateLogin(rules: EmailRules, email: string, password: string): (errs: seq<FieldError>)
    ensures ErrorFields(errs) ==
      Flag(!rules.isEmail(email), "email") + Flag(password == "", "password")
    ensures errs == [] <==> rules.isEmail(email) && password != ""
  {
    var errEmail := Check(rules.isEmail(email), "email", "Valid email is required");
    var errPassword := Check(password != "", "password", "Password is required");
    ErrorFieldsAppend(errEmail, errPassword);
    errEmail + errPassword
  }

  /** A stored user has this e-mail and a digest the password matches. */
  predicate CredentialsMatch(users: seq<Row<User>>, crypto: Crypto, email: string, password: string) {
    exists u :: u in users && u.val.email == email && crypto.verify(password, u.val.passwordHash)
  }

  /** POST /login. An unknown e-mail and a wrong password give the same 401
      and leave the session as it was; matching credentials establish the
      session for that user. */
  method Login(db: Database, session: Session, rules: EmailRules, crypto: Crypto, email: string, password: string)
    returns (reply: Reply<PublicUser>)
    requires db.Valid()
    modifies session
    ensures ValidateLogin(rules, email, password) != [] ==> reply == Invalid(ValidateLogin(rules, email, password))
    ensures ValidateLogin(rules, email, password) == [] && !CredentialsMatch(db.users, crypto, rules.normalize(email), password) ==>
      reply == Fail(401, INVALID_CREDENTIALS)
    ensures reply.Ok? <==>
      ValidateLogin(rules, email, password) == [] && CredentialsMatch(db.users, crypto, rules.normalize(email), password)
    ensures !reply.Ok? ==> session.View() == old(session.View())
    ensures reply.Ok? ==>
      exists u :: (&& u in db.users && u.val.email == rules.normalize(email)
                   && crypto.verify(password, u.val.passwordHash)
                   && reply.data == PublicUser(u.id, u.val.name, u.val.email, u.val.role)
                   && session.View() == SessionData(Some(u.id), u.val.role, u.val.name)
                   && SignedIn(session.View()))
  {
    var errs := ValidateLogin(rules, email, password);
    if errs != [] {
      return Invalid(errs);
    }
    var normalized := rules.normalize(email);
    var user := FindByEmail(db.users, normalized);
    if user.None? {
      return Fail(401, INVALID_CREDENTIALS);
    }
    var u := user.value;
    var k :| 0 <= k < |db.users| && db.users[k] == u;
    forall v | v in db.users && v.val.email == normalized ensures v == u {
      var j :| 0 <= j < |db.users| && db.users[j] == v;
      assert j == k;
    }
    if !crypto.verify(password, u.val.passwordHash) {
      return Fail(401, INVALID_CREDENTIALS);
    }
    session.SignIn(u.id, u.val.role, u.val.name);
    reply := Ok(Public(u));
  }

  /** POST /logout: the session is destroyed, after which the probe answers 401. */
  method Logout(session: Session) returns (reply: Reply<()>)
    modifies session
    ensures reply == Ok(())
    ensures session.View() == ANONYMOUS
    ensures SessionProbe(session.View()) == Fail(401, NOT_AUTHENTICATED)
  {
    session.Destroy();
    reply := Ok(());
  }

  /** GET /session: the signed-in user's id, name and role, or 401. */
  function SessionProbe(s: SessionData): (r: Reply<SessionUser>)
    ensures r.Ok? <==> SignedIn(s)
    ensures r.Ok? ==> r.data == SessionUser(s.userId.value, s.userName, s.userRole)
    ensures !r.Ok? ==> r == Fail(401, NOT_AUTHENTICATED)
  {
    if SignedIn(s) then Ok(SessionUser(s.userId.value, s.userName, s.userRole))
    else Fail(401, NOT_AUTHENTICATED)
  }
}
