/** Registration, login and the caller's own account, over the `users` table. */
module Accounts {
  import opened Wrappers
  import opened Tables
  import opened Store
  import opened Request

  /** The role every self-registered user gets. */
  const Customer := "customer"
  /** The one answer for an unknown e-mail and for a wrong password alike. */
  const BadCredentials := "Email atau password salah"

  function HasEmail(email: string): User -> bool
  {
    (u: User) => u.email == email
  }

  /** `SELECT … FROM users WHERE email = ?` read with `get`: the first such row. */
  function UserByEmail(users: Table<User>, email: string): Option<nat>
  {
    Oldest(users, HasEmail(email))
  }

  /** No two users share an e-mail address. */
  ghost predicate UniqueEmails(t: Table<User>)
  {
    forall a, b :: a in t.rows && b in t.rows && t.rows[a].email == t.rows[b].email ==> a == b
  }

  /** With unique e-mails the lookup finds exactly the row holding the address. */
  lemma UserByEmailUnique(t: Table<User>, id: nat)
    requires t.Valid() && UniqueEmails(t) && id in t.rows
    ensures UserByEmail(t, t.rows[id].email) == Some(id)
  {
    OldestSpec(t, HasEmail(t.rows[id].email));
  }

  /** A user as answered: never the password hash. */
  datatype PublicUser = PublicUser(id: nat, name: string, email: string, role: string)

  function PublicOf(id: nat, u: User): (p: PublicUser)
    ensures p.id == id && p.name == u.name && p.email == u.email && p.role == u.role
  {
    PublicUser(id, u.name, u.email, u.role)
  }

  datatype Reply =
    | Message(message: string)
    | Authenticated(message: string, token: string, user: PublicUser)
    | Account(user: PublicUser)

  datatype RegisterBody = RegisterBody(name: Field, email: Field, password: Field)
  datatype LoginBody = LoginBody(email: Field, password: Field)

  /** `registerSchema`: a name of 2 to 50 characters, an e-mail, a password of at least 8. */
  function ParseRegister(b: RegisterBody, isEmail: string -> bool): (r: Option<(string, string, string)>)
    ensures r.Some? <==>
      StringBetween(b.name, 2, 50).Some? && Email(b.email, isEmail).Some? && StringAtLeast(b.password, 8).Some?
    ensures r.Some? ==> 2 <= |r.value.0| <= 50 && isEmail(r.value.1) && |r.value.2| >= 8
    ensures r.Some? ==> b == RegisterBody(Some(JStr(r.value.0)), Some(JStr(r.value.1)), Some(JStr(r.value.2)))
  {
    match (StringBetween(b.name, 2, 50), Email(b.email, isEmail), StringAtLeast(b.password, 8))
    case (Some(n), Some(e), Some(p)) => Some((n, e, p))
    case _ => None
  }

  /** The row `register` inserts: no phone, no avatar, role `customer`. */
  function NewCustomer(name: string, email: string, passwordHash: string): (u: User)
    ensures u.role == Customer && u.email == email && u.name == name && u.passwordHash == passwordHash
    ensures u.phone.None? && u.avatarUrl.None?
  {
    User(name, email, passwordHash, Customer, None, None)
  }

  /** Inserting a user with a fresh e-mail keeps e-mails unique. */
  lemma RegisterKeepsUniqueEmails(t: Table<User>, u: User)
    requires t.Valid() && UniqueEmails(t)
    requires UserByEmail(t, u.email).None?
    ensures UniqueEmails(t.Insert(u))
  {
    OldestSpec(t, HasEmail(u.email));
  }

  /**
   * `register`: 400 on an invalid payload, 409 when the e-mail is taken
   * (nothing inserted), otherwise a new customer row whose id, e-mail and
   * role are what the answer and the signed token carry.
   */
  method Register(db: Db, body: RegisterBody, isEmail: string -> bool, hashPassword: string -> string,
                  sign: Principal -> string)
    returns (status: int, reply: Reply)
    requires db.Valid()
    modifies db
    ensures db.Valid()
    ensures ParseRegister(body, isEmail).None? ==>
      status == 400 && reply == Message("Invalid payload") && db.State() == old(db.State())
    ensures ParseRegister(body, isEmail).Some? &&
            UserByEmail(old(db.users), ParseRegister(body, isEmail).value.1).Some? ==>
      status == 409 && reply == Message("Email sudah terdaftar") && db.State() == old(db.State())
    ensures ParseRegister(body, isEmail).Some? &&
            UserByEmail(old(db.users), ParseRegister(body, isEmail).value.1).None? ==>
      var (name, email, password) := ParseRegister(body, isEmail).value;
      var id := old(db.users.next);
      status == 201 &&
      reply == Authenticated("Register berhasil", sign(Principal(id, email, Customer)), PublicUser(id, name, email, Customer)) &&
      db.State() == old(db.State()).(users := old(db.users).Insert(NewCustomer(name, email, hashPassword(password))))
    ensures UniqueEmails(old(db.users)) ==> UniqueEmails(db.users)
  {
    var parsed := ParseRegister(body, isEmail);
    if parsed.None? {
      return 400, Message("Invalid payload");
    }
    var (name, email, password) := parsed.value;
    if UserByEmail(db.users, email).Some? {
      return 409, Message("Email sudah terdaftar");
    }
    var passwordHash := hashPassword(password);
    var id := db.users.next;
    if UniqueEmails(db.users) {
      RegisterKeepsUniqueEmails(db.users, NewCustomer(name, email, passwordHash));
    }
    db.users := db.users.Insert(NewCustomer(name, email, passwordHash));
    var user := PublicUser(id, name, email, Customer);
    var token := sign(Principal(user.id, user.email, user.role));
    return 201, Authenticated("Register berhasil", token, user);
  }

  /** `loginSchema`: an e-mail and a non-empty password. */
  function ParseLogin(b: LoginBody, isEmail: string -> bool): (r: Option<(string, string)>)
    ensures r.Some? <==> Email(b.email, isEmail).Some? && StringAtLeast(b.password, 1).Some?
    ensures r.Some? ==> isEmail(r.value.0) && r.value.1 != ""
    ensures r.Some? ==> b == LoginBody(Some(JStr(r.value.0)), Some(JStr(r.value.1)))
  {
    match (Email(b.email, isEmail), StringAtLeast(b.password, 1))
    case (Some(e), Some(p)) => Some((e, p))
    case _ => None
  }

  /**
   * `login`, which only reads: 400 on an invalid payload; 401 with one and
   * the same message for an unknown e-mail and for a failed password
   * comparison; otherwise the user's public fields and a token for them.
   */
  function Login(users: Table<User>, body: LoginBody, isEmail: string -> bool,
                 compare: (string, string) -> bool, sign: Principal -> string): (r: (int, Reply))
    ensures ParseLogin(body, isEmail).None? ==> r == (400, Message("Invalid payload"))
    ensures r.0 == 401 ==> r.1 == Message(BadCredentials)
    ensures r.0 == 200 <==>
      ParseLogin(body, isEmail).Some? && UserByEmail(users, ParseLogin(body, isEmail).value.0).Some? &&
      compare(ParseLogin(body, isEmail).value.1,
              users.rows[UserByEmail(users, ParseLogin(body, isEmail).value.0).value].passwordHash)
    ensures r.0 == 200 ==>
      var id := UserByEmail(users, ParseLogin(body, isEmail).value.0).value;
      r.1 == Authenticated("Login berhasil", sign(Principal(id, users.rows[id].email, users.rows[id].role)),
                           PublicOf(id, users.rows[id]))
    ensures r.0 in {200, 400, 401}
  {
    match ParseLogin(body, isEmail)
    case None => (400, Message("Invalid payload"))
    case Some((email, password)) =>
      match UserByEmail(users, email)
      case None => (401, Message(BadCredentials))
      case Some(id) =>
        if !compare(password, users.rows[id].passwordHash) then (401, Message(BadCredentials))
        else
          var u := users.rows[id];
          (200, Authenticated("Login berhasil", sign(Principal(id, u.email, u.role)), PublicOf(id, u)))
  }

  /**
   * Login does not reveal whether an address is registered: an unknown
   * e-mail and a known one with a wrong password give the same answer.
   */
  lemma LoginFailuresAlike(known: Table<User>, unknown: Table<User>, body: LoginBody, isEmail: string -> bool,
                           compare: (string, string) -> bool, sign: Principal -> string)
    requires known.Valid() && unknown.Valid()
    requires ParseLogin(body, isEmail).Some?
    requires UserByEmail(unknown, ParseLogin(body, isEmail).value.0).None?
    requires var id := UserByEmail(known, ParseLogin(body, isEmail).value.0);
      id.Some? && !compare(ParseLogin(body, isEmail).value.1, known.rows[id.value].passwordHash)
    ensures Login(known, body, isEmail, compare, sign) == Login(unknown, body, isEmail, compare, sign)
    ensures Login(unknown, body, isEmail, compare, sign) == (401, Message(BadCredentials))
  {
    OldestSpec(known, HasEmail(ParseLogin(body, isEmail).value.0));
  }

  /**
   * Registering and then logging in with the same e-mail and password
   * succeeds as the new user, given a password check that accepts what the
   * hash function produced.
   */
  lemma RegisterThenLogin(t: Table<User>, name: string, email: string, password: string,
                          isEmail: string -> bool, hashPassword: string -> string,
                          compare: (string, string) -> bool, sign: Principal -> string)
    requires t.Valid() && UserByEmail(t, email).None?
    requires isEmail(email) && password != ""
    requires compare(password, hashPassword(password))
    ensures var u := t.Insert(NewCustomer(name, email, hashPassword(password)));
      Login(u, LoginBody(Some(JStr(email)), Some(JStr(password))), isEmail, compare, sign) ==
        (200, Authenticated("Login berhasil", sign(Principal(t.next, email, Customer)),
                            PublicUser(t.next, name, email, Customer)))
  {
    var u := t.Insert(NewCustomer(name, email, hashPassword(password)));
    OldestSpec(t, HasEmail(email));
    OldestSpec(u, HasEmail(email));
    assert UserByEmail(u, email) == Some(t.next);
  }

  /** `me`, which only reads: the caller's public fields, or 404 when the row is gone. */
  function Me(users: Table<User>, caller: Principal): (r: (int, Reply))
    ensures caller.id !in users.rows <==> r == (404, Message("User not found"))
    ensures caller.id in users.rows ==> r == (200, Account(PublicOf(caller.id, users.rows[caller.id])))
  {
    if caller.id in users.rows then (200, Account(PublicOf(caller.id, users.rows[caller.id])))
    else (404, Message("User not found"))
  }
}
