/** The caller's own profile update: name, phone and avatar of one user row. */
module Profile {
  import opened Wrappers
  import opened Strings
  import opened Tables
  import opened Store
  import opened Request
  import Accounts

  datatype UpdateBody = UpdateBody(name: Field, phone: Field, avatarUrl: Field)

  /** A user row as answered after the update (no password hash). */
  datatype ProfileRow = ProfileRow(id: nat, name: string, email: string, role: string,
                                   phone: Option<string>, avatarUrl: Option<string>)

  datatype Reply = Message(message: string) | Updated(user: ProfileRow)

  /** `updateSchema`: a name of at least two characters, optional string phone and avatar. */
  function ParseUpdate(b: UpdateBody): (r: Option<(string, Option<string>, Option<string>)>)
    ensures r.Some? <==>
      StringAtLeast(b.name, 2).Some? && OptionalString(b.phone).Some? && OptionalString(b.avatarUrl).Some?
    ensures r.Some? ==> |r.value.0| >= 2 && b.name == Some(JStr(r.value.0))
    ensures r.Some? ==> r.value.1 == OptionalString(b.phone).value && r.value.2 == OptionalString(b.avatarUrl).value
  {
    match (StringAtLeast(b.name, 2), OptionalString(b.phone), OptionalString(b.avatarUrl))
    case (Some(n), Some(p), Some(a)) => Some((n, p, a))
    case _ => None
  }

  /**
   * `UPDATE users SET name = ?, phone = ?, avatar_url = ? WHERE id = ?` with
   * already-trimmed values: the caller's row gets the three fields, nothing
   * else changes.
   */
  function SetProfile(t: Table<User>, id: nat, name: string, phone: string, avatarUrl: string): (u: Table<User>)
    requires t.Valid()
    ensures u.Valid() && u.next == t.next && u.rows.Keys == t.rows.Keys
    ensures forall k :: k in t.rows && k != id ==> u.rows[k] == t.rows[k]
    ensures id in t.rows ==>
      u.rows[id] == t.rows[id].(name := name, phone := Some(phone), avatarUrl := Some(avatarUrl))
  {
    if id in t.rows then UpdateRow(t, id, t.rows[id].(name := name, phone := Some(phone), avatarUrl := Some(avatarUrl)))
    else t
  }

  /** Every e-mail, role and password hash is kept, so is every other user, and e-mails stay unique. */
  lemma SetProfileKeepsIdentity(t: Table<User>, id: nat, name: string, phone: string, avatarUrl: string)
    requires t.Valid()
    ensures var u := SetProfile(t, id, name, phone, avatarUrl);
      (forall k :: k in t.rows ==>
         u.rows[k].email == t.rows[k].email && u.rows[k].role == t.rows[k].role &&
         u.rows[k].passwordHash == t.rows[k].passwordHash) &&
      (Accounts.UniqueEmails(t) ==> Accounts.UniqueEmails(u))
  {
  }

  function RowOf(id: nat, u: User): (p: ProfileRow)
    ensures p.id == id && p.name == u.name && p.email == u.email && p.role == u.role
    ensures p.phone == u.phone && p.avatarUrl == u.avatarUrl
  {
    ProfileRow(id, u.name, u.email, u.role, u.phone, u.avatarUrl)
  }

  /** The answer after the update: the stored row with the new values. */
  function UpdatedRow(t: Table<User>, id: nat, name: string, phone: string, avatarUrl: string): (p: ProfileRow)
    requires id in t.rows
    ensures p.id == id && p.name == name && p.phone == Some(phone) && p.avatarUrl == Some(avatarUrl)
    ensures p.email == t.rows[id].email && p.role == t.rows[id].role
  {
    ProfileRow(id, name, t.rows[id].email, t.rows[id].role, Some(phone), Some(avatarUrl))
  }

  /** The write and the re-read, with values already trimmed. */
  method StoreProfile(db: Db, id: nat, name: string, phone: string, avatarUrl: string) returns (row: ProfileRow)
    requires db.Valid() && id in db.users.rows
    modifies db
    ensures db.Valid()
    ensures db.State() == old(db.State()).(users := SetProfile(old(db.users), id, name, phone, avatarUrl))
    ensures row == UpdatedRow(old(db.users), id, name, phone, avatarUrl)
  {
    db.users := SetProfile(db.users, id, name, phone, avatarUrl);
    row := RowOf(id, db.users.rows[id]);
  }

  /**
   * `updateMe`: 400 on an invalid payload and 404 when the caller's row is
   * gone, both without a write; otherwise the trimmed name, phone and avatar
   * (absent ones as `""`) are stored and the row is answered as it now stands.
   */
  method UpdateMe(db: Db, caller: Principal, body: UpdateBody) returns (status: int, reply: Reply)
    requires db.Valid()
    modifies db
    ensures db.Valid()
    ensures ParseUpdate(body).None? ==>
      status == 400 && reply == Message("Invalid payload") && db.State() == old(db.State())
    ensures ParseUpdate(body).Some? && caller.id !in old(db.users.rows) ==>
      status == 404 && reply == Message("User not found") && db.State() == old(db.State())
    ensures ParseUpdate(body).Some? && caller.id in old(db.users.rows) ==>
      var (name, phone, avatarUrl) := ParseUpdate(body).value;
      var (n, p, a) := (Trim(name), Trim(OrEmpty(phone)), Trim(OrEmpty(avatarUrl)));
      status == 200 &&
      db.State() == old(db.State()).(users := SetProfile(old(db.users), caller.id, n, p, a)) &&
      reply == Updated(UpdatedRow(old(db.users), caller.id, n, p, a))
  {
    var parsed := ParseUpdate(body);
    if parsed.None? {
      return 400, Message("Invalid payload");
    }
    var (name, phone, avatarUrl) := parsed.value;
    if caller.id !in db.users.rows {
      return 404, Message("User not found");
    }
    var row := StoreProfile(db, caller.id, Trim(name), Trim(OrEmpty(phone)), Trim(OrEmpty(avatarUrl)));
    return 200, Updated(row);
  }

  /** The answer is the stored row: what a fresh read of the caller's id gives. */
  lemma AnswerIsStoredRow(t: Table<User>, id: nat, name: string, phone: string, avatarUrl: string)
    requires t.Valid() && id in t.rows
    ensures UpdatedRow(t, id, name, phone, avatarUrl) == RowOf(id, SetProfile(t, id, name, phone, avatarUrl).rows[id])
  {
  }
}
