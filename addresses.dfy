/** Saved delivery addresses: at most one primary address per user. */
module Addresses {
  import opened Wrappers
  import opened Strings
  import opened Tables
  import opened Store
  import opened Request

  datatype AddBody = AddBody(title: Field, detail: Field, isPrimary: Field)

  /** An address as listed. */
  datatype AddressRow = AddressRow(id: nat, title: string, detail: string, isPrimary: bool)

  /**
   * The schema: non-empty `title` and `detail` strings (checked before
   * trimming) and an optional boolean `is_primary`.
   */
  function ParseAdd(b: AddBody): (r: Option<(string, string, Option<bool>)>)
    ensures r.Some? <==> StringAtLeast(b.title, 1).Some? && StringAtLeast(b.detail, 1).Some? &&
                         OptionalBool(b.isPrimary).Some?
    ensures r.Some? ==> r.value.0 != "" && r.value.1 != ""
  {
    match (StringAtLeast(b.title, 1), StringAtLeast(b.detail, 1), OptionalBool(b.isPrimary))
    case (Some(t), Some(d), Some(p)) => Some((t, d, p))
    case _ => None
  }

  function OwnedBy(user: nat): Address -> bool
  {
    (a: Address) => a.userId == user
  }

  /** `SELECT COUNT(*) FROM addresses WHERE user_id = ?`. */
  function CountOf(t: Table<Address>, user: nat): nat
  {
    |Select(t, OwnedBy(user))|
  }

  /** `UPDATE addresses SET is_primary = 0 WHERE user_id = ?`. */
  function ClearPrimary(t: Table<Address>, user: nat): (u: Table<Address>)
    requires t.Valid()
    ensures u.Valid() && u.next == t.next && u.rows.Keys == t.rows.Keys
    ensures forall id :: id in t.rows ==>
      u.rows[id] == if t.rows[id].userId == user then t.rows[id].(isPrimary := false) else t.rows[id]
  {
    Table(map id | id in t.rows :: if t.rows[id].userId == user then t.rows[id].(isPrimary := false) else t.rows[id], t.next)
  }

  /** The new address is primary when asked for, and always when it is the user's first. */
  function WillBePrimary(t: Table<Address>, user: nat, requested: Option<bool>): bool
  {
    requested == Some(true) || CountOf(t, user) == 0
  }

  /** The table after `addAddress` accepts a payload (title and detail already trimmed) and has decided the flag `primary`. */
  function AddRows(t: Table<Address>, user: nat, title: string, detail: string, primary: bool): Table<Address>
    requires t.Valid()
  {
    var cleared := if primary then ClearPrimary(t, user) else t;
    cleared.Insert(Address(user, title, detail, primary))
  }

  /** The user has at most one address flagged primary. */
  ghost predicate AtMostOnePrimary(t: Table<Address>, user: nat)
  {
    forall a, b ::
      (a in t.rows && b in t.rows && t.rows[a].userId == user && t.rows[b].userId == user &&
       t.rows[a].isPrimary && t.rows[b].isPrimary) ==> a == b
  }

  lemma CountZeroIff(t: Table<Address>, user: nat)
    requires t.Valid()
    ensures CountOf(t, user) == 0 <==> forall id :: id in t.rows ==> t.rows[id].userId != user
  {
    SelectComplete(t, OwnedBy(user));
    if CountOf(t, user) != 0 {
      var ids := Select(t, OwnedBy(user));
      assert ids[0] in t.rows && t.rows[ids[0]].userId == user;
    }
  }

  /** A user's first address is made primary, whatever the request said. */
  lemma FirstAddressIsPrimary(t: Table<Address>, user: nat, requested: Option<bool>)
    requires t.Valid()
    requires forall id :: id in t.rows ==> t.rows[id].userId != user
    ensures WillBePrimary(t, user, requested)
  {
    CountZeroIff(t, user);
  }

  /** Asking for a primary address gets one; otherwise an existing address keeps the new one secondary. */
  lemma PrimaryDecision(t: Table<Address>, user: nat, requested: Option<bool>)
    requires t.Valid()
    ensures requested == Some(true) ==> WillBePrimary(t, user, requested)
    ensures requested != Some(true) && (exists id :: id in t.rows && t.rows[id].userId == user) ==>
              !WillBePrimary(t, user, requested)
  {
    CountZeroIff(t, user);
  }

  /** The inserted row and what happens to the existing ones. */
  lemma AddedRow(t: Table<Address>, user: nat, title: string, detail: string, primary: bool)
    requires t.Valid()
    ensures var u := AddRows(t, user, title, detail, primary);
      u.Valid() && t.next !in t.rows && u.next == t.next + 1 && u.rows.Keys == t.rows.Keys + {t.next} &&
      u.rows[t.next] == Address(user, title, detail, primary) &&
      forall id :: id in t.rows ==>
        u.rows[id] == if primary && t.rows[id].userId == user then t.rows[id].(isPrimary := false) else t.rows[id]
  {
    var cleared := if primary then ClearPrimary(t, user) else t;
    assert cleared.Valid() && cleared.rows.Keys == t.rows.Keys && cleared.next == t.next;
    var u := cleared.Insert(Address(user, title, detail, primary));
    assert u == AddRows(t, user, title, detail, primary);
  }

  /**
   * After an add the user has at most one primary address: a new primary
   * clears the others first, and a non-primary add keeps what held before.
   */
  lemma AddKeepsAtMostOnePrimary(t: Table<Address>, user: nat, title: string, detail: string, primary: bool)
    requires t.Valid()
    requires primary || AtMostOnePrimary(t, user)
    ensures AtMostOnePrimary(AddRows(t, user, title, detail, primary), user)
  {
    var u := AddRows(t, user, title, detail, primary);
    AddedRow(t, user, title, detail, primary);
    if primary {
      NewPrimaryIsOnlyPrimary(t, user, title, detail);
    } else {
      assert forall id :: id in t.rows ==> u.rows[id] == t.rows[id];
    }
  }

  /** A new primary address is the user's only primary one afterwards. */
  lemma NewPrimaryIsOnlyPrimary(t: Table<Address>, user: nat, title: string, detail: string)
    requires t.Valid()
    ensures var u := AddRows(t, user, title, detail, true);
      forall id :: id in u.rows && u.rows[id].userId == user && u.rows[id].isPrimary ==> id == t.next
  {
    AddedRow(t, user, title, detail, true);
  }

  /** A non-primary add leaves every existing row, flags included, unchanged. */
  lemma NonPrimaryAddKeepsRows(t: Table<Address>, user: nat, title: string, detail: string)
    requires t.Valid()
    ensures var u := AddRows(t, user, title, detail, false);
      !u.rows[t.next].isPrimary && forall id :: id in t.rows ==> u.rows[id] == t.rows[id]
  {
    AddedRow(t, user, title, detail, false);
  }

  /** Other users' rows are never modified, so their own invariant is kept. */
  lemma OtherUsersUntouched(t: Table<Address>, user: nat, title: string, detail: string, primary: bool, other: nat)
    requires t.Valid() && other != user
    ensures var u := AddRows(t, user, title, detail, primary);
      (forall id :: id in t.rows && t.rows[id].userId != user ==> u.rows[id] == t.rows[id]) &&
      (AtMostOnePrimary(t, other) ==> AtMostOnePrimary(u, other))
  {
    AddedRow(t, user, title, detail, primary);
  }

  /** `addAddress`. */
  method AddAddress(db: Db, user: Principal, body: AddBody) returns (status: int, message: string)
    requires db.Valid()
    modifies db
    ensures db.Valid()
    ensures ParseAdd(body).None? ==>
      status == 400 && message == "Invalid payload" && db.State() == old(db.State())
    ensures ParseAdd(body).Some? ==>
      var (title, detail, requested) := ParseAdd(body).value;
      status == 201 && message == "Alamat ditambahkan" &&
      db.State() == old(db.State()).(addresses :=
        AddRows(old(db.addresses), user.id, Trim(title), Trim(detail), WillBePrimary(old(db.addresses), user.id, requested)))
  {
    var parsed := ParseAdd(body);
    if parsed.None? {
      return 400, "Invalid payload";
    }
    var (title, detail, requested) := parsed.value;
    var count := CountOf(db.addresses, user.id);
    var isPrimary := requested == Some(true);
    if count == 0 {
      isPrimary := true;
    }
    if isPrimary {
      db.addresses := ClearPrimary(db.addresses, user.id);
    }
    db.addresses := db.addresses.Insert(Address(user.id, Trim(title), Trim(detail), isPrimary));
    return 201, "Alamat ditambahkan";
  }

  function RowOf(id: nat, a: Address): AddressRow
  {
    AddressRow(id, a.title, a.detail, a.isPrimary)
  }

  function Rows(t: Table<Address>, ids: seq<nat>): (rows: seq<AddressRow>)
    requires forall i :: 0 <= i < |ids| ==> ids[i] in t.rows
    ensures |rows| == |ids|
    ensures forall i :: 0 <= i < |ids| ==> rows[i] == RowOf(ids[i], t.rows[ids[i]])
  {
    seq(|ids|, i requires 0 <= i < |ids| => RowOf(ids[i], t.rows[ids[i]]))
  }

  function HasFlag(user: nat, primary: bool): Address -> bool
  {
    (a: Address) => a.userId == user && a.isPrimary == primary
  }

  /** `listAddresses`: the caller's addresses, primary first, then by id descending. */
  function ListAddresses(t: Table<Address>, user: nat): (rows: seq<AddressRow>)
    ensures forall i :: 0 <= i < |rows| ==> rows[i].id in t.rows
    ensures forall i, j :: 0 <= i < j < |rows| ==> rows[i].id != rows[j].id
  {
    var primary := Select(t, HasFlag(user, true));
    var others := Select(t, HasFlag(user, false));
    var a, b := Rows(t, primary), Rows(t, others);
    assert forall i :: 0 <= i < |a| ==> t.rows[a[i].id].isPrimary;
    assert forall i :: 0 <= i < |b| ==> !t.rows[b[i].id].isPrimary;
    a + b
  }

  /** Only the caller's addresses are listed, as stored, primary first and then by id descending. */
  lemma ListAddressesSound(t: Table<Address>, user: nat)
    ensures var rows := ListAddresses(t, user);
      (forall i :: 0 <= i < |rows| ==>
        rows[i].id in t.rows && t.rows[rows[i].id].userId == user && rows[i] == RowOf(rows[i].id, t.rows[rows[i].id])) &&
      (forall i, j :: 0 <= i < j < |rows| ==>
        (rows[i].isPrimary && !rows[j].isPrimary) || (rows[i].isPrimary == rows[j].isPrimary && rows[i].id > rows[j].id))
  {
    var primary := Select(t, HasFlag(user, true));
    var others := Select(t, HasFlag(user, false));
    var a, b := Rows(t, primary), Rows(t, others);
    assert forall i :: 0 <= i < |a| ==> a[i].isPrimary;
    assert forall i :: 0 <= i < |b| ==> !b[i].isPrimary;
  }

  /** Every address of the caller is listed, at the returned position. */
  lemma ListAddressesComplete(t: Table<Address>, user: nat, id: nat) returns (i: nat)
    requires t.Valid() && id in t.rows && t.rows[id].userId == user
    ensures i < |ListAddresses(t, user)| && ListAddresses(t, user)[i].id == id
  {
    var primary := Select(t, HasFlag(user, true));
    var others := Select(t, HasFlag(user, false));
    var k := SelectedAt(t, HasFlag(user, t.rows[id].isPrimary), id);
    i := if t.rows[id].isPrimary then k else |primary| + k;
  }
}
