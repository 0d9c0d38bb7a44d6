/**
 * SQLite tables as values: rows keyed by rowid, plus the rowid the next
 * INSERT receives (AUTOINCREMENT). Selections scan rowids downwards, which
 * gives `ORDER BY id DESC`; `get` without ORDER BY returns the lowest rowid.
 */
module Tables {
  import opened Wrappers

  datatype Table<R> = Table(rows: map<nat, R>, next: nat)
  {
    /** Every rowid in use is positive and below the next one to be handed out. */
    ghost predicate Valid()
    {
      next >= 1 && forall id :: id in rows ==> 1 <= id < next
    }

    /** INSERT: the new row gets rowid `next`. */
    function Insert(r: R): (t: Table<R>)
      requires Valid()
      ensures t.Valid() && next !in rows && t.rows == rows[next := r] && t.next == next + 1
      ensures t.rows.Keys == rows.Keys + {next}
    {
      Table(rows[next := r], next + 1)
    }
  }

  /** A table with no rows. */
  function Empty<R>(): (t: Table<R>)
    ensures t.Valid() && t.rows == map[]
  {
    Table(map[], 1)
  }

  /** The rowids below `k` whose rows satisfy `p`, highest first. */
  function IdsBelow<R>(rows: map<nat, R>, k: nat, p: R -> bool): (ids: seq<nat>)
    ensures forall i :: 0 <= i < |ids| ==> ids[i] in rows && ids[i] < k && p(rows[ids[i]])
    ensures forall i, j :: 0 <= i < j < |ids| ==> ids[i] > ids[j]
  {
    if k == 0 then []
    else
      var rest := IdsBelow(rows, k - 1, p);
      if k - 1 in rows && p(rows[k - 1]) then [k - 1] + rest else rest
  }

  /** Every matching rowid below `k` is listed. */
  lemma {:induction false} IdsBelowComplete<R>(rows: map<nat, R>, k: nat, p: R -> bool, id: nat)
    requires id in rows && id < k && p(rows[id])
    ensures id in IdsBelow(rows, k, p)
  {
    if id < k - 1 {
      IdsBelowComplete(rows, k - 1, p, id);
    }
  }

  /** `SELECT id ... WHERE p ORDER BY id DESC`. */
  function Select<R>(t: Table<R>, p: R -> bool): (ids: seq<nat>)
    ensures forall i :: 0 <= i < |ids| ==> ids[i] in t.rows && p(t.rows[ids[i]])
    ensures forall i, j :: 0 <= i < j < |ids| ==> ids[i] > ids[j]
  {
    IdsBelow(t.rows, t.next, p)
  }

  /** On a valid table `Select` lists exactly the matching rows. */
  lemma SelectComplete<R>(t: Table<R>, p: R -> bool)
    requires t.Valid()
    ensures forall id :: id in t.rows && p(t.rows[id]) <==> id in Select(t, p)
  {
    forall id | id in t.rows && p(t.rows[id])
      ensures id in Select(t, p)
    {
      IdsBelowComplete(t.rows, t.next, p, id);
    }
  }

  /** A matching row's position among the selected ids. */
  lemma SelectedAt<R>(t: Table<R>, p: R -> bool, id: nat) returns (k: nat)
    requires t.Valid() && id in t.rows && p(t.rows[id])
    ensures k < |Select(t, p)| && Select(t, p)[k] == id
  {
    SelectComplete(t, p);
    k :| 0 <= k < |Select(t, p)| && Select(t, p)[k] == id;
  }

  /** `... ORDER BY id DESC LIMIT 1`: the newest matching row. */
  function Newest<R>(t: Table<R>, p: R -> bool): Option<nat>
  {
    var ids := Select(t, p);
    if ids == [] then None else Some(ids[0])
  }

  /** `get` of `... WHERE p` without ORDER BY: the oldest matching row. */
  function Oldest<R>(t: Table<R>, p: R -> bool): Option<nat>
  {
    var ids := Select(t, p);
    if ids == [] then None else Some(ids[|ids| - 1])
  }

  /** `Newest` finds the highest matching rowid, and finds none only when no row matches. */
  lemma NewestSpec<R>(t: Table<R>, p: R -> bool)
    requires t.Valid()
    ensures Newest(t, p).None? <==> forall id :: id in t.rows ==> !p(t.rows[id])
    ensures Newest(t, p).Some? ==>
      var n := Newest(t, p).value;
      n in t.rows && p(t.rows[n]) && forall id :: id in t.rows && p(t.rows[id]) ==> id <= n
  {
    SelectComplete(t, p);
    var ids := Select(t, p);
    forall id | id in t.rows && p(t.rows[id])
      ensures ids != [] && id <= ids[0]
    {
      var j :| 0 <= j < |ids| && ids[j] == id;
      assert j == 0 || ids[0] > ids[j];
    }
  }

  /** `Oldest` finds the lowest matching rowid, and finds none only when no row matches. */
  lemma OldestSpec<R>(t: Table<R>, p: R -> bool)
    requires t.Valid()
    ensures Oldest(t, p).None? <==> forall id :: id in t.rows ==> !p(t.rows[id])
    ensures Oldest(t, p).Some? ==>
      var n := Oldest(t, p).value;
      n in t.rows && p(t.rows[n]) && forall id :: id in t.rows && p(t.rows[id]) ==> n <= id
  {
    SelectComplete(t, p);
    var ids := Select(t, p);
    forall id | id in t.rows && p(t.rows[id])
      ensures ids != [] && ids[|ids| - 1] <= id
    {
      var j :| 0 <= j < |ids| && ids[j] == id;
      assert j == |ids| - 1 || ids[j] > ids[|ids| - 1];
    }
  }

  /** Two tables whose matching rowids agree agree on the oldest match. */
  lemma OldestOfSameMatches<R>(t: Table<R>, u: Table<R>, p: R -> bool)
    requires t.Valid() && u.Valid()
    requires forall id :: id in t.rows && p(t.rows[id]) <==> id in u.rows && p(u.rows[id])
    ensures Oldest(t, p) == Oldest(u, p)
  {
    OldestSpec(t, p);
    OldestSpec(u, p);
  }

  /** `UPDATE ... SET ... WHERE id = ?`: rewrites one row if it exists. */
  function UpdateRow<R>(t: Table<R>, id: nat, r: R): (u: Table<R>)
    ensures u.next == t.next
    ensures id in t.rows ==> u.rows == t.rows[id := r]
    ensures id !in t.rows ==> u == t
  {
    if id in t.rows then Table(t.rows[id := r], t.next) else t
  }

  /** `DELETE ... WHERE id = ?`. */
  function DeleteRow<R>(t: Table<R>, id: nat): (u: Table<R>)
    ensures u.next == t.next && u.rows == t.rows - {id}
  {
    Table(t.rows - {id}, t.next)
  }
}
