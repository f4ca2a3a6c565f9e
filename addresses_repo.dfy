/**
 * The addresses repository: a customer's saved addresses, every write
 * scoped by both the address id and the owning user id, so that no
 * statement can touch another user's rows.
 */
module AddressesRepo {
  import opened Wrappers
  import opened Db
  import opened Errors

  /** `id` is an address of `userId`. */
  predicate Mine(addresses: map<Id, Address>, id: Id, userId: Id) {
    id in addresses && addresses[id].userId == userId
  }

  /** The ids of the user's addresses. */
  function OwnedBy(addresses: map<Id, Address>, userId: Id): (ids: set<Id>)
    ensures forall k :: k in ids <==> Mine(addresses, k, userId)
  {
    set k | k in addresses && addresses[k].userId == userId
  }

  /** Rows of other users are exactly as they were. */
  predicate OthersUntouched(before: map<Id, Address>, after: map<Id, Address>, userId: Id) {
    && (forall k :: k in before && before[k].userId != userId ==> k in after && after[k] == before[k])
    && (forall k :: k in after && after[k].userId != userId ==> k in before && before[k] == after[k])
  }

  // ---------------------------------------------------------------------
  // Lookups.
  // ---------------------------------------------------------------------

  /** `findById(id)`: the row with that id, whoever owns it. */
  function FindById(addresses: map<Id, Address>, id: Id): (r: Option<Address>)
    ensures r.Some? <==> id in addresses
    ensures r.Some? ==> r.value == addresses[id]
  {
    if id in addresses then Some(addresses[id]) else None
  }

  /** `findByIdForUser(id, userId)`: the row only when that user owns it; another user's address is not found. */
  function FindByIdForUser(addresses: map<Id, Address>, id: Id, userId: Id): (r: Option<Address>)
    ensures r.Some? <==> Mine(addresses, id, userId)
    ensures r.Some? ==> r.value == addresses[id] && r.value.userId == userId
  {
    if Mine(addresses, id, userId) then Some(addresses[id]) else None
  }

  /** The ownership check only narrows the plain lookup. */
  lemma ForUserNarrowsFind(addresses: map<Id, Address>, id: Id, userId: Id)
    ensures FindByIdForUser(addresses, id, userId) == (if FindById(addresses, id).Some? && FindById(addresses, id).value.userId == userId then FindById(addresses, id) else None)
  {
  }

  // ---------------------------------------------------------------------
  // list(userId).
  // ---------------------------------------------------------------------

  /** `ORDER BY is_default DESC, created_at DESC`: `a` may come before `b`. */
  predicate ListedBefore(a: Address, b: Address) {
    (a.isDefault && !b.isDefault) || (a.isDefault == b.isDefault && a.createdAt >= b.createdAt)
  }

  /** A listing in that order. */
  predicate InListOrder(rows: seq<(Id, Address)>) {
    forall i, j :: 0 <= i < j < |rows| ==> ListedBefore(rows[i].1, rows[j].1)
  }

  /** `row` may be placed in front of every row of `rows`. */
  predicate FitsBefore(row: (Id, Address), rows: seq<(Id, Address)>) {
    forall j :: 0 <= j < |rows| ==> ListedBefore(row.1, rows[j].1)
  }

  /** Insert one row into a listing, after the rows that come before it. */
  function Insert(row: (Id, Address), rows: seq<(Id, Address)>): (r: seq<(Id, Address)>)
    requires InListOrder(rows)
    ensures InListOrder(r)
    ensures multiset(r) == multiset(rows) + multiset{row}
    decreases |rows|
  {
    if rows == [] then [row]
    else if ListedBefore(row.1, rows[0].1) then
      FrontFits(row, rows);
      [row] + rows
    else
      TailInOrder(rows);
      var rest := Insert(row, rows[1..]);
      HeadFitsBeforeRest(rows, row, rest);
      assert rows == [rows[0]] + rows[1..];
      [rows[0]] + rest
  }

  /** A row listed before the first row of a listing is listed before all of them. */
  lemma FrontFits(row: (Id, Address), rows: seq<(Id, Address)>)
    requires InListOrder(rows) && rows != [] && ListedBefore(row.1, rows[0].1)
    ensures FitsBefore(row, rows)
  {
    forall j | 0 <= j < |rows|
      ensures ListedBefore(row.1, rows[j].1)
    {
      if j > 0 {
        assert ListedBefore(rows[0].1, rows[j].1);
      }
    }
  }

  lemma TailInOrder(rows: seq<(Id, Address)>)
    requires InListOrder(rows) && rows != []
    ensures InListOrder(rows[1..])
  {
    forall i, j | 0 <= i < j < |rows[1..]|
      ensures ListedBefore(rows[1..][i].1, rows[1..][j].1)
    {
      assert rows[1..][i] == rows[i + 1] && rows[1..][j] == rows[j + 1];
    }
  }

  /** The first row of a listing still fits before the rest once a row it precedes is inserted there. */
  lemma HeadFitsBeforeRest(rows: seq<(Id, Address)>, row: (Id, Address), rest: seq<(Id, Address)>)
    requires InListOrder(rows) && rows != [] && !ListedBefore(row.1, rows[0].1)
    requires multiset(rest) == multiset(rows[1..]) + multiset{row}
    ensures FitsBefore(rows[0], rest)
  {
    forall j | 0 <= j < |rest|
      ensures ListedBefore(rows[0].1, rest[j].1)
    {
      assert rest[j] in multiset(rest);
      if rest[j] != row {
        assert rest[j] in multiset(rows[1..]);
        var k :| 0 <= k < |rows[1..]| && rows[1..][k] == rest[j];
        assert rows[k + 1] == rest[j];
      }
    }
  }

  /** Inserting adds exactly the one row to what a listing holds. */
  lemma InsertHolds(row: (Id, Address), rows: seq<(Id, Address)>)
    requires InListOrder(rows)
    ensures forall x :: x in Insert(row, rows) <==> x in rows || x == row
    ensures |Insert(row, rows)| == |rows| + 1
  {
    var r := Insert(row, rows);
    forall x
      ensures x in r <==> x in rows || x == row
    {
      assert x in r <==> x in multiset(r);
      assert x in rows <==> x in multiset(rows);
    }
    assert |multiset(r)| == |multiset(rows)| + 1;
  }

  /**
   * `list(userId)`: the user's addresses, each once, the default first
   * and then the newest first. The rows are picked from the table in any
   * order and inserted into the listing one at a time.
   */
  method List(db: Database, userId: Id) returns (rows: seq<(Id, Address)>)
    ensures InListOrder(rows)
    ensures forall k, a :: (k, a) in rows <==> Mine(db.addresses, k, userId) && a == db.addresses[k]
    ensures |rows| == |OwnedBy(db.addresses, userId)|
  {
    var todo := OwnedBy(db.addresses, userId);
    ghost var done: set<Id> := {};
    rows := [];
    while todo != {}
      invariant todo !! done && todo + done == OwnedBy(db.addresses, userId)
      invariant InListOrder(rows)
      invariant forall k, a :: (k, a) in rows <==> k in done && a == db.addresses[k]
      invariant |rows| == |done|
      decreases |todo|
    {
      var k :| k in todo;
      InsertHolds((k, db.addresses[k]), rows);
      rows := Insert((k, db.addresses[k]), rows);
      todo := todo - {k};
      done := done + {k};
    }
  }

  // ---------------------------------------------------------------------
  // Writes.
  // ---------------------------------------------------------------------

  /** The columns `create` takes. */
  datatype NewAddress = NewAddress(
    id: Id, userId: Id, labelText: Option<string>, line1: string, line2: Option<string>,
    city: string, state: string, pincode: string, country: string, isDefault: bool)

  /** The inserted row, stamped now on both timestamps. */
  function InsertedRow(a: NewAddress, now: Time): (row: Address)
    ensures row.userId == a.userId && row.isDefault == a.isDefault && row.labelText == a.labelText
    ensures row.line1 == Some(a.line1) && row.line2 == a.line2 && row.city == Some(a.city)
    ensures row.state == Some(a.state) && row.pincode == Some(a.pincode) && row.country == Some(a.country)
    ensures row.createdAt == now && row.updatedAt == now
  {
    Address(a.userId, a.labelText, Some(a.line1), a.line2, Some(a.city), Some(a.state), Some(a.pincode),
            Some(a.country), a.isDefault, now, now)
  }

  /** `create(a)`: one INSERT … RETURNING *; an id already in use violates the primary key. */
  method Create(db: Database, a: NewAddress, now: Time) returns (r: Result<Address>)
    modifies db`addresses
    ensures a.id in old(db.addresses) ==> r == Err(DuplicateKey) && db.addresses == old(db.addresses)
    ensures a.id !in old(db.addresses) ==>
      r == Ok(InsertedRow(a, now)) && db.addresses == old(db.addresses)[a.id := InsertedRow(a, now)]
  {
    if a.id in db.addresses {
      return Err(DuplicateKey);
    }
    var row := InsertedRow(a, now);
    db.addresses := db.addresses[a.id := row];
    r := Ok(row);
  }

  /** The arguments of `update`: an absent or null column keeps its value. */
  datatype AddressPatch = AddressPatch(
    labelText: Option<string>, line1: Option<string>, line2: Option<string>, city: Option<string>,
    state: Option<string>, pincode: Option<string>, country: Option<string>, isDefault: Option<bool>)

  /** `COALESCE($n, col)` on a nullable text column: the given value, or the column's own when none is given. */
  function Coalesce(given: Option<string>, current: Option<string>): (r: Option<string>)
    ensures given.Some? ==> r == given
    ensures given.None? ==> r == current
  {
    if given.Some? then given else current
  }

  /** `SET col = COALESCE($n, col)` for each column, `updated_at = NOW()`. */
  function Patched(a: Address, p: AddressPatch, now: Time): (r: Address)
    ensures r.userId == a.userId && r.createdAt == a.createdAt && r.updatedAt == now
    ensures r.labelText == Coalesce(p.labelText, a.labelText) && r.line1 == Coalesce(p.line1, a.line1)
    ensures r.line2 == Coalesce(p.line2, a.line2) && r.city == Coalesce(p.city, a.city)
    ensures r.state == Coalesce(p.state, a.state) && r.pincode == Coalesce(p.pincode, a.pincode)
    ensures r.country == Coalesce(p.country, a.country)
    ensures r.isDefault == p.isDefault.GetOr(a.isDefault)
  {
    a.(labelText := Coalesce(p.labelText, a.labelText),
       line1 := Coalesce(p.line1, a.line1),
       line2 := Coalesce(p.line2, a.line2),
       city := Coalesce(p.city, a.city),
       state := Coalesce(p.state, a.state),
       pincode := Coalesce(p.pincode, a.pincode),
       country := Coalesce(p.country, a.country),
       isDefault := p.isDefault.GetOr(a.isDefault),
       updatedAt := now)
  }

  /** A patch of nulls changes nothing but `updated_at`: null means "keep". */
  lemma EmptyPatchKeeps(a: Address, now: Time)
    ensures Patched(a, AddressPatch(None, None, None, None, None, None, None, None), now) == a.(updatedAt := now)
  {
  }

  /** Patching twice with the same patch is patching once. */
  lemma PatchIdempotent(a: Address, p: AddressPatch, now: Time)
    ensures Patched(Patched(a, p, now), p, now) == Patched(a, p, now)
  {
  }

  /** `update(id, userId, a)`: the user's own row is patched and returned; any other id matches nothing. */
  method Update(db: Database, id: Id, userId: Id, p: AddressPatch, now: Time) returns (r: Option<Address>)
    modifies db`addresses
    ensures Mine(old(db.addresses), id, userId) ==>
      r == Some(Patched(old(db.addresses)[id], p, now)) && db.addresses == old(db.addresses)[id := r.value]
    ensures !Mine(old(db.addresses), id, userId) ==> r.None? && db.addresses == old(db.addresses)
  {
    if !Mine(db.addresses, id, userId) {
      return None;
    }
    var row := Patched(db.addresses[id], p, now);
    db.addresses := db.addresses[id := row];
    r := Some(row);
  }

  /** `delete(id, userId)`: true exactly when the user's own row was removed. */
  method Delete(db: Database, id: Id, userId: Id) returns (deleted: bool)
    modifies db`addresses
    ensures deleted <==> Mine(old(db.addresses), id, userId)
    ensures db.addresses == if deleted then old(db.addresses) - {id} else old(db.addresses)
  {
    deleted := Mine(db.addresses, id, userId);
    if deleted {
      db.addresses := db.addresses - {id};
    }
  }

  /** The table after `clearDefault(userId)`: the user's default rows lose the flag; `updated_at` is not touched. */
  function Cleared(addresses: map<Id, Address>, userId: Id): (r: map<Id, Address>)
    ensures r.Keys == addresses.Keys
    ensures forall k :: k in r ==> r[k] == if addresses[k].userId == userId then addresses[k].(isDefault := false) else addresses[k]
  {
    map k | k in addresses :: if addresses[k].userId == userId then addresses[k].(isDefault := false) else addresses[k]
  }

  /** After clearing, the user has no default address and every other user's rows are as they were. */
  lemma ClearedNoDefault(addresses: map<Id, Address>, userId: Id)
    ensures forall k :: Mine(Cleared(addresses, userId), k, userId) ==> !Cleared(addresses, userId)[k].isDefault
    ensures OthersUntouched(addresses, Cleared(addresses, userId), userId)
  {
  }

  /** `UPDATE addresses SET is_default = FALSE WHERE user_id = $1 AND is_default = TRUE`. */
  method ClearDefault(db: Database, userId: Id)
    modifies db`addresses
    ensures db.addresses == Cleared(old(db.addresses), userId)
  {
    db.addresses := Cleared(db.addresses, userId);
  }

  /** `setDefault(id, userId)`: the user's own row becomes default, stamped now; any other id matches nothing. */
  method SetDefault(db: Database, id: Id, userId: Id, now: Time) returns (r: Option<Address>)
    modifies db`addresses
    ensures Mine(old(db.addresses), id, userId) ==>
      r == Some(old(db.addresses)[id].(isDefault := true, updatedAt := now)) && db.addresses == old(db.addresses)[id := r.value]
    ensures !Mine(old(db.addresses), id, userId) ==> r.None? && db.addresses == old(db.addresses)
  {
    if !Mine(db.addresses, id, userId) {
      return None;
    }
    var row := db.addresses[id].(isDefault := true, updatedAt := now);
    db.addresses := db.addresses[id := row];
    r := Some(row);
  }
}
