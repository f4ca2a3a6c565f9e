/**
 * The addresses service: a customer's create, update, remove and
 * set-default, each a short sequence of repository statements run one
 * after another (not in a transaction). Making an address the default
 * first clears the user's other defaults, which keeps at most one default
 * address per user.
 */
module AddressesService {
  import opened Wrappers
  import opened Db
  import opened Errors
  import opened AddressesRepo

  const AddressNotFound := Throw(NotFound, "Address not found")

  /** The user has at most one default address. */
  ghost predicate AtMostOneDefault(addresses: map<Id, Address>, userId: Id) {
    forall a, b :: Mine(addresses, a, userId) && Mine(addresses, b, userId) && addresses[a].isDefault && addresses[b].isDefault ==> a == b
  }

  /** `id` is the user's one and only default address. */
  ghost predicate OnlyDefault(addresses: map<Id, Address>, userId: Id, id: Id) {
    && Mine(addresses, id, userId) && addresses[id].isDefault
    && forall k :: Mine(addresses, k, userId) && addresses[k].isDefault ==> k == id
  }

  /** What the customer sends to `create`. */
  datatype AddressInput = AddressInput(
    labelText: Option<string>, line1: string, line2: Option<string>, city: string,
    state: string, pincode: string, country: string, makeDefault: Option<bool>)

  /** The row `create` asks the repository to insert: `is_default` is `!!makeDefault`. */
  function NewRow(userId: Id, input: AddressInput, id: Id): (a: NewAddress)
    ensures a.id == id && a.userId == userId && a.isDefault == (input.makeDefault == Some(true))
  {
    NewAddress(id, userId, input.labelText, input.line1, input.line2, input.city, input.state, input.pincode,
               input.country, input.makeDefault == Some(true))
  }

  /** The table and the result after `create(userId, input)` with the fresh id `id`. */
  function CreateSpec(addresses: map<Id, Address>, userId: Id, input: AddressInput, id: Id, now: Time)
    : (map<Id, Address>, Result<Address>)
  {
    var cleared := if input.makeDefault == Some(true) then Cleared(addresses, userId) else addresses;
    var row := InsertedRow(NewRow(userId, input, id), now);
    if id in cleared then (cleared, Err(DuplicateKey)) else (cleared[id := row], Ok(row))
  }

  /** `create`: clear the user's defaults when asked to make this one the default, then insert. */
  method Create(db: Database, userId: Id, input: AddressInput, id: Id, now: Time) returns (r: Result<Address>)
    modifies db`addresses
    ensures (db.addresses, r) == CreateSpec(old(db.addresses), userId, input, id, now)
  {
    if input.makeDefault == Some(true) {
      ClearDefault(db, userId);
    }
    r := AddressesRepo.Create(db, NewRow(userId, input, id), now);
  }

  /** A new default address is the user's only default; other users' rows are untouched. */
  lemma CreateDefaultIsOnly(addresses: map<Id, Address>, userId: Id, input: AddressInput, id: Id, now: Time)
    requires input.makeDefault == Some(true) && id !in addresses
    ensures var (after, r) := CreateSpec(addresses, userId, input, id, now);
      r.Ok? && r.value.isDefault && OnlyDefault(after, userId, id)
  {
  }

  /** Without makeDefault the address is inserted as not default and no other row changes. */
  lemma CreatePlainKeepsOthers(addresses: map<Id, Address>, userId: Id, input: AddressInput, id: Id, now: Time)
    requires input.makeDefault != Some(true) && id !in addresses
    ensures var (after, r) := CreateSpec(addresses, userId, input, id, now);
      && r.Ok? && !r.value.isDefault && r.value.userId == userId
      && after.Keys == addresses.Keys + {id}
      && forall k :: k in addresses ==> after[k] == addresses[k]
  {
  }

  /** `create` keeps at most one default per user and never touches another user's rows. */
  lemma CreateKeepsOneDefault(addresses: map<Id, Address>, userId: Id, input: AddressInput, id: Id, now: Time)
    requires AtMostOneDefault(addresses, userId)
    ensures AtMostOneDefault(CreateSpec(addresses, userId, input, id, now).0, userId)
    ensures OthersUntouched(addresses, CreateSpec(addresses, userId, input, id, now).0, userId)
  {
  }

  /** The table and the result after `update(userId, addressId, input)`. */
  function UpdateSpec(addresses: map<Id, Address>, userId: Id, addressId: Id, p: AddressPatch, now: Time)
    : (map<Id, Address>, Result<Address>)
  {
    var cleared := if p.isDefault == Some(true) then Cleared(addresses, userId) else addresses;
    if Mine(cleared, addressId, userId) then
      var row := Patched(cleared[addressId], p, now);
      (cleared[addressId := row], Ok(row))
    else (cleared, Err(AddressNotFound))
  }

  /**
   * `update`: with makeDefault true the defaults are cleared first; then
   * the patch, `is_default` taken from makeDefault; NOT_FOUND when the
   * address is not the user's.
   */
  method Update(db: Database, userId: Id, addressId: Id, p: AddressPatch, now: Time) returns (r: Result<Address>)
    modifies db`addresses
    ensures (db.addresses, r) == UpdateSpec(old(db.addresses), userId, addressId, p, now)
  {
    if p.isDefault == Some(true) {
      ClearDefault(db, userId);
    }
    var updated := AddressesRepo.Update(db, addressId, userId, p, now);
    if updated.None? {
      return Err(AddressNotFound);
    }
    r := Ok(updated.value);
  }

  /**
   * An update that makes a missing or foreign address the default fails
   * with NOT_FOUND, yet the user's defaults are already cleared: the
   * failure is not free of effects.
   */
  lemma UpdateNotFoundStillClears(addresses: map<Id, Address>, userId: Id, addressId: Id, p: AddressPatch, now: Time)
    requires p.isDefault == Some(true) && !Mine(addresses, addressId, userId)
    ensures UpdateSpec(addresses, userId, addressId, p, now) == (Cleared(addresses, userId), Err(AddressNotFound))
  {
  }

  /** Without makeDefault true, a refused update changes nothing. */
  lemma UpdateNotFoundUnchanged(addresses: map<Id, Address>, userId: Id, addressId: Id, p: AddressPatch, now: Time)
    requires p.isDefault != Some(true) && !Mine(addresses, addressId, userId)
    ensures UpdateSpec(addresses, userId, addressId, p, now) == (addresses, Err(AddressNotFound))
  {
  }

  /** Making one's own address the default leaves it the only default. */
  lemma UpdateDefaultIsOnly(addresses: map<Id, Address>, userId: Id, addressId: Id, p: AddressPatch, now: Time)
    requires p.isDefault == Some(true) && Mine(addresses, addressId, userId)
    ensures var (after, r) := UpdateSpec(addresses, userId, addressId, p, now);
      r.Ok? && OnlyDefault(after, userId, addressId)
  {
  }

  /** `update` keeps at most one default per user and never touches another user's rows. */
  lemma UpdateKeepsOneDefault(addresses: map<Id, Address>, userId: Id, addressId: Id, p: AddressPatch, now: Time)
    requires AtMostOneDefault(addresses, userId)
    ensures AtMostOneDefault(UpdateSpec(addresses, userId, addressId, p, now).0, userId)
    ensures OthersUntouched(addresses, UpdateSpec(addresses, userId, addressId, p, now).0, userId)
  {
    var (after, r) := UpdateSpec(addresses, userId, addressId, p, now);
    if p.isDefault != Some(true) && Mine(addresses, addressId, userId) && after[addressId].isDefault {
      assert addresses[addressId].isDefault;
    }
  }

  /** `remove`: delete the user's own row, NOT_FOUND when nothing was deleted. */
  method Remove(db: Database, userId: Id, addressId: Id) returns (r: Result<()>)
    modifies db`addresses
    ensures Mine(old(db.addresses), addressId, userId) ==> r == Ok(()) && db.addresses == old(db.addresses) - {addressId}
    ensures !Mine(old(db.addresses), addressId, userId) ==> r == Err(AddressNotFound) && db.addresses == old(db.addresses)
  {
    var ok := Delete(db, addressId, userId);
    if !ok {
      return Err(AddressNotFound);
    }
    r := Ok(());
  }

  /** Removing an address keeps at most one default and leaves other users' rows alone. */
  lemma RemoveKeepsOneDefault(addresses: map<Id, Address>, userId: Id, addressId: Id)
    requires AtMostOneDefault(addresses, userId) && Mine(addresses, addressId, userId)
    ensures AtMostOneDefault(addresses - {addressId}, userId)
    ensures OthersUntouched(addresses, addresses - {addressId}, userId)
  {
  }

  /** The table and the result after `setDefault(userId, addressId)`. */
  function SetDefaultSpec(addresses: map<Id, Address>, userId: Id, addressId: Id, now: Time)
    : (map<Id, Address>, Result<Address>)
  {
    match FindById(addresses, addressId)
    case None => (addresses, Err(AddressNotFound))
    case Some(a) =>
      if a.userId != userId then (addresses, Err(AddressNotFound))
      else
        var cleared := Cleared(addresses, userId);
        var row := cleared[addressId].(isDefault := true, updatedAt := now);
        (cleared[addressId := row], Ok(row))
  }

  /**
   * `setDefault`: look the address up by id; NOT_FOUND, with nothing
   * changed, when it is missing or another user's; otherwise clear the
   * user's defaults and set this one.
   */
  method SetDefault(db: Database, userId: Id, addressId: Id, now: Time) returns (r: Result<Address>)
    modifies db`addresses
    ensures (db.addresses, r) == SetDefaultSpec(old(db.addresses), userId, addressId, now)
  {
    var exists_ := FindById(db.addresses, addressId);
    if exists_.None? || exists_.value.userId != userId {
      return Err(AddressNotFound);
    }
    ClearDefault(db, userId);
    var updated := AddressesRepo.SetDefault(db, addressId, userId, now);
    if updated.None? {
      return Err(AddressNotFound);
    }
    r := Ok(updated.value);
  }

  /** After a successful `setDefault` the address is the user's only default; a refusal changes nothing. */
  lemma SetDefaultIsOnly(addresses: map<Id, Address>, userId: Id, addressId: Id, now: Time)
    ensures var (after, r) := SetDefaultSpec(addresses, userId, addressId, now);
      && (r.Ok? <==> Mine(addresses, addressId, userId))
      && (r.Ok? ==> OnlyDefault(after, userId, addressId) && OthersUntouched(addresses, after, userId))
      && (r.Err? ==> r == Err(AddressNotFound) && after == addresses)
  {
  }
}
