/**
 * The users table as the authentication service uses it: lookups by
 * e-mail and by id, and the insertion of a new customer. The schema
 * declares `email` unique, which the lookup by e-mail relies on.
 */
module UserRepo {
  import opened Wrappers
  import opened Db
  import opened Errors

  /** Some user has this e-mail address. */
  predicate EmailTaken(users: map<Id, User>, email: string) {
    exists k :: k in users && users[k].email == email
  }

  /** The `UNIQUE` constraint on `users.email`. */
  ghost predicate EmailsUnique(users: map<Id, User>) {
    forall a, b :: a in users && b in users && users[a].email == users[b].email ==> a == b
  }

  /** `findByEmail`: the id of the one user with that e-mail, or nothing. */
  function FindByEmail(users: map<Id, User>, email: string): (r: Option<Id>)
    requires EmailsUnique(users)
    ensures r.None? <==> !EmailTaken(users, email)
    ensures r.Some? ==> r.value in users && users[r.value].email == email
  {
    if EmailTaken(users, email) then
      var k :| k in users && users[k].email == email; Some(k)
    else None
  }

  /** `findById`. */
  function FindById(users: map<Id, User>, id: Id): (r: Option<User>)
    ensures r.Some? <==> id in users
    ensures r.Some? ==> r.value == users[id]
  {
    if id in users then Some(users[id]) else None
  }

  /** The row `create` inserts: an active customer with a password. */
  function NewCustomer(name: string, email: string, phone: string, passwordHash: string): (u: User)
    ensures u.role == Customer && u.isActive && u.email == email && u.passwordHash == Some(passwordHash)
  {
    User(Customer, Some(name), email, phone, Some(passwordHash), true)
  }

  /** `create`: insert a customer; the primary key and the unique e-mail refuse duplicates. */
  method Create(db: Database, id: Id, name: string, email: string, phone: string, passwordHash: string)
    returns (r: Result<User>)
    modifies db`users
    ensures (id in old(db.users) || EmailTaken(old(db.users), email)) ==>
      r == Err(DuplicateKey) && db.users == old(db.users)
    ensures !(id in old(db.users) || EmailTaken(old(db.users), email)) ==>
      r == Ok(NewCustomer(name, email, phone, passwordHash)) && db.users == old(db.users)[id := r.value]
  {
    if id in db.users || EmailTaken(db.users, email) {
      return Err(DuplicateKey);
    }
    var u := NewCustomer(name, email, phone, passwordHash);
    db.users := db.users[id := u];
    r := Ok(u);
  }

  /** Inserting through `create` keeps e-mails unique. */
  lemma CreateKeepsEmailsUnique(users: map<Id, User>, id: Id, name: string, email: string, phone: string, passwordHash: string)
    requires EmailsUnique(users) && id !in users && !EmailTaken(users, email)
    ensures EmailsUnique(users[id := NewCustomer(name, email, phone, passwordHash)])
  {
  }
}
