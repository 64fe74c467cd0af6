// The persistent side of the controller: the users table with its Preference
// records, and the request's session hash. Db and SessionState are their
// values; UserStore and Session are the objects the controller updates.
module Store {
  import opened Records

  /** The users table as a map from id to record, the next id the database
      will hand out, and the ids that have a Preference record. */
  datatype Db = Db(users: map<nat, User>, nextId: nat, preferences: set<nat>)

  /** `session['user_id']`, `session['new_user']` and `session[:cas_user]`. */
  datatype SessionState = SessionState(userId: Option<nat>, newUser: Option<User>, casUser: Option<string>)

  ghost predicate LoginsUnique(users: map<nat, User>)
  {
    forall i, j :: i in users && j in users && i != j ==> users[i].login != users[j].login
  }

  /** The table invariant: logins are present and unique, every id was handed
      out, and every Preference belongs to a stored user. */
  ghost predicate WellFormed(db: Db)
  {
    && LoginsUnique(db.users)
    && (forall id :: id in db.users ==> id < db.nextId && db.users[id].login != "")
    && db.preferences <= db.users.Keys
  }

  /** `User.no_users_yet?` */
  predicate NoUsersYet(db: Db)
  {
    |db.users| == 0
  }

  /** The caller is a logged-in admin: `@user && @user.is_admin?`. */
  predicate IsAdminCaller(db: Db, caller: Option<nat>)
  {
    caller.Some? && caller.value in db.users && db.users[caller.value].isAdmin
  }

  /** `user.valid?` for a record that is new (`self == None`) or stored under
      `self`: a present login that no other stored user has, and the User
      model's remaining validations, given as `rules`. */
  predicate ValidUser(db: Db, rules: User -> bool, u: User, self: Option<nat>)
  {
    && u.login != ""
    && (forall id :: id in db.users && Some(id) != self ==> db.users[id].login != u.login)
    && rules(u)
  }

  datatype Saved = Saved(db: Db, id: Option<nat>)

  /** `user.save` on a new record: when valid, the record is stored under a
      fresh id; otherwise nothing is written. */
  function SaveNew(db: Db, rules: User -> bool, u: User): (r: Saved)
    ensures r.id.Some? <==> ValidUser(db, rules, u, None)
    ensures r.id.None? ==> r.db == db
    ensures r.id.Some? ==> r.db.users == db.users[r.id.value := u]
    ensures r.id.Some? && WellFormed(db) ==> r.id.value !in db.users
    ensures r.db.preferences == db.preferences
    ensures WellFormed(db) ==> WellFormed(r.db)
  {
    if ValidUser(db, rules, u, None) then
      Saved(Db(db.users[db.nextId := u], db.nextId + 1, db.preferences), Some(db.nextId))
    else
      Saved(db, None)
  }

  /** `user.save` on the stored record `id`: when the changed record is valid
      it replaces the stored one; otherwise nothing is written. */
  function SaveExisting(db: Db, rules: User -> bool, id: nat, u: User): (r: Saved)
    requires id in db.users
    ensures r.id.Some? <==> ValidUser(db, rules, u, Some(id))
    ensures r.id.Some? ==> r.id.value == id && r.db == db.(users := db.users[id := u])
    ensures r.id.None? ==> r.db == db
    ensures WellFormed(db) ==> WellFormed(r.db)
  {
    if ValidUser(db, rules, u, Some(id)) then Saved(db.(users := db.users[id := u]), Some(id))
    else Saved(db, None)
  }

  /** `create_preference` for the stored user `id`. */
  function AddPreference(db: Db, id: nat): (r: Db)
    requires id in db.users
    ensures r.users == db.users && r.nextId == db.nextId
    ensures r.preferences == db.preferences + {id}
    ensures WellFormed(db) ==> WellFormed(r)
  {
    db.(preferences := db.preferences + {id})
  }

  /** `destroy` of user `id`, which also removes its dependent Preference. */
  function RemoveUser(db: Db, id: nat): (r: Db)
    ensures r.users.Keys == db.users.Keys - {id}
    ensures forall k :: k in r.users ==> r.users[k] == db.users[k]
    ensures r.preferences == db.preferences - {id}
    ensures WellFormed(db) ==> WellFormed(r)
  {
    Db(db.users - {id}, db.nextId, db.preferences - {id})
  }

  /** The users table and its Preference records. */
  class UserStore {
    var users: map<nat, User>
    var nextId: nat
    var preferences: set<nat>
    const rules: User -> bool

    function State(): Db
      reads this
    {
      Db(users, nextId, preferences)
    }

    ghost predicate Valid()
      reads this
    {
      WellFormed(State())
    }

    constructor (rules: User -> bool)
      ensures Valid() && this.rules == rules
      ensures State() == Db(map[], 0, {})
    {
      users, nextId, preferences := map[], 0, {};
      this.rules := rules;
    }

    method Save(u: User) returns (id: Option<nat>)
      requires Valid()
      modifies this
      ensures Valid()
      ensures Saved(State(), id) == SaveNew(old(State()), rules, u)
    {
      if ValidUser(State(), rules, u, None) {
        id := Some(nextId);
        users := users[nextId := u];
        nextId := nextId + 1;
      } else {
        id := None;
      }
    }

    method Update(id: nat, u: User) returns (ok: bool)
      requires Valid() && id in users
      modifies this
      ensures Valid()
      ensures Saved(State(), if ok then Some(id) else None) == SaveExisting(old(State()), rules, id, u)
    {
      ok := ValidUser(State(), rules, u, Some(id));
      if ok {
        users := users[id := u];
      }
    }

    method CreatePreference(id: nat)
      requires Valid() && id in users
      modifies this
      ensures Valid()
      ensures State() == AddPreference(old(State()), id)
    {
      preferences := preferences + {id};
    }

    /** Removes `id` when the model's destroy callbacks let it (`permitted`);
        answers whether it was removed. */
    method Destroy(id: nat, permitted: bool) returns (removed: bool)
      requires Valid() && id in users
      modifies this
      ensures Valid()
      ensures removed == permitted
      ensures State() == if removed then RemoveUser(old(State()), id) else old(State())
    {
      removed := permitted;
      if removed {
        users := users - {id};
        preferences := preferences - {id};
      }
    }
  }

  /** The request's session hash. */
  class Session {
    var userId: Option<nat>
    var newUser: Option<User>
    var casUser: Option<string>

    function State(): SessionState
      reads this
    {
      SessionState(userId, newUser, casUser)
    }

    constructor (s: SessionState)
      ensures State() == s
    {
      userId, newUser, casUser := s.userId, s.newUser, s.casUser;
    }
  }
}
