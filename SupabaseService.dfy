/** The remote `users` table, seen only through the three calls the session manager makes.
    The table is an abstract map from email to record; whether the service answers at all is
    a parameter (`available`), since the network and the hosted database are outside the
    model. */
module SupabaseService {
  import opened Wrappers

  /** A row of the `users` table (the email is the key of the map that holds it).
      `name` and `needs_onboarding` are nullable columns. */
  datatype UserRecord = UserRecord(id: string, name: Option<string>, needsOnboarding: Option<bool>)

  /** The argument of `createUser`. */
  datatype UserData = UserData(id: string, name: Option<string>, email: string, needsOnboarding: Option<bool>)

  /** What `getUserByEmail` hands back: an error, or data that may be null. */
  datatype Fetch = FetchError | Fetched(data: Option<UserRecord>)

  /** The table after a write, and whether the write reported an error. */
  datatype Write = Write(users: map<string, UserRecord>, failed: bool)

  /** `getUserByEmail`: the row stored under `email`, if any. */
  function Lookup(users: map<string, UserRecord>, email: string, available: bool): (r: Fetch)
    ensures r.FetchError? <==> !available
    ensures r.Fetched? ==> (r.data.Some? <==> email in users)
    ensures r.Fetched? && r.data.Some? ==> r.data.value == users[email]
  {
    if !available then FetchError
    else if email in users then Fetched(Some(users[email]))
    else Fetched(None)
  }

  /** `createUser`: inserts one row whose `needs_onboarding` defaults to true. Fails when the
      service is down or a row with the same email already exists (the email is the key). */
  function Insert(users: map<string, UserRecord>, row: UserData, available: bool): (r: Write)
    ensures r.failed <==> !available || row.email in users
    ensures r.failed ==> r.users == users
    ensures !r.failed ==> r.users.Keys == users.Keys + {row.email}
    ensures !r.failed ==> forall e :: e in users ==> r.users[e] == users[e]
    ensures !r.failed ==> r.users[row.email].id == row.id && r.users[row.email].name == row.name
    ensures !r.failed ==> r.users[row.email].needsOnboarding.Some?
    ensures !r.failed ==> (r.users[row.email].needsOnboarding == Some(false) <==> row.needsOnboarding == Some(false))
  {
    if !available || row.email in users then Write(users, true)
    else Write(users[row.email := UserRecord(row.id, row.name, Some(row.needsOnboarding.GetOr(true)))], false)
  }

  /** `updateUserAfterOnboarding`: every row with the given id gets `needs_onboarding = false`
      (the health fields it also sends are never supplied, so they are left as they are).
      An id that matches no row is not an error. */
  function Update(users: map<string, UserRecord>, id: string, available: bool): (r: Write)
    ensures r.failed <==> !available
    ensures r.users.Keys == users.Keys
    ensures forall e :: e in users && users[e].id != id ==> r.users[e] == users[e]
    ensures !r.failed ==> forall e :: e in users && users[e].id == id ==>
              r.users[e] == users[e].(needsOnboarding := Some(false))
    ensures r.failed ==> r.users == users
  {
    if !available then Write(users, true)
    else Write(map e | e in users :: if users[e].id == id then users[e].(needsOnboarding := Some(false)) else users[e], false)
  }

  /** The hosted table, a shared object whose rows the service calls read and write. */
  class Users {
    var users: map<string, UserRecord>

    constructor (rows: map<string, UserRecord>)
      ensures users == rows
    {
      users := rows;
    }

    method GetUserByEmail(email: string, available: bool) returns (r: Fetch)
      ensures r == Lookup(users, email, available)
    {
      if !available {
        r := FetchError;
      } else if email in users {
        r := Fetched(Some(users[email]));
      } else {
        r := Fetched(None);
      }
    }

    method CreateUser(row: UserData, available: bool) returns (failed: bool)
      modifies this
      ensures Write(users, failed) == Insert(old(users), row, available)
    {
      failed := !available || row.email in users;
      if !failed {
        users := users[row.email := UserRecord(row.id, row.name, Some(row.needsOnboarding.GetOr(true)))];
      }
    }

    method UpdateUserAfterOnboarding(id: string, available: bool) returns (failed: bool)
      modifies this
      ensures Write(users, failed) == Update(old(users), id, available)
    {
      failed := !available;
      if !failed {
        users := map e | e in users :: if users[e].id == id then users[e].(needsOnboarding := Some(false)) else users[e];
      }
    }
  }

  /** Whatever a caller passes, a successful update leaves no matching row needing onboarding:
      the update can only clear the flag. */
  lemma UpdateOnlyClears(users: map<string, UserRecord>, id: string, available: bool, e: string)
    requires e in users
    ensures var u := Update(users, id, available).users;
            (u[e].needsOnboarding == Some(true) ==> users[e].needsOnboarding == Some(true))
  {
  }
}
