/**
 * The user service (`UserService`): create, list, read, update and destroy
 * rows of the `users` table. A user read by the service never carries the
 * stored password hash, except the instance `createUser` returns.
 */
module UserService {
  import opened Js
  import opened Table

  /** A stored user. `password` holds whatever the caller stored, a bcrypt hash when it comes from the auth service. */
  datatype User = User(email: string, firstName: string, lastName: string, password: string, isActive: bool)

  /** The column values `createUser` is given; a missing `isActive` takes its default, `true`. */
  datatype NewUser = NewUser(email: string, firstName: string, lastName: string, password: string,
                             isActive: Option<bool>)

  /** A user as the reads return it: every column except `password`. */
  datatype Profile = Profile(id: string, createdAt: int, email: string, firstName: string,
                             lastName: string, isActive: bool)

  /** `updateData`: the fields it holds, each to be overwritten. */
  datatype UserPatch = UserPatch(email: Option<string>, firstName: Option<string>, lastName: Option<string>,
                                 password: Option<string>, isActive: Option<bool>)

  /** The body of `getAllUsers`. */
  datatype UserPage = UserPage(users: seq<Profile>, pagination: Pagination)

  const NotFoundMessage := "User not found"
  const DeletedMessage := "User deleted successfully"

  /** The `email` column, which has a unique index. */
  function EmailOf(u: User): string
  {
    u.email
  }

  /** The row `User.create(userData)` inserts under the generated id at the current time. */
  function Inserted(id: string, now: int, data: NewUser): (row: Row<User>)
    ensures row.id == id && row.createdAt == now
    ensures row.attrs.email == data.email && row.attrs.password == data.password
    ensures row.attrs.firstName == data.firstName && row.attrs.lastName == data.lastName
    ensures row.attrs.isActive == (data.isActive.None? || data.isActive.value)
  {
    Row(id, now, User(data.email, data.firstName, data.lastName, data.password,
                      if data.isActive.Some? then data.isActive.value else true))
  }

  /** `attributes: {exclude: ['password']}`. */
  function Public(row: Row<User>): Profile
  {
    Profile(row.id, row.createdAt, row.attrs.email, row.attrs.firstName, row.attrs.lastName, row.attrs.isActive)
  }

  function Profiles(rows: seq<Row<User>>): (r: seq<Profile>)
    ensures |r| == |rows|
    ensures forall i :: 0 <= i < |rows| ==> r[i] == Public(rows[i])
  {
    seq(|rows|, i requires 0 <= i < |rows| => Public(rows[i]))
  }

  /** `user.update(updateData)` on the columns: a field the patch holds takes its value, every other keeps its own. */
  function Patched(u: User, patch: UserPatch): (r: User)
    ensures patch.email.Some? ==> r.email == patch.email.value
    ensures patch.email.None? ==> r.email == u.email
    ensures patch.firstName.Some? ==> r.firstName == patch.firstName.value
    ensures patch.firstName.None? ==> r.firstName == u.firstName
    ensures patch.lastName.Some? ==> r.lastName == patch.lastName.value
    ensures patch.lastName.None? ==> r.lastName == u.lastName
    ensures patch.password.Some? ==> r.password == patch.password.value
    ensures patch.password.None? ==> r.password == u.password
    ensures patch.isActive.Some? ==> r.isActive == patch.isActive.value
    ensures patch.isActive.None? ==> r.isActive == u.isActive
  {
    User(if patch.email.Some? then patch.email.value else u.email,
         if patch.firstName.Some? then patch.firstName.value else u.firstName,
         if patch.lastName.Some? then patch.lastName.value else u.lastName,
         if patch.password.Some? then patch.password.value else u.password,
         if patch.isActive.Some? then patch.isActive.value else u.isActive)
  }

  /** Applying the same patch twice is applying it once, and an empty patch changes nothing. */
  lemma PatchIdempotent(u: User, patch: UserPatch)
    ensures Patched(Patched(u, patch), patch) == Patched(u, patch)
    ensures Patched(u, UserPatch(None, None, None, None, None)) == u
  {
  }

  /** The users table. */
  class Users {
    var rows: seq<Row<User>>

    /** The primary key and the email column are unique. */
    ghost predicate Valid()
      reads this
    {
      DistinctIds(rows) && UniqueColumn(rows, EmailOf)
    }

    /** An empty table. */
    constructor()
      ensures rows == [] && Valid()
    {
      rows := [];
    }

    /**
     * `createUser(userData)`: the row is inserted and returned as created,
     * password included; an id or an email already in the table raises the
     * unique-constraint error and inserts nothing.
     */
    method Create(id: string, now: int, data: NewUser) returns (r: Result<Row<User>>)
      requires Valid()
      modifies this
      ensures Valid()
      ensures HasId(old(rows), id) ==> r == Err(UniqueViolation("id", id)) && rows == old(rows)
      ensures !HasId(old(rows), id) && Taken(old(rows), EmailOf, data.email, id) ==>
        r == Err(UniqueViolation("email", data.email)) && rows == old(rows)
      ensures !HasId(old(rows), id) && !Taken(old(rows), EmailOf, data.email, id) ==>
        r == Ok(Inserted(id, now, data)) && rows == old(rows) + [Inserted(id, now, data)]
    {
      if Find(rows, id).Some? {
        return Err(UniqueViolation("id", id));
      }
      if exists i :: 0 <= i < |rows| && rows[i].id != id && rows[i].attrs.email == data.email {
        return Err(UniqueViolation("email", data.email));
      }
      var row := Inserted(id, now, data);
      AppendSpec(rows, row, id);
      AppendKeepsUnique(rows, row, EmailOf);
      rows := rows + [row];
      r := Ok(row);
    }

    /**
     * `getAllUsers(limit, offset)`: the page of users newest first starting at
     * `offset`, without passwords, and the count of the whole table with the
     * number of pages it fills.
     */
    method GetAll(limit: nat := 10, offset: nat := 0) returns (page: UserPage)
      ensures page.users == Profiles(Window(SortNewestFirst(rows), offset, limit))
      ensures page.pagination == Pagination(|rows|, limit, offset, Pages(|rows|, limit))
      ensures |page.users| == if offset >= |rows| then 0 else Min(limit, |rows| - offset)
      ensures forall i, j :: 0 <= i < j < |page.users| ==> page.users[i].createdAt >= page.users[j].createdAt
      ensures forall i :: 0 <= i < |page.users| ==> exists k :: 0 <= k < |rows| && Public(rows[k]) == page.users[i]
    {
      var window := Window(SortNewestFirst(rows), offset, limit);
      PageSpec(rows, offset, limit);
      page := UserPage(Profiles(window), Pagination(|rows|, limit, offset, Pages(|rows|, limit)));
      forall i | 0 <= i < |page.users|
        ensures exists k :: 0 <= k < |rows| && Public(rows[k]) == page.users[i]
      {
        var k :| 0 <= k < |rows| && rows[k] == window[i];
        assert Public(rows[k]) == page.users[i];
      }
    }

    /** `getUserById(id)`: the user without password, or "User not found". */
    method GetById(id: string) returns (r: Result<Profile>)
      ensures r.Ok? <==> HasId(rows, id)
      ensures r.Err? ==> r.error == PlainError(NotFoundMessage)
      ensures r.Ok? ==> exists row :: row in rows && row.id == id && r.value == Public(row)
    {
      var found := Find(rows, id);
      if found.None? {
        return Err(PlainError(NotFoundMessage));
      }
      r := Ok(Public(found.value));
    }

    /**
     * `updateUser(id, updateData)`: the row keeps its id and creation time and
     * takes the patched fields; the response leaves the password out though
     * the row keeps it. An absent id is "User not found" and an email another
     * row holds is a unique-constraint error; neither changes the table.
     */
    method Update(id: string, patch: UserPatch) returns (r: Result<Profile>)
      requires Valid()
      modifies this
      ensures Valid()
      ensures !HasId(old(rows), id) ==> r == Err(PlainError(NotFoundMessage)) && rows == old(rows)
      ensures HasId(old(rows), id) ==>
        var stored := Find(old(rows), id).value;
        var updated := Row(id, stored.createdAt, Patched(stored.attrs, patch));
        if Taken(old(rows), EmailOf, updated.attrs.email, id) then
          r == Err(UniqueViolation("email", updated.attrs.email)) && rows == old(rows)
        else
          r == Ok(Public(updated)) && rows == Replace(old(rows), updated) &&
          Find(rows, id) == Some(updated)
    {
      var found := Find(rows, id);
      if found.None? {
        return Err(PlainError(NotFoundMessage));
      }
      var stored := found.value;
      var updated := Row(id, stored.createdAt, Patched(stored.attrs, patch));
      if exists i :: 0 <= i < |rows| && rows[i].id != id && rows[i].attrs.email == updated.attrs.email {
        return Err(UniqueViolation("email", updated.attrs.email));
      }
      ReplaceSpec(rows, updated, EmailOf);
      rows := Replace(rows, updated);
      r := Ok(Public(updated));
    }

    /**
     * `deleteUser(id)`: exactly that row is destroyed and the confirmation
     * returned; an absent id is "User not found" and changes nothing.
     */
    method Delete(id: string) returns (r: Result<Value>)
      requires Valid()
      modifies this
      ensures Valid()
      ensures !HasId(old(rows), id) ==> r == Err(PlainError(NotFoundMessage)) && rows == old(rows)
      ensures HasId(old(rows), id) ==>
        && r == Ok(Obj(map["message" := Str(DeletedMessage)]))
        && rows == Remove(old(rows), id)
        && |rows| == |old(rows)| - 1
        && Find(rows, id) == None
    {
      var found := Find(rows, id);
      if found.None? {
        return Err(PlainError(NotFoundMessage));
      }
      RemoveOne(rows, id);
      RemoveKeepsUnique(rows, id, EmailOf);
      RemovedNotFound(rows, id);
      rows := Remove(rows, id);
      r := Ok(Obj(map["message" := Str(DeletedMessage)]));
    }
  }
}
