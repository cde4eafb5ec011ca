/** The backend user directory. Like the form service it loads and saves its
    JSON file whole on every call; here the file is the field `users`. */
module Users {
  import opened Outcomes
  import opened Seqs

  datatype User = User(
    id: string,
    name: string,
    email: Option<string>,
    isActive: bool,
    createdAt: string,
    updatedAt: string)

  datatype UsersError = NotFound

  datatype CreateUserInput = CreateUserInput(name: string, email: Option<string>, isActive: Option<bool>)

  /** An update request: every key may be absent (`undefined` or `null`). */
  datatype UpdateUserInput = UpdateUserInput(name: Option<string>, email: Option<string>, isActive: Option<bool>)

  datatype UserStats = UserStats(total: nat, active: nat, inactive: nat)

  function UserIdIs(id: string): User -> bool
  {
    (u: User) => u.id == id
  }

  predicate IsActive(u: User)
  {
    u.isActive
  }

  predicate IsInactive(u: User)
  {
    !u.isActive
  }

  /** The user a create request produces: `isActive` defaults to true, and an
      empty email is dropped (`email || undefined`). */
  function NewUser(input: CreateUserInput, id: string, now: string): (u: User)
    ensures u.id == id && u.name == input.name && u.createdAt == now && u.updatedAt == now
    ensures u.isActive == (input.isActive.None? || input.isActive.value)
    ensures u.email.Some? <==> input.email.Some? && input.email.value != ""
    ensures u.email.Some? ==> u.email == input.email
  {
    User(id, input.name,
      if input.email == Some("") then None else input.email,
      GetOr(input.isActive, true),
      now, now)
  }

  /** The user an update request makes of `existing`: `id` and `createdAt` are
      kept, each of `name`, `email` and `isActive` is replaced only when the
      request provides it (an empty email included), and `updatedAt` is `now`. */
  function UpdatedUser(existing: User, input: UpdateUserInput, now: string): (u: User)
    ensures u.id == existing.id && u.createdAt == existing.createdAt && u.updatedAt == now
    ensures u.name == (if input.name.Some? then input.name.value else existing.name)
    ensures u.email == (if input.email.Some? then input.email else existing.email)
    ensures u.isActive == (if input.isActive.Some? then input.isActive.value else existing.isActive)
  {
    User(existing.id,
      GetOr(input.name, existing.name),
      if input.email.Some? then input.email else existing.email,
      GetOr(input.isActive, existing.isActive),
      existing.createdAt,
      now)
  }

  /** The active users, in stored order. */
  function ActiveUsers(users: seq<User>): (r: seq<User>)
    ensures forall u :: u in r <==> u in users && u.isActive
    ensures |r| <= |users|
  {
    Filter(users, IsActive)
  }

  /** The totals: active and inactive users add up to all users. */
  function Stats(users: seq<User>): (r: UserStats)
    ensures r.total == |users|
    ensures r.active == |ActiveUsers(users)| && r.inactive == |Filter(users, IsInactive)|
    ensures r.active <= r.total && r.total == r.active + r.inactive
  {
    FilterSplit(users, IsActive, IsInactive);
    var active := |Filter(users, IsActive)|;
    UserStats(|users|, active, |users| - active)
  }

  class UsersService {
    var users: seq<User>

    /** A directory over the given contents of the users file. */
    constructor(storedUsers: seq<User>)
      ensures users == storedUsers
    {
      users := storedUsers;
    }

    /** The first user with the id, or NotFound when none has it. */
    function FindOne(id: string): (r: Result<User, UsersError>)
      reads this
      ensures r.Err? <==> forall u :: u in users ==> u.id != id
      ensures r.Err? ==> r.error == NotFound
      ensures r.Ok? ==> exists i :: 0 <= i < |users| && users[i] == r.value && r.value.id == id
                          && forall j :: 0 <= j < i ==> users[j].id != id
    {
      var i := FindIndex(users, UserIdIs(id));
      if i == -1 then Err(NotFound) else Ok(users[i])
    }

    /** Appends exactly one user; nothing stored before changes. */
    method Create(input: CreateUserInput, id: string, now: string) returns (u: User)
      modifies this
      ensures u == NewUser(input, id, now)
      ensures users == old(users) + [u]
      ensures (forall x :: x in old(users) ==> x.id != id) ==> FindOne(id) == Ok(u)
    {
      u := NewUser(input, id, now);
      users := users + [u];
    }

    /** Rewrites the first user with the id and nothing else, or fails with
        NotFound, storing nothing, when no user has the id. */
    method Update(id: string, input: UpdateUserInput, now: string) returns (r: Result<User, UsersError>)
      modifies this
      ensures var i := FindIndex(old(users), UserIdIs(id));
              if i == -1 then r == Err(NotFound) && users == old(users)
              else r == Ok(UpdatedUser(old(users)[i], input, now)) && users == old(users)[i := r.value]
      ensures r.Ok? ==> FindOne(id) == r
    {
      var i := FindIndex(users, UserIdIs(id));
      if i == -1 {
        return Err(NotFound);
      }
      var updated := UpdatedUser(users[i], input, now);
      FindIndexAfterUpdate(users, updated, UserIdIs(id));
      users := users[i := updated];
      r := Ok(updated);
    }

    /** Deletes the first user with the id, keeping the others in order, or
        fails with NotFound, storing nothing, when no user has the id. */
    method Remove(id: string) returns (r: Outcome<UsersError>)
      modifies this
      ensures var i := FindIndex(old(users), UserIdIs(id));
              if i == -1 then r == Fail(NotFound) && users == old(users)
              else r == Pass && users == old(users)[..i] + old(users)[i + 1..]
      ensures r.Pass? ==> |users| == |old(users)| - 1
      ensures r.Pass? ==> |Filter(users, UserIdIs(id))| == |Filter(old(users), UserIdIs(id))| - 1
    {
      var i := FindIndex(users, UserIdIs(id));
      if i == -1 {
        return Fail(NotFound);
      }
      SpliceFilterLength(users, i, UserIdIs(id));
      users := users[..i] + users[i + 1..];
      r := Pass;
    }
  }
}
