/** The frontend user store: the users of the session and the one selected as
    the current user. The selection is kept pointing at a stored user (or at
    nobody) through every edit. */
module UserStores {
  import opened Outcomes
  import opened Seqs

  /** A user as the frontend holds it; `email` is optional. */
  datatype User = User(id: string, name: string, email: Option<string>, isActive: bool)

  /** A new user without its id. */
  datatype UserDraft = UserDraft(name: string, email: Option<string>, isActive: bool)

  /** A `Partial<User>` update. */
  datatype UserPatch = UserPatch(id: Option<string>, name: Option<string>, email: Option<string>, isActive: Option<bool>)

  function UserIdIs(id: string): User -> bool
  {
    (u: User) => u.id == id
  }

  function UserIdIsNot(id: string): User -> bool
  {
    (u: User) => u.id != id
  }

  predicate IsActive(u: User)
  {
    u.isActive
  }

  /** `{...user, ...updates}`: every provided key replaces the user's. */
  function PatchUser(u: User, p: UserPatch): (r: User)
    ensures r.id == (if p.id.Some? then p.id.value else u.id)
    ensures r.name == (if p.name.Some? then p.name.value else u.name)
    ensures r.email == (if p.email.Some? then p.email else u.email)
    ensures r.isActive == (if p.isActive.Some? then p.isActive.value else u.isActive)
  {
    User(GetOr(p.id, u.id), GetOr(p.name, u.name), if p.email.Some? then p.email else u.email, GetOr(p.isActive, u.isActive))
  }

  /** The three users a new store starts with, all active. */
  function DefaultUsers(): (r: seq<User>)
    ensures |r| == 3 && forall u :: u in r ==> u.isActive && u.email.Some?
    ensures r[0].id == "user1" && r[1].id == "user2" && r[2].id == "user3"
  {
    [
      User("user1", "张三", Some("zhangsan@example.com"), true),
      User("user2", "李四", Some("lisi@example.com"), true),
      User("user3", "王五", Some("wangwu@example.com"), true)
    ]
  }

  /** `users[0] ?? null`. */
  function FirstOf(users: seq<User>): (r: Option<User>)
    ensures r.None? <==> users == []
    ensures r.Some? ==> r.value == users[0] && r.value in users
  {
    if users == [] then None else Some(users[0])
  }

  /** The label shown for the current user. */
  function NameOrPlaceholder(current: Option<User>): (r: string)
    ensures current.Some? ==> r == current.value.name
    ensures current.None? ==> r == "未选择用户"
  {
    if current.Some? then current.value.name else "未选择用户"
  }

  /** The users an id deletion keeps: every user without the id, in order. */
  function WithoutUser(users: seq<User>, userId: string): (r: seq<User>)
    ensures forall u :: u in r <==> u in users && u.id != userId
    ensures |r| == |users| - |Filter(users, UserIdIs(userId))|
  {
    FilterSplit(users, UserIdIs(userId), UserIdIsNot(userId));
    Filter(users, UserIdIsNot(userId))
  }

  /** Deleting an id that no user has keeps every user. */
  lemma WithoutUnknownUser(users: seq<User>, userId: string)
    requires forall u :: u in users ==> u.id != userId
    ensures WithoutUser(users, userId) == users
  {
    FilterAll(users, UserIdIsNot(userId));
  }

  class UserStore {
    var users: seq<User>
    var currentUser: Option<User>
    var isLoading: bool
    var error: Option<string>

    /** The selection is nobody or one of the stored users. */
    predicate Valid()
      reads this
    {
      currentUser.None? || currentUser.value in users
    }

    /** The store starts with the default users, the first one selected. */
    constructor()
      ensures users == DefaultUsers() && currentUser == Some(DefaultUsers()[0])
      ensures !isLoading && error.None?
      ensures Valid()
    {
      users := DefaultUsers();
      currentUser := FirstOf(DefaultUsers());
      isLoading := false;
      error := None;
    }

    /** Selects the first user with the id; an unknown id changes nothing. */
    method SelectUser(userId: string)
      modifies this`currentUser
      requires Valid()
      ensures Find(users, UserIdIs(userId)).Some? ==> currentUser == Find(users, UserIdIs(userId))
      ensures Find(users, UserIdIs(userId)).None? ==> currentUser == old(currentUser)
      ensures Valid()
    {
      var user := Find(users, UserIdIs(userId));
      if user.Some? {
        currentUser := user;
      }
    }

    /** Appends the draft under the given id; the selection is kept. */
    method AddUser(userData: UserDraft, newId: string)
      modifies this
      requires Valid()
      ensures users == old(users) + [User(newId, userData.name, userData.email, userData.isActive)]
      ensures currentUser == old(currentUser)
      ensures !isLoading && error.None?
      ensures Valid()
    {
      isLoading := true;
      error := None;
      var newUser := User(newId, userData.name, userData.email, userData.isActive);
      users := users + [newUser];
      isLoading := false;
    }

    /** Patches the first user with the id (nothing, for an unknown id) and
        re-points the selection to the patched user when it had that id. */
    method UpdateUser(userId: string, userData: UserPatch)
      modifies this
      requires Valid()
      ensures var i := FindIndex(old(users), UserIdIs(userId));
              if i == -1 then users == old(users) && currentUser == old(currentUser)
              else users == old(users)[i := PatchUser(old(users)[i], userData)]
                   && currentUser == (if old(currentUser).Some? && old(currentUser).value.id == userId
                                      then Some(users[i]) else old(currentUser))
      ensures !isLoading && error.None?
      ensures Valid()
    {
      isLoading := true;
      error := None;
      var index := FindIndex(users, UserIdIs(userId));
      if index != -1 {
        users := users[index := PatchUser(users[index], userData)];
        if currentUser.Some? && currentUser.value.id == userId {
          currentUser := Some(users[index]);
        } else if currentUser.Some? {
          ghost var k :| 0 <= k < |old(users)| && old(users)[k] == currentUser.value;
          assert k != index;
          assert users[k] == currentUser.value;
        }
      }
      isLoading := false;
    }

    /** Drops every user with the id; when the selection had the id it moves
        to the first remaining user, or to nobody. */
    method DeleteUser(userId: string)
      modifies this
      requires Valid()
      ensures users == WithoutUser(old(users), userId)
      ensures forall u :: u in users ==> u.id != userId
      ensures old(currentUser).Some? && old(currentUser).value.id == userId ==> currentUser == FirstOf(users)
      ensures !(old(currentUser).Some? && old(currentUser).value.id == userId) ==> currentUser == old(currentUser)
      ensures !isLoading && error.None?
      ensures Valid()
    {
      isLoading := true;
      error := None;
      users := WithoutUser(users, userId);
      if currentUser.Some? && currentUser.value.id == userId {
        currentUser := FirstOf(users);
      }
      isLoading := false;
    }

    /** The active users, in stored order. */
    function ActiveUsers(): (r: seq<User>)
      reads this
      ensures forall u :: u in r <==> u in users && u.isActive
      ensures |r| <= |users|
    {
      Filter(users, IsActive)
    }

    function CurrentUserName(): (r: string)
      reads this
      ensures r == NameOrPlaceholder(currentUser)
    {
      NameOrPlaceholder(currentUser)
    }

    function HasUsers(): (r: bool)
      reads this
      ensures r <==> users != []
    {
      |users| > 0
    }
  }
}
