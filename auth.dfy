/**
 * The staff roster and the signed-in slot.  Staff sign in by typing a PIN;
 * the first user whose PIN matches becomes the current user.  The roster is
 * edited by id.  PINs are compared as plain strings.
 */
module Auth {
  import opened Wrappers
  import Keyed

  datatype Role = Admin | Cashier | Waiter

  datatype User = User(id: string, name: string, pin: string, role: Role)

  function UserId(u: User): string { u.id }

  function UserPin(u: User): string { u.pin }

  /** The roster a fresh installation starts with. */
  function DefaultUsers(): seq<User> {
    [ User("1", "Super Admin", "0000", Admin),
      User("2", "Main Cashier", "1234", Cashier),
      User("3", "Waiter John", "1111", Waiter),
      User("4", "Waitress Mercy", "2222", Waiter) ]
  }

  /** The user `login(pin)` signs in, if any: the first one with that PIN. */
  function UserWithPin(users: seq<User>, pin: string): (r: Option<User>)
    ensures r.Some? <==> exists i :: 0 <= i < |users| && users[i].pin == pin
    ensures r.Some? ==> exists i :: 0 <= i < |users| && users[i] == r.value && r.value.pin == pin &&
                          forall j :: 0 <= j < i ==> users[j].pin != pin
  {
    match Keyed.Find(users, UserPin, pin)
    case None => None
    case Some(i) => Some(users[i])
  }

  /** `users.filter(u => u.id !== id)`. */
  function WithoutUser(users: seq<User>, id: string): (r: seq<User>)
    ensures forall i :: 0 <= i < |r| ==> r[i] in users && r[i].id != id
    ensures forall i :: 0 <= i < |users| && users[i].id != id ==> users[i] in r
    ensures |r| == |users| - Keyed.Count(users, UserId, id)
  {
    Keyed.RemoveMembers(users, UserId, id);
    Keyed.Remove(users, UserId, id)
  }

  /** `users.map(u => u.id === id ? { ...u, pin } : u)`. */
  function WithPin(users: seq<User>, id: string, pin: string): (r: seq<User>)
    ensures |r| == |users|
    ensures forall i :: 0 <= i < |users| ==>
      r[i].id == users[i].id && r[i].name == users[i].name && r[i].role == users[i].role
    ensures forall i :: 0 <= i < |users| ==> r[i].pin == if users[i].id == id then pin else users[i].pin
  {
    Keyed.Update(users, UserId, id, (u: User) => u.(pin := pin))
  }

  class AuthStore {
    var currentUser: Option<User>
    var users: seq<User>

    constructor ()
      ensures currentUser == None && users == DefaultUsers()
    {
      currentUser := None;
      users := DefaultUsers();
    }

    /** `login(pin)`: true exactly when some user has that PIN. */
    method Login(pin: string) returns (ok: bool)
      modifies this`currentUser
      ensures ok <==> exists i :: 0 <= i < |users| && users[i].pin == pin
      ensures ok ==> currentUser == UserWithPin(users, pin)
      ensures !ok ==> currentUser == old(currentUser)
    {
      var user := UserWithPin(users, pin);
      if user.Some? {
        currentUser := user;
        ok := true;
      } else {
        ok := false;
      }
    }

    method Logout()
      modifies this`currentUser
      ensures currentUser == None
    {
      currentUser := None;
    }

    /** `addUser`: appends, checking neither id nor PIN for clashes. */
    method AddUser(user: User)
      modifies this`users
      ensures users == old(users) + [user]
    {
      users := users + [user];
    }

    /** `removeUser`: the signed-in user stays signed in even when removed. */
    method RemoveUser(id: string)
      modifies this`users
      ensures users == WithoutUser(old(users), id)
    {
      users := WithoutUser(users, id);
    }

    method UpdateUserPin(id: string, newPin: string)
      modifies this`users
      ensures users == WithPin(old(users), id, newPin)
    {
      users := WithPin(users, id, newPin);
    }
  }

  /** Removing users keeps the others in their order: filtering distributes over `+`. */
  lemma WithoutUserAppend(a: seq<User>, b: seq<User>, id: string)
    ensures WithoutUser(a + b, id) == WithoutUser(a, id) + WithoutUser(b, id)
  {
    Keyed.RemoveAppend(a, b, UserId, id);
  }

  /** Removing an id nobody has leaves the roster as it is. */
  lemma WithoutAbsentUser(users: seq<User>, id: string)
    requires forall i :: 0 <= i < |users| ==> users[i].id != id
    ensures WithoutUser(users, id) == users
  {
  }

  /** After a PIN change, that PIN signs somebody in whenever the id was on the roster. */
  lemma LoginAfterPinChange(users: seq<User>, id: string, pin: string)
    requires exists i :: 0 <= i < |users| && users[i].id == id
    ensures UserWithPin(WithPin(users, id, pin), pin).Some?
  {
    var i :| 0 <= i < |users| && users[i].id == id;
    assert WithPin(users, id, pin)[i].pin == pin;
  }

  /** A user added at the end with a PIN nobody else has is the one that PIN signs in. */
  lemma LoginAfterAddUser(users: seq<User>, user: User)
    requires forall i :: 0 <= i < |users| ==> users[i].pin != user.pin
    ensures UserWithPin(users + [user], user.pin) == Some(user)
  {
    var s := users + [user];
    assert s[|users|] == user;
    forall j | 0 <= j < |users|
      ensures s[j].pin != user.pin
    {
      assert s[j] == users[j];
    }
  }

  /** Once every user holding a PIN is removed, that PIN signs nobody in. */
  lemma LoginAfterRemoveUser(users: seq<User>, id: string, pin: string)
    requires forall i :: 0 <= i < |users| && users[i].pin == pin ==> users[i].id == id
    ensures UserWithPin(WithoutUser(users, id), pin) == None
  {
    var r := WithoutUser(users, id);
    forall i | 0 <= i < |r|
      ensures r[i].pin != pin
    {
      var j :| 0 <= j < |users| && users[j] == r[i];
    }
  }
}
