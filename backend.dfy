/** The account table and friend-list store behind the Flask endpoints of
    backend/app.py. The JSON files are replaced by two in-memory maps; each
    endpoint is a function from the stored state and the request's inputs to a
    reply and the new state, and class Server performs the same updates in place. */
module Backend {
  import opened Wrappers
  import opened Text

  /** The content of users.json: username to password. */
  type Users = map<string, string>

  /** The files `<u>.friends.json`: username to the list stored for it. */
  type FriendLists = map<string, seq<string>>

  /** A JSON value, as far as these endpoints tell values apart. JSON null is
      what Python sees as None; JOther stands for numbers, booleans, arrays and objects. */
  datatype Json = JNull | JStr(s: string) | JOther

  /** `request.json.get(key, '')`: an absent key reads as the empty string. */
  function BodyField(field: Option<Json>): (v: Json) {
    match field
    case None => JStr("")
    case Some(v) => v
  }

  /** `request.json.get(key, '').strip()`: the stripped string, or None when the
      value is not a string and `.strip()` raises. */
  function StrippedField(field: Option<Json>): (r: Option<string>)
    ensures field.None? ==> r == Some("")
    ensures r.None? <==> field.Some? && !field.value.JStr?
    ensures r.Some? ==> PyStrip(r.value) == r.value
    ensures r.Some? && r.value != "" ==> r.value[0] !in PyWhitespace && r.value[|r.value| - 1] !in PyWhitespace
  {
    match BodyField(field)
    case JStr(s) =>
      TrimIdempotent(s, PyWhitespace);
      Some(PyStrip(s))
    case _ => None
  }

  /** `users.get(u)`: the stored password, or None (equal to a JSON null). */
  function Get(users: Users, u: string): (v: Json) {
    if u in users then JStr(users[u]) else JNull
  }

  /** Reply of POST /api/login. A raised exception becomes HTTP 500. */
  datatype LoginReply = LoginAccepted(username: string, password: Json) | LoginRejected | LoginCrashed
  {
    function Status(): (code: int) {
      match this
      case LoginAccepted(_, _) => 200
      case LoginRejected => 401
      case LoginCrashed => 500
    }
  }

  /** Reply `{'ok': True}`, `{'ok': False}` with 401, or a raised exception. */
  datatype Ack = AckOk | AckRejected | AckCrashed
  {
    function Status(): (code: int) {
      match this
      case AckOk => 200
      case AckRejected => 401
      case AckCrashed => 500
    }
  }

  /** Reply of an account-changing endpoint, with the account table it leaves. */
  datatype UsersUpdate = UsersUpdate(reply: Ack, users: Users)

  /** Reply of GET /api/friends: the list, or `[]` with 401. */
  datatype FriendsReply = FriendList(names: seq<string>) | FriendsUnauthorized
  {
    function Status(): (code: int) { if FriendList? then 200 else 401 }
    function Body(): (body: seq<string>) { if FriendList? then names else [] }
  }

  /** Reply of GET /api/friends, with the friend files it leaves. */
  datatype FriendsUpdate = FriendsUpdate(reply: FriendsReply, store: FriendLists)

  /** api_login as written: the stripped username is looked up with `users.get`
      and compared with the unstripped password, so a missing user compares None
      with the password. */
  function LoginAsWritten(users: Users, username: Option<Json>, password: Option<Json>): (r: LoginReply)
    ensures r.LoginCrashed? <==> StrippedField(username).None?
    ensures r.LoginAccepted? <==>
      StrippedField(username).Some? &&
      var u := StrippedField(username).value;
      if u in users then BodyField(password) == JStr(users[u]) else BodyField(password) == JNull
    ensures r.LoginAccepted? ==>
      r.username == StrippedField(username).value && r.password == BodyField(password)
  {
    match StrippedField(username)
    case None => LoginCrashed
    case Some(u) =>
      var p := BodyField(password);
      if Get(users, u) == p then LoginAccepted(u, p) else LoginRejected
  }

  /** api_login as intended: accepted exactly when the stripped username is a
      registered account and the password, not stripped, is its stored password. */
  function Login(users: Users, username: Option<Json>, password: Option<Json>): (r: LoginReply)
    ensures r.LoginCrashed? <==> StrippedField(username).None?
    ensures r.LoginAccepted? <==>
      StrippedField(username).Some? && StrippedField(username).value in users &&
      BodyField(password) == JStr(users[StrippedField(username).value])
    ensures r.LoginAccepted? ==>
      r.username == StrippedField(username).value &&
      r.username in users && r.password == JStr(users[r.username])
  {
    match StrippedField(username)
    case None => LoginCrashed
    case Some(u) =>
      var p := BodyField(password);
      if u in users && p == JStr(users[u]) then LoginAccepted(u, p) else LoginRejected
  }

  /** api_change_username: the `X-User` account moves to the stripped new name
      when the old name exists and the new one does not. */
  function ChangeUsername(users: Users, xUser: Option<string>, newUsername: Option<Json>): (r: UsersUpdate)
    ensures r.reply.AckCrashed? <==> StrippedField(newUsername).None?
    ensures r.reply.AckOk? <==>
      StrippedField(newUsername).Some? && xUser.Some? && xUser.value in users &&
      StrippedField(newUsername).value !in users
    ensures !r.reply.AckOk? ==> r.users == users
    ensures r.reply.AckOk? ==>
      var oldName, newName := xUser.value, StrippedField(newUsername).value;
      && newName in r.users && r.users[newName] == users[oldName]
      && oldName !in r.users
      && r.users.Keys == users.Keys - {oldName} + {newName}
      && (forall k :: k in users && k != oldName ==> k in r.users && r.users[k] == users[k])
      && |r.users| == |users|
  {
    match StrippedField(newUsername)
    case None => UsersUpdate(AckCrashed, users)
    case Some(n) =>
      if xUser.Some? && xUser.value in users && n !in users then
        var o := xUser.value;
        var moved := (users - {o})[n := users[o]];
        assert moved.Keys == users.Keys - {o} + {n};
        assert |users.Keys - {o}| == |users.Keys| - 1;
        UsersUpdate(AckOk, moved)
      else
        UsersUpdate(AckRejected, users)
  }

  /** api_change_password: the `X-User` account's password becomes the stripped
      new password when the account exists. */
  function ChangePassword(users: Users, xUser: Option<string>, newPassword: Option<Json>): (r: UsersUpdate)
    ensures r.reply.AckCrashed? <==> StrippedField(newPassword).None?
    ensures r.reply.AckOk? <==>
      StrippedField(newPassword).Some? && xUser.Some? && xUser.value in users
    ensures !r.reply.AckOk? ==> r.users == users
    ensures r.reply.AckOk? ==>
      && r.users.Keys == users.Keys
      && r.users[xUser.value] == StrippedField(newPassword).value
      && (forall k :: k in users && k != xUser.value ==> r.users[k] == users[k])
  {
    match StrippedField(newPassword)
    case None => UsersUpdate(AckCrashed, users)
    case Some(p) =>
      if xUser.Some? && xUser.value in users then
        UsersUpdate(AckOk, users[xUser.value := p])
      else
        UsersUpdate(AckRejected, users)
  }

  /** api_friends: an absent or empty `u` is refused; otherwise the stored list
      is returned, after creating `[u]` for a user that has none. */
  function Friends(store: FriendLists, u: Option<string>): (r: FriendsUpdate)
    ensures r.reply.FriendsUnauthorized? <==> u.None? || u.value == ""
    ensures r.reply.FriendsUnauthorized? ==> r.store == store && r.reply.Body() == []
    ensures r.reply.FriendList? ==>
      && r.store.Keys == store.Keys + {u.value}
      && r.reply.names == r.store[u.value]
      && r.store[u.value] == (if u.value in store then store[u.value] else [u.value])
      && (forall k :: k in store ==> r.store[k] == store[k])
  {
    if u.None? || u.value == "" then
      FriendsUpdate(FriendsUnauthorized, store)
    else
      var name := u.value;
      var updated := if name in store then store else store[name := [name]];
      FriendsUpdate(FriendList(updated[name]), updated)
  }

  /** The server process, holding the two stores that the endpoints read and
      rewrite. The three changing methods perform their update the way the
      handler does and are proved to agree with the function above; ApiLogin
      replies as the corrected Login, not as LoginAsWritten. */
  class Server {
    var users: Users
    var friendLists: FriendLists

    constructor (users0: Users, friendLists0: FriendLists)
      ensures users == users0 && friendLists == friendLists0
    {
      users := users0;
      friendLists := friendLists0;
    }

    /** POST /api/login; reads the table and changes nothing. It follows the
        corrected Login, so an unregistered name with a null password is refused. */
    method ApiLogin(username: Option<Json>, password: Option<Json>) returns (reply: LoginReply)
      ensures reply == Login(users, username, password)
      ensures reply.LoginAccepted? ==> reply.username in users && reply.password == JStr(users[reply.username])
    {
      var u := StrippedField(username);
      if u.None? {
        return LoginCrashed;
      }
      var p := BodyField(password);
      if u.value in users && p == JStr(users[u.value]) {
        reply := LoginAccepted(u.value, p);
      } else {
        reply := LoginRejected;
      }
    }

    /** POST /api/change-username. */
    method ApiChangeUsername(xUser: Option<string>, newUsername: Option<Json>) returns (reply: Ack)
      modifies this`users
      ensures UsersUpdate(reply, users) == ChangeUsername(old(users), xUser, newUsername)
    {
      var n := StrippedField(newUsername);
      if n.None? {
        return AckCrashed;
      }
      if xUser.Some? && xUser.value in users && n.value !in users {
        var password := users[xUser.value];
        users := users - {xUser.value};
        users := users[n.value := password];
        reply := AckOk;
      } else {
        reply := AckRejected;
      }
    }

    /** POST /api/change-password. */
    method ApiChangePassword(xUser: Option<string>, newPassword: Option<Json>) returns (reply: Ack)
      modifies this`users
      ensures UsersUpdate(reply, users) == ChangePassword(old(users), xUser, newPassword)
    {
      var p := StrippedField(newPassword);
      if p.None? {
        return AckCrashed;
      }
      if xUser.Some? && xUser.value in users {
        users := users[xUser.value := p.value];
        reply := AckOk;
      } else {
        reply := AckRejected;
      }
    }

    /** GET /api/friends. */
    method ApiFriends(u: Option<string>) returns (reply: FriendsReply)
      modifies this`friendLists
      ensures FriendsUpdate(reply, friendLists) == Friends(old(friendLists), u)
    {
      if u.None? || u.value == "" {
        return FriendsUnauthorized;
      }
      if u.value !in friendLists {
        friendLists := friendLists[u.value := [u.value]];
      }
      reply := FriendList(friendLists[u.value]);
    }
  }
}
