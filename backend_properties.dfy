/** Properties relating the endpoints of backend/app.py to one another. */
module BackendProperties {
  import opened Wrappers
  import opened Text
  import opened Backend

  /** The flaw in api_login as written: an unknown username with a JSON null
      password is accepted, because `users.get(u)` and the password are both None. */
  lemma LoginAsWrittenAcceptsUnknownUser(users: Users, name: string)
    requires name !in users && PyStrip(name) == name
    ensures LoginAsWritten(users, Some(JStr(name)), Some(JNull)) == LoginAccepted(name, JNull)
    ensures Login(users, Some(JStr(name)), Some(JNull)) == LoginRejected
  {
  }

  /** The two login definitions agree whenever the password sent is a string. */
  lemma LoginAgreesOnStringPasswords(users: Users, username: Option<Json>, password: Option<Json>)
    requires BodyField(password).JStr?
    ensures LoginAsWritten(users, username, password) == Login(users, username, password)
  {
  }

  /** Renaming an account to the (stripped) name it already has is refused with
      401 and leaves the table as it was, whether or not the account exists. */
  lemma RenameToSameNameFails(users: Users, name: string, newUsername: Option<Json>)
    requires StrippedField(newUsername) == Some(name)
    ensures ChangeUsername(users, Some(name), newUsername) == UsersUpdate(AckRejected, users)
  {
  }

  /** Renaming `a` to `b` and then `b` back to `a` restores the table. */
  lemma RenameRoundTrip(users: Users, a: string, b: string)
    requires a in users && PyStrip(a) == a && PyStrip(b) !in users
    ensures var first := ChangeUsername(users, Some(a), Some(JStr(b)));
      first.reply == AckOk &&
      ChangeUsername(first.users, Some(PyStrip(b)), Some(JStr(a))) == UsersUpdate(AckOk, users)
  {
    assert StrippedField(Some(JStr(b))) == Some(PyStrip(b));
    assert StrippedField(Some(JStr(a))) == Some(a);
    var first := ChangeUsername(users, Some(a), Some(JStr(b)));
    var back := ChangeUsername(first.users, Some(PyStrip(b)), Some(JStr(a)));
    assert back.reply == AckOk;
    assert back.users.Keys == users.Keys;
    assert forall k :: k in users ==> back.users[k] == users[k];
  }

  /** After a rename the password opens the new name and the old name no longer
      logs in. */
  lemma RenameMovesLogin(users: Users, a: string, b: string, password: Json)
    requires a in users && PyStrip(b) !in users && PyStrip(a) == a
    ensures var after := ChangeUsername(users, Some(a), Some(JStr(b))).users;
      var n := PyStrip(b);
      && PyStrip(n) == n
      && (Login(after, Some(JStr(n)), Some(password)).LoginAccepted? <==>
          Login(users, Some(JStr(a)), Some(password)).LoginAccepted?)
      && Login(after, Some(JStr(a)), Some(password)) == LoginRejected
  {
  }

  /** After a password change, logging in succeeds with exactly the stripped new
      password: login does not strip, so a password with surrounding spaces as
      typed no longer works. */
  lemma ChangePasswordThenLogin(users: Users, u: string, newPassword: string, attempt: Json)
    requires u in users && PyStrip(u) == u
    ensures var after := ChangePassword(users, Some(u), Some(JStr(newPassword))).users;
      Login(after, Some(JStr(u)), Some(attempt)).LoginAccepted? <==> attempt == JStr(PyStrip(newPassword))
  {
  }

  /** Setting the same password twice is the same as setting it once. */
  lemma ChangePasswordIdempotent(users: Users, xUser: Option<string>, newPassword: Option<Json>)
    ensures var once := ChangePassword(users, xUser, newPassword);
      ChangePassword(once.users, xUser, newPassword) == once
  {
  }

  /** A second friend-list request for the same user returns the same list and
      writes nothing. */
  lemma FriendsIdempotent(store: FriendLists, u: Option<string>)
    ensures var once := Friends(store, u);
      Friends(once.store, u) == once
  {
  }

  /** Without an `X-User` header neither account change can succeed: the reply
      is 401, or 500 when the new value is not a string, and the table stays. */
  lemma MissingHeaderIsRefused(users: Users, field: Option<Json>)
    ensures var code := if StrippedField(field).None? then 500 else 401;
      && ChangeUsername(users, None, field) == UsersUpdate(ChangeUsername(users, None, field).reply, users)
      && ChangeUsername(users, None, field).reply.Status() == code
      && ChangePassword(users, None, field) == UsersUpdate(ChangePassword(users, None, field).reply, users)
      && ChangePassword(users, None, field).reply.Status() == code
  {
  }

  /** Login replies 200 exactly when accepted, 500 exactly for a non-string
      username, and 401 otherwise. */
  lemma LoginStatusCodes(users: Users, username: Option<Json>, password: Option<Json>)
    ensures var r := Login(users, username, password);
      && (r.Status() == 200 <==> r.LoginAccepted?)
      && (r.Status() == 500 <==> StrippedField(username).None?)
      && (r.Status() == 401 <==> !r.LoginAccepted? && StrippedField(username).Some?)
  {
  }
}
