/** `POST /api/user/change-password`: replaces the signed-in user's password
    with the hash of the new one; `hash` stands for bcrypt. */
module ChangePasswordRoute {
  import opened Wrappers
  import opened Strings
  import opened Store

  const MinPasswordLength: nat := 6

  datatype PasswordReply =
    | PasswordUnauthorized
    | PasswordBadRequest(error: string)
    | PasswordNotFound
    | PasswordChanged

  /** The body passes the route's checks: a new password of at least six
      characters. */
  predicate PasswordAccepted(newPassword: Option<string>) {
    Truthy(newPassword) && |newPassword.value| >= MinPasswordLength
  }

  method Post(store: UserStore, sessionEmail: Option<string>, newPassword: Option<string>, hash: string -> string)
    returns (reply: PasswordReply)
    requires store.Valid()
    modifies store
    ensures store.Valid() && store.nextId == old(store.nextId)
    ensures !reply.PasswordChanged? ==> store.users == old(store.users)
    ensures !Truthy(sessionEmail) ==> reply == PasswordUnauthorized
    ensures Truthy(sessionEmail) && !Truthy(newPassword) ==> reply == PasswordBadRequest("请填写新密码")
    ensures Truthy(sessionEmail) && Truthy(newPassword) && |newPassword.value| < MinPasswordLength ==>
      reply == PasswordBadRequest("新密码长度至少为 6 位")
    ensures Truthy(sessionEmail) && PasswordAccepted(newPassword) ==>
      var user := FindUserByEmail(old(store.users), sessionEmail.value);
      (user.None? ==> reply == PasswordNotFound) &&
      (user.Some? ==>
        reply == PasswordChanged &&
        store.users == old(store.users)[user.value := old(store.users)[user.value].(password := hash(newPassword.value))])
  {
    if !Truthy(sessionEmail) {
      return PasswordUnauthorized;
    }
    if !Truthy(newPassword) {
      return PasswordBadRequest("请填写新密码");
    }
    if |newPassword.value| < MinPasswordLength {
      return PasswordBadRequest("新密码长度至少为 6 位");
    }
    var user := FindUserByEmail(store.users, sessionEmail.value);
    if user.None? {
      return PasswordNotFound;
    }
    var hashedPassword := hash(newPassword.value);
    store.UpdatePassword(user.value, hashedPassword);
    return PasswordChanged;
  }

  /** A password change touches the password of one user and nothing else:
      ids, emails and names stay, and so do all other users. */
  lemma PasswordOnly(users: seq<User>, i: nat, password: string)
    requires i < |users|
    ensures var users' := users[i := users[i].(password := password)];
      |users'| == |users| && users'[i].password == password &&
      users'[i].id == users[i].id && users'[i].email == users[i].email && users'[i].name == users[i].name &&
      forall j | 0 <= j < |users| && j != i :: users'[j] == users[j]
  {
  }
}
