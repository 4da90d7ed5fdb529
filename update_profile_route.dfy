/** `POST /api/user/update-profile`: changes the signed-in user's name and
    email. */
module UpdateProfileRoute {
  import opened Wrappers
  import opened Strings
  import opened Store
  import opened EmailFormat

  datatype ProfileReply =
    | ProfileUnauthorized
    | ProfileBadRequest(error: string)
    | ProfileNotFound
    | ProfileUpdated(name: string, email: string)

  /** The new email is taken by a user other than the current one. */
  predicate TakenByOther(users: seq<User>, current: nat, email: string)
    requires current < |users|
  {
    exists j | 0 <= j < |users| :: j != current && users[j].email == email
  }

  /** The body passes the route's field checks: a name and an email, the
      email in the accepted format. */
  predicate FieldsAccepted(name: Option<string>, email: Option<string>) {
    Truthy(name) && Truthy(email) && IsValidEmail(email.value)
  }

  method Post(store: UserStore, sessionEmail: Option<string>, name: Option<string>, email: Option<string>)
    returns (reply: ProfileReply)
    requires store.Valid()
    modifies store
    ensures store.Valid() && store.nextId == old(store.nextId)
    ensures !reply.ProfileUpdated? ==> store.users == old(store.users)
    ensures !Truthy(sessionEmail) ==> reply == ProfileUnauthorized
    ensures Truthy(sessionEmail) && (!Truthy(name) || !Truthy(email)) ==> reply == ProfileBadRequest("请填写所有字段")
    ensures Truthy(sessionEmail) && Truthy(name) && Truthy(email) && !IsValidEmail(email.value) ==>
      reply == ProfileBadRequest("邮箱格式不正确")
    ensures Truthy(sessionEmail) && FieldsAccepted(name, email) ==>
      var current := FindUserByEmail(old(store.users), sessionEmail.value);
      (current.None? ==> reply == ProfileNotFound) &&
      (current.Some? && TakenByOther(old(store.users), current.value, email.value) ==>
        reply == ProfileBadRequest("该邮箱已被使用")) &&
      (current.Some? && !TakenByOther(old(store.users), current.value, email.value) ==>
        reply == ProfileUpdated(name.value, email.value) &&
        store.users == old(store.users)[current.value := old(store.users)[current.value].(name := name.value, email := email.value)])
  {
    if !Truthy(sessionEmail) {
      return ProfileUnauthorized;
    }
    if !Truthy(name) || !Truthy(email) {
      return ProfileBadRequest("请填写所有字段");
    }
    if !IsValidEmail(email.value) {
      return ProfileBadRequest("邮箱格式不正确");
    }
    var currentUser := FindUserByEmail(store.users, sessionEmail.value);
    if currentUser.None? {
      return ProfileNotFound;
    }
    var current := currentUser.value;
    if email.value != sessionEmail.value {
      var existingUser := FindUserByEmail(store.users, email.value);
      if existingUser.Some? && store.users[existingUser.value].id != store.users[current].id {
        return ProfileBadRequest("该邮箱已被使用");
      }
      // the lookup found the only owner of the email, and it is not the current user
      assert existingUser.None?;
    } else {
      // the current user owns the session email, so nobody else does
      assert !TakenByOther(store.users, current, email.value);
    }
    store.UpdateProfile(current, name.value, email.value);
    return ProfileUpdated(name.value, email.value);
  }

  /** Emails stay unique: the route never gives a user an email another user
      already has, and it changes the profile of the session's user only. */
  lemma UpdateKeepsOthers(users: seq<User>, current: nat, name: string, email: string)
    requires UniqueUsers(users) && current < |users| && !TakenByOther(users, current, email)
    ensures UniqueUsers(users[current := users[current].(name := name, email := email)])
    ensures forall j | 0 <= j < |users| && j != current ::
      users[current := users[current].(name := name, email := email)][j] == users[j]
  {
  }
}
