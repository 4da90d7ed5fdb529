/** `POST /api/auth/register`: creates the administrator account. Only the first
    account can be registered; `hash` stands for bcrypt. */
module RegisterRoute {
  import opened Wrappers
  import opened Strings
  import opened Store
  import opened EmailFormat

  const MinPasswordLength: nat := 6
  const DefaultName := "管理员"

  /** The user as the response shows it: without the password. */
  datatype PublicUser = PublicUser(id: nat, email: string, name: string)

  datatype RegisterReply =
    | RegisterBadRequest(error: string)
    | RegisterForbidden(error: string)
    | Registered(user: PublicUser)

  /** `name || "管理员"`. */
  function NameOrDefault(name: Option<string>): (r: string)
    ensures Truthy(name) ==> r == name.value
    ensures !Truthy(name) ==> r == DefaultName
  {
    if Truthy(name) then name.value else DefaultName
  }

  method Post(store: UserStore, email: Option<string>, password: Option<string>, name: Option<string>,
              hash: string -> string)
    returns (reply: RegisterReply)
    requires store.Valid()
    modifies store
    ensures store.Valid()
    ensures !reply.Registered? ==> store.users == old(store.users) && store.nextId == old(store.nextId)
    ensures !Truthy(email) || !Truthy(password) ==> reply == RegisterBadRequest("邮箱和密码是必填项")
    ensures Truthy(email) && Truthy(password) && !IsValidEmail(email.value) ==>
      reply == RegisterBadRequest("邮箱格式不正确")
    ensures Truthy(email) && Truthy(password) && IsValidEmail(email.value) && |password.value| < MinPasswordLength ==>
      reply == RegisterBadRequest("密码长度至少为6位")
    ensures Truthy(email) && Truthy(password) && IsValidEmail(email.value) && |password.value| >= MinPasswordLength ==>
      (FindUserByEmail(old(store.users), email.value).Some? ==> reply == RegisterBadRequest("该邮箱已被注册")) &&
      (FindUserByEmail(old(store.users), email.value).None? && |old(store.users)| > 0 ==>
        reply == RegisterForbidden("系统已初始化，无法注册新用户"))
    ensures reply.Registered? ==>
      old(store.users) == [] && IsValidEmail(email.value) && |password.value| >= MinPasswordLength &&
      store.users == [User(old(store.nextId), email.value, hash(password.value), NameOrDefault(name))] &&
      reply.user == PublicUser(old(store.nextId), email.value, NameOrDefault(name))
    ensures (Truthy(email) && Truthy(password) && IsValidEmail(email.value) && |password.value| >= MinPasswordLength &&
             old(store.users) == []) ==> reply.Registered?
  {
    if !Truthy(email) || !Truthy(password) {
      return RegisterBadRequest("邮箱和密码是必填项");
    }
    if !IsValidEmail(email.value) {
      return RegisterBadRequest("邮箱格式不正确");
    }
    if |password.value| < MinPasswordLength {
      return RegisterBadRequest("密码长度至少为6位");
    }
    var existingUser := FindUserByEmail(store.users, email.value);
    if existingUser.Some? {
      return RegisterBadRequest("该邮箱已被注册");
    }
    var userCount := |store.users|;
    if userCount > 0 {
      return RegisterForbidden("系统已初始化，无法注册新用户");
    }
    var hashedPassword := hash(password.value);
    var user := store.Create(email.value, hashedPassword, NameOrDefault(name));
    return Registered(PublicUser(user.id, user.email, user.name));
  }
}
