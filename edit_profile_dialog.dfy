/** The edit-profile dialog: the reset when it opens, client-side checks, the
    request it sends and what a reply does. The reply is a parameter. */
module EditProfileDialog {
  import opened Wrappers
  import opened Strings
  import opened EmailFormat
  import UpdateProfileRoute

  datatype Toast = NoToast | ToastError(message: string) | ToastSuccess(message: string)

  datatype ProfileBody = ProfileBody(name: string, email: string)

  /** An ok reply with the `user` it carries, if any; a non-ok reply with its
      `error` field; or a thrown error. */
  datatype Answer = AnswerOk(user: Option<ProfileBody>) | AnswerNotOk(error: Option<string>) | AnswerThrew

  const MissingField := "请填写所有字段"
  const BadEmail := "邮箱格式不正确"
  const EmailChangedMessage := "用户信息修改成功，邮箱已更改，请重新登录"
  const SameEmailMessage := "用户信息修改成功，请重新登录"

  function ClientCheck(name: string, email: string): (r: Option<string>)
    ensures r.None? <==> name != "" && email != "" && IsValidEmail(email)
    ensures (name == "" || email == "") ==> r == Some(MissingField)
  {
    if name == "" || email == "" then Some(MissingField)
    else if !IsValidEmail(email) then Some(BadEmail)
    else None
  }

  /** The success message names an email change exactly when the submitted
      email differs from the one the dialog was opened with. */
  function SuccessMessage(email: string, initialEmail: string): (m: string)
    ensures m == EmailChangedMessage <==> email != initialEmail
  {
    if email != initialEmail then EmailChangedMessage else SameEmailMessage
  }

  /** The bridge from the dialog to the route: what the dialog sends passes
      the route's `FieldsAccepted`, so with a session the route answers it
      with its user lookup, never with 400. */
  lemma ClientCheckImpliesServerCheck(name: string, email: string)
    requires ClientCheck(name, email).None?
    ensures UpdateProfileRoute.FieldsAccepted(Some(name), Some(email))
  {
  }

  class EditProfileDialog {
    const initialName: string
    const initialEmail: string
    /** Whether the optional `onSuccess` property was given. */
    const hasOnSuccess: bool
    var name: string
    var email: string
    var open: bool
    var isLoading: bool
    var toast: Toast
    var sent: seq<ProfileBody>
    /** The `(name, email)` pairs `onSuccess` was called with. */
    var reported: seq<ProfileBody>
    var signOutScheduled: bool

    constructor (open: bool, initialName: string, initialEmail: string, hasOnSuccess: bool)
      ensures this.open == open && this.initialName == initialName && this.initialEmail == initialEmail
      ensures this.hasOnSuccess == hasOnSuccess
      ensures name == initialName && email == initialEmail && !isLoading
      ensures toast == NoToast && sent == [] && reported == [] && !signOutScheduled
    {
      this.open := open;
      this.initialName := initialName;
      this.initialEmail := initialEmail;
      this.hasOnSuccess := hasOnSuccess;
      name := initialName;
      email := initialEmail;
      isLoading := false;
      toast := NoToast;
      sent := [];
      reported := [];
      signOutScheduled := false;
    }

    /** The effect that runs when `open` or the initial values change. */
    method SyncOnOpen()
      modifies this
      ensures old(open) ==> name == initialName && email == initialEmail
      ensures !old(open) ==> name == old(name) && email == old(email)
      ensures open == old(open) && toast == old(toast) && sent == old(sent) && reported == old(reported)
      ensures isLoading == old(isLoading) && signOutScheduled == old(signOutScheduled)
    {
      if open {
        name := initialName;
        email := initialEmail;
      }
    }

    method HandleSubmit(answer: Answer)
      modifies this
      ensures name == old(name) && email == old(email)
      ensures ClientCheck(old(name), old(email)).Some? ==>
        isLoading == old(isLoading) && toast == ToastError(ClientCheck(old(name), old(email)).value) && sent == old(sent) &&
        open == old(open) && reported == old(reported) && signOutScheduled == old(signOutScheduled)
      ensures ClientCheck(old(name), old(email)).None? ==>
        !isLoading && sent == old(sent) + [ProfileBody(old(name), old(email))]
      ensures ClientCheck(old(name), old(email)).None? && answer.AnswerOk? ==>
        toast == ToastSuccess(SuccessMessage(old(email), initialEmail)) && !open && signOutScheduled &&
        reported == old(reported) + (if hasOnSuccess && answer.user.Some? then [answer.user.value] else [])
      ensures ClientCheck(old(name), old(email)).None? && !answer.AnswerOk? ==>
        open == old(open) && reported == old(reported) && signOutScheduled == old(signOutScheduled) &&
        toast == ToastError(if answer.AnswerThrew? then "修改用户信息失败，请稍后重试"
                            else if Truthy(answer.error) then answer.error.value else "修改用户信息失败")
    {
      var check := ClientCheck(name, email);
      if check.Some? {
        toast := ToastError(check.value);
        return;
      }
      isLoading := true;
      sent := sent + [ProfileBody(name, email)];
      match answer {
        case AnswerThrew =>
          toast := ToastError("修改用户信息失败，请稍后重试");
        case AnswerNotOk(error) =>
          toast := ToastError(if Truthy(error) then error.value else "修改用户信息失败");
        case AnswerOk(user) =>
          var emailChanged := email != initialEmail;
          if emailChanged {
            toast := ToastSuccess(EmailChangedMessage);
          } else {
            toast := ToastSuccess(SameEmailMessage);
          }
          if hasOnSuccess && user.Some? {
            reported := reported + [user.value];
          }
          open := false;
          signOutScheduled := true;
      }
      isLoading := false;
    }
  }
}
