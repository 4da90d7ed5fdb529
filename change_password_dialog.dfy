/** The change-password dialog: client-side checks, the request it sends and
    what a reply does to the form. The reply to the request is a parameter. */
module ChangePasswordDialog {
  import opened Wrappers
  import opened Strings
  import ChangePasswordRoute

  datatype Toast = NoToast | ToastError(message: string) | ToastSuccess(message: string)

  /** The JSON body of the request: the new password and nothing else. */
  datatype ChangePasswordBody = ChangePasswordBody(newPassword: string)

  /** What `fetch` produced: an ok reply, a non-ok reply with its `error`
      field, or a thrown error. */
  datatype Answer = AnswerOk | AnswerNotOk(error: Option<string>) | AnswerThrew

  const MissingField := "请填写所有字段"
  const TooShort := "新密码长度至少为 6 位"
  const Mismatch := "两次输入的新密码不一致"

  /** The checks `handleSubmit` runs before sending anything, in their order:
      an empty field, then a short password, then a mismatch. */
  function ClientCheck(newPassword: string, confirmPassword: string): (r: Option<string>)
    ensures r.None? <==>
      newPassword != "" && confirmPassword != "" && |newPassword| >= 6 && newPassword == confirmPassword
    ensures (newPassword == "" || confirmPassword == "") ==> r == Some(MissingField)
    ensures newPassword != "" && confirmPassword != "" && |newPassword| < 6 ==> r == Some(TooShort)
  {
    if newPassword == "" || confirmPassword == "" then Some(MissingField)
    else if |newPassword| < 6 then Some(TooShort)
    else if newPassword != confirmPassword then Some(Mismatch)
    else None
  }

  /** `data.error || fallback`. */
  function ErrorText(error: Option<string>, fallback: string): (r: string)
    ensures Truthy(error) ==> r == error.value
    ensures !Truthy(error) ==> r == fallback
  {
    if Truthy(error) then error.value else fallback
  }

  /** The bridge from the dialog to the route: whatever passes the dialog's
      checks passes the route's `PasswordAccepted`, so with a session the
      route answers the body with its user lookup, never with 400. */
  lemma ClientCheckImpliesServerCheck(newPassword: string, confirmPassword: string)
    requires ClientCheck(newPassword, confirmPassword).None?
    ensures ChangePasswordRoute.PasswordAccepted(Some(newPassword))
  {
  }

  class ChangePasswordDialog {
    var newPassword: string
    var confirmPassword: string
    var isLoading: bool
    var open: bool
    var toast: Toast
    /** The request bodies posted so far. */
    var sent: seq<ChangePasswordBody>
    var signOutScheduled: bool

    constructor (open: bool)
      ensures newPassword == "" && confirmPassword == "" && !isLoading && this.open == open
      ensures toast == NoToast && sent == [] && !signOutScheduled
    {
      newPassword := "";
      confirmPassword := "";
      isLoading := false;
      this.open := open;
      toast := NoToast;
      sent := [];
      signOutScheduled := false;
    }

    method HandleSubmit(answer: Answer)
      modifies this
      ensures var check := ClientCheck(old(newPassword), old(confirmPassword));
        check.Some? ==>
          isLoading == old(isLoading) && toast == ToastError(check.value) && sent == old(sent) &&
          newPassword == old(newPassword) && confirmPassword == old(confirmPassword) &&
          open == old(open) && signOutScheduled == old(signOutScheduled)
      ensures ClientCheck(old(newPassword), old(confirmPassword)).None? ==>
        !isLoading && sent == old(sent) + [ChangePasswordBody(old(newPassword))]
      ensures ClientCheck(old(newPassword), old(confirmPassword)).None? && answer == AnswerOk ==>
        newPassword == "" && confirmPassword == "" && !open && signOutScheduled &&
        toast == ToastSuccess("密码修改成功，请重新登录")
      ensures ClientCheck(old(newPassword), old(confirmPassword)).None? && answer != AnswerOk ==>
        newPassword == old(newPassword) && confirmPassword == old(confirmPassword) &&
        open == old(open) && signOutScheduled == old(signOutScheduled) &&
        toast == ToastError(if answer.AnswerThrew? then "修改密码失败，请稍后重试" else ErrorText(answer.error, "修改密码失败"))
    {
      var check := ClientCheck(newPassword, confirmPassword);
      if check.Some? {
        toast := ToastError(check.value);
        return;
      }
      isLoading := true;
      sent := sent + [ChangePasswordBody(newPassword)];
      match answer {
        case AnswerThrew =>
          toast := ToastError("修改密码失败，请稍后重试");
        case AnswerNotOk(error) =>
          toast := ToastError(ErrorText(error, "修改密码失败"));
        case AnswerOk =>
          toast := ToastSuccess("密码修改成功，请重新登录");
          newPassword := "";
          confirmPassword := "";
          open := false;
          signOutScheduled := true;
      }
      isLoading := false;
    }
  }
}
