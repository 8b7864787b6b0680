/** The password-reset form of src/components/auth/ForgotPasswordForm.jsx: a
    two-step machine, first asking for a reset link by email, then setting a
    new password with the token. The token of the page's URL is a parameter;
    the switch back to the login form two seconds after a reset is a pending
    flag. */
module ForgotPassword {
  import opened JsValue

  datatype Step = EmailStep | ResetStep

  const LinkSent := "Ссылка для сброса пароля отправлена на ваш email"
  const LinkFailed := "Ошибка при отправке ссылки для сброса пароля"
  const Mismatch := "Новые пароли не совпадают"
  const ResetDone := "Пароль успешно изменен! Теперь вы можете войти в систему"
  const ResetFailed := "Ошибка при сбросе пароля"

  /** The reset request: the token and the new password. */
  datatype ResetRequest = ResetRequest(token: string, newPassword: string)

  class ForgotPasswordForm {
    var email: string
    var isLoading: bool
    var step: Step
    var resetToken: string
    var newPassword: string
    var confirmPassword: string
    /** The timer that calls `onSwitchToLogin` has been started. */
    var switchToLoginScheduled: bool

    /** Mounting: the step starts at the email, and a `token` in the URL
        (`None` when absent) moves it to the reset and is kept. */
    constructor(urlToken: Option<string>)
      ensures email == "" && !isLoading && newPassword == "" && confirmPassword == ""
      ensures !switchToLoginScheduled
      ensures urlToken.Some? && urlToken.value != "" ==> step == ResetStep && resetToken == urlToken.value
      ensures !(urlToken.Some? && urlToken.value != "") ==> step == EmailStep && resetToken == ""
    {
      email := "";
      isLoading := false;
      step := EmailStep;
      resetToken := "";
      newPassword := "";
      confirmPassword := "";
      switchToLoginScheduled := false;
      if urlToken.Some? && urlToken.value != "" {
        resetToken := urlToken.value;
        step := ResetStep;
      }
    }

    /** The three inputs. */
    method SetEmail(value: string)
      modifies this
      ensures email == value && step == old(step) && resetToken == old(resetToken)
      ensures newPassword == old(newPassword) && confirmPassword == old(confirmPassword)
      ensures isLoading == old(isLoading) && switchToLoginScheduled == old(switchToLoginScheduled)
    {
      email := value;
    }

    method SetNewPassword(value: string)
      modifies this
      ensures newPassword == value && step == old(step) && resetToken == old(resetToken)
      ensures email == old(email) && confirmPassword == old(confirmPassword)
      ensures isLoading == old(isLoading) && switchToLoginScheduled == old(switchToLoginScheduled)
    {
      newPassword := value;
    }

    method SetConfirmPassword(value: string)
      modifies this
      ensures confirmPassword == value && step == old(step) && resetToken == old(resetToken)
      ensures email == old(email) && newPassword == old(newPassword)
      ensures isLoading == old(isLoading) && switchToLoginScheduled == old(switchToLoginScheduled)
    {
      confirmPassword := value;
    }

    /** `handleSendResetLink`: success moves to the reset step; a failure
        keeps the step. The request carries the email. */
    method SendResetLink(reply: Reply<()>) returns (requestEmail: string, toasts: seq<ToastRequest>)
      modifies this
      ensures requestEmail == email && !isLoading
      ensures reply.Ok? ==> step == ResetStep && toasts == [ToastRequest(LinkSent, "success")]
      ensures !reply.Ok? ==> step == old(step) && toasts == [ToastRequest(OrText(reply.message, LinkFailed), "error")]
      ensures old(step) == ResetStep ==> step == ResetStep
      ensures email == old(email) && resetToken == old(resetToken)
      ensures newPassword == old(newPassword) && confirmPassword == old(confirmPassword)
      ensures switchToLoginScheduled == old(switchToLoginScheduled)
    {
      isLoading := true;
      requestEmail := email;
      if reply.Ok? {
        toasts := [ToastRequest(LinkSent, "success")];
        step := ResetStep;
      } else {
        toasts := [ToastRequest(OrText(reply.message, LinkFailed), "error")];
      }
      isLoading := false;
    }

    /** `handleResetPassword`: different passwords show a toast and send
        nothing; otherwise the token and the new password are sent, and a
        success schedules the return to the login form. */
    method ResetPassword(reply: Reply<()>) returns (request: Option<ResetRequest>, toasts: seq<ToastRequest>)
      modifies this
      ensures newPassword != confirmPassword ==>
                request == None && toasts == [ToastRequest(Mismatch, "error")]
                && isLoading == old(isLoading) && switchToLoginScheduled == old(switchToLoginScheduled)
      ensures newPassword == confirmPassword ==> request == Some(ResetRequest(resetToken, newPassword)) && !isLoading
      ensures newPassword == confirmPassword && reply.Ok? ==>
                switchToLoginScheduled && toasts == [ToastRequest(ResetDone, "success")]
      ensures newPassword == confirmPassword && !reply.Ok? ==>
                switchToLoginScheduled == old(switchToLoginScheduled)
                && toasts == [ToastRequest(OrText(reply.message, ResetFailed), "error")]
      ensures step == old(step) && email == old(email) && resetToken == old(resetToken)
      ensures newPassword == old(newPassword) && confirmPassword == old(confirmPassword)
    {
      if newPassword != confirmPassword {
        request := None;
        toasts := [ToastRequest(Mismatch, "error")];
        return;
      }
      isLoading := true;
      request := Some(ResetRequest(resetToken, newPassword));
      if reply.Ok? {
        toasts := [ToastRequest(ResetDone, "success")];
        switchToLoginScheduled := true;
      } else {
        toasts := [ToastRequest(OrText(reply.message, ResetFailed), "error")];
      }
      isLoading := false;
    }
  }

  /** A token the page's URL carries: present and non-empty. */
  predicate HasToken(urlToken: Option<string>) {
    urlToken.Some? && urlToken.value != ""
  }

  /** Any run of the page: each reply goes to the handler of the form the
      current step renders (the email form's `handleSendResetLink` on the
      email step, the reset form's `handleResetPassword` on the reset step),
      with the passwords typed in between. The trace holds the step before
      the run and after every submit. Once on the reset step the page never
      leaves it, and it ends there exactly when the URL carried a token or
      some link request succeeded. */
  method StepRun(urlToken: Option<string>, replies: seq<Reply<()>>, passwords: seq<(string, string)>)
    returns (f: ForgotPasswordForm, trace: seq<Step>)
    requires |passwords| == |replies|
    ensures |trace| == |replies| + 1
    ensures trace[0] == (if HasToken(urlToken) then ResetStep else EmailStep)
    ensures forall i, j :: 0 <= i <= j < |trace| && trace[i] == ResetStep ==> trace[j] == ResetStep
    ensures trace[|replies|] == ResetStep <==>
              HasToken(urlToken) || exists i :: 0 <= i < |replies| && replies[i].Ok?
    ensures f.step == trace[|replies|]
  {
    f := new ForgotPasswordForm(urlToken);
    trace := [f.step];
    var k := 0;
    while k < |replies|
      invariant 0 <= k <= |replies|
      invariant |trace| == k + 1 && trace[k] == f.step
      invariant trace[0] == (if HasToken(urlToken) then ResetStep else EmailStep)
      invariant forall i, j :: 0 <= i <= j < |trace| && trace[i] == ResetStep ==> trace[j] == ResetStep
      invariant f.step == ResetStep <==> HasToken(urlToken) || exists i :: 0 <= i < k && replies[i].Ok?
    {
      if f.step == EmailStep {
        var _, _ := f.SendResetLink(replies[k]);
      } else {
        f.SetNewPassword(passwords[k].0);
        f.SetConfirmPassword(passwords[k].1);
        var _, _ := f.ResetPassword(replies[k]);
      }
      trace := trace + [f.step];
      k := k + 1;
    }
  }
}
