/** The sign-in form of src/components/auth/LoginForm.jsx: two fields, their
    required checks, and the general message a failed sign-in leaves. The
    reply of `login` is a parameter. */
module Login {
  import opened JsValue
  import opened JsObject
  import opened JsText
  import opened Forms

  const PasswordRequired := "Пароль обязателен"
  const LoginFailed := "Ошибка входа. Пожалуйста, попробуйте снова."

  /** The messages of `handleSubmit`: a blank email and an empty password
      each get their own, and there is none exactly when both are filled. */
  function LoginErrors(formData: FormData): (r: Errors)
    ensures Get(r, "email") == if IsBlank(Text(formData, "email")) then Some(EmailRequired) else None
    ensures Get(r, "password") == if Truthy(Prop(formData, "password")) then None else Some(PasswordRequired)
    ensures forall k :: k != "email" && k != "password" ==> Get(r, k) == None
    ensures r == [] <==> !IsBlank(Text(formData, "email")) && Truthy(Prop(formData, "password"))
  {
    var e0 := Flag([], IsBlank(Text(formData, "email")), "email", EmailRequired);
    Flag(e0, !Truthy(Prop(formData, "password")), "password", PasswordRequired)
  }

  class LoginForm {
    var formData: FormData
    var errors: Errors
    var isLoading: bool

    constructor()
      ensures formData == [("email", Str("")), ("password", Str(""))] && errors == [] && !isLoading
    {
      formData := [("email", Str("")), ("password", Str(""))];
      errors := [];
      isLoading := false;
    }

    /** `handleChange`: the field takes the value and only its own message
        is cleared. */
    method HandleChange(name: string, value: string)
      modifies this
      ensures formData == Put(old(formData), name, Str(value))
      ensures errors == ClearError(old(errors), name)
      ensures isLoading == old(isLoading)
    {
      formData := Put(formData, name, Str(value));
      errors := ClearError(errors, name);
    }

    /** `handleSubmit`: with a message, `login` is not called; otherwise it is
        called with the email and the password, a success calls `onSuccess`,
        and a failure or an exception leaves only the general message. */
    method HandleSubmit(reply: Reply<()>) returns (call: Option<(string, string)>, succeeded: bool)
      modifies this
      ensures formData == old(formData)
      ensures LoginErrors(formData) != [] ==>
                call == None && !succeeded && errors == LoginErrors(formData) && isLoading == old(isLoading)
      ensures LoginErrors(formData) == [] ==>
                call == Some((Text(formData, "email"), Text(formData, "password"))) && !isLoading
      ensures LoginErrors(formData) == [] && reply.Ok? ==> succeeded && errors == old(errors)
      ensures LoginErrors(formData) == [] && reply.Rejected? ==> !succeeded && errors == [("general", reply.message)]
      ensures LoginErrors(formData) == [] && reply.Thrown? ==> !succeeded && errors == [("general", LoginFailed)]
    {
      var newErrors := LoginErrors(formData);
      if newErrors != [] {
        errors := newErrors;
        call, succeeded := None, false;
        return;
      }
      isLoading := true;
      call := Some((Text(formData, "email"), Text(formData, "password")));
      succeeded := reply.Ok?;
      if reply.Rejected? {
        errors := [("general", reply.message)];
      } else if reply.Thrown? {
        errors := [("general", LoginFailed)];
      }
      isLoading := false;
    }
  }

  /** After a failed sign-in, only the general message shows. */
  lemma {:induction false} FailureShowsOnlyGeneral(message: string, k: string)
    requires k != "general"
    ensures !Shows([("general", message)], k)
    ensures Shows([("general", message)], "general") <==> message != ""
  {
    assert IndexOf([("general", message)], "general") == 0;
  }
}
