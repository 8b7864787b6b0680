/** The sign-up form of src/components/auth/RegisterForm.jsx: six fields,
    the required and matching checks of `handleSubmit`, the phone keystroke
    mask, and the user data sent to `register`, whose reply is a parameter. */
module Register {
  import opened JsValue
  import opened JsObject
  import opened JsText
  import opened PhoneNormalizer
  import opened PhoneMask
  import opened Forms

  const FullNameRequired := "ФИО обязательно"
  const PasswordRequired := "Пароль обязателен"
  const PasswordTooShort := "Пароль должен быть не менее 6 символов"
  const PasswordsDiffer := "Пароли не совпадают"
  const RegisterFailed := "Ошибка регистрации. Пожалуйста, попроруйте снова."

  const FieldKeys: seq<string> := ["fullName", "email", "password", "confirmPassword", "phone", "companyName"]

  /** The form's keys are pairwise different. */
  lemma {:induction false} FieldKeysDistinct()
    ensures forall i, j :: 0 <= i < j < |FieldKeys| ==> FieldKeys[i] != FieldKeys[j]
  {
  }

  /** The name, email and password checks. The length check on the
      password runs after the required check and overwrites it. */
  function AccountErrors(formData: FormData): (r: Errors)
    ensures Get(r, "fullName") == if IsBlank(Text(formData, "fullName")) then Some(FullNameRequired) else None
    ensures Get(r, "email") == if IsBlank(Text(formData, "email")) then Some(EmailRequired) else None
    ensures Get(r, "password") == if |Text(formData, "password")| < 6 then Some(PasswordTooShort) else None
    ensures forall k :: k != "fullName" && k != "email" && k != "password" ==> Get(r, k) == None
  {
    var password := Text(formData, "password");
    var e0 := Flag([], IsBlank(Text(formData, "fullName")), "fullName", FullNameRequired);
    var e1 := Flag(e0, IsBlank(Text(formData, "email")), "email", EmailRequired);
    var e2 := Flag(e1, password == "", "password", PasswordRequired);
    assert Get(e2, "password") == None || |password| < 6;
    Flag(e2, |password| < 6, "password", PasswordTooShort)
  }

  /** The messages of `handleSubmit`: the checks above, then the
      confirmation and the phone. No other field gets a message. */
  function RegisterErrors(formData: FormData): (r: Errors)
    ensures forall k :: (k != "fullName" && k != "email" && k != "password" && k != "confirmPassword" && k != "phone")
                        ==> Get(r, k) == None
  {
    var e3 := AccountErrors(formData);
    var e4 := Flag(e3, Prop(formData, "password") != Prop(formData, "confirmPassword"), "confirmPassword", PasswordsDiffer);
    Flag(e4, IsBlank(Text(formData, "phone")), "phone", PhoneRequired)
  }

  /** The name, email and password messages survive the two later checks. An
      empty password shows the length message, so the "required" message
      never shows. */
  lemma {:induction false} RegisterErrorsAccount(formData: FormData)
    ensures var r := RegisterErrors(formData);
            && Get(r, "fullName") == (if IsBlank(Text(formData, "fullName")) then Some(FullNameRequired) else None)
            && Get(r, "email") == (if IsBlank(Text(formData, "email")) then Some(EmailRequired) else None)
            && Get(r, "password") == (if |Text(formData, "password")| < 6 then Some(PasswordTooShort) else None)
            && Get(r, "password") != Some(PasswordRequired)
  {
    var e3 := AccountErrors(formData);
    var e4 := Flag(e3, Prop(formData, "password") != Prop(formData, "confirmPassword"), "confirmPassword", PasswordsDiffer);
    assert Get(e4, "fullName") == Get(e3, "fullName");
    assert Get(e4, "email") == Get(e3, "email");
    assert Get(e4, "password") == Get(e3, "password");
  }

  /** The confirmation differs from the password, or the phone is blank,
      exactly when its message shows. */
  lemma {:induction false} RegisterErrorsConfirmAndPhone(formData: FormData)
    ensures var r := RegisterErrors(formData);
            && Get(r, "confirmPassword") ==
                 (if Prop(formData, "password") != Prop(formData, "confirmPassword") then Some(PasswordsDiffer) else None)
            && Get(r, "phone") == (if IsBlank(Text(formData, "phone")) then Some(PhoneRequired) else None)
  {
    var e3 := AccountErrors(formData);
    assert Get(e3, "confirmPassword") == None;
  }

  /** Registration is attempted exactly when every check passes. */
  lemma {:induction false} RegisterErrorsEmptyIff(formData: FormData)
    ensures RegisterErrors(formData) == [] <==>
              !IsBlank(Text(formData, "fullName")) && !IsBlank(Text(formData, "email"))
              && |Text(formData, "password")| >= 6 && Prop(formData, "password") == Prop(formData, "confirmPassword")
              && !IsBlank(Text(formData, "phone"))
  {
    var r := RegisterErrors(formData);
    RegisterErrorsAccount(formData);
    RegisterErrorsConfirmAndPhone(formData);
    if r != [] {
      var k := r[0].0;
      assert IndexOf(r, k) == 0;
    }
  }

  /** The user data sent to `register`: the five fields without
      `confirmPassword`, the phone normalized. */
  function UserData(formData: FormData): (r: FormData)
    ensures Keys(r) == ["fullName", "email", "password", "phone", "companyName"]
    ensures AllDigits(Text(r, "phone"))
    ensures !Has(r, "confirmPassword")
  {
    var r := [("fullName", Prop(formData, "fullName")), ("email", Prop(formData, "email")),
              ("password", Prop(formData, "password")),
              ("phone", Str(ExtractPhoneForServer(Text(formData, "phone")))),
              ("companyName", Prop(formData, "companyName"))];
    GetFirst(r, 3);
    HasIffInKeys(r, "confirmPassword");
    r
  }

  /** Every field but the phone and the confirmation goes out as entered. */
  lemma {:induction false} UserDataCarriesTheForm(formData: FormData)
    ensures var r := UserData(formData);
            Prop(r, "fullName") == Prop(formData, "fullName") && Prop(r, "email") == Prop(formData, "email")
            && Prop(r, "password") == Prop(formData, "password") && Prop(r, "companyName") == Prop(formData, "companyName")
  {
    var r := UserData(formData);
    GetFirst(r, 0);
    GetFirst(r, 1);
    GetFirst(r, 2);
    GetFirst(r, 4);
  }

  /** A canonical number typed into the phone field goes out as typed. */
  lemma {:induction false} UserDataTypedPhone(formData: FormData, d: string)
    requires IsCanonical(d)
    ensures Text(UserData(WithMaskedPhone(formData, "phone", d)), "phone") == d
  {
    var m := WithMaskedPhone(formData, "phone", d);
    GetFirst(UserData(m), 3);
    MaskThenNormalize(d);
  }

  class RegisterForm {
    var formData: FormData
    var errors: Errors
    var isLoading: bool

    constructor()
      ensures Keys(formData) == FieldKeys && UniqueKeys(formData)
      ensures forall i :: 0 <= i < |formData| ==> formData[i].1 == Str("")
      ensures errors == [] && !isLoading
    {
      var f: FormData := [("fullName", Str("")), ("email", Str("")), ("password", Str("")),
                          ("confirmPassword", Str("")), ("phone", Str("")), ("companyName", Str(""))];
      formData := f;
      errors := [];
      isLoading := false;
    }

    /** `handleChange`: the field takes the value and only its own message
        is cleared. */
    method HandleChange(name: string, value: string)
      modifies this
      ensures formData == Put(old(formData), name, Str(value))
      ensures errors == ClearError(old(errors), name)
      ensures isLoading == old(isLoading)
    {
      formData := Put(formData, name, Str(value));
      errors := ClearError(errors, name);
    }

    /** `handlePhoneChange`: the phone shows the masked input; nothing else
        changes. */
    method HandlePhoneChange(input: string)
      modifies this
      ensures formData == WithMaskedPhone(old(formData), "phone", input)
      ensures errors == old(errors) && isLoading == old(isLoading)
    {
      formData := WithMaskedPhone(formData, "phone", input);
    }

    /** `handleSubmit`: with a message, `register` is not called; otherwise it
        gets the user data, and a failure or an exception leaves only the
        general message. */
    method HandleSubmit(reply: Reply<()>) returns (request: Option<FormData>, succeeded: bool)
      modifies this
      ensures formData == old(formData)
      ensures RegisterErrors(formData) != [] ==>
                request == None && !succeeded && errors == RegisterErrors(formData) && isLoading == old(isLoading)
      ensures RegisterErrors(formData) == [] ==> request == Some(UserData(formData)) && !isLoading
      ensures RegisterErrors(formData) == [] && reply.Ok? ==> succeeded && errors == old(errors)
      ensures RegisterErrors(formData) == [] && reply.Rejected? ==> !succeeded && errors == [("general", reply.message)]
      ensures RegisterErrors(formData) == [] && reply.Thrown? ==> !succeeded && errors == [("general", RegisterFailed)]
    {
      var newErrors := RegisterErrors(formData);
      if newErrors != [] {
        errors := newErrors;
        request, succeeded := None, false;
        return;
      }
      isLoading := true;
      request := Some(UserData(formData));
      succeeded := reply.Ok?;
      if reply.Rejected? {
        errors := [("general", reply.message)];
      } else if reply.Thrown? {
        errors := [("general", RegisterFailed)];
      }
      isLoading := false;
    }
  }
}
