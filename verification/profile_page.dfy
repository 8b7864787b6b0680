/** The profile page of src/components/auth/ProfilePage.jsx: the profile
    form loaded from the signed-in user, its phone keystroke mask and its
    submit through `updateProfile`, and the password-change form with its
    match check and resets. Every backend reply is a parameter; the
    three-second timer that hides the success message is a separate event. */
module Profile {
  import opened JsValue
  import opened JsObject
  import opened JsText
  import opened PhoneNormalizer
  import opened PhoneMask
  import opened Forms

  const ProfileUpdated := "Профиль успешно обновлен!"
  const ProfileFailed := "Ошибка обновления профиля"
  const PasswordsDiffer := "Новые пароли не совпадают"
  const PasswordChanged := "Пароль успешно изменен!"
  const PasswordFailed := "Ошибка изменения пароля"

  /** The profile form's fields, matching the user's `UserKeys` one to one. */
  const ProfileKeys: seq<string> := ["fullName", "email", "phone", "companyName"]

  const PasswordKeys: seq<string> := ["currentPassword", "newPassword", "confirmPassword"]

  /** The password form with every field empty. */
  const EmptyPasswords: FormData := [("currentPassword", Str("")), ("newPassword", Str("")), ("confirmPassword", Str(""))]

  lemma {:induction false} ProfileKeysDistinct()
    ensures DistinctKeys(ProfileKeys) && |ProfileKeys| == |UserKeys|
  {
  }

  /** The form the effect writes: each field is the user's when truthy and
      "" otherwise, under the form's own name. */
  function Loaded(user: Entries<Value>): (r: FormData)
    ensures Keys(r) == ProfileKeys
  {
    ProfileKeysDistinct();
    FromUserGet(Some(user), ProfileKeys, UserKeys);
    FromUser(Some(user), ProfileKeys, UserKeys)
  }

  /** Each loaded field is the user's field of the same meaning, with ""
      for a missing or falsy one. */
  lemma {:induction false} LoadedFromUser(user: Entries<Value>, i: int)
    requires 0 <= i < 4
    ensures var v := Prop(user, UserKeys[i]);
            Prop(Loaded(user), ProfileKeys[i]) == if Truthy(v) then v else Str("")
  {
    ProfileKeysDistinct();
    FromUserGet(Some(user), ProfileKeys, UserKeys);
  }

  /** The profile data sent to `updateProfile`: the form with only `phone`
      replaced by its normalized digits. */
  function ProfileData(formData: FormData): (r: FormData)
    ensures AllDigits(Text(r, "phone"))
    ensures forall k :: k != "phone" ==> Get(r, k) == Get(formData, k)
    ensures Has(formData, "phone") ==> Keys(r) == Keys(formData)
  {
    WithServerPhone(formData, "phone")
  }

  /** A stored canonical number goes back unchanged when the loaded profile
      is saved without touching the phone. */
  lemma {:induction false} StoredPhoneRoundTrip(user: Entries<Value>)
    requires Prop(user, "phone").Str? && IsCanonical(Prop(user, "phone").s)
    ensures Text(ProfileData(Loaded(user)), "phone") == Prop(user, "phone").s
  {
    LoadedFromUser(user, 2);
    var d := Prop(user, "phone").s;
    assert Text(Loaded(user), "phone") == d;
    CanonicalIsFixed(d);
  }

  class ProfilePage {
    var isEditing: bool
    var formData: FormData
    var passwordData: FormData
    var successMessage: string
    var errorMessage: string
    var passwordSuccessMessage: string
    var passwordErrorMessage: string

    constructor()
      ensures !isEditing && passwordData == EmptyPasswords
      ensures formData == [("fullName", Str("")), ("email", Str("")), ("phone", Str("")), ("companyName", Str(""))]
      ensures successMessage == "" && errorMessage == ""
      ensures passwordSuccessMessage == "" && passwordErrorMessage == ""
    {
      isEditing := false;
      formData := [("fullName", Str("")), ("email", Str("")), ("phone", Str("")), ("companyName", Str(""))];
      passwordData := EmptyPasswords;
      successMessage, errorMessage := "", "";
      passwordSuccessMessage, passwordErrorMessage := "", "";
    }

    /** The effect on `[user, isEditing]`: with a user and outside editing,
        the form is reloaded from the user; while editing, or without a
        user, it is kept. */
    method SyncWithUser(user: Option<Entries<Value>>)
      modifies this
      ensures user.Some? && !old(isEditing) ==> formData == Loaded(user.value)
      ensures !(user.Some? && !old(isEditing)) ==> formData == old(formData)
      ensures isEditing == old(isEditing) && passwordData == old(passwordData)
      ensures successMessage == old(successMessage) && errorMessage == old(errorMessage)
      ensures passwordSuccessMessage == old(passwordSuccessMessage) && passwordErrorMessage == old(passwordErrorMessage)
    {
      if user.Some? && !isEditing {
        formData := Loaded(user.value);
      }
    }

    /** The edit button toggles editing; the form's cancel button ends it. */
    method ToggleEditing()
      modifies this
      ensures isEditing == !old(isEditing) && formData == old(formData) && passwordData == old(passwordData)
      ensures successMessage == old(successMessage) && errorMessage == old(errorMessage)
      ensures passwordSuccessMessage == old(passwordSuccessMessage) && passwordErrorMessage == old(passwordErrorMessage)
    {
      isEditing := !isEditing;
    }

    method CancelEditing()
      modifies this
      ensures !isEditing && formData == old(formData) && passwordData == old(passwordData)
      ensures successMessage == old(successMessage) && errorMessage == old(errorMessage)
      ensures passwordSuccessMessage == old(passwordSuccessMessage) && passwordErrorMessage == old(passwordErrorMessage)
    {
      isEditing := false;
    }

    /** `handleChange`: the named profile field takes the value. */
    method HandleChange(name: string, value: string)
      modifies this
      ensures formData == Put(old(formData), name, Str(value))
      ensures isEditing == old(isEditing) && passwordData == old(passwordData)
      ensures successMessage == old(successMessage) && errorMessage == old(errorMessage)
      ensures passwordSuccessMessage == old(passwordSuccessMessage) && passwordErrorMessage == old(passwordErrorMessage)
    {
      formData := Put(formData, name, Str(value));
    }

    /** `handlePhoneChange`: the phone shows the masked input; no other
        field changes. */
    method HandlePhoneChange(input: string)
      modifies this
      ensures formData == WithMaskedPhone(old(formData), "phone", input)
      ensures isEditing == old(isEditing) && passwordData == old(passwordData)
      ensures successMessage == old(successMessage) && errorMessage == old(errorMessage)
      ensures passwordSuccessMessage == old(passwordSuccessMessage) && passwordErrorMessage == old(passwordErrorMessage)
    {
      formData := WithMaskedPhone(formData, "phone", input);
    }

    /** `handleSubmit`: the profile data goes to `updateProfile`; success
        shows the success message, clears the error and ends editing, a
        failure shows the reply's message, an exception the fixed one. */
    method HandleSubmit(reply: Reply<Entries<Value>>) returns (profileData: FormData)
      modifies this
      ensures profileData == ProfileData(old(formData)) && formData == old(formData)
      ensures reply.Ok? ==> successMessage == ProfileUpdated && errorMessage == "" && !isEditing
      ensures reply.Rejected? ==> successMessage == old(successMessage) && errorMessage == reply.message && isEditing == old(isEditing)
      ensures reply.Thrown? ==> successMessage == old(successMessage) && errorMessage == ProfileFailed && isEditing == old(isEditing)
      ensures passwordData == old(passwordData)
      ensures passwordSuccessMessage == old(passwordSuccessMessage) && passwordErrorMessage == old(passwordErrorMessage)
    {
      profileData := ProfileData(formData);
      match reply
      case Ok(_) =>
        successMessage := ProfileUpdated;
        errorMessage := "";
        isEditing := false;
      case Rejected(message) =>
        errorMessage := message;
      case Thrown(_) =>
        errorMessage := ProfileFailed;
    }

    /** The timer three seconds after a successful save. */
    method ExpireSuccessMessage()
      modifies this
      ensures successMessage == "" && errorMessage == old(errorMessage)
      ensures isEditing == old(isEditing) && formData == old(formData) && passwordData == old(passwordData)
      ensures passwordSuccessMessage == old(passwordSuccessMessage) && passwordErrorMessage == old(passwordErrorMessage)
    {
      successMessage := "";
    }

    /** `handlePasswordChange`: the field takes the value and both password
        messages are cleared. */
    method HandlePasswordChange(name: string, value: string)
      modifies this
      ensures passwordData == Put(old(passwordData), name, Str(value))
      ensures passwordSuccessMessage == "" && passwordErrorMessage == ""
      ensures isEditing == old(isEditing) && formData == old(formData)
      ensures successMessage == old(successMessage) && errorMessage == old(errorMessage)
    {
      passwordData := Put(passwordData, name, Str(value));
      if passwordErrorMessage != "" {
        passwordErrorMessage := "";
      }
      if passwordSuccessMessage != "" {
        passwordSuccessMessage := "";
      }
    }

    /** `handlePasswordSubmit`: different new passwords show the mismatch
        message and call nothing; otherwise the current and the new password
        are sent, and a success shows its message and empties the form. */
    method HandlePasswordSubmit(reply: Reply<()>) returns (request: Option<(Value, Value)>)
      modifies this
      ensures var newPassword := Prop(old(passwordData), "newPassword");
              newPassword != Prop(old(passwordData), "confirmPassword") ==>
                request == None && passwordErrorMessage == PasswordsDiffer
                && passwordData == old(passwordData) && passwordSuccessMessage == old(passwordSuccessMessage)
      ensures Prop(old(passwordData), "newPassword") == Prop(old(passwordData), "confirmPassword") ==>
                request == Some((Prop(old(passwordData), "currentPassword"), Prop(old(passwordData), "newPassword")))
      ensures request.Some? && reply.Ok? ==>
                passwordData == EmptyPasswords && passwordSuccessMessage == PasswordChanged && passwordErrorMessage == ""
      ensures request.Some? && !reply.Ok? ==>
                passwordData == old(passwordData) && passwordSuccessMessage == old(passwordSuccessMessage)
                && passwordErrorMessage == OrText(reply.message, PasswordFailed)
      ensures isEditing == old(isEditing) && formData == old(formData)
      ensures successMessage == old(successMessage) && errorMessage == old(errorMessage)
    {
      if Prop(passwordData, "newPassword") != Prop(passwordData, "confirmPassword") {
        passwordErrorMessage := PasswordsDiffer;
        request := None;
        return;
      }
      request := Some((Prop(passwordData, "currentPassword"), Prop(passwordData, "newPassword")));
      if reply.Ok? {
        passwordSuccessMessage := PasswordChanged;
        passwordErrorMessage := "";
        passwordData := EmptyPasswords;
      } else {
        passwordErrorMessage := OrText(reply.message, PasswordFailed);
      }
    }

    /** The password form's cancel button: the fields are emptied and both
        password messages cleared. */
    method CancelPassword()
      modifies this
      ensures passwordData == EmptyPasswords && passwordSuccessMessage == "" && passwordErrorMessage == ""
      ensures isEditing == old(isEditing) && formData == old(formData)
      ensures successMessage == old(successMessage) && errorMessage == old(errorMessage)
    {
      passwordData := EmptyPasswords;
      passwordErrorMessage := "";
      passwordSuccessMessage := "";
    }
  }

  /** After a successful change or a cancel, the password form is empty and
      its two new-password fields agree, so the handler's own match check
      does not stop it; only the inputs' `required` attributes keep the
      browser from submitting it. */
  lemma {:induction false} EmptyPasswordsMatch()
    ensures Prop(EmptyPasswords, "newPassword") == Prop(EmptyPasswords, "confirmPassword") == Str("")
    ensures Prop(EmptyPasswords, "currentPassword") == Str("")
    ensures Keys(EmptyPasswords) == PasswordKeys
  {
    GetFirst(EmptyPasswords, 0);
    GetFirst(EmptyPasswords, 1);
    GetFirst(EmptyPasswords, 2);
  }
}
