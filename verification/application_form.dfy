/** The dashboard's creation form of src/components/applications/ApplicationForm.jsx:
    snake_case fields with the contact fields taken from the signed-in user,
    the phone keystroke mask, the creation checks with one error toast per
    message, and the application data sent to `createApplication`, whose
    reply is a parameter. A created application is kept to attach files to. */
module CreateApplication {
  import opened JsValue
  import opened JsObject
  import opened JsText
  import opened PhoneNormalizer
  import opened PhoneMask
  import opened Forms
  import opened Records

  const Created := "Заявка успешно создана"
  const CreateFailed := "Ошибка создания заявки"

  const HeadKeys: seq<string> := ["title", "description", "service_type"]

  /** The contact fields, matching the user's `UserKeys` one to one. */
  const ContactKeys: seq<string> := ["contact_full_name", "contact_email", "contact_phone", "company_name"]

  lemma {:induction false} FormKeysDistinct()
    ensures DistinctKeys(HeadKeys + ContactKeys) && |ContactKeys| == |UserKeys|
    ensures ContactKeys[2] == "contact_phone"
  {
  }

  /** The initial form: title, description and service type empty, the
      contact fields from the user, and no expected budget. */
  function InitialForm(user: Option<Entries<Value>>): FormData
  {
    Initial(HeadKeys, user, ContactKeys, UserKeys, [("expected_budget", Null)])
  }

  /** The initial form has the eight fields in order; the contact fields are
      the user's when truthy and "" otherwise, also without a user. */
  lemma {:induction false} InitialFormFields(user: Option<Entries<Value>>)
    ensures Keys(InitialForm(user)) == HeadKeys + ContactKeys + ["expected_budget"]
    ensures forall i :: 0 <= i < 3 ==> Get(InitialForm(user), HeadKeys[i]) == Some(Str(""))
    ensures forall i :: 0 <= i < 4 ==> Get(InitialForm(user), ContactKeys[i]) == Some(UserField(user, UserKeys[i]))
  {
    FormKeysDistinct();
    InitialFields(HeadKeys, user, ContactKeys, UserKeys, [("expected_budget", Null)]);
  }

  /** The checks of `handleSubmit`: the creation checks under snake_case keys. */
  function FormErrors(formData: FormData): Errors {
    NamesAreDistinct();
    CreationErrors(formData, SnakeNames)
  }

  /** An application is created exactly when the title has five characters
      and is not blank, a service type is chosen and the contact name, email
      and phone are not blank. */
  lemma {:induction false} FormErrorsEmptyIff(formData: FormData)
    ensures FormErrors(formData) == [] <==>
              |Text(formData, "title")| >= 5 && !IsBlank(Text(formData, "title"))
              && Truthy(Prop(formData, "service_type")) && !IsBlank(Text(formData, "contact_full_name"))
              && !IsBlank(Text(formData, "contact_email")) && !IsBlank(Text(formData, "contact_phone"))
  {
    NamesAreDistinct();
    CreationErrorsEmptyIff(formData, SnakeNames);
  }

  /** The application data: the form with only `contact_phone` normalized. */
  function ApplicationData(formData: FormData): FormData {
    WithServerPhone(formData, "contact_phone")
  }

  /** A signed-in user with a canonical phone who submits the initial
      contact phone sends that phone unchanged, and every other field goes
      out as it is in the form. */
  lemma {:induction false} InitialPhoneRoundTrip(user: Entries<Value>)
    requires Prop(user, "phone").Str? && IsCanonical(Prop(user, "phone").s)
    ensures Text(ApplicationData(InitialForm(Some(user))), "contact_phone") == Prop(user, "phone").s
    ensures forall k :: k != "contact_phone" ==> Get(ApplicationData(InitialForm(Some(user))), k) == Get(InitialForm(Some(user)), k)
  {
    InitialFormFields(Some(user));
    FormKeysDistinct();
    assert Text(InitialForm(Some(user)), "contact_phone") == Prop(user, "phone").s;
    CanonicalIsFixed(Prop(user, "phone").s);
  }

  class ApplicationForm {
    var formData: FormData
    var createdApplication: Option<Record>
    var errors: Errors
    var isLoading: bool

    constructor(user: Option<Entries<Value>>)
      ensures formData == InitialForm(user) && createdApplication == None && errors == [] && !isLoading
    {
      formData := InitialForm(user);
      createdApplication := None;
      errors := [];
      isLoading := false;
    }

    /** `handleChange`: the field takes the value and only its own message
        is cleared. */
    method HandleChange(name: string, value: string)
      modifies this
      ensures formData == Put(old(formData), name, Str(value))
      ensures errors == ClearError(old(errors), name)
      ensures createdApplication == old(createdApplication) && isLoading == old(isLoading)
    {
      formData := Put(formData, name, Str(value));
      errors := ClearError(errors, name);
    }

    /** `handlePhoneChange`: only the contact phone changes. */
    method HandlePhoneChange(input: string)
      modifies this
      ensures formData == WithMaskedPhone(old(formData), "contact_phone", input)
      ensures errors == old(errors) && createdApplication == old(createdApplication) && isLoading == old(isLoading)
    {
      formData := WithMaskedPhone(formData, "contact_phone", input);
    }

    /** `handleSubmit`: with messages, each shows as an error toast in order
        and nothing is sent; otherwise the application data is sent, a
        success keeps the created application, and every outcome ends with
        one toast and loading off. */
    method HandleSubmit(reply: Reply<Record>) returns (request: Option<FormData>, toasts: seq<ToastRequest>)
      modifies this
      ensures formData == old(formData)
      ensures FormErrors(formData) != [] ==>
                request == None && errors == FormErrors(formData)
                && |toasts| == |errors| && (forall i :: 0 <= i < |toasts| ==> toasts[i] == ToastRequest(errors[i].1, "error"))
                && createdApplication == old(createdApplication) && isLoading == old(isLoading)
      ensures FormErrors(formData) == [] ==> request == Some(ApplicationData(formData)) && errors == old(errors) && !isLoading
      ensures request.Some? && reply.Ok? ==>
                createdApplication == Some(reply.data) && toasts == [ToastRequest(Created, "success")]
      ensures request.Some? && reply.Rejected? ==>
                createdApplication == old(createdApplication) && toasts == [ToastRequest(reply.message, "error")]
      ensures request.Some? && reply.Thrown? ==>
                createdApplication == old(createdApplication) && toasts == [ToastRequest(CreateFailed, "error")]
    {
      var newErrors := FormErrors(formData);
      if newErrors != [] {
        errors := newErrors;
        toasts := ErrorToasts(Values(newErrors));
        request := None;
      } else {
        var data;
        data, toasts := Send(reply);
        request := Some(data);
      }
    }

    /** The sending half of `handleSubmit`: loading is on during the call
        and off after it, whatever the outcome. */
    method Send(reply: Reply<Record>) returns (data: FormData, toasts: seq<ToastRequest>)
      modifies this
      ensures data == ApplicationData(formData) && formData == old(formData) && errors == old(errors) && !isLoading
      ensures reply.Ok? ==> createdApplication == Some(reply.data) && toasts == [ToastRequest(Created, "success")]
      ensures reply.Rejected? ==>
                createdApplication == old(createdApplication) && toasts == [ToastRequest(reply.message, "error")]
      ensures reply.Thrown? ==> createdApplication == old(createdApplication) && toasts == [ToastRequest(CreateFailed, "error")]
    {
      isLoading := true;
      data := ApplicationData(formData);
      match reply {
        case Ok(application) =>
          createdApplication := Some(application);
          toasts := [ToastRequest(Created, "success")];
        case Rejected(message) =>
          toasts := [ToastRequest(message, "error")];
        case Thrown(_) =>
          toasts := [ToastRequest(CreateFailed, "error")];
      }
      isLoading := false;
    }
  }
}
