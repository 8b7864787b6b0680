/** The creation form of src/components/auth/ApplicationForm.jsx: camelCase
    fields with the contact fields taken from the signed-in user, the phone
    keystroke mask, the creation checks, and the application data sent to
    `createApplication`, whose reply is a parameter. A failure leaves one
    general message; a success hands the application to `onSuccess`. */
module AuthCreateApplication {
  import opened JsValue
  import opened JsObject
  import opened JsText
  import opened PhoneNormalizer
  import opened PhoneMask
  import opened Forms
  import opened Records

  const CreateFailed := "Ошибка создания заявки"

  const HeadKeys: seq<string> := ["title", "description", "serviceType"]

  /** The contact fields, matching the user's `UserKeys` one to one. */
  const ContactKeys: seq<string> := ["contactFullName", "contactEmail", "contactPhone", "companyName"]

  lemma {:induction false} FormKeysDistinct()
    ensures DistinctKeys(HeadKeys + ContactKeys) && |ContactKeys| == |UserKeys|
    ensures ContactKeys[2] == "contactPhone"
  {
  }

  /** The initial form: title, description and service type empty, the
      contact fields from the user, and no budget range. */
  function InitialForm(user: Option<Entries<Value>>): FormData
  {
    Initial(HeadKeys, user, ContactKeys, UserKeys, [("budgetRange", Str(""))])
  }

  /** The initial form has the eight fields in order; the contact fields are
      the user's when truthy and "" otherwise, also without a user. */
  lemma {:induction false} InitialFormFields(user: Option<Entries<Value>>)
    ensures Keys(InitialForm(user)) == HeadKeys + ContactKeys + ["budgetRange"]
    ensures forall i :: 0 <= i < 3 ==> Get(InitialForm(user), HeadKeys[i]) == Some(Str(""))
    ensures forall i :: 0 <= i < 4 ==> Get(InitialForm(user), ContactKeys[i]) == Some(UserField(user, UserKeys[i]))
  {
    FormKeysDistinct();
    InitialFields(HeadKeys, user, ContactKeys, UserKeys, [("budgetRange", Str(""))]);
  }

  /** The checks of `handleSubmit`: the creation checks under camelCase keys. */
  function FormErrors(formData: FormData): Errors {
    NamesAreDistinct();
    CreationErrors(formData, CamelNames)
  }

  /** An application is created exactly when the title has five characters
      and is not blank, a service type is chosen and the contact name, email
      and phone are not blank. */
  lemma {:induction false} FormErrorsEmptyIff(formData: FormData)
    ensures FormErrors(formData) == [] <==>
              |Text(formData, "title")| >= 5 && !IsBlank(Text(formData, "title"))
              && Truthy(Prop(formData, "serviceType")) && !IsBlank(Text(formData, "contactFullName"))
              && !IsBlank(Text(formData, "contactEmail")) && !IsBlank(Text(formData, "contactPhone"))
  {
    NamesAreDistinct();
    CreationErrorsEmptyIff(formData, CamelNames);
  }

  /** The application data: the form with only `contactPhone` normalized. */
  function ApplicationData(formData: FormData): FormData {
    WithServerPhone(formData, "contactPhone")
  }

  /** A signed-in user with a canonical phone who submits the initial
      contact phone sends that phone unchanged; the other fields go out as
      they are in the form. */
  lemma {:induction false} InitialPhoneRoundTrip(user: Entries<Value>)
    requires Prop(user, "phone").Str? && IsCanonical(Prop(user, "phone").s)
    ensures Text(ApplicationData(InitialForm(Some(user))), "contactPhone") == Prop(user, "phone").s
    ensures forall k :: k != "contactPhone" ==> Get(ApplicationData(InitialForm(Some(user))), k) == Get(InitialForm(Some(user)), k)
  {
    InitialFormFields(Some(user));
    FormKeysDistinct();
    assert Text(InitialForm(Some(user)), "contactPhone") == Prop(user, "phone").s;
    CanonicalIsFixed(Prop(user, "phone").s);
  }

  class ApplicationForm {
    var formData: FormData
    var errors: Errors
    var isLoading: bool

    constructor(user: Option<Entries<Value>>)
      ensures formData == InitialForm(user) && errors == [] && !isLoading
    {
      formData := InitialForm(user);
      errors := [];
      isLoading := false;
    }

    /** `handleChange`: the field takes the value and only its own message
        is cleared. */
    method HandleChange(name: string, value: string)
      modifies this
      ensures formData == Put(old(formData), name, Str(value))
      ensures errors == ClearError(old(errors), name) && isLoading == old(isLoading)
    {
      formData := Put(formData, name, Str(value));
      errors := ClearError(errors, name);
    }

    /** `handlePhoneChange`: only the contact phone changes. */
    method HandlePhoneChange(input: string)
      modifies this
      ensures formData == WithMaskedPhone(old(formData), "contactPhone", input)
      ensures errors == old(errors) && isLoading == old(isLoading)
    {
      formData := WithMaskedPhone(formData, "contactPhone", input);
    }

    /** `handleSubmit`: with messages, nothing is sent; otherwise the
        application data is sent, a success hands the created application to
        `onSuccess`, and a failure or an exception replaces every message
        by the general one. */
    method HandleSubmit(reply: Reply<Record>) returns (request: Option<FormData>, handedToParent: Option<Record>)
      modifies this
      ensures formData == old(formData)
      ensures FormErrors(formData) != [] ==>
                request == None && handedToParent == None && errors == FormErrors(formData) && isLoading == old(isLoading)
      ensures FormErrors(formData) == [] ==> request == Some(ApplicationData(formData)) && !isLoading
      ensures request.Some? && reply.Ok? ==> handedToParent == Some(reply.data) && errors == old(errors)
      ensures request.Some? && reply.Rejected? ==> handedToParent == None && errors == [("general", reply.message)]
      ensures request.Some? && reply.Thrown? ==> handedToParent == None && errors == [("general", CreateFailed)]
    {
      var newErrors := FormErrors(formData);
      if newErrors != [] {
        errors := newErrors;
        request, handedToParent := None, None;
        return;
      }
      isLoading := true;
      request := Some(ApplicationData(formData));
      match reply {
        case Ok(application) =>
          handedToParent := Some(application);
        case Rejected(message) =>
          handedToParent := None;
          errors := [("general", message)];
        case Thrown(_) =>
          handedToParent := None;
          errors := [("general", CreateFailed)];
      }
      isLoading := false;
    }
  }
}
