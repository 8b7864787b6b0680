/** The client's edit form of src/components/auth/EditApplicationForm.jsx:
    nine camelCase fields loaded from the snake_case application with
    fallbacks, the standard phone mask, `validateForm` with the email pattern
    and one error toast per message, and the nine fields sent back to
    `updateApplication` under snake_case names. The reply is a parameter. */
module AuthEditApplication {
  import opened JsValue
  import opened JsObject
  import opened JsText
  import opened PhoneNormalizer
  import opened PhoneMask
  import opened Forms
  import opened Records
  import ApplicationsApi

  const Updated := "Заявка успешно обновлена"
  const UpdateFailed := "Ошибка обновления заявки"

  /** The form's fields. */
  const FormKeys: seq<string> :=
    ["title", "serviceType", "description", "contactFullName", "contactEmail", "contactPhone",
     "companyName", "budgetRange", "priority"]

  /** The application's fields: where each form field is loaded from, and
      the name it is sent under. */
  const ApplicationKeys: seq<string> :=
    ["title", "service_type", "description", "contact_full_name", "contact_email", "contact_phone",
     "company_name", "budget_range", "priority"]

  /** What a missing or falsy field of the application loads as. */
  const Defaults: seq<Value> :=
    [Str(""), Str(""), Str(""), Str(""), Str(""), Str(""), Str(""), Str("negotiable"), Str("medium")]

  const InitialForm: FormData :=
    [("title", Str("")), ("serviceType", Str("")), ("description", Str("")), ("contactFullName", Str("")),
     ("contactEmail", Str("")), ("contactPhone", Str("")), ("companyName", Str("")),
     ("budgetRange", Str("negotiable")), ("priority", Str("medium"))]

  lemma {:induction false} KeysDistinct()
    ensures DistinctKeys(FormKeys) && DistinctKeys(ApplicationKeys)
    ensures |FormKeys| == |ApplicationKeys| == |Defaults| == 9
    ensures FormKeys[5] == "contactPhone" && ApplicationKeys[5] == "contact_phone"
  {
  }

  /** The form's names and the application's are the two sides of the key
      mapping of the applications API: each form field is sent under the
      name that mapping gives it. */
  lemma {:induction false} NamesFollowApiMapping()
    ensures forall i :: 0 <= i < 9 ==> ApplicationsApi.SnakeKey(FormKeys[i]) == ApplicationKeys[i]
  {
    forall i | 0 <= i < 9 ensures ApplicationsApi.SnakeKey(FormKeys[i]) == ApplicationKeys[i] {
      assert i in {0, 1, 2, 3, 4, 5, 6, 7, 8};
    }
  }

  /** The load effect: every form field from its application field, or its
      default. */
  function Loaded(application: Record): FormData
  {
    Fallback(application, FormKeys, ApplicationKeys, Defaults)
  }

  /** The loaded form has the nine fields in order, each the application's
      field of the same meaning when truthy and its default otherwise. */
  lemma {:induction false} LoadedFields(application: Record)
    ensures Keys(Loaded(application)) == FormKeys
    ensures forall i :: 0 <= i < 9 ==>
              Get(Loaded(application), FormKeys[i]) ==
                Some(if Truthy(Prop(application, ApplicationKeys[i])) then Prop(application, ApplicationKeys[i]) else Defaults[i])
  {
    KeysDistinct();
    LiteralGet(Loaded(application), FormKeys);
  }

  /** Loading an application without fields gives the initial form. */
  lemma {:induction false} LoadingNothingGivesInitial()
    ensures Loaded([]) == InitialForm
  {
    var r := Loaded([]);
    forall i | 0 <= i < 9 ensures r[i] == InitialForm[i] {
      assert Prop([], ApplicationKeys[i]) == Undefined;
    }
  }

  /** The checks of `validateForm`, with the contact-name check. */
  function FormErrors(formData: FormData): Errors {
    NamesAreDistinct();
    EditErrors(formData, CamelNames, true)
  }

  /** The form is valid exactly when title, description, contact name and
      phone are not blank, a service type is chosen and the email matches
      the pattern. */
  lemma {:induction false} FormErrorsEmptyIff(formData: FormData)
    ensures FormErrors(formData) == [] <==>
              !IsBlank(Text(formData, "title")) && Truthy(Prop(formData, "serviceType"))
              && !IsBlank(Text(formData, "description")) && !IsBlank(Text(formData, "contactFullName"))
              && MatchesEmail(Text(formData, "contactEmail")) && !IsBlank(Text(formData, "contactPhone"))
  {
    NamesAreDistinct();
    EditErrorsEmptyIff(formData, CamelNames, true);
  }

  /** The application data: each form field under its application name,
      the contact phone normalized. */
  function ApplicationData(formData: FormData): FormData {
    WithServerPhone(Project(formData, ApplicationKeys, FormKeys), "contact_phone")
  }

  /** The application data has exactly the nine application fields; the
      contact phone is the form's normalized, and every other field is the
      form field the API's key mapping sends to that name. */
  lemma {:induction false} ApplicationDataShape(formData: FormData)
    ensures Keys(ApplicationData(formData)) == ApplicationKeys
    ensures Text(ApplicationData(formData), "contact_phone") == ExtractPhoneForServer(Text(formData, "contactPhone"))
    ensures forall i :: 0 <= i < 9 && i != 5 ==>
              Prop(ApplicationData(formData), ApplicationsApi.SnakeKey(FormKeys[i])) == Prop(formData, FormKeys[i])
  {
    KeysDistinct();
    NamesFollowApiMapping();
    ProjectGet(formData, ApplicationKeys, FormKeys);
    HasIffInKeys(Project(formData, ApplicationKeys, FormKeys), "contact_phone");
  }

  /** Saving a loaded application without edits sends back every field but
      the phone as the application had it when truthy, and its default
      otherwise. */
  lemma {:induction false} LoadThenSave(application: Record)
    ensures forall i :: 0 <= i < 9 && i != 5 ==>
              Prop(ApplicationData(Loaded(application)), ApplicationKeys[i]) ==
                if Truthy(Prop(application, ApplicationKeys[i])) then Prop(application, ApplicationKeys[i]) else Defaults[i]
  {
    NamesFollowApiMapping();
    LoadedFields(application);
    ApplicationDataShape(Loaded(application));
  }

  /** A stored canonical phone goes back unchanged when a loaded
      application is saved without edits. */
  lemma {:induction false} StoredPhoneRoundTrip(application: Record)
    requires Prop(application, "contact_phone").Str? && IsCanonical(Prop(application, "contact_phone").s)
    ensures Text(ApplicationData(Loaded(application)), "contact_phone") == Prop(application, "contact_phone").s
  {
    var d := Prop(application, "contact_phone").s;
    KeysDistinct();
    LoadedFields(application);
    ApplicationDataShape(Loaded(application));
    assert Text(Loaded(application), "contactPhone") == d;
    CanonicalIsFixed(d);
  }

  class EditApplicationForm {
    var formData: FormData
    /** `formData.attachments`: loaded from the application, never sent. */
    var attachments: seq<Record>
    var errors: Errors
    var isSubmitting: bool

    constructor()
      ensures formData == InitialForm && attachments == [] && errors == [] && !isSubmitting
    {
      formData := InitialForm;
      attachments := [];
      errors := [];
      isSubmitting := false;
    }

    /** The effect on `[application]`: with an application the form is
        loaded and the attachments are its files, or none; without one
        nothing changes. */
    method Load(application: Option<Record>, files: Option<seq<Record>>)
      modifies this
      ensures application.Some? ==> formData == Loaded(application.value) && attachments == files.GetOr([])
      ensures application.None? ==> formData == old(formData) && attachments == old(attachments)
      ensures errors == old(errors) && isSubmitting == old(isSubmitting)
    {
      if application.Some? {
        formData := Loaded(application.value);
        attachments := files.GetOr([]);
      }
    }

    /** `handleChange`: the field takes the value and only its own message
        is cleared. */
    method HandleChange(name: string, value: string)
      modifies this
      ensures formData == Put(old(formData), name, Str(value))
      ensures errors == ClearError(old(errors), name)
      ensures attachments == old(attachments) && isSubmitting == old(isSubmitting)
    {
      formData := Put(formData, name, Str(value));
      errors := ClearError(errors, name);
    }

    /** `handlePhoneChange`: only the contact phone changes, to the standard
        mask of the input. */
    method HandlePhoneChange(input: string)
      modifies this
      ensures formData == WithMaskedPhone(old(formData), "contactPhone", input)
      ensures errors == old(errors) && attachments == old(attachments) && isSubmitting == old(isSubmitting)
    {
      formData := WithMaskedPhone(formData, "contactPhone", input);
    }

    /** `validateForm`: the messages replace the old ones, each shows as an
        error toast in order, and the form is valid exactly when there is
        none. */
    method ValidateForm() returns (valid: bool, toasts: seq<ToastRequest>)
      modifies this
      ensures errors == FormErrors(formData) && (valid <==> errors == [])
      ensures |toasts| == |errors| && forall i :: 0 <= i < |toasts| ==> toasts[i] == ToastRequest(errors[i].1, "error")
      ensures formData == old(formData) && attachments == old(attachments) && isSubmitting == old(isSubmitting)
    {
      errors := FormErrors(formData);
      toasts := ErrorToasts(Values(errors));
      valid := |errors| == 0;
    }

    /** `handleSubmit`: an invalid form sends nothing; otherwise the nine
        fields are sent under the application's id, a success hands the
        updated application to `onSave`, and every outcome shows one more
        toast. */
    method HandleSubmit(application: Record, reply: Reply<Record>)
      returns (request: Option<(Value, FormData)>, toasts: seq<ToastRequest>, saved: Option<Record>)
      modifies this
      ensures errors == FormErrors(formData) && formData == old(formData) && attachments == old(attachments)
      ensures errors != [] ==> request == None && saved == None && isSubmitting == old(isSubmitting)
      ensures errors != [] ==> |toasts| == |errors|
                               && forall i :: 0 <= i < |toasts| ==> toasts[i] == ToastRequest(errors[i].1, "error")
      ensures errors == [] ==> request == Some((IdOf(application), ApplicationData(formData))) && !isSubmitting
      ensures errors == [] && reply.Ok? ==> saved == Some(reply.data) && toasts == [ToastRequest(Updated, "success")]
      ensures errors == [] && reply.Rejected? ==>
                saved == None && toasts == [ToastRequest(OrText(reply.message, UpdateFailed), "error")]
      ensures errors == [] && reply.Thrown? ==> saved == None && toasts == [ToastRequest(UpdateFailed, "error")]
    {
      var valid;
      valid, toasts := ValidateForm();
      if !valid {
        request, saved := None, None;
        return;
      }
      var data;
      data, toasts, saved := Send(reply);
      request := Some((IdOf(application), data));
    }

    /** The sending half of `handleSubmit`: submitting is on during the call
        and off after it, whatever the outcome. */
    method Send(reply: Reply<Record>) returns (data: FormData, toasts: seq<ToastRequest>, saved: Option<Record>)
      modifies this
      ensures data == ApplicationData(formData) && !isSubmitting
      ensures formData == old(formData) && errors == old(errors) && attachments == old(attachments)
      ensures reply.Ok? ==> saved == Some(reply.data) && toasts == [ToastRequest(Updated, "success")]
      ensures reply.Rejected? ==> saved == None && toasts == [ToastRequest(OrText(reply.message, UpdateFailed), "error")]
      ensures reply.Thrown? ==> saved == None && toasts == [ToastRequest(UpdateFailed, "error")]
    {
      isSubmitting := true;
      data := ApplicationData(formData);
      match reply {
        case Ok(updated) =>
          saved := Some(updated);
          toasts := [ToastRequest(Updated, "success")];
        case Rejected(message) =>
          saved := None;
          toasts := [ToastRequest(OrText(message, UpdateFailed), "error")];
        case Thrown(_) =>
          saved := None;
          toasts := [ToastRequest(UpdateFailed, "error")];
      }
      isSubmitting := false;
    }
  }
}
