/** The dashboard's edit form of src/components/applications/EditApplicationForm.jsx:
    nine snake_case fields loaded from the application with fallbacks, the
    variant phone mask (a leading 8 becomes 7, ten digits gain a 7),
    `validateForm` with the email pattern and one error toast per message,
    the nine fields sent to `updateApplication`, and the removal of an
    attached file. Every backend reply is a parameter. */
module EditApplication {
  import opened JsValue
  import opened JsObject
  import opened JsText
  import opened PhoneNormalizer
  import opened PhoneMask
  import opened Forms
  import opened Records

  const Updated := "Заявка успешно обновлена"
  const NotFound := "Заявка не найдена или была удалена"
  const NotFoundMarker := "не найдена"
  const UpdateFailed := "Ошибка обновления заявки"
  const FileDeleted := "Файл успешно удален"
  const DeleteFailed := "Ошибка удаления файла"

  const FormKeys: seq<string> :=
    ["title", "service_type", "description", "contact_full_name", "contact_email", "contact_phone",
     "company_name", "expected_budget", "priority"]

  /** What a missing or falsy field of the application loads as. */
  const Defaults: seq<Value> := [Str(""), Str(""), Str(""), Str(""), Str(""), Str(""), Str(""), Null, Str("medium")]

  const InitialForm: FormData :=
    [("title", Str("")), ("service_type", Str("")), ("description", Str("")), ("contact_full_name", Str("")),
     ("contact_email", Str("")), ("contact_phone", Str("")), ("company_name", Str("")),
     ("expected_budget", Null), ("priority", Str("medium"))]

  lemma {:induction false} FormKeysDistinct()
    ensures DistinctKeys(FormKeys) && |FormKeys| == |Defaults| == 9 && FormKeys[5] == "contact_phone"
  {
  }

  /** The load effect: every field from the application, or its default. */
  function Loaded(application: Record): FormData
  {
    Fallback(application, FormKeys, FormKeys, Defaults)
  }

  /** The loaded form has the nine fields in order, each the application's
      when truthy and its default otherwise. */
  lemma {:induction false} LoadedFields(application: Record)
    ensures Keys(Loaded(application)) == FormKeys
    ensures forall i :: 0 <= i < 9 ==>
              Get(Loaded(application), FormKeys[i]) ==
                Some(if Truthy(Prop(application, FormKeys[i])) then Prop(application, FormKeys[i]) else Defaults[i])
  {
    FormKeysDistinct();
    LiteralGet(Loaded(application), FormKeys);
  }

  /** The defaults of the load are the form's initial values: loading an
      application without fields gives the initial form. */
  lemma {:induction false} LoadingNothingGivesInitial()
    ensures Loaded([]) == InitialForm
  {
    var r := Loaded([]);
    forall i | 0 <= i < 9 ensures r[i] == InitialForm[i] {
      assert Prop([], FormKeys[i]) == Undefined;
    }
  }

  /** The checks of `validateForm`: no contact-name check in this form. */
  function FormErrors(formData: FormData): Errors {
    NamesAreDistinct();
    EditErrors(formData, SnakeNames, false)
  }

  /** The form is valid exactly when title, description and phone are not
      blank, a service type is chosen and the email matches the pattern. */
  lemma {:induction false} FormErrorsEmptyIff(formData: FormData)
    ensures FormErrors(formData) == [] <==>
              !IsBlank(Text(formData, "title")) && Truthy(Prop(formData, "service_type"))
              && !IsBlank(Text(formData, "description")) && MatchesEmail(Text(formData, "contact_email"))
              && !IsBlank(Text(formData, "contact_phone"))
  {
    NamesAreDistinct();
    EditErrorsEmptyIff(formData, SnakeNames, false);
  }

  /** The application data: the nine fields, the contact phone normalized. */
  function ApplicationData(formData: FormData): FormData {
    WithServerPhone(Project(formData, FormKeys, FormKeys), "contact_phone")
  }

  /** The application data has exactly the nine fields; the contact phone is
      the form's normalized and every other field is the form's. */
  lemma {:induction false} ApplicationDataShape(formData: FormData)
    ensures Keys(ApplicationData(formData)) == FormKeys
    ensures Text(ApplicationData(formData), "contact_phone") == ExtractPhoneForServer(Text(formData, "contact_phone"))
    ensures forall i :: 0 <= i < 9 && i != 5 ==> Prop(ApplicationData(formData), FormKeys[i]) == Prop(formData, FormKeys[i])
  {
    FormKeysDistinct();
    ProjectGet(formData, FormKeys, FormKeys);
    HasIffInKeys(Project(formData, FormKeys, FormKeys), "contact_phone");
  }

  /** Saving a loaded application without edits sends back every field but
      the phone as the application had it when truthy, and its default
      otherwise. */
  lemma {:induction false} LoadThenSave(application: Record)
    ensures forall i :: 0 <= i < 9 && i != 5 ==>
              Prop(ApplicationData(Loaded(application)), FormKeys[i]) ==
                if Truthy(Prop(application, FormKeys[i])) then Prop(application, FormKeys[i]) else Defaults[i]
  {
    LoadedFields(application);
    ApplicationDataShape(Loaded(application));
  }

  /** A stored canonical phone goes back unchanged when a loaded
      application is saved without edits. */
  lemma {:induction false} StoredPhoneRoundTrip(application: Record)
    requires Prop(application, "contact_phone").Str? && IsCanonical(Prop(application, "contact_phone").s)
    ensures Text(ApplicationData(Loaded(application)), "contact_phone") == Prop(application, "contact_phone").s
  {
    var d := Prop(application, "contact_phone").s;
    LoadedFields(application);
    ApplicationDataShape(Loaded(application));
    assert FormKeys[5] == "contact_phone";
    assert Text(Loaded(application), "contact_phone") == d;
    CanonicalIsFixed(d);
  }

  /** The phone keystroke handler of this form, with the variant mask. */
  function WithVariantPhone(formData: FormData, input: string): FormData {
    Put(formData, "contact_phone", Str(VariantMask(input)))
  }

  /** For the inputs the variant mask keeps the meaning of, the number sent
      is the one the typed input normalizes to. */
  lemma {:induction false} TypedPhoneIsSent(formData: FormData, input: string)
    requires var d := Digits(input);
             (|d| == 11 && (d[0] == '7' || d[0] == '8')) || (|d| == 10 && d[0] != '8')
    ensures Text(ApplicationData(WithVariantPhone(formData, input)), "contact_phone") == ExtractPhoneForServer(input)
  {
    ApplicationDataShape(WithVariantPhone(formData, input));
    VariantMaskPreservesNormalized(input);
  }

  /** The error toast of a rejected update: the not-found message when the
      reply's message mentions it, else the message or the fallback. */
  function UpdateFailureMessage(message: string): string {
    if message != "" && Contains(message, NotFoundMarker) then NotFound else OrText(message, UpdateFailed)
  }

  /** The toast of a rejected update is never empty, and a message without
      the marker is shown as it is. */
  lemma {:induction false} UpdateFailureMessageShown(message: string)
    ensures UpdateFailureMessage(message) != ""
    ensures message != "" && !Contains(message, NotFoundMarker) ==> UpdateFailureMessage(message) == message
    ensures Contains(message, NotFoundMarker) ==> UpdateFailureMessage(message) == NotFound
  {
    if Contains(message, NotFoundMarker) {
      var i :| 0 <= i <= |message| && OccursAt(message, NotFoundMarker, i);
      assert message[i..i + |NotFoundMarker|] == NotFoundMarker;
      assert |message| >= |NotFoundMarker| > 0;
    }
  }

  class EditApplicationForm {
    var formData: FormData
    var uploadedFiles: seq<Record>
    var errors: Errors
    var isSubmitting: bool

    constructor()
      ensures formData == InitialForm && uploadedFiles == [] && errors == [] && !isSubmitting
    {
      formData := InitialForm;
      uploadedFiles := [];
      errors := [];
      isSubmitting := false;
    }

    /** The effect on `[application]`: with an application the form is
        loaded and the file list is its files, or empty when it has none;
        without one nothing changes. */
    method Load(application: Option<Record>, files: Option<seq<Record>>)
      modifies this
      ensures application.Some? ==> formData == Loaded(application.value) && uploadedFiles == files.GetOr([])
      ensures application.None? ==> formData == old(formData) && uploadedFiles == old(uploadedFiles)
      ensures errors == old(errors) && isSubmitting == old(isSubmitting)
    {
      if application.Some? {
        formData := Loaded(application.value);
        uploadedFiles := files.GetOr([]);
      }
    }

    /** The effect on `[application?.files]`: present files replace the list
        (`files` is None also when there is no application). */
    method SyncFiles(files: Option<seq<Record>>)
      modifies this
      ensures files.Some? ==> uploadedFiles == files.value
      ensures files.None? ==> uploadedFiles == old(uploadedFiles)
      ensures formData == old(formData) && errors == old(errors) && isSubmitting == old(isSubmitting)
    {
      if files.Some? {
        uploadedFiles := files.value;
      }
    }

    /** `handleChange`: the field takes the value and only its own message
        is cleared. */
    method HandleChange(name: string, value: string)
      modifies this
      ensures formData == Put(old(formData), name, Str(value))
      ensures errors == ClearError(old(errors), name)
      ensures uploadedFiles == old(uploadedFiles) && isSubmitting == old(isSubmitting)
    {
      formData := Put(formData, name, Str(value));
      errors := ClearError(errors, name);
    }

    /** `handlePhoneChange`: only the contact phone changes, to the variant
        mask of the input. */
    method HandlePhoneChange(input: string)
      modifies this
      ensures formData == WithVariantPhone(old(formData), input)
      ensures errors == old(errors) && uploadedFiles == old(uploadedFiles) && isSubmitting == old(isSubmitting)
    {
      formData := WithVariantPhone(formData, input);
    }

    /** `validateForm`: the messages replace the old ones, each shows as an
        error toast in order, and the form is valid exactly when there is
        none. */
    method ValidateForm() returns (valid: bool, toasts: seq<ToastRequest>)
      modifies this
      ensures errors == FormErrors(formData) && (valid <==> errors == [])
      ensures |toasts| == |errors| && forall i :: 0 <= i < |toasts| ==> toasts[i] == ToastRequest(errors[i].1, "error")
      ensures formData == old(formData) && uploadedFiles == old(uploadedFiles) && isSubmitting == old(isSubmitting)
    {
      errors := FormErrors(formData);
      toasts := ErrorToasts(Values(errors));
      valid := |errors| == 0;
    }

    /** `handleSubmit`: an invalid form sends nothing; otherwise the nine
        fields are sent under the application's id, a success hands the
        updated application to `onSave`, and every outcome shows one more
        toast. */
    method HandleSubmit(application: Record, reply: Reply<Record>)
      returns (request: Option<(Value, FormData)>, toasts: seq<ToastRequest>, saved: Option<Record>)
      modifies this
      ensures errors == FormErrors(formData) && formData == old(formData) && uploadedFiles == old(uploadedFiles)
      ensures errors != [] ==> request == None && saved == None && isSubmitting == old(isSubmitting)
      ensures errors != [] ==> |toasts| == |errors|
                               && forall i :: 0 <= i < |toasts| ==> toasts[i] == ToastRequest(errors[i].1, "error")
      ensures errors == [] ==> request == Some((IdOf(application), ApplicationData(formData))) && !isSubmitting
      ensures errors == [] && reply.Ok? ==> saved == Some(reply.data) && toasts == [ToastRequest(Updated, "success")]
      ensures errors == [] && reply.Rejected? ==>
                saved == None && toasts == [ToastRequest(UpdateFailureMessage(reply.message), "error")]
      ensures errors == [] && reply.Thrown? ==> saved == None && toasts == [ToastRequest(UpdateFailed, "error")]
    {
      var valid;
      valid, toasts := ValidateForm();
      if !valid {
        request, saved := None, None;
        return;
      }
      var data;
      data, toasts, saved := Send(reply);
      request := Some((IdOf(application), data));
    }

    /** The sending half of `handleSubmit`: submitting is on during the call
        and off after it, whatever the outcome. */
    method Send(reply: Reply<Record>) returns (data: FormData, toasts: seq<ToastRequest>, saved: Option<Record>)
      modifies this
      ensures data == ApplicationData(formData) && !isSubmitting
      ensures formData == old(formData) && errors == old(errors) && uploadedFiles == old(uploadedFiles)
      ensures reply.Ok? ==> saved == Some(reply.data) && toasts == [ToastRequest(Updated, "success")]
      ensures reply.Rejected? ==> saved == None && toasts == [ToastRequest(UpdateFailureMessage(reply.message), "error")]
      ensures reply.Thrown? ==> saved == None && toasts == [ToastRequest(UpdateFailed, "error")]
    {
      isSubmitting := true;
      data := ApplicationData(formData);
      match reply {
        case Ok(updated) =>
          saved := Some(updated);
          toasts := [ToastRequest(Updated, "success")];
        case Rejected(message) =>
          saved := None;
          toasts := [ToastRequest(UpdateFailureMessage(message), "error")];
        case Thrown(_) =>
          saved := None;
          toasts := [ToastRequest(UpdateFailed, "error")];
      }
      isSubmitting := false;
    }

    /** `handleDeleteFile`: success drops the files with that id and keeps
        the rest in order; a rejected reply is rethrown with its message (or
        the fallback), and every error shows that message after the prefix. */
    method HandleDeleteFile(fileId: Value, reply: Reply<()>) returns (toasts: seq<ToastRequest>)
      modifies this
      ensures reply.Ok? ==> uploadedFiles == RemoveById(old(uploadedFiles), fileId)
                            && |uploadedFiles| == |old(uploadedFiles)| - CountId(old(uploadedFiles), fileId)
                            && toasts == [ToastRequest(FileDeleted, "success")]
      ensures reply.Rejected? ==> uploadedFiles == old(uploadedFiles)
                                  && toasts == [ToastRequest(DeleteFailed + ": " + OrText(reply.message, DeleteFailed), "error")]
      ensures reply.Thrown? ==> uploadedFiles == old(uploadedFiles)
                                && toasts == [ToastRequest(DeleteFailed + ": " + reply.message, "error")]
      ensures formData == old(formData) && errors == old(errors) && isSubmitting == old(isSubmitting)
    {
      match reply {
        case Ok(_) =>
          RemoveByIdLength(uploadedFiles, fileId);
          uploadedFiles := RemoveById(uploadedFiles, fileId);
          toasts := [ToastRequest(FileDeleted, "success")];
        case Rejected(message) =>
          toasts := [ToastRequest(DeleteFailed + ": " + OrText(message, DeleteFailed), "error")];
        case Thrown(message) =>
          toasts := [ToastRequest(DeleteFailed + ": " + message, "error")];
      }
    }
  }
}
