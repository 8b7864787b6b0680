/** The landing page's order section of src/components/sections/OrderForm.jsx:
    four snake_case fields, the service dropdown, the title and service
    checks with one error toast per message, the application data with the
    contact fields taken from the signed-in user's profile, and after a
    creation one upload per picked file, in order. The creation reply and
    every upload's outcome are parameters. */
module SectionsOrder {
  import opened JsValue
  import opened JsObject
  import opened JsText
  import opened PhoneNormalizer
  import opened Forms
  import opened Records
  import opened FileUploadBounded
  import Validation

  const Sent := "Заявка успешно отправлена"
  const SubmitFailed := "Ошибка отправки заявки"

  /** The category every upload of this form is filed under. */
  const UploadCategory := "other"

  const HeadKeys: seq<string> := ["title", "description", "service_type", "expected_budget"]

  /** The contact fields of the application, matching the user's `UserKeys`
      one to one. */
  const ContactKeys: seq<string> := ["contact_full_name", "contact_email", "contact_phone", "company_name"]

  /** The initial form, also the form after a success. */
  const EmptyForm: FormData :=
    [("title", Str("")), ("description", Str("")), ("service_type", Str("")), ("expected_budget", Null)]

  /** The dropdown's options, without the placeholder it leaves out. */
  const ServiceOptions: seq<string> :=
    ["web_application", "landing_page", "corporate_site", "ecommerce", "redesign", "other"]

  lemma {:induction false} KeysDistinct()
    ensures DistinctKeys(HeadKeys + ContactKeys) && |ContactKeys| == |UserKeys|
    ensures (HeadKeys + ContactKeys)[6] == "contact_phone" && UserKeys[2] == "phone"
  {
  }

  /** The checks of `handleSubmit`: the title and the service type only. */
  function FormErrors(formData: FormData): Errors {
    NamesAreDistinct();
    TitleServiceErrors(formData, SnakeNames)
  }

  /** An order is sent exactly when the title has five characters and is
      not blank and a service type is chosen. */
  lemma {:induction false} FormErrorsEmptyIff(formData: FormData)
    ensures FormErrors(formData) == [] <==>
              |Text(formData, "title")| >= 5 && !IsBlank(Text(formData, "title")) && Truthy(Prop(formData, "service_type"))
  {
    NamesAreDistinct();
    var r := FormErrors(formData);
    if r == [] {
      assert Get(r, "title") == None && Get(r, "service_type") == None;
    } else {
      var k := r[0].0;
      assert IndexOf(r, k) == 0;
    }
  }

  /** Every option the dropdown offers passes the service-type check, and
      only "redesign" is outside the service types of the shared validator. */
  lemma {:induction false} OfferedServicesPassCheck(option: string)
    requires option in ServiceOptions
    ensures Truthy(Str(option))
    ensures Validation.ValidateServiceType(Str(option)) <==> option != "redesign"
  {
    assert option in Validation.ServiceTypes <==> option != "redesign";
  }

  /** The application data: the four form fields as they are, then the
      user's name, email, phone (normalized) and company, "" for a missing
      one or without a user. */
  function ApplicationData(formData: FormData, user: Option<Entries<Value>>): FormData {
    WithServerPhone(CopyWithUser(formData, HeadKeys, user, ContactKeys, UserKeys), "contact_phone")
  }

  /** The application data has the eight fields in order; the form's four
      go out unchanged and the contact fields come from the profile, never
      from the form. */
  lemma {:induction false} ApplicationDataShape(formData: FormData, user: Option<Entries<Value>>)
    ensures Keys(ApplicationData(formData, user)) == HeadKeys + ContactKeys
    ensures forall i :: 0 <= i < 4 ==> Prop(ApplicationData(formData, user), HeadKeys[i]) == Prop(formData, HeadKeys[i])
    ensures forall i :: 0 <= i < 4 && i != 2 ==>
              Prop(ApplicationData(formData, user), ContactKeys[i]) == UserField(user, UserKeys[i])
    ensures Text(ApplicationData(formData, user), "contact_phone") == ExtractPhoneForServer(AsText(UserField(user, "phone")))
  {
    KeysDistinct();
    CopyWithUserPhone(formData, HeadKeys, user, ContactKeys, UserKeys, 2);
  }

  /** Without a signed-in user the application goes out with every contact
      field empty. */
  lemma {:induction false} SignedOutSendsNoContact(formData: FormData)
    ensures forall i :: 0 <= i < 4 ==> Text(ApplicationData(formData, None), ContactKeys[i]) == ""
  {
    ApplicationDataShape(formData, None);
    assert ExtractPhoneForServer("") == "";
  }

  /** A profile phone stored in canonical form is sent unchanged. */
  lemma {:induction false} StoredPhoneRoundTrip(formData: FormData, user: Entries<Value>)
    requires Prop(user, "phone").Str? && IsCanonical(Prop(user, "phone").s)
    ensures Text(ApplicationData(formData, Some(user)), "contact_phone") == Prop(user, "phone").s
  {
    ApplicationDataShape(formData, Some(user));
    CanonicalIsFixed(Prop(user, "phone").s);
  }

  /** The body of one upload: `{file, category: 'other', description: name}`,
      sent for the application with the given id. */
  datatype UploadRequest = UploadRequest(applicationId: Value, file: SelectedFile, category: string, description: string)

  /** The toast of one upload. The value the upload call returns is not
      looked at, so only an exception shows the error toast. */
  function UploadToast(picked: PickedFile, outcome: Reply<Record>): ToastRequest {
    if outcome.Thrown? then ToastRequest("Ошибка загрузки файла " + picked.file.name, "error")
    else ToastRequest("Файл " + picked.file.name + " успешно загружен", "success")
  }

  /** The info toast before the uploads. */
  function UploadingToast(count: nat): ToastRequest {
    ToastRequest("Заявка создана, загружаем " + NatText(count) + " файл(ов)...", "info")
  }

  /** One upload per picked file, in order. */
  function UploadRequests(applicationId: Value, files: seq<PickedFile>): seq<UploadRequest> {
    seq(|files|, i requires 0 <= i < |files| => UploadRequest(applicationId, files[i].file, UploadCategory, files[i].file.name))
  }

  /** One toast per upload, in order. */
  function UploadToasts(files: seq<PickedFile>, outcomes: seq<Reply<Record>>): seq<ToastRequest>
    requires |outcomes| == |files|
  {
    seq(|files|, i requires 0 <= i < |files| => UploadToast(files[i], outcomes[i]))
  }

  /** The uploads carry exactly the picked files, in the picker's order,
      each described by its own name. */
  lemma {:induction false} UploadsArePickedFiles(applicationId: Value, files: seq<PickedFile>)
    ensures |UploadRequests(applicationId, files)| == |FilesOf(files)|
    ensures forall i :: 0 <= i < |files| ==>
              UploadRequests(applicationId, files)[i].file == FilesOf(files)[i]
              && UploadRequests(applicationId, files)[i].description == FilesOf(files)[i].name
  {
  }

  /** Every toast of a success after creation: an info toast when there are
      files, one toast per upload, and the final success toast. */
  function CreatedToasts(files: seq<PickedFile>, outcomes: seq<Reply<Record>>): seq<ToastRequest>
    requires |outcomes| == |files|
  {
    (if files != [] then [UploadingToast(|files|)] else []) + UploadToasts(files, outcomes) + [ToastRequest(Sent, "success")]
  }

  /** After a creation the user sees one toast per file between the info
      toast and the final success toast; a file's toast is an error exactly
      when its upload threw, so a failed upload never stops the others or
      the success. */
  lemma {:induction false} CreatedToastsShape(files: seq<PickedFile>, outcomes: seq<Reply<Record>>)
    requires |outcomes| == |files|
    ensures var r := CreatedToasts(files, outcomes);
            var skip := if files == [] then 0 else 1;
            |r| == skip + |files| + 1
            && r[|r| - 1] == ToastRequest(Sent, "success")
            && (files != [] ==> r[0].kind == "info")
            && forall i :: 0 <= i < |files| ==> (r[skip + i].kind == "error" <==> outcomes[i].Thrown?)
  {
    var r := CreatedToasts(files, outcomes);
    var skip := if files == [] then 0 else 1;
    var info := if files != [] then [UploadingToast(|files|)] else [];
    var u := UploadToasts(files, outcomes);
    assert |info| == skip && |u| == |files|;
    assert r == info + u + [ToastRequest(Sent, "success")];
    forall i | 0 <= i < |files| ensures r[skip + i] == u[i] && (u[i].kind == "error" <==> outcomes[i].Thrown?) {
      assert u[i] == UploadToast(files[i], outcomes[i]);
    }
  }

  /** The `for … of` loop over the picked files: one upload after another,
      each followed by its toast, an exception caught per file. */
  method UploadFiles(applicationId: Value, files: seq<PickedFile>, outcomes: seq<Reply<Record>>)
    returns (requests: seq<UploadRequest>, toasts: seq<ToastRequest>)
    requires |outcomes| == |files|
    ensures requests == UploadRequests(applicationId, files)
    ensures toasts == UploadToasts(files, outcomes)
  {
    requests, toasts := [], [];
    var i := 0;
    while i < |files|
      invariant 0 <= i <= |files|
      invariant |requests| == |toasts| == i
      invariant forall j :: 0 <= j < i ==>
                  requests[j] == UploadRequest(applicationId, files[j].file, UploadCategory, files[j].file.name)
      invariant forall j :: 0 <= j < i ==> toasts[j] == UploadToast(files[j], outcomes[j])
    {
      var picked := files[i];
      requests := requests + [UploadRequest(applicationId, picked.file, UploadCategory, picked.file.name)];
      toasts := toasts + [UploadToast(picked, outcomes[i])];
      i := i + 1;
    }
  }

  class OrderForm {
    var formData: FormData
    var uploadedFiles: seq<PickedFile>
    var isSubmitted: bool
    var errors: Errors
    var isServiceDropdownOpen: bool

    constructor()
      ensures formData == EmptyForm && uploadedFiles == [] && !isSubmitted && errors == [] && !isServiceDropdownOpen
    {
      formData := EmptyForm;
      uploadedFiles := [];
      isSubmitted := false;
      errors := [];
      isServiceDropdownOpen := false;
    }

    /** `handleChange`: the field takes the value and only its own message
        is cleared. */
    method HandleChange(name: string, value: string)
      modifies this
      ensures formData == Put(old(formData), name, Str(value)) && errors == ClearError(old(errors), name)
      ensures uploadedFiles == old(uploadedFiles) && isSubmitted == old(isSubmitted)
      ensures isServiceDropdownOpen == old(isServiceDropdownOpen)
    {
      formData := Put(formData, name, Str(value));
      errors := ClearError(errors, name);
    }

    /** The picker's `onFilesSelected`: its whole list replaces the files. */
    method FilesSelected(files: seq<PickedFile>)
      modifies this
      ensures uploadedFiles == files && formData == old(formData) && errors == old(errors)
      ensures isSubmitted == old(isSubmitted) && isServiceDropdownOpen == old(isServiceDropdownOpen)
    {
      uploadedFiles := files;
    }

    /** The select button opens a closed dropdown and closes an open one. */
    method ToggleDropdown()
      modifies this
      ensures isServiceDropdownOpen == !old(isServiceDropdownOpen)
      ensures formData == old(formData) && errors == old(errors)
      ensures uploadedFiles == old(uploadedFiles) && isSubmitted == old(isSubmitted)
    {
      isServiceDropdownOpen := !isServiceDropdownOpen;
    }

    /** A mouse press outside the select closes the dropdown; one inside
        leaves it. */
    method MouseDown(insideSelect: bool)
      modifies this
      ensures isServiceDropdownOpen == (old(isServiceDropdownOpen) && insideSelect)
      ensures formData == old(formData) && errors == old(errors)
      ensures uploadedFiles == old(uploadedFiles) && isSubmitted == old(isSubmitted)
    {
      if !insideSelect {
        isServiceDropdownOpen := false;
      }
    }

    /** A click on an option: the service type takes it, the dropdown
        closes and only the service type's message is cleared. */
    method SelectService(option: string)
      modifies this
      ensures formData == Put(old(formData), "service_type", Str(option))
      ensures errors == ClearError(old(errors), "service_type") && !isServiceDropdownOpen
      ensures uploadedFiles == old(uploadedFiles) && isSubmitted == old(isSubmitted)
    {
      formData := Put(formData, "service_type", Str(option));
      isServiceDropdownOpen := false;
      errors := ClearError(errors, "service_type");
    }

    /** `handleSubmit`: with messages, each shows as an error toast in order
        and nothing is sent; otherwise the application data is sent, and a
        success uploads the picked files to the new application, marks the
        form submitted and empties it and the file list. */
    method HandleSubmit(user: Option<Entries<Value>>, reply: Reply<Record>, uploadOutcomes: seq<Reply<Record>>)
      returns (request: Option<FormData>, uploads: seq<UploadRequest>, toasts: seq<ToastRequest>)
      requires |uploadOutcomes| == |uploadedFiles|
      modifies this
      ensures isServiceDropdownOpen == old(isServiceDropdownOpen)
      ensures FormErrors(old(formData)) != [] ==>
                request == None && uploads == [] && errors == FormErrors(old(formData))
                && toasts == ErrorToasts(Values(errors))
                && formData == old(formData) && uploadedFiles == old(uploadedFiles) && isSubmitted == old(isSubmitted)
      ensures FormErrors(old(formData)) == [] ==>
                request == Some(ApplicationData(old(formData), user)) && errors == old(errors)
      ensures request.Some? && reply.Ok? ==>
                uploads == UploadRequests(IdOf(reply.data), old(uploadedFiles))
                && toasts == CreatedToasts(old(uploadedFiles), uploadOutcomes)
                && isSubmitted && formData == EmptyForm && uploadedFiles == []
      ensures request.Some? && !reply.Ok? ==>
                uploads == [] && formData == old(formData) && uploadedFiles == old(uploadedFiles)
                && isSubmitted == old(isSubmitted)
                && toasts == [ToastRequest(if reply.Rejected? then reply.message else SubmitFailed, "error")]
    {
      var newErrors := FormErrors(formData);
      if newErrors != [] {
        errors := newErrors;
        toasts := ErrorToasts(Values(newErrors));
        request, uploads := None, [];
        return;
      }
      request := Some(ApplicationData(formData, user));
      uploads, toasts := Created(reply, uploadOutcomes);
    }

    /** What follows the creation call: on success the uploads, the toasts
        and the reset; otherwise one error toast. */
    method Created(reply: Reply<Record>, uploadOutcomes: seq<Reply<Record>>)
      returns (uploads: seq<UploadRequest>, toasts: seq<ToastRequest>)
      requires |uploadOutcomes| == |uploadedFiles|
      modifies this
      ensures errors == old(errors) && isServiceDropdownOpen == old(isServiceDropdownOpen)
      ensures reply.Ok? ==>
                uploads == UploadRequests(IdOf(reply.data), old(uploadedFiles))
                && toasts == CreatedToasts(old(uploadedFiles), uploadOutcomes)
                && isSubmitted && formData == EmptyForm && uploadedFiles == []
      ensures !reply.Ok? ==>
                uploads == [] && formData == old(formData) && uploadedFiles == old(uploadedFiles)
                && isSubmitted == old(isSubmitted)
                && toasts == [ToastRequest(if reply.Rejected? then reply.message else SubmitFailed, "error")]
    {
      match reply {
        case Ok(application) =>
          var uploadToasts;
          uploads, uploadToasts := UploadFiles(IdOf(application), uploadedFiles, uploadOutcomes);
          toasts := (if uploadedFiles != [] then [UploadingToast(|uploadedFiles|)] else []) + uploadToasts;
          isSubmitted := true;
          toasts := toasts + [ToastRequest(Sent, "success")];
          formData := EmptyForm;
          uploadedFiles := [];
        case Rejected(message) =>
          uploads := [];
          toasts := [ToastRequest(message, "error")];
        case Thrown(_) =>
          uploads := [];
          toasts := [ToastRequest(SubmitFailed, "error")];
      }
    }

    /** The "send another" button of the thank-you view. */
    method SendAnother()
      modifies this
      ensures !isSubmitted && formData == old(formData) && errors == old(errors)
      ensures uploadedFiles == old(uploadedFiles) && isServiceDropdownOpen == old(isServiceDropdownOpen)
    {
      isSubmitted := false;
    }
  }
}
