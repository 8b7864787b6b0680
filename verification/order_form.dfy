/** The landing page's order form of src/components/OrderForm.jsx: seven
    camelCase fields, the contact fields filled from the signed-in user, the
    phone keystroke mask, the service select mapped to the backend's
    service types, the creation checks, the application data sent to
    `createApplication` (whose reply is a parameter) and the reset after a
    success. */
module Order {
  import opened JsValue
  import opened JsObject
  import opened JsText
  import opened PhoneNormalizer
  import opened PhoneMask
  import opened Forms
  import opened Records
  import Validation

  const SubmitFailed := "Ошибка отправки заявки"

  /** The contact fields, matching the user's `UserKeys` one to one. */
  const ContactKeys: seq<string> := ["contactFullName", "contactEmail", "contactPhone", "companyName"]

  /** The fields a reset empties. */
  const HeadKeys: seq<string> := ["title", "description", "serviceType"]

  const OrderKeys: seq<string> := HeadKeys + ContactKeys

  lemma {:induction false} ContactKeysDistinct()
    ensures DistinctKeys(ContactKeys) && |ContactKeys| == |UserKeys|
  {
  }

  lemma {:induction false} OrderKeysDistinct()
    ensures DistinctKeys(OrderKeys) && OrderKeys[5] == "contactPhone"
    ensures forall i :: 0 <= i < 4 ==> OrderKeys[3 + i] == ContactKeys[i]
  {
  }

  /** `getServiceTypeValue`: the select's option to the backend's service
      type, "" for an unknown option. */
  function ServiceTypeValue(service: string): (r: string)
  {
    match service
    case "web" => "web_application"
    case "messenger" => "corporate_site"
    case "crm" => "web_application"
    case "complex" => "other"
    case _ => ""
  }

  /** The four options give a service type the backend's validator accepts,
      every other option gives "" and so fails the required check. */
  lemma {:induction false} ServiceTypeValueAccepted(service: string)
    ensures ServiceTypeValue(service) != "" <==> service in ["web", "messenger", "crm", "complex"]
    ensures ServiceTypeValue(service) != "" ==> Validation.ValidateServiceType(Str(ServiceTypeValue(service)))
    ensures ServiceTypeValue(service) == "" ==> !Truthy(Str(ServiceTypeValue(service)))
  {
    var r := ServiceTypeValue(service);
    if r != "" {
      assert r in Validation.ServiceTypes;
    }
  }

  /** Two options share a service type, so the choice cannot be recovered
      from what is sent. */
  lemma {:induction false} ServiceTypeValueNotInjective()
    ensures ServiceTypeValue("web") == ServiceTypeValue("crm") == "web_application"
  {
  }

  /** The form after a success, and also the form the effect starts from:
      title, description and service type empty, the contact fields from
      the user when there is one (signed in), "" otherwise. */
  function ResetForm(user: Option<Entries<Value>>): FormData
  {
    Initial(HeadKeys, user, ContactKeys, UserKeys, [])
  }

  /** The reset form has the seven fields in their order, the first three
      empty and each contact field the user's when there is a user and it is
      truthy, "" otherwise. */
  lemma {:induction false} ResetFormFields(user: Option<Entries<Value>>)
    ensures Keys(ResetForm(user)) == OrderKeys
    ensures forall i :: 0 <= i < 3 ==> Get(ResetForm(user), HeadKeys[i]) == Some(Str(""))
    ensures forall i :: 0 <= i < 4 ==> Get(ResetForm(user), ContactKeys[i]) == Some(UserField(user, UserKeys[i]))
  {
    OrderKeysDistinct();
    InitialFields(HeadKeys, user, ContactKeys, UserKeys, []);
  }

  /** After a success the form holds no title, so the handler's title check
      would refuse it (the browser's `required` check on the input already
      keeps it from being submitted). */
  lemma {:induction false} ResetFormNeedsTitle(user: Option<Entries<Value>>)
    ensures Text(ResetForm(user), "title") == ""
    ensures Get(OrderErrors(ResetForm(user)), "title") == Some(TitleTooShort)
    ensures OrderErrors(ResetForm(user)) != []
  {
    NamesAreDistinct();
    ResetFormFields(user);
    assert HeadKeys[0] == "title";
  }

  /** The checks of `handleSubmit`: the creation checks under the form's
      camelCase keys. */
  function OrderErrors(formData: FormData): Errors {
    NamesAreDistinct();
    CreationErrors(formData, CamelNames)
  }

  /** An order is sent exactly when the title has five characters and is
      not blank, a service is chosen and the three contact fields are not
      blank. */
  lemma {:induction false} OrderErrorsEmptyIff(formData: FormData)
    ensures OrderErrors(formData) == [] <==>
              |Text(formData, "title")| >= 5 && !IsBlank(Text(formData, "title"))
              && Truthy(Prop(formData, "serviceType")) && !IsBlank(Text(formData, "contactFullName"))
              && !IsBlank(Text(formData, "contactEmail")) && !IsBlank(Text(formData, "contactPhone"))
  {
    NamesAreDistinct();
    CreationErrorsEmptyIff(formData, CamelNames);
  }

  /** The effect on `[isAuthenticated, user]`: the contact fields written
      over the current form. */
  function Prefilled(formData: FormData, user: Entries<Value>): (r: FormData)
    ensures forall i :: 0 <= i < 4 ==> Get(r, ContactKeys[i]) == Some(UserField(Some(user), UserKeys[i]))
    ensures forall k :: k !in ContactKeys ==> Get(r, k) == Get(formData, k)
    ensures UniqueKeys(formData) ==> UniqueKeys(r)
  {
    ContactKeysDistinct();
    FromUserGet(Some(user), ContactKeys, UserKeys);
    Merge(formData, FromUser(Some(user), ContactKeys, UserKeys))
  }

  /** The application data: the seven fields under their own names, the
      contact phone normalized. */
  function ApplicationData(formData: FormData): FormData
  {
    WithServerPhone(Project(formData, OrderKeys, OrderKeys), "contactPhone")
  }

  /** The application data has exactly the seven fields, and its contact
      phone is the form's, normalized to digits. */
  lemma {:induction false} ApplicationDataShape(formData: FormData)
    ensures Keys(ApplicationData(formData)) == OrderKeys
    ensures Text(ApplicationData(formData), "contactPhone") == ExtractPhoneForServer(Text(formData, "contactPhone"))
    ensures AllDigits(Text(ApplicationData(formData), "contactPhone"))
  {
    OrderKeysDistinct();
    ProjectGet(formData, OrderKeys, OrderKeys);
    HasIffInKeys(Project(formData, OrderKeys, OrderKeys), "contactPhone");
  }

  /** Every field but the phone goes out as it is in the form, and nothing
      outside the seven fields goes out. */
  lemma {:induction false} ApplicationDataCopies(formData: FormData)
    ensures forall i :: 0 <= i < |OrderKeys| && i != 5 ==>
              Prop(ApplicationData(formData), OrderKeys[i]) == Prop(formData, OrderKeys[i])
    ensures forall k :: k !in OrderKeys ==> Get(ApplicationData(formData), k) == None
  {
    OrderKeysDistinct();
    ProjectGet(formData, OrderKeys, OrderKeys);
  }

  /** A signed-in user with a canonical phone who submits the prefilled
      contact phone sends that phone unchanged. */
  lemma {:induction false} PrefilledPhoneRoundTrip(formData: FormData, user: Entries<Value>)
    requires Prop(user, "phone").Str? && IsCanonical(Prop(user, "phone").s)
    ensures Text(ApplicationData(Prefilled(formData, user)), "contactPhone") == Prop(user, "phone").s
  {
    var d := Prop(user, "phone").s;
    ApplicationDataShape(Prefilled(formData, user));
    assert Get(Prefilled(formData, user), ContactKeys[2]) == Some(UserField(Some(user), UserKeys[2]));
    assert Text(Prefilled(formData, user), "contactPhone") == d;
    CanonicalIsFixed(d);
  }

  class OrderForm {
    var formData: FormData
    var isSubmitted: bool
    var errors: Errors

    constructor()
      ensures formData == ResetForm(None) && !isSubmitted && errors == []
    {
      formData := ResetForm(None);
      isSubmitted := false;
      errors := [];
    }

    /** The effect: a signed-in user's contact fields are written into the
        form; without one the form stays. */
    method Prefill(isAuthenticated: bool, user: Option<Entries<Value>>)
      modifies this
      ensures isAuthenticated && user.Some? ==> formData == Prefilled(old(formData), user.value)
      ensures !(isAuthenticated && user.Some?) ==> formData == old(formData)
      ensures isSubmitted == old(isSubmitted) && errors == old(errors)
    {
      if isAuthenticated && user.Some? {
        formData := Prefilled(formData, user.value);
      }
    }

    /** `handleChange`: the field takes the value and only its own message
        is cleared. */
    method HandleChange(name: string, value: string)
      modifies this
      ensures formData == Put(old(formData), name, Str(value))
      ensures errors == ClearError(old(errors), name)
      ensures isSubmitted == old(isSubmitted)
    {
      formData := Put(formData, name, Str(value));
      errors := ClearError(errors, name);
    }

    /** `handlePhoneChange`: only the contact phone changes. */
    method HandlePhoneChange(input: string)
      modifies this
      ensures formData == WithMaskedPhone(old(formData), "contactPhone", input)
      ensures errors == old(errors) && isSubmitted == old(isSubmitted)
    {
      formData := WithMaskedPhone(formData, "contactPhone", input);
    }

    /** `handleServiceChange`: the service type is the mapped option; the
        service type's message is not cleared. */
    method HandleServiceChange(option: string)
      modifies this
      ensures formData == Put(old(formData), "serviceType", Str(ServiceTypeValue(option)))
      ensures errors == old(errors) && isSubmitted == old(isSubmitted)
    {
      formData := Put(formData, "serviceType", Str(ServiceTypeValue(option)));
    }

    /** `handleSubmit`: with a message, nothing is sent; otherwise the
        application data is. A success marks the form submitted and resets
        it (contact fields from the user only when signed in); a failure
        leaves only the `submit` message. */
    method HandleSubmit(isAuthenticated: bool, user: Option<Entries<Value>>, reply: Reply<Record>)
      returns (request: Option<FormData>)
      modifies this
      ensures OrderErrors(old(formData)) != [] ==>
                request == None && errors == OrderErrors(old(formData))
                && formData == old(formData) && isSubmitted == old(isSubmitted)
      ensures OrderErrors(old(formData)) == [] ==> request == Some(ApplicationData(old(formData)))
      ensures request.Some? && reply.Ok? ==>
                isSubmitted && errors == old(errors)
                && formData == ResetForm(if isAuthenticated then user else None)
      ensures request.Some? && reply.Rejected? ==>
                formData == old(formData) && isSubmitted == old(isSubmitted) && errors == [("submit", reply.message)]
      ensures request.Some? && reply.Thrown? ==>
                formData == old(formData) && isSubmitted == old(isSubmitted) && errors == [("submit", SubmitFailed)]
    {
      var newErrors := OrderErrors(formData);
      if newErrors != [] {
        errors := newErrors;
        request := None;
        return;
      }
      request := Some(ApplicationData(formData));
      match reply
      case Ok(_) =>
        isSubmitted := true;
        formData := ResetForm(if isAuthenticated then user else None);
      case Rejected(message) =>
        errors := [("submit", message)];
      case Thrown(_) =>
        errors := [("submit", SubmitFailed)];
    }

    /** The "send another" button of the thank-you view. */
    method SendAnother()
      modifies this
      ensures !isSubmitted && formData == old(formData) && errors == old(errors)
    {
      isSubmitted := false;
    }
  }
}
