/** What the form components share: the field values and the per-field
    error messages as JavaScript objects, the error clearing of
    `handleChange`, the phone keystroke handler and its counterpart at
    submit, the required-field checks of the forms that create or edit an
    application, and the inline email pattern `^[^\s@]+@[^\s@]+\.[^\s@]+$`. */
module Forms {
  import opened JsValue
  import opened JsObject
  import opened JsText
  import opened PhoneNormalizer
  import opened PhoneMask

  /** `formData`: field name to value, in declaration order. */
  type FormData = Entries<Value>

  /** `errors`: field name to message; "" is a cleared message. */
  type Errors = Entries<string>

  /** `errors[name]` is truthy: the field shows a message. */
  predicate Shows(errors: Errors, name: string) {
    Get(errors, name).Some? && Get(errors, name).value != ""
  }

  /** The error half of `handleChange`: a message the edited field shows is
      blanked; every other message stays, and so does the key order. */
  function ClearError(errors: Errors, name: string): (r: Errors)
    ensures !Shows(r, name)
    ensures forall k :: k != name ==> Get(r, k) == Get(errors, k)
    ensures Keys(r) == Keys(errors)
  {
    if Shows(errors, name) then Put(errors, name, "") else errors
  }

  /** `if (failed) newErrors[key] = message`. */
  function Flag(errors: Errors, failed: bool, key: string, message: string): (r: Errors)
    ensures Get(r, key) == if failed then Some(message) else Get(errors, key)
    ensures forall k :: k != key ==> Get(r, k) == Get(errors, k)
  {
    if failed then Put(errors, key, message) else errors
  }

  /** `source.key || fallback`, as the forms read the user or the
      application they start from. */
  function Field(source: Entries<Value>, key: string, fallback: Value): (r: Value)
    ensures Truthy(Prop(source, key)) ==> r == Prop(source, key)
    ensures !Truthy(Prop(source, key)) ==> r == fallback
  {
    Or(Prop(source, key), fallback)
  }

  /** The phone keystroke handler writing the masked input into `key`. */
  function WithMaskedPhone(formData: FormData, key: string, input: string): (r: FormData)
    ensures Get(r, key) == Some(Str(StandardMask(input)))
    ensures forall k :: k != key ==> Get(r, k) == Get(formData, k)
    ensures Has(formData, key) ==> Keys(r) == Keys(formData)
  {
    Put(formData, key, Str(StandardMask(input)))
  }

  /** The submitted copy of the form: the phone field replaced by its
      normalized digits, every other field as it is. */
  function WithServerPhone(formData: FormData, key: string): (r: FormData)
    ensures Get(r, key) == Some(Str(ExtractPhoneForServer(Text(formData, key))))
    ensures AllDigits(Text(r, key))
    ensures forall k :: k != key ==> Get(r, k) == Get(formData, k)
    ensures Has(formData, key) ==> Keys(r) == Keys(formData)
  {
    Put(formData, key, Str(ExtractPhoneForServer(Text(formData, key))))
  }

  /** A canonical number typed into the phone field is sent as it was typed,
      and the field shows at most 18 characters. */
  lemma {:induction false} TypedPhoneIsSent(formData: FormData, key: string, d: string)
    requires IsCanonical(d)
    ensures |Text(WithMaskedPhone(formData, key, d), key)| <= 18
    ensures Text(WithServerPhone(WithMaskedPhone(formData, key, d), key), key) == d
  {
    StandardMaskShape(d);
    MaskThenNormalize(d);
  }

  /** No key occurs twice in the list. */
  predicate DistinctKeys(ks: seq<string>) {
    forall i, j :: 0 <= i < j < |ks| ==> ks[i] != ks[j]
  }

  /** An object literal with distinct keys reads each key where it is
      written, and reads nothing under any other key. */
  lemma {:induction false} LiteralGet(r: FormData, targets: seq<string>)
    requires |r| == |targets| && DistinctKeys(targets)
    requires forall i :: 0 <= i < |r| ==> r[i].0 == targets[i]
    ensures Keys(r) == targets && UniqueKeys(r)
    ensures forall i :: 0 <= i < |targets| ==> Get(r, targets[i]) == Some(r[i].1)
    ensures forall k :: k !in targets ==> Get(r, k) == None
  {
    forall i | 0 <= i < |targets| ensures Get(r, targets[i]) == Some(r[i].1) {
      GetFirst(r, i);
    }
  }

  /** The object literal `{targets[0]: source.sources[0] || defaults[0], …}`. */
  function Fallback(source: Entries<Value>, targets: seq<string>, sources: seq<string>, defaults: seq<Value>): (r: FormData)
    requires |targets| == |sources| == |defaults|
    ensures |r| == |targets| && forall i :: 0 <= i < |r| ==> r[i] == (targets[i], Field(source, sources[i], defaults[i]))
  {
    seq(|targets|, i requires 0 <= i < |targets| => (targets[i], Field(source, sources[i], defaults[i])))
  }

  /** `user?.key || ''`: the signed-in user's field when it is truthy, and
      "" when it is not or when there is no user. */
  function UserField(user: Option<Entries<Value>>, key: string): (r: Value)
    ensures user.Some? && Truthy(Prop(user.value, key)) ==> r == Prop(user.value, key)
    ensures !(user.Some? && Truthy(Prop(user.value, key))) ==> r == Str("")
  {
    if user.Some? then Field(user.value, key, Str("")) else Str("")
  }

  /** The user's profile fields in the order a form lists them. */
  const UserKeys: seq<string> := ["full_name", "email", "phone", "company_name"]

  /** The object literal `{targets[0]: user?.sources[0] || '', …}`. */
  function FromUser(user: Option<Entries<Value>>, targets: seq<string>, sources: seq<string>): (r: FormData)
    requires |targets| == |sources|
    ensures |r| == |targets| && forall i :: 0 <= i < |r| ==> r[i] == (targets[i], UserField(user, sources[i]))
  {
    seq(|targets|, i requires 0 <= i < |targets| => (targets[i], UserField(user, sources[i])))
  }

  /** With distinct targets, each target reads the user's field it names, and
      no other key is present. */
  lemma {:induction false} FromUserGet(user: Option<Entries<Value>>, targets: seq<string>, sources: seq<string>)
    requires |targets| == |sources| && DistinctKeys(targets)
    ensures var r := FromUser(user, targets, sources);
            && Keys(r) == targets && UniqueKeys(r)
            && (forall i :: 0 <= i < |targets| ==> Get(r, targets[i]) == Some(UserField(user, sources[i])))
            && (forall k :: k !in targets ==> Get(r, k) == None)
  {
    LiteralGet(FromUser(user, targets, sources), targets);
  }

  /** An object with every listed key holding "". */
  function Blank(keys: seq<string>): (r: FormData)
    ensures |r| == |keys| && forall i :: 0 <= i < |r| ==> r[i] == (keys[i], Str(""))
  {
    seq(|keys|, i requires 0 <= i < |keys| => (keys[i], Str("")))
  }

  /** The object literal `{targets[0]: source.sources[0], …}`: fields
      copied, possibly under new names. */
  function Project(source: Entries<Value>, targets: seq<string>, sources: seq<string>): (r: FormData)
    requires |targets| == |sources|
    ensures |r| == |targets| && forall i :: 0 <= i < |r| ==> r[i] == (targets[i], Prop(source, sources[i]))
  {
    seq(|targets|, i requires 0 <= i < |targets| => (targets[i], Prop(source, sources[i])))
  }

  /** With distinct targets, each target reads the source field it names,
      and no other key is present. */
  lemma {:induction false} ProjectGet(source: Entries<Value>, targets: seq<string>, sources: seq<string>)
    requires |targets| == |sources| && DistinctKeys(targets)
    ensures var r := Project(source, targets, sources);
            && Keys(r) == targets && UniqueKeys(r)
            && (forall i :: 0 <= i < |targets| ==> Get(r, targets[i]) == Some(Prop(source, sources[i])))
            && (forall k :: k !in targets ==> Get(r, k) == None)
  {
    LiteralGet(Project(source, targets, sources), targets);
  }

  /** The initial form of the creation forms: the `head` fields empty, the
      `targets` from the user's `sources`, then the `rest` as given. */
  function Initial(head: seq<string>, user: Option<Entries<Value>>, targets: seq<string>, sources: seq<string>,
                   rest: FormData): FormData
    requires |targets| == |sources|
  {
    Blank(head) + FromUser(user, targets, sources) + rest
  }

  /** The initial form has the listed keys in order; each head field is
      "", and each target is the user's field when truthy, "" otherwise. */
  lemma {:induction false} InitialFields(head: seq<string>, user: Option<Entries<Value>>, targets: seq<string>,
                                         sources: seq<string>, rest: FormData)
    requires |targets| == |sources| && DistinctKeys(head + targets)
    ensures var r := Initial(head, user, targets, sources, rest);
            && Keys(r) == head + targets + Keys(rest)
            && (forall i :: 0 <= i < |head| ==> Get(r, head[i]) == Some(Str("")))
            && (forall i :: 0 <= i < |targets| ==> Get(r, targets[i]) == Some(UserField(user, sources[i])))
  {
    var r := Initial(head, user, targets, sources, rest);
    var ks := head + targets;
    assert forall j :: 0 <= j < |ks| ==> r[j].0 == ks[j];
    forall i | 0 <= i < |head| ensures Get(r, head[i]) == Some(Str("")) {
      assert ks[i] == head[i];
      GetFirst(r, i);
    }
    forall i | 0 <= i < |targets| ensures Get(r, targets[i]) == Some(UserField(user, sources[i])) {
      assert ks[|head| + i] == targets[i];
      GetFirst(r, |head| + i);
    }
    KeysAppend(Blank(head) + FromUser(user, targets, sources), rest);
    KeysAppend(Blank(head), FromUser(user, targets, sources));
    assert Keys(Blank(head)) == head;
    assert Keys(FromUser(user, targets, sources)) == targets;
  }

  /** The form's own fields copied under their names, followed by fields
      taken from the user. */
  function CopyWithUser(source: FormData, head: seq<string>, user: Option<Entries<Value>>, targets: seq<string>,
                        sources: seq<string>): FormData
    requires |targets| == |sources|
  {
    Project(source, head, head) + FromUser(user, targets, sources)
  }

  /** The result has the listed keys in order; each head field is the
      form's, and each target is the user's field when truthy, "" otherwise. */
  lemma {:induction false} CopyWithUserFields(source: FormData, head: seq<string>, user: Option<Entries<Value>>,
                                              targets: seq<string>, sources: seq<string>)
    requires |targets| == |sources| && DistinctKeys(head + targets)
    ensures var r := CopyWithUser(source, head, user, targets, sources);
            && Keys(r) == head + targets
            && (forall i :: 0 <= i < |head| ==> Get(r, head[i]) == Some(Prop(source, head[i])))
            && (forall i :: 0 <= i < |targets| ==> Get(r, targets[i]) == Some(UserField(user, sources[i])))
  {
    var r := CopyWithUser(source, head, user, targets, sources);
    var ks := head + targets;
    assert forall j :: 0 <= j < |ks| ==> r[j].0 == ks[j];
    forall i | 0 <= i < |head| ensures Get(r, head[i]) == Some(Prop(source, head[i])) {
      assert ks[i] == head[i];
      GetFirst(r, i);
    }
    forall i | 0 <= i < |targets| ensures Get(r, targets[i]) == Some(UserField(user, sources[i])) {
      assert ks[|head| + i] == targets[i];
      GetFirst(r, |head| + i);
    }
    KeysAppend(Project(source, head, head), FromUser(user, targets, sources));
    assert Keys(Project(source, head, head)) == head;
    assert Keys(FromUser(user, targets, sources)) == targets;
  }

  /** With the `p`-th target a phone normalized for the server, every other
      field keeps its value. */
  lemma {:induction false} CopyWithUserPhone(source: FormData, head: seq<string>, user: Option<Entries<Value>>,
                                             targets: seq<string>, sources: seq<string>, p: nat)
    requires |targets| == |sources| && DistinctKeys(head + targets) && p < |targets|
    ensures var r := WithServerPhone(CopyWithUser(source, head, user, targets, sources), targets[p]);
            && Keys(r) == head + targets
            && (forall i :: 0 <= i < |head| ==> Get(r, head[i]) == Some(Prop(source, head[i])))
            && (forall i :: 0 <= i < |targets| && i != p ==> Get(r, targets[i]) == Some(UserField(user, sources[i])))
            && Get(r, targets[p]) == Some(Str(ExtractPhoneForServer(AsText(UserField(user, sources[p])))))
  {
    var r0 := CopyWithUser(source, head, user, targets, sources);
    var r := WithServerPhone(r0, targets[p]);
    var ks := head + targets;
    CopyWithUserFields(source, head, user, targets, sources);
    assert ks[|head| + p] == targets[p];
    forall i | 0 <= i < |head| ensures Get(r, head[i]) == Some(Prop(source, head[i])) {
      assert ks[i] == head[i] && ks[i] != ks[|head| + p];
    }
    forall i | 0 <= i < |targets| && i != p ensures Get(r, targets[i]) == Some(UserField(user, sources[i])) {
      assert ks[|head| + i] == targets[i];
      if i < p {
        assert ks[|head| + i] != ks[|head| + p];
      } else {
        assert ks[|head| + p] != ks[|head| + i];
      }
    }
    HasIffInKeys(r0, targets[p]);
  }

  // The required-field checks of the forms that create an application.

  const TitleRequired := "Название обязательно"
  const TitleTooShort := "Название должно быть не менее 5 символов"
  const ServiceTypeRequired := "Тип услуги обязателен"
  const ContactNameRequired := "Контактное лицо обязательно"
  const EmailRequired := "Email обязателен"
  const PhoneRequired := "Телефон обязателен"

  /** The keys of the fields a form checks besides `title`: camelCase in
      some forms, snake_case in others. */
  datatype FieldNames = FieldNames(serviceType: string, contactFullName: string, contactEmail: string, contactPhone: string) {
    predicate Distinct() {
      && serviceType != "title" && serviceType != "description"
      && contactFullName != "title" && contactFullName != "description" && contactFullName != serviceType
      && contactEmail != "title" && contactEmail != "description" && contactEmail != serviceType
      && contactEmail != contactFullName
      && contactPhone != "title" && contactPhone != "description" && contactPhone != serviceType
      && contactPhone != contactFullName && contactPhone != contactEmail
    }
  }

  const CamelNames := FieldNames("serviceType", "contactFullName", "contactEmail", "contactPhone")
  const SnakeNames := FieldNames("service_type", "contact_full_name", "contact_email", "contact_phone")

  lemma {:induction false} NamesAreDistinct()
    ensures CamelNames.Distinct() && SnakeNames.Distinct()
  {
    assert "title"[0] == 't' && "description"[0] == 'd';
  }

  /** The title message: a title shorter than five characters gets the
      length message, since that check runs second; a blank title of five
      or more characters keeps the "required" message. */
  function TitleError(title: string): (r: Option<string>)
    ensures |title| < 5 ==> r == Some(TitleTooShort)
    ensures |title| >= 5 ==> (r.Some? <==> IsBlank(title)) && (r.Some? ==> r.value == TitleRequired)
  {
    if |title| < 5 then Some(TitleTooShort)
    else if IsBlank(title) then Some(TitleRequired)
    else None
  }

  /** The checks on the title and the service type. */
  function TitleServiceErrors(formData: FormData, n: FieldNames): (r: Errors)
    requires n.Distinct()
    ensures Get(r, "title") == TitleError(Text(formData, "title"))
    ensures Get(r, n.serviceType) == (if Truthy(Prop(formData, n.serviceType)) then None else Some(ServiceTypeRequired))
    ensures forall k :: k != "title" && k != n.serviceType ==> Get(r, k) == None
  {
    var title := Text(formData, "title");
    var e0 := Flag([], IsBlank(title), "title", TitleRequired);
    var e1 := Flag(e0, |title| < 5, "title", TitleTooShort);
    Flag(e1, !Truthy(Prop(formData, n.serviceType)), n.serviceType, ServiceTypeRequired)
  }

  /** The checks of the forms that create an application: title, service
      type, then the contact name, email and phone, each after trimming. */
  function CreationErrors(formData: FormData, n: FieldNames): (r: Errors)
    requires n.Distinct()
    ensures Get(r, "title") == TitleError(Text(formData, "title"))
    ensures Get(r, n.serviceType) == (if Truthy(Prop(formData, n.serviceType)) then None else Some(ServiceTypeRequired))
    ensures Get(r, n.contactFullName) == (if IsBlank(Text(formData, n.contactFullName)) then Some(ContactNameRequired) else None)
    ensures Get(r, n.contactEmail) == (if IsBlank(Text(formData, n.contactEmail)) then Some(EmailRequired) else None)
    ensures Get(r, n.contactPhone) == (if IsBlank(Text(formData, n.contactPhone)) then Some(PhoneRequired) else None)
    ensures forall k :: (k != "title" && k != n.serviceType && k != n.contactFullName && k != n.contactEmail
                         && k != n.contactPhone) ==> Get(r, k) == None
  {
    var e0 := TitleServiceErrors(formData, n);
    var e1 := Flag(e0, IsBlank(Text(formData, n.contactFullName)), n.contactFullName, ContactNameRequired);
    var e2 := Flag(e1, IsBlank(Text(formData, n.contactEmail)), n.contactEmail, EmailRequired);
    Flag(e2, IsBlank(Text(formData, n.contactPhone)), n.contactPhone, PhoneRequired)
  }

  /** No message at all exactly when every creation check passes. */
  lemma {:induction false} CreationErrorsEmptyIff(formData: FormData, n: FieldNames)
    requires n.Distinct()
    ensures CreationErrors(formData, n) == [] <==>
              TitleError(Text(formData, "title")).None? && Truthy(Prop(formData, n.serviceType))
              && !IsBlank(Text(formData, n.contactFullName)) && !IsBlank(Text(formData, n.contactEmail))
              && !IsBlank(Text(formData, n.contactPhone))
  {
    var r := CreationErrors(formData, n);
    if r == [] {
      assert Get(r, "title") == None && Get(r, n.serviceType) == None;
      assert Get(r, n.contactFullName) == None && Get(r, n.contactEmail) == None && Get(r, n.contactPhone) == None;
    } else {
      var k := r[0].0;
      assert IndexOf(r, k) == 0;
    }
  }

  // The inline email pattern `^[^\s@]+@[^\s@]+\.[^\s@]+$`.

  /** `[^\s@]*`: no whitespace and no `@`. */
  predicate Plain(s: string) {
    forall k :: 0 <= k < |s| ==> s[k] != '@' && !IsSpace(s[k])
  }

  /** The part after `@`: plain, with a dot that is neither its first nor
      its last character. */
  predicate Domain(d: string) {
    Plain(d) && exists j :: 0 < j < |d| - 1 && d[j] == '.'
  }

  /** The pattern matches: a plain non-empty name, `@`, then a domain. */
  predicate MatchesEmail(s: string) {
    exists i :: 0 < i < |s| && s[i] == '@' && Plain(s[..i]) && Domain(s[i + 1..])
  }

  /** Every `name@host.tld` of plain non-empty parts matches. */
  lemma {:induction false} EmailOfParts(name: string, host: string, tld: string)
    requires name != "" && host != "" && tld != ""
    requires Plain(name) && Plain(host) && Plain(tld)
    ensures MatchesEmail(name + "@" + host + "." + tld)
  {
    var s := name + "@" + host + "." + tld;
    var i := |name|;
    assert s[..i] == name;
    var d := s[i + 1..];
    assert d == host + "." + tld;
    assert d[|host|] == '.';
    assert Plain(d) by {
      forall k | 0 <= k < |d| ensures d[k] != '@' && !IsSpace(d[k]) {
        if k < |host| {
          assert d[k] == host[k];
        } else if k > |host| {
          assert d[k] == tld[k - |host| - 1];
        }
      }
    }
  }

  /** A matching address has exactly one `@`, no whitespace, and so is not
      blank. */
  lemma {:induction false} MatchingEmailShape(s: string)
    requires MatchesEmail(s)
    ensures !IsBlank(s)
    ensures forall k :: 0 <= k < |s| ==> !IsSpace(s[k])
    ensures exists i :: 0 <= i < |s| && s[i] == '@' && forall k :: 0 <= k < |s| && k != i ==> s[k] != '@'
  {
    var i :| 0 < i < |s| && s[i] == '@' && Plain(s[..i]) && Domain(s[i + 1..]);
    forall k | 0 <= k < |s| ensures !IsSpace(s[k]) && (k != i ==> s[k] != '@') {
      if k < i {
        assert s[k] == s[..i][k];
      } else if k > i {
        assert s[k] == s[i + 1..][k - i - 1];
      }
    }
    BlankIffAllSpace(s);
    assert !IsSpace(s[0]);
  }

  /** Addresses the pattern refuses: no dot after `@`, a space, two `@`. */
  lemma {:induction false} EmailCounterexamples()
    ensures !MatchesEmail("a@b")
    ensures !MatchesEmail("a b@c.d")
    ensures !MatchesEmail("a@b@c.d")
    ensures MatchesEmail("a@b.c")
  {
    var s := "a b@c.d";
    forall i | 0 < i < |s| && s[i] == '@' ensures !Plain(s[..i]) {
      assert i == 3;
      assert s[..i][1] == ' ';
    }
    var t := "a@b@c.d";
    forall i | 0 < i < |t| && t[i] == '@' ensures !(Plain(t[..i]) && Domain(t[i + 1..])) {
      if i == 1 {
        assert t[i + 1..][1] == '@';
      } else {
        assert i == 3;
        assert t[..i][1] == '@';
      }
    }
    EmailOfParts("a", "b", "c");
    assert "a" + "@" + "b" + "." + "c" == "a@b.c";
  }

  // The checks of the forms that edit an application (`validateForm`).

  const EditTitleRequired := "Укажите название заявки"
  const EditServiceTypeRequired := "Выберите тип услуги"
  const EditDescriptionRequired := "Опишите вашу заявку"
  const EditContactNameRequired := "Укажите контактное лицо"
  const EditEmailRequired := "Укажите email"
  const EditEmailInvalid := "Некорректный email"
  const EditPhoneRequired := "Укажите телефон"

  /** The email message: "required" when blank, "invalid" when the pattern
      does not match; none exactly when the pattern matches. */
  function EmailError(email: string): (r: Option<string>)
    ensures r.None? <==> MatchesEmail(email)
    ensures IsBlank(email) ==> r == Some(EditEmailRequired)
    ensures !IsBlank(email) && r.Some? ==> r.value == EditEmailInvalid
  {
    if IsBlank(email) then
      (if MatchesEmail(email) then MatchingEmailShape(email); Some(EditEmailRequired) else Some(EditEmailRequired))
    else if !MatchesEmail(email) then Some(EditEmailInvalid)
    else None
  }

  /** The first two checks of `validateForm`: title and service type. */
  function EditTitleServiceErrors(formData: FormData, n: FieldNames): (r: Errors)
    requires n.Distinct()
    ensures Get(r, "title") == (if IsBlank(Text(formData, "title")) then Some(EditTitleRequired) else None)
    ensures Get(r, n.serviceType) == (if Truthy(Prop(formData, n.serviceType)) then None else Some(EditServiceTypeRequired))
    ensures forall k :: (k != "title" && k != n.serviceType) ==> Get(r, k) == None
  {
    var e0 := Flag([], IsBlank(Text(formData, "title")), "title", EditTitleRequired);
    Flag(e0, !Truthy(Prop(formData, n.serviceType)), n.serviceType, EditServiceTypeRequired)
  }

  /** The first four checks of `validateForm`: title, service type,
      description, and the contact name when the form asks for it. */
  function EditHeadErrors(formData: FormData, n: FieldNames, checkContactName: bool): (r: Errors)
    requires n.Distinct()
    ensures Get(r, "title") == (if IsBlank(Text(formData, "title")) then Some(EditTitleRequired) else None)
    ensures Get(r, n.serviceType) == (if Truthy(Prop(formData, n.serviceType)) then None else Some(EditServiceTypeRequired))
    ensures Get(r, "description") == (if IsBlank(Text(formData, "description")) then Some(EditDescriptionRequired) else None)
    ensures Get(r, n.contactFullName) ==
              (if checkContactName && IsBlank(Text(formData, n.contactFullName)) then Some(EditContactNameRequired) else None)
    ensures forall k :: (k != "title" && k != "description" && k != n.serviceType && k != n.contactFullName) ==> Get(r, k) == None
  {
    var e1 := EditTitleServiceErrors(formData, n);
    var e2 := Flag(e1, IsBlank(Text(formData, "description")), "description", EditDescriptionRequired);
    Flag(e2, checkContactName && IsBlank(Text(formData, n.contactFullName)), n.contactFullName, EditContactNameRequired)
  }

  /** `validateForm`: the four checks above, then the email (required, then
      the pattern) and the phone, in that order. */
  function EditErrors(formData: FormData, n: FieldNames, checkContactName: bool): (r: Errors)
    requires n.Distinct()
    ensures Get(r, "title") == (if IsBlank(Text(formData, "title")) then Some(EditTitleRequired) else None)
    ensures Get(r, n.serviceType) == (if Truthy(Prop(formData, n.serviceType)) then None else Some(EditServiceTypeRequired))
    ensures Get(r, "description") == (if IsBlank(Text(formData, "description")) then Some(EditDescriptionRequired) else None)
    ensures Get(r, n.contactFullName) ==
              (if checkContactName && IsBlank(Text(formData, n.contactFullName)) then Some(EditContactNameRequired) else None)
    ensures Get(r, n.contactEmail) == EmailError(Text(formData, n.contactEmail))
    ensures Get(r, n.contactPhone) == (if IsBlank(Text(formData, n.contactPhone)) then Some(EditPhoneRequired) else None)
    ensures forall k :: (k != "title" && k != "description" && k != n.serviceType && k != n.contactFullName
                         && k != n.contactEmail && k != n.contactPhone) ==> Get(r, k) == None
  {
    var e3 := EditHeadErrors(formData, n, checkContactName);
    var email := EmailError(Text(formData, n.contactEmail));
    var e4 := Flag(e3, email.Some?, n.contactEmail, email.GetOr(""));
    Flag(e4, IsBlank(Text(formData, n.contactPhone)), n.contactPhone, EditPhoneRequired)
  }

  /** The form is valid exactly when every check passes; in particular an
      invalid email address alone makes it invalid. */
  lemma {:induction false} EditErrorsEmptyIff(formData: FormData, n: FieldNames, checkContactName: bool)
    requires n.Distinct()
    ensures EditErrors(formData, n, checkContactName) == [] <==>
              !IsBlank(Text(formData, "title")) && Truthy(Prop(formData, n.serviceType))
              && !IsBlank(Text(formData, "description"))
              && !(checkContactName && IsBlank(Text(formData, n.contactFullName)))
              && MatchesEmail(Text(formData, n.contactEmail)) && !IsBlank(Text(formData, n.contactPhone))
  {
    var r := EditErrors(formData, n, checkContactName);
    if r == [] {
      assert Get(r, "title") == None && Get(r, n.serviceType) == None && Get(r, "description") == None;
      assert Get(r, n.contactFullName) == None && Get(r, n.contactEmail) == None && Get(r, n.contactPhone) == None;
    } else {
      var k := r[0].0;
      assert IndexOf(r, k) == 0;
    }
  }
}
