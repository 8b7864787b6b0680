/** The validators of src/utils/validation.js. The email and URL checks of the
    `validator` library are not part of this model: the email check is a
    parameter `isEmail`, and `validateUrl` / `validateDate` are left out. */
module Validation {
  import opened JsValue
  import opened JsObject
  import opened JsText
  import opened PhoneNormalizer
  import opened PhoneMask

  /** `validateEmail`: a string without a space that the external checker accepts. */
  predicate ValidateEmail(v: Value, isEmail: string -> bool) {
    v.Str? && ' ' !in v.s && isEmail(v.s)
  }

  predicate IsLower(c: char) { 'a' <= c <= 'z' }
  predicate IsUpper(c: char) { 'A' <= c <= 'Z' }

  /** `[a-zA-Z\d@$!%*?&]` */
  predicate PasswordChar(c: char) {
    IsLower(c) || IsUpper(c) || IsDigit(c) || c in "@$!%*?&"
  }

  /** `validatePassword`: at least eight characters from the allowed set, with a
      lowercase letter, an uppercase letter and a digit somewhere. */
  predicate ValidatePassword(v: Value) {
    v.Str? && |v.s| >= 8
    && (forall i :: 0 <= i < |v.s| ==> PasswordChar(v.s[i]))
    && (exists i :: 0 <= i < |v.s| && IsLower(v.s[i]))
    && (exists i :: 0 <= i < |v.s| && IsUpper(v.s[i]))
    && (exists i :: 0 <= i < |v.s| && IsDigit(v.s[i]))
  }

  /** `[a-zA-Zа-яА-ЯёЁ\s\-]` */
  predicate NameChar(c: char) {
    IsLower(c) || IsUpper(c) || ('а' <= c <= 'я') || ('А' <= c <= 'Я')
    || c == 'ё' || c == 'Ё' || IsSpace(c) || c == '-'
  }

  /** `validateFullName`: the trimmed string has 2 to 100 characters, all letters,
      whitespace or hyphens. */
  predicate ValidateFullName(v: Value) {
    v.Str? &&
    var t := Trim(v.s);
    2 <= |t| <= 100 && forall i :: 0 <= i < |t| ==> NameChar(t[i])
  }

  /** The part of a phone after an optional leading "+". */
  function AfterPlus(s: string): (r: string)
    ensures r == s || (s != "" && s[0] == '+' && r == s[1..])
  {
    if |s| > 0 && s[0] == '+' then s[1..] else s
  }

  /** `validatePhone`: `^\+?[1-9]\d{1,14}$`. */
  predicate ValidatePhone(v: Value) {
    v.Str? &&
    var r := AfterPlus(v.s);
    2 <= |r| <= 15 && AllDigits(r) && r[0] != '0'
  }

  /** `validateCompanyName`: anything but a string passes; a string is capped at 100. */
  predicate ValidateCompanyName(v: Value) {
    v.Str? ==> |v.s| <= 100
  }

  /** `validateTitle`: a string of 5 to 200 characters. */
  predicate ValidateTitle(v: Value) {
    v.Str? && 5 <= |v.s| <= 200
  }

  /** `validateDescription`: anything but a string passes; a string is capped at 5000. */
  predicate ValidateDescription(v: Value) {
    v.Str? ==> |v.s| <= 5000
  }

  /** `validateBudget`: a non-negative number. */
  predicate ValidateBudget(v: Value) {
    v.Num? && v.n >= 0
  }

  predicate IsHex(c: char) {
    IsDigit(c) || ('a' <= c <= 'f') || ('A' <= c <= 'F')
  }

  /** What the UUID pattern allows at position `i`. */
  predicate UuidCharAt(i: int, c: char) {
    if i == 8 || i == 13 || i == 18 || i == 23 then c == '-'
    else if i == 14 then '1' <= c <= '5'
    else if i == 19 then c in "89abAB"
    else IsHex(c)
  }

  /** `validateUUID`: 8-4-4-4-12 hex digits in any case, version 1 to 5 and
      variant 8, 9, a or b. */
  predicate ValidateUUID(v: Value) {
    v.Str? && |v.s| == 36 && forall i :: 0 <= i < 36 ==> UuidCharAt(i, v.s[i])
  }

  const ServiceTypes: seq<string> := ["landing_page", "corporate_site", "ecommerce", "web_application", "other"]
  const Priorities: seq<string> := ["low", "normal", "high", "urgent"]
  const Statuses: seq<string> :=
    ["draft", "submitted", "in_review", "approved", "in_progress", "completed", "cancelled", "rejected"]
  const FileTypes: seq<string> := ["technical_spec", "design_reference", "content", "other"]
  const NoteTypes: seq<string> := ["internal", "comment", "system", "change_log"]

  /** `list.includes(v)`: strict equality, so only a string can match. */
  predicate Includes(list: seq<string>, v: Value) {
    v.Str? && v.s in list
  }

  predicate ValidateServiceType(v: Value) { Includes(ServiceTypes, v) }
  predicate ValidatePriority(v: Value) { Includes(Priorities, v) }
  predicate ValidateStatus(v: Value) { Includes(Statuses, v) }
  predicate ValidateFileType(v: Value) { Includes(FileTypes, v) }
  predicate ValidateNoteType(v: Value) { Includes(NoteTypes, v) }

  // ---------------------------------------------------------------------------
  // Properties of the single-field validators

  /** A password the validator accepts also passes the register form's own
      checks (present, at least six characters). */
  lemma ValidPasswordPassesFormChecks(s: string)
    requires ValidatePassword(Str(s))
    ensures s != "" && |s| >= 6
  {
  }

  /** Six lowercase letters pass the register form's checks but not the validator. */
  lemma {:induction false} WeakPasswordExample()
    ensures !ValidatePassword(Str("abcdef"))
  {
  }

  /** The three character classes are each required. */
  lemma {:induction false} PasswordNeedsEachClass(s: string)
    requires ValidatePassword(Str(s))
    ensures !AllLower(s)
  {
    var i :| 0 <= i < |s| && IsUpper(s[i]);
  }

  predicate AllLower(s: string) {
    forall i :: 0 <= i < |s| ==> IsLower(s[i])
  }

  /** A sample of the allowed shape is accepted. */
  lemma {:induction false} StrongPasswordExample()
    ensures ValidatePassword(Str("Passw0rd"))
  {
    var s := "Passw0rd";
    assert IsUpper(s[0]) && IsLower(s[1]) && IsDigit(s[5]);
  }

  /** Trimming twice is trimming once. */
  lemma {:induction false} TrimIdempotent(s: string)
    ensures Trim(Trim(s)) == Trim(s)
  {
    var t := TrimStart(s);
    var e := TrimEnd(t);
    if e != "" {
      assert e[0] == t[0];
      assert TrimStart(e) == e;
    }
  }

  /** Surrounding whitespace never changes the full-name verdict. */
  lemma {:induction false} FullNameIgnoresSurroundingSpace(s: string)
    ensures ValidateFullName(Str(s)) == ValidateFullName(Str(Trim(s)))
  {
    TrimIdempotent(s);
  }

  /** An accepted full name is not blank, so it also passes the forms' required check. */
  lemma {:induction false} ValidFullNameIsNotBlank(s: string)
    requires ValidateFullName(Str(s))
    ensures !IsBlank(s)
  {
    BlankIffTrimEmpty(s);
  }

  /** The canonical server form of a phone passes `validatePhone`. */
  lemma {:induction false} CanonicalPhoneIsValid(s: string)
    requires IsCanonical(s)
    ensures ValidatePhone(Str(s))
  {
  }

  /** Every output of the normalizer that is canonical passes `validatePhone`. */
  lemma {:induction false} NormalizedPhoneIsValid(phone: string)
    requires IsCanonical(ExtractPhoneForServer(phone))
    ensures ValidatePhone(Str(ExtractPhoneForServer(phone)))
  {
    CanonicalPhoneIsValid(ExtractPhoneForServer(phone));
  }

  /** The third character of a layout of two or more digits is the space of " (". */
  lemma {:induction false} LayoutThirdChar(d: string)
    requires |d| >= 2
    ensures |Layout(d)| > 2 && Layout(d)[2] == ' '
  {
    var s0, s1 := Segment(d, "+", 0, 1), Segment(d, " (", 1, 4);
    assert |s0| == 2 by {
      assert s0 == "+" + Substring(d, 0, 1);
    }
    assert |s1| >= 2 && s1[0] == ' ' by {
      assert s1 == " (" + Substring(d, 1, 4);
    }
    var a := s0 + s1;
    assert |a| > 2 && a[2] == ' ';
    var b := a + Segment(d, ") ", 4, 7);
    assert |b| > 2 && b[2] == ' ';
    var c := b + Segment(d, "-", 7, 9);
    assert |c| > 2 && c[2] == ' ';
    assert Layout(d) == c + Segment(d, "-", 9, 11);
  }

  /** What a masked field holds never passes `validatePhone`: one digit gives
      "+7", which is too short, and more digits bring in " (". */
  lemma {:induction false} MaskedPhoneIsInvalid(input: string)
    ensures !ValidatePhone(Str(StandardMask(input)))
  {
    var q := Shown(input);
    StandardMaskIsLayoutOfShown(input);
    var m := StandardMask(input);
    if |q| >= 2 {
      LayoutThirdChar(q);
      assert AfterPlus(m)[1] == ' ';
    } else if |q| == 1 {
      assert m == "+" + q;
    }
  }

  /** `validateTitle` accepts five spaces, which every form's required check rejects. */
  lemma {:induction false} BlankTitlePassesValidator()
    ensures ValidateTitle(Str("     ")) && IsBlank("     ")
  {
    BlankIffAllSpace("     ");
  }

  /** Optional fields: non-strings always pass; strings pass up to the cap. */
  lemma {:induction false} OptionalFieldsCap(v: Value)
    ensures !v.Str? ==> ValidateCompanyName(v) && ValidateDescription(v)
    ensures v.Str? ==> (ValidateCompanyName(v) <==> |v.s| <= 100)
    ensures v.Str? ==> (ValidateDescription(v) <==> |v.s| <= 5000)
    ensures ValidateCompanyName(v) ==> ValidateDescription(v)
  {
  }

  /** A UUID assembled from hex groups of lengths 8-4-4-4-12 with a version
      digit 1 to 5 and a variant digit 8, 9, a or b is accepted. */
  lemma {:induction false} UuidOfGroups(a: string, b: string, c: string, d: string, e: string)
    requires |a| == 8 && |b| == 4 && |c| == 4 && |d| == 4 && |e| == 12
    requires forall i :: 0 <= i < |a| ==> IsHex(a[i])
    requires forall i :: 0 <= i < |b| ==> IsHex(b[i])
    requires forall i :: 0 <= i < |c| ==> IsHex(c[i])
    requires forall i :: 0 <= i < |d| ==> IsHex(d[i])
    requires forall i :: 0 <= i < |e| ==> IsHex(e[i])
    requires '1' <= c[0] <= '5' && d[0] in "89abAB"
    ensures ValidateUUID(Str(a + "-" + b + "-" + c + "-" + d + "-" + e))
  {
    var s := a + "-" + b + "-" + c + "-" + d + "-" + e;
    forall i | 0 <= i < 36 ensures UuidCharAt(i, s[i]) {
      if i < 8 { assert s[i] == a[i]; }
      else if i == 8 { }
      else if i < 13 { assert s[i] == b[i - 9]; }
      else if i == 13 { }
      else if i < 18 { assert s[i] == c[i - 14]; }
      else if i == 18 { }
      else if i < 23 { assert s[i] == d[i - 19]; }
      else if i == 23 { }
      else { assert s[i] == e[i - 24]; }
    }
  }

  /** Letters folded to lowercase. */
  function ToLower(s: string): (r: string)
    ensures |r| == |s|
    ensures forall i :: 0 <= i < |s| ==> r[i] == (if IsUpper(s[i]) then s[i] - 'A' + 'a' else s[i])
  {
    if s == [] then [] else [if IsUpper(s[0]) then s[0] - 'A' + 'a' else s[0]] + ToLower(s[1..])
  }

  /** The `i` flag: a string is a UUID exactly when its lowercase form is. */
  lemma {:induction false} UuidCaseInsensitive(s: string)
    ensures ValidateUUID(Str(s)) <==> ValidateUUID(Str(ToLower(s)))
  {
    var l := ToLower(s);
    if |s| == 36 {
      forall i | 0 <= i < 36 ensures UuidCharAt(i, s[i]) <==> UuidCharAt(i, l[i]) {
      }
    }
  }

  /** The priority the edit forms default to is not a valid priority. */
  lemma {:induction false} MediumPriorityRejected()
    ensures !ValidatePriority(Str("medium")) && ValidatePriority(Str("normal"))
  {
  }

  /** The "redesign" service the application form offers is not a valid service type. */
  lemma {:induction false} RedesignServiceRejected()
    ensures !ValidateServiceType(Str("redesign"))
  {
  }

  /** Two statuses the admin panel labels are not valid statuses. */
  lemma {:induction false} AdminOnlyStatusesRejected()
    ensures !ValidateStatus(Str("needs_info")) && !ValidateStatus(Str("estimated"))
  {
  }

  /** Enumerations compare strictly: no value other than a listed string passes. */
  lemma {:induction false} EnumsAcceptOnlyListedStrings(v: Value)
    ensures ValidateServiceType(v) <==> v.Str? && v.s in ServiceTypes
    ensures ValidatePriority(v) ==> v != Str("medium")
    ensures ValidateFileType(v) && ValidateServiceType(v) <==> v == Str("other")
    ensures ValidateNoteType(v) ==> !ValidateStatus(v)
  {
  }

  // ---------------------------------------------------------------------------
  // The aggregate validators

  const EmailFormatMessage := "Некорректный формат email"
  const PasswordRuleMessage := "Пароль должен содержать минимум 8 символов, включая заглавную букву, строчную букву и цифру"
  const FullNameRuleMessage := "ФИО должно содержать только буквы, иметь длину от 2 до 100 символов"
  const PhoneFormatMessage := "Некорректный формат телефона"
  const CompanyNameMessage := "Название компании не должно превышать 100 символов"

  const TitleRuleMessage := "Заголовок должен содержать от 5 до 200 символов"
  const DescriptionRuleMessage := "Описание не должно превышать 5000 символов"
  const BudgetRuleMessage := "Бюджет должен быть неотрицательным числом"
  const ContactEmailMessage := "Некорректный формат email контакта"
  const ContactPhoneMessage := "Некорректный формат телефона контакта"

  /** The messages of `msgs` whose check failed, in check order. */
  function Selected(msgs: seq<string>, failed: seq<bool>): (r: seq<string>)
    requires |msgs| == |failed|
    ensures |r| <= |msgs|
    ensures forall m :: m in r ==> m in msgs
    ensures r == [] <==> forall i :: 0 <= i < |failed| ==> !failed[i]
  {
    if msgs == [] then []
    else (if failed[0] then [msgs[0]] else []) + Selected(msgs[1..], failed[1..])
  }

  function Pick(failed: bool, m: string): seq<string> {
    if failed then [m] else []
  }

  lemma {:induction false} SelectedCons(msgs: seq<string>, failed: seq<bool>)
    requires |msgs| == |failed| > 0
    ensures Selected(msgs, failed) == Pick(failed[0], msgs[0]) + Selected(msgs[1..], failed[1..])
  {
  }

  /** One step of `Selected` from position `k` on. */
  lemma {:induction false} SelectedFrom(msgs: seq<string>, failed: seq<bool>, k: nat)
    requires |msgs| == |failed| && k < |msgs|
    ensures Selected(msgs[k..], failed[k..]) == Pick(failed[k], msgs[k]) + Selected(msgs[k + 1..], failed[k + 1..])
  {
    SelectedCons(msgs[k..], failed[k..]);
    assert msgs[k..][1..] == msgs[k + 1..];
    assert failed[k..][1..] == failed[k + 1..];
  }

  lemma {:induction false} SelectedOfFive(msgs: seq<string>, failed: seq<bool>)
    requires |msgs| == 5 && |failed| == 5
    ensures Selected(msgs, failed) == Pick(failed[0], msgs[0]) + Pick(failed[1], msgs[1])
              + Pick(failed[2], msgs[2]) + Pick(failed[3], msgs[3]) + Pick(failed[4], msgs[4])
  {
    var p0, p1, p2, p3, p4 := Pick(failed[0], msgs[0]), Pick(failed[1], msgs[1]),
      Pick(failed[2], msgs[2]), Pick(failed[3], msgs[3]), Pick(failed[4], msgs[4]);
    SelectedFrom(msgs, failed, 4);
    assert Selected(msgs[5..], failed[5..]) == [];
    var s4 := Selected(msgs[4..], failed[4..]);
    assert s4 == p4;
    SelectedFrom(msgs, failed, 3);
    var s3 := Selected(msgs[3..], failed[3..]);
    assert s3 == p3 + p4;
    SelectedFrom(msgs, failed, 2);
    var s2 := Selected(msgs[2..], failed[2..]);
    assert s2 == p2 + (p3 + p4);
    AppendAssoc(p2, p3, p4);
    SelectedFrom(msgs, failed, 1);
    var s1 := Selected(msgs[1..], failed[1..]);
    assert s1 == p1 + ((p2 + p3) + p4);
    AppendAssoc(p1, p2 + p3, p4);
    AppendAssoc(p1, p2, p3);
    SelectedFrom(msgs, failed, 0);
    assert msgs[0..] == msgs && failed[0..] == failed;
    assert Selected(msgs, failed) == p0 + (((p1 + p2) + p3) + p4);
    AppendAssoc(p0, (p1 + p2) + p3, p4);
    AppendAssoc(p0, p1 + p2, p3);
    AppendAssoc(p0, p1, p2);
  }

  /** Regrouping a concatenation, kept as a lemma so that each use brings
      only its own instance into the proof above. */
  lemma AppendAssoc(a: seq<string>, b: seq<string>, c: seq<string>)
    ensures a + (b + c) == (a + b) + c
  {
  }

  /** Five pushes onto an empty list give the selected messages. */
  lemma {:induction false} FivePushes(msgs: seq<string>, failed: seq<bool>, errors: seq<string>)
    requires |msgs| == 5 && |failed| == 5
    requires errors == [] + Pick(failed[0], msgs[0]) + Pick(failed[1], msgs[1])
               + Pick(failed[2], msgs[2]) + Pick(failed[3], msgs[3]) + Pick(failed[4], msgs[4])
    ensures errors == Selected(msgs, failed)
  {
    SelectedOfFive(msgs, failed);
    assert [] + Pick(failed[0], msgs[0]) == Pick(failed[0], msgs[0]);
  }

  predicate Distinct(msgs: seq<string>) {
    forall i, j :: 0 <= i < j < |msgs| ==> msgs[i] != msgs[j]
  }

  /** With distinct messages, a message is reported exactly when its check failed. */
  lemma {:induction false} SelectedMember(msgs: seq<string>, failed: seq<bool>, k: int)
    requires |msgs| == |failed| && 0 <= k < |msgs| && Distinct(msgs)
    ensures msgs[k] in Selected(msgs, failed) <==> failed[k]
    decreases k
  {
    SelectedCons(msgs, failed);
    if k == 0 {
      assert msgs[0] !in msgs[1..] by {
        forall j | 0 <= j < |msgs[1..]| ensures msgs[1..][j] != msgs[0] {
          assert msgs[1..][j] == msgs[j + 1];
        }
      }
    } else {
      assert msgs[1..][k - 1] == msgs[k];
      SelectedMember(msgs[1..], failed[1..], k - 1);
    }
  }

  /** `if (failed) errors.push(message)`. */
  method PushIf(errors: seq<string>, failed: bool, message: string) returns (r: seq<string>)
    ensures r == errors + Pick(failed, message)
  {
    r := errors;
    if failed {
      r := r + [message];
    }
  }

  /** The register checks in order: email, password, full name, phone (only
      when truthy), company name (only when truthy). */
  function RegisterFailures(userData: Entries<Value>, isEmail: string -> bool): seq<bool> {
    [ !ValidateEmail(Prop(userData, "email"), isEmail),
      !ValidatePassword(Prop(userData, "password")),
      !ValidateFullName(Prop(userData, "fullName")),
      Truthy(Prop(userData, "phone")) && !ValidatePhone(Prop(userData, "phone")),
      Truthy(Prop(userData, "companyName")) && !ValidateCompanyName(Prop(userData, "companyName")) ]
  }

  const RegisterMessages: seq<string> :=
    [EmailFormatMessage, PasswordRuleMessage, FullNameRuleMessage, PhoneFormatMessage, CompanyNameMessage]

  /** With the register checks, each message is reported exactly when its
      check fails. */
  lemma {:induction false} RegisterMessageIff(userData: Entries<Value>, isEmail: string -> bool)
    ensures var errors := Selected(RegisterMessages, RegisterFailures(userData, isEmail));
            && (EmailFormatMessage in errors <==> !ValidateEmail(Prop(userData, "email"), isEmail))
            && (PasswordRuleMessage in errors <==> !ValidatePassword(Prop(userData, "password")))
            && (FullNameRuleMessage in errors <==> !ValidateFullName(Prop(userData, "fullName")))
            && (PhoneFormatMessage in errors <==>
                  Truthy(Prop(userData, "phone")) && !ValidatePhone(Prop(userData, "phone")))
            && (CompanyNameMessage in errors <==>
                  Truthy(Prop(userData, "companyName")) && !ValidateCompanyName(Prop(userData, "companyName")))
  {
    var f := RegisterFailures(userData, isEmail);
    assert Distinct(RegisterMessages);
    SelectedMember(RegisterMessages, f, 0);
    SelectedMember(RegisterMessages, f, 1);
    SelectedMember(RegisterMessages, f, 2);
    SelectedMember(RegisterMessages, f, 3);
    SelectedMember(RegisterMessages, f, 4);
  }

  /** The five pushes of `ValidateRegisterData`, in order, give the selected messages. */
  lemma {:induction false} RegisterPushes(userData: Entries<Value>, isEmail: string -> bool, errors: seq<string>)
    requires errors == []
               + Pick(!ValidateEmail(Prop(userData, "email"), isEmail), EmailFormatMessage)
               + Pick(!ValidatePassword(Prop(userData, "password")), PasswordRuleMessage)
               + Pick(!ValidateFullName(Prop(userData, "fullName")), FullNameRuleMessage)
               + Pick(Truthy(Prop(userData, "phone")) && !ValidatePhone(Prop(userData, "phone")), PhoneFormatMessage)
               + Pick(Truthy(Prop(userData, "companyName")) && !ValidateCompanyName(Prop(userData, "companyName")), CompanyNameMessage)
    ensures errors == Selected(RegisterMessages, RegisterFailures(userData, isEmail))
  {
    FivePushes(RegisterMessages, RegisterFailures(userData, isEmail), errors);
  }

  /** `validateRegisterData`: one message per failed check, pushed in check order. */
  method ValidateRegisterData(userData: Entries<Value>, isEmail: string -> bool)
    returns (isValid: bool, errors: seq<string>)
    ensures errors == Selected(RegisterMessages, RegisterFailures(userData, isEmail))
    ensures isValid <==> errors == []
  {
    errors := [];
    errors := PushIf(errors, !ValidateEmail(Prop(userData, "email"), isEmail), EmailFormatMessage);
    errors := PushIf(errors, !ValidatePassword(Prop(userData, "password")), PasswordRuleMessage);
    errors := PushIf(errors, !ValidateFullName(Prop(userData, "fullName")), FullNameRuleMessage);
    errors := PushIf(errors, Truthy(Prop(userData, "phone")) && !ValidatePhone(Prop(userData, "phone")), PhoneFormatMessage);
    errors := PushIf(errors, Truthy(Prop(userData, "companyName")) && !ValidateCompanyName(Prop(userData, "companyName")), CompanyNameMessage);
    RegisterPushes(userData, isEmail, errors);
    isValid := |errors| == 0;
  }

  /** The application checks in order: title, description, budget, contact
      email, contact phone; the last three only when the field is truthy. */
  function ApplicationFailures(data: Entries<Value>, isEmail: string -> bool): seq<bool> {
    [ !ValidateTitle(Prop(data, "title")),
      !ValidateDescription(Prop(data, "description")),
      Truthy(Prop(data, "budget")) && !ValidateBudget(Prop(data, "budget")),
      Truthy(Prop(data, "contactEmail")) && !ValidateEmail(Prop(data, "contactEmail"), isEmail),
      Truthy(Prop(data, "contact_phone")) && !ValidatePhone(Prop(data, "contact_phone")) ]
  }

  const ApplicationMessages: seq<string> :=
    [TitleRuleMessage, DescriptionRuleMessage, BudgetRuleMessage, ContactEmailMessage, ContactPhoneMessage]

  /** With the application checks, each message is reported exactly when its
      check fails. */
  lemma {:induction false} ApplicationMessageIff(data: Entries<Value>, isEmail: string -> bool)
    ensures var errors := Selected(ApplicationMessages, ApplicationFailures(data, isEmail));
            && (TitleRuleMessage in errors <==> !ValidateTitle(Prop(data, "title")))
            && (DescriptionRuleMessage in errors <==> !ValidateDescription(Prop(data, "description")))
            && (BudgetRuleMessage in errors <==>
                  Truthy(Prop(data, "budget")) && !ValidateBudget(Prop(data, "budget")))
            && (ContactEmailMessage in errors <==>
                  Truthy(Prop(data, "contactEmail")) && !ValidateEmail(Prop(data, "contactEmail"), isEmail))
            && (ContactPhoneMessage in errors <==>
                  Truthy(Prop(data, "contact_phone")) && !ValidatePhone(Prop(data, "contact_phone")))
  {
    var f := ApplicationFailures(data, isEmail);
    assert Distinct(ApplicationMessages);
    SelectedMember(ApplicationMessages, f, 0);
    SelectedMember(ApplicationMessages, f, 1);
    SelectedMember(ApplicationMessages, f, 2);
    SelectedMember(ApplicationMessages, f, 3);
    SelectedMember(ApplicationMessages, f, 4);
  }

  /** The five pushes of `ValidateApplicationData`, in order, give the selected messages. */
  lemma {:induction false} ApplicationPushes(data: Entries<Value>, isEmail: string -> bool, errors: seq<string>)
    requires errors == []
               + Pick(!ValidateTitle(Prop(data, "title")), TitleRuleMessage)
               + Pick(!ValidateDescription(Prop(data, "description")), DescriptionRuleMessage)
               + Pick(Truthy(Prop(data, "budget")) && !ValidateBudget(Prop(data, "budget")), BudgetRuleMessage)
               + Pick(Truthy(Prop(data, "contactEmail")) && !ValidateEmail(Prop(data, "contactEmail"), isEmail), ContactEmailMessage)
               + Pick(Truthy(Prop(data, "contact_phone")) && !ValidatePhone(Prop(data, "contact_phone")), ContactPhoneMessage)
    ensures errors == Selected(ApplicationMessages, ApplicationFailures(data, isEmail))
  {
    FivePushes(ApplicationMessages, ApplicationFailures(data, isEmail), errors);
  }

  /** `validateApplicationData`: one message per failed check, pushed in check order. */
  method ValidateApplicationData(data: Entries<Value>, isEmail: string -> bool)
    returns (isValid: bool, errors: seq<string>)
    ensures errors == Selected(ApplicationMessages, ApplicationFailures(data, isEmail))
    ensures isValid <==> errors == []
  {
    errors := [];
    errors := PushIf(errors, !ValidateTitle(Prop(data, "title")), TitleRuleMessage);
    errors := PushIf(errors, !ValidateDescription(Prop(data, "description")), DescriptionRuleMessage);
    errors := PushIf(errors, Truthy(Prop(data, "budget")) && !ValidateBudget(Prop(data, "budget")), BudgetRuleMessage);
    errors := PushIf(errors, Truthy(Prop(data, "contactEmail")) && !ValidateEmail(Prop(data, "contactEmail"), isEmail), ContactEmailMessage);
    errors := PushIf(errors, Truthy(Prop(data, "contact_phone")) && !ValidatePhone(Prop(data, "contact_phone")), ContactPhoneMessage);
    ApplicationPushes(data, isEmail, errors);
    isValid := |errors| == 0;
  }

  /** A budget of 0 is falsy and is never checked; a negative budget is reported. */
  lemma {:induction false} BudgetCheckSkipsZero(data: Entries<Value>, isEmail: string -> bool)
    ensures Prop(data, "budget") == Num(0) ==> !ApplicationFailures(data, isEmail)[2]
    ensures (Prop(data, "budget").Num? && Prop(data, "budget").n < 0) ==> ApplicationFailures(data, isEmail)[2]
  {
  }

  /** The masked phone a form holds, if it reached `validateRegisterData`,
      would always be reported. */
  lemma {:induction false} MaskedRegisterPhoneReported(userData: Entries<Value>, isEmail: string -> bool, input: string)
    requires Prop(userData, "phone") == Str(StandardMask(input)) && Digits(input) != ""
    ensures RegisterFailures(userData, isEmail)[3]
  {
    MaskedPhoneIsInvalid(input);
    StandardMaskShape(input);
  }
}
