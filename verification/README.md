# web_order-client in Dafny

A model of the client-side logic of the web_order React front end: the
phone pipeline (the keystroke masks and the normalizer that produces the
digit string sent to the backend), the validators, the payload key mapping
and error-message table, the state containers (applications, session,
toasts, notes, notifications, file lists, admin panel, manager
assignment), the forms' handlers, and the small decision functions
(routers, role gate, password-reset steps).

The backend is never modelled. Every call to it is a parameter of the
handler that makes it: a `Reply<T>` that is `Ok(data)` (a reply with
`success: true`), `Rejected(message)` (a reply with `success: false`; ""
stands for a missing message) or `Thrown(message)` (an exception). Each
React handler is one atomic step. The requests a handler would send are
returned as out-parameters, and so are the toasts it asks for
(`ToastRequest(message, type)`).

JavaScript data becomes explicit values:
- a plain object is an ordered list of entries (`JsObject.Entries`);
- a property write replaces an existing key in place and appends a new one.
  That is JavaScript's key order for the non-numeric field names the app
  uses; the rule that integer-like keys come first, in ascending order, is
  not modelled;
- a field value is `Undefined`, `Null`, `Bool`, an integer `Num` or `Str`,
  with JavaScript's truthiness (`JsValue`).

Each stateful component or context becomes a class. Its React state fields
are class fields; its handlers are methods whose `ensures` give the whole
new state in terms of the old one. The pure parts (masks, validators,
mappings, routing) are functions with lemmas.

| file | module | source |
|---|---|---|
| js_value.dfy, js_object.dfy, js_text.dfy, lists.dfy, records.dfy | JsValue, JsObject, JsText, Lists, Records | the JavaScript semantics every component relies on |
| phone_normalizer.dfy | PhoneNormalizer | src/api/utils.js |
| phone_mask.dfy | PhoneMask | the `handlePhoneChange` masks of the forms |
| validation.dfy | Validation | src/utils/validation.js |
| applications_api.dfy | ApplicationsApi | src/api/applicationsAPI.js |
| toast_utils.dfy | ToastUtils | src/utils/toastUtils.js |
| toast_context.dfy | ToastContext | src/context/ToastContext.jsx |
| applications_context.dfy | ApplicationsContext | src/context/ApplicationsContext.jsx |
| auth_context.dfy | AuthContext | src/context/AuthContext.jsx |
| forms.dfy | Forms | what the form components share |
| register_form.dfy, login_form.dfy, forgot_password.dfy, profile_page.dfy | Register, Login, ForgotPassword, Profile | src/components/auth/ |
| auth_application_form.dfy, auth_edit_application_form.dfy | AuthCreateApplication, AuthEditApplication | src/components/auth/ApplicationForm.jsx, EditApplicationForm.jsx |
| application_form.dfy, edit_application_form.dfy | CreateApplication, EditApplication | src/components/applications/ |
| order_form.dfy, sections_order_form.dfy | Order, SectionsOrder | src/components/OrderForm.jsx, src/components/sections/OrderForm.jsx |
| file_upload.dfy, file_upload_bounded.dfy | FileUpload, FileUploadBounded | src/components/FileUpload.jsx, src/components/utils/FileUpload.jsx |
| admin_panel.dfy, application_notes.dfy, manager_assignment.dfy | AdminPanel, ApplicationNotes, ManagerAssignment | src/components/admin/ |
| notifications_list.dfy | NotificationsList | src/components/notifications/NotificationsList.jsx |
| require_role.dfy, app_router.dfy, core_app_router.dfy | RequireRole, AppRouter, CoreAppRouter | src/components/RequireRole.jsx, AppRouter.jsx, core/AppRouter.jsx |

## Model

| member | source | states |
|---|---|---|
| JsValue.Or | src/components/applications/EditApplicationForm.jsx:37-45 | `a \|\| b`: a truthy left value is kept, a falsy one gives the right value |
| JsValue.OrText | src/components/applications/EditApplicationForm.jsx:164 | `message \|\| fallback` on strings: a non-empty message is kept, "" gives the fallback |
| JsValue.AsText | src/components/auth/RegisterForm.jsx:49-54 | a string field reads as its string; any other value as "" |
| JsValue.ErrorToasts | src/components/applications/EditApplicationForm.jsx:121-123 | one error toast per message, same count, same order |
| JsObject.IndexOf | src/components/auth/RegisterForm.jsx:22 | the position found holds the key and no earlier entry does; -1 exactly when no entry has the key |
| JsObject.Prop | src/components/auth/RegisterForm.jsx:49-54 | `o[k]` reads the stored value, or `undefined` for a missing key |
| JsObject.Keys | src/components/applications/EditApplicationForm.jsx:125 | `Object.keys`: one key per entry, in insertion order |
| JsObject.Values | src/components/applications/EditApplicationForm.jsx:121 | `Object.values`: one value per entry, in insertion order |
| JsObject.Put | src/components/auth/RegisterForm.jsx:22 | `{...o, [k]: v}`: `k` reads `v`, every other key reads as before; an existing key keeps its position, a new one is appended |
| JsObject.Merge | src/components/admin/ApplicationNotes.jsx:99 | `{...a, ...b}`: every key reads from `b` when `b` has it and from `a` otherwise; unique keys stay unique |
| JsText.TrimStart | src/components/auth/RegisterForm.jsx:49 | removes exactly the leading whitespace: the result is a suffix, starts with a non-space, and what was cut is all whitespace |
| JsText.TrimEnd | src/components/auth/RegisterForm.jsx:49 | removes exactly the trailing whitespace, symmetrically |
| JsText.BlankIffAllSpace | src/components/auth/RegisterForm.jsx:49 | the blank check holds exactly for whitespace-only strings |
| JsText.BlankIffTrimEmpty | src/components/auth/RegisterForm.jsx:49 | `!s.trim()` holds exactly when trimming leaves nothing |
| JsText.Digits | src/api/utils.js:11 | `replace(/\D/g, '')` leaves only digits and never lengthens |
| JsText.DigitsAppend | src/api/utils.js:11 | the digits of a concatenation are the concatenated digits |
| JsText.DigitsOfDigits | src/api/utils.js:11 | stripping non-digits from a digit string changes nothing |
| JsText.Substring | src/components/auth/RegisterForm.jsx:35-39 | `substring` clamps both ends to the length and copies the characters in between |
| JsText.NatText | src/components/sections/OrderForm.jsx:103 | a count prints as non-empty decimal digits without a leading zero |
| JsText.NatTextRoundTrip | src/components/sections/OrderForm.jsx:103 | reading the printed count back gives the count |
| Lists.Filter | src/components/admin/AdminPanel.jsx:121-123 | `filter`: never longer, keeps exactly the passing elements, and changes nothing when all pass |
| Lists.FilterMember | src/components/admin/AdminPanel.jsx:121-123 | an element is kept exactly when it is present and passes |
| Lists.FilterNone | src/components/admin/AdminPanel.jsx:121-123 | nothing is kept when nothing passes |
| Lists.FilterAppend | src/components/admin/AdminPanel.jsx:121-123 | filtering keeps relative order: it distributes over concatenation |
| Lists.FilterIdempotent | src/components/admin/AdminPanel.jsx:121-123 | filtering twice is filtering once |
| Lists.FilterCount | src/components/admin/AdminPanel.jsx:121-123 | the kept and the dropped elements add up to the whole list |
| Lists.Map | src/context/ApplicationsContext.jsx:72-74 | `map`: same length, each element replaced by its image |
| Lists.MapWhere | src/context/ApplicationsContext.jsx:72-74 | only the matching elements change; with no match the list is unchanged |
| Lists.RemoveAt | src/components/utils/FileUpload.jsx:50 | the element at the index is removed and the others keep their order; an index out of range removes nothing |
| Records.Ids | src/context/ApplicationsContext.jsx:118-124 | the ids of a list, one per record, in order |
| Records.RemoveById | src/context/ApplicationsContext.jsx:96 | `filter(x => x.id !== id)`: no record with the id remains, every other record remains, and nothing changes when none has it |
| Records.RemoveByIdLength | src/context/ApplicationsContext.jsx:96 | exactly the records with the id are removed |
| Records.RemoveByIdAppend | src/context/ApplicationsContext.jsx:96 | removal keeps the others' order: it distributes over concatenation |
| Records.UpdateById | src/context/ApplicationsContext.jsx:72-74 | `map(x => x.id === id ? f(x) : x)`: same length; records with the id are replaced by their update, the others stay |
| Records.UpdateByIdKeepsIds | src/context/ApplicationsContext.jsx:118-124 | an update that keeps ids keeps the list of ids |
| JsValue.FailureToast | src/components/admin/ApplicationNotes.jsx:46-51 | a failed call shows an error toast with the backend's non-empty message, or else the fallback; an exception always shows the fallback |
| JsValue.Truthy | src/utils/validation.js:139-141 | JavaScript truthiness (`undefined`, `null`, `false`, `0`, `""` falsy), the guard of every optional check; `BudgetCheckSkipsZero` shows its effect on a zero budget |
| JsObject.Get | src/components/auth/RegisterForm.jsx:22-23 | `o[k]` finds the first entry with that key, `None` when absent; `GetFirst` and `HasIffInKeys` state it, `Put` keeps the other keys |
| JsObject.Text | src/components/auth/RegisterForm.jsx:49-54 | a string property read for `.trim()`, "" when missing; `Forms.FromUserGet` and `Forms.ProjectGet` use it |
| JsText.IsSpace | src/components/auth/RegisterForm.jsx:49 | the characters `String.prototype.trim` removes and `\s` matches |
| JsText.IsDigit | src/api/utils.js:11 | `\d`, the characters `replace(/\D/g, '')` keeps; `DigitsOfDigits` and `DigitsAppend` state the filter |
| JsText.Trim | src/components/auth/RegisterForm.jsx:49 | `s.trim()`; `BlankIffTrimEmpty` and `Validation.TrimIdempotent` state its properties |
| JsText.IsBlank | src/components/auth/RegisterForm.jsx:49 | `!s.trim()`; `BlankIffAllSpace` and `BlankIffTrimEmpty` prove it equal to both other readings |
| JsText.Contains | src/components/applications/EditApplicationForm.jsx:161 | `s.includes(part)`, which `EditApplication.UpdateFailureMessageShown` relies on |
| Records.IdOf | src/context/ApplicationsContext.jsx:73 | `app.id`, the key of every list update; `UpdateByIdKeepsIds` and `RemoveByIdLength` are stated with it |
| Records.CountId | src/context/ApplicationsContext.jsx:96 | how many records carry an id; `RemoveByIdLength` proves the filter removes exactly that many |
| PhoneNormalizer.ExtractPhoneForServer | src/api/utils.js:7-35 | an empty phone gives ""; the result is digits only and at most one digit longer than the digits entered; digits that match none of the rules are sent unchanged |
| PhoneNormalizer.SubscriberDigitsKept | src/api/utils.js:11-34 | with ten or more digits entered, the last ten digits sent are the last ten entered |
| PhoneNormalizer.TenDigitsGetSeven | src/api/utils.js:29-31 | ten digits, whatever surrounds them, are sent with 7 in front |
| PhoneNormalizer.CanonicalIff | src/api/utils.js:14-31 | the result is eleven digits from 7 exactly for 10 digits, 11 digits from 7 or 8, or 12 digits from 77 |
| PhoneNormalizer.CanonicalIsFixed | src/api/utils.js:19-21 | a canonical number is sent unchanged |
| PhoneNormalizer.IdempotentIff | src/api/utils.js:14-31 | normalizing twice equals normalizing once exactly unless the digits are twelve starting with 78 |
| PhoneNormalizer.RulesOnDigits | src/api/utils.js:14-34 | all five rules stated directly on a digit string: 8 to 7 for eleven digits, eleven digits from 7 unchanged, twelve from 7 lose the first digit, ten get a 7, anything else unchanged |
| PhoneNormalizer.EightPrefixExample | src/api/utils.js:14-16 | "89991234567" is sent as "79991234567" |
| PhoneNormalizer.TenDigitExample | src/api/utils.js:29-31 | "9991234567" is sent as "79991234567" |
| PhoneNormalizer.TwelveDigitExample | src/api/utils.js:24-26 | "789161234567" is sent as "89161234567", which a second pass would change again |
| PhoneNormalizer.IsCanonical | src/api/utils.js:19-21 | eleven digits starting with 7; `CanonicalIff` says which inputs reach it, `CanonicalIsFixed` that it is left unchanged |
| PhoneMask.PrefixSeven | src/components/auth/RegisterForm.jsx:30-33 | no digits stay empty; otherwise the result starts with 7 and carries the digits after a leading 7, or all of them |
| PhoneMask.VariantDigits | src/components/applications/EditApplicationForm.jsx:71-80 | a leading 8 becomes 7 at any length; otherwise exactly ten digits get 7 in front; anything else is kept |
| PhoneMask.Layout | src/components/auth/RegisterForm.jsx:34-39 | the layout is at most 18 characters and is empty exactly when there are no digits |
| PhoneMask.LayoutDigits | src/components/auth/RegisterForm.jsx:34-39 | the digits of a layout are the first eleven digits laid out, in order |
| PhoneMask.LayoutTruncates | src/components/auth/RegisterForm.jsx:34-39 | the layout reads only the first eleven digits |
| PhoneMask.StandardMaskDigits | src/components/auth/RegisterForm.jsx:29-42 | the digits of the masked value are the 7-prefixed digits cut at eleven |
| PhoneMask.StandardMaskShape | src/components/auth/RegisterForm.jsx:29-42 | the mask is empty exactly when no digit was typed, is at most 18 characters, and otherwise starts with "+7" |
| PhoneMask.StandardMaskIdempotent | src/components/auth/RegisterForm.jsx:29-42 | masking a masked value changes nothing |
| PhoneMask.StandardMaskIgnoresExtraDigits | src/components/auth/RegisterForm.jsx:39 | once eleven digits are shown, further digits change nothing |
| PhoneMask.Shown | src/components/auth/RegisterForm.jsx:30-39 | the digits a masked field shows are at most eleven and are empty exactly when none was typed |
| PhoneMask.StandardMaskIsLayoutOfShown | src/components/auth/RegisterForm.jsx:29-42 | the mask is the layout of the shown digits, and its digits are exactly those |
| PhoneMask.ShownAfterKeystroke | src/components/auth/RegisterForm.jsx:29-42 | one more keystroke into the masked field shows the digits that the raw keystrokes would |
| PhoneMask.KeystrokeConsistent | src/components/auth/RegisterForm.jsx:29-42 | masking the masked field plus one keystroke equals masking all raw keystrokes: the field can be typed character by character |
| PhoneMask.MaskThenNormalize | src/components/auth/RegisterForm.jsx:29-65 | a canonical number, masked and then normalized for the server, comes back unchanged |
| PhoneMask.MaskedFullNumberIsCanonical | src/components/auth/RegisterForm.jsx:29-65 | with eleven digits on screen, the number sent is those eleven digits and is canonical |
| PhoneMask.StandardMaskKeepsLeadingEight | src/components/auth/RegisterForm.jsx:31-33 | eleven digits from 8 are sent as 7 followed by the first ten digits, while normalizing the raw input gives 7 followed by the last ten |
| PhoneMask.LayoutOfEleven | src/components/auth/RegisterForm.jsx:34-39 | eleven digits are laid out as "+d (ddd) ddd-dd-dd" |
| PhoneMask.CanonicalDisplay | src/components/auth/RegisterForm.jsx:29-42 | a canonical number is shown as "+7 (XXX) XXX-XX-XX" over its last ten digits |
| PhoneMask.LeadingEightDisplay | src/components/auth/RegisterForm.jsx:31-39 | eleven digits from 8 are shown with the 8 inside the area code and the last digit dropped |
| PhoneMask.VariantMaskDigits | src/components/applications/EditApplicationForm.jsx:70-91 | the digits of the variant mask are the rewritten digits cut at eleven |
| PhoneMask.VariantKeepsOtherLeadingDigit | src/components/applications/EditApplicationForm.jsx:73-84 | a first digit other than 7 or 8 is kept: "9" shows as "+9" |
| PhoneMask.VariantMaskPreservesNormalized | src/components/applications/EditApplicationForm.jsx:70-146 | for eleven digits from 7 or 8, and ten digits not from 8, masking does not change the number sent |
| PhoneMask.VariantOfTenFromEight | src/components/applications/EditApplicationForm.jsx:73-76 | ten digits from 8 are shown as ten digits from 7 |
| PhoneMask.VariantTenDigitsFromEight | src/components/applications/EditApplicationForm.jsx:73-146 | ten digits from 8 are sent as "77…" after masking but as "78…" when normalized raw |
| PhoneMask.VariantIdempotentIff | src/components/applications/EditApplicationForm.jsx:70-91 | re-masking changes nothing exactly unless the digits are ten starting with 8 |
| PhoneMask.Cut | src/components/auth/RegisterForm.jsx:34-39 | `substring(lo, hi)` clamped to the digits present; `LayoutDigits` states what the layout keeps |
| PhoneMask.Segment | src/components/auth/RegisterForm.jsx:34-39 | one `if (length > lo)` step of the layout; `LayoutDigits` and `LayoutTruncates` state the whole |
| PhoneMask.StandardMask | src/components/auth/RegisterForm.jsx:29-42 | the keystroke mask; `StandardMaskDigits`, `StandardMaskShape`, `StandardMaskIdempotent` and `MaskThenNormalize` state its properties |
| PhoneMask.VariantMask | src/components/applications/EditApplicationForm.jsx:70-91 | the edit form's mask; `VariantMaskDigits`, `VariantMaskPreservesNormalized` and `VariantIdempotentIff` state its properties |
| ApplicationsContext.FailureMessage | src/context/ApplicationsContext.jsx:30-35 | a rejected reply ends with its own message or, without one, the operation's default; an exception keeps its message |
| ApplicationsContext.WithStatusOfChangesTwoFields | src/context/ApplicationsContext.jsx:119-123 | submitting changes only `status` and `statusDisplay`, to the reply's values; every other field reads as before |
| ApplicationsContext.WithStatusOfKeepsId | src/context/ApplicationsContext.jsx:119-123 | submitting never changes a record's id |
| ApplicationsContext.ApplicationsProvider.constructor | src/context/ApplicationsContext.jsx:15-17 | the list starts empty, not loading, no error |
| ApplicationsContext.ApplicationsProvider.Fail | src/context/ApplicationsContext.jsx:33-37 | a failure keeps the list, sets the error, ends loading and returns `{success: false, message}` |
| ApplicationsContext.ApplicationsProvider.FetchApplications | src/context/ApplicationsContext.jsx:20-39 | success exactly when the reply succeeds; success replaces the list with the reply's list or [], failure keeps the list and reports the message; loading ends false |
| ApplicationsContext.ApplicationsProvider.CreateApplication | src/context/ApplicationsContext.jsx:41-61 | success appends the new application at the end; failure keeps the list and reports the message |
| ApplicationsContext.ApplicationsProvider.UpdateApplication | src/context/ApplicationsContext.jsx:63-85 | success replaces each entry with the id by the reply's application, the others stay in place; failure keeps the list |
| ApplicationsContext.ApplicationsProvider.DeleteApplication | src/context/ApplicationsContext.jsx:87-107 | success removes exactly the entries with the id, the rest in order; failure keeps the list |
| ApplicationsContext.ApplicationsProvider.SubmitApplication | src/context/ApplicationsContext.jsx:109-135 | success changes only the status fields of the entries with the id and keeps every id in place; failure keeps the list |
| ApplicationsContext.SetStatus | src/context/ApplicationsContext.jsx:119-123 | `{...app, status, statusDisplay}` from the reply; `WithStatusOfChangesTwoFields` proves only those two fields change |
| ApplicationsContext.WithStatusOf | src/context/ApplicationsContext.jsx:119-123 | the `map` callback of a submit; `WithStatusOfKeepsId` proves it keeps the id |
| ToastContext.WithoutId | src/context/ToastContext.jsx:35-37 | every remaining toast was there and has another id; every toast with another id remains; an unknown id changes nothing |
| ToastContext.IncreasingIdsDistinct | src/context/ToastContext.jsx:14-18 | counter-numbered ids that increase along the list are pairwise distinct |
| ToastContext.WithoutIdKeepsBound | src/context/ToastContext.jsx:35-37 | a lower bound on every id survives a removal |
| ToastContext.WithoutIdKeepsIncreasing | src/context/ToastContext.jsx:35-37 | removal keeps the ids increasing along the list |
| ToastContext.WithoutIdCons | src/context/ToastContext.jsx:36 | removal from a non-empty list keeps the head unless it has the id, then continues with the rest |
| ToastContext.FirstIsBelowRest | src/context/ToastContext.jsx:14-18 | in an increasing list the first id is below every later one |
| ToastContext.IncreasingCons | src/context/ToastContext.jsx:27 | a toast below every later id in front of an increasing list keeps it increasing |
| ToastContext.WithoutIdRemovesAtMostOne | src/context/ToastContext.jsx:35-37 | with distinct ids, a removal takes out at most one toast |
| ToastContext.ToastProvider.constructor | src/context/ToastContext.jsx:15-21 | no toasts, counter at 0, no pending timers |
| ToastContext.ToastProvider.GenerateUniqueId | src/context/ToastContext.jsx:14-18 | the counter goes up by one before naming the id, and the new id is held by no toast and no pending timer |
| ToastContext.ToastProvider.ShowToast | src/context/ToastContext.jsx:23-33 | one toast is appended under a fresh id, with kind "info" by default, and its removal is scheduled |
| ToastContext.ToastProvider.RemoveToast | src/context/ToastContext.jsx:35-37 | the list becomes the list without that id, at most one shorter, ids still increasing |
| ToastContext.ToastProvider.Expire | src/context/ToastContext.jsx:30-32 | a firing timer is exactly `removeToast` of the id it was scheduled with, and leaves the pending list |
| ToastContext.ShowMany | src/context/ToastContext.jsx:23-27 | successive `showToast` calls show the messages in call order under pairwise distinct ids |
| ToastUtils.Lookup | src/utils/toastUtils.js:4-28 | a table key reads its message; any other key reads as "" |
| ToastUtils.MapApiErrorMessage | src/utils/toastUtils.js:33-35 | a known API message maps to its table text, any other to the default text; the result is never empty |
| ToastUtils.RawMessageNeverShown | src/utils/toastUtils.js:33-35 | the final `\|\| apiMessage` is never reached: the API's own text is never shown unless it equals a table text |
| ToastUtils.MapApiErrorMessageExamples | src/utils/toastUtils.js:22-35 | "Forbidden" maps to its text and an unknown message to the default |
| ToastUtils.ShowApiNotification | src/utils/toastUtils.js:40-49 | success shows the success message when one is given and nothing otherwise; failure shows the mapped message as an error; at most one non-empty toast |
| RequireRole.Render | src/components/RequireRole.jsx:16-38 | the placeholder exactly while loading; the children exactly when loaded and the user's role is allowed |
| RequireRole.Redirect | src/components/RequireRole.jsx:7-14 | a redirect, when there is one, goes to `redirectTo` |
| RequireRole.RenderOrRedirect | src/components/RequireRole.jsx:7-38 | no redirect while loading; afterwards the gate renders its children exactly when it does not redirect, and renders nothing exactly when it redirects |
| RequireRole.DefaultGateDeniesEveryone | src/components/RequireRole.jsx:4 | with the default props nobody is admitted and everyone is sent to "/login" |
| ToastContext.IncreasingIds | src/context/ToastContext.jsx:15-17 | ids increase along the list, the invariant the counter keeps; `IncreasingIdsDistinct` proves they are then unique |
| RequireRole.Admits | src/components/RequireRole.jsx:33 | `user && allowedRoles.includes(user.role)`; `Render` and `Redirect` are stated with it, and `RenderOrRedirect` proves they agree |
| AppRouter.Route | src/components/AppRouter.jsx:31-72 | the main application while the session loads; afterwards each named path (with its alias) shows its screen |
| AppRouter.RoutePathOf | src/components/AppRouter.jsx:36-69 | routing the path a screen is navigated to gives that screen back |
| AppRouter.UnknownPathsShowApp | src/components/AppRouter.jsx:71-72 | any path the router does not name shows the main application, and only named paths show something else |
| AppRouter.Router.constructor | src/components/AppRouter.jsx:13 | the path starts as the browser's pathname, with no pushed entries |
| AppRouter.Router.Navigate | src/components/AppRouter.jsx:26-29 | `navigate(path)` pushes one history entry and sets the path |
| AppRouter.Router.OnPopState | src/components/AppRouter.jsx:16-23 | going back or forward sets the path to the browser's and pushes nothing |
| AppRouter.NavigateTo | src/components/AppRouter.jsx:26-69 | navigating to a screen's path shows that screen once the session has loaded |
| CoreAppRouter.CoreRoute | src/components/core/AppRouter.jsx:33-89 | the main application while loading; "/forgot-password" shows the reset screen; the admin paths show the panel behind a gate for admins and managers that redirects to "/" |
| CoreAppRouter.AgreesWithPlainRouter | src/components/core/AppRouter.jsx:33-89 | the two routers choose the same screen on every path except the reset path and the admin paths, where this one adds the reset screen and the gate |
| CoreAppRouter.AdminPathGated | src/components/core/AppRouter.jsx:80-86 | on an admin path a loaded session sees the panel exactly when the user is an admin or a manager; anyone else is sent to "/" |
| AppRouter.PathOf | src/components/AppRouter.jsx:36-69 | the path each screen is routed from; `RoutePathOf` proves routing it gives that screen back |
| AuthContext.WithoutTokens | src/context/AuthContext.jsx:34-35 | both token keys are gone and every other stored key keeps its value |
| AuthContext.AuthProvider.constructor | src/context/AuthContext.jsx:15-17 | no user, not authenticated, loading, storage as found |
| AuthContext.AuthProvider.CheckAuthStatus | src/context/AuthContext.jsx:19-55 | the backend is asked exactly when an access token is stored; a valid token restores the user and the flag; a rejection or exception removes both tokens and keeps the rest; loading ends false |
| AuthContext.AuthProvider.Login | src/context/AuthContext.jsx:57-78 | success exactly when the reply succeeds; success stores both tokens and sets the user and the flag; a failure changes nothing and returns the reply's message, an exception the connection message |
| AuthContext.AuthProvider.Register | src/context/AuthContext.jsx:80-101 | the same outcome and state change as login |
| AuthContext.AuthProvider.StartSession | src/context/AuthContext.jsx:61-77 | the shared body of login and register, with the same contract |
| AuthContext.AuthProvider.Logout | src/context/AuthContext.jsx:103-118 | whatever the backend answers, both tokens go, the user is cleared and the flag drops |
| AuthContext.AuthProvider.UpdateProfile | src/context/AuthContext.jsx:120-134 | success replaces the user; failure keeps it; tokens and flag never change; an exception returns the profile-update message |
| AuthContext.SessionSurvivesRejectedCheck | src/context/AuthContext.jsx:29-78 | after a login, a status check whose token is rejected removes the tokens but leaves the session authenticated |
| AuthContext.HasToken | src/context/AuthContext.jsx:20-21 | a non-empty access token is stored; `AuthProvider.CheckAuthStatus` asks the server exactly when it holds |
| ApplicationsApi.SnakeKeyRange | src/api/applicationsAPI.js:155-182 | a renamed key becomes a snake_case name, every other key (`priority` included) is kept, and no key is ever mapped to a renamed camelCase one |
| ApplicationsApi.Transformed | src/api/applicationsAPI.js:152-186 | the object built entry by entry never holds a key twice |
| ApplicationsApi.TransformApplicationData | src/api/applicationsAPI.js:152-186 | the loop builds exactly the reference object; each key holds the value of the last entry mapped to it, and no renamed camelCase key survives |
| ApplicationsApi.GetAllFilters | src/api/applicationsAPI.js:5-40 | the filters go through the same mapping before they become query parameters |
| ApplicationsApi.LastMappedTo | src/api/applicationsAPI.js:154-183 | a value found for a key is the value of an entry mapped to that key; none is found exactly when no entry maps there |
| ApplicationsApi.TransformedGet | src/api/applicationsAPI.js:152-186 | values are never altered, and when several keys map to one name the later entry wins |
| ApplicationsApi.NothingMapsToCamel | src/api/applicationsAPI.js:155-182 | a renamed camelCase key never appears in the output |
| ApplicationsApi.MappedKeyIsNotCamel | src/api/applicationsAPI.js:155-182 | a key that some entry maps to is never a renamed camelCase key |
| ApplicationsApi.TransformedFixesMappedKeys | src/api/applicationsAPI.js:180-181 | an object whose keys the mapping leaves alone comes back as it is, order included |
| ApplicationsApi.SnakeCaseInputUnchanged | src/api/applicationsAPI.js:180-181 | input without renamed camelCase keys is sent unchanged |
| ApplicationsApi.TransformIdempotent | src/api/applicationsAPI.js:152-186 | transforming twice is transforming once |
| ApplicationsApi.SnakeKey | src/api/applicationsAPI.js:155-182 | the key renaming of the `switch`; `SnakeKeyRange`, `NothingMapsToCamel` and `MappedKeyIsNotCamel` state its range |
| Validation.AfterPlus | src/utils/validation.js:37-45 | the part the phone pattern checks is the whole string, or the string less one leading "+" |
| Validation.ValidPasswordPassesFormChecks | src/utils/validation.js:15-23 | a password of the validator's shape is present and has at least six characters, so the register form's own checks pass it |
| Validation.WeakPasswordExample | src/utils/validation.js:15-23 | six lowercase letters are rejected by the password rule |
| Validation.PasswordNeedsEachClass | src/utils/validation.js:15-23 | an accepted password is never all lowercase: it needs an uppercase letter |
| Validation.StrongPasswordExample | src/utils/validation.js:15-23 | "Passw0rd" has the accepted shape |
| Validation.TrimIdempotent | src/utils/validation.js:26-34 | trimming twice gives what trimming once gives |
| Validation.FullNameIgnoresSurroundingSpace | src/utils/validation.js:26-34 | the full-name verdict of a string and of its trimmed form agree |
| Validation.ValidFullNameIsNotBlank | src/utils/validation.js:26-34 | an accepted full name is not blank |
| Validation.CanonicalPhoneIsValid | src/utils/validation.js:37-45 | every "+7" plus ten digits phone passes `validatePhone` |
| Validation.NormalizedPhoneIsValid | src/utils/validation.js:37-45 | a canonical output of `extractPhoneForServer` passes `validatePhone` |
| Validation.LayoutThirdChar | src/utils/validation.js:37-45 | a mask of two or more digits has a space as its third character |
| Validation.MaskedPhoneIsInvalid | src/utils/validation.js:37-45 | no value the keystroke mask produces passes `validatePhone` |
| Validation.BlankTitlePassesValidator | src/utils/validation.js:58-65 | five spaces pass `validateTitle` although they are blank |
| Validation.OptionalFieldsCap | src/utils/validation.js:48-75 | company name and description: non-strings pass, strings pass exactly up to 100 and 5000 characters |
| Validation.UuidOfGroups | src/utils/validation.js:114-121 | hex groups 8-4-4-4-12 with version 1 to 5 and variant 8, 9, a or b joined by hyphens form an accepted UUID |
| Validation.ToLower | src/utils/validation.js:114-121 | the lowercase form has the same length and differs only where an uppercase Latin letter is folded |
| Validation.UuidCaseInsensitive | src/utils/validation.js:114-121 | a string is an accepted UUID exactly when its lowercase form is |
| Validation.MediumPriorityRejected | src/utils/validation.js:197-200 | "medium" is not an accepted priority, "normal" is |
| Validation.RedesignServiceRejected | src/utils/validation.js:184-194 | "redesign" is not an accepted service type |
| Validation.AdminOnlyStatusesRejected | src/utils/validation.js:203-216 | "needs_info" and "estimated" are not accepted statuses |
| Validation.EnumsAcceptOnlyListedStrings | src/utils/validation.js:184-240 | an enumeration accepts exactly the listed strings; only "other" is both a file type and a service type; no note type is a status |
| Validation.Selected | src/utils/validation.js:124-151 | the reported messages are among the candidates, no more of them, and none exactly when no check failed |
| Validation.SelectedCons | src/utils/validation.js:124-151 | the report of a list is the first message if its check failed, then the report of the rest |
| Validation.SelectedFrom | src/utils/validation.js:124-151 | the same step taken at any position of the list |
| Validation.SelectedOfFive | src/utils/validation.js:124-151 | five checks report the five messages whose checks failed, in check order |
| Validation.FivePushes | src/utils/validation.js:124-151 | five conditional pushes onto an empty list give that report |
| Validation.SelectedMember | src/utils/validation.js:124-151 | with distinct messages, a message is reported exactly when its own check failed |
| Validation.PushIf | src/utils/validation.js:127-129 | the message is appended when the check failed, and the list is unchanged otherwise |
| Validation.RegisterMessageIff | src/utils/validation.js:124-151 | each register message is reported exactly when its check fails; phone and company are checked only when truthy |
| Validation.RegisterPushes | src/utils/validation.js:124-146 | the five pushes of the register check, in order, give the report |
| Validation.ValidateRegisterData | src/utils/validation.js:124-151 | the errors are the register report and `isValid` holds exactly when it is empty |
| Validation.ApplicationMessageIff | src/utils/validation.js:154-181 | each application message is reported exactly when its check fails; budget, contact email and phone only when truthy |
| Validation.ApplicationPushes | src/utils/validation.js:154-175 | the five pushes of the application check, in order, give the report |
| Validation.ValidateApplicationData | src/utils/validation.js:154-181 | the errors are the application report and `isValid` holds exactly when it is empty |
| Validation.BudgetCheckSkipsZero | src/utils/validation.js:165-167 | a zero budget is falsy and not checked; a negative number budget is reported |
| Validation.MaskedRegisterPhoneReported | src/utils/validation.js:139-141 | a masked phone with at least one digit reaching the register check is reported as malformed |
| Validation.ValidateEmail | src/utils/validation.js:4-12 | a string with no space that the `validator` library accepts, with that check passed in as a parameter; `RegisterMessageIff` uses it |
| Validation.PasswordChar | src/utils/validation.js:21 | `[a-zA-Z\d@$!%*?&]`, the allowed password characters |
| Validation.ValidatePassword | src/utils/validation.js:15-23 | eight or more allowed characters with a lower, an upper and a digit; `PasswordNeedsEachClass` and `ValidPasswordPassesFormChecks` state it |
| Validation.NameChar | src/utils/validation.js:26-34 | letters (Latin, Cyrillic, ё), whitespace and hyphen |
| Validation.ValidateFullName | src/utils/validation.js:26-34 | the trimmed name has 2 to 100 name characters; `FullNameIgnoresSurroundingSpace` and `ValidFullNameIsNotBlank` state it |
| Validation.ValidatePhone | src/utils/validation.js:37-45 | `^\+?[1-9]\d{1,14}$`; `CanonicalPhoneIsValid`, `NormalizedPhoneIsValid` and `MaskedPhoneIsInvalid` state which phones pass |
| Validation.ValidateCompanyName | src/utils/validation.js:48-55 | a non-string passes, a string has at most 100 characters; `OptionalFieldsCap` states it |
| Validation.ValidateTitle | src/utils/validation.js:58-65 | a string of 5 to 200 characters; `BlankTitlePassesValidator` shows a blank title passes |
| Validation.ValidateDescription | src/utils/validation.js:68-75 | a non-string passes, a string has at most 5000 characters; `OptionalFieldsCap` states it |
| Validation.ValidateBudget | src/utils/validation.js:78-81 | a non-negative number; `BudgetCheckSkipsZero` shows the guard around it |
| Validation.UuidCharAt | src/utils/validation.js:114-121 | the character the UUID pattern allows at each position |
| Validation.ValidateUUID | src/utils/validation.js:114-121 | 36 characters in 8-4-4-4-12 groups, version 1-5, variant 8/9/a/b; `UuidOfGroups` and `UuidCaseInsensitive` state it |
| Validation.Includes | src/utils/validation.js:193 | `list.includes(v)` with strict equality: only a listed string matches |
| Validation.ValidateServiceType | src/utils/validation.js:184-194 | one of the six service types; `EnumsAcceptOnlyListedStrings` and `RedesignServiceRejected` state it |
| Validation.ValidatePriority | src/utils/validation.js:197-200 | one of the listed priorities; `MediumPriorityRejected` shows "medium" is not |
| Validation.ValidateStatus | src/utils/validation.js:203-216 | one of the listed statuses; `AdminOnlyStatusesRejected` and `AdminPanel.ValidatedStatusesHaveLabels` state it |
| Validation.ValidateFileType | src/utils/validation.js:219-228 | one of the listed file categories; `EnumsAcceptOnlyListedStrings` states it |
| Validation.ValidateNoteType | src/utils/validation.js:231-240 | one of the listed note types; `EnumsAcceptOnlyListedStrings` states it |
| Validation.RegisterFailures | src/utils/validation.js:124-146 | which of the five register checks fail, in order, the last two only when truthy; `RegisterMessageIff` states each |
| Validation.ApplicationFailures | src/utils/validation.js:154-175 | which of the five application checks fail, in order; `ApplicationMessageIff` states each |
| Forms.ClearError | src/components/auth/ApplicationForm.jsx:47-50 | after an edit the field shows no message; every other message and the key order stay |
| Forms.Flag | src/components/auth/ApplicationForm.jsx:73-78 | a failed check sets the field's message (a later check overwrites an earlier); other fields are untouched |
| Forms.Field | src/components/auth/EditApplicationForm.jsx:35-43 | `source.key \|\| fallback`: the field when truthy, the fallback otherwise |
| Forms.WithMaskedPhone | src/components/auth/ApplicationForm.jsx:53-66 | the phone field holds the standard mask of the input; every other field and the key order stay |
| Forms.WithServerPhone | src/components/auth/ApplicationForm.jsx:88-94 | the sent copy holds the normalized phone, digits only; every other field and the key order stay |
| Forms.TypedPhoneIsSent | src/components/auth/ApplicationForm.jsx:53-94 | a canonical number typed into the phone field shows in at most 18 characters and is sent exactly as typed |
| Forms.LiteralGet | src/components/auth/EditApplicationForm.jsx:126-136 | an object literal with distinct keys reads each key where it is written and nothing under other keys |
| Forms.Fallback | src/components/auth/EditApplicationForm.jsx:34-45 | the loaded object lists the targets in order, each read from its source field with its default |
| Forms.UserField | src/components/auth/ApplicationForm.jsx:16-19 | `user?.key \|\| ''`: the user's field when there is a user and it is truthy, "" otherwise |
| Forms.FromUser | src/components/auth/ApplicationForm.jsx:16-19 | the contact fields in order, each the user's field it names |
| Forms.FromUserGet | src/components/auth/ApplicationForm.jsx:16-19 | with distinct names each contact field reads its user field, and no other key is present |
| Forms.Blank | src/components/auth/ApplicationForm.jsx:13-15 | every listed field starts as "" |
| Forms.Project | src/components/auth/EditApplicationForm.jsx:126-136 | each target holds the source field it names, in the listed order |
| Forms.ProjectGet | src/components/auth/EditApplicationForm.jsx:126-136 | with distinct targets each reads its source field, and no other key is present |
| Forms.InitialFields | src/components/auth/ApplicationForm.jsx:12-21 | the initial form has its keys in order, the head fields empty and the contact fields the user's or "" |
| Forms.CopyWithUserFields | src/components/sections/OrderForm.jsx:84-94 | the payload copies the form's own fields and takes the contact fields from the user, keys in order |
| Forms.CopyWithUserPhone | src/components/sections/OrderForm.jsx:84-94 | normalizing the phone in that payload changes only the phone field |
| Forms.NamesAreDistinct | src/components/auth/ApplicationForm.jsx:73-78 | the camelCase and the snake_case field names the checks use are pairwise distinct |
| Forms.TitleError | src/components/auth/ApplicationForm.jsx:73-74 | a title under five characters gets the length message; a longer one gets "required" exactly when blank |
| Forms.TitleServiceErrors | src/components/auth/ApplicationForm.jsx:73-75 | messages for the title and, when none is chosen, the service type, and nothing else |
| Forms.CreationErrors | src/components/auth/ApplicationForm.jsx:72-78 | one message per failed creation check, under that field's key, and nothing under other keys |
| Forms.CreationErrorsEmptyIff | src/components/auth/ApplicationForm.jsx:72-83 | no message at all exactly when every creation check passes |
| Forms.EmailOfParts | src/components/auth/EditApplicationForm.jsx:95 | every `name@host.tld` of non-empty parts without spaces or `@` matches the email pattern |
| Forms.MatchingEmailShape | src/components/auth/EditApplicationForm.jsx:95 | a matching address has no whitespace, exactly one `@`, and is not blank |
| Forms.EmailCounterexamples | src/components/auth/EditApplicationForm.jsx:95 | "a@b", "a b@c.d" and "a@b@c.d" do not match; "a@b.c" does |
| Forms.EmailError | src/components/auth/EditApplicationForm.jsx:93-97 | no email message exactly when the pattern matches; "required" when blank, "invalid" otherwise |
| Forms.EditTitleServiceErrors | src/components/auth/EditApplicationForm.jsx:77-83 | messages for a blank title and a missing service type, and nothing else |
| Forms.EditHeadErrors | src/components/auth/EditApplicationForm.jsx:77-91 | adds the description and, where the form checks it, the contact name |
| Forms.EditErrors | src/components/auth/EditApplicationForm.jsx:74-101 | one message per failed edit check, the email's from the pattern, and nothing under other keys |
| Forms.EditErrorsEmptyIff | src/components/auth/EditApplicationForm.jsx:74-110 | the edit form is valid exactly when every check passes, the email matching the pattern |
| Forms.Shows | src/components/auth/ApplicationForm.jsx:137 | `errors[name] &&`: the field shows a message; the `ValidateForm` and `HandleSubmit` contracts are stated with it |
| Forms.Initial | src/components/auth/ApplicationForm.jsx:12-21 | the initial form of the creation forms; `InitialFields` states every field |
| Forms.CopyWithUser | src/components/sections/OrderForm.jsx:84-94 | the form's fields then the user's; `CopyWithUserFields` and `CopyWithUserPhone` state every field |
| Forms.MatchesEmail | src/components/auth/EditApplicationForm.jsx:95 | `/^[^\s@]+@[^\s@]+\.[^\s@]+$/`; `EmailOfParts`, `MatchingEmailShape` and `EmailCounterexamples` state both directions |
| AuthCreateApplication.FormKeysDistinct | src/components/auth/ApplicationForm.jsx:12-21 | the form's field names are distinct and the contact fields pair one to one with the user's |
| AuthCreateApplication.InitialFormFields | src/components/auth/ApplicationForm.jsx:12-21 | the eight fields in order; title, description and service type empty; contact fields the user's or "" |
| AuthCreateApplication.FormErrorsEmptyIff | src/components/auth/ApplicationForm.jsx:72-83 | nothing is sent unless the title has five characters and is not blank, a service is chosen and the contact name, email and phone are filled |
| AuthCreateApplication.InitialPhoneRoundTrip | src/components/auth/ApplicationForm.jsx:16-18 | the user's canonical phone, submitted untouched, is sent unchanged, and so is every other field |
| AuthCreateApplication.ApplicationForm.constructor | src/components/auth/ApplicationForm.jsx:12-24 | the form starts from the user, without messages, not loading |
| AuthCreateApplication.ApplicationForm.HandleChange | src/components/auth/ApplicationForm.jsx:43-51 | the field takes the value and only its own message is cleared |
| AuthCreateApplication.ApplicationForm.HandlePhoneChange | src/components/auth/ApplicationForm.jsx:53-66 | only the contact phone changes, to the mask of the input |
| AuthCreateApplication.ApplicationForm.HandleSubmit | src/components/auth/ApplicationForm.jsx:68-109 | with messages nothing is sent; otherwise the data with the normalized phone is sent, a success goes to `onSuccess`, a failure leaves one general message, and loading ends off |
| CreateApplication.FormKeysDistinct | src/components/applications/ApplicationForm.jsx:16-25 | the form's field names are distinct and the contact fields pair one to one with the user's |
| CreateApplication.InitialFormFields | src/components/applications/ApplicationForm.jsx:16-25 | the eight fields in order; title, description and service type empty; contact fields the user's or "" |
| CreateApplication.FormErrorsEmptyIff | src/components/applications/ApplicationForm.jsx:78-93 | nothing is sent unless the title has five characters and is not blank, a service is chosen and the contact name, email and phone are filled |
| CreateApplication.InitialPhoneRoundTrip | src/components/applications/ApplicationForm.jsx:20-22 | the user's canonical phone, submitted untouched, is sent unchanged, and so is every other field |
| CreateApplication.ApplicationForm.constructor | src/components/applications/ApplicationForm.jsx:16-30 | the form starts from the user, with no created application, no messages, not loading |
| CreateApplication.ApplicationForm.HandleChange | src/components/applications/ApplicationForm.jsx:49-57 | the field takes the value and only its own message is cleared |
| CreateApplication.ApplicationForm.HandlePhoneChange | src/components/applications/ApplicationForm.jsx:59-72 | only the contact phone changes, to the mask of the input |
| CreateApplication.ApplicationForm.HandleSubmit | src/components/applications/ApplicationForm.jsx:74-120 | messages show as error toasts in order and nothing is sent; otherwise the data is sent, a success keeps the created application, and each outcome shows one toast |
| CreateApplication.ApplicationForm.Send | src/components/applications/ApplicationForm.jsx:95-119 | loading ends off whatever the reply; the toast and the kept application follow the reply |
| AuthCreateApplication.InitialForm | src/components/auth/ApplicationForm.jsx:12-21 | the initial form; `InitialFormFields` states every field |
| AuthCreateApplication.FormErrors | src/components/auth/ApplicationForm.jsx:72-78 | the submit checks; `FormErrorsEmptyIff` states when none fire |
| AuthCreateApplication.ApplicationData | src/components/auth/ApplicationForm.jsx:89-94 | the form with the phone normalized; `Forms.TypedPhoneIsSent` states the phone sent |
| CreateApplication.InitialForm | src/components/applications/ApplicationForm.jsx:16-25 | the initial form; `InitialFormFields` states every field |
| CreateApplication.FormErrors | src/components/applications/ApplicationForm.jsx:78-93 | the submit checks; `FormErrorsEmptyIff` states when none fire |
| CreateApplication.ApplicationData | src/components/applications/ApplicationForm.jsx:99-104 | the form with the phone normalized; `Forms.TypedPhoneIsSent` states the phone sent |
| AuthEditApplication.KeysDistinct | src/components/auth/EditApplicationForm.jsx:15-26 | the form's and the application's field names are each distinct and pair one to one |
| AuthEditApplication.NamesFollowApiMapping | src/components/auth/EditApplicationForm.jsx:126-136 | each form field is sent under the name the applications API's key mapping gives it |
| AuthEditApplication.LoadedFields | src/components/auth/EditApplicationForm.jsx:32-47 | the loaded form has the nine fields in order, each the application's when truthy and its default otherwise |
| AuthEditApplication.LoadingNothingGivesInitial | src/components/auth/EditApplicationForm.jsx:15-45 | loading an empty application gives the initial form |
| AuthEditApplication.FormErrorsEmptyIff | src/components/auth/EditApplicationForm.jsx:74-110 | valid exactly when title, description, contact name and phone are filled, a service is chosen and the email matches |
| AuthEditApplication.ApplicationDataShape | src/components/auth/EditApplicationForm.jsx:124-136 | the nine application fields exactly; the phone normalized; each other field the form field mapped to that name |
| AuthEditApplication.LoadThenSave | src/components/auth/EditApplicationForm.jsx:32-136 | saving a loaded application unedited sends back each non-phone field as stored when truthy, its default otherwise |
| AuthEditApplication.StoredPhoneRoundTrip | src/components/auth/EditApplicationForm.jsx:40-132 | a stored canonical phone is sent back unchanged |
| AuthEditApplication.EditApplicationForm.constructor | src/components/auth/EditApplicationForm.jsx:15-29 | the initial form, no attachments, no messages, not submitting |
| AuthEditApplication.EditApplicationForm.Load | src/components/auth/EditApplicationForm.jsx:32-47 | with an application the form is loaded and the attachments are its files or none; without one nothing changes |
| AuthEditApplication.EditApplicationForm.HandleChange | src/components/auth/EditApplicationForm.jsx:49-57 | the field takes the value and only its own message is cleared |
| AuthEditApplication.EditApplicationForm.HandlePhoneChange | src/components/auth/EditApplicationForm.jsx:59-72 | only the contact phone changes, to the mask of the input |
| AuthEditApplication.EditApplicationForm.ValidateForm | src/components/auth/EditApplicationForm.jsx:74-111 | the messages replace the old ones, each shows as an error toast in order, and the form is valid exactly when there is none |
| AuthEditApplication.EditApplicationForm.HandleSubmit | src/components/auth/EditApplicationForm.jsx:113-152 | an invalid form sends nothing and shows each field message as an error toast, in order; otherwise the nine fields go out under the application's id, a success reaches `onSave`, each outcome shows one toast |
| AuthEditApplication.EditApplicationForm.Send | src/components/auth/EditApplicationForm.jsx:120-151 | submitting ends off whatever the reply; the toast and the saved application follow the reply |
| AuthEditApplication.Loaded | src/components/auth/EditApplicationForm.jsx:32-47 | each field from the application or its default; `LoadedFields` states every field |
| AuthEditApplication.FormErrors | src/components/auth/EditApplicationForm.jsx:74-111 | the checks of `validateForm`; `FormErrorsEmptyIff` states when none fire |
| AuthEditApplication.ApplicationData | src/components/auth/EditApplicationForm.jsx:124-136 | the fields under their API names; `ApplicationDataShape` and `LoadThenSave` state it |
| EditApplication.FormKeysDistinct | src/components/applications/EditApplicationForm.jsx:17-27 | the nine field names are distinct, with the contact phone sixth |
| EditApplication.LoadedFields | src/components/applications/EditApplicationForm.jsx:34-46 | the loaded form has the nine fields in order, each the application's when truthy and its default otherwise |
| EditApplication.LoadingNothingGivesInitial | src/components/applications/EditApplicationForm.jsx:17-46 | loading an empty application gives the initial form |
| EditApplication.FormErrorsEmptyIff | src/components/applications/EditApplicationForm.jsx:93-126 | valid exactly when title, description and phone are filled, a service is chosen and the email matches; no contact-name check |
| EditApplication.ApplicationDataShape | src/components/applications/EditApplicationForm.jsx:140-150 | the nine fields exactly; the phone normalized; every other field as in the form |
| EditApplication.LoadThenSave | src/components/applications/EditApplicationForm.jsx:34-150 | saving a loaded application unedited sends back each non-phone field as stored when truthy, its default otherwise |
| EditApplication.StoredPhoneRoundTrip | src/components/applications/EditApplicationForm.jsx:42-146 | a stored canonical phone is sent back unchanged |
| EditApplication.TypedPhoneIsSent | src/components/applications/EditApplicationForm.jsx:70-91 | for eleven digits starting 7 or 8, or ten not starting 8, the number sent is what the typed input normalizes to |
| EditApplication.UpdateFailureMessageShown | src/components/applications/EditApplicationForm.jsx:159-166 | a rejected update always shows a message: the not-found one when the reply mentions it, else the reply's own, else the fallback |
| EditApplication.EditApplicationForm.constructor | src/components/applications/EditApplicationForm.jsx:17-31 | the initial form, no files, no messages, not submitting |
| EditApplication.EditApplicationForm.Load | src/components/applications/EditApplicationForm.jsx:34-51 | with an application the form is loaded and the files are its files or none; without one nothing changes |
| EditApplication.EditApplicationForm.SyncFiles | src/components/applications/EditApplicationForm.jsx:54-58 | present files replace the list; otherwise it stays |
| EditApplication.EditApplicationForm.HandleChange | src/components/applications/EditApplicationForm.jsx:60-68 | the field takes the value and only its own message is cleared |
| EditApplication.EditApplicationForm.HandlePhoneChange | src/components/applications/EditApplicationForm.jsx:70-91 | only the contact phone changes, to the variant mask of the input |
| EditApplication.EditApplicationForm.ValidateForm | src/components/applications/EditApplicationForm.jsx:93-126 | the messages replace the old ones, each shows as an error toast in order, and the form is valid exactly when there is none |
| EditApplication.EditApplicationForm.HandleSubmit | src/components/applications/EditApplicationForm.jsx:128-173 | an invalid form sends nothing and shows each field message as an error toast, in order; otherwise the nine fields go out under the application's id, a success reaches `onSave`, each outcome shows one toast |
| EditApplication.EditApplicationForm.Send | src/components/applications/EditApplicationForm.jsx:135-172 | submitting ends off whatever the reply; the toast and the saved application follow the reply |
| EditApplication.EditApplicationForm.HandleDeleteFile | src/components/applications/EditApplicationForm.jsx:187-209 | a success drops exactly the files with that id, keeping the rest in order; a failure keeps the list and shows the prefixed message |
| EditApplication.Loaded | src/components/applications/EditApplicationForm.jsx:34-46 | each field from the application or its default; `LoadedFields` states every field |
| EditApplication.FormErrors | src/components/applications/EditApplicationForm.jsx:93-126 | the checks of `validateForm`; `FormErrorsEmptyIff` states when none fire |
| EditApplication.ApplicationData | src/components/applications/EditApplicationForm.jsx:140-150 | the nine fields with the phone normalized; `ApplicationDataShape` and `LoadThenSave` state it |
| EditApplication.WithVariantPhone | src/components/applications/EditApplicationForm.jsx:70-91 | the phone keystroke with the variant mask; `TypedPhoneIsSent` states the phone sent |
| EditApplication.UpdateFailureMessage | src/components/applications/EditApplicationForm.jsx:159-166 | the rejected update's toast; `UpdateFailureMessageShown` states both branches |
| Register.FieldKeysDistinct | src/components/auth/RegisterForm.jsx:7-14 | the six field names are pairwise different |
| Register.AccountErrors | src/components/auth/RegisterForm.jsx:49-52 | name and email get "required" when blank; a password under six characters gets the length message, which overwrites "required" |
| Register.RegisterErrors | src/components/auth/RegisterForm.jsx:48-54 | only the name, email, password, confirmation and phone fields can get a message |
| Register.RegisterErrorsAccount | src/components/auth/RegisterForm.jsx:49-54 | the later checks keep the account messages; "Пароль обязателен" never shows |
| Register.RegisterErrorsConfirmAndPhone | src/components/auth/RegisterForm.jsx:53-54 | the confirmation message shows exactly when the passwords differ, the phone message exactly when the phone is blank |
| Register.RegisterErrorsEmptyIff | src/components/auth/RegisterForm.jsx:48-59 | `register` is called exactly when the name and email are filled, the password has six characters and matches, and the phone is filled |
| Register.UserData | src/components/auth/RegisterForm.jsx:65-73 | the five fields in order, without the confirmation, the phone all digits |
| Register.UserDataCarriesTheForm | src/components/auth/RegisterForm.jsx:67-73 | name, email, password and company go out as entered |
| Register.UserDataTypedPhone | src/components/auth/RegisterForm.jsx:29-73 | a canonical number typed into the phone field goes out as typed |
| Register.RegisterForm.constructor | src/components/auth/RegisterForm.jsx:7-16 | six empty fields with distinct keys, no messages, not loading |
| Register.RegisterForm.HandleChange | src/components/auth/RegisterForm.jsx:20-27 | the field takes the value and only its own message is cleared |
| Register.RegisterForm.HandlePhoneChange | src/components/auth/RegisterForm.jsx:29-42 | only the phone changes, to the mask of the input |
| Register.RegisterForm.HandleSubmit | src/components/auth/RegisterForm.jsx:44-88 | with messages `register` is not called; otherwise it gets the user data, and a failure or an exception leaves only the general message |
| Login.LoginErrors | src/components/auth/LoginForm.jsx:29-31 | a blank email and an empty password each get their message, and there is none exactly when both are filled |
| Login.LoginForm.constructor | src/components/auth/LoginForm.jsx:7-12 | two empty fields, no messages, not loading |
| Login.LoginForm.HandleChange | src/components/auth/LoginForm.jsx:16-23 | the field takes the value and only its own message is cleared |
| Login.LoginForm.HandleSubmit | src/components/auth/LoginForm.jsx:25-54 | with messages `login` is not called; otherwise it gets the email and the password, and a failure or an exception leaves only the general message |
| Login.FailureShowsOnlyGeneral | src/components/auth/LoginForm.jsx:46-50 | after a failed sign-in no field but the general one shows a message |
| ForgotPassword.ForgotPasswordForm.constructor | src/components/auth/ForgotPasswordForm.jsx:8-25 | the step is the email step unless the URL carries a non-empty token, which is kept and moves it to the reset step |
| ForgotPassword.ForgotPasswordForm.SetEmail | src/components/auth/ForgotPasswordForm.jsx:96 | only the email changes |
| ForgotPassword.ForgotPasswordForm.SetNewPassword | src/components/auth/ForgotPasswordForm.jsx:12 | only the new password changes |
| ForgotPassword.ForgotPasswordForm.SetConfirmPassword | src/components/auth/ForgotPasswordForm.jsx:13 | only the confirmation changes |
| ForgotPassword.ForgotPasswordForm.SendResetLink | src/components/auth/ForgotPasswordForm.jsx:27-46 | the email is sent; a success moves to the reset step, a failure keeps the step; loading ends off; the reset step is never left |
| ForgotPassword.ForgotPasswordForm.ResetPassword | src/components/auth/ForgotPasswordForm.jsx:48-75 | different passwords send nothing; otherwise token and password are sent and only a success schedules the return to sign-in |
| ForgotPassword.HasToken | src/components/auth/ForgotPasswordForm.jsx:17-25 | a non-empty token in the URL, which starts the page on the reset step |
| ForgotPassword.StepRun | src/components/auth/ForgotPasswordForm.jsx:10-106 | any run of replies, each handled by the form the current step renders: the page starts on the reset step iff the URL has a token, never leaves the reset step once on it, and ends on it iff it had a token or some link request succeeded |
| Profile.ProfileKeysDistinct | src/components/auth/ProfilePage.jsx:13-18 | the profile field names are distinct and pair one to one with the user's |
| Profile.Loaded | src/components/auth/ProfilePage.jsx:23-28 | the loaded form has the four profile fields in order |
| Profile.LoadedFromUser | src/components/auth/ProfilePage.jsx:23-28 | each loaded field is the user's field of the same meaning, "" when missing or falsy |
| Profile.ProfileData | src/components/auth/ProfilePage.jsx:69-74 | the sent profile has the phone as digits only and every other field as in the form |
| Profile.StoredPhoneRoundTrip | src/components/auth/ProfilePage.jsx:23-74 | a stored canonical phone is sent back unchanged when the loaded profile is saved |
| Profile.ProfilePage.constructor | src/components/auth/ProfilePage.jsx:12-41 | not editing, four empty profile fields, three empty password fields, no messages |
| Profile.ProfilePage.SyncWithUser | src/components/auth/ProfilePage.jsx:20-32 | with a user and outside editing the form is reloaded from the user; otherwise it is kept |
| Profile.ProfilePage.ToggleEditing | src/components/auth/ProfilePage.jsx:246 | editing flips and nothing else changes |
| Profile.ProfilePage.CancelEditing | src/components/auth/ProfilePage.jsx:309 | editing ends and nothing else changes |
| Profile.ProfilePage.HandleChange | src/components/auth/ProfilePage.jsx:44-47 | only the named profile field changes |
| Profile.ProfilePage.HandlePhoneChange | src/components/auth/ProfilePage.jsx:49-62 | only the phone changes, to the mask of the input |
| Profile.ProfilePage.HandleSubmit | src/components/auth/ProfilePage.jsx:64-90 | the profile data is sent; a success shows its message, clears the error and ends editing; a failure shows the reply's message, an exception the fixed one |
| Profile.ProfilePage.ExpireSuccessMessage | src/components/auth/ProfilePage.jsx:82 | the success message is cleared and nothing else changes |
| Profile.ProfilePage.HandlePasswordChange | src/components/auth/ProfilePage.jsx:96-107 | the field takes the value and both password messages are cleared |
| Profile.ProfilePage.HandlePasswordSubmit | src/components/auth/ProfilePage.jsx:109-140 | different new passwords show the mismatch and send nothing; otherwise both passwords are sent, and a success empties the form |
| Profile.ProfilePage.CancelPassword | src/components/auth/ProfilePage.jsx:380-386 | the password fields are emptied and both password messages cleared |
| Profile.EmptyPasswordsMatch | src/components/auth/ProfilePage.jsx:128-132 | the emptied password form passes the match check with every field "" |
| Order.ContactKeysDistinct | src/components/OrderForm.jsx:15-18 | the contact field names are distinct and pair one to one with the user's |
| Order.OrderKeysDistinct | src/components/OrderForm.jsx:11-19 | the seven field names are distinct, the contact phone sixth |
| Order.ServiceTypeValueAccepted | src/components/OrderForm.jsx:116-129 | exactly the four options map to a non-empty service type, each one the validator accepts; any other option maps to "", which fails the required check |
| Order.ServiceTypeValueNotInjective | src/components/OrderForm.jsx:118-123 | "web" and "crm" both map to "web_application" |
| Order.ResetFormFields | src/components/OrderForm.jsx:98-106 | the reset form has the seven fields in order, the first three empty and the contact fields the signed-in user's or "" |
| Order.ResetFormNeedsTitle | src/components/OrderForm.jsx:66-67 | after a reset the title is empty and resubmitting fails with the title-length message |
| Order.OrderErrorsEmptyIff | src/components/OrderForm.jsx:65-76 | an order is sent exactly when the title has five characters and is not blank, a service is chosen and the contact name, email and phone are filled |
| Order.Prefilled | src/components/OrderForm.jsx:23-34 | the four contact fields become the user's or ""; every other field keeps its value |
| Order.ApplicationDataShape | src/components/OrderForm.jsx:80-90 | exactly the seven fields are sent, the phone normalized to digits |
| Order.ApplicationDataCopies | src/components/OrderForm.jsx:82-90 | every field but the phone goes out as in the form, and no other field goes out |
| Order.PrefilledPhoneRoundTrip | src/components/OrderForm.jsx:30-88 | a signed-in user's canonical phone, prefilled and submitted, is sent unchanged |
| Order.OrderForm.constructor | src/components/OrderForm.jsx:11-21 | seven empty fields, not submitted, no messages |
| Order.OrderForm.Prefill | src/components/OrderForm.jsx:23-34 | a signed-in user's contact fields are written in; otherwise the form stays |
| Order.OrderForm.HandleChange | src/components/OrderForm.jsx:36-44 | the field takes the value and only its own message is cleared |
| Order.OrderForm.HandlePhoneChange | src/components/OrderForm.jsx:46-59 | only the contact phone changes, to the mask of the input |
| Order.OrderForm.HandleServiceChange | src/components/OrderForm.jsx:131-135 | the service type becomes the mapped option; no message is cleared |
| Order.OrderForm.HandleSubmit | src/components/OrderForm.jsx:61-113 | with messages nothing is sent; otherwise the data is sent; a success marks the form submitted and resets it, a failure leaves only the `submit` message |
| Order.OrderForm.SendAnother | src/components/OrderForm.jsx:287 | the thank-you view closes and the form stays |
| Order.ServiceTypeValue | src/components/OrderForm.jsx:116-129 | the option to service type table; `ServiceTypeValueAccepted` and `ServiceTypeValueNotInjective` state it |
| Order.ResetForm | src/components/OrderForm.jsx:98-106 | the form after a success; `ResetFormFields` states every field |
| Order.OrderErrors | src/components/OrderForm.jsx:65-76 | the submit checks; `OrderErrorsEmptyIff` states when none fire |
| Order.ApplicationData | src/components/OrderForm.jsx:80-90 | the seven fields with the phone normalized; `ApplicationDataShape` and `ApplicationDataCopies` state it |
| SectionsOrder.KeysDistinct | src/components/sections/OrderForm.jsx:85-94 | the eight application field names are distinct; the contact fields pair one to one with the user's |
| SectionsOrder.FormErrorsEmptyIff | src/components/sections/OrderForm.jsx:68-80 | an order is sent exactly when the title has five characters and is not blank and a service type is chosen |
| SectionsOrder.OfferedServicesPassCheck | src/components/sections/OrderForm.jsx:28-36 | every offered option passes the required check; only "redesign" fails the shared service-type validator |
| SectionsOrder.ApplicationDataShape | src/components/sections/OrderForm.jsx:85-94 | eight fields in order; the form's four unchanged; the contact fields from the profile, never the form, the phone normalized |
| SectionsOrder.SignedOutSendsNoContact | src/components/sections/OrderForm.jsx:90-93 | without a signed-in user every contact field goes out empty |
| SectionsOrder.StoredPhoneRoundTrip | src/components/sections/OrderForm.jsx:92 | a canonical profile phone is sent unchanged |
| SectionsOrder.UploadsArePickedFiles | src/components/sections/OrderForm.jsx:106-114 | one upload per picked file, in the picker's order, each described by its own name |
| SectionsOrder.CreatedToastsShape | src/components/sections/OrderForm.jsx:101-124 | an info toast when there are files, one toast per file, then the success toast; a file's toast is an error exactly when its upload threw |
| SectionsOrder.UploadFiles | src/components/sections/OrderForm.jsx:106-120 | the loop sends one upload per file in order and shows one toast per file |
| SectionsOrder.OrderForm.constructor | src/components/sections/OrderForm.jsx:16-25 | the empty form, no files, not submitted, no messages, dropdown closed |
| SectionsOrder.OrderForm.HandleChange | src/components/sections/OrderForm.jsx:53-61 | the field takes the value and only its own message is cleared |
| SectionsOrder.OrderForm.FilesSelected | src/components/sections/OrderForm.jsx:240 | the picker's list replaces the files |
| SectionsOrder.OrderForm.ToggleDropdown | src/components/sections/OrderForm.jsx:191 | the dropdown flips |
| SectionsOrder.OrderForm.MouseDown | src/components/sections/OrderForm.jsx:39-51 | a press outside the select closes the dropdown, one inside leaves it |
| SectionsOrder.OrderForm.SelectService | src/components/sections/OrderForm.jsx:203-213 | the service type takes the option, the dropdown closes, only the service message is cleared |
| SectionsOrder.OrderForm.HandleSubmit | src/components/sections/OrderForm.jsx:64-141 | messages show as error toasts and nothing is sent; otherwise the data is sent, and a success uploads the files to the new application and empties form and file list |
| SectionsOrder.OrderForm.Created | src/components/sections/OrderForm.jsx:99-140 | on success the uploads, the toasts in order and the reset; otherwise one error toast and nothing else changes |
| SectionsOrder.OrderForm.SendAnother | src/components/sections/OrderForm.jsx:265 | the thank-you view closes and nothing else changes |
| SectionsOrder.FormErrors | src/components/sections/OrderForm.jsx:68-80 | the title and service checks; `FormErrorsEmptyIff` states when none fire |
| SectionsOrder.ApplicationData | src/components/sections/OrderForm.jsx:85-94 | the form then the user's contact fields; `ApplicationDataShape` and `SignedOutSendsNoContact` state it |
| SectionsOrder.UploadRequests | src/components/sections/OrderForm.jsx:106-114 | one upload per picked file; `UploadsArePickedFiles` states it |
| SectionsOrder.UploadToast | src/components/sections/OrderForm.jsx:113-119 | an upload's toast: error only on an exception; `CreatedToastsShape` states the sequence |
| SectionsOrder.UploadToasts | src/components/sections/OrderForm.jsx:106-120 | one toast per upload in order; `CreatedToastsShape` states it |
| SectionsOrder.UploadingToast | src/components/sections/OrderForm.jsx:103 | the info toast naming the file count |
| SectionsOrder.CreatedToasts | src/components/sections/OrderForm.jsx:101-124 | every toast after creation; `CreatedToastsShape` states its length and order |
| FileUpload.Uploaded | src/components/FileUpload.jsx:29-31 | no more records than replies; all of them when every upload succeeds; none when none does |
| FileUpload.UploadedAreTheSuccesses | src/components/FileUpload.jsx:26-39 | a record is appended exactly when some upload's reply returned it |
| FileUpload.UploadRequests | src/components/FileUpload.jsx:19-24 | one request per file, in order, each of category "document" described by the file's name |
| FileUpload.UploadToasts | src/components/FileUpload.jsx:26-39 | one toast per file, in order, each `UploadToast` of that file's reply: success names the file, a rejection appends the reply's message ("undefined" when it has none), an exception names the file only |
| FileUpload.UploadedStep | src/components/FileUpload.jsx:29-30 | one more reply appends its record exactly when it succeeded |
| FileUpload.UploadToastsStep | src/components/FileUpload.jsx:32-38 | one more file appends exactly its own toast |
| FileUpload.UploadEach | src/components/FileUpload.jsx:19-40 | the loop sends each file's request, keeps each successful record and shows one toast per file, in selection order |
| FileUpload.Uploader.constructor | src/components/FileUpload.jsx:6-8 | the list starts as the initial files, not uploading |
| FileUpload.Uploader.UploadBatch | src/components/FileUpload.jsx:11-86 | an empty selection changes nothing; otherwise the list grows by exactly the successful records in order, which also go to the parent, and uploading ends off |
| FileUpload.Uploader.RemoveFile | src/components/FileUpload.jsx:92-106 | a success drops exactly the records with that id, keeping the rest in order; a failure keeps the list |
| FileUpload.UploadToast | src/components/FileUpload.jsx:26-39 | a success toast iff the upload succeeded; a rejection prints the reply's message, "undefined" when it has none |
| FileUploadBounded.WithIds | src/components/utils/FileUpload.jsx:26-32 | one picked entry per selected file, in order, each with its own file and the next id |
| FileUploadBounded.FilesOf | src/components/utils/FileUpload.jsx:26-32 | the files of the entries, in order |
| FileUploadBounded.AppendKeepsIds | src/components/utils/FileUpload.jsx:26-35 | fresh ids keep the list's ids increasing and below the next id |
| FileUploadBounded.FilesOfAppend | src/components/utils/FileUpload.jsx:35 | the files of two lists joined are the files of each, joined |
| FileUploadBounded.FilePicker.constructor | src/components/utils/FileUpload.jsx:5-6 | an empty list, the bound the parent gives or 5 |
| FileUploadBounded.FilePicker.HandleFileChange | src/components/utils/FileUpload.jsx:14-47 | nothing for an empty selection; a selection past the bound is refused with a toast; otherwise the files follow the old ones in order, the parent gets the new list, and the list never exceeds the bound |
| FileUploadBounded.FilePicker.Append | src/components/utils/FileUpload.jsx:26-36 | the new entries follow the old ones, their files exactly the selection, ids still distinct |
| FileUploadBounded.FilePicker.RemoveFile | src/components/utils/FileUpload.jsx:49-54 | exactly the file at that position goes (none out of range), the parent gets the new list, an info toast shows |
| FileUploadBounded.TooManyFiles | src/components/utils/FileUpload.jsx:20-21 | the refusal toast naming the limit |
| FileUploadBounded.AddedMessage | src/components/utils/FileUpload.jsx:42-46 | the file's name for one file, the count otherwise |
| AdminPanel.GetStatusDisplay | src/components/admin/AdminPanel.jsx:61-76 | a known code shows its label; any other status shows as itself |
| AdminPanel.LabelIsNotACode | src/components/admin/AdminPanel.jsx:61-76 | a known code's label is never a code and never the code itself |
| AdminPanel.LabelsInvert | src/components/admin/AdminPanel.jsx:62-73 | reading the table backwards recovers every code from its label |
| AdminPanel.StatusLabelsAreDistinct | src/components/admin/AdminPanel.jsx:62-73 | two known codes never share a label |
| AdminPanel.ValidatedStatusesHaveLabels | src/components/admin/AdminPanel.jsx:62-73 | every status the shared validator accepts has a label of its own |
| AdminPanel.FilterByStatus | src/components/admin/AdminPanel.jsx:116-125 | the effect stores a list exactly for the three filter values, the whole list for "all" |
| AdminPanel.FiltersPartition | src/components/admin/AdminPanel.jsx:120-124 | "rejected" and "active" split the list: each application is in exactly one, and the lengths add up |
| AdminPanel.PartitionCount | src/components/admin/AdminPanel.jsx:120-124 | the two filtered lists together are as long as the list |
| AdminPanel.DashboardCountsBounded | src/components/admin/AdminPanel.jsx:199-209 | the approved and in-review cards count disjoint applications and together never exceed the total card |
| AdminPanel.VisibleTabs | src/components/admin/AdminPanel.jsx:127-133 | the sidebar shows only tabs the user may see, in order |
| AdminPanel.AdminOnlyTabs | src/components/admin/AdminPanel.jsx:127-133 | the first two tabs need a manager, the last three an admin |
| AdminPanel.ShownIffAllowed | src/components/admin/AdminPanel.jsx:127-133 | a tab is shown exactly when the user may see it |
| AdminPanel.TabsByRole | src/components/admin/AdminPanel.jsx:19-21 | an admin sees all five tabs, a manager only the first two, anyone else none |
| AdminPanel.LoadsOnTab | src/components/admin/AdminPanel.jsx:98-114 | applications load for a manager on the dashboard or applications tab, users for an admin on the dashboard or users tab |
| AdminPanel.WithNewStatusChangesTwoFields | src/components/admin/AdminPanel.jsx:48 | a status change sets `status` and its label and leaves every other field |
| AdminPanel.AdminPanelState.constructor | src/components/admin/AdminPanel.jsx:10-17 | the dashboard tab, empty lists, not loading, no error, filter "all" |
| AdminPanel.AdminPanelState.SelectTab | src/components/admin/AdminPanel.jsx:98-114 | the tab becomes active; the lists its role and tab call for are loaded only when the active tab actually changes, and no other state changes |
| AdminPanel.AdminPanelState.RefreshFilter | src/components/admin/AdminPanel.jsx:116-125 | the filtered list becomes the filter of the list; nothing else changes |
| AdminPanel.AdminPanelState.ChangeFilter | src/components/admin/AdminPanel.jsx:233-242 | the chosen filter is stored and the filtered list follows it |
| AdminPanel.AdminPanelState.FetchApplications | src/components/admin/AdminPanel.jsx:23-37 | a success replaces the list (empty when absent), a rejected reply changes nothing, an exception sets the error; loading ends off and the filter stays in step |
| AdminPanel.AdminPanelState.FetchUsers | src/components/admin/AdminPanel.jsx:78-96 | nothing for a non-admin; otherwise a success replaces the users and a failure sets its message or the default |
| AdminPanel.AdminPanelState.HandleStatusChange | src/components/admin/AdminPanel.jsx:39-59 | a success updates exactly the applications with that id, keeping ids and order; a failure changes nothing and alerts the message or the default |
| AdminPanel.CodeOfLabel | src/components/admin/AdminPanel.jsx:62-73 | the status table read backwards; `LabelsInvert` proves it inverts `GetStatusDisplay` |
| AdminPanel.IsRejected | src/components/admin/AdminPanel.jsx:121 | `app.status === 'rejected'`; `FiltersPartition` states the split |
| AdminPanel.IsActive | src/components/admin/AdminPanel.jsx:123 | `app.status !== 'rejected'`; `FiltersPartition` and `PartitionCount` state the split |
| AdminPanel.IsApprovedLike | src/components/admin/AdminPanel.jsx:199 | approved or completed |
| AdminPanel.IsInReviewLike | src/components/admin/AdminPanel.jsx:209 | in review or submitted |
| AdminPanel.ApprovedCount | src/components/admin/AdminPanel.jsx:199 | the approved card; `DashboardCountsBounded` bounds it |
| AdminPanel.InReviewCount | src/components/admin/AdminPanel.jsx:209 | the in-review card; `DashboardCountsBounded` bounds it |
| AdminPanel.Role | src/components/admin/AdminPanel.jsx:20-21 | `user?.role`, undefined without a user |
| AdminPanel.IsAdmin | src/components/admin/AdminPanel.jsx:20 | `user?.role === 'admin'`; `TabsByRole` states the tabs it opens |
| AdminPanel.IsManager | src/components/admin/AdminPanel.jsx:21 | manager or admin; `TabsByRole` states the tabs it opens |
| AdminPanel.Allowed | src/components/admin/AdminPanel.jsx:127-133 | a tab's `allowed` flag; `ShownIffAllowed` proves the sidebar shows exactly these |
| AdminPanel.AllowedFor | src/components/admin/AdminPanel.jsx:133 | the sidebar filter; `VisibleTabs` uses it |
| AdminPanel.WithNewStatus | src/components/admin/AdminPanel.jsx:48 | the updated row; `WithNewStatusChangesTwoFields` proves only two fields change |
| ApplicationNotes.Insert | src/components/admin/ApplicationNotes.jsx:42-44 | inserting a note adds exactly that note to the list |
| ApplicationNotes.InsertBound | src/components/admin/ApplicationNotes.jsx:42-44 | an upper bound on every timestamp survives an insertion under it |
| ApplicationNotes.InsertKeepsOrder | src/components/admin/ApplicationNotes.jsx:42-44 | inserting into a newest-first list keeps it newest first |
| ApplicationNotes.SortNewestFirst | src/components/admin/ApplicationNotes.jsx:41-45 | the loaded notes end up newest first by `created_at` and are a permutation of the reply's notes |
| ApplicationNotes.SortedInputUnchanged | src/components/admin/ApplicationNotes.jsx:41-45 | notes already newest first keep their order |
| ApplicationNotes.PrependNewestKeepsOrder | src/components/admin/ApplicationNotes.jsx:78-79 | a note at least as new as every other keeps the list newest first when put in front |
| ApplicationNotes.MergeKeepsId | src/components/admin/ApplicationNotes.jsx:98-99 | merging a reply without an id keeps the note's id, and every field the reply carries wins |
| ApplicationNotes.NotesPanel.constructor | src/components/admin/ApplicationNotes.jsx:12-26 | no notes, empty input, loading, not saving, no open editor, note type "comment" |
| ApplicationNotes.NotesPanel.LoadNotes | src/components/admin/ApplicationNotes.jsx:35-55 | success stores the reply's notes newest first as a permutation; a failure keeps the list and shows the error toast; loading ends off |
| ApplicationNotes.NotesPanel.CreateNote | src/components/admin/ApplicationNotes.jsx:58-90 | blank input sends nothing and shows "Введите текст заметки"; otherwise the request carries content and type, success puts the note in front and clears the input, failure keeps both; saving ends off |
| ApplicationNotes.NotesPanel.UpdateNote | src/components/admin/ApplicationNotes.jsx:93-110 | success merges the reply's note into exactly the notes with that id and closes the editor; failure changes nothing but the toast |
| ApplicationNotes.NotesPanel.DeleteNote | src/components/admin/ApplicationNotes.jsx:113-131 | without confirmation nothing happens; success removes exactly the notes with that id; failure keeps the list |
| ApplicationNotes.NotesPanel.MergeInto | src/components/admin/ApplicationNotes.jsx:98-100 | every note with the id takes the reply's fields over its own, the others and the length stay |
| ApplicationNotes.NotesPanel.TogglePin | src/components/admin/ApplicationNotes.jsx:134-150 | success merges like an update and shows "закреплена" or "откреплена" after the reply's `is_pinned`; failure keeps the list |
| ApplicationNotes.NotesPanel.StartEditing | src/components/admin/ApplicationNotes.jsx:263-268 | a click on a note's text opens its editor only for a manager, admin or super_admin; nothing else changes |
| ApplicationNotes.CreatedAt | src/components/admin/ApplicationNotes.jsx:43 | the timestamp the sort compares |
| ApplicationNotes.NewestFirst | src/components/admin/ApplicationNotes.jsx:41-45 | the sort's order; `SortNewestFirst` and `PrependNewestKeepsOrder` establish it |
| ApplicationNotes.NoteRequest | src/components/admin/ApplicationNotes.jsx:69-72 | the create request body |
| ApplicationNotes.CanEditNotes | src/components/admin/ApplicationNotes.jsx:265 | manager, admin or super_admin; `StartEditing` and the edit buttons are gated on it |
| ApplicationNotes.MergedWith | src/components/admin/ApplicationNotes.jsx:98-99 | `{...note, ...changes}`; `MergeKeepsId` proves the id stays |
| ManagerAssignment.FirstWithIdTail | src/components/admin/ManagerAssignment.jsx:61 | past a first manager with another id, the first match lies in the rest of the list |
| ManagerAssignment.ManagerName | src/components/admin/ManagerAssignment.jsx:61 | the name is the `full_name` of the first manager with that id, and undefined when no manager has it |
| ManagerAssignment.Assign | src/components/admin/ManagerAssignment.jsx:61 | the row gets the manager's id and name; every other field stays |
| ManagerAssignment.SelectedManager | src/components/admin/ManagerAssignment.jsx:117 | the select shows the assigned id when truthy and "" otherwise |
| ManagerAssignment.ManagerLabel | src/components/admin/ManagerAssignment.jsx:113 | the manager column is never empty and reads "Не назначен" without a name |
| ManagerAssignment.UnknownManagerShowsUnassigned | src/components/admin/ManagerAssignment.jsx:61-118 | assigning an id no manager has shows "Не назначен" while the select shows the id |
| ManagerAssignment.AssignmentTable.constructor | src/components/admin/ManagerAssignment.jsx:9-12 | no applications, no managers, not loading, no error |
| ManagerAssignment.AssignmentTable.LoadApplications | src/components/admin/ManagerAssignment.jsx:19-36 | success replaces the list (an absent list gives none); a rejection toasts its message; an exception also sets the error; loading ends off |
| ManagerAssignment.AssignmentTable.LoadManagers | src/components/admin/ManagerAssignment.jsx:38-50 | success replaces the managers; a failure keeps them and toasts |
| ManagerAssignment.AssignmentTable.HandleAssignManager | src/components/admin/ManagerAssignment.jsx:52-73 | success assigns the manager to exactly the applications with that id, keeping length and ids; failure changes nothing but the toast |
| ManagerAssignment.FirstWithId | src/components/admin/ManagerAssignment.jsx:61 | the manager `find` returns; `FirstWithIdTail` and `ManagerName` are stated with it |
| NotificationsList.MarkRead | src/components/notifications/NotificationsList.jsx:48 | the notification becomes read and every other field stays |
| NotificationsList.NavigationStaysInRange | src/components/notifications/NotificationsList.jsx:156-171 | an enabled "Назад" never asks for a page below 1 and an enabled "Вперед" never one past the last |
| NotificationsList.MarkingLastUnread | src/components/notifications/NotificationsList.jsx:108-112 | after marking one id read, the "mark all" button stays exactly when some notification with another id is unread |
| NotificationsList.NotificationsPanel.constructor | src/components/notifications/NotificationsList.jsx:11-14 | no notifications, loading, no error, empty pagination |
| NotificationsList.NotificationsPanel.LoadNotifications | src/components/notifications/NotificationsList.jsx:20-39 | success replaces list and pagination (absent parts empty); a rejection sets its message or the default as the error; an exception sets "Не удалось загрузить уведомления"; loading ends off |
| NotificationsList.NotificationsPanel.MarkAsRead | src/components/notifications/NotificationsList.jsx:41-59 | success marks exactly the notifications with that id read, keeping length and ids; failure changes nothing but the toast |
| NotificationsList.NotificationsPanel.MarkAllAsRead | src/components/notifications/NotificationsList.jsx:61-77 | success marks every notification read, so none is left unread; failure changes nothing but the toast |
| NotificationsList.IsUnread | src/components/notifications/NotificationsList.jsx:108 | `!n.is_read` |
| NotificationsList.SomeUnread | src/components/notifications/NotificationsList.jsx:108 | the "mark all" button shows; `MarkingLastUnread` states when it stops |
| NotificationsList.ShowPagination | src/components/notifications/NotificationsList.jsx:156 | more than one page; `NavigationStaysInRange` states the buttons |
| NotificationsList.BackEnabled | src/components/notifications/NotificationsList.jsx:160 | not on the first page; `NavigationStaysInRange` states it |
| NotificationsList.ForwardEnabled | src/components/notifications/NotificationsList.jsx:167 | not on the last page; `NavigationStaysInRange` states it |

## Quirks of the code the model follows

Each item below is a behaviour of the code that a reader might not expect.
The model keeps it. Where a lemma makes it visible, the lemma is named.

- The standard mask does not rewrite a leading 8: "89161234567" shows as
  "+7 (891) 612-34-56", not "+7 (916) 123-45-67"
  (`PhoneMask.StandardMaskKeepsLeadingEight`, `PhoneMask.LeadingEightDisplay`).
- The variant mask of the dashboard's edit form is idempotent only on some
  inputs (`PhoneMask.VariantIdempotentIff`). The normalizer is idempotent
  only on some inputs too (`PhoneNormalizer.IdempotentIff`).
- What a masked phone field holds never passes `validatePhone`
  (`Validation.MaskedPhoneIsInvalid`). Only the normalized form, which the
  forms send, passes it (`Validation.NormalizedPhoneIsValid`).
- The forms do not agree on key casing:
  - the auth forms and the landing page's order form build camelCase
    payloads;
  - the dashboard forms and the order section build snake_case ones;
  - the applications API renames only seven camelCase keys
    (`ApplicationsApi.TransformedFixesMappedKeys`).
- `validatePriority` accepts "normal", while both edit forms load "medium"
  as the default (`Validation.MediumPriorityRejected`).
- `validateServiceType` lacks "redesign", which three forms offer
  (`Validation.RedesignServiceRejected`).
- `validateStatus` lacks "needs_info" and "estimated", which the admin
  panel labels and offers (`Validation.AdminOnlyStatusesRejected`).
- A status check whose token the backend rejects removes both tokens but
  leaves the user and `isAuthenticated` as they were
  (`AuthContext.SessionSurvivesRejectedCheck`).
- The admin panel's `fetchApplications` ignores a reply with
  `success: false`: no error, and the list is kept.
- src/components/core/AppRouter.jsx imports `RequireRole` from
  '../components/common/RequireRole'. That path is not part of the
  repository. The model uses the gate of src/components/RequireRole.jsx.
- In RegisterForm the length check on the password runs after the
  required check and overwrites it. So "Пароль обязателен" never
  shows (`Register.RegisterErrorsAccount`).
- The same holds for the title: a blank title shorter than five characters
  shows the length message (`Forms.TitleError`).
- `validateTitle` accepts five spaces, which every form's required check
  rejects (`Validation.BlankTitlePassesValidator`).
- The registration failure message reads "попроруйте", as in the code.
- In ManagerAssignment the select passes its string value as the manager
  id. A lookup that finds no manager leaves the name undefined, so the
  row reads "Не назначен" while the select shows the id
  (`ManagerAssignment.UnknownManagerShowsUnassigned`).

## Left out

- The backend, HTTP, localStorage, `window.location`, `history.pushState`,
  `window.confirm` and `alert`:
  - replies are parameters;
  - tokens are a map field;
  - a confirmation is a boolean parameter;
  - a redirect or alert is a returned value.
- Timers: a toast's expiry and the profile page's success-message timeout
  are explicit events (methods) rather than scheduled callbacks.
- React's asynchronous interleaving is not modelled. That covers
  overlapping requests, stale closures, effect ordering, and the renders
  between the iterations of an upload loop. Each handler is one step, and
  only its final state is stated.
- `validateEmail`, `validateUrl` and `validateDate` delegate to the
  `validator` library or to JavaScript date parsing. The email check is a
  parameter `isEmail` of the aggregate validators. The other two are not
  part of this model.
- Numbers are integers. NaN, fractions and the `Number(...)` conversion of
  the budget inputs are left out; the budget field's value is a parameter.
- `formatFileSize`, the size display and all date and locale formatting
  are presentation over floating point and are not modelled. A note's
  `created_at` is an integer timestamp.
- Ids from `Date.now` and `Math.random` are not modelled:
  - the file picker's `generateId` is a counter;
  - the timestamp suffix of a toast id is a parameter.
- Text fields read a non-string value as "". Inherited (prototype)
  properties of objects are not modelled.
- An exception's message, where a catch shows it, is the `Thrown` message.
  That message stands for `error.response?.data?.message` in
  ForgotPasswordForm, ProfilePage and ManagerAssignment, and for the
  AdminPanel status change's alert. The `error.message || error` fallback
  for an exception without a message is not modelled.
- `FileUpload.Uploader.UploadBatch`: the outer catch with "Ошибка загрузки
  файлов" is left out, because only a per-file upload can fail in the
  model. The list of outcomes is required to be as long as the list of
  files.
- `EditApplication.EditApplicationForm.HandleDeleteFile`: an application
  without `files` is not modelled. In the code, such an application makes
  the unused `updatedApplication` copy throw after the list update, so an
  error toast replaces the success toast.
- `AuthContext.AuthProvider.Logout`: the redirect after logout is left
  out; the sign-out itself is modelled.
- The profile page's view tab (`activeTab`) only chooses what is rendered
  and is not modelled.
- Lengths are counted in Dafny characters (Unicode code points), while
  JavaScript's `length` counts UTF-16 code units. A character outside the
  Basic Multilingual Plane counts once in the model and twice in the code.
  The following members are affected:
- `Validation.OptionalFieldsCap`: the 100- and 5000-character caps of
  `validateCompanyName` and `validateDescription` (validation.js:54,74) are
  stated over code points.
- `Validation.ValidateTitle`: the 5-to-200 bound (validation.js:64) is
  stated over code points; `ValidateFullName`'s 2-to-100 bound likewise.
- `Forms.TitleError`: the `title.length < 5` check of the forms is stated
  over code points.
- `Register.AccountErrors`: the `password.length < 6` check
  (RegisterForm.jsx:52) is stated over code points.
- The browser's own form validation (`required`, `type="email"`,
  `minLength`) is not modelled. Every submit handler is modelled for every
  input, including inputs that this validation would stop from being
  submitted.
- `ToastContext.ToastProvider.constructor`: it starts the id counter at 0.
  In the code, `toastCounter` is a module-level variable
  (ToastContext.jsx:15), so it survives a remount of the provider. The
  model covers one provider lifetime.
- `AuthContext.AuthProvider.Register`: the outcome of a rejected
  registration carries the message only; the `errors` field of the reply
  (AuthContext.jsx:95) is not returned.
- `ApplicationsContext.ApplicationsProvider.FetchApplications`,
  `CreateApplication`, `UpdateApplication` and `SubmitApplication`: the
  outcome carries success and message only. The `data` or `application`
  that a success result carries is not returned. The provider's list
  update with it is modelled.
- The presentation components, the HTTP wrappers and the build
  configuration have no behaviour to verify and are not part of this
  model.
