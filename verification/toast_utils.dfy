/** The API-error message table of src/utils/toastUtils.js and the toast a
    backend reply produces. */
module ToastUtils {
  import opened JsValue

  /** `AUTH_ERROR_MESSAGES`: fifteen API messages and a `default` entry. */
  const AuthErrorMessages: map<string, string> := map[
    "Invalid credentials" := "Ошибка аутентификации: неверный email или пароль",
    "Account not found" := "Ошибка аутентификации: аккаунт не найден",
    "Account deactivated" := "Ошибка аутентификации: аккаунт деактивирован",
    "Email not verified" := "Ошибка аутентификации: email не подтвержден",
    "Email already exists" := "Ошибка регистрации: пользователь с таким email уже существует",
    "Invalid email format" := "Ошибка регистрации: неправильный формат email",
    "Password too weak" := "Ошибка регистрации: пароль слишком слабый",
    "Phone already exists" := "Ошибка регистрации: пользователь с таким телефоном уже существует",
    "Network error" := "Ошибка сети: проверьте подключение к интернету",
    "Server error" := "Ошибка сервера: попробуйте позже",
    "Connection timeout" := "Ошибка соединения: превышено время ожидания",
    "Unauthorized" := "Ошибка доступа: требуется аутентификация",
    "Forbidden" := "Ошибка доступа: недостаточно прав",
    "Not found" := "Ошибка: запрашиваемый ресурс не найден",
    "Validation error" := "Ошибка валидации: проверьте введенные данные",
    "default" := "Произошла ошибка: попробуйте позже"
  ]

  /** `AUTH_ERROR_MESSAGES[key]` read as a string: "" for a missing key. */
  function Lookup(key: string): (r: string)
    ensures key in AuthErrorMessages ==> r == AuthErrorMessages[key]
    ensures key !in AuthErrorMessages ==> r == ""
  {
    if key in AuthErrorMessages then AuthErrorMessages[key] else ""
  }

  /** `mapApiErrorMessage(apiMessage)`:
      `AUTH_ERROR_MESSAGES[apiMessage] || AUTH_ERROR_MESSAGES.default || apiMessage`. */
  function MapApiErrorMessage(apiMessage: string): (r: string)
    ensures apiMessage in AuthErrorMessages ==> r == AuthErrorMessages[apiMessage]
    ensures apiMessage !in AuthErrorMessages ==> r == AuthErrorMessages["default"]
    ensures r != ""
  {
    OrText(OrText(Lookup(apiMessage), Lookup("default")), apiMessage)
  }

  /** Every table entry is a non-empty message, so the final `|| apiMessage`
      is never taken: the API's own text never reaches the user. */
  lemma {:induction false} RawMessageNeverShown(apiMessage: string)
    requires apiMessage != AuthErrorMessages["default"]
    requires forall k :: k in AuthErrorMessages ==> AuthErrorMessages[k] != apiMessage
    ensures MapApiErrorMessage(apiMessage) != apiMessage
  {
  }

  /** Two sample lookups: a known message and an unknown one. */
  lemma {:induction false} MapApiErrorMessageExamples()
    ensures MapApiErrorMessage("Forbidden") == "Ошибка доступа: недостаточно прав"
    ensures MapApiErrorMessage("Teapot") == "Произошла ошибка: попробуйте позже"
  {
  }

  /** `showApiNotification(response, showToast, successMessage)`: the toasts
      requested, in order. `successMessage` is "" when it is null or absent. */
  method ShowApiNotification(success: bool, message: string, successMessage: string)
    returns (toasts: seq<ToastRequest>)
    ensures success && successMessage != "" ==> toasts == [ToastRequest(successMessage, "success")]
    ensures success && successMessage == "" ==> toasts == []
    ensures !success ==> toasts == [ToastRequest(MapApiErrorMessage(message), "error")]
    ensures |toasts| <= 1
    ensures forall t :: t in toasts ==> t.message != ""
  {
    toasts := [];
    if success {
      if successMessage != "" {
        toasts := toasts + [ToastRequest(successMessage, "success")];
      }
    } else {
      var userFriendlyMessage := MapApiErrorMessage(message);
      toasts := toasts + [ToastRequest(userFriendlyMessage, "error")];
    }
  }
}
